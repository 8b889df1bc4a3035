/** What every step of the lock monitor keeps, and what its preemption rule guarantees. */
module MonitorProps {
  import opened Basics
  import opened MonitorSpec

  // ---------------------------------------------------------------- the lock-table invariant

  predicate HoldersOk(status: map<Tid, TStat>, h: Holders) {
    && (h.writer != 0 ==> h.readers == [] && h.writer in status)
    && (forall r :: r in h.readers ==> r in status)
  }

  ghost predicate Inv(s: State) {
    && s.nextTid >= 1
    && (forall t :: t in s.status ==> 1 <= t < s.nextTid)
    && (forall fd :: fd in s.transactions ==> s.transactions[fd] in s.status)
    && (forall f, g :: f in s.transactions && g in s.transactions && s.transactions[f] == s.transactions[g] ==> f == g)
    && (forall b :: b in s.blockmap ==> HoldersOk(s.status, s.blockmap[b]))
  }

  /** A connection speaks only for the transaction it began. */
  predicate OwnTid(s: State, rq: Request, who: int) {
    rq.kind == BEGIN || (who in s.transactions && s.transactions[who] == rq.tid)
  }

  predicate IsLock(k: Kind) { k == ALLOCATE || k == READ || k == WRITE || k == RELEASE }

  predicate WriteHolds(s: State, t: Tid, b: int) {
    t != 0 && b in s.blockmap && s.blockmap[b].writer == t
  }

  predicate ReadHolds(s: State, t: Tid, b: int) {
    b in s.blockmap && t in s.blockmap[b].readers
  }

  predicate Holds(s: State, t: Tid, b: int) { WriteHolds(s, t, b) || ReadHolds(s, t, b) }

  predicate Live(s: State, t: Tid) { t in s.status && s.status[t].stat != PREEMPTED }

  predicate Committing(s: State, t: Tid) { t in s.status && s.status[t].stat == COMMITTING }

  /** The library answers requests for blocks it write-holds itself, and sends only END after COMMIT. */
  predicate Disciplined(s: State, rq: Request) {
    && (IsLock(rq.kind) ==> !WriteHolds(s, rq.tid, rq.block))
    && (Committing(s, rq.tid) ==> rq.kind == BEGIN || rq.kind == END)
  }

  /** The tables after a request. */
  function After(s: State, rq: Request, who: int, now: int): State {
    var o := Process(s, rq, who, now);
    if o.Handled? then o.state else s
  }

  lemma {:induction false} ScanFindsAll(status: map<Tid, TStat>, readers: seq<Tid>, t: Tid, now: int)
    requires forall r :: r in readers ==> r in status
    ensures ScanReaders(status, readers, t, now) ==
            if exists r :: r in readers && status[r].stat != COMMITTING && r < t && now - status[r].started <= 4
            then Refused else Granted
  {
    if readers != [] {
      assert forall r :: r in readers <==> r == readers[0] || r in readers[1..];
      ScanFindsAll(status, readers[1..], t, now);
    }
  }

  /** What a lock request needs of its block: the guard under which it is granted.  A smaller tid is an older
      transaction; the time slice is four seconds. */
  ghost predicate Grantable(s: State, rq: Request, now: int) {
    var h := HoldersOf(s, rq.block);
    if rq.kind == WRITE && h.readers == [rq.tid] then true
    else if h.writer != 0 then
      h.writer in s.status && s.status[h.writer].stat != COMMITTING &&
      (h.writer > rq.tid || now - s.status[h.writer].started > 4)
    else
      rq.kind == READ ||
      forall r :: r in h.readers && r in s.status ==>
        s.status[r].stat == COMMITTING || r >= rq.tid || now - s.status[r].started > 4
  }

  /** Does this request sweep the readers of its block? */
  ghost predicate Sweeps(s: State, rq: Request, now: int) {
    && IsLock(rq.kind) && rq.kind != READ
    && Live(s, rq.tid)
    && HoldersOf(s, rq.block).writer == 0
    && !(rq.kind == WRITE && HoldersOf(s, rq.block).readers == [rq.tid])
    && Grantable(s, rq, now)
  }

  /** What a transaction is doing once it has been granted a lock. */
  function LockStatus(k: Kind): Status {
    match k
    case ALLOCATE => ALLOCATED
    case WRITE => WRITING
    case RELEASE => RELEASING
    case _ => READING
  }

  /** The holders of b that stood in the way have been preempted: its writer, and all its readers if they are swept. */
  ghost predicate Cleared(s: State, b: int, sweep: bool, s': State) {
    && s'.nextTid == s.nextTid && s'.transactions == s.transactions
    && s'.status.Keys == s.status.Keys && s'.blockmap.Keys == s.blockmap.Keys
    && (forall x :: x in s.blockmap && x != b ==> s'.blockmap[x] == s.blockmap[x])
    && (b in s.blockmap ==> s'.blockmap[b] == Holders(if sweep then [] else s.blockmap[b].readers, 0))
    && (forall u :: u in s.status ==>
          if u == HoldersOf(s, b).writer || (sweep && u in HoldersOf(s, b).readers)
          then s'.status[u].stat == PREEMPTED && s'.status[u].started == s.status[u].started
               && s'.status[u].pid == s.status[u].pid
          else s'.status[u] == s.status[u])
  }

  lemma AgainstWriterStep(s: State, t: Tid, b: int, now: int, sweep: bool)
    requires Inv(s) && b in s.blockmap && s.blockmap[b].writer != 0
    ensures var w, c := s.blockmap[b].writer, AgainstWriter(s, t, b, now);
            && w in s.status
            && (if s.status[w].stat != COMMITTING && (w > t || now - s.status[w].started > 4)
                then c.verdict == Granted && Cleared(s, b, sweep, c.state)
                else c == Check(Refused, s))
  {
    assert HoldersOk(s.status, s.blockmap[b]);
  }

  lemma CanReadStep(s: State, t: Tid, b: int, now: int)
    requires Inv(s)
    ensures var w, c := HoldersOf(s, b).writer, CanRead(s, t, b, now);
            && (w != 0 ==> w in s.status)
            && (if w == 0 || (s.status[w].stat != COMMITTING && (w > t || now - s.status[w].started > 4))
                then c.verdict == Granted && Cleared(s, b, false, c.state)
                else c == Check(Refused, s))
  {
    if b in s.blockmap && s.blockmap[b].writer != 0 {
      AgainstWriterStep(s, t, b, now, false);
    } else {
      assert 0 !in s.status;
    }
  }

  lemma SweepStep(s: State, t: Tid, b: int, now: int)
    requires Inv(s) && b in s.blockmap && s.blockmap[b].writer == 0 && s.blockmap[b].readers != []
    ensures var rs, c := s.blockmap[b].readers, CanWrite(s, t, b, now);
            if exists r :: r in rs && r in s.status && s.status[r].stat != COMMITTING && r < t && now - s.status[r].started <= 4
            then c == Check(Refused, s)
            else c.verdict == Granted && Cleared(s, b, true, c.state)
  {
    assert HoldersOk(s.status, s.blockmap[b]);
    ScanFindsAll(s.status, s.blockmap[b].readers, t, now);
    assert 0 !in s.status;
  }

  lemma CanWriteStep(s: State, t: Tid, b: int, now: int)
    requires Inv(s)
    ensures var h, c := HoldersOf(s, b), CanWrite(s, t, b, now);
            && (h.writer != 0 ==> h.writer in s.status)
            && (if if h.writer != 0
                   then s.status[h.writer].stat != COMMITTING && (h.writer > t || now - s.status[h.writer].started > 4)
                   else forall r :: r in h.readers && r in s.status ==>
                          s.status[r].stat == COMMITTING || r >= t || now - s.status[r].started > 4
                then c.verdict == Granted && Cleared(s, b, true, c.state)
                else c == Check(Refused, s))
  {
    if b in s.blockmap && s.blockmap[b].writer != 0 {
      AgainstWriterStep(s, t, b, now, true);
    } else if b in s.blockmap && s.blockmap[b].readers != [] {
      SweepStep(s, t, b, now);
    } else {
      assert 0 !in s.status;
    }
  }

  /** The tables after a granted lock request, seen from outside. */
  ghost predicate GrantedTables(s: State, rq: Request, s': State) {
    var t, b := rq.tid, rq.block;
    && s'.nextTid == s.nextTid && s'.transactions == s.transactions
    && s'.status.Keys == s.status.Keys
    && s'.blockmap.Keys == s.blockmap.Keys + {b}
    && (forall x :: x in s.blockmap && x != b ==> s'.blockmap[x] == s.blockmap[x])
    && s'.blockmap[b] == (if rq.kind == READ then Holders([t] + HoldersOf(s, b).readers, 0) else Holders([], t))
    && t in s.status && s'.status[t] == TStat(s.status[t].pid, b, s.status[t].started, LockStatus(rq.kind))
    && (forall u :: u in s.status && u != t ==>
          if u == HoldersOf(s, b).writer || (rq.kind != READ && u in HoldersOf(s, b).readers)
          then s'.status[u].stat == PREEMPTED && s'.status[u].started == s.status[u].started
               && s'.status[u].pid == s.status[u].pid
          else s'.status[u] == s.status[u])
  }

  lemma ReadGranted(s: State, rq: Request, s1: State)
    requires Inv(s) && rq.kind == READ && Live(s, rq.tid) && Cleared(s, rq.block, false, s1)
    ensures GrantedTables(s, rq, UpdateStatus(SetReader(s1, rq.block, rq.tid), rq.tid, rq.block, READING))
  {}

  lemma WriterGranted(s: State, rq: Request, s1: State)
    requires Inv(s) && rq.kind != READ && Live(s, rq.tid) && Cleared(s, rq.block, true, s1)
    ensures GrantedTables(s, rq, UpdateStatus(SetWriter(s1, rq.block, rq.tid), rq.tid, rq.block, LockStatus(rq.kind)))
  {}

  lemma UpgradeGranted(s: State, rq: Request)
    requires Inv(s) && rq.kind == WRITE && Live(s, rq.tid) && SoleReader(s, rq.tid, rq.block)
    ensures var s' := UpdateStatus(SetWriter(RemoveReader(s, rq.block, rq.tid), rq.block, rq.tid), rq.tid, rq.block, WRITING);
            GrantedTables(s, rq, s')
  {
    assert HoldersOk(s.status, s.blockmap[rq.block]);
    assert s.blockmap[rq.block].readers == [rq.tid];
    assert Without([rq.tid], rq.tid) == [];
    assert 0 !in s.status;
  }

  /** A lock request of a live transaction is granted exactly when every holder in the way must give way. */
  lemma LockStep(s: State, rq: Request, who: int, now: int)
    requires Inv(s) && IsLock(rq.kind) && Live(s, rq.tid)
    ensures Process(s, rq, who, now).Handled?
    ensures Grantable(s, rq, now) ==>
              Process(s, rq, who, now).reply == OK && GrantedTables(s, rq, Process(s, rq, who, now).state)
    ensures !Grantable(s, rq, now) ==> Process(s, rq, who, now) == Handled(s, NOT_OK)
  {
    var t, b := rq.tid, rq.block;
    if rq.kind == READ {
      CanReadStep(s, t, b, now);
      if Grantable(s, rq, now) {
        ReadGranted(s, rq, CanRead(s, t, b, now).state);
      }
    } else if rq.kind == WRITE && HoldersOf(s, b).readers == [t] {
      UpgradeGranted(s, rq);
    } else {
      CanWriteStep(s, t, b, now);
      if Grantable(s, rq, now) {
        WriterGranted(s, rq, CanWrite(s, t, b, now).state);
      }
    }
  }

  /** Every request and every disconnect keeps the invariant, so the brain-dead exits are unreachable. */
  lemma ProcessInv(s: State, rq: Request, who: int, now: int)
    requires Inv(s) && OwnTid(s, rq, who)
    ensures Process(s, rq, who, now).Handled? && Inv(Process(s, rq, who, now).state)
  {
    if IsLock(rq.kind) && Live(s, rq.tid) {
      LockStep(s, rq, who, now);
      var s' := Process(s, rq, who, now).state;
      forall x | x in s'.blockmap
        ensures HoldersOk(s'.status, s'.blockmap[x])
      {
        if x in s.blockmap {
          assert HoldersOk(s.status, s.blockmap[x]);
        }
      }
    } else {
      var s' := Process(s, rq, who, now).state;
      forall x | x in s'.blockmap
        ensures HoldersOk(s'.status, s'.blockmap[x])
      {
        assert HoldersOk(s.status, s.blockmap[x]);
      }
    }
  }

  /** A flush removes exactly one transaction from every table. */
  lemma FlushExact(s: State, fd: int)
    requires Inv(s) && fd in s.transactions
    ensures var t, s' := s.transactions[fd], Disconnect(s, fd);
            && s'.transactions == s.transactions - {fd} && s'.nextTid == s.nextTid
            && s'.status == s.status - {t}
            && forall u, b :: WriteHolds(s', u, b) == (u != t && WriteHolds(s, u, b))
                           && ReadHolds(s', u, b) == (u != t && ReadHolds(s, u, b))
  {
    var t, s' := s.transactions[fd], Disconnect(s, fd);
    forall u, b
      ensures WriteHolds(s', u, b) == (u != t && WriteHolds(s, u, b))
      ensures ReadHolds(s', u, b) == (u != t && ReadHolds(s, u, b))
    {
      if b in s.blockmap {
        assert HoldersOk(s.status, s.blockmap[b]);
        assert s'.blockmap[b] == FlushHolders(s.blockmap[b], t);
      }
    }
  }

  lemma DisconnectInv(s: State, fd: int)
    requires Inv(s)
    ensures Inv(Disconnect(s, fd))
  {
    var s' := Disconnect(s, fd);
    if fd in s.transactions {
      forall b | b in s'.blockmap
        ensures HoldersOk(s'.status, s'.blockmap[b])
      {
        assert HoldersOk(s.status, s.blockmap[b]);
        assert s'.blockmap[b] == FlushHolders(s.blockmap[b], s.transactions[fd]);
      }
    }
  }

  /** u, older than t, not committing and within the first four seconds since its BEGIN at time `begun`, has a lock on
      the block that t's request must respect. */
  predicate StandsFirm(s: State, rq: Request, now: int, u: Tid, begun: int) {
    && (WriteHolds(s, u, rq.block) || (rq.kind != READ && ReadHolds(s, u, rq.block)))
    && u in s.status && s.status[u].stat != COMMITTING && u < rq.tid && now - begun <= 4
  }

  lemma GrantableFirm(s: State, rq: Request, now: int)
    requires Inv(s) && IsLock(rq.kind) && Live(s, rq.tid) && !WriteHolds(s, rq.tid, rq.block)
    ensures Grantable(s, rq, now) <==>
              && (forall u :: WriteHolds(s, u, rq.block) ==> !Committing(s, u))
              && (forall u :: u in s.status ==> !StandsFirm(s, rq, now, u, s.status[u].started))
  {
    var h := HoldersOf(s, rq.block);
    if rq.block in s.blockmap {
      assert HoldersOk(s.status, h);
      assert h.writer != 0 ==> WriteHolds(s, h.writer, rq.block);
      assert forall u :: u in h.readers ==> ReadHolds(s, u, rq.block);
    }
  }

  /** A lock request is refused exactly when a committing writer holds the block, or a holder in its way stands firm. */
  lemma RefusedExactly(s: State, rq: Request, who: int, now: int)
    requires Inv(s) && IsLock(rq.kind) && Live(s, rq.tid) && !WriteHolds(s, rq.tid, rq.block)
    ensures Process(s, rq, who, now).Handled? && Process(s, rq, who, now).reply in {OK, NOT_OK}
    ensures Process(s, rq, who, now).reply == NOT_OK <==>
              || (exists u :: WriteHolds(s, u, rq.block) && Committing(s, u))
              || (exists u :: u in s.status && StandsFirm(s, rq, now, u, s.status[u].started))
  {
    LockStep(s, rq, who, now);
    GrantableFirm(s, rq, now);
  }

  /** The only holder of a block may write it, whoever asks and whatever the time; nobody is preempted. */
  lemma SoleReaderUpgraded(s: State, rq: Request, who: int, now: int)
    requires Inv(s) && rq.kind == WRITE && Live(s, rq.tid) && HoldersOf(s, rq.block).readers == [rq.tid]
    ensures Process(s, rq, who, now).Handled? && Process(s, rq, who, now).reply == OK
    ensures forall u :: u in s.status && u != rq.tid ==> After(s, rq, who, now).status[u] == s.status[u]
    ensures WriteHolds(After(s, rq, who, now), rq.tid, rq.block)
  {
    assert HoldersOk(s.status, s.blockmap[rq.block]);
    LockStep(s, rq, who, now);
  }

  /** What the monitor answers to RESTART, ABORT, COMMIT and END: a preempted transaction is told to die, an unknown one
      is refused, END is granted to a committing transaction and the others to every live one. */
  lemma ToldReply(s: State, rq: Request, who: int, now: int)
    requires rq.kind in {RESTART, ABORT, COMMIT, END}
    ensures Process(s, rq, who, now).Handled?
    ensures Process(s, rq, who, now).reply == OK <==>
              if rq.kind == END then Committing(s, rq.tid) else Live(s, rq.tid)
    ensures Process(s, rq, who, now).reply == DIE <==> rq.tid in s.status && !Live(s, rq.tid)
    ensures Process(s, rq, who, now).reply != OK ==> Process(s, rq, who, now).state == s
    ensures Process(s, rq, who, now).reply == OK ==>
              rq.tid in s.status && Process(s, rq, who, now).state == SetStat(s, rq.tid,
                match rq.kind case RESTART => RESTARTING case ABORT => ABORTING case COMMIT => COMMITTING case _ => ENDED)
  {}

  // ---------------------------------------------------------------- locks are kept

  /** A step takes a lock from a transaction only by preempting it. */
  lemma LocksKept(s: State, rq: Request, who: int, now: int, u: Tid, b: int)
    requires Inv(s) && OwnTid(s, rq, who) && Disciplined(s, rq)
    requires Live(After(s, rq, who, now), u)
    ensures var s' := After(s, rq, who, now);
            && (WriteHolds(s, u, b) ==> WriteHolds(s', u, b))
            && (ReadHolds(s, u, b) ==> ReadHolds(s', u, b) || (u == rq.tid && WriteHolds(s', u, b)))
  {
    if IsLock(rq.kind) && Live(s, rq.tid) {
      LockStep(s, rq, who, now);
    }
  }

  /** What a granted lock request does to the requester's own locks. */
  lemma OwnLocks(s: State, rq: Request, who: int, now: int)
    requires Inv(s) && IsLock(rq.kind) && Live(s, rq.tid)
    ensures var o := Process(s, rq, who, now);
            && o.Handled? && o.state.status.Keys == s.status.Keys
            && (o.reply != OK ==> o.state == s)
            && (o.reply == OK ==>
                  && Grantable(s, rq, now) && Live(o.state, rq.tid)
                  && (forall b :: b != rq.block ==> WriteHolds(o.state, rq.tid, b) == WriteHolds(s, rq.tid, b))
                  && (forall b :: b != rq.block ==> ReadHolds(o.state, rq.tid, b) == ReadHolds(s, rq.tid, b))
                  && (if rq.kind == READ then ReadHolds(o.state, rq.tid, rq.block) && !WriteHolds(o.state, rq.tid, rq.block)
                      else WriteHolds(o.state, rq.tid, rq.block)))
  {
    LockStep(s, rq, who, now);
  }

  /** A request gives a lock to nobody but the requester. */
  lemma NoNewLocks(s: State, rq: Request, who: int, now: int, u: Tid, b: int)
    requires Inv(s) && OwnTid(s, rq, who) && u != rq.tid
    ensures WriteHolds(After(s, rq, who, now), u, b) ==> WriteHolds(s, u, b)
  {
    if IsLock(rq.kind) && Live(s, rq.tid) {
      LockStep(s, rq, who, now);
    }
  }

  /** A granted lock is held, shared or exclusively, and excludes everybody a lock must exclude. */
  lemma GrantHolds(s: State, rq: Request, who: int, now: int)
    requires Inv(s) && IsLock(rq.kind) && Live(s, rq.tid)
    requires Process(s, rq, who, now).Handled? && Process(s, rq, who, now).reply == OK
    ensures var s' := After(s, rq, who, now);
            if rq.kind == READ then
              ReadHolds(s', rq.tid, rq.block) && forall u :: !WriteHolds(s', u, rq.block)
            else
              WriteHolds(s', rq.tid, rq.block) && forall u :: u != rq.tid ==> !Holds(s', u, rq.block)
  {
    LockStep(s, rq, who, now);
  }

  /** Requests that take no lock and open no transaction touch only the requester's status. */
  lemma StatusStep(s: State, rq: Request, who: int, now: int)
    requires Inv(s) && OwnTid(s, rq, who) && !IsLock(rq.kind) && rq.kind != BEGIN
    ensures var s' := After(s, rq, who, now);
            && s'.blockmap == s.blockmap && s'.transactions == s.transactions
            && s'.status.Keys == s.status.Keys
            && (forall u :: u in s.status && u != rq.tid ==> s'.status[u] == s.status[u])
            && (forall u :: Live(s', u) ==> Live(s, u))
            && (rq.kind != COMMIT && !Committing(s, rq.tid) ==> !Committing(s', rq.tid))
  {}

  // ---------------------------------------------------------------- preemption

  /** One request changes another transaction only to PREEMPTED, and only if that one held the block and was
      younger, past its time slice, or a committing reader. */
  lemma PreemptionJustified(s: State, rq: Request, who: int, now: int, u: Tid)
    requires Inv(s) && OwnTid(s, rq, who) && u in s.status && u != rq.tid
    ensures var s' := After(s, rq, who, now);
            && u in s'.status
            && (s'.status[u].stat != s.status[u].stat ==>
                  && s'.status[u].stat == PREEMPTED
                  && IsLock(rq.kind) && Holds(s, u, rq.block)
                  && (|| u > rq.tid || now - s.status[u].started > 4
                      || (Committing(s, u) && ReadHolds(s, u, rq.block) && rq.kind != READ)))
  {
    if IsLock(rq.kind) && Live(s, rq.tid) {
      LockStep(s, rq, who, now);
    }
  }

  lemma RefusalChangesNothing(s: State, rq: Request, who: int, now: int)
    requires Inv(s) && OwnTid(s, rq, who)
    requires Process(s, rq, who, now).Handled? && Process(s, rq, who, now).reply != OK
    ensures After(s, rq, who, now) == s
  {
    if IsLock(rq.kind) && Live(s, rq.tid) {
      LockStep(s, rq, who, now);
    }
  }

  /** doc/DOCUMENTATION says a committing transaction is never preempted.  The code preempts one exactly when
      a write-type request sweeps the readers of a block it reads. */
  lemma CommittingPreempted(s: State, rq: Request, who: int, now: int, u: Tid)
    requires Inv(s) && OwnTid(s, rq, who) && Committing(s, u) && u != rq.tid
    ensures Committing(After(s, rq, who, now), u) <==>
            !(Sweeps(s, rq, now) && ReadHolds(s, u, rq.block))
    ensures Sweeps(s, rq, now) && ReadHolds(s, u, rq.block) ==>
            After(s, rq, who, now).status[u].stat == PREEMPTED
  {
    if rq.block in s.blockmap {
      assert HoldersOk(s.status, s.blockmap[rq.block]);
    }
    if IsLock(rq.kind) && Live(s, rq.tid) {
      LockStep(s, rq, who, now);
    }
  }

  /** A preempted transaction stays preempted until it is flushed, and hears only DIE. */
  lemma PreemptedAbsorbing(s: State, rq: Request, who: int, now: int, u: Tid)
    requires Inv(s) && OwnTid(s, rq, who) && u in s.status && s.status[u].stat == PREEMPTED
    ensures var o := Process(s, rq, who, now);
            && u in After(s, rq, who, now).status && After(s, rq, who, now).status[u].stat == PREEMPTED
            && (rq.kind != BEGIN && rq.tid == u ==> o == Handled(s, DIE))
  {
    if IsLock(rq.kind) && Live(s, rq.tid) {
      LockStep(s, rq, who, now);
    }
  }

  lemma LiveBefore(s: State, rq: Request, who: int, now: int, u: Tid)
    requires Inv(s) && OwnTid(s, rq, who) && rq.kind != BEGIN
    requires Live(After(s, rq, who, now), u)
    ensures Live(s, u)
  {
    if u in s.status && s.status[u].stat == PREEMPTED {
      PreemptedAbsorbing(s, rq, who, now, u);
    } else if IsLock(rq.kind) && Live(s, rq.tid) {
      LockStep(s, rq, who, now);
    }
  }

  /** The sweep can preempt the requester itself before its handler overwrites the status. */
  lemma SelfPreemption()
    ensures exists s: State :: Inv(s) && 1 in s.status && s.status[1].stat == READING
              && 1 in CanWrite(s, 1, 5, 0).state.status
              && CanWrite(s, 1, 5, 0).state.status[1].stat == PREEMPTED
              && ReleaseRq(s, 1, 5, 0).Handled? && 1 in ReleaseRq(s, 1, 5, 0).state.status
              && ReleaseRq(s, 1, 5, 0).state.status[1].stat == RELEASING
  {
    var s := State(2, map[7 := 1], map[1 := TStat(0, 5, 0, READING)], map[5 := Holders([1], 0)]);
    assert Inv(s);
    assert ScanReaders(s.status, [1], 1, 0) == Granted;
    assert CanWrite(s, 1, 5, 0) == Check(Granted, SweepReaders(s, 5));
  }

  // ---------------------------------------------------------------- progress of the oldest

  predicate Oldest(s: State, t: Tid) { t in s.status && forall u :: u in s.status ==> t <= u }

  /** The oldest live transaction is refused a lock only by a committing writer. */
  lemma OldestRefused(s: State, rq: Request, who: int, now: int)
    requires Inv(s) && Disciplined(s, rq) && IsLock(rq.kind) && Live(s, rq.tid) && Oldest(s, rq.tid)
    ensures Process(s, rq, who, now).Handled?
    ensures Process(s, rq, who, now).reply != OK <==>
            exists u :: WriteHolds(s, u, rq.block) && Committing(s, u)
  {
    LockStep(s, rq, who, now);
    if rq.block in s.blockmap {
      var h := s.blockmap[rq.block];
      assert HoldersOk(s.status, h);
      if h.writer != 0 {
        assert WriteHolds(s, h.writer, rq.block);
        assert h.writer != rq.tid;
      }
    }
  }

  /** Nothing but the end of its time slice, four seconds after its BEGIN, gets the oldest transaction preempted before it
      commits. */
  lemma OldestKeeps(s: State, rq: Request, who: int, now: int, t: Tid)
    requires Inv(s) && OwnTid(s, rq, who) && Disciplined(s, rq)
    requires Oldest(s, t) && Live(s, t) && !Committing(s, t)
    requires !Live(After(s, rq, who, now), t)
    ensures now - s.status[t].started > 4
  {
    if t != rq.tid {
      PreemptionJustified(s, rq, who, now, t);
    } else if IsLock(rq.kind) {
      LockStep(s, rq, who, now);
    }
  }

  // ---------------------------------------------------------------- whole runs

  datatype Event = Asks(rq: Request, who: int, now: int) | Gone(fd: int)

  function Next(s: State, e: Event): State {
    match e
    case Asks(rq, who, now) => After(s, rq, who, now)
    case Gone(fd) => Disconnect(s, fd)
  }

  ghost predicate Allowed(s: State, e: Event) {
    e.Asks? ==> OwnTid(s, e.rq, e.who) && Disciplined(s, e.rq)
  }

  /** Every lock granted so far: transaction, block, exclusive or not. */
  type Grants = set<(Tid, int, bool)>

  function GrantsAfter(s: State, g: Grants, e: Event): Grants {
    if e.Asks? && IsLock(e.rq.kind) && Process(s, e.rq, e.who, e.now).Handled?
       && Process(s, e.rq, e.who, e.now).reply == OK
    then g + {(e.rq.tid, e.rq.block, e.rq.kind != READ)}
    else g
  }

  function Run(es: seq<Event>): (State, Grants) {
    if es == [] then (INITIAL, {})
    else
      var (s, g) := Run(es[..|es| - 1]);
      (Next(s, es[|es| - 1]), GrantsAfter(s, g, es[|es| - 1]))
  }

  ghost predicate AllowedRun(es: seq<Event>) {
    es == [] || (AllowedRun(es[..|es| - 1]) && Allowed(Run(es[..|es| - 1]).0, es[|es| - 1]))
  }

  /** A transaction that is not preempted still holds every lock granted since its BEGIN. */
  ghost predicate GrantsHeld(s: State, g: Grants) {
    forall t, b, x :: (t, b, x) in g ==>
      t < s.nextTid && (Live(s, t) ==> WriteHolds(s, t, b) || (!x && ReadHolds(s, t, b)))
  }

  lemma NextKeeps(s: State, g: Grants, e: Event)
    requires Inv(s) && GrantsHeld(s, g) && Allowed(s, e)
    ensures Inv(Next(s, e)) && GrantsHeld(Next(s, e), GrantsAfter(s, g, e))
  {
    var s', g' := Next(s, e), GrantsAfter(s, g, e);
    match e
    case Gone(fd) =>
      DisconnectInv(s, fd);
      if fd in s.transactions {
        FlushExact(s, fd);
      }
    case Asks(rq, who, now) =>
      ProcessInv(s, rq, who, now);
      var o := Process(s, rq, who, now);
      if IsLock(rq.kind) && o.reply == OK {
        assert Live(s, rq.tid);
        GrantHolds(s, rq, who, now);
        LockStep(s, rq, who, now);
      } else if IsLock(rq.kind) {
        RefusalChangesNothing(s, rq, who, now);
      }
      forall t, b, x | (t, b, x) in g'
        ensures t < s'.nextTid && (Live(s', t) ==> WriteHolds(s', t, b) || (!x && ReadHolds(s', t, b)))
      {
        if (t, b, x) in g && Live(s', t) {
          if t in s.status && s.status[t].stat == PREEMPTED {
            PreemptedAbsorbing(s, rq, who, now, t);
          }
          LocksKept(s, rq, who, now, t, b);
        }
      }
  }

  lemma {:induction false} RunKeeps(es: seq<Event>)
    requires AllowedRun(es)
    ensures Inv(Run(es).0) && GrantsHeld(Run(es).0, Run(es).1)
  {
    if es != [] {
      RunKeeps(es[..|es| - 1]);
      NextKeeps(Run(es[..|es| - 1]).0, Run(es[..|es| - 1]).1, es[|es| - 1]);
    }
  }

  /** In every run a committing transaction is the only holder of every block it was granted exclusively. */
  lemma CommittingSoleHolder(es: seq<Event>, t: Tid, b: int)
    requires AllowedRun(es) && Committing(Run(es).0, t) && (t, b, true) in Run(es).1
    ensures WriteHolds(Run(es).0, t, b) && forall u :: u != t ==> !Holds(Run(es).0, u, b)
  {
    RunKeeps(es);
    var s := Run(es).0;
    assert WriteHolds(s, t, b);
    assert HoldersOk(s.status, s.blockmap[b]);
  }

  /** The process that sent a BEGIN request, and when. */
  datatype Birth = Birth(pid: int, now: int)

  function Births(e: Event): seq<Birth> {
    if e.Asks? && e.rq.kind == BEGIN then [Birth(e.rq.pid, e.now)] else []
  }

  /** The BEGIN requests of a run, in order.  Counted from 1, the k-th of them opens transaction k. */
  function Begins(es: seq<Event>): seq<Birth> {
    if es == [] then [] else Begins(es[..|es| - 1]) + Births(es[|es| - 1])
  }

  /** The status table keeps the process and the time of every transaction's BEGIN request. */
  predicate Timed(s: State, begins: seq<Birth>) {
    && s.nextTid == |begins| + 1
    && forall t :: t in s.status ==>
         1 <= t <= |begins| && begins[t - 1] == Birth(s.status[t].pid, s.status[t].started)
  }

  lemma NextTimed(s: State, begins: seq<Birth>, e: Event)
    requires Inv(s) && Timed(s, begins) && Allowed(s, e)
    ensures Timed(Next(s, e), begins + Births(e))
  {
    if e.Asks? {
      var o := Process(s, e.rq, e.who, e.now);
      if IsLock(e.rq.kind) && Live(s, e.rq.tid) {
        LockStep(s, e.rq, e.who, e.now);
      } else if e.rq.kind in {RESTART, ABORT, COMMIT, END} {
        ToldReply(s, e.rq, e.who, e.now);
      }
    }
  }

  /** Through grants, preemptions, refusals and disconnects, a transaction's time slice counts from its BEGIN. */
  lemma {:induction false} StartTimes(es: seq<Event>)
    requires AllowedRun(es)
    ensures Timed(Run(es).0, Begins(es))
  {
    if es != [] {
      StartTimes(es[..|es| - 1]);
      RunKeeps(es[..|es| - 1]);
      NextTimed(Run(es[..|es| - 1]).0, Begins(es[..|es| - 1]), es[|es| - 1]);
    }
  }

  /** At every point of every run: a lock request is refused exactly when a committing writer holds the block, or an
      older transaction that is not committing and sent its BEGIN at most four seconds ago holds it in a way that
      conflicts. */
  lemma RefusedInRun(es: seq<Event>, rq: Request, who: int, now: int)
    requires AllowedRun(es) && Allowed(Run(es).0, Asks(rq, who, now)) && IsLock(rq.kind) && Live(Run(es).0, rq.tid)
    ensures var s := Run(es).0;
            && Process(s, rq, who, now).Handled? && Process(s, rq, who, now).reply in {OK, NOT_OK}
            && (Process(s, rq, who, now).reply == NOT_OK <==>
                  || (exists u :: WriteHolds(s, u, rq.block) && Committing(s, u))
                  || (exists u :: u in s.status && 1 <= u <= |Begins(es)|
                                  && StandsFirm(s, rq, now, u, Begins(es)[u - 1].now)))
  {
    var s := Run(es).0;
    RunKeeps(es);
    StartTimes(es);
    RefusedExactly(s, rq, who, now);
  }

  /** t was at work before a step and is preempted after it. */
  predicate PreemptedBy(s: State, s': State, t: Tid) {
    Live(s, t) && !Committing(s, t) && !Live(s', t)
  }

  /** In every run, whatever the others do: the oldest transaction is refused a lock exactly by a committing writer, and
      is preempted before it commits only later than four seconds after its BEGIN. */
  lemma OldestProgress(es: seq<Event>, rq: Request, who: int, now: int)
    requires AllowedRun(es) && Allowed(Run(es).0, Asks(rq, who, now))
    ensures IsLock(rq.kind) && Live(Run(es).0, rq.tid) && Oldest(Run(es).0, rq.tid) ==>
              && Process(Run(es).0, rq, who, now).Handled?
              && (Process(Run(es).0, rq, who, now).reply != OK <==>
                    exists u :: WriteHolds(Run(es).0, u, rq.block) && Committing(Run(es).0, u))
    ensures forall t: Tid :: Oldest(Run(es).0, t) && PreemptedBy(Run(es).0, Run(es + [Asks(rq, who, now)]).0, t) ==>
              1 <= t <= |Begins(es)| && now - Begins(es)[t - 1].now > 4
  {
    RunKeeps(es);
    StartTimes(es);
    var s := Run(es).0;
    assert (es + [Asks(rq, who, now)])[..|es|] == es;
    if IsLock(rq.kind) && Live(s, rq.tid) && Oldest(s, rq.tid) {
      OldestRefused(s, rq, who, now);
    }
    forall t | Oldest(s, t) && PreemptedBy(s, After(s, rq, who, now), t)
      ensures now - s.status[t].started > 4
    {
      OldestKeeps(s, rq, who, now, t);
    }
  }
}
