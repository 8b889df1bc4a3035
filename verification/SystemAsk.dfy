/** Operations: answered from the block map, or by way of the lock monitor. */
module SystemAsk {
  import opened Basics
  import opened Disk
  import opened Client
  import opened SystemSpec
  import opened SystemInv
  import M = MonitorSpec
  import P = MonitorProps

  // ---------------------------------------------------------------- operations answered locally

  lemma LocalTxOk(d: Disk, tx: Tx, c: Call)
    requires TxOk(d, tx) && RouteOf(tx, d, c) == Local
    ensures c.block in tx.blocks && TxOk(d, LocalTx(tx, c))
    ensures LocalTx(tx, c).blocks.Keys == tx.blocks.Keys
    ensures forall b :: b in tx.blocks ==>
      && Before(LocalTx(tx, c).blocks[b]) == Before(tx.blocks[b])
      && (LocalTx(tx, c).blocks[b].lock == R_LOCK <==> tx.blocks[b].lock == R_LOCK)
  {
    var b, mb := c.block, tx.blocks[c.block];
    match c
    case Read(_) =>
      Observe(tx.blocks, tx.obs, mb, DidRead(b, mb.data));
      assert tx.blocks[b := mb] == tx.blocks;
    case Write(_, x) =>
      Observe(tx.blocks, tx.obs, WrittenLocally(mb, x), DidWrite(b, mb.data, x));
    case Release(_) =>
      if mb.lock != S_LOCK {
        Observe(tx.blocks, tx.obs, ReleasedLocally(mb), DidRelease(b));
      }
  }

  lemma SameLocks(s: M.State, txs: Txs, t: Tid, tx: Tx)
    requires Locked(s, txs) && t in txs && tx.phase == txs[t].phase
    requires tx.blocks.Keys == txs[t].blocks.Keys
    requires forall b :: b in tx.blocks ==> (tx.blocks[b].lock == R_LOCK <==> txs[t].blocks[b].lock == R_LOCK)
    ensures Locked(s, txs[t := tx])
  {
    assert LocksOk(s, t, txs[t]);
    QuietLocked(s, txs, t, tx);
  }

  lemma SameAgrees(v: View, bs: Blocks, cs: Blocks)
    requires Agrees(v, bs) && bs.Keys == cs.Keys
    requires forall b :: b in bs ==> Before(cs[b]) == Before(bs[b])
    ensures Agrees(v, cs)
  {
    forall b | b in cs
      ensures Get(v, b) == Before(cs[b])
    {
      assert b in bs;
    }
  }

  lemma BufferedStep(w: World, v: View, fd: int, c: Call)
    requires Inv(w, v) && Connected(w, fd) && TxOf(w, fd).phase == Working
    requires RouteOf(TxOf(w, fd), w.files.disk, c) == Local
    ensures Inv(StepBuffered(w, fd, c), v)
  {
    var t, tx := w.mon.transactions[fd], TxOf(w, fd);
    var next := LocalTx(tx, c);
    LocalTxOk(w.files.disk, tx, c);
    SameLocks(w.mon, w.txs, t, next);
    if P.Live(w.mon, t) {
      SameAgrees(v, tx.blocks, next.blocks);
    }
    QuietStep(w, v, w.mon, t, next);
    assert w.(mon := w.mon) == w;
  }

  // ---------------------------------------------------------------- the monitor's part of a lock request

  /** Everything the rest of the system needs to know about one lock request. */
  ghost predicate LockAnswered(s: M.State, txs: Txs, rq: M.Request, o: M.Outcome) {
    && o.Handled?
    && P.Inv(o.state) && o.state.status.Keys == s.status.Keys
    && Phased(o.state, txs)
    && (forall u :: P.Live(o.state, u) ==> P.Live(s, u))
    && (forall u :: u in txs && u != rq.tid ==> LocksOk(o.state, u, txs[u]))
    && (if o.reply == M.OK then
          && P.Live(o.state, rq.tid)
          && (forall b :: b != rq.block ==> P.WriteHolds(o.state, rq.tid, b) == P.WriteHolds(s, rq.tid, b))
          && (forall b :: b != rq.block ==> P.ReadHolds(o.state, rq.tid, b) == P.ReadHolds(s, rq.tid, b))
          && (if rq.kind == M.READ then P.ReadHolds(o.state, rq.tid, rq.block) && !P.WriteHolds(o.state, rq.tid, rq.block)
              else P.WriteHolds(o.state, rq.tid, rq.block))
          && (forall u :: u in txs && txs[u].phase.Committing? ==> !Dirties(txs[u], rq.block))
        else o.state == s)
  }

  lemma OthersKeepLocks(s: M.State, txs: Txs, rq: M.Request, who: int, now: int, u: Tid)
    requires P.Inv(s) && Phased(s, txs) && Locked(s, txs)
    requires P.IsLock(rq.kind) && P.OwnTid(s, rq, who) && P.Live(s, rq.tid)
    requires P.Disciplined(s, rq)
    requires u in txs && u != rq.tid
    ensures LocksOk(P.After(s, rq, who, now), u, txs[u])
  {
    var s' := P.After(s, rq, who, now);
    assert LocksOk(s, u, txs[u]);
    if P.Live(s', u) {
      P.LiveBefore(s, rq, who, now, u);
      forall b | b in txs[u].blocks && txs[u].phase != Finished
        ensures if txs[u].blocks[b].lock == R_LOCK then P.ReadHolds(s', u, b) else P.WriteHolds(s', u, b)
      {
        P.LocksKept(s, rq, who, now, u, b);
      }
    }
    forall b | P.WriteHolds(s', u, b)
      ensures P.WriteHolds(s, u, b)
    {
      P.NoNewLocks(s, rq, who, now, u, b);
    }
  }

  lemma PhasesKept(s: M.State, txs: Txs, rq: M.Request, who: int, now: int)
    requires P.Inv(s) && Phased(s, txs)
    requires P.IsLock(rq.kind) && P.OwnTid(s, rq, who) && P.Live(s, rq.tid)
    requires rq.tid in txs && txs[rq.tid].phase == Working
    requires SparesCommitting(s, rq, now)
    ensures Phased(P.After(s, rq, who, now), txs)
  {
    var s' := P.After(s, rq, who, now);
    P.LockStep(s, rq, who, now);
    forall u | u in txs
      ensures PhaseOk(s', u, txs[u])
    {
      assert PhaseOk(s, u, txs[u]);
      if u != rq.tid {
        P.PreemptionJustified(s, rq, who, now, u);
        if P.Committing(s, u) {
          P.CommittingPreempted(s, rq, who, now, u);
        }
      }
    }
  }

  /** A block that a committing transaction is changing is granted to nobody. */
  lemma DirtyRefuses(s: M.State, txs: Txs, rq: M.Request, now: int, u: Tid)
    requires P.Inv(s) && Phased(s, txs) && Locked(s, txs)
    requires u in txs && txs[u].phase.Committing? && Dirties(txs[u], rq.block)
    ensures !P.Grantable(s, rq, now)
  {
    assert PhaseOk(s, u, txs[u]) && LocksOk(s, u, txs[u]);
    assert P.WriteHolds(s, u, rq.block);
    assert P.HoldersOk(s.status, s.blockmap[rq.block]);
  }

  lemma LockMonitor(s: M.State, txs: Txs, rq: M.Request, who: int, now: int)
    requires P.Inv(s) && Phased(s, txs) && Locked(s, txs)
    requires P.IsLock(rq.kind) && P.OwnTid(s, rq, who) && P.Live(s, rq.tid) && !P.WriteHolds(s, rq.tid, rq.block)
    requires rq.tid in txs && txs[rq.tid].phase == Working
    requires SparesCommitting(s, rq, now)
    ensures LockAnswered(s, txs, rq, M.Process(s, rq, who, now))
  {
    var o := M.Process(s, rq, who, now);
    assert PhaseOk(s, rq.tid, txs[rq.tid]);
    P.ProcessInv(s, rq, who, now);
    P.OwnLocks(s, rq, who, now);
    PhasesKept(s, txs, rq, who, now);
    forall u | u in txs && u != rq.tid
      ensures LocksOk(o.state, u, txs[u])
    {
      OthersKeepLocks(s, txs, rq, who, now, u);
    }
    forall u | P.Live(o.state, u)
      ensures P.Live(s, u)
    {
      P.LiveBefore(s, rq, who, now, u);
    }
    forall u | o.reply == M.OK && u in txs && txs[u].phase.Committing?
      ensures !Dirties(txs[u], rq.block)
    {
      if Dirties(txs[u], rq.block) {
        DirtyRefuses(s, txs, rq, now, u);
      }
    }
  }

  // ---------------------------------------------------------------- operations that ask the monitor

  /** The block map's side of asking: what has been tried is remembered even when the lock is refused. */
  function Tried(tx: Tx, c: Call): Tx {
    if c.Allocate? then tx.(lastFree := c.block) else tx
  }

  lemma TriedOk(d: Disk, tx: Tx, c: Call)
    requires TxOk(d, tx) && RouteOf(tx, d, c) == AskMonitor
    ensures TxOk(d, Tried(tx, c))
  {}

  lemma GrantedTxOk(d: Disk, tx: Tx, c: Call)
    requires ValidDisk(d) && TxOk(d, tx) && RouteOf(tx, d, c) == AskMonitor
    requires c.block in tx.blocks ==> Before(tx.blocks[c.block]) == Before(GrantedBlock(d, c))
    ensures TxOk(d, GrantedTx(Tried(tx, c), d, c))
  {
    var b, mb, o := c.block, GrantedBlock(d, c), GrantedObs(d, c);
    TriedOk(d, tx, c);
    if b in tx.blocks {
      assert WellFormed(tx.blocks[b]);
    }
    Observe(tx.blocks, tx.obs, mb, o);
  }

  lemma CleanView(w: World, v: View, b: int)
    requires Inv(w, v)
    requires forall u :: u in w.txs && w.txs[u].phase.Committing? ==> !Dirties(w.txs[u], b)
    ensures Get(ViewOf(w.files.disk), b) == Get(v, b)
  {
    assert Clean(Unfinished(w), b);
  }

  /** A block that was allocated when a working transaction first locked it still is. */
  lemma HeldStaysAllocated(w: World, v: View, t: Tid, b: int)
    requires Inv(w, v) && t in w.txs && w.txs[t].phase == Working && P.Live(w.mon, t)
    requires b in w.txs[t].blocks
    ensures Get(ViewOf(w.files.disk), b) == Before(w.txs[t].blocks[b])
  {
    forall u | u in w.txs && w.txs[u].phase.Committing?
      ensures !Dirties(w.txs[u], b)
    {
      if Dirties(w.txs[u], b) {
        CommittingLive(w.mon, w.txs, u);
        Exclusive(w.mon, w.txs, u, t, b);
      }
    }
    CleanView(w, v, b);
    assert Agrees(v, w.txs[t].blocks);
  }

  /** A working transaction that still matters never allocates a block it holds. */
  lemma AllocateIsNew(w: World, v: View, t: Tid, b: int)
    requires Inv(w, v) && t in w.txs && w.txs[t].phase == Working && P.Live(w.mon, t)
    requires IsNextFree(w.files.disk, w.txs[t].lastFree, b)
    ensures b !in w.txs[t].blocks
  {
    assert TxOk(w.files.disk, w.txs[t]);
    if b in w.txs[t].blocks {
      HeldStaysAllocated(w, v, t, b);
    }
  }

  /** So the library never asks for a block it already write-holds. */
  lemma AsksOnlyWhatItLacks(w: World, v: View, t: Tid, c: Call)
    requires Inv(w, v) && t in w.txs && w.txs[t].phase == Working && P.Live(w.mon, t)
    requires RouteOf(w.txs[t], w.files.disk, c) == AskMonitor
    ensures !P.WriteHolds(w.mon, t, c.block)
  {
    assert LocksOk(w.mon, t, w.txs[t]);
    if c.Allocate? {
      AllocateIsNew(w, v, t, c.block);
    }
  }

  lemma GrantedLocks(s: M.State, txs: Txs, rq: M.Request, o: M.Outcome, d: Disk, tx: Tx, c: Call)
    requires LockAnswered(s, txs, rq, o) && o.reply == M.OK
    requires rq.kind == KindOf(c) && rq.block == c.block && rq.tid in txs
    requires LocksOk(s, rq.tid, txs[rq.tid]) && tx.blocks == txs[rq.tid].blocks && tx.phase == txs[rq.tid].phase
    ensures LocksOk(o.state, rq.tid, GrantedTx(tx, d, c))
  {}

  lemma GrantedAgrees(v: View, bs: Blocks, b: int, mb: MBlock)
    requires Agrees(v, bs) && Get(v, b) == Before(mb)
    ensures Agrees(v, bs[b := mb])
  {}

  lemma GrantedSees(w: World, v: View, tx: Tx, c: Call)
    requires Inv(w, v) && RouteOf(tx, w.files.disk, c) == AskMonitor
    requires forall u :: u in w.txs && w.txs[u].phase.Committing? ==> !Dirties(w.txs[u], c.block)
    ensures Get(v, c.block) == Before(GrantedBlock(w.files.disk, c))
  {
    CleanView(w, v, c.block);
  }

  lemma RefusedStep(w: World, v: View, t: Tid, c: Call)
    requires Inv(w, v) && t in w.txs && w.txs[t].phase == Working
    requires RouteOf(w.txs[t], w.files.disk, c) == AskMonitor
    ensures Inv(w.(txs := w.txs[t := Tried(w.txs[t], c)]), v)
  {
    var tx := w.txs[t];
    TriedOk(w.files.disk, tx, c);
    SameLocks(w.mon, w.txs, t, Tried(tx, c));
    QuietStep(w, v, w.mon, t, Tried(tx, c));
    assert w.(mon := w.mon) == w;
  }

  lemma GrantedStep(w: World, v: View, rq: M.Request, o: M.Outcome, c: Call)
    requires Inv(w, v) && LockAnswered(w.mon, w.txs, rq, o) && o.reply == M.OK
    requires rq.kind == KindOf(c) && rq.block == c.block
    requires rq.tid in w.txs && w.txs[rq.tid].phase == Working
    requires RouteOf(w.txs[rq.tid], w.files.disk, c) == AskMonitor
    ensures Inv(w.(mon := o.state, txs := w.txs[rq.tid := GrantedTx(Tried(w.txs[rq.tid], c), w.files.disk, c)]), v)
  {
    var t := rq.tid;
    var tx, d := w.txs[t], w.files.disk;
    var next := GrantedTx(Tried(tx, c), d, c);
    assert TxOk(d, tx) && LocksOk(w.mon, t, tx);
    GrantedSees(w, v, tx, c);
    assert P.Live(w.mon, t);
    assert Agrees(v, tx.blocks);
    GrantedTxOk(d, tx, c);
    GrantedAgrees(v, tx.blocks, c.block, GrantedBlock(d, c));
    GrantedLocks(w.mon, w.txs, rq, o, d, Tried(tx, c), c);
    QuietLocked(o.state, w.txs, t, next);
    QuietStep(w, v, o.state, t, next);
  }

  lemma SameMonitor(w: World, t: Tid, c: Call, o: M.Outcome)
    requires t in w.txs && o.Handled? && o.reply != M.OK && o.state == w.mon
    ensures Answered(w, t, c, o) == w.(txs := w.txs[t := Tried(w.txs[t], c)])
  {}

  lemma AnsweredStep(w: World, v: View, rq: M.Request, o: M.Outcome, c: Call)
    requires Inv(w, v) && rq.tid in w.txs && w.txs[rq.tid].phase == Working
    requires rq.kind == KindOf(c) && rq.block == c.block
    requires RouteOf(w.txs[rq.tid], w.files.disk, c) == AskMonitor
    requires LockAnswered(w.mon, w.txs, rq, o) || o == M.Handled(w.mon, M.DIE)
    ensures Inv(Answered(w, rq.tid, c, o), v)
  {
    if o.reply == M.OK {
      GrantedStep(w, v, rq, o, c);
    } else {
      RefusedStep(w, v, rq.tid, c);
      SameMonitor(w, rq.tid, c, o);
    }
  }

  lemma DeadAnswer(s: M.State, txs: Txs, rq: M.Request, who: int, now: int)
    requires P.Inv(s) && Phased(s, txs) && rq.tid in txs && !P.Live(s, rq.tid) && P.IsLock(rq.kind)
    ensures M.Process(s, rq, who, now) == M.Handled(s, M.DIE)
  {
    assert PhaseOk(s, rq.tid, txs[rq.tid]);
  }

  lemma AskedMonitor(s: M.State, txs: Txs, rq: M.Request, who: int, now: int)
    requires P.Inv(s) && Phased(s, txs) && Locked(s, txs)
    requires P.IsLock(rq.kind) && P.OwnTid(s, rq, who) && (P.Live(s, rq.tid) ==> !P.WriteHolds(s, rq.tid, rq.block))
    requires rq.tid in txs && txs[rq.tid].phase == Working
    requires SparesCommitting(s, rq, now)
    ensures var o := M.Process(s, rq, who, now); LockAnswered(s, txs, rq, o) || o == M.Handled(s, M.DIE)
  {
    if P.Live(s, rq.tid) {
      LockMonitor(s, txs, rq, who, now);
    } else {
      DeadAnswer(s, txs, rq, who, now);
    }
  }

  lemma AskedStep(w: World, v: View, fd: int, c: Call, now: int)
    requires Inv(w, v) && Connected(w, fd) && TxOf(w, fd).phase == Working
    requires RouteOf(TxOf(w, fd), w.files.disk, c) == AskMonitor
    requires SparesCommitting(w.mon, Ask(w, fd, KindOf(c), c.block), now)
    ensures Inv(StepAsked(w, fd, c, now), v)
  {
    var rq := Ask(w, fd, KindOf(c), c.block);
    if P.Live(w.mon, rq.tid) {
      AsksOnlyWhatItLacks(w, v, rq.tid, c);
    }
    AskedMonitor(w.mon, w.txs, rq, fd, now);
    AnsweredStep(w, v, rq, M.Process(w.mon, rq, fd, now), c);
  }

  // ---------------------------------------------------------------- requests that only set a status

  lemma StatusLocks(s: M.State, s': M.State, txs: Txs)
    requires Locked(s, txs) && s'.blockmap == s.blockmap && forall u :: P.Live(s', u) ==> P.Live(s, u)
    ensures Locked(s', txs)
  {
    forall u | u in txs
      ensures LocksOk(s', u, txs[u])
    {
      assert LocksOk(s, u, txs[u]);
    }
  }

  lemma StatusPhases(s: M.State, s': M.State, txs: Txs, t: Tid)
    requires Phased(s, txs) && s'.status.Keys == s.status.Keys
    requires forall u :: u in s.status && u != t ==> s'.status[u] == s.status[u]
    requires t in txs && !txs[t].phase.Committing?
    requires txs[t].phase == Working && !P.Committing(s, t) ==> !P.Committing(s', t)
    ensures Phased(s', txs)
  {
    forall u | u in txs
      ensures PhaseOk(s', u, txs[u])
    {
      assert PhaseOk(s, u, txs[u]);
    }
  }

  ghost predicate MonitorMoved(s: M.State, s': M.State, txs: Txs) {
    P.Inv(s') && Phased(s', txs) && Locked(s', txs) && forall u :: P.Live(s', u) ==> P.Live(s, u)
  }

  lemma ToldMonitor(s: M.State, txs: Txs, rq: M.Request, who: int)
    requires P.Inv(s) && Phased(s, txs) && Locked(s, txs) && P.OwnTid(s, rq, who)
    requires rq.tid in txs && !txs[rq.tid].phase.Committing?
    requires rq.kind == M.END || rq.kind == M.RESTART || rq.kind == M.ABORT
    ensures MonitorMoved(s, P.After(s, rq, who, 0), txs)
  {
    var s' := P.After(s, rq, who, 0);
    P.ProcessInv(s, rq, who, 0);
    P.StatusStep(s, rq, who, 0);
    StatusLocks(s, s', txs);
    StatusPhases(s, s', txs, rq.tid);
  }

  lemma FreshFewer(s: M.State, s': M.State, txs: Txs, v: View)
    requires Fresh(s, txs, v) && forall u :: P.Live(s', u) ==> P.Live(s, u)
    ensures Fresh(s', txs, v)
  {}

  lemma MonitorOnly(w: World, v: View, s: M.State)
    requires Inv(w, v) && MonitorMoved(w.mon, s, w.txs)
    ensures Inv(w.(mon := s), v)
  {
    assert Unfinished(w.(mon := s)) == Unfinished(w);
    FreshFewer(w.mon, s, w.txs, v);
  }

  lemma ToldStep(w: World, v: View, fd: int, kind: M.Kind)
    requires Inv(w, v) && Connected(w, fd)
    requires if kind == M.END then TxOf(w, fd).phase == Finished
             else TxOf(w, fd).phase == Working && (kind == M.RESTART || kind == M.ABORT)
    ensures Inv(StepTold(w, fd, kind), v)
  {
    ToldMonitor(w.mon, w.txs, Ask(w, fd, kind, 0), fd);
    MonitorOnly(w, v, P.After(w.mon, Ask(w, fd, kind, 0), fd, 0));
  }
}
