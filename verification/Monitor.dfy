/** The lock monitor as the source runs it: handlers that update the tables in place, with the loops over readers and
    over the block table, against the state machine of MonitorSpec. */
module LockMonitor {
  import opened Basics
  import opened MonitorSpec
  import P = MonitorProps
  import R = Recovery
  import L = UndoLog

  lemma {:induction false} ScanPrefix(status: map<Tid, TStat>, readers: seq<Tid>, i: nat, t: Tid, now: int)
    requires i < |readers|
    ensures ScanReaders(status, readers[i..], t, now) ==
            if readers[i] !in status then Dead
            else if Blocks(status[readers[i]], readers[i], t, now) then Refused
            else ScanReaders(status, readers[i + 1..], t, now)
  {
    assert readers[i..][1..] == readers[i + 1..];
  }

  /** A request and the connection and time it comes in at. */
  datatype Visit = Visit(rq: Request, who: int, now: int)

  /** The tables after some requests; None when the monitor exits over one of them. */
  function AfterVisits(s: State, vs: seq<Visit>): Option<State>
    decreases |vs|
  {
    if vs == [] then Some(s)
    else match Process(s, vs[0].rq, vs[0].who, vs[0].now)
      case Handled(t, _) => AfterVisits(t, vs[1..])
      case BrainDead => None
  }

  /** One more request, served after the others. */
  lemma {:induction false} ServedLast(s: State, vs: seq<Visit>, v: Visit)
    ensures AfterVisits(s, vs + [v]) ==
            match AfterVisits(s, vs)
            case None => None
            case Some(u) =>
              match Process(u, v.rq, v.who, v.now)
              case Handled(t, _) => Some(t)
              case BrainDead => None
    decreases |vs|
  {
    if vs == [] {
      assert [v][1..] == [];
      var o := Process(s, v.rq, v.who, v.now);
      assert o.Handled? ==> AfterVisits(o.state, []) == Some(o.state);
    } else {
      assert (vs + [v])[0] == vs[0] && (vs + [v])[1..] == vs[1..] + [v];
      var o := Process(s, vs[0].rq, vs[0].who, vs[0].now);
      if o.Handled? {
        ServedLast(o.state, vs[1..], v);
      }
    }
  }

  class TransactionMonitor {
    var nextTid: Tid
    var transactions: map<int, Tid>
    var status: map<Tid, TStat>
    var blockmap: map<int, Holders>
    const logger: L.LogManager

    constructor (files: L.Storage)
      ensures Tables() == INITIAL && P.Inv(Tables())
      ensures fresh(logger) && logger.files == files
    {
      nextTid := 1;
      transactions, status, blockmap := map[], map[], map[];
      logger := new L.LogManager(files);
    }

    ghost function Tables(): State
      reads this
    {
      State(nextTid, transactions, status, blockmap)
    }

    /** A writer is in the way. */
    method TestWriter(t: Tid, b: int, now: int) returns (v: Verdict)
      requires b in blockmap
      modifies `status, `blockmap
      ensures Check(v, Tables()) == AgainstWriter(old(Tables()), t, b, now)
    {
      var writer := blockmap[b].writer;
      if writer !in status {
        return Dead;
      }
      if status[writer].stat == COMMITTING {
        return Refused;
      }
      if writer > t || now - status[writer].started > TIMESLICE {
        status := status[writer := status[writer].(stat := PREEMPTED)];
        blockmap := blockmap[b := blockmap[b].(writer := 0)];
        return Granted;
      }
      return Refused;
    }

    /** May t take a shared lock on b?  A writer that must give way is preempted on the spot. */
    method TestRead(t: Tid, b: int, now: int) returns (v: Verdict)
      modifies `status, `blockmap
      ensures Check(v, Tables()) == CanRead(old(Tables()), t, b, now)
    {
      if b !in blockmap {
        return Granted;
      }
      if blockmap[b].writer == 0 {
        return Granted;
      }
      v := TestWriter(t, b, now);
    }

    /** Looks for a reader that keeps t out: an older one, not committing, within the first four seconds. */
    method SearchReaders(readers: seq<Tid>, t: Tid, now: int) returns (v: Verdict)
      ensures v == ScanReaders(status, readers, t, now)
      ensures (forall r :: r in readers ==> r in status) ==>
                v == if exists r :: r in readers && status[r].stat != COMMITTING && r < t && now - status[r].started <= 4
                     then Refused else Granted
    {
      if forall r :: r in readers ==> r in status {
        P.ScanFindsAll(status, readers, t, now);
      }
      var r := 0;
      assert readers[0..] == readers;
      while r < |readers|
        invariant 0 <= r <= |readers|
        invariant ScanReaders(status, readers, t, now) == ScanReaders(status, readers[r..], t, now)
      {
        ScanPrefix(status, readers, r, t, now);
        if readers[r] !in status {
          return Dead;
        }
        var st := status[readers[r]];
        if st.stat != COMMITTING && readers[r] < t && now - st.started <= TIMESLICE {
          return Refused;
        }
        r := r + 1;
      }
      return Granted;
    }

    method UpdateEntry(t: Tid, b: int, stat: Status)
      modifies `status
      ensures Tables() == UpdateStatus(old(Tables()), t, b, stat)
    {
      if t in status {
        status := status[t := status[t].(block := b, stat := stat)];
      }
    }

    method PreemptReaders(readers: seq<Tid>)
      modifies `status
      ensures status == PreemptAll(old(status), readers)
    {
      var k := 0;
      while k < |readers|
        invariant 0 <= k <= |readers|
        invariant status == PreemptAll(old(status), readers[..k])
      {
        UpdateEntry(readers[k], 0, PREEMPTED);
        assert readers[..k + 1] == readers[..k] + [readers[k]];
        k := k + 1;
      }
      assert readers[..k] == readers;
    }

    /** May t take an exclusive lock on b?  Holders that must give way are preempted on the spot. */
    method TestWrite(t: Tid, b: int, now: int) returns (v: Verdict)
      modifies `status, `blockmap
      ensures Check(v, Tables()) == CanWrite(old(Tables()), t, b, now)
    {
      if b !in blockmap {
        return Granted;
      }
      if blockmap[b].writer != 0 {
        v := TestWriter(t, b, now);
        return;
      }
      var readers := blockmap[b].readers;
      if |readers| == 0 {
        return Granted;
      }
      v := SearchReaders(readers, t, now);
      if v == Granted {
        PreemptReaders(readers);
        blockmap := blockmap[b := blockmap[b].(readers := [])];
      }
    }

    method EnterWriter(b: int, t: Tid)
      modifies `blockmap
      ensures Tables() == SetWriter(old(Tables()), b, t)
    {
      if b !in blockmap {
        blockmap := blockmap[b := Holders([], t)];
      } else {
        blockmap := blockmap[b := blockmap[b].(writer := t)];
      }
    }

    method EnterReader(b: int, t: Tid)
      modifies `blockmap
      ensures Tables() == SetReader(old(Tables()), b, t)
    {
      if b !in blockmap {
        blockmap := blockmap[b := Holders([t], 0)];
        assert [t] + [] == [t];
      } else {
        blockmap := blockmap[b := blockmap[b].(readers := [t] + blockmap[b].readers)];
      }
    }

    method CheckSoleReader(t: Tid, b: int) returns (sole: bool)
      ensures sole == SoleReader(Tables(), t, b)
    {
      if b !in blockmap {
        return false;
      }
      if |blockmap[b].readers| > 1 {
        return false;
      }
      return |blockmap[b].readers| > 0 && t == blockmap[b].readers[0];
    }

    method DropReader(b: int, t: Tid)
      modifies `blockmap
      ensures Tables() == RemoveReader(old(Tables()), b, t)
    {
      if b in blockmap {
        blockmap := blockmap[b := blockmap[b].(readers := Without(blockmap[b].readers, t))];
      }
    }

    // -------------------------------------------------------------- handlers; None: the monitor has exited

    ghost predicate Follows(was: State, o: Outcome, reply: Option<Reply>)
      reads this
    {
      match o
      case Handled(s, r) => Tables() == s && reply == Some(r)
      case BrainDead => Tables() == was && reply == None
    }

    method GrantWriter(t: Tid, b: int, v: Verdict, stat: Status) returns (reply: Option<Reply>)
      modifies `status, `blockmap
      ensures Follows(old(Tables()),
                      Answer(Check(v, old(Tables())), UpdateStatus(SetWriter(old(Tables()), b, t), t, b, stat)), reply)
    {
      if v == Granted {
        EnterWriter(b, t);
        UpdateEntry(t, b, stat);
        return Some(OK);
      }
      return if v == Refused then Some(NOT_OK) else None;
    }

    method HandleAllocate(rq: Request, now: int) returns (reply: Option<Reply>)
      modifies `status, `blockmap
      ensures Follows(old(Tables()), AllocateRq(old(Tables()), rq.tid, rq.block, now), reply)
    {
      var v := TestWrite(rq.tid, rq.block, now);
      reply := GrantWriter(rq.tid, rq.block, v, ALLOCATED);
    }

    method HandleRead(rq: Request, now: int) returns (reply: Option<Reply>)
      modifies `status, `blockmap
      ensures Follows(old(Tables()), ReadRq(old(Tables()), rq.tid, rq.block, now), reply)
    {
      var v := TestRead(rq.tid, rq.block, now);
      if v == Granted {
        EnterReader(rq.block, rq.tid);
        UpdateEntry(rq.tid, rq.block, READING);
        return Some(OK);
      }
      return if v == Refused then Some(NOT_OK) else None;
    }

    /** A sole reader is upgraded without asking anybody. */
    method HandleWrite(rq: Request, now: int) returns (reply: Option<Reply>)
      modifies `status, `blockmap
      ensures Follows(old(Tables()), WriteRq(old(Tables()), rq.tid, rq.block, now), reply)
    {
      var v := Granted;
      var soleReader := CheckSoleReader(rq.tid, rq.block);
      if soleReader {
        DropReader(rq.block, rq.tid);
      } else {
        v := TestWrite(rq.tid, rq.block, now);
      }
      reply := GrantWriter(rq.tid, rq.block, v, WRITING);
    }

    method HandleRelease(rq: Request, now: int) returns (reply: Option<Reply>)
      modifies `status, `blockmap
      ensures Follows(old(Tables()), ReleaseRq(old(Tables()), rq.tid, rq.block, now), reply)
    {
      var v := TestWrite(rq.tid, rq.block, now);
      reply := GrantWriter(rq.tid, rq.block, v, RELEASING);
    }

    method HandleStatus(t: Tid, stat: Status) returns (reply: Option<Reply>)
      modifies `status
      ensures Follows(old(Tables()), StatusRq(old(Tables()), t, stat), reply)
    {
      if t in status {
        status := status[t := status[t].(stat := stat)];
        return Some(OK);
      }
      return Some(NOT_OK);
    }

    method HandleEnd(t: Tid) returns (reply: Option<Reply>)
      modifies `status
      ensures Follows(old(Tables()), EndRq(old(Tables()), t), reply)
    {
      if t in status {
        if status[t].stat == COMMITTING {
          status := status[t := status[t].(stat := ENDED)];
          return Some(OK);
        }
      }
      return Some(NOT_OK);
    }

    method HandleBegin(who: int, pid: int, now: int) returns (t: Tid)
      modifies `nextTid, `transactions, `status
      ensures t == old(nextTid) && Tables() == BeginRq(old(Tables()), who, pid, now)
    {
      t := nextTid;
      nextTid := nextTid + 1;
      transactions := transactions[who := t];
      status := status[t := TStat(pid, 0, now, BEGUN)];
    }

    /** One request.  From tables that satisfy the invariant the monitor never exits, and they satisfy it again. */
    method ProcessClientRq(rq: Request, who: int, now: int) returns (reply: Option<Reply>)
      modifies `nextTid, `transactions, `status, `blockmap
      ensures Follows(old(Tables()), Process(old(Tables()), rq, who, now), reply)
      ensures old(P.Inv(Tables())) && P.OwnTid(old(Tables()), rq, who) ==> reply.Some? && P.Inv(Tables())
    {
      if P.Inv(Tables()) && P.OwnTid(Tables(), rq, who) {
        P.ProcessInv(Tables(), rq, who, now);
      }
      if rq.kind != BEGIN && rq.tid in status && status[rq.tid].stat == PREEMPTED {
        return Some(DIE);
      }
      match rq.kind {
        case BEGIN =>
          var _ := HandleBegin(who, rq.pid, now);
          reply := Some(OK);
        case ALLOCATE => reply := HandleAllocate(rq, now);
        case READ => reply := HandleRead(rq, now);
        case WRITE => reply := HandleWrite(rq, now);
        case RELEASE => reply := HandleRelease(rq, now);
        case RESTART => reply := HandleStatus(rq.tid, RESTARTING);
        case ABORT => reply := HandleStatus(rq.tid, ABORTING);
        case COMMIT => reply := HandleStatus(rq.tid, COMMITTING);
        case END => reply := HandleEnd(rq.tid);
      }
    }

    /** Serves one request after another; false: the monitor has exited. */
    method Serve(vs: seq<Visit>) returns (alive: bool)
      modifies `nextTid, `transactions, `status, `blockmap
      ensures if alive then AfterVisits(old(Tables()), vs) == Some(Tables()) else AfterVisits(old(Tables()), vs) == None
    {
      var i := 0;
      assert vs[0..] == vs;
      while i < |vs|
        invariant 0 <= i <= |vs|
        invariant AfterVisits(old(Tables()), vs) == AfterVisits(Tables(), vs[i..])
      {
        assert vs[i..][0] == vs[i] && vs[i..][1..] == vs[i + 1..];
        var reply := ProcessClientRq(vs[i].rq, vs[i].who, vs[i].now);
        if reply.None? {
          return false;
        }
        i := i + 1;
      }
      return true;
    }

    // -------------------------------------------------------------- disconnects

    /** Walks the whole block table and removes t from it, then from the status table. */
    method FlushTransaction(t: Tid)
      modifies `status, `blockmap
      ensures Tables() == Flush(old(Tables()), t)
    {
      if t !in status {
        return;
      }
      ghost var before := blockmap;
      var rest := blockmap.Keys;
      while rest != {}
        invariant rest <= before.Keys == blockmap.Keys
        invariant forall b :: b in before ==>
                    blockmap[b] == if b in rest then before[b] else FlushHolders(before[b], t)
        invariant status == old(status) && transactions == old(transactions) && nextTid == old(nextTid)
        decreases rest
      {
        var k := Least(rest);
        if blockmap[k].writer == t {
          blockmap := blockmap[k := blockmap[k].(writer := 0)];
        } else {
          blockmap := blockmap[k := blockmap[k].(readers := Without(blockmap[k].readers, t))];
        }
        rest := rest - {k};
      }
      forall b
        ensures b in blockmap <==> b in FlushBlocks(before, t)
        ensures b in blockmap ==> blockmap[b] == FlushBlocks(before, t)[b]
      {
        assert b in blockmap <==> b in before;
        assert b !in rest;
      }
      assert blockmap == FlushBlocks(before, t);
      status := status - {t};
    }

    /** A client is gone.  One that was committing is rolled back first; only then are its locks let go.  If the
        rollback never returns, neither does this, and every lock stays. */
    method ClientDisconnect(fd: int) returns (returned: bool)
      modifies this, logger`pos, logger.files
      ensures var f := R.Rollback(old(logger.files.Now()), if fd in old(transactions) then old(transactions)[fd] else 0);
              if !NeedsRollback(old(Tables()), fd) then
                returned && Tables() == Disconnect(old(Tables()), fd) && logger.files.Now() == old(logger.files.Now())
              else match f
                case RolledBack(g) => returned && Tables() == Disconnect(old(Tables()), fd) && logger.files.Now() == g
                case AlreadyEnded =>
                  returned && Tables() == Disconnect(old(Tables()), fd) && logger.files.Now() == old(logger.files.Now())
                case NeverReturns => !returned && Tables() == old(Tables()) && logger.files.Now() == old(logger.files.Now())
      ensures old(P.Inv(Tables())) ==> P.Inv(Tables())
    {
      if P.Inv(Tables()) {
        P.DisconnectInv(Tables(), fd);
      }
      if fd !in transactions {
        return true;
      }
      var t := transactions[fd];
      if t !in status {
        return true;
      }
      if status[t].stat == COMMITTING {
        var ending := logger.RollbackTransaction(t);
        if ending == L.Spinning {
          return false;
        }
      }
      FlushTransaction(t);
      transactions := transactions - {fd};
      return true;
    }
  }
}
