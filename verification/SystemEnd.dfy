/** Disconnects with and without rollback, and crashes followed by recovery. */
module SystemEnd {
  import opened Basics
  import opened Disk
  import opened LogSpec
  import opened Client
  import opened Recovery
  import opened SystemSpec
  import opened SystemInv
  import opened SystemFlush
  import M = MonitorSpec
  import P = MonitorProps

  // ---------------------------------------------------------------- what a committing transaction has logged

  lemma {:induction false} RecordsMember(ws: seq<Client.Write>, r: Record)
    ensures r in Records(ws) <==> LogW(r) in ws
  {
    if ws != [] {
      RecordsMember(ws[..|ws| - 1], r);
      assert ws == ws[..|ws| - 1] + [ws[|ws| - 1]];
    }
  }

  lemma {:induction false} MineMember(ws: seq<Client.Write>, b: int, w: Client.Write)
    ensures w in Mine(ws, b) ==> w in ws
  {
    if ws != [] {
      MineMember(ws[1..], b, w);
    }
  }

  lemma BodyImage(t: Tid, bs: Blocks, r: Record)
    requires BodyWrite(t, bs, LogW(r)) && Touches(r)
    ensures r.block in bs && bs[r.block].lock != R_LOCK && r == UndoImage(t, r.block, bs[r.block])
  {}

  /** Every undo image in the log is that of a block the transaction changes. */
  lemma LoggedImage(log: seq<Record>, t: Tid, tx: Tx, r: Record)
    requires LogOk(log, t, tx) && r in Open(log, t) && Touches(r)
    ensures tx.phase.Committing? && Dirties(tx, r.block) && r == UndoImage(t, r.block, tx.blocks[r.block])
  {
    var plan := Plan(t, tx.blocks);
    var n := |plan| - |tx.phase.todo|;
    RecordsMember(plan[..n], r);
    var i :| 0 <= i < n && plan[..n][i] == LogW(r);
    assert plan[i] == LogW(r);
    PlanShape(t, tx.blocks, i);
    BodyImage(t, tx.blocks, r);
  }

  /** If only some of block b's writes are still to come, its first write is among those done. */
  lemma FirstIsDone(done: seq<Client.Write>, todo: seq<Client.Write>, b: int, w: Client.Write)
    requires |Mine(todo, b)| < |Mine(done + todo, b)| && Mine(done + todo, b)[0] == w
    ensures w in done
  {
    MineConcat(done, todo, b);
    assert Mine(done, b)[0] == w;
    MineMember(done, b, w);
  }

  /** Once a block's flush has begun, its undo image is in the log. */
  lemma ImageLogged(log: seq<Record>, t: Tid, tx: Tx, b: int)
    requires LogOk(log, t, tx) && tx.phase.Committing? && Dirties(tx, b) && b > 0
    requires |Mine(tx.phase.todo, b)| < |BlockWrites(t, b, tx.blocks[b])|
    ensures UndoImage(t, b, tx.blocks[b]) in Open(log, t) && Touches(UndoImage(t, b, tx.blocks[b]))
    ensures UndoImage(t, b, tx.blocks[b]).block == b
  {
    var plan, r := Plan(t, tx.blocks), UndoImage(t, b, tx.blocks[b]);
    var n := |plan| - |tx.phase.todo|;
    MinePlan(t, tx.blocks, b);
    assert plan == plan[..n] + tx.phase.todo;
    FirstIsDone(plan[..n], tx.phase.todo, b, LogW(r));
    RecordsMember(plan[..n], r);
  }

  /** What undoing leaves of a block that tx is flushing. */
  ghost predicate UndoneCell(c: Cell, c': Cell, log: seq<Record>, t: Tid, tx: Tx, b: int)
    requires b in tx.blocks
  {
    c' == if UndoImage(t, b, tx.blocks[b]) in Open(log, t) then UndoCell(c, UndoImage(t, b, tx.blocks[b])) else c
  }

  lemma {:induction false} MineCovers(ws: seq<Client.Write>, b: int, w: Client.Write)
    requires w in ws && BlockOf(w) == b
    ensures Mine(ws, b) != []
  {
    if BlockOf(ws[0]) != b {
      MineCovers(ws[1..], b, w);
    }
  }

  lemma FullNotLogged(log: seq<Record>, t: Tid, tx: Tx, b: int)
    requires LogOk(log, t, tx) && tx.phase.Committing? && Dirties(tx, b) && b > 0
    requires |Mine(tx.phase.todo, b)| == |BlockWrites(t, b, tx.blocks[b])|
    ensures UndoImage(t, b, tx.blocks[b]) !in Open(log, t)
  {
    var plan, mb := Plan(t, tx.blocks), tx.blocks[b];
    var n := |plan| - |tx.phase.todo|;
    MinePlan(t, tx.blocks, b);
    assert plan == plan[..n] + tx.phase.todo;
    MineConcat(plan[..n], tx.phase.todo, b);
    var r := UndoImage(t, b, mb);
    RecordsMember(plan[..n], r);
    assert Mine(plan[..n], b) == [];
    if LogW(r) in plan[..n] {
      MineCovers(plan[..n], b, LogW(r));
    }
  }

  lemma UndoneBlock(d: Disk, v: View, c': Cell, log: seq<Record>, t: Tid, tx: Tx, b: int)
    requires LogOk(log, t, tx) && WellFormedBlocks(tx.blocks) && Dirties(tx, b) && BlockOnDisk(d, v, t, tx, b)
    requires UndoneCell(CellOf(d, b), c', log, t, tx, b)
    ensures Restored(c', tx.blocks[b]) && c'.val.Some? && CellView(c') == Before(tx.blocks[b])
  {
    var rest := Mine(tx.phase.todo, b);
    assert WellFormed(tx.blocks[b]);
    FlushUndone(CellOf(d, b), t, b, tx.blocks[b], rest);
    if |rest| < |BlockWrites(t, b, tx.blocks[b])| {
      ImageLogged(log, t, tx, b);
    } else {
      FullNotLogged(log, t, tx, b);
    }
  }

  lemma {:induction false} RecordsOpen(t: Tid, bs: Blocks, n: nat)
    requires 1 <= n < |Plan(t, bs)|
    ensures OpenTransaction(Records(Plan(t, bs)[..n]))
  {
    var plan := Plan(t, bs);
    PlanShape(t, bs, n - 1);
    RecordsStep(plan, n - 1);
    if n == 1 {
      assert Records(plan[..0]) == [];
    } else {
      RecordsOpen(t, bs, n - 1);
    }
  }

  lemma UndoneConsistent(log: seq<Record>, t: Tid, tx: Tx)
    requires LogOk(log, t, tx)
    ensures Consistent(Open(log, t))
  {
    forall r, q | r in Open(log, t) && q in Open(log, t) && Touches(r) && Touches(q) && r.block == q.block
      ensures r == q
    {
      LoggedImage(log, t, tx, r);
      LoggedImage(log, t, tx, q);
    }
  }

  /** Rolling back t restores the blocks t was flushing and touches no others. */
  lemma RollbackAt(d: Disk, log: seq<Record>, t: Tid, tx: Tx, b: int)
    requires LogOk(log, t, tx) && tx.phase.Committing?
    ensures var e := UndoAll(d, Reverse(Open(log, t)));
            if Dirties(tx, b) then UndoneCell(CellOf(d, b), CellOf(e, b), log, t, tx, b)
            else CellOf(e, b) == CellOf(d, b)
  {
    var rs := Open(log, t);
    UndoneConsistent(log, t, tx);
    forall r
      ensures r in rs <==> r in Reverse(rs)
    {
      ReverseMembers(rs, r);
    }
    UndoOrderIndependent(d, rs, Reverse(rs));
    forall r | r in rs && Touches(r)
      ensures Dirties(tx, r.block) && r == UndoImage(t, r.block, tx.blocks[r.block])
    {
      LoggedImage(log, t, tx, r);
    }
    if Dirties(tx, b) && UndoImage(t, b, tx.blocks[b]) in rs {
      UndoAllAt(d, rs, UndoImage(t, b, tx.blocks[b]));
    } else {
      UndoAllElsewhere(d, rs, b);
    }
  }

  // ---------------------------------------------------------------- the disk and the order after a rollback

  lemma RollbackClean(txs: Txs, v: View, t: Tid, x: View, b: int)
    requires t in txs && Clean(txs - {t}, b) && !Dirties(txs[t], b)
    requires TakenBack(txs, v, {txs[t].id}, x)
    ensures Clean(txs, b) && Get(x, b) == Get(v, b)
  {
    forall u | u in txs
      ensures !Dirties(txs[u], b)
    {
      if u != t {
        assert u in txs - {t} && !Dirties((txs - {t})[u], b);
      }
    }
  }

  lemma RollbackDisk(d: Disk, log: seq<Record>, txs: Txs, v: View, t: Tid, x: View)
    requires OnDisk(d, txs, v) && Disjoint(txs) && DistinctIds(txs)
    requires t in txs && LogOk(log, t, txs[t]) && txs[t].phase.Committing? && WellFormedBlocks(txs[t].blocks)
    requires TakenBack(txs, v, {txs[t].id}, x)
    ensures OnDisk(UndoAll(d, Reverse(Open(log, t))), txs - {t}, x)
  {
    var tx, all, e := txs[t], txs - {t}, UndoAll(d, Reverse(Open(log, t)));
    forall u, b | u in all && Dirties(all[u], b)
      ensures BlockOnDisk(e, x, u, all[u], b)
    {
      assert BlockOnDisk(d, v, u, txs[u], b);
      RollbackAt(d, log, t, tx, b);
      assert Get(x, b) == Get(v, b);
    }
    forall b | Clean(all, b)
      ensures Get(ViewOf(e), b) == Get(x, b)
    {
      RollbackAt(d, log, t, tx, b);
      ViewAt(d, b);
      ViewAt(e, b);
      if Dirties(tx, b) {
        assert BlockOnDisk(d, v, t, tx, b);
        UndoneBlock(d, v, CellOf(e, b), log, t, tx, b);
      } else {
        RollbackClean(txs, v, t, x, b);
      }
    }
  }

  /** c' is a legal state of a block that was in state c. */
  predicate CellOk(c': Cell, c: Cell) {
    c' == c || (c.idx.Some? && c'.val.Some? && (c'.idx == Some('A') || c'.idx == Some('U')))
  }

  lemma ValidByCells(d: Disk, e: Disk)
    requires ValidDisk(d) && forall b :: CellOk(CellOf(e, b), CellOf(d, b))
    ensures ValidDisk(e) && e.index.Keys == d.index.Keys
  {
    forall b
      ensures b in e.index <==> b in d.index
      ensures b in e.store <==> b in d.index
      ensures b in e.index ==> 0 < b <= NBLOCKS && e.index[b] in {'A', 'U'}
    {
      assert CellOk(CellOf(e, b), CellOf(d, b));
      assert b in d.index <==> b in d.store;
    }
  }

  lemma RollbackValid(d: Disk, log: seq<Record>, t: Tid, tx: Tx, v: View)
    requires ValidDisk(d) && TxOk(d, tx) && LogOk(log, t, tx) && tx.phase.Committing?
    requires forall b :: Dirties(tx, b) ==> BlockOnDisk(d, v, t, tx, b)
    ensures var e := UndoAll(d, Reverse(Open(log, t))); ValidDisk(e) && e.index.Keys == d.index.Keys
  {
    var e := UndoAll(d, Reverse(Open(log, t)));
    forall b
      ensures CellOk(CellOf(e, b), CellOf(d, b))
    {
      RollbackAt(d, log, t, tx, b);
      if Dirties(tx, b) {
        UndoneBlock(d, v, CellOf(e, b), log, t, tx, b);
        assert WellFormed(tx.blocks[b]);
      }
    }
    ValidByCells(d, e);
  }

  lemma RollbackOther(txs: Txs, v: View, t: Tid, x: View, ids: set<nat>, y: View, b: int)
    requires t in txs && !Dirties(txs[t], b) && Disjoint(txs)
    requires TakenBack(txs, v, {txs[t].id}, x) && TakenBack(txs, v, {txs[t].id} + ids, y)
    requires forall u :: u in txs - {t} && Dirties((txs - {t})[u], b) ==> (txs - {t})[u].id !in ids
    ensures Get(y, b) == Get(x, b)
  {
    if u :| u in txs && Dirties(txs[u], b) && txs[u].id == txs[t].id {
      assert Get(x, b) == Before(txs[u].blocks[b]) == Get(y, b);
    } else {
      forall u | u in txs && Dirties(txs[u], b)
        ensures txs[u].id !in {txs[t].id} + ids
      {
        assert u in txs - {t} && (txs - {t})[u] == txs[u];
      }
    }
  }

  lemma RollbackTakenBack(txs: Txs, v: View, t: Tid, x: View, ids: set<nat>, y: View)
    requires Disjoint(txs) && t in txs
    requires TakenBack(txs, v, {txs[t].id}, x) && TakenBack(txs, v, {txs[t].id} + ids, y)
    ensures TakenBack(txs - {t}, x, ids, y)
  {
    var all, id := txs - {t}, txs[t].id;
    forall u, b | u in all && Dirties(all[u], b) && all[u].id in ids
      ensures Get(y, b) == Before(all[u].blocks[b])
    {
      assert u in txs && Dirties(txs[u], b);
    }
    forall b | forall u :: u in all && Dirties(all[u], b) ==> all[u].id !in ids
      ensures Get(y, b) == Get(x, b)
    {
      if Dirties(txs[t], b) {
        assert Get(y, b) == Before(txs[t].blocks[b]) == Get(x, b);
      } else {
        RollbackOther(txs, v, t, x, ids, y, b);
      }
    }
  }

  lemma RollbackSerial(origin: View, order: seq<Entry>, txs: Txs, v: View, t: Tid)
    requires SerialOk(origin, order, txs, v) && Disjoint(txs) && DistinctIds(txs) && t in txs
    ensures Serial(origin, Strike(order, {txs[t].id})).Some?
    ensures var x := Serial(origin, Strike(order, {txs[t].id})).value;
            TakenBack(txs, v, {txs[t].id}, x) && SerialOk(origin, Strike(order, {txs[t].id}), txs - {t}, x)
  {
    var id, all := txs[t].id, txs - {t};
    assert {id} <= Ids(txs);
    assert Serial(origin, Strike(order, {id})).Some?;
    var x := Serial(origin, Strike(order, {id})).value;
    forall ids: set<nat> | ids <= Ids(all)
      ensures Serial(origin, Strike(Strike(order, {id}), ids)).Some?
      ensures TakenBack(all, x, ids, Serial(origin, Strike(Strike(order, {id}), ids)).value)
    {
      StrikeMore(order, {id}, ids);
      assert {id} + ids <= Ids(txs);
      assert Serial(origin, Strike(order, {id} + ids)).Some?;
      RollbackTakenBack(txs, v, t, x, ids, Serial(origin, Strike(order, {id} + ids)).value);
    }
  }

  // ---------------------------------------------------------------- a disconnect

  lemma LeaveMonitor(s: M.State, txs: Txs, fd: int)
    requires P.Inv(s) && Phased(s, txs) && Locked(s, txs)
    requires fd in s.transactions && s.transactions[fd] in txs
    ensures var s', all := M.Disconnect(s, fd), txs - {s.transactions[fd]};
            P.Inv(s') && Phased(s', all) && Locked(s', all) && forall u :: P.Live(s', u) ==> P.Live(s, u)
  {
    var t, s' := s.transactions[fd], M.Disconnect(s, fd);
    var all := txs - {t};
    P.DisconnectInv(s, fd);
    P.FlushExact(s, fd);
    forall u | u in all
      ensures PhaseOk(s', u, all[u]) && LocksOk(s', u, all[u])
    {
      assert PhaseOk(s, u, txs[u]) && LocksOk(s, u, txs[u]);
    }
  }

  lemma LeaveIds(txs: Txs, order: seq<Entry>, n: nat, t: Tid, ids: set<nat>)
    requires Identified(txs, order, n)
    ensures Identified(txs - {t}, Strike(order, ids), n)
  {
    forall e | e in Strike(order, ids)
      ensures e in order
    {
      StrikeMember(order, ids, e);
    }
  }

  lemma LeaveFresh(s: M.State, s': M.State, txs: Txs, v: View, t: Tid)
    requires Fresh(s, txs, v) && forall u :: P.Live(s', u) ==> P.Live(s, u)
    ensures Fresh(s', txs - {t}, v)
  {}

  lemma LeaveSound(d: Disk, txs: Txs, t: Tid)
    requires Sound(d, txs)
    ensures Sound(d, txs - {t})
  {}

  lemma LeaveUnfinished(w: World, w': World, t: Tid)
    requires w'.txs == w.txs - {t}
    ensures Unfinished(w') == Unfinished(w) - {t}
  {}

  lemma QuietLeaveLogged(log: seq<Record>, txs: Txs, t: Tid)
    requires Logged(log, txs) && t in txs && !txs[t].phase.Committing?
    ensures Logged(log, txs - {t})
  {
    assert LogOk(log, t, txs[t]);
    forall u | u in txs - {t}
      ensures LogOk(log, u, (txs - {t})[u])
    {
      assert LogOk(log, u, txs[u]);
    }
  }

  lemma QuietUnfinished(w: World, w': World, t: Tid)
    requires w'.txs == w.txs - {t} && t in w.txs && !w.txs[t].phase.Committing?
    ensures Unfinished(w') == Unfinished(w)
  {}

  /** The client had nothing on disk, or had finished: the monitor just lets go of its locks. */
  lemma QuietLeave(w: World, v: View, fd: int)
    requires Inv(w, v) && Connected(w, fd) && !TxOf(w, fd).phase.Committing?
    ensures Inv(w.(mon := M.Disconnect(w.mon, fd), txs := w.txs - {w.mon.transactions[fd]}), v)
  {
    var t := w.mon.transactions[fd];
    var w' := w.(mon := M.Disconnect(w.mon, fd), txs := w.txs - {t});
    LeaveMonitor(w.mon, w.txs, fd);
    StrikeNone(w.order);
    LeaveIds(w.txs, w.order, w.nextId, t, {});
    LeaveFresh(w.mon, w'.mon, w.txs, v, t);
    LeaveSound(w.files.disk, w.txs, t);
    QuietLeaveLogged(w.files.log, w.txs, t);
    QuietUnfinished(w, w', t);
  }

  /** The rollback a quiet disconnect asks for, if any, finds LEND. */
  lemma QuietLeaveScan(w: World, fd: int)
    requires Phased(w.mon, w.txs) && Logged(w.files.log, w.txs)
    requires Connected(w, fd) && !TxOf(w, fd).phase.Committing? && M.NeedsRollback(w.mon, fd)
    ensures BackScan(w.files.log, w.mon.transactions[fd], []) == Ended
  {
    var t := w.mon.transactions[fd];
    assert PhaseOk(w.mon, t, w.txs[t]) && LogOk(w.files.log, t, w.txs[t]);
    BackScanEnded(w.files.log, t, []);
  }

  lemma RollbackLogged(log: seq<Record>, txs: Txs, t: Tid)
    requires Logged(log, txs)
    ensures Logged(log + [AbortRecord(t)], txs - {t})
  {
    forall u
      ensures if u in txs - {t} then LogOk(log + [AbortRecord(t)], u, txs[u]) else Open(log + [AbortRecord(t)], u) == []
    {
      OpenSnoc(log, AbortRecord(t), u);
      if u in txs - {t} {
        assert LogOk(log, u, txs[u]);
        OtherLog(log, AbortRecord(t), u, txs[u]);
      }
    }
  }

  lemma RollbackScan(log: seq<Record>, t: Tid, tx: Tx)
    requires LogOk(log, t, tx) && tx.phase.Committing? && tx.phase.todo != Plan(t, tx.blocks)
    ensures BackScan(log, t, []) == Found(Reverse(Open(log, t)))
  {
    assert OpenTransaction(Open(log, t)) by {
      var n := |Plan(t, tx.blocks)| - |tx.phase.todo|;
      assert Plan(t, tx.blocks)[0..] == Plan(t, tx.blocks);
      RecordsOpen(t, tx.blocks, n);
    }
    BackScanOpen(log, t, []);
  }

  lemma RollbackFresh(s: M.State, s': M.State, txs: Txs, v: View, t: Tid, flushing: Txs, x: View)
    requires P.Inv(s) && Phased(s, txs) && Locked(s, txs) && Fresh(s, txs, v)
    requires forall u :: P.Live(s', u) ==> P.Live(s, u)
    requires t in txs && txs[t].phase.Committing?
    requires forall u :: u in flushing ==> u in txs && flushing[u] == txs[u]
    requires DistinctIds(flushing) && t in flushing && TakenBack(flushing, v, {txs[t].id}, x)
    ensures Fresh(s', txs - {t}, x)
  {
    CommittingLive(s, txs, t);
    forall u, b | u in txs - {t} && txs[u].phase == Working && P.Live(s', u) && b in txs[u].blocks
      ensures Get(x, b) == Before(txs[u].blocks[b])
    {
      assert Agrees(v, txs[u].blocks);
      if Dirties(txs[t], b) {
        Exclusive(s, txs, t, u, b);
      }
      assert Get(x, b) == Get(v, b);
    }
  }

  /** Files and order after rolling back t. */
  function AfterRollback(w: World, fd: int): World
    requires Connected(w, fd)
  {
    var t := w.mon.transactions[fd];
    w.(mon := M.Disconnect(w.mon, fd), txs := w.txs - {t},
       files := Files(UndoAll(w.files.disk, Reverse(Open(w.files.log, t))), w.files.log + [AbortRecord(t)]),
       order := Strike(w.order, {w.txs[t].id}))
  }

  lemma RollbackSound(w: World, v: View, t: Tid)
    requires ValidDisk(w.files.disk) && Sound(w.files.disk, w.txs) && Logged(w.files.log, w.txs)
    requires OnDisk(w.files.disk, Unfinished(w), v)
    requires t in w.txs && w.txs[t].phase.Committing?
    ensures WellFormedBlocks(w.txs[t].blocks) && LogOk(w.files.log, t, w.txs[t])
    ensures ValidDisk(UndoAll(w.files.disk, Reverse(Open(w.files.log, t))))
    ensures Sound(UndoAll(w.files.disk, Reverse(Open(w.files.log, t))), w.txs - {t})
  {
    var e := UndoAll(w.files.disk, Reverse(Open(w.files.log, t)));
    assert TxOk(w.files.disk, w.txs[t]);
    forall b | Dirties(w.txs[t], b)
      ensures BlockOnDisk(w.files.disk, v, t, w.txs[t], b)
    {
      assert Dirties(Unfinished(w)[t], b);
    }
    RollbackValid(w.files.disk, w.files.log, t, w.txs[t], v);
    SoundKeys(w.files.disk, e, w.txs);
    LeaveSound(e, w.txs, t);
  }

  lemma RollbackLeave(w: World, v: View, fd: int) returns (next: View)
    requires Inv(w, v) && Connected(w, fd) && TxOf(w, fd).phase.Committing?
    ensures Inv(AfterRollback(w, fd), next)
  {
    var t := w.mon.transactions[fd];
    var w' := AfterRollback(w, fd);
    UnfinishedDisjoint(w);
    UnfinishedIds(w);
    RollbackSerial(w.origin, w.order, Unfinished(w), v, t);
    next := Serial(w.origin, Strike(w.order, {w.txs[t].id})).value;
    RollbackSound(w, v, t);
    RollbackDisk(w.files.disk, w.files.log, Unfinished(w), v, t, next);
    LeaveMonitor(w.mon, w.txs, fd);
    LeaveIds(w.txs, w.order, w.nextId, t, {w.txs[t].id});
    RollbackLogged(w.files.log, w.txs, t);
    RollbackFresh(w.mon, w'.mon, w.txs, v, t, Unfinished(w), next);
    LeaveUnfinished(w, w', t);
  }

  lemma RollbackHappens(w: World, fd: int)
    requires Phased(w.mon, w.txs) && Logged(w.files.log, w.txs)
    requires Connected(w, fd) && BeginLogged(w, fd) && TxOf(w, fd).phase.Committing?
    ensures StepLeave(w, fd) == AfterRollback(w, fd)
  {
    var t := w.mon.transactions[fd];
    assert PhaseOk(w.mon, t, w.txs[t]) && LogOk(w.files.log, t, w.txs[t]);
    RollbackScan(w.files.log, t, w.txs[t]);
  }

  lemma LeaveStep(w: World, v: View, fd: int) returns (next: View)
    requires Inv(w, v) && Connected(w, fd) && BeginLogged(w, fd)
    ensures Inv(StepLeave(w, fd), next)
  {
    if TxOf(w, fd).phase.Committing? {
      RollbackHappens(w, fd);
      next := RollbackLeave(w, v, fd);
    } else {
      if M.NeedsRollback(w.mon, fd) {
        QuietLeaveScan(w, fd);
      }
      QuietLeave(w, v, fd);
      next := v;
    }
  }

  // ---------------------------------------------------------------- a crash

  /** A pending record is the undo image of a block that an unfinished transaction is changing. */
  lemma PendingImage(log: seq<Record>, txs: Txs, r: Record)
    requires Logged(log, txs) && Pending(log, r)
    ensures r.tid in txs && txs[r.tid].phase.Committing?
    ensures Dirties(txs[r.tid], r.block) && r == UndoImage(r.tid, r.block, txs[r.tid].blocks[r.block])
  {
    if r.tid in txs {
      assert LogOk(log, r.tid, txs[r.tid]);
      LoggedImage(log, r.tid, txs[r.tid], r);
    }
  }

  /** The log never holds two different undo images for one block: recovery's precondition is kept by the locks. */
  lemma OpenDisjoint(s: M.State, txs: Txs, log: seq<Record>)
    requires P.Inv(s) && Phased(s, txs) && Locked(s, txs) && Logged(log, txs)
    ensures DisjointOpen(log)
  {
    forall r, q | Pending(log, r) && Pending(log, q) && r.block == q.block
      ensures r == q
    {
      PendingImage(log, txs, r);
      PendingImage(log, txs, q);
      DirtyByOne(s, txs, r.tid, q.tid, r.block);
    }
  }

  lemma RecoverDirty(f: Files, txs: Txs, t: Tid, b: int)
    requires Logged(f.log, txs) && DisjointOpen(f.log)
    requires t in txs && txs[t].phase.Committing? && Dirties(txs[t], b) && b > 0
    requires forall u :: u in txs && txs[u].phase.Committing? && Dirties(txs[u], b) ==> u == t
    ensures UndoneCell(CellOf(f.disk, b), CellOf(Recover(f).disk, b), f.log, t, txs[t], b)
  {
    var r := UndoImage(t, b, txs[t].blocks[b]);
    if r in Open(f.log, t) {
      assert Pending(f.log, r);
      RecoverAt(f, r);
    } else {
      forall q | Pending(f.log, q)
        ensures q.block != b
      {
        PendingImage(f.log, txs, q);
      }
      RecoverElsewhere(f, b);
    }
  }

  lemma RecoverClean(f: Files, txs: Txs, b: int)
    requires Logged(f.log, txs)
    requires forall u :: u in txs && txs[u].phase.Committing? ==> !Dirties(txs[u], b)
    ensures CellOf(Recover(f).disk, b) == CellOf(f.disk, b)
  {
    forall q | Pending(f.log, q)
      ensures q.block != b
    {
      PendingImage(f.log, txs, q);
    }
    RecoverElsewhere(f, b);
  }

  lemma RecoverViewClean(w: World, v: View, x: View, b: int)
    requires Logged(w.files.log, w.txs) && Clean(Unfinished(w), b)
    requires OnDisk(w.files.disk, Unfinished(w), v) && TakenBack(Unfinished(w), v, Ids(Unfinished(w)), x)
    ensures Get(ViewOf(Recover(w.files).disk), b) == Get(x, b)
    ensures CellOf(Recover(w.files).disk, b) == CellOf(w.files.disk, b)
  {
    forall u | u in w.txs && w.txs[u].phase.Committing?
      ensures !Dirties(w.txs[u], b)
    {
      assert u in Unfinished(w) && !Dirties(Unfinished(w)[u], b);
    }
    RecoverClean(w.files, w.txs, b);
    ViewAt(w.files.disk, b);
    ViewAt(Recover(w.files).disk, b);
    assert Get(x, b) == Get(v, b);
  }

  lemma RecoverViewDirty(w: World, v: View, t: Tid, b: int)
    requires P.Inv(w.mon) && Phased(w.mon, w.txs) && Locked(w.mon, w.txs)
    requires Logged(w.files.log, w.txs) && Sound(w.files.disk, w.txs) && DisjointOpen(w.files.log)
    requires OnDisk(w.files.disk, Unfinished(w), v)
    requires t in Unfinished(w) && Dirties(w.txs[t], b)
    ensures CellView(CellOf(Recover(w.files).disk, b)) == Before(w.txs[t].blocks[b])
    ensures CellOk(CellOf(Recover(w.files).disk, b), CellOf(w.files.disk, b))
  {
    assert TxOk(w.files.disk, w.txs[t]) && LogOk(w.files.log, t, w.txs[t]);
    assert WellFormed(w.txs[t].blocks[b]);
    forall u | u in w.txs && w.txs[u].phase.Committing? && Dirties(w.txs[u], b)
      ensures u == t
    {
      DirtyByOne(w.mon, w.txs, t, u, b);
    }
    RecoverDirty(w.files, w.txs, t, b);
    assert BlockOnDisk(w.files.disk, v, t, Unfinished(w)[t], b);
    UndoneBlock(w.files.disk, v, CellOf(Recover(w.files).disk, b), w.files.log, t, w.txs[t], b);
  }

  /** Recovery leaves every block as it was before the unfinished transactions. */
  lemma RecoverView(w: World, v: View, x: View, b: int)
    requires P.Inv(w.mon) && Phased(w.mon, w.txs) && Locked(w.mon, w.txs)
    requires Logged(w.files.log, w.txs) && Sound(w.files.disk, w.txs)
    requires OnDisk(w.files.disk, Unfinished(w), v) && TakenBack(Unfinished(w), v, Ids(Unfinished(w)), x)
    ensures Get(ViewOf(Recover(w.files).disk), b) == Get(x, b)
    ensures CellOk(CellOf(Recover(w.files).disk, b), CellOf(w.files.disk, b))
  {
    ViewAt(Recover(w.files).disk, b);
    if Clean(Unfinished(w), b) {
      RecoverViewClean(w, v, x, b);
    } else {
      var t :| t in Unfinished(w) && Dirties(Unfinished(w)[t], b);
      OpenDisjoint(w.mon, w.txs, w.files.log);
      RecoverViewDirty(w, v, t, b);
      assert Unfinished(w)[t].id in Ids(Unfinished(w));
    }
  }

  lemma NoneUnfinished(origin: View, order: seq<Entry>, v: View)
    requires Serial(origin, order) == Some(v)
    ensures SerialOk(origin, order, map[], v)
  {
    forall ids: set<nat> | ids <= Ids(map[])
      ensures Serial(origin, Strike(order, ids)).Some?
      ensures TakenBack(map[], v, ids, Serial(origin, Strike(order, ids)).value)
    {
      assert ids == {};
      StrikeNone(order);
    }
  }

  lemma CrashInv(w: World, x: View)
    requires ValidDisk(w.files.disk) && Identified(w.txs, w.order, w.nextId)
    requires Serial(w.origin, Strike(w.order, Ids(Unfinished(w)))) == Some(x)
    requires forall b :: CellOk(CellOf(Recover(w.files).disk, b), CellOf(w.files.disk, b))
    requires x == ViewOf(Recover(w.files).disk)
    ensures Inv(StepCrash(w), x)
  {
    var w' := StepCrash(w);
    ValidByCells(w.files.disk, Recover(w.files).disk);
    forall t
      ensures Open(w'.files.log, t) == []
    {
      RecoverCloses(w.files, t);
    }
    NoneUnfinished(w.origin, w'.order, x);
    assert Unfinished(w') == map[];
    forall e | e in w'.order
      ensures e in w.order
    {
      StrikeMember(w.order, Ids(Unfinished(w)), e);
    }
  }

  lemma CrashStep(w: World, v: View) returns (next: View)
    requires Inv(w, v)
    ensures Inv(StepCrash(w), next)
    ensures next == ViewOf(Recover(w.files).disk)
  {
    var ids := Ids(Unfinished(w));
    assert Serial(w.origin, Strike(w.order, ids)).Some?;
    next := Serial(w.origin, Strike(w.order, ids)).value;
    forall b
      ensures Get(ViewOf(Recover(w.files).disk), b) == Get(next, b)
      ensures CellOk(CellOf(Recover(w.files).disk, b), CellOf(w.files.disk, b))
    {
      RecoverView(w, v, next, b);
    }
    ViewExtensional(next, ViewOf(Recover(w.files).disk));
    CrashInv(w, next);
  }
}
