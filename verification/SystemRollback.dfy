/** A rollback in single writes, interleaved with the other clients' flushes, is a disconnect in one step: beside every
    machine there is a world in which the rollback in progress has not begun. */
module SystemRollback {
  import opened Basics
  import opened Disk
  import opened LogSpec
  import opened Client
  import opened Recovery
  import opened SystemSpec
  import opened SystemInv
  import opened SystemRun
  import F = SystemFlush
  import E = SystemEnd
  import M = MonitorSpec
  import P = MonitorProps

  // ---------------------------------------------------------------- writes on top of a rollback cut short

  lemma WriteAllNext(f: Files, ws: seq<Client.Write>, k: nat)
    requires k < |ws|
    ensures WriteAll(f, ws[..k + 1]) == WriteFiles(WriteAll(f, ws[..k]), ws[k])
  {
    assert ws[..k + 1] == ws[..k] + [ws[k]];
    WriteAllConcat(f, ws[..k], [ws[k]]);
    var g := WriteAll(f, ws[..k]);
    assert WriteAll(g, [ws[k]]) == WriteAll(WriteFiles(g, ws[k]), []);
  }

  /** The next write is made, whatever was torn there before. */
  lemma CutNext(f: Files, ws: seq<Client.Write>, k: nat, torn: Option<Contents>)
    requires k < |ws|
    ensures WriteFiles(Cut(f, ws, k, torn), ws[k]) == Cut(f, ws, k + 1, None)
  {
    WriteAllNext(f, ws, k);
  }

  lemma CutTorn(f: Files, ws: seq<Client.Write>, k: nat, torn: Option<Contents>, junk: Contents)
    requires k < |ws| && ws[k].StoreW?
    ensures WriteFiles(Cut(f, ws, k, torn), StoreW(ws[k].block, junk)) == Cut(f, ws, k, Some(junk))
  {}

  /** Two writes of different blocks, or of a block and the log. */
  predicate Apart(v: Client.Write, w: Client.Write) {
    !v.LogW? && (w.LogW? || BlockOf(v) != BlockOf(w))
  }

  lemma WritesCommute(f: Files, v: Client.Write, w: Client.Write)
    requires Apart(v, w)
    ensures WriteFiles(WriteFiles(f, v), w) == WriteFiles(WriteFiles(f, w), v)
  {
    var d, e := WriteFiles(WriteFiles(f, v), w).disk, WriteFiles(WriteFiles(f, w), v).disk;
    forall b
      ensures CellOf(d, b) == CellOf(e, b)
    {
      WriteDiskAt(f.disk, v, b);
      WriteDiskAt(f.disk, w, b);
      WriteDiskAt(WriteDisk(f.disk, v), w, b);
      WriteDiskAt(WriteDisk(f.disk, w), v, b);
    }
    DiskExtensional(d, e);
  }

  lemma {:induction false} WriteAllCommutes(f: Files, ws: seq<Client.Write>, w: Client.Write)
    requires forall i :: 0 <= i < |ws| ==> Apart(ws[i], w)
    ensures WriteFiles(WriteAll(f, ws), w) == WriteAll(WriteFiles(f, w), ws)
    decreases |ws|
  {
    if ws != [] {
      assert Apart(ws[0], w);
      WritesCommute(f, ws[0], w);
      WriteAllCommutes(WriteFiles(f, ws[0]), ws[1..], w);
    }
  }

  /** Another client's write passes through a rollback cut short. */
  lemma CutCommutes(f: Files, ws: seq<Client.Write>, k: nat, torn: Option<Contents>, w: Client.Write)
    requires k < |ws| && forall i :: 0 <= i < |ws| - 1 ==> Apart(ws[i], w)
    requires ws[|ws| - 1].LogW?
    ensures WriteFiles(Cut(f, ws, k, torn), w) == Cut(WriteFiles(f, w), ws, k, torn)
  {
    WriteAllCommutes(f, ws[..k], w);
    if torn.Some? && ws[k].StoreW? {
      assert Apart(ws[k], w);
      WritesCommute(WriteAll(f, ws[..k]), StoreW(ws[k].block, torn.value), w);
    }
  }

  // ---------------------------------------------------------------- the world beside the machine

  /** The writes ws, started on files f, have come as far as `todo`, and the next block write may be torn. */
  predicate PartDone(f: Files, ws: seq<Client.Write>, g: Files, todo: seq<Client.Write>, torn: Option<Contents>) {
    1 <= |todo| <= |ws| && todo == ws[|ws| - |todo|..] && g == Cut(f, ws, |ws| - |todo|, torn)
  }

  lemma TailStep(ws: seq<Client.Write>, k: nat)
    requires k < |ws|
    ensures ws[k..][0] == ws[k] && ws[k..][1..] == ws[k + 1..]
  {}

  lemma CutAll(f: Files, ws: seq<Client.Write>)
    ensures Cut(f, ws, |ws|, None) == WriteAll(f, ws)
  {
    assert ws[..|ws|] == ws;
  }

  lemma PartNext(f: Files, ws: seq<Client.Write>, g: Files, todo: seq<Client.Write>, torn: Option<Contents>)
    requires PartDone(f, ws, g, todo, torn) && |todo| > 1
    ensures PartDone(f, ws, WriteFiles(g, todo[0]), todo[1..], None)
  {
    var k := |ws| - |todo|;
    TailStep(ws, k);
    CutNext(f, ws, k, torn);
  }

  lemma PartLast(f: Files, ws: seq<Client.Write>, g: Files, todo: seq<Client.Write>, torn: Option<Contents>)
    requires PartDone(f, ws, g, todo, torn) && |todo| == 1
    ensures WriteFiles(g, todo[0]) == WriteAll(f, ws)
  {
    var k := |ws| - 1;
    TailStep(ws, k);
    CutNext(f, ws, k, torn);
    CutAll(f, ws);
  }

  lemma PartTorn(f: Files, ws: seq<Client.Write>, g: Files, todo: seq<Client.Write>, torn: Option<Contents>, junk: Contents)
    requires PartDone(f, ws, g, todo, torn) && todo[0].StoreW?
    ensures PartDone(f, ws, WriteFiles(g, StoreW(todo[0].block, junk)), todo, Some(junk))
  {
    CutTorn(f, ws, |ws| - |todo|, torn, junk);
  }

  lemma PartOther(f: Files, ws: seq<Client.Write>, g: Files, todo: seq<Client.Write>, torn: Option<Contents>,
                  w: Client.Write)
    requires PartDone(f, ws, g, todo, torn)
    requires forall i :: 0 <= i < |ws| - 1 ==> Apart(ws[i], w)
    requires ws[|ws| - 1].LogW?
    ensures PartDone(WriteFiles(f, w), ws, WriteFiles(g, w), todo, torn)
  {
    var k := |ws| - |todo|;
    CutCommutes(f, ws, k, torn, w);
  }

  /** The rollback of t, started on files f, has come as far as `todo`. */
  predicate Halfway(f: Files, t: Tid, g: Files, todo: seq<Client.Write>, torn: Option<Contents>) {
    PartDone(f, RollbackWrites(f.log, t), g, todo, torn)
  }

  /** s is the machine's world with the rollback in progress taken back. */
  ghost predicate Beside(s: World, m: Machine, torn: Option<Contents>) {
    if m.rolling.Idle? then s == m.world
    else
      && m.world == s.(files := m.world.files)
      && Connected(s, m.rolling.fd) && BeginLogged(s, m.rolling.fd) && TxOf(s, m.rolling.fd).phase.Committing?
      && Halfway(s.files, s.mon.transactions[m.rolling.fd], m.world.files, m.rolling.todo, torn)
  }

  /** The parts of the invariant that the proofs below need. */
  ghost predicate Sane(s: World) {
    P.Inv(s.mon) && Phased(s.mon, s.txs) && Locked(s.mon, s.txs) && Logged(s.files.log, s.txs)
  }

  lemma BegunLog(log: seq<Record>, t: Tid, tx: Tx)
    requires LogOk(log, t, tx) && tx.phase.Committing? && tx.phase.todo != Plan(t, tx.blocks)
    ensures OpenTransaction(Open(log, t))
  {
    var plan := Plan(t, tx.blocks);
    var n := |plan| - |tx.phase.todo|;
    assert n != 0 by {
      assert plan[0..] == plan;
    }
    assert Open(log, t) == Records(plan[..n]);
    E.RecordsOpen(t, tx.blocks, n);
  }

  lemma OpenBegun(s: World, fd: int)
    requires Phased(s.mon, s.txs) && Logged(s.files.log, s.txs)
    requires Connected(s, fd) && BeginLogged(s, fd) && TxOf(s, fd).phase.Committing?
    ensures OpenTransaction(Open(s.files.log, s.mon.transactions[fd])) && M.NeedsRollback(s.mon, fd)
  {
    var t := s.mon.transactions[fd];
    assert PhaseOk(s.mon, t, s.txs[t]) && LogOk(s.files.log, t, s.txs[t]);
    BegunLog(s.files.log, t, s.txs[t]);
  }

  /** The undo writes change only blocks of the transaction that is rolled back. */
  lemma UndoneBlocks(log: seq<Record>, t: Tid, tx: Tx, i: nat)
    requires LogOk(log, t, tx) && i < |UndoAllWrites(Reverse(Open(log, t)))|
    ensures var w := UndoAllWrites(Reverse(Open(log, t)))[i]; !w.LogW? && Dirties(tx, BlockOf(w))
  {
    var rs := Reverse(Open(log, t));
    UndoWritesAbsorbed(rs, i);
    var q :| q in rs && Touches(q) && q.block == BlockOf(UndoAllWrites(rs)[i]);
    ReverseMembers(Open(log, t), q);
    E.LoggedImage(log, t, tx, q);
  }

  /** Another committing client's write is apart from all of them. */
  lemma UndoApart(s: World, t: Tid, u: Tid, w: Client.Write, i: nat)
    requires Sane(s) && t != u && i < |UndoAllWrites(Reverse(Open(s.files.log, t)))|
    requires t in s.txs && s.txs[t].phase.Committing? && u in s.txs && s.txs[u].phase.Committing?
    requires w.LogW? || Dirties(s.txs[u], BlockOf(w))
    ensures Apart(UndoAllWrites(Reverse(Open(s.files.log, t)))[i], w)
  {
    assert LogOk(s.files.log, t, s.txs[t]);
    UndoneBlocks(s.files.log, t, s.txs[t], i);
    if !w.LogW? && BlockOf(UndoAllWrites(Reverse(Open(s.files.log, t)))[i]) == BlockOf(w) {
      DirtyByOne(s.mon, s.txs, t, u, BlockOf(w));
    }
  }

  // ---------------------------------------------------------------- each act is a step of that world, or none

  /** Starting to roll back changes nothing yet. */
  lemma StartBeside(m: Machine, fd: int)
    requires m.rolling.Idle? && Sane(m.world)
    requires Connected(m.world, fd) && BeginLogged(m.world, fd) && Undoes(m.world, fd)
    ensures Beside(m.world, Move(m, StartUndo(fd)), None)
  {
    var t := m.world.mon.transactions[fd];
    assert PhaseOk(m.world.mon, t, m.world.txs[t]);
    if m.world.txs[t].phase.Committing? {
      OpenBegun(m.world, fd);
      BackScanOpen(m.world.files.log, t, []);
      assert [] + Reverse(Open(m.world.files.log, t)) == Reverse(Open(m.world.files.log, t));
      var ws := RollbackWrites(m.world.files.log, t);
      assert ws[0..] == ws && ws[..0] == [];
    } else {
      E.QuietLeaveScan(m.world, fd);
    }
  }

  lemma HalfwayNext(f: Files, t: Tid, g: Files, todo: seq<Client.Write>, torn: Option<Contents>)
    requires Halfway(f, t, g, todo, torn) && |todo| > 1
    ensures Halfway(f, t, WriteFiles(g, todo[0]), todo[1..], None)
  {
    PartNext(f, RollbackWrites(f.log, t), g, todo, torn);
  }

  lemma HalfwayTorn(f: Files, t: Tid, g: Files, todo: seq<Client.Write>, torn: Option<Contents>, junk: Contents)
    requires Halfway(f, t, g, todo, torn) && todo[0].StoreW?
    ensures Halfway(f, t, WriteFiles(g, StoreW(todo[0].block, junk)), todo, Some(junk))
  {
    PartTorn(f, RollbackWrites(f.log, t), g, todo, torn, junk);
  }

  lemma HalfwayEnds(f: Files, t: Tid, g: Files, todo: seq<Client.Write>, torn: Option<Contents>)
    requires Halfway(f, t, g, todo, torn) && |todo| == 1 && OpenTransaction(Open(f.log, t))
    ensures Rollback(f, t) == RolledBack(WriteFiles(g, todo[0]))
  {
    PartLast(f, RollbackWrites(f.log, t), g, todo, torn);
    RollbackWritesRollback(f, t);
  }

  /** Leaving with a rollback, in one step. */
  lemma LeaveRolledBack(s: World, fd: int, f: Files)
    requires Connected(s, fd) && M.NeedsRollback(s.mon, fd)
    requires Rollback(s.files, s.mon.transactions[fd]) == RolledBack(f)
    ensures StepLeave(s, fd) == Dropped(s.(files := f), fd)
  {}

  lemma LastMove(m: Machine)
    requires m.rolling.Undoing? && |m.rolling.todo| == 1 && Connected(m.world, m.rolling.fd)
    ensures Move(m, UndoWrite) == Machine(Dropped(Written(m.world, m.rolling.todo[0]), m.rolling.fd), Idle)
  {}

  /** The last write of the rollback is the disconnect. */
  lemma LastWrite(s: World, m: Machine, torn: Option<Contents>)
    requires Beside(s, m, torn) && Sane(s) && m.rolling.Undoing? && |m.rolling.todo| == 1
    ensures Enabled(s, Leave(m.rolling.fd))
    ensures Move(m, UndoWrite) == Machine(StepLeave(s, m.rolling.fd), Idle)
  {
    var fd := m.rolling.fd;
    OpenBegun(s, fd);
    HalfwayEnds(s.files, s.mon.transactions[fd], m.world.files, m.rolling.todo, torn);
    LeaveRolledBack(s, fd, WriteFiles(m.world.files, m.rolling.todo[0]));
    LastMove(m);
    assert s.(files := WriteFiles(m.world.files, m.rolling.todo[0])) == Written(m.world, m.rolling.todo[0]);
  }

  lemma SameRollbackWrites(log: seq<Record>, r: Record, t: Tid)
    requires r.tid != t
    ensures RollbackWrites(log + [r], t) == RollbackWrites(log, t)
  {
    OpenSnoc(log, r, t);
  }

  lemma HalfwayOther(s: World, t: Tid, u: Tid, g: Files, todo: seq<Client.Write>, torn: Option<Contents>, w: Client.Write)
    requires Sane(s) && t != u && Halfway(s.files, t, g, todo, torn)
    requires t in s.txs && s.txs[t].phase.Committing? && u in s.txs && s.txs[u].phase.Committing?
    requires if w.LogW? then w.rec.tid == u else Dirties(s.txs[u], BlockOf(w))
    ensures Halfway(WriteFiles(s.files, w), t, WriteFiles(g, w), todo, torn)
  {
    var ws := RollbackWrites(s.files.log, t);
    forall i | 0 <= i < |ws| - 1
      ensures Apart(ws[i], w)
    {
      UndoApart(s, t, u, w, i);
    }
    PartOther(s.files, ws, g, todo, torn, w);
    if w.LogW? {
      SameRollbackWrites(s.files.log, w.rec, t);
    }
  }

  lemma OtherTid(s: World, f: int, g: int)
    requires P.Inv(s.mon) && Connected(s, f) && Connected(s, g) && f != g
    ensures s.mon.transactions[f] != s.mon.transactions[g]
  {}

  /** The next write of a committing client. */
  lemma NextWrite(s: World, u: Tid)
    requires Logged(s.files.log, s.txs) && u in s.txs && s.txs[u].phase.Committing?
    ensures s.txs[u].phase.todo != []
    ensures var w := F.Head(s.txs[u]); if w.LogW? then w.rec.tid == u else Dirties(s.txs[u], BlockOf(w))
  {
    assert LogOk(s.files.log, u, s.txs[u]);
    F.HeadShape(u, s.txs[u]);
  }

  /** One flush write changes the files and the writer's own transaction. */
  lemma FlushOnly(s: World, f: Files, g: int)
    requires Connected(s, g) && TxOf(s, g).phase.Committing? && TxOf(s, g).phase.todo != []
    ensures var u, s' := s.mon.transactions[g], StepFlush(s, g);
            && s'.files == WriteFiles(s.files, F.Head(s.txs[u])) && s'.mon == s.mon
            && s'.txs == s.txs[u := F.Flushed(s.txs[u])]
            && StepFlush(s.(files := f), g) == s'.(files := WriteFiles(f, F.Head(s.txs[u])))
  {}

  lemma FlushAlike(s: World, m: Machine, torn: Option<Contents>, g: int)
    requires Beside(s, m, torn) && m.rolling.Undoing?
    requires Connected(s, g) && TxOf(s, g).phase.Committing? && TxOf(s, g).phase.todo != []
    ensures var u, s' := s.mon.transactions[g], StepFlush(s, g);
            && s'.files == WriteFiles(s.files, F.Head(s.txs[u])) && s'.mon == s.mon
            && (forall x :: x in s.txs && x != u ==> x in s'.txs && s'.txs[x] == s.txs[x])
            && m.(world := StepFlush(m.world, g)) ==
               Machine(s'.(files := WriteFiles(m.world.files, F.Head(s.txs[u]))), m.rolling)
  {
    FlushOnly(s, m.world.files, g);
    assert m.world == s.(files := m.world.files);
  }

  lemma BesideElsewhere(s: World, s': World, m: Machine, f: Files, u: Tid, torn: Option<Contents>)
    requires Beside(s, m, torn) && m.rolling.Undoing? && u != s.mon.transactions[m.rolling.fd]
    requires s'.mon == s.mon && forall t :: t in s.txs && t != u ==> t in s'.txs && s'.txs[t] == s.txs[t]
    requires Halfway(s'.files, s.mon.transactions[m.rolling.fd], f, m.rolling.todo, torn)
    ensures Beside(s', Machine(s'.(files := f), m.rolling), torn)
  {}

  /** Another client flushes meanwhile. */
  lemma FlushBeside(s: World, m: Machine, torn: Option<Contents>, g: int)
    requires Beside(s, m, torn) && Sane(s) && m.rolling.Undoing? && g != m.rolling.fd
    requires Connected(m.world, g) && TxOf(m.world, g).phase.Committing?
    ensures Beside(StepFlush(s, g), m.(world := StepFlush(m.world, g)), torn)
  {
    var t, u := s.mon.transactions[m.rolling.fd], s.mon.transactions[g];
    OtherTid(s, m.rolling.fd, g);
    NextWrite(s, u);
    var w := F.Head(s.txs[u]);
    HalfwayOther(s, t, u, m.world.files, m.rolling.todo, torn, w);
    FlushAlike(s, m, torn, g);
    BesideElsewhere(s, StepFlush(s, g), m, WriteFiles(m.world.files, w), u, torn);
  }

  /** Another client's block write is torn meanwhile. */
  lemma TearBeside(s: World, m: Machine, torn: Option<Contents>, g: int, junk: Contents)
    requires Beside(s, m, torn) && Sane(s) && m.rolling.Undoing? && g != m.rolling.fd
    requires Connected(m.world, g) && TxOf(m.world, g).phase.Committing?
    ensures Beside(StepTear(s, g, junk), m.(world := StepTear(m.world, g, junk)), torn)
  {
    var t, u := s.mon.transactions[m.rolling.fd], s.mon.transactions[g];
    OtherTid(s, m.rolling.fd, g);
    NextWrite(s, u);
    if F.Head(s.txs[u]).StoreW? {
      HalfwayOther(s, t, u, m.world.files, m.rolling.todo, torn, StoreW(F.Head(s.txs[u]).block, junk));
    }
  }

  /** Calls answered from the block map never look at the disk. */
  lemma LocalAnywhere(tx: Tx, d: Disk, e: Disk, c: Call)
    ensures RouteOf(tx, d, c) == Local <==> RouteOf(tx, e, c) == Local
  {}

  lemma BufferedBeside(s: World, m: Machine, torn: Option<Contents>, g: int, c: Call)
    requires Beside(s, m, torn) && P.Inv(s.mon) && m.rolling.Undoing? && g != m.rolling.fd && Connected(s, g)
    ensures Beside(StepBuffered(s, g, c), m.(world := StepBuffered(m.world, g, c)), torn)
  {
    OtherTid(s, m.rolling.fd, g);
  }

  /** Recovery does not notice how far a rollback has come. */
  lemma SameRecovery(s: World, m: Machine, torn: Option<Contents>)
    requires Beside(s, m, torn) && DisjointOpen(s.files.log)
    ensures Recover(m.world.files) == Recover(s.files) && m.world.files.log == s.files.log
  {
    if m.rolling.Undoing? {
      var t := s.mon.transactions[m.rolling.fd];
      RollbackForgotten(s.files, t, |RollbackWrites(s.files.log, t)| - |m.rolling.todo|, torn);
    }
  }

  lemma CrashBeside(s: World, m: Machine, torn: Option<Contents>)
    requires Beside(s, m, torn) && Sane(s)
    ensures StepCrash(m.world) == StepCrash(s)
  {
    E.OpenDisjoint(s.mon, s.txs, s.files.log);
    SameRecovery(s, m, torn);
  }

  /** While a rollback is in progress. */
  lemma BusyBeside(s: World, m: Machine, torn: Option<Contents>, e: Event)
    requires Beside(s, m, torn) && Sane(s) && m.rolling.Undoing? && Possible(m, Whole(e))
    ensures Enabled(s, e)
    ensures Beside(Step(s, e), Move(m, Whole(e)), torn)
  {
    match e
    case Buffered(g, c) =>
      LocalAnywhere(TxOf(s, g), s.files.disk, m.world.files.disk, c);
      BufferedBeside(s, m, torn, g, c);
    case Flush(g) => FlushBeside(s, m, torn, g);
    case Tear(g, junk) => TearBeside(s, m, torn, g, junk);
    case Crash => CrashBeside(s, m, torn);
    case _ =>
  }

  /** Every act of the machine is a step of the world beside it, or leaves that world alone. */
  lemma Follows(s: World, m: Machine, torn: Option<Contents>, a: Act) returns (e: Option<Event>, next: Option<Contents>)
    requires Beside(s, m, torn) && Sane(s) && Possible(m, a)
    ensures e.None? ==> Beside(s, Move(m, a), next)
    ensures e.Some? ==> Enabled(s, e.value) && Beside(Step(s, e.value), Move(m, a), next)
  {
    e, next := None, torn;
    match a
    case Whole(ev) =>
      e := Some(ev);
      if m.rolling.Undoing? {
        BusyBeside(s, m, torn, ev);
      }
    case StartUndo(fd) =>
      next := None;
      StartBeside(m, fd);
    case UndoWrite =>
      next := None;
      if |m.rolling.todo| == 1 {
        e := Some(Leave(m.rolling.fd));
        LastWrite(s, m, torn);
      } else {
        HalfwayNext(s.files, s.mon.transactions[m.rolling.fd], m.world.files, m.rolling.todo, torn);
      }
    case UndoTorn(junk) =>
      next := Some(junk);
      HalfwayTorn(s.files, s.mon.transactions[m.rolling.fd], m.world.files, m.rolling.todo, torn, junk);
  }
}
