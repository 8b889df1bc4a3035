/** Why the sparing of committing readers has to be a hypothesis: a run in which a reader sweep meets one. */
module SystemWitness {
  import opened Basics
  import opened Disk
  import opened LogSpec
  import opened Client
  import opened Recovery
  import opened SystemSpec
  import opened SystemRun
  import M = MonitorSpec
  import P = MonitorProps

  /** Enabled, but sweeps may meet committing readers. */
  ghost predicate LooselyEnabled(w: World, e: Event) {
    if e.Asked? then
      Connected(w, e.fd) && TxOf(w, e.fd).phase == Working && RouteOf(TxOf(w, e.fd), w.files.disk, e.call) == AskMonitor
    else Enabled(w, e)
  }

  /** A whole event; no rollback takes place in this run. */
  ghost predicate LooseStep(w: World, e: Event, w': World) {
    LooselyEnabled(w, e) && (e.Leave? ==> !Undoes(w, e.fd)) && w' == Step(w, e)
  }

  ghost predicate IsLooseRun(ws: seq<World>, es: seq<Event>) {
    && |ws| == |es| + 1
    && Initial(ws[0])
    && forall i :: 0 <= i < |es| ==> LooseStep(ws[i], es[i], ws[i + 1])
  }

  // ---------------------------------------------------------------- the run, world by world

  const X: Contents := [0]
  const Y: Contents := [1]
  const JUNK: Contents := [2]

  /** Two allocated blocks. */
  function Two(x: Contents): Disk { Disk(map[1 := 'A', 2 := 'A'], map[1 := x, 2 := X]) }

  function Start(): World { World(ViewOf(Two(X)), M.INITIAL, Files(Two(X), []), map[], [], 0) }

  function Stat(block: int, stat: M.Status): M.TStat { M.TStat(0, block, 0, stat) }

  function Tables(s1: M.TStat, s2: M.TStat, holders: map<int, M.Holders>): M.State {
    M.State(3, map[10 := 1, 11 := 2], map[1 := s1, 2 := s2], holders)
  }

  function Joined(mon: M.State, files: Files, t1: Tx, t2: Tx, order: seq<Entry>): World {
    World(ViewOf(Two(X)), mon, files, map[1 := t1, 2 := t2], order, 2)
  }

  function Idle(id: nat): Tx { Tx(id, map[], [], 0, Working) }

  function One(): World {
    World(ViewOf(Two(X)), M.State(2, map[10 := 1], map[1 := Stat(0, M.BEGUN)], map[]),
          Files(Two(X), []), map[1 := Idle(0)], [], 1)
  }

  /** The first client writes block 1 and reads block 2. */
  function Blocks1(): Blocks { map[1 := WrittenOver(X, Y)] }
  function Blocks2(): Blocks { map[1 := WrittenOver(X, Y), 2 := ReadFrom(X)] }
  function Obs1(): seq<Obs> { [DidWrite(1, X, Y)] }
  function Obs2(): seq<Obs> { [DidWrite(1, X, Y), DidRead(2, X)] }
  function Locks1(): map<int, M.Holders> { map[1 := M.Holders([], 1)] }
  function Locks2(): map<int, M.Holders> { map[1 := M.Holders([], 1), 2 := M.Holders([1], 0)] }

  function Both(): World {
    Joined(Tables(Stat(0, M.BEGUN), Stat(0, M.BEGUN), map[]), Files(Two(X), []), Idle(0), Idle(1), [])
  }

  function Wrote(): World {
    Joined(Tables(Stat(1, M.WRITING), Stat(0, M.BEGUN), Locks1()), Files(Two(X), []),
           Tx(0, Blocks1(), Obs1(), 0, Working), Idle(1), [])
  }

  function HasRead(): World {
    Joined(Tables(Stat(2, M.READING), Stat(0, M.BEGUN), Locks2()), Files(Two(X), []),
           Tx(0, Blocks2(), Obs2(), 0, Working), Idle(1), [])
  }

  /** It commits; todo is what it has yet to write. */
  function Flushing(todo: seq<Client.Write>, files: Files): World {
    Joined(Tables(Stat(2, M.COMMITTING), Stat(0, M.BEGUN), Locks2()), files,
           Tx(0, Blocks2(), Obs2(), 0, Committing(todo)), Idle(1), [Entry(0, Obs2())])
  }

  function Image(): Record { Record(1, LWRITE, 1, 'A', X) }

  function Torn(): Files { Files(Two(JUNK), [BeginRecord(1), Image()]) }

  /** The second client wants block 2: the first is swept although it is committing. */
  function Swept(todo: seq<Client.Write>): World {
    Joined(Tables(Stat(0, M.PREEMPTED), Stat(2, M.WRITING), map[1 := M.Holders([], 1), 2 := M.Holders([], 2)]), Torn(),
           Tx(0, Blocks2(), Obs2(), 0, Committing(todo)),
           Tx(1, map[2 := WrittenOver(X, Y)], [DidWrite(2, X, Y)], 0, Working), [Entry(0, Obs2())])
  }

  /** The first client dies: the monitor no longer knows that it was committing, and does not roll back. */
  function Lost(): World {
    World(ViewOf(Two(X)),
          M.State(3, map[11 := 2], map[2 := Stat(2, M.WRITING)], map[1 := M.Holders([], 0), 2 := M.Holders([], 2)]),
          Torn(), map[2 := Tx(1, map[2 := WrittenOver(X, Y)], [DidWrite(2, X, Y)], 0, Working)],
          [Entry(0, Obs2())], 2)
  }

  // ---------------------------------------------------------------- the steps

  lemma PlanStarts() returns (rest: seq<Client.Write>)
    ensures Plan(1, Blocks2()) == [LogW(BeginRecord(1)), LogW(Image()), StoreW(1, Y)] + rest
    ensures rest != []
  {
    var bs := Blocks2();
    assert bs.Keys == {1, 2};
    assert Least(bs.Keys) == 1;
    assert BlockWrites(1, 1, bs[1]) == [LogW(Image()), StoreW(1, Y)];
    rest := PlanBlocks(1, bs, bs.Keys - {1}) + [LogW(EndRecord(1))];
  }

  lemma Connecting()
    ensures Initial(Start())
    ensures LooseStep(Start(), Connect(10, 0, 0), One())
    ensures LooseStep(One(), Connect(11, 0, 0), Both())
  {}

  lemma WriteAsked()
    ensures M.Process(Both().mon, M.Request(1, 0, M.WRITE, 1), 10, 0) == M.Handled(Wrote().mon, M.OK)
  {}

  lemma Writing()
    ensures LooseStep(Both(), Asked(10, Write(1, Y), 0), Wrote())
  {
    WriteAsked();
    assert [] + [DidWrite(1, X, Y)] == Obs1();
    assert GrantedTx(Idle(0), Two(X), Write(1, Y)) == Wrote().txs[1];
  }

  lemma ReadAsked()
    ensures M.Process(Wrote().mon, M.Request(1, 0, M.READ, 2), 10, 0) == M.Handled(HasRead().mon, M.OK)
  {
    assert [1] + [] == [1];
  }

  lemma Reading()
    ensures LooseStep(Wrote(), Asked(10, Read(2), 0), HasRead())
  {
    ReadAsked();
    assert Obs1() + [DidRead(2, X)] == Obs2();
    assert GrantedTx(Wrote().txs[1], Two(X), Read(2)) == HasRead().txs[1];
  }

  /** The tables with the committing reader in the way, and after the sweep. */
  function Guarded(): M.State { Tables(Stat(2, M.COMMITTING), Stat(0, M.BEGUN), Locks2()) }

  lemma CommitAsked()
    ensures M.Process(HasRead().mon, M.Request(1, 0, M.COMMIT, 0), 10, 0) == M.Handled(Guarded(), M.OK)
  {}

  lemma Commits()
    ensures LooseStep(HasRead(), Commit(10), Flushing(Plan(1, Blocks2()), Files(Two(X), [])))
  {
    CommitAsked();
    var w := Flushing(Plan(1, Blocks2()), Files(Two(X), []));
    assert HasRead().txs[1 := w.txs[1]] == w.txs;
    assert HasRead().order + [Entry(0, Obs2())] == w.order;
  }

  lemma Flushes(todo: seq<Client.Write>, f: Files)
    requires |todo| > 1
    ensures LooseStep(Flushing(todo, f), SystemSpec.Flush(10), Flushing(todo[1..], WriteFiles(f, todo[0])))
  {}

  lemma Tears(todo: seq<Client.Write>, f: Files)
    requires todo != [] && todo[0].StoreW?
    ensures LooseStep(Flushing(todo, f), Tear(10, JUNK), Flushing(todo, WriteFiles(f, StoreW(todo[0].block, JUNK))))
  {}

  function Cleared(): M.State {
    Tables(Stat(0, M.PREEMPTED), Stat(0, M.BEGUN), map[1 := M.Holders([], 1), 2 := M.Holders([], 0)])
  }

  lemma SweepChecks()
    ensures M.CanWrite(Guarded(), 2, 2, 0) == M.Check(M.Granted, Cleared())
  {
    var s := Guarded();
    assert M.ScanReaders(s.status, [1], 2, 0) == M.ScanReaders(s.status, [1][1..], 2, 0) == M.Granted;
    assert M.PreemptAll(s.status, [1]) == map[1 := Stat(0, M.PREEMPTED), 2 := Stat(0, M.BEGUN)];
  }

  lemma SweepGrants(todo: seq<Client.Write>)
    ensures M.UpdateStatus(M.SetWriter(Cleared(), 2, 2), 2, 2, M.WRITING) == Swept(todo).mon
  {}

  lemma SweepAsked(todo: seq<Client.Write>)
    ensures var s := Flushing(todo, Torn()).mon;
            && M.Process(s, M.Request(2, 0, M.WRITE, 2), 11, 0) == M.Handled(Swept(todo).mon, M.OK)
            && P.Sweeps(s, M.Request(2, 0, M.WRITE, 2), 0) && P.ReadHolds(s, 1, 2) && P.Committing(s, 1)
  {
    SweepChecks();
    SweepGrants(todo);
    assert Flushing(todo, Torn()).mon == Guarded();
  }

  lemma Sweeping(todo: seq<Client.Write>)
    ensures LooseStep(Flushing(todo, Torn()), Asked(11, Write(2, Y), 0), Swept(todo))
    ensures !Enabled(Flushing(todo, Torn()), Asked(11, Write(2, Y), 0))
  {
    SweepAsked(todo);
    assert [] + [DidWrite(2, X, Y)] == [DidWrite(2, X, Y)];
    assert GrantedTx(Idle(1), Two(JUNK), Write(2, Y)) == Swept(todo).txs[2];
  }

  lemma DroppedLocks(todo: seq<Client.Write>)
    ensures M.FlushBlocks(Swept(todo).mon.blockmap, 1) == Lost().mon.blockmap
  {
    assert M.Without([], 1) == [];
  }

  lemma DroppedTables(todo: seq<Client.Write>)
    ensures Swept(todo).mon.status - {1} == Lost().mon.status
    ensures Swept(todo).mon.transactions - {10} == Lost().mon.transactions
  {}

  lemma Dropped(todo: seq<Client.Write>)
    ensures M.Disconnect(Swept(todo).mon, 10) == Lost().mon && !M.NeedsRollback(Swept(todo).mon, 10)
  {
    DroppedLocks(todo);
    DroppedTables(todo);
    var s := Swept(todo).mon;
    assert M.Flush(s, 1) == s.(status := s.status - {1}, blockmap := M.FlushBlocks(s.blockmap, 1));
  }

  lemma LeavesQuietly(todo: seq<Client.Write>)
    ensures Connected(Swept(todo), 10) && Step(Swept(todo), Leave(10)) == Lost()
  {
    Dropped(todo);
    assert Swept(todo).txs - {1} == Lost().txs;
  }

  lemma Leaving(todo: seq<Client.Write>)
    requires todo != Plan(1, Blocks2())
    ensures LooseStep(Swept(todo), Leave(10), Lost())
  {
    LeavesQuietly(todo);
    Dropped(todo);
  }

  lemma Differs()
    ensures ViewOf(Two(JUNK)) != ViewOf(Two(X))
    ensures Serial(ViewOf(Two(X)), [Entry(0, Obs2())]) != Some(ViewOf(Two(JUNK)))
  {
    var v := ViewOf(Two(X));
    assert v[1] == X && ViewOf(Two(JUNK))[1] == JUNK;
    assert Obs2()[..1] == Obs1() && Obs1()[..0] == [];
    assert Replay(v, Obs1()) == Some(v[1 := Y]);
    assert Replay(v, Obs2()) == Some(v[1 := Y]);
    assert [Entry(0, Obs2())][..0] == [];
    assert Serial(v, []) == Some(v);
    assert Serial(v, [Entry(0, Obs2())]) == Replay(v, Obs2());
  }

  lemma Continues(ws: seq<World>, es: seq<Event>, e: Event, w: World)
    requires IsLooseRun(ws, es) && LooseStep(ws[|ws| - 1], e, w)
    ensures IsLooseRun(ws + [w], es + [e])
  {}

  /** Two more steps. */
  lemma Twice(ws: seq<World>, es: seq<Event>, d: Event, v: World, e: Event, w: World)
    requires IsLooseRun(ws, es) && LooseStep(ws[|ws| - 1], d, v) && LooseStep(v, e, w)
    ensures IsLooseRun(ws + [v, w], es + [d, e])
  {
    Continues(ws, es, d, v);
    Continues(ws + [v], es + [d], e, w);
    assert ws + [v] + [w] == ws + [v, w] && es + [d] + [e] == es + [d, e];
  }

  /** Up to the grant of the first client's COMMIT. */
  lemma Begins() returns (ws: seq<World>, es: seq<Event>)
    ensures IsLooseRun(ws, es) && ws[0] == Start()
    ensures ws[|ws| - 1] == Flushing(Plan(1, Blocks2()), Files(Two(X), []))
  {
    Connecting();
    Writing();
    Reading();
    Commits();
    ws, es := [Start()], [];
    Twice(ws, es, Connect(10, 0, 0), One(), Connect(11, 0, 0), Both());
    ws, es := ws + [One(), Both()], es + [Connect(10, 0, 0), Connect(11, 0, 0)];
    Twice(ws, es, Asked(10, Write(1, Y), 0), Wrote(), Asked(10, Read(2), 0), HasRead());
    ws, es := ws + [Wrote(), HasRead()], es + [Asked(10, Write(1, Y), 0), Asked(10, Read(2), 0)];
    var w := Flushing(Plan(1, Blocks2()), Files(Two(X), []));
    Continues(ws, es, Commit(10), w);
    ws, es := ws + [w], es + [Commit(10)];
  }

  /** LBEGIN and the undo image are logged and the block write is torn. */
  lemma Middle(todo0: seq<Client.Write>, rest: seq<Client.Write>)
    requires todo0 == [LogW(BeginRecord(1)), LogW(Image()), StoreW(1, Y)] + rest
    ensures var w1 := Flushing(todo0[1..], Files(Two(X), [BeginRecord(1)]));
            var w2 := Flushing(todo0[2..], Files(Two(X), [BeginRecord(1), Image()]));
            && LooseStep(Flushing(todo0, Files(Two(X), [])), SystemSpec.Flush(10), w1)
            && LooseStep(w1, SystemSpec.Flush(10), w2)
            && LooseStep(w2, Tear(10, JUNK), Flushing(todo0[2..], Torn()))
  {
    var f0, f1, f2 := Files(Two(X), []), Files(Two(X), [BeginRecord(1)]), Files(Two(X), [BeginRecord(1), Image()]);
    assert [] + [BeginRecord(1)] == [BeginRecord(1)];
    assert [BeginRecord(1)] + [Image()] == [BeginRecord(1), Image()];
    assert todo0[1..][1..] == todo0[2..];
    assert WriteFiles(f2, StoreW(1, JUNK)) == Torn();
    Flushes(todo0, f0);
    Flushes(todo0[1..], f1);
    Tears(todo0[2..], f2);
  }

  /** Up to the torn write. */
  lemma HalfDone() returns (ws: seq<World>, es: seq<Event>, todo: seq<Client.Write>)
    ensures IsLooseRun(ws, es) && ws[0] == Start() && todo != Plan(1, Blocks2())
    ensures ws[|ws| - 1] == Flushing(todo, Torn())
  {
    var rest := PlanStarts();
    var plan := Plan(1, Blocks2());
    Middle(plan, rest);
    todo := plan[2..];
    var w1 := Flushing(plan[1..], Files(Two(X), [BeginRecord(1)]));
    var w2 := Flushing(todo, Files(Two(X), [BeginRecord(1), Image()]));
    ws, es := Begins();
    Twice(ws, es, SystemSpec.Flush(10), w1, SystemSpec.Flush(10), w2);
    ws, es := ws + [w1, w2], es + [SystemSpec.Flush(10), SystemSpec.Flush(10)];
    Continues(ws, es, Tear(10, JUNK), Flushing(todo, Torn()));
    ws, es := ws + [Flushing(todo, Torn())], es + [Tear(10, JUNK)];
  }

  /** Without the hypothesis a half-flushed commit can be left standing with nobody to undo it: the final view is
      neither that of the committed transaction nor that of no transaction at all. */
  lemma CommittingReaderLost() returns (ws: seq<World>, es: seq<Event>)
    ensures IsLooseRun(ws, es)
    ensures var w := ws[|ws| - 1];
            && Unfinished(w) == map[] && w.order == [Entry(0, Obs2())]
            && ViewOf(w.files.disk) != ViewOf(ws[0].files.disk)
            && Serial(ViewOf(ws[0].files.disk), w.order) != Some(ViewOf(w.files.disk))
  {
    var todo;
    ws, es, todo := HalfDone();
    Sweeping(todo);
    Leaving(todo);
    Differs();
    Twice(ws, es, Asked(11, Write(2, Y), 0), Swept(todo), Leave(10), Lost());
    ws, es := ws + [Swept(todo), Lost()], es + [Asked(11, Write(2, Y), 0), Leave(10)];
  }
}
