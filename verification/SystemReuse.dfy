/** Why LBEGIN has to be logged before a committing client dies: a run in which only that fails, and rollback undoes an
    earlier transaction's records and destroys a durable commit. */
module SystemReuse {
  import opened Basics
  import opened Disk
  import opened LogSpec
  import opened Client
  import opened Recovery
  import opened SystemSpec
  import opened SystemHistory
  import opened SystemRun
  import C = CommitCrash
  import R = SystemRollback
  import M = MonitorSpec

  const X: Contents := [0]
  const Y: Contents := [1]
  const Z: Contents := [2]

  /** One allocated block. */
  function One(x: Contents): Disk { Disk(map[1 := 'A'], map[1 := x]) }

  function Made(mon: M.State, files: Files, txs: map<Tid, Tx>, order: seq<Entry>, nextId: nat): World {
    World(ViewOf(One(X)), mon, files, txs, order, nextId)
  }

  function Stat(block: int, stat: M.Status): M.TStat { M.TStat(0, block, 0, stat) }

  function Alone(s1: M.TStat, holders: map<int, M.Holders>): M.State { M.State(2, map[10 := 1], map[1 := s1], holders) }

  function Both(s1: M.TStat, s2: M.TStat, holders: map<int, M.Holders>): M.State {
    M.State(3, map[10 := 1, 11 := 2], map[1 := s1, 2 := s2], holders)
  }

  function Idler(id: nat): Tx { Tx(id, map[], [], 0, Working) }

  /** The transaction that overwrites block 1 with x. */
  function Writer(id: nat, x: Contents, phase: Phase): Tx {
    Tx(id, map[1 := WrittenOver(X, x)], [DidWrite(1, X, x)], 0, phase)
  }

  function Held(t: Tid): map<int, M.Holders> { map[1 := M.Holders([], t)] }

  function Image(t: Tid): Record { Record(t, LWRITE, 1, 'A', X) }

  function ThePlan(t: Tid, x: Contents): seq<Client.Write> {
    [LogW(BeginRecord(t)), LogW(Image(t)), StoreW(1, x), LogW(EndRecord(t))]
  }

  lemma PlanIs(t: Tid, x: Contents)
    ensures Plan(t, map[1 := WrittenOver(X, x)]) == ThePlan(t, x)
  {
    var bs: Blocks := map[1 := WrittenOver(X, x)];
    assert bs.Keys == {1} && Least({1}) == 1;
    assert BlockWrites(t, 1, bs[1]) == [LogW(Image(t)), StoreW(1, x)];
    assert PlanBlocks(t, bs, {1}) == BlockWrites(t, 1, bs[1]) + PlanBlocks(t, bs, {1} - {1});
    assert PlanBlocks(t, bs, {}) == [];
  }

  // ---------------------------------------------------------------- steps

  ghost predicate WholeStep(w: World, e: Event, w': World) {
    Possible(Machine(w, Idle), Whole(e)) && w' == Step(w, e)
  }

  /** A run that ends, idle, in w. */
  ghost predicate Reaches(ms: seq<Machine>, acts: seq<Act>, w: World) {
    IsRun(ms, acts) && ms[|ms| - 1] == Machine(w, Idle)
  }

  lemma Continues(ms: seq<Machine>, acts: seq<Act>, w: World, e: Event, w': World)
    requires Reaches(ms, acts, w) && WholeStep(w, e, w')
    ensures Reaches(ms + [Machine(w', Idle)], acts + [Whole(e)], w')
  {}

  lemma Extend(ms: seq<Machine>, acts: seq<Act>, w: World, e: Event, w': World) returns (ns: seq<Machine>, bs: seq<Act>)
    requires Reaches(ms, acts, w) && WholeStep(w, e, w')
    ensures Reaches(ns, bs, w') && ns[0] == ms[0]
  {
    Continues(ms, acts, w, e, w');
    ns, bs := ms + [Machine(w', Idle)], acts + [Whole(e)];
  }

  // ---------------------------------------------------------------- the first life of tid 1

  function Empty(): World { Made(M.INITIAL, Files(One(X), []), map[], [], 0) }

  function Joined(): World { Made(Alone(Stat(0, M.BEGUN), map[]), Files(One(X), []), map[1 := Idler(0)], [], 1) }

  function Wrote(): World {
    Made(Alone(Stat(1, M.WRITING), Held(1)), Files(One(X), []), map[1 := Writer(0, Y, Working)], [], 1)
  }

  function Committing1(todo: seq<Client.Write>, log: seq<Record>): World {
    Made(Alone(Stat(1, M.COMMITTING), Held(1)), Files(One(X), log), map[1 := Writer(0, Y, Committing(todo))],
         [Entry(0, [DidWrite(1, X, Y)])], 1)
  }

  /** After the crash: the log keeps the closed records of tid 1, the monitor starts counting at 1 again. */
  function OldLog(): seq<Record> { [BeginRecord(1), Image(1), AbortRecord(1)] }

  function Restarted(): World { Made(M.INITIAL, Files(One(X), OldLog()), map[], [], 1) }

  lemma Joins()
    ensures Initial(Empty()) && WholeStep(Empty(), Connect(10, 0, 0), Joined())
  {}

  lemma WriteAsked()
    ensures M.Process(Joined().mon, M.Request(1, 0, M.WRITE, 1), 10, 0) == M.Handled(Wrote().mon, M.OK)
  {}

  lemma Writes()
    ensures WholeStep(Joined(), Asked(10, Write(1, Y), 0), Wrote())
  {
    WriteAsked();
    assert [] + [DidWrite(1, X, Y)] == [DidWrite(1, X, Y)];
    assert GrantedTx(Idler(0), One(X), Write(1, Y)) == Writer(0, Y, Working);
  }

  lemma Commits()
    ensures WholeStep(Wrote(), Commit(10), Committing1(ThePlan(1, Y), []))
  {
    PlanIs(1, Y);
    assert M.Process(Wrote().mon, M.Request(1, 0, M.COMMIT, 0), 10, 0)
        == M.Handled(Alone(Stat(1, M.COMMITTING), Held(1)), M.OK);
    assert [] + [Entry(0, [DidWrite(1, X, Y)])] == [Entry(0, [DidWrite(1, X, Y)])];
  }

  lemma Logs(todo: seq<Client.Write>, log: seq<Record>)
    requires |todo| > 1 && todo[0].LogW?
    ensures WholeStep(Committing1(todo, log), SystemSpec.Flush(10), Committing1(todo[1..], log + [todo[0].rec]))
  {}

  lemma OpenFirst(u: Tid)
    ensures Open([BeginRecord(1), Image(1)], u) == if u == 1 then [BeginRecord(1), Image(1)] else []
  {
    var log := [BeginRecord(1), Image(1)];
    if u == 1 {
      C.NoEnd(log, 1);
      C.OpenOrEnd(log, 1);
    } else {
      C.EndNone(log, u);
    }
  }

  lemma UndoneFirst()
    ensures UndoAll(One(X), [BeginRecord(1), Image(1)]) == One(X)
  {
    var log := [BeginRecord(1), Image(1)];
    assert log[1..] == [Image(1)] && [Image(1)][1..] == [];
    assert UndoAll(One(X), log) == UndoAll(One(X), log[1..]) == UndoRecord(One(X), Image(1));
    assert One(X).store[1 := X] == One(X).store;
  }

  lemma Recovered()
    ensures Recover(Files(One(X), [BeginRecord(1), Image(1)])) == Files(One(X), OldLog())
  {
    var log := [BeginRecord(1), Image(1)];
    forall u: Tid
      ensures Open(log, u) == if u == 1 then log else []
    {
      OpenFirst(u);
    }
    C.RecoverOnly(Files(One(X), log), 1);
    UndoneFirst();
    assert log + [AbortRecord(1)] == OldLog();
  }

  lemma Crashes(todo: seq<Client.Write>)
    ensures WholeStep(Committing1(todo, [BeginRecord(1), Image(1)]), Crash, Restarted())
  {
    Recovered();
    var w := Committing1(todo, [BeginRecord(1), Image(1)]);
    assert Unfinished(w) == map[1 := w.txs[1]];
    assert Unfinished(w)[1].id in Ids(Unfinished(w));
    assert w.order[..0] == [];
    assert Strike(w.order, Ids(Unfinished(w))) == [];
  }

  lemma FirstLife() returns (ms: seq<Machine>, acts: seq<Act>)
    ensures Reaches(ms, acts, Restarted()) && ms[0].world == Empty()
  {
    var p := ThePlan(1, Y);
    assert p[1..][1..] == p[2..] && [] + [BeginRecord(1)] == [BeginRecord(1)];
    assert [BeginRecord(1)] + [Image(1)] == [BeginRecord(1), Image(1)];
    Joins();
    Writes();
    Commits();
    Logs(p, []);
    Logs(p[1..], [BeginRecord(1)]);
    Crashes(p[2..]);
    ms, acts := [Machine(Empty(), Idle)], [];
    ms, acts := Extend(ms, acts, Empty(), Connect(10, 0, 0), Joined());
    ms, acts := Extend(ms, acts, Joined(), Asked(10, Write(1, Y), 0), Wrote());
    ms, acts := Extend(ms, acts, Wrote(), Commit(10), Committing1(p, []));
    ms, acts := Extend(ms, acts, Committing1(p, []), SystemSpec.Flush(10), Committing1(p[1..], [BeginRecord(1)]));
    ms, acts := Extend(ms, acts, Committing1(p[1..], [BeginRecord(1)]), SystemSpec.Flush(10),
                       Committing1(p[2..], [BeginRecord(1), Image(1)]));
    ms, acts := Extend(ms, acts, Committing1(p[2..], [BeginRecord(1), Image(1)]), Crash, Restarted());
  }

  // ---------------------------------------------------------------- the second life: tid 2 commits, tid 1 dies

  function Again(): World {
    Made(Alone(Stat(0, M.BEGUN), map[]), Files(One(X), OldLog()), map[1 := Idler(1)], [], 2)
  }

  function Pair(s2: M.TStat, holders: map<int, M.Holders>, files: Files, t2: Tx, order: seq<Entry>): World {
    Made(Both(Stat(0, M.BEGUN), s2, holders), files, map[1 := Idler(1), 2 := t2], order, 3)
  }

  function Met(): World { Pair(Stat(0, M.BEGUN), map[], Files(One(X), OldLog()), Idler(2), []) }

  function Wrote2(): World {
    Pair(Stat(1, M.WRITING), Held(2), Files(One(X), OldLog()), Writer(2, Z, Working), [])
  }

  function Kept(): Entry { Entry(2, [DidWrite(1, X, Z)]) }

  function Committing2(phase: Phase, files: Files): World {
    Pair(Stat(1, M.COMMITTING), Held(2), files, Writer(2, Z, phase), [Kept()])
  }

  function NewLog(): seq<Record> { OldLog() + [BeginRecord(2), Image(2), EndRecord(2)] }

  /** Tid 2's commit is durable; the new tid 1 is granted COMMIT and has logged nothing. */
  function Doomed(): World {
    Made(Both(Stat(0, M.COMMITTING), Stat(1, M.COMMITTING), Held(2)), Files(One(Z), NewLog()),
         map[1 := Tx(1, map[], [], 0, Committing(Plan(1, map[]))), 2 := Writer(2, Z, Finished)],
         [Kept(), Entry(1, [])], 3)
  }

  lemma Meets()
    ensures WholeStep(Restarted(), Connect(10, 0, 0), Again())
    ensures WholeStep(Again(), Connect(11, 0, 0), Met())
  {}

  lemma WriteAsked2()
    ensures M.Process(Met().mon, M.Request(2, 0, M.WRITE, 1), 11, 0) == M.Handled(Wrote2().mon, M.OK)
  {}

  lemma Writes2()
    ensures WholeStep(Met(), Asked(11, Write(1, Z), 0), Wrote2())
  {
    WriteAsked2();
    assert [] + [DidWrite(1, X, Z)] == [DidWrite(1, X, Z)];
    assert GrantedTx(Idler(2), One(X), Write(1, Z)) == Writer(2, Z, Working);
  }

  lemma Commits2()
    ensures WholeStep(Wrote2(), Commit(11), Committing2(Committing(ThePlan(2, Z)), Files(One(X), OldLog())))
  {
    PlanIs(2, Z);
    var w := Committing2(Committing(ThePlan(2, Z)), Files(One(X), OldLog()));
    assert M.Process(Wrote2().mon, M.Request(2, 0, M.COMMIT, 0), 11, 0) == M.Handled(w.mon, M.OK);
    assert Wrote2().txs[2 := w.txs[2]] == w.txs;
    assert [] + [Kept()] == [Kept()];
  }

  lemma Flushes2(todo: seq<Client.Write>, f: Files)
    requires todo != []
    ensures WholeStep(Committing2(Committing(todo), f), SystemSpec.Flush(11),
                      Committing2(if |todo| == 1 then Finished else Committing(todo[1..]), WriteFiles(f, todo[0])))
  {
    var w, next := Committing2(Committing(todo), f), if |todo| == 1 then Finished else Committing(todo[1..]);
    assert w.txs[2 := Writer(2, Z, next)] == Committing2(next, f).txs;
  }

  lemma Dooms()
    ensures WholeStep(Committing2(Finished, Files(One(Z), NewLog())), Commit(10), Doomed())
  {
    var w := Committing2(Finished, Files(One(Z), NewLog()));
    assert M.Process(w.mon, M.Request(1, 0, M.COMMIT, 0), 10, 0) == M.Handled(Doomed().mon, M.OK);
    assert w.txs[1 := Doomed().txs[1]] == Doomed().txs;
    assert [Kept()] + [Entry(1, [])] == [Kept(), Entry(1, [])];
  }

  /** Tid 2's four writes. */
  lemma Flushed() returns (f1: Files, f2: Files, f3: Files)
    ensures f1 == WriteFiles(Files(One(X), OldLog()), LogW(BeginRecord(2))) && f2 == WriteFiles(f1, LogW(Image(2)))
    ensures f3 == WriteFiles(f2, StoreW(1, Z)) && WriteFiles(f3, LogW(EndRecord(2))) == Files(One(Z), NewLog())
  {
    f1 := WriteFiles(Files(One(X), OldLog()), LogW(BeginRecord(2)));
    f2 := WriteFiles(f1, LogW(Image(2)));
    f3 := WriteFiles(f2, StoreW(1, Z));
    assert One(X).store[1 := Z] == One(Z).store;
    assert OldLog() + [BeginRecord(2)] + [Image(2)] + [EndRecord(2)] == NewLog();
  }

  lemma SecondLife() returns (ms: seq<Machine>, acts: seq<Act>)
    ensures Reaches(ms, acts, Doomed()) && ms[0].world == Empty()
  {
    var p := ThePlan(2, Z);
    var f0 := Files(One(X), OldLog());
    var f1, f2, f3 := Flushed();
    assert p[1..][1..] == p[2..] && p[2..][1..] == p[3..];
    Meets();
    Writes2();
    Commits2();
    Flushes2(p, f0);
    Flushes2(p[1..], f1);
    Flushes2(p[2..], f2);
    Flushes2(p[3..], f3);
    Dooms();
    ms, acts := FirstLife();
    ms, acts := Extend(ms, acts, Restarted(), Connect(10, 0, 0), Again());
    ms, acts := Extend(ms, acts, Again(), Connect(11, 0, 0), Met());
    ms, acts := Extend(ms, acts, Met(), Asked(11, Write(1, Z), 0), Wrote2());
    ms, acts := Extend(ms, acts, Wrote2(), Commit(11), Committing2(Committing(p), f0));
    ms, acts := Extend(ms, acts, Committing2(Committing(p), f0), SystemSpec.Flush(11), Committing2(Committing(p[1..]), f1));
    ms, acts := Extend(ms, acts, Committing2(Committing(p[1..]), f1), SystemSpec.Flush(11),
                       Committing2(Committing(p[2..]), f2));
    ms, acts := Extend(ms, acts, Committing2(Committing(p[2..]), f2), SystemSpec.Flush(11),
                       Committing2(Committing(p[3..]), f3));
    ms, acts := Extend(ms, acts, Committing2(Committing(p[3..]), f3), SystemSpec.Flush(11),
                       Committing2(Finished, Files(One(Z), NewLog())));
    ms, acts := Extend(ms, acts, Committing2(Finished, Files(One(Z), NewLog())), Commit(10), Doomed());
  }

  // ---------------------------------------------------------------- the disconnect

  lemma Scanned()
    ensures BackScan(NewLog(), 1, []) == Found([AbortRecord(1), Image(1), BeginRecord(1)])
  {
    var l := NewLog();
    assert l[..5][..4] == l[..4] && l[..4][..3] == l[..3] && l[..3][..2] == l[..2] && l[..2][..1] == l[..1];
    assert BackScan(l, 1, []) == BackScan(l[..5], 1, []) == BackScan(l[..4], 1, []) == BackScan(l[..3], 1, []);
    assert l[..3][2] == AbortRecord(1) && l[..2][1] == Image(1) && l[..1][0] == BeginRecord(1);
    assert [] + [AbortRecord(1)] == [AbortRecord(1)] && [AbortRecord(1)] + [Image(1)] == [AbortRecord(1), Image(1)];
    assert [AbortRecord(1), Image(1)] + [BeginRecord(1)] == [AbortRecord(1), Image(1), BeginRecord(1)];
    assert BackScan(l[..3], 1, []) == BackScan(l[..2], 1, [] + [AbortRecord(1)]);
    assert BackScan(l[..2], 1, [AbortRecord(1)]) == BackScan(l[..1], 1, [AbortRecord(1)] + [Image(1)]);
    assert BackScan(l[..1], 1, [AbortRecord(1), Image(1)]) == Found([AbortRecord(1), Image(1)] + [BeginRecord(1)]);
  }

  lemma Undone()
    ensures UndoAll(One(Z), [AbortRecord(1), Image(1), BeginRecord(1)]) == One(X)
  {
    var rs := [AbortRecord(1), Image(1), BeginRecord(1)];
    assert rs[1..][1..] == [BeginRecord(1)] && [BeginRecord(1)][1..] == [];
    assert UndoAll(One(Z), rs) == UndoAll(One(Z), rs[1..]) == UndoAll(UndoRecord(One(Z), Image(1)), rs[1..][1..]);
    assert One(Z).store[1 := X] == One(X).store;
  }

  lemma RollsBack()
    ensures Rollback(Doomed().files, 1) == RolledBack(Files(One(X), NewLog() + [AbortRecord(1)]))
  {
    Scanned();
    Undone();
  }

  lemma Struck()
    ensures Strike([Kept(), Entry(1, [])], {1}) == [Kept()]
  {
    var o := [Kept(), Entry(1, [])];
    assert o[..1] == [Kept()] && [Kept()][..0] == [];
    assert Strike([Kept()], {1}) == [Kept()];
  }

  lemma Drops(f: Files)
    ensures Dropped(Doomed().(files := f), 10).files == f && Dropped(Doomed().(files := f), 10).order == [Kept()]
    ensures Unfinished(Dropped(Doomed().(files := f), 10)) == map[]
  {
    Struck();
    assert Doomed().txs - {1} == map[2 := Writer(2, Z, Finished)];
  }

  lemma Destroys()
    ensures StepLeave(Doomed(), 10).files.disk == One(X) && StepLeave(Doomed(), 10).order == [Kept()]
    ensures Unfinished(StepLeave(Doomed(), 10)) == map[]
  {
    var f := Files(One(X), NewLog() + [AbortRecord(1)]);
    RollsBack();
    R.LeaveRolledBack(Doomed(), 10, f);
    Drops(f);
  }

  lemma Differs()
    ensures Serial(ViewOf(One(X)), [Kept()]) == Some(ViewOf(One(Z))) && ViewOf(One(Z)) != ViewOf(One(X))
  {
    var v := ViewOf(One(X));
    assert v[1] == X && ViewOf(One(Z))[1] == Z;
    assert Kept().obs[..0] == [] && [Kept()][..0] == [];
    assert Replay(v, Kept().obs) == Some(v[1 := Z]);
    assert Serial(v, []) == Some(v);
    assert v[1 := Z] == ViewOf(One(Z));
  }

  lemma Closed()
    ensures Open(NewLog(), 1) == []
  {
    var l := NewLog();
    assert l[..5][..4] == l[..4] && l[..4][..3] == l[..3];
    assert Open(l, 1) == Open(l[..5], 1) == Open(l[..4], 1) == Open(l[..3], 1);
    assert l[..3][2] == AbortRecord(1);
  }

  /** A run that respects every hypothesis, then one disconnect of a client that has not logged its LBEGIN: rollback
      finds the records of the tid's first life, closed long ago, and undoes them over a commit that is durable.  The
      history still holds that commit; the disk does not. */
  lemma ReusedTidDestroys() returns (ms: seq<Machine>, acts: seq<Act>)
    ensures IsRun(ms, acts) && ms[|ms| - 1] == Machine(Doomed(), Idle)
    ensures Connected(Doomed(), 10) && !BeginLogged(Doomed(), 10) && Open(Doomed().files.log, 1) == []
    ensures var w := StepLeave(Doomed(), 10);
            && Unfinished(w) == map[] && History(w) == [Kept()]
            && Serial(ViewOf(ms[0].world.files.disk), History(w)) != Some(ViewOf(w.files.disk))
  {
    ms, acts := SecondLife();
    Destroys();
    Differs();
    assert Ids(map[]) == {};
    assert [Kept()][..0] == [];
    Closed();
  }
}
