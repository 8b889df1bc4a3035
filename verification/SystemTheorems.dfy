/** Whole runs: serializability in COMMIT order, atomic recovery after a crash at any point, and durability. */
module SystemTheorems {
  import opened Basics
  import opened Disk
  import opened Client
  import opened Recovery
  import opened SystemSpec
  import opened SystemInv
  import opened SystemHistory
  import opened SystemRun
  import opened SystemRollback
  import opened SystemTranscript
  import A = SystemAsk
  import C = SystemCommit
  import E = SystemEnd
  import M = MonitorSpec
  import P = MonitorProps

  // ---------------------------------------------------------------- the invariant along a run

  lemma InitialInv(w: World)
    requires Initial(w)
    ensures Inv(w, w.origin)
  {
    assert Unfinished(w) == map[];
    E.NoneUnfinished(w.origin, w.order, w.origin);
  }

  lemma StepKeeps(w: World, v: View, e: Event) returns (next: View)
    requires Inv(w, v) && Enabled(w, e)
    ensures Inv(Step(w, e), next)
  {
    next := v;
    match e
    case Connect(fd, pid, now) => C.ConnectStep(w, v, fd, pid, now);
    case Buffered(fd, c) => A.BufferedStep(w, v, fd, c);
    case Asked(fd, c, now) => A.AskedStep(w, v, fd, c, now);
    case Told(fd, kind) => A.ToldStep(w, v, fd, kind);
    case Commit(fd) => next := C.CommitStep(w, v, fd);
    case Flush(fd) => F.FlushedStep(w, v, fd);
    case Tear(fd, junk) => F.TornStep(w, v, fd, junk);
    case Leave(fd) => next := E.LeaveStep(w, v, fd);
    case Crash => next := E.CrashStep(w, v);
  }

  lemma StepOrigin(w: World, e: Event)
    ensures Step(w, e).origin == w.origin
  {}

  /** The world beside the machine, its next torn write, and the view of all granted COMMITs. */
  datatype Witness = Witness(world: World, torn: Option<Contents>, view: View)

  ghost predicate Good(m: Machine, x: Witness) {
    Inv(x.world, x.view) && Beside(x.world, m, x.torn)
  }

  lemma ActKeeps(m: Machine, x: Witness, a: Act) returns (y: Witness)
    requires Good(m, x) && Possible(m, a)
    ensures Good(Move(m, a), y) && y.world.origin == x.world.origin
  {
    var e, torn := Follows(x.world, m, x.torn, a);
    if e.None? {
      y := Witness(x.world, torn, x.view);
    } else {
      var next := StepKeeps(x.world, x.view, e.value);
      StepOrigin(x.world, e.value);
      y := Witness(Step(x.world, e.value), torn, next);
    }
  }

  lemma {:induction false} RunKeeps(ms: seq<Machine>, acts: seq<Act>, i: nat) returns (x: Witness)
    requires IsRun(ms, acts) && i < |ms|
    ensures Good(ms[i], x) && x.world.origin == ViewOf(ms[0].world.files.disk)
  {
    if i == 0 {
      InitialInv(ms[0].world);
      x := Witness(ms[0].world, None, ms[0].world.origin);
    } else {
      x := RunKeeps(ms, acts, i - 1);
      x := ActKeeps(ms[i - 1], x, acts[i - 1]);
    }
  }

  // ---------------------------------------------------------------- serializability and recovery

  lemma SameHistory(s: World, m: Machine, torn: Option<Contents>)
    requires Beside(s, m, torn)
    ensures History(m.world) == History(s) && Unfinished(m.world) == Unfinished(s)
  {}

  lemma SerialWorld(w: World, v: View)
    requires Inv(w, v)
    ensures Serial(w.origin, History(w)) == Some(ViewOf(Recover(w.files).disk))
  {
    var next := E.CrashStep(w, v);
    assert Serial(w.origin, StepCrash(w).order) == Some(next);
  }

  lemma DisjointWorld(w: World, v: View)
    requires Inv(w, v)
    ensures DisjointOpen(w.files.log)
  {
    E.OpenDisjoint(w.mon, w.txs, w.files.log);
  }

  lemma RecoveredBeside(m: Machine, s: World, torn: Option<Contents>)
    requires Beside(s, m, torn) && DisjointOpen(s.files.log)
    ensures Recover(m.world.files) == Recover(s.files) && m.world.files.log == s.files.log
    ensures History(m.world) == History(s)
  {
    SameRecovery(s, m, torn);
    SameHistory(s, m, torn);
  }

  lemma SerialBeside(m: Machine, x: Witness)
    requires Good(m, x)
    ensures Serial(x.world.origin, History(m.world)) == Some(ViewOf(Recover(m.world.files).disk))
    ensures DisjointOpen(m.world.files.log)
  {
    SerialWorld(x.world, x.view);
    DisjointWorld(x.world, x.view);
    RecoveredBeside(m, x.world, x.torn);
  }

  // ---------------------------------------------------------------- what the history says is what the programs saw

  /** Every transaction and every entry of the commit order has recorded the program's calls and their answers. */
  ghost predicate Told(ms: seq<Machine>, acts: seq<Act>, i: nat)
    requires i < |ms| && |ms| == |acts| + 1
  {
    var w := ms[i].world;
    && (forall t :: t in w.txs ==> Tracks(w.txs[t], Transcript(ms, acts, i, w.txs[t].id)))
    && (forall e :: e in w.order ==> e.obs == Seen(Transcript(ms, acts, i, e.id)))
    && (forall id: nat :: id >= w.nextId ==> Transcript(ms, acts, i, id) == [])
  }

  /** The parts of the invariant that hold of the machine's own world as well. */
  lemma GoodParts(m: Machine, x: Witness)
    requires Good(m, x)
    ensures P.Inv(m.world.mon) && Phased(m.world.mon, m.world.txs)
    ensures Identified(m.world.txs, m.world.order, m.world.nextId)
    ensures m.rolling.Idle? ==> Inv(m.world, x.view)
  {}

  /** Calls that ask the monitor are possible only while it is idle. */
  lemma AskedIdle(m: Machine, a: Act)
    requires Possible(m, a) && a.Whole? && a.event.Asked?
    ensures m.rolling.Idle?
  {}

  lemma TxTracks(m: Machine, x: Witness, a: Act, t: Tid, xs: seq<Exchange>)
    requires Good(m, x) && Possible(m, a)
    requires t in m.world.txs && t in Move(m, a).world.txs && Tracks(m.world.txs[t], xs)
    ensures Move(m, a).world.txs[t].id == m.world.txs[t].id
    ensures Tracks(Move(m, a).world.txs[t], xs + ExchangedBy(m, a, m.world.txs[t].id))
  {
    GoodParts(m, x);
    if a.Whole? && a.event.Asked? {
      AskedIdle(m, a);
    }
    ActTracks(m, a, x.view, t, xs);
  }

  lemma TxOpens(m: Machine, x: Witness, a: Act, t: Tid)
    requires Good(m, x) && Possible(m, a) && t !in m.world.txs && t in Move(m, a).world.txs
    ensures Move(m, a).world.txs[t].id == m.world.nextId && Tracks(Move(m, a).world.txs[t], [])
    ensures ExchangedBy(m, a, m.world.nextId) == []
  {
    GoodParts(m, x);
    ActOpens(m, a, t);
    ActSilent(m, a, m.world.nextId);
  }

  lemma TxsTold(ms: seq<Machine>, acts: seq<Act>, i: nat, x: Witness, t: Tid)
    requires IsRun(ms, acts) && i < |acts| && Told(ms, acts, i) && Good(ms[i], x)
    requires t in ms[i + 1].world.txs
    ensures Tracks(ms[i + 1].world.txs[t], Transcript(ms, acts, i + 1, ms[i + 1].world.txs[t].id))
  {
    var m, a := ms[i], acts[i];
    if t in m.world.txs {
      TxTracks(m, x, a, t, Transcript(ms, acts, i, m.world.txs[t].id));
    } else {
      TxOpens(m, x, a, t);
      assert Transcript(ms, acts, i + 1, m.world.nextId) == [];
    }
  }

  lemma OrderTold(ms: seq<Machine>, acts: seq<Act>, i: nat, x: Witness, e: Entry)
    requires IsRun(ms, acts) && i < |acts| && Told(ms, acts, i) && Good(ms[i], x)
    requires e in ms[i + 1].world.order
    ensures e.obs == Seen(Transcript(ms, acts, i + 1, e.id))
  {
    var m, a := ms[i], acts[i];
    GoodParts(m, x);
    ActOrders(m, a, e);
    if e in m.world.order {
      assert InOrder(m.world.order, e.id);
      ActSilent(m, a, e.id);
    } else {
      OtherSilent(m, a, e.id);
    }
    assert Transcript(ms, acts, i, e.id) + [] == Transcript(ms, acts, i, e.id);
  }

  lemma SilentTold(ms: seq<Machine>, acts: seq<Act>, i: nat, x: Witness, id: nat)
    requires IsRun(ms, acts) && i < |acts| && Told(ms, acts, i) && Good(ms[i], x)
    requires id >= ms[i + 1].world.nextId
    ensures Transcript(ms, acts, i + 1, id) == []
  {
    GoodParts(ms[i], x);
    ActIds(ms[i], acts[i]);
    ActSilent(ms[i], acts[i], id);
  }

  lemma ToldNext(ms: seq<Machine>, acts: seq<Act>, i: nat, x: Witness)
    requires IsRun(ms, acts) && i < |acts| && Told(ms, acts, i) && Good(ms[i], x)
    ensures Told(ms, acts, i + 1)
  {
    var n := i + 1;
    forall t | t in ms[n].world.txs
      ensures Tracks(ms[n].world.txs[t], Transcript(ms, acts, n, ms[n].world.txs[t].id))
    {
      TxsTold(ms, acts, i, x, t);
    }
    forall e | e in ms[n].world.order
      ensures e.obs == Seen(Transcript(ms, acts, n, e.id))
    {
      OrderTold(ms, acts, i, x, e);
    }
    forall id: nat | id >= ms[n].world.nextId
      ensures Transcript(ms, acts, n, id) == []
    {
      SilentTold(ms, acts, i, x, id);
    }
  }

  lemma {:induction false} RunTold(ms: seq<Machine>, acts: seq<Act>, i: nat)
    requires IsRun(ms, acts) && i < |ms|
    ensures Told(ms, acts, i)
  {
    if i > 0 {
      RunTold(ms, acts, i - 1);
      var x := RunKeeps(ms, acts, i - 1);
      ToldNext(ms, acts, i - 1, x);
    }
  }

  /** What a transaction has recorded, before, during and after its commit, is the full list of its program's calls and
      the answers it was given. */
  lemma RecordsAreTranscripts(ms: seq<Machine>, acts: seq<Act>, i: nat)
    requires IsRun(ms, acts) && i < |ms|
    ensures forall t :: t in ms[i].world.txs ==>
              ms[i].world.txs[t].obs == Seen(Transcript(ms, acts, i, ms[i].world.txs[t].id))
    ensures forall e :: e in ms[i].world.order ==> e.obs == Seen(Transcript(ms, acts, i, e.id))
  {
    RunTold(ms, acts, i);
  }

  /** Atomic recovery and serializability together.  At every point of every run, whatever is being flushed, torn,
      rolled back or recovered: recovery run now leaves exactly the view that the finished transactions produce when
      run one at a time in COMMIT order, each seeing exactly what it saw: every call of its program, with its answer. */
  lemma RecoveryIsSerial(ms: seq<Machine>, acts: seq<Act>, i: nat)
    requires IsRun(ms, acts) && i < |ms|
    ensures Serial(ViewOf(ms[0].world.files.disk), History(ms[i].world)) ==
            Some(ViewOf(Recover(ms[i].world.files).disk))
    ensures forall e :: e in History(ms[i].world) ==> e.obs == Seen(Transcript(ms, acts, i, e.id))
  {
    var x := RunKeeps(ms, acts, i);
    SerialBeside(ms[i], x);
    RecordsAreTranscripts(ms, acts, i);
    forall e | e in History(ms[i].world)
      ensures e in ms[i].world.order
    {
      FinishedMember(ms[i].world, e);
    }
  }

  lemma RollingUnfinished(m: Machine, s: World, torn: Option<Contents>)
    requires Beside(s, m, torn) && m.rolling.Undoing?
    ensures Unfinished(m.world) != map[]
  {
    assert s.mon.transactions[m.rolling.fd] in Unfinished(m.world);
  }

  lemma QuietView(w: World, v: View)
    requires OnDisk(w.files.disk, Unfinished(w), v) && SerialOk(w.origin, w.order, Unfinished(w), v)
    requires Unfinished(w) == map[]
    ensures Serial(w.origin, w.order) == Some(ViewOf(w.files.disk))
  {
    forall b
      ensures Get(ViewOf(w.files.disk), b) == Get(v, b)
    {
      assert Clean(Unfinished(w), b);
    }
    ViewExtensional(ViewOf(w.files.disk), v);
  }

  /** With nothing in the middle of a commit the files themselves are the serial result. */
  lemma QuiescentIsSerial(ms: seq<Machine>, acts: seq<Act>, i: nat)
    requires IsRun(ms, acts) && i < |ms| && Unfinished(ms[i].world) == map[]
    ensures Serial(ViewOf(ms[0].world.files.disk), ms[i].world.order) == Some(ViewOf(ms[i].world.files.disk))
  {
    var x := RunKeeps(ms, acts, i);
    if ms[i].rolling.Undoing? {
      RollingUnfinished(ms[i], x.world, x.torn);
    } else {
      QuietView(x.world, x.view);
    }
  }

  /** In every run the open records of different transactions touch different blocks, and each block once. */
  lemma OpenAreDisjoint(ms: seq<Machine>, acts: seq<Act>, i: nat)
    requires IsRun(ms, acts) && i < |ms|
    ensures DisjointOpen(ms[i].world.files.log)
  {
    var x := RunKeeps(ms, acts, i);
    SerialBeside(ms[i], x);
  }

  /** Recovery may itself be cut off anywhere, even inside a block write, and rerun, any number of times. */
  lemma InterruptedRecoveryIsSerial(ms: seq<Machine>, acts: seq<Act>, i: nat, cuts: seq<Interruption>)
    requires IsRun(ms, acts) && i < |ms|
    ensures Serial(ViewOf(ms[0].world.files.disk), History(ms[i].world)) ==
            Some(ViewOf(Recover(Attempts(ms[i].world.files, cuts)).disk))
  {
    OpenAreDisjoint(ms, acts, i);
    AttemptsConverge(ms[i].world.files, cuts);
    RecoveryIsSerial(ms, acts, i);
  }

  // ---------------------------------------------------------------- locks

  lemma SoleHolder(s: M.State, txs: Txs, t: Tid, b: int)
    requires P.Inv(s) && Phased(s, txs) && Locked(s, txs) && t in txs && txs[t].phase.Committing? && Dirties(txs[t], b)
    ensures P.Committing(s, t) && P.WriteHolds(s, t, b) && forall u :: u != t ==> !P.Holds(s, u, b)
  {
    assert PhaseOk(s, t, txs[t]) && LocksOk(s, t, txs[t]);
    assert P.WriteHolds(s, t, b);
    assert P.HoldersOk(s.status, s.blockmap[b]);
  }

  /** A committing transaction is the only holder of every block it is changing, and is never preempted. */
  lemma CommittingIsAlone(ms: seq<Machine>, acts: seq<Act>, i: nat, t: Tid, b: int)
    requires IsRun(ms, acts) && i < |ms| && t in Unfinished(ms[i].world) && Dirties(ms[i].world.txs[t], b)
    ensures P.Committing(ms[i].world.mon, t) && P.WriteHolds(ms[i].world.mon, t, b)
    ensures forall u :: u != t ==> !P.Holds(ms[i].world.mon, u, b)
  {
    var x := RunKeeps(ms, acts, i);
    SoleHolder(x.world.mon, x.world.txs, t, b);
  }

  /** A transaction that is not preempted and has not finished still holds every lock it was granted. */
  lemma LocksAreKept(ms: seq<Machine>, acts: seq<Act>, i: nat, t: Tid, b: int)
    requires IsRun(ms, acts) && i < |ms| && t in ms[i].world.txs && b in ms[i].world.txs[t].blocks
    requires P.Live(ms[i].world.mon, t) && ms[i].world.txs[t].phase != Finished
    ensures P.Holds(ms[i].world.mon, t, b)
    ensures ms[i].world.txs[t].blocks[b].lock != R_LOCK ==> P.WriteHolds(ms[i].world.mon, t, b)
  {
    var x := RunKeeps(ms, acts, i);
    assert LocksOk(x.world.mon, t, x.world.txs[t]);
  }

  // ---------------------------------------------------------------- the history of a run

  lemma AdvancesBeside(s: World, s': World, m: Machine, m': Machine, torn: Option<Contents>, torn': Option<Contents>)
    requires Beside(s, m, torn) && Beside(s', m', torn') && Advances(s, s')
    ensures Advances(m.world, m'.world)
  {
    SameHistory(s, m, torn);
    SameHistory(s', m', torn');
  }

  lemma ActAdvances(m: Machine, x: Witness, a: Act)
    requires Good(m, x) && Possible(m, a)
    ensures Advances(m.world, Move(m, a).world)
  {
    var e, torn := Follows(x.world, m, x.torn, a);
    if e.None? {
      AdvancesBeside(x.world, x.world, m, Move(m, a), x.torn, torn);
    } else {
      StepAdvances(x.world, x.view, e.value);
      AdvancesBeside(x.world, Step(x.world, e.value), m, Move(m, a), x.torn, torn);
    }
  }

  ghost predicate AdvancesAt(ms: seq<Machine>, i: nat)
    requires i + 1 < |ms|
  {
    Advances(ms[i].world, ms[i + 1].world)
  }

  /** All that the theorems below need to know of a run. */
  ghost predicate Advancing(ms: seq<Machine>) {
    && ms != [] && ms[0].world.order == [] && ms[0].world.txs == map[]
    && forall i :: 0 <= i < |ms| - 1 ==> AdvancesAt(ms, i)
  }

  lemma ActAdvancesAt(ms: seq<Machine>, acts: seq<Act>, i: nat)
    requires IsRun(ms, acts) && i + 1 < |ms|
    ensures AdvancesAt(ms, i)
  {
    var x := RunKeeps(ms, acts, i);
    ActAdvances(ms[i], x, acts[i]);
  }

  lemma RunAdvances(ms: seq<Machine>, acts: seq<Act>)
    requires IsRun(ms, acts)
    ensures Advancing(ms)
  {
    forall i | 0 <= i < |ms| - 1
      ensures AdvancesAt(ms, i)
    {
      ActAdvancesAt(ms, acts, i);
    }
  }

  lemma {:induction false} RecordedAt(ms: seq<Machine>, i: nat)
    requires Advancing(ms) && i < |ms|
    ensures Recorded(ms[i].world) && Distinct(ms[i].world.order)
  {
    if i > 0 {
      RecordedAt(ms, i - 1);
      assert AdvancesAt(ms, i - 1);
    }
  }

  lemma {:induction false} StaysOn(ms: seq<Machine>, i: nat, j: nat, e: Entry)
    requires Advancing(ms) && i <= j < |ms| && e in History(ms[i].world)
    ensures e in History(ms[j].world)
    decreases j
  {
    if i < j {
      StaysOn(ms, i, j - 1, e);
      assert AdvancesAt(ms, j - 1);
    }
  }

  /** Some transaction with this id had logged LEND at some point up to j. */
  ghost predicate LoggedEnd(ms: seq<Machine>, j: nat, id: nat)
    requires j < |ms|
  {
    exists i :: 0 <= i <= j && HasFinished(ms[i].world, id)
  }

  lemma {:induction false} EndedBefore(ms: seq<Machine>, j: nat, e: Entry)
    requires Advancing(ms) && j < |ms| && e in History(ms[j].world)
    ensures LoggedEnd(ms, j, e.id)
  {
    if j > 0 {
      assert AdvancesAt(ms, j - 1);
      if e in History(ms[j - 1].world) {
        EndedBefore(ms, j - 1, e);
      }
    }
  }

  /** In the serial history no transaction occurs twice. */
  lemma RunDistinct(ms: seq<Machine>, acts: seq<Act>, i: nat)
    requires IsRun(ms, acts) && i < |ms|
    ensures Distinct(ms[i].world.order)
  {
    RunAdvances(ms, acts);
    RecordedAt(ms, i);
  }

  lemma FinishedAt(m: Machine, x: Witness, t: Tid)
    requires Good(m, x) && Recorded(m.world) && t in m.world.txs && m.world.txs[t].phase == Finished
    ensures Entry(m.world.txs[t].id, m.world.txs[t].obs) in History(m.world)
  {
    FinishedInHistory(m.world, t);
  }

  /** LEND is the commit point: from the moment it is logged, a transaction is in the serial history of the rest of
      the run, through disconnects without END, other clients' rollbacks, crashes and recoveries. */
  lemma Durable(ms: seq<Machine>, acts: seq<Act>, i: nat, j: nat, t: Tid)
    requires IsRun(ms, acts) && i <= j < |ms|
    requires t in ms[i].world.txs && ms[i].world.txs[t].phase == Finished
    ensures Entry(ms[i].world.txs[t].id, ms[i].world.txs[t].obs) in History(ms[j].world)
  {
    RunAdvances(ms, acts);
    RecordedAt(ms, i);
    var x := RunKeeps(ms, acts, i);
    FinishedAt(ms[i], x, t);
    StaysOn(ms, i, j, Entry(ms[i].world.txs[t].id, ms[i].world.txs[t].obs));
  }

  /** The serial history is made of transactions that logged LEND, and of nothing else. */
  lemma OnlyFinished(ms: seq<Machine>, acts: seq<Act>, j: nat, e: Entry)
    requires IsRun(ms, acts) && j < |ms| && e in History(ms[j].world)
    ensures LoggedEnd(ms, j, e.id)
  {
    RunAdvances(ms, acts);
    EndedBefore(ms, j, e);
  }
}
