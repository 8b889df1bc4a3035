/** The client library as the source runs it: one transaction object that asks the monitor, buffers its updates in a
    block map and flushes them in commit(). */
module TransactionLibrary {
  import opened Basics
  import opened Disk
  import opened LogSpec
  import opened Client
  import C = CommitCrash
  import M = MonitorSpec
  import P = MonitorProps
  import L = UndoLog
  import K = LockMonitor
  import B = Backoff

  datatype Exception = TE_ABORT | TE_RESTART | TE_FAIL

  datatype Result<T> = Got(value: T) | Raised(ex: Exception)

  /** Is the transaction marked as failed once a call has returned r?  Every exception that reaches the program through
      abort() or restart() marks it. */
  predicate Failed<T>(before: bool, r: Result<T>) {
    before || (r.Raised? && r.ex != TE_FAIL)
  }

  /** What has been written, followed by what remains. */
  function ToDo(tid: Tid, bs: Blocks, done: seq<Write>, rest: set<int>): seq<Write>
    requires rest <= bs.Keys
  {
    done + PlanBlocks(tid, bs, rest) + [LogW(EndRecord(tid))]
  }

  lemma PlanStep(tid: Tid, bs: Blocks, done: seq<Write>, rest: set<int>)
    requires rest != {} && rest <= bs.Keys
    ensures var b := Least(rest);
            ToDo(tid, bs, done, rest) == ToDo(tid, bs, done + BlockWrites(tid, b, bs[b]), rest - {b})
  {
    var b := Least(rest);
    assert PlanBlocks(tid, bs, rest) == BlockWrites(tid, b, bs[b]) + PlanBlocks(tid, bs, rest - {b});
    assert done + (BlockWrites(tid, b, bs[b]) + PlanBlocks(tid, bs, rest - {b})) ==
           done + BlockWrites(tid, b, bs[b]) + PlanBlocks(tid, bs, rest - {b});
  }

  lemma PerformedOne(io: C.Io, done: seq<Write>, w: Write)
    requires C.ValidIo(io)
    ensures C.PerformAll(io, done + [w]) == C.Perform(C.PerformAll(io, done), w)
  {
    assert (done + [w])[..|done|] == done;
  }

  lemma {:induction false} PerformedMore(io: C.Io, done: seq<Write>, ws: seq<Write>)
    requires C.ValidIo(io)
    ensures C.PerformAll(io, done + ws) == C.PerformAll(C.PerformAll(io, done), ws)
  {
    if ws == [] {
      assert done + ws == done;
    } else {
      var init, w := ws[..|ws| - 1], ws[|ws| - 1];
      PerformedMore(io, done, init);
      assert done + ws == done + init + [w];
      PerformedOne(io, done + init, w);
    }
  }

  lemma PerformedTwo(io: C.Io, v: Write, w: Write)
    requires C.ValidIo(io)
    ensures C.PerformAll(io, [v]) == C.Perform(io, v)
    ensures C.PerformAll(io, [v, w]) == C.Perform(C.Perform(io, v), w)
  {
    PerformedOne(io, [], v);
    assert [] + [v] == [v];
    PerformedOne(io, [v], w);
    assert [v] + [w] == [v, w];
  }

  /** The writes of one block, one after the other. */
  lemma PerformedBlock(io: C.Io, tid: Tid, b: int, mb: MBlock)
    requires C.ValidIo(io)
    ensures C.PerformAll(io, BlockWrites(tid, b, mb)) ==
            match mb.lock
            case A_LOCK =>
              C.Perform(C.Perform(C.Perform(io, LogW(Record(tid, LALLOCATE, b, ' ', NoValue()))), IndexW(b, 'A')),
                        StoreW(b, mb.data))
            case W_LOCK => C.Perform(C.Perform(io, LogW(Record(tid, LWRITE, b, mb.oldindex, mb.oldval))), StoreW(b, mb.data))
            case S_LOCK => C.Perform(C.Perform(io, LogW(Record(tid, LRELEASE, b, mb.oldindex, mb.oldval))), IndexW(b, 'U'))
            case R_LOCK => C.Perform(io, LogW(Record(tid, LREAD, b, ' ', NoValue())))
  {
    var ws := BlockWrites(tid, b, mb);
    if mb.lock == R_LOCK {
      PerformedTwo(io, ws[0], ws[0]);
    } else {
      PerformedTwo(io, ws[0], ws[1]);
      if mb.lock == A_LOCK {
        PerformedOne(io, [ws[0], ws[1]], ws[2]);
        assert [ws[0], ws[1]] + [ws[2]] == ws;
      }
    }
  }

  /** The index file has one byte for every block. */
  predicate Complete(d: Disk) {
    ValidDisk(d) && d.index.Keys == BlocksUpTo(NBLOCKS)
  }

  predicate IsFree(d: Disk, b: int) {
    b in d.index && d.index[b] == 'U'
  }

  // ---------------------------------------------------------------- what the monitor answers

  datatype Caller = Caller(tid: Tid, pid: int, fd: int)

  function Answer(c: Caller, s: M.State, kind: M.Kind, b: int, now: int): M.Outcome {
    M.Process(s, M.Request(c.tid, c.pid, kind, b), c.fd, now)
  }

  predicate Granted(c: Caller, s: M.State, kind: M.Kind, b: int, now: int) {
    Answer(c, s, kind, b, now).Handled? && Answer(c, s, kind, b, now).reply == M.OK
  }

  /** Status st, for a transaction that is neither preempted nor unknown. */
  function Marked(s: M.State, t: Tid, st: M.Status): M.State {
    if P.Live(s, t) then M.SetStat(s, t, st) else s
  }

  /** Where a restart leads, given the tables and how often the process has slept before: a live transaction restarts
      as long as the next sleep is within the limit; any other aborts. */
  predicate Restarts(c: Caller, s: M.State, sleeps: nat, limit: nat, s': M.State, ex: Exception) {
    && s' == Marked(s, c.tid, M.RESTARTING)
    && ex == if P.Live(s, c.tid) && B.Pow2(sleeps) <= limit then TE_RESTART else TE_ABORT
  }

  /** The monitor did not grant a lock: the transaction restarts, or dies. */
  predicate Denied(c: Caller, s: M.State, kind: M.Kind, b: int, sleeps: nat, limit: nat, now: int, s': M.State, ex: Exception)
  {
    match Answer(c, s, kind, b, now)
    case Handled(t, NOT_OK) => Restarts(c, t, sleeps, limit, s', ex)
    case Handled(t, DIE) => s' == t && ex == TE_ABORT
    case Handled(_, OK) => false
    case BrainDead => s' == s && ex == TE_FAIL
  }

  /** What a refused lock request comes to.  A live transaction is in status RESTARTING and restarts while the sleep is
      within the limit; a preempted one has been told to die, and the tables are as they were. */
  lemma DeniedMeans(c: Caller, s: M.State, kind: M.Kind, b: int, sleeps: nat, limit: nat, now: int, s': M.State, ex: Exception)
    requires P.Inv(s) && c.tid in s.status && P.IsLock(kind)
    requires Denied(c, s, kind, b, sleeps, limit, now, s', ex)
    ensures s' == Marked(s, c.tid, M.RESTARTING)
    ensures ex == if P.Live(s, c.tid) && B.Pow2(sleeps) <= limit then TE_RESTART else TE_ABORT
  {
    if P.Live(s, c.tid) {
      P.LockStep(s, M.Request(c.tid, c.pid, kind, b), c.fd, now);
    }
  }

  /** COMMIT is granted exactly to a live transaction, ... */
  lemma CommitAnswered(c: Caller, s: M.State, now: int)
    ensures var o := Answer(c, s, M.COMMIT, 0, now);
            && o.Handled? && o.state == Marked(s, c.tid, M.COMMITTING) && (o.reply == M.OK <==> P.Live(s, c.tid))
  {
    P.ToldReply(s, M.Request(c.tid, c.pid, M.COMMIT, 0), c.fd, now);
  }

  /** ... and then so is END. */
  lemma EndAnswered(c: Caller, s: M.State, now: int)
    requires P.Live(s, c.tid)
    ensures Answer(c, Marked(s, c.tid, M.COMMITTING), M.END, 0, now) == M.Handled(Marked(s, c.tid, M.ENDED), M.OK)
  {
    P.ToldReply(Marked(s, c.tid, M.COMMITTING), M.Request(c.tid, c.pid, M.END, 0), c.fd, now);
  }

  /** A call that asks for a lock returns x if the lock is granted, and raises otherwise. */
  predicate Asked<T(==)>(c: Caller, s: M.State, kind: M.Kind, b: int, sleeps: nat, limit: nat, now: int,
                         s': M.State, r: Result<T>, x: T)
  {
    if Granted(c, s, kind, b, now) then s' == Answer(c, s, kind, b, now).state && r == Got(x)
    else r.Raised? && Denied(c, s, kind, b, sleeps, limit, now, s', r.ex)
  }

  lemma FirstFree(d: Disk, last: int, b: int)
    requires b > last && IsFree(d, b) && forall k :: last < k < b ==> !IsFree(d, k)
    ensures IsNextFree(d, last, b)
  {
    forall k | last < k < b && k in d.index
      ensures d.index[k] != 'U'
    {
      assert !IsFree(d, k);
    }
  }

  // ---------------------------------------------------------------- the search of allocate

  /** A block that was refused, and the tables at that moment. */
  datatype Attempt = Attempt(block: int, tables: M.State)

  /** How the search ends.  Stopped: told to die (with the tables then), or the monitor has exited (None). */
  datatype Hunt =
    | Obtained(block: int, tables: M.State, refused: seq<Attempt>)
    | Exhausted(tables: M.State, refused: seq<Attempt>)
    | Stopped(block: int, died: Option<M.State>, refused: seq<Attempt>)

  function FreeAfter(d: Disk, last: int): set<int> {
    set b | b in d.index && b > last && d.index[b] == 'U'
  }

  /** What one attempt comes to: the block is granted; the search goes on, at the tables given; or it stops, told to die
      (with the tables then) or because the monitor has exited (None), over this request or a later one. */
  datatype Try = Takes(tables: M.State) | Goes(tables: M.State) | Halts(died: Option<M.State>, refused: bool)

  /** clock(b): the time at which block b is tried; others(b): what the monitor serves to other clients between the
      refusal of b and the next attempt. */
  function OneTry(c: Caller, s: M.State, b: int, clock: int -> int, others: int -> seq<K.Visit>): Try {
    match Answer(c, s, M.ALLOCATE, b, clock(b))
    case BrainDead => Halts(None, false)
    case Handled(t, OK) => Takes(t)
    case Handled(t, DIE) => Halts(Some(t), false)
    case Handled(t, NOT_OK) =>
      match K.AfterVisits(t, others(b))
      case None => Halts(None, true)
      case Some(u) => Goes(u)
  }

  /** Tries one free block after the other. */
  function HuntBy(attempt: (M.State, int) -> Try, s: M.State, d: Disk, last: int, refused: seq<Attempt>): Hunt
    requires Complete(d)
    decreases NBLOCKS - last
  {
    if FreeAfter(d, last) == {} then Exhausted(s, refused)
    else
      var b := Least(FreeAfter(d, last));
      match attempt(s, b)
      case Takes(t) => Obtained(b, t, refused)
      case Goes(u) => HuntBy(attempt, u, d, b, refused + [Attempt(b, s)])
      case Halts(died, too) => Stopped(b, died, if too then refused + [Attempt(b, s)] else refused)
  }

  /** The search of allocate. */
  function HuntFrom(c: Caller, s: M.State, d: Disk, last: int, clock: int -> int, others: int -> seq<K.Visit>,
                    refused: seq<Attempt>): Hunt
    requires Complete(d)
  {
    HuntBy((u, b) => OneTry(c, u, b, clock, others), s, d, last, refused)
  }

  lemma HuntUnfolds(c: Caller, s: M.State, d: Disk, last: int, clock: int -> int, others: int -> seq<K.Visit>,
                    refused: seq<Attempt>, b: int)
    requires Complete(d) && FreeAfter(d, last) != {} && b == Least(FreeAfter(d, last))
    ensures HuntFrom(c, s, d, last, clock, others, refused) ==
            match OneTry(c, s, b, clock, others)
            case Takes(t) => Obtained(b, t, refused)
            case Goes(u) => HuntFrom(c, u, d, b, clock, others, refused + [Attempt(b, s)])
            case Halts(died, too) => Stopped(b, died, if too then refused + [Attempt(b, s)] else refused)
  {}

  /** What allocate makes of the search: the block, the exception, the tables and the block it will go on from. */
  predicate Hunted(h: Hunt, c: Caller, sleeps: nat, limit: nat, last: int, s: M.State, r: Result<int>) {
    match h
    case Obtained(b, t, _) => r == Got(b) && last == b && s == t
    case Stopped(b, died, _) =>
      last == b && r == Raised(if died.Some? then TE_ABORT else TE_FAIL) && (died.Some? ==> s == died.value)
    case Exhausted(t, _) => last > NBLOCKS && r.Raised? && Restarts(c, t, sleeps, limit, s, r.ex)
  }

  lemma NoneLeft(d: Disk, last: int)
    requires forall k :: k > last ==> !IsFree(d, k)
    ensures FreeAfter(d, last) == {}
  {
    forall k
      ensures k !in FreeAfter(d, last)
    {
      assert !IsFree(d, k) || k <= last;
    }
  }

  lemma NextIsLeast(d: Disk, last: int, b: int)
    requires IsNextFree(d, last, b)
    ensures FreeAfter(d, last) != {} && Least(FreeAfter(d, last)) == b
  {
    assert b in FreeAfter(d, last);
  }

  predicate RefusedAt(c: Caller, a: Attempt, clock: int -> int) {
    Answer(c, a.tables, M.ALLOCATE, a.block, clock(a.block)) == M.Handled(a.tables, M.NOT_OK)
  }

  predicate Tried(refused: seq<Attempt>, b: int) {
    exists i :: 0 <= i < |refused| && refused[i].block == b
  }

  /** The blocks between first and last that are free are exactly the refused ones, in increasing order. */
  ghost predicate Trail(c: Caller, d: Disk, clock: int -> int, first: int, last: int, refused: seq<Attempt>) {
    && (forall i :: 0 <= i < |refused| ==> RefusedAt(c, refused[i], clock))
    && (forall i :: 0 <= i < |refused| ==> first < refused[i].block <= last && IsFree(d, refused[i].block))
    && (forall i, j :: 0 <= i < j < |refused| ==> refused[i].block < refused[j].block)
    && (forall k :: first < k <= last && IsFree(d, k) ==> Tried(refused, k))
  }

  /** Each attempt finds the tables that the previous one and the other clients have left. */
  ghost predicate Chain(s: M.State, u: M.State, others: int -> seq<K.Visit>, refused: seq<Attempt>) {
    if refused == [] then u == s
    else
      && refused[0].tables == s
      && (forall i :: 0 < i < |refused| ==>
            K.AfterVisits(refused[i - 1].tables, others(refused[i - 1].block)) == Some(refused[i].tables))
      && K.AfterVisits(refused[|refused| - 1].tables, others(refused[|refused| - 1].block)) == Some(u)
  }

  lemma RefusedUnchanged(c: Caller, s: M.State, k: int, now: int)
    requires Answer(c, s, M.ALLOCATE, k, now).Handled? && Answer(c, s, M.ALLOCATE, k, now).reply == M.NOT_OK
    ensures Answer(c, s, M.ALLOCATE, k, now) == M.Handled(s, M.NOT_OK)
  {}

  lemma TriedMore(refused: seq<Attempt>, a: Attempt, k: int)
    ensures Tried(refused + [a], k) <==> Tried(refused, k) || a.block == k
  {
    assert (refused + [a])[|refused|] == a;
    if i :| 0 <= i < |refused| && refused[i].block == k {
      assert (refused + [a])[i].block == k;
    }
  }

  lemma TrailMore(c: Caller, d: Disk, clock: int -> int, first: int, last: int, refused: seq<Attempt>, a: Attempt)
    requires Trail(c, d, clock, first, last, refused) && RefusedAt(c, a, clock) && last >= first
    requires FreeAfter(d, last) != {} && a.block == Least(FreeAfter(d, last))
    ensures Trail(c, d, clock, first, a.block, refused + [a])
  {
    var more := refused + [a];
    assert a.block in FreeAfter(d, last);
    forall i | 0 <= i < |more|
      ensures more[i] == if i < |refused| then refused[i] else a
    {}
    forall k | first < k <= a.block && IsFree(d, k)
      ensures Tried(more, k)
    {
      TriedMore(refused, a, k);
      assert k > last ==> k in FreeAfter(d, last);
    }
  }

  lemma ChainMore(s: M.State, u: M.State, next: M.State, others: int -> seq<K.Visit>, refused: seq<Attempt>, b: int)
    requires Chain(s, u, others, refused) && K.AfterVisits(u, others(b)) == Some(next)
    ensures Chain(s, next, others, refused + [Attempt(b, u)])
  {}

  /** A block obtained at tables that the refusals before it led to. */
  ghost predicate WellObtained(c: Caller, s: M.State, clock: int -> int, others: int -> seq<K.Visit>, b: int, t: M.State,
                               refused: seq<Attempt>)
  {
    exists u :: Chain(s, u, others, refused) && Answer(c, u, M.ALLOCATE, b, clock(b)) == M.Handled(t, M.OK)
  }

  /** The reason to stop at block b, with the tables u and the refusals that led there: the monitor says DIE, or exits
      over this request, or refuses it and exits over another client's. */
  predicate Stops(c: Caller, u: M.State, b: int, clock: int -> int, others: int -> seq<K.Visit>, before: seq<Attempt>,
                  died: Option<M.State>, refused: seq<Attempt>)
  {
    match Answer(c, u, M.ALLOCATE, b, clock(b))
    case BrainDead => died == None && refused == before
    case Handled(t, DIE) => died == Some(t) && refused == before
    case Handled(t, NOT_OK) =>
      died == None && refused == before + [Attempt(b, u)] && K.AfterVisits(t, others(b)) == None
    case Handled(_, OK) => false
  }

  ghost predicate WellStopped(c: Caller, s: M.State, d: Disk, first: int, clock: int -> int, others: int -> seq<K.Visit>,
                              b: int, died: Option<M.State>, refused: seq<Attempt>)
  {
    exists u, before :: Chain(s, u, others, before) && Trail(c, d, clock, first, b - 1, before)
                        && Stops(c, u, b, clock, others, before, died, refused)
  }

  /** What the search promises of its result, in terms of the free blocks it went through. */
  ghost predicate Promised(c: Caller, s: M.State, d: Disk, first: int, clock: int -> int, others: int -> seq<K.Visit>,
                           h: Hunt)
  {
    match h
    case Obtained(b, t, refused) =>
      && b > first && IsFree(d, b) && Trail(c, d, clock, first, b - 1, refused)
      && WellObtained(c, s, clock, others, b, t, refused)
    case Exhausted(t, refused) => Trail(c, d, clock, first, NBLOCKS, refused) && Chain(s, t, others, refused)
    case Stopped(b, died, refused) =>
      b > first && IsFree(d, b) && WellStopped(c, s, d, first, clock, others, b, died, refused)
  }

  lemma TrailUpTo(c: Caller, d: Disk, clock: int -> int, first: int, last: int, upto: int, refused: seq<Attempt>)
    requires Trail(c, d, clock, first, last, refused) && upto >= last
    requires forall k :: last < k <= upto ==> !IsFree(d, k)
    ensures Trail(c, d, clock, first, upto, refused)
  {}

  lemma TrailPast(c: Caller, d: Disk, clock: int -> int, first: int, last: int, refused: seq<Attempt>)
    requires Complete(d) && Trail(c, d, clock, first, last, refused)
    requires forall k :: last < k <= NBLOCKS ==> !IsFree(d, k)
    ensures Trail(c, d, clock, first, NBLOCKS, refused)
  {
    forall i | 0 <= i < |refused|
      ensures refused[i].block <= NBLOCKS
    {
      assert IsFree(d, refused[i].block);
    }
  }

  lemma NoneBefore(c: Caller, d: Disk, clock: int -> int, first: int, last: int, refused: seq<Attempt>)
    requires Trail(c, d, clock, first, last, refused) && FreeAfter(d, last) != {}
    ensures Least(FreeAfter(d, last)) > last && IsFree(d, Least(FreeAfter(d, last)))
    ensures Trail(c, d, clock, first, Least(FreeAfter(d, last)) - 1, refused)
  {
    var b := Least(FreeAfter(d, last));
    forall k | last < k <= b - 1
      ensures !IsFree(d, k)
    {
      assert k !in FreeAfter(d, last);
    }
    TrailUpTo(c, d, clock, first, last, b - 1, refused);
  }

  lemma NoneAtAll(c: Caller, d: Disk, clock: int -> int, first: int, last: int, refused: seq<Attempt>)
    requires Complete(d) && Trail(c, d, clock, first, last, refused) && FreeAfter(d, last) == {}
    ensures Trail(c, d, clock, first, NBLOCKS, refused)
  {
    forall k | last < k <= NBLOCKS
      ensures !IsFree(d, k)
    {
      assert k !in FreeAfter(d, last);
    }
    TrailPast(c, d, clock, first, last, refused);
  }

  lemma HuntOver(c: Caller, s: M.State, d: Disk, first: int, u: M.State, last: int,
                 clock: int -> int, others: int -> seq<K.Visit>, refused: seq<Attempt>)
    requires Complete(d) && FreeAfter(d, last) == {}
    requires Trail(c, d, clock, first, last, refused) && Chain(s, u, others, refused)
    ensures Promised(c, s, d, first, clock, others, HuntFrom(c, u, d, last, clock, others, refused))
  {
    NoneAtAll(c, d, clock, first, last, refused);
  }

  /** The refusal after which the search goes on. */
  predicate GoesOn(c: Caller, u: M.State, b: int, clock: int -> int, others: int -> seq<K.Visit>) {
    && RefusedAt(c, Attempt(b, u), clock)
    && K.AfterVisits(u, others(b)).Some?
  }

  lemma HuntObtains(c: Caller, s: M.State, d: Disk, first: int, u: M.State, last: int,
                    clock: int -> int, others: int -> seq<K.Visit>, refused: seq<Attempt>)
    requires Complete(d) && first <= last && FreeAfter(d, last) != {}
    requires Trail(c, d, clock, first, last, refused) && Chain(s, u, others, refused)
    requires Granted(c, u, M.ALLOCATE, Least(FreeAfter(d, last)), clock(Least(FreeAfter(d, last))))
    ensures var b := Least(FreeAfter(d, last));
            HuntFrom(c, u, d, last, clock, others, refused) ==
            Obtained(b, Answer(c, u, M.ALLOCATE, b, clock(b)).state, refused)
    ensures Promised(c, s, d, first, clock, others, HuntFrom(c, u, d, last, clock, others, refused))
  {
    var b := Least(FreeAfter(d, last));
    NoneBefore(c, d, clock, first, last, refused);
    assert WellObtained(c, s, clock, others, b, Answer(c, u, M.ALLOCATE, b, clock(b)).state, refused);
  }

  lemma HuntStops(c: Caller, s: M.State, d: Disk, first: int, u: M.State, last: int,
                  clock: int -> int, others: int -> seq<K.Visit>, refused: seq<Attempt>)
    requires Complete(d) && first <= last && FreeAfter(d, last) != {}
    requires Trail(c, d, clock, first, last, refused) && Chain(s, u, others, refused)
    requires !GoesOn(c, u, Least(FreeAfter(d, last)), clock, others)
    requires !Granted(c, u, M.ALLOCATE, Least(FreeAfter(d, last)), clock(Least(FreeAfter(d, last))))
    ensures Promised(c, s, d, first, clock, others, HuntFrom(c, u, d, last, clock, others, refused))
  {
    var b := Least(FreeAfter(d, last));
    NoneBefore(c, d, clock, first, last, refused);
    var o := Answer(c, u, M.ALLOCATE, b, clock(b));
    if o.Handled? && o.reply == M.NOT_OK {
      RefusedUnchanged(c, u, b, clock(b));
    }
    HuntUnfolds(c, u, d, last, clock, others, refused, b);
    var hunt := HuntFrom(c, u, d, last, clock, others, refused);
    assert Stops(c, u, b, clock, others, refused, hunt.died, hunt.refused);
    assert WellStopped(c, s, d, first, clock, others, b, hunt.died, hunt.refused);
  }

  lemma HuntGoesOn(c: Caller, u: M.State, d: Disk, last: int, clock: int -> int, others: int -> seq<K.Visit>,
                   refused: seq<Attempt>)
    requires Complete(d) && FreeAfter(d, last) != {} && GoesOn(c, u, Least(FreeAfter(d, last)), clock, others)
    ensures var b := Least(FreeAfter(d, last));
            HuntFrom(c, u, d, last, clock, others, refused) ==
            HuntFrom(c, K.AfterVisits(u, others(b)).value, d, b, clock, others, refused + [Attempt(b, u)])
  {}

  /** The search tries the free blocks in strictly increasing order and passes over none: it returns the first one the
      monitor grants, every free block before it was refused, and it gives up only when all were. */
  lemma {:induction false} HuntKeeps(c: Caller, s: M.State, d: Disk, first: int, u: M.State, last: int,
                                     clock: int -> int, others: int -> seq<K.Visit>, refused: seq<Attempt>)
    requires Complete(d) && first <= last
    requires Trail(c, d, clock, first, last, refused) && Chain(s, u, others, refused)
    ensures Promised(c, s, d, first, clock, others, HuntFrom(c, u, d, last, clock, others, refused))
    decreases NBLOCKS - last
  {
    if FreeAfter(d, last) == {} {
      HuntOver(c, s, d, first, u, last, clock, others, refused);
    } else if Granted(c, u, M.ALLOCATE, Least(FreeAfter(d, last)), clock(Least(FreeAfter(d, last)))) {
      HuntObtains(c, s, d, first, u, last, clock, others, refused);
    } else if !GoesOn(c, u, Least(FreeAfter(d, last)), clock, others) {
      HuntStops(c, s, d, first, u, last, clock, others, refused);
    } else {
      var b := Least(FreeAfter(d, last));
      var next := K.AfterVisits(u, others(b)).value;
      TrailMore(c, d, clock, first, last, refused, Attempt(b, u));
      ChainMore(s, u, next, others, refused, b);
      HuntKeeps(c, s, d, first, next, b, clock, others, refused + [Attempt(b, u)]);
      HuntGoesOn(c, u, d, last, clock, others, refused);
    }
  }

  /** In particular from the start. */
  lemma HuntPromises(c: Caller, s: M.State, d: Disk, first: int, clock: int -> int, others: int -> seq<K.Visit>)
    requires Complete(d)
    ensures Promised(c, s, d, first, clock, others, HuntFrom(c, s, d, first, clock, others, []))
  {
    HuntKeeps(c, s, d, first, s, first, clock, others, []);
  }

  /** The block before the n-th refused one, or where the search began. */
  function TriedBefore(first: int, refused: seq<Attempt>, n: nat): int
    requires n <= |refused|
  {
    if n == 0 then first else refused[n - 1].block
  }

  /** The tables that the n-th attempt met, or those after all of them. */
  function TablesAt(u: M.State, refused: seq<Attempt>, n: nat): M.State
    requires n <= |refused|
  {
    if n < |refused| then refused[n].tables else u
  }

  /** The n-th refusal: of the next free block, and the search goes on from there. */
  predicate Met(attempt: (M.State, int) -> Try, d: Disk, first: int, u: M.State, refused: seq<Attempt>, n: nat)
    requires n < |refused|
  {
    var last, b := TriedBefore(first, refused, n), TriedBefore(first, refused, n + 1);
    && FreeAfter(d, last) != {} && Least(FreeAfter(d, last)) == b
    && attempt(TablesAt(u, refused, n), b) == Goes(TablesAt(u, refused, n + 1))
  }

  lemma NotBetween(refused: seq<Attempt>, n: nat, first: int, b: int, k: int)
    requires forall i, j :: 0 <= i < j < |refused| ==> refused[i].block < refused[j].block
    requires n <= |refused| && TriedBefore(first, refused, n) < k < b && (n < |refused| ==> b == refused[n].block)
    ensures !Tried(refused, k)
  {
    forall i | 0 <= i < |refused|
      ensures refused[i].block != k
    {
      if i >= n {
        assert refused[n].block <= refused[i].block;
      }
    }
  }

  /** With the blocks up to the n-th refused one accounted for, the next free block is the one tried next. */
  lemma NextTried(c: Caller, d: Disk, clock: int -> int, first: int, upto: int, refused: seq<Attempt>, n: nat, b: int)
    requires Trail(c, d, clock, first, upto, refused) && n <= |refused| && IsFree(d, b)
    requires if n < |refused| then b == refused[n].block else b == upto + 1 > first
    ensures IsNextFree(d, TriedBefore(first, refused, n), b)
  {
    assert n < |refused| ==> b <= upto;
    forall k | TriedBefore(first, refused, n) < k < b && k in d.index
      ensures d.index[k] != 'U'
    {
      NotBetween(refused, n, first, b, k);
      assert !IsFree(d, k);
    }
  }

  lemma MetAt(c: Caller, s: M.State, d: Disk, first: int, u: M.State, last: int,
              clock: int -> int, others: int -> seq<K.Visit>, refused: seq<Attempt>, n: nat)
    requires Trail(c, d, clock, first, last, refused) && Chain(s, u, others, refused) && n < |refused|
    ensures Met((v, b) => OneTry(c, v, b, clock, others), d, first, u, refused, n)
  {
    var a := refused[n];
    assert RefusedAt(c, a, clock) && IsFree(d, a.block);
    assert K.AfterVisits(refused[n].tables, others(refused[n].block)) == Some(TablesAt(u, refused, n + 1)) by {
      if n + 1 < |refused| {
        assert K.AfterVisits(refused[n + 1 - 1].tables, others(refused[n + 1 - 1].block)) == Some(refused[n + 1].tables);
      }
    }
    NextTried(c, d, clock, first, last, refused, n, a.block);
    NextIsLeast(d, TriedBefore(first, refused, n), a.block);
  }

  /** The search once it has met the first n refusals. */
  function HuntAfter(attempt: (M.State, int) -> Try, d: Disk, first: int, u: M.State, refused: seq<Attempt>, n: nat): Hunt
    requires Complete(d) && n <= |refused|
  {
    HuntBy(attempt, TablesAt(u, refused, n), d, TriedBefore(first, refused, n), refused[..n])
  }

  lemma HuntMeets(attempt: (M.State, int) -> Try, d: Disk, first: int, u: M.State, refused: seq<Attempt>, n: nat)
    requires Complete(d) && n < |refused| && Met(attempt, d, first, u, refused, n)
    ensures HuntAfter(attempt, d, first, u, refused, n) == HuntAfter(attempt, d, first, u, refused, n + 1)
  {
    assert refused[..n] + [refused[n]] == refused[..n + 1];
    assert refused[n] == Attempt(TriedBefore(first, refused, n + 1), TablesAt(u, refused, n));
  }

  /** The search goes through all the refusals that await it. */
  lemma {:induction false} HuntMeetsAll(attempt: (M.State, int) -> Try, d: Disk, first: int, u: M.State,
                                        refused: seq<Attempt>, n: nat)
    requires Complete(d) && n <= |refused|
    requires forall k: nat :: k < |refused| ==> Met(attempt, d, first, u, refused, k)
    ensures HuntAfter(attempt, d, first, u, refused, 0) == HuntAfter(attempt, d, first, u, refused, n)
    decreases n
  {
    if n > 0 {
      HuntMeetsAll(attempt, d, first, u, refused, n - 1);
      HuntMeets(attempt, d, first, u, refused, n - 1);
    }
  }

  lemma HuntTakes(c: Caller, d: Disk, u: M.State, last: int, clock: int -> int, others: int -> seq<K.Visit>,
                  refused: seq<Attempt>, b: int)
    requires Complete(d) && IsNextFree(d, last, b) && Granted(c, u, M.ALLOCATE, b, clock(b))
    ensures HuntFrom(c, u, d, last, clock, others, refused) ==
            Obtained(b, Answer(c, u, M.ALLOCATE, b, clock(b)).state, refused)
  {
    NextIsLeast(d, last, b);
  }

  lemma HuntEnds(s: M.State, u: M.State, first: int, others: int -> seq<K.Visit>, refused: seq<Attempt>)
    requires Chain(s, u, others, refused)
    ensures TablesAt(u, refused, 0) == s && TriedBefore(first, refused, 0) == first && refused[..0] == []
    ensures TablesAt(u, refused, |refused|) == u && refused[..|refused|] == refused
  {}

  /** The first free block that is not refused is the one the search obtains if the monitor grants it. */
  lemma HuntFinds(c: Caller, s: M.State, d: Disk, first: int, clock: int -> int, others: int -> seq<K.Visit>,
                  b: int, u: M.State, refused: seq<Attempt>)
    requires Complete(d) && b > first && IsFree(d, b)
    requires Trail(c, d, clock, first, b - 1, refused) && Chain(s, u, others, refused)
    requires Granted(c, u, M.ALLOCATE, b, clock(b))
    ensures HuntFrom(c, s, d, first, clock, others, []) ==
            Obtained(b, Answer(c, u, M.ALLOCATE, b, clock(b)).state, refused)
  {
    var attempt := (v, k) => OneTry(c, v, k, clock, others);
    forall k: nat | k < |refused|
      ensures Met(attempt, d, first, u, refused, k)
    {
      MetAt(c, s, d, first, u, b - 1, clock, others, refused, k);
    }
    NextTried(c, d, clock, first, b - 1, refused, |refused|, b);
    HuntMeetsAll(attempt, d, first, u, refused, |refused|);
    HuntTakes(c, d, u, TriedBefore(first, refused, |refused|), clock, others, refused, b);
    HuntEnds(s, u, first, others, refused);
  }

  class Transaction {
    const monitor: K.TransactionMonitor
    const files: L.Storage
    const logger: L.LogManager
    const process: B.Process
    const fd: int
    const pid: int
    var tid: Tid
    var blockmap: Blocks
    var lastFreeBlock: int
    var errorOccurred: bool

    /** What the destructor needs, and every call leaves, however it ends. */
    ghost predicate Sound()
      reads this, files, logger
    {
      && logger.files == files && logger.Valid() && logger != monitor.logger
      && Complete(files.OnDisk()) && WellFormedBlocks(blockmap)
    }

    ghost predicate Valid()
      reads this, files, logger, process
    {
      Sound() && process.lastSleep < B.WIDTH
    }

    /** Connects, and asks for a transaction id. */
    constructor (monitor: K.TransactionMonitor, files: L.Storage, process: B.Process, fd: int, pid: int, now: int)
      requires Complete(files.OnDisk()) && process.lastSleep < B.WIDTH
      modifies monitor`nextTid, monitor`transactions, monitor`status, monitor`blockmap
      ensures Valid() && fresh(logger) && logger.pos == 0
      ensures this.monitor == monitor && this.files == files && this.process == process && this.fd == fd && this.pid == pid
      ensures tid == old(monitor.nextTid) && monitor.nextTid == tid + 1 && monitor.blockmap == old(monitor.blockmap)
      ensures monitor.transactions == old(monitor.transactions)[fd := tid]
      ensures monitor.status == old(monitor.status)[tid := M.TStat(pid, 0, now, M.BEGUN)]
      ensures blockmap == map[] && lastFreeBlock == 0 && !errorOccurred
    {
      this.monitor, this.files, this.process, this.fd, this.pid := monitor, files, process, fd, pid;
      logger := new L.LogManager(files);
      tid, blockmap, lastFreeBlock, errorOccurred := 0, map[], 0, false;
      new;
      var nextId := monitor.nextTid;
      var _ := monitor.ProcessClientRq(M.Request(0, pid, M.BEGIN, 0), fd, now);
      tid := nextId;
    }

    // -------------------------------------------------------------- talking to the monitor

    ghost function Me(): Caller
      reads `tid
    {
      Caller(tid, pid, fd)
    }

    method Abort() returns (ex: Exception)
      modifies this`errorOccurred
      ensures errorOccurred && ex == TE_ABORT
    {
      errorOccurred := true;
      return TE_ABORT;
    }

    /** A request and its answer; DIE raises TE_ABORT. */
    method AskTpm(kind: M.Kind, b: int, now: int) returns (r: Result<bool>)
      modifies monitor`nextTid, monitor`transactions, monitor`status, monitor`blockmap, this`errorOccurred
      ensures match Answer(Me(), old(monitor.Tables()), kind, b, now)
              case Handled(s, reply) =>
                && monitor.Tables() == s
                && r == (if reply == M.DIE then Raised(TE_ABORT) else Got(reply == M.OK))
                && errorOccurred == (old(errorOccurred) || reply == M.DIE)
              case BrainDead =>
                && monitor.Tables() == old(monitor.Tables())
                && r == Raised(TE_FAIL) && errorOccurred == old(errorOccurred)
    {
      var reply := monitor.ProcessClientRq(M.Request(tid, pid, kind, b), fd, now);
      if reply.None? {
        return Raised(TE_FAIL);
      }
      if reply.value == M.DIE {
        var ex := Abort();
        return Raised(ex);
      }
      return Got(reply.value == M.OK);
    }

    method Restart(now: int) returns (ex: Exception)
      requires process.lastSleep < B.WIDTH
      modifies monitor`nextTid, monitor`transactions, monitor`status, monitor`blockmap, this`errorOccurred, process
      ensures Restarts(Me(), old(monitor.Tables()), old(process.lastSleep), process.limit, monitor.Tables(), ex)
      ensures errorOccurred
      ensures process.lastSleep == old(process.lastSleep) + if P.Live(old(monitor.Tables()), tid) then 1 else 0
      ensures process.slept == old(process.slept) + if ex == TE_RESTART then B.Pow2(old(process.lastSleep)) else 0
    {
      P.ToldReply(monitor.Tables(), M.Request(tid, pid, M.RESTART, 0), fd, now);
      var r := AskTpm(M.RESTART, 0, now);
      if r.Raised? {
        return r.ex;
      }
      if !r.value {
        ex := Abort();
        return;
      }
      var ok := process.BackoffSleep();
      if !ok {
        ex := Abort();
        return;
      }
      errorOccurred := true;
      return TE_RESTART;
    }

    /** Asks for a lock; raises unless it is granted. */
    method Acquire(kind: M.Kind, b: int, now: int) returns (r: Result<bool>)
      requires process.lastSleep < B.WIDTH
      modifies monitor`nextTid, monitor`transactions, monitor`status, monitor`blockmap, this`errorOccurred, process
      ensures r.Got? <==> Granted(Me(), old(monitor.Tables()), kind, b, now)
      ensures r.Got? ==> monitor.Tables() == Answer(Me(), old(monitor.Tables()), kind, b, now).state
      ensures r.Got? ==> process.lastSleep == old(process.lastSleep)
      ensures r.Raised? ==>
                Denied(Me(), old(monitor.Tables()), kind, b, old(process.lastSleep), process.limit, now, monitor.Tables(), r.ex)
      ensures errorOccurred == Failed(old(errorOccurred), r)
    {
      r := AskTpm(kind, b, now);
      if r.Raised? {
        return;
      }
      if !r.value {
        var ex := Restart(now);
        return Raised(ex);
      }
    }

    // -------------------------------------------------------------- the operations

    method CheckAllocated(b: int) returns (a: bool)
      ensures a == IsAllocated(files.OnDisk(), b)
    {
      if b > NBLOCKS {
        return false;
      }
      return b in files.index && files.index[b] == 'A';
    }

    /** Asks the monitor for a lock on a block of the store and reads the block. */
    method Fetch(kind: M.Kind, b: int, now: int) returns (r: Result<Contents>)
      requires Complete(files.OnDisk()) && process.lastSleep < B.WIDTH && b > 0
      modifies monitor`nextTid, monitor`transactions, monitor`status, monitor`blockmap, this`errorOccurred, process
      ensures !IsAllocated(files.OnDisk(), b) ==>
                && r == Raised(TE_ABORT) && errorOccurred && monitor.Tables() == old(monitor.Tables())
                && process.lastSleep == old(process.lastSleep)
      ensures IsAllocated(files.OnDisk(), b) ==>
                && b in files.store
                && Asked(Me(), old(monitor.Tables()), kind, b, old(process.lastSleep), process.limit, now,
                         monitor.Tables(), r, files.store[b])
      ensures errorOccurred == Failed(old(errorOccurred), r)
      ensures r.Got? ==> process.lastSleep == old(process.lastSleep)
    {
      var present := CheckAllocated(b);
      if !present {
        var ex := Abort();
        return Raised(ex);
      }
      var granted := Acquire(kind, b, now);
      if granted.Raised? {
        return Raised(granted.ex);
      }
      return Got(files.store[b]);
    }

    /** An operation that the library itself rejects.  An invalid block number raises without marking the transaction
        as failed, so its destructor will commit. */
    ghost predicate Rejected<T>(b: int, r: Result<T>, was: bool)
      reads this
    {
      r == Raised(TE_ABORT) && errorOccurred == (was || b > 0)
    }

    method Enter(b: int, mb: MBlock)
      requires WellFormedBlocks(blockmap) && b > 0 && WellFormed(mb)
      modifies `blockmap
      ensures blockmap == old(blockmap)[b := mb] && WellFormedBlocks(blockmap)
    {
      blockmap := blockmap[b := mb];
    }

    /** An operation on a block of the store: rejected if it is not allocated, otherwise it needs a lock; on a grant the
        block enters the map as `entry` says. */
    ghost predicate Through<T>(was: M.State, s: M.State, d: Disk, kind: M.Kind, b: int, sleeps: nat, now: int, err: bool,
                                   bs: Blocks, entry: MBlock, r: Result<T>, x: T)
      reads this
    {
      if IsAllocated(d, b) then
        && Asked(Me(), was, kind, b, sleeps, process.limit, now, s, r, x)
        && blockmap == (if r.Got? then bs[b := entry] else bs) && errorOccurred == Failed(err, r)
      else r == Raised(TE_ABORT) && errorOccurred && blockmap == bs && s == was
    }

    method ReadThrough(b: int, now: int) returns (r: Result<Contents>)
      requires Valid() && b > 0
      modifies this, monitor`nextTid, monitor`transactions, monitor`status, monitor`blockmap, process
      ensures tid == old(tid) && lastFreeBlock == old(lastFreeBlock)
      ensures IsAllocated(files.OnDisk(), b) ==> b in files.store
      ensures Through(old(monitor.Tables()), monitor.Tables(), files.OnDisk(), M.READ, b, old(process.lastSleep), now,
                      old(errorOccurred), old(blockmap),
                      ReadFrom(if b in files.store then files.store[b] else []), r,
                      (if b in files.store then files.store[b] else []))
      ensures Sound() && (r.Got? || !IsAllocated(files.OnDisk(), b) ==> Valid())
    {
      r := Fetch(M.READ, b, now);
      if r.Got? {
        var buffer := r.value;
        Enter(b, MBlock(R_LOCK, buffer, buffer, 'A'));
      }
    }

    /** A write to a block that the map holds with a lock other than a read lock.  The buffer of a freshly allocated
        block is also its saved old value. */
    method WriteHeld(b: int, newval: Contents) returns (r: Result<Contents>)
      requires WellFormedBlocks(blockmap) && b in blockmap && blockmap[b].lock != R_LOCK
      modifies `blockmap, `errorOccurred
      ensures WellFormedBlocks(blockmap)
      ensures if old(blockmap)[b].lock == S_LOCK then
                r == Raised(TE_ABORT) && errorOccurred && blockmap == old(blockmap)
              else
                && r == Got(old(blockmap)[b].data) && errorOccurred == old(errorOccurred)
                && blockmap == old(blockmap)[b := WrittenLocally(old(blockmap)[b], newval)]
    {
      var mb := blockmap[b];
      assert WellFormed(mb);
      if mb.lock == S_LOCK {
        var ex := Abort();
        return Raised(ex);
      }
      if mb.lock == A_LOCK {
        Enter(b, mb.(data := newval, oldval := newval));
      } else {
        Enter(b, mb.(data := newval));
      }
      return Got(mb.data);
    }

    method WriteThrough(b: int, newval: Contents, now: int) returns (r: Result<Contents>)
      requires Valid() && b > 0
      modifies this, monitor`nextTid, monitor`transactions, monitor`status, monitor`blockmap, process
      ensures tid == old(tid) && lastFreeBlock == old(lastFreeBlock)
      ensures IsAllocated(files.OnDisk(), b) ==> b in files.store
      ensures Through(old(monitor.Tables()), monitor.Tables(), files.OnDisk(), M.WRITE, b, old(process.lastSleep), now,
                      old(errorOccurred), old(blockmap),
                      WrittenOver(if b in files.store then files.store[b] else [], newval), r,
                      (if b in files.store then files.store[b] else []))
      ensures Sound() && (r.Got? || !IsAllocated(files.OnDisk(), b) ==> Valid())
    {
      r := Fetch(M.WRITE, b, now);
      if r.Got? {
        var savedVal := r.value;
        Enter(b, MBlock(W_LOCK, newval, savedVal, 'A'));
      }
    }

    method ReleaseThrough(b: int, now: int) returns (r: Result<bool>)
      requires Valid() && b > 0
      modifies this, monitor`nextTid, monitor`transactions, monitor`status, monitor`blockmap, process
      ensures tid == old(tid) && lastFreeBlock == old(lastFreeBlock)
      ensures IsAllocated(files.OnDisk(), b) ==> b in files.store
      ensures Through(old(monitor.Tables()), monitor.Tables(), files.OnDisk(), M.RELEASE, b, old(process.lastSleep), now,
                      old(errorOccurred), old(blockmap),
                      ReleasedFrom(if b in files.store then files.store[b] else []), r, true)
      ensures Sound() && (r.Got? || !IsAllocated(files.OnDisk(), b) ==> Valid())
    {
      var fetched := Fetch(M.RELEASE, b, now);
      if fetched.Raised? {
        return Raised(fetched.ex);
      }
      var buffer := fetched.value;
      Enter(b, MBlock(S_LOCK, buffer, buffer, 'A'));
      return Got(true);
    }

    method Read(b: int, now: int) returns (r: Result<Contents>)
      requires Valid()
      modifies this, monitor`nextTid, monitor`transactions, monitor`status, monitor`blockmap, process
      ensures tid == old(tid) && lastFreeBlock == old(lastFreeBlock)
      ensures match RouteRead(old(blockmap), files.OnDisk(), b)
              case Reject =>
                Rejected(b, r, old(errorOccurred)) && blockmap == old(blockmap) && monitor.Tables() == old(monitor.Tables())
              case Local =>
                && r == Got(old(blockmap)[b].data) && blockmap == old(blockmap)
                && monitor.Tables() == old(monitor.Tables()) && errorOccurred == old(errorOccurred)
              case AskMonitor =>
                && Asked(Me(), old(monitor.Tables()), M.READ, b, old(process.lastSleep), process.limit, now,
                         monitor.Tables(), r, files.store[b])
                && blockmap == (if r.Got? then old(blockmap)[b := ReadFrom(files.store[b])] else old(blockmap))
                && errorOccurred == Failed(old(errorOccurred), r)
      ensures Sound() && (r.Got? || RouteRead(old(blockmap), files.OnDisk(), b) == Reject ==> Valid())
    {
      if b <= 0 {
        return Raised(TE_ABORT);
      }
      if b in blockmap {
        if blockmap[b].lock == S_LOCK {
          var ex := Abort();
          return Raised(ex);
        }
        return Got(blockmap[b].data);
      }
      r := ReadThrough(b, now);
    }

    /** Returns the value that is overwritten. */
    method Write(b: int, newval: Contents, now: int) returns (r: Result<Contents>)
      requires Valid()
      modifies this, monitor`nextTid, monitor`transactions, monitor`status, monitor`blockmap, process
      ensures tid == old(tid) && lastFreeBlock == old(lastFreeBlock)
      ensures match RouteWrite(old(blockmap), files.OnDisk(), b)
              case Reject =>
                Rejected(b, r, old(errorOccurred)) && blockmap == old(blockmap) && monitor.Tables() == old(monitor.Tables())
              case Local =>
                && r == Got(old(blockmap)[b].data)
                && blockmap == old(blockmap)[b := WrittenLocally(old(blockmap)[b], newval)]
                && monitor.Tables() == old(monitor.Tables()) && errorOccurred == old(errorOccurred)
              case AskMonitor =>
                && Asked(Me(), old(monitor.Tables()), M.WRITE, b, old(process.lastSleep), process.limit, now,
                         monitor.Tables(), r, files.store[b])
                && blockmap == (if r.Got? then old(blockmap)[b := WrittenOver(files.store[b], newval)] else old(blockmap))
                && errorOccurred == Failed(old(errorOccurred), r)
      ensures Sound() && (r.Got? || RouteWrite(old(blockmap), files.OnDisk(), b) == Reject ==> Valid())
    {
      if b <= 0 {
        return Raised(TE_ABORT);
      }
      if b in blockmap {
        if blockmap[b].lock != R_LOCK {
          r := WriteHeld(b, newval);
          return;
        }
      }
      r := WriteThrough(b, newval, now);
    }

    method Release(b: int, now: int) returns (r: Result<bool>)
      requires Valid()
      modifies this, monitor`nextTid, monitor`transactions, monitor`status, monitor`blockmap, process
      ensures tid == old(tid) && lastFreeBlock == old(lastFreeBlock)
      ensures match RouteRelease(old(blockmap), files.OnDisk(), b)
              case Reject =>
                Rejected(b, r, old(errorOccurred)) && blockmap == old(blockmap) && monitor.Tables() == old(monitor.Tables())
              case Local =>
                && r == Got(true) && blockmap == old(blockmap)[b := ReleasedLocally(old(blockmap)[b])]
                && monitor.Tables() == old(monitor.Tables()) && errorOccurred == old(errorOccurred)
              case AskMonitor =>
                && Asked(Me(), old(monitor.Tables()), M.RELEASE, b, old(process.lastSleep), process.limit, now,
                         monitor.Tables(), r, true)
                && blockmap == (if r.Got? then old(blockmap)[b := ReleasedFrom(files.store[b])] else old(blockmap))
                && errorOccurred == Failed(old(errorOccurred), r)
      ensures Sound() && (r.Got? || RouteRelease(old(blockmap), files.OnDisk(), b) == Reject ==> Valid())
    {
      if b <= 0 {
        return Raised(TE_ABORT);
      }
      if b in blockmap {
        if blockmap[b].lock != R_LOCK {
          Enter(b, blockmap[b].(lock := S_LOCK));
          return Got(true);
        }
      }
      r := ReleaseThrough(b, now);
    }

    /** The next free block after the last one tried; Got(0): the end of the index was reached. */
    method FindFreeBlock() returns (b: int)
      requires Complete(files.OnDisk()) && lastFreeBlock >= 0
      modifies this`lastFreeBlock
      ensures b == 0 || (b == lastFreeBlock && IsNextFree(files.OnDisk(), old(lastFreeBlock), b))
      ensures b != 0 ==> forall k :: old(lastFreeBlock) < k < b ==> !IsFree(files.OnDisk(), k)
      ensures b == 0 ==> forall k :: k > old(lastFreeBlock) ==> !IsFree(files.OnDisk(), k)
      ensures b == 0 ==> lastFreeBlock > NBLOCKS
      ensures lastFreeBlock > old(lastFreeBlock)
    {
      ghost var d := files.OnDisk();
      lastFreeBlock := lastFreeBlock + 1;
      while lastFreeBlock <= NBLOCKS
        invariant lastFreeBlock > old(lastFreeBlock)
        invariant forall k :: old(lastFreeBlock) < k < lastFreeBlock ==> !IsFree(d, k)
        decreases NBLOCKS - lastFreeBlock
      {
        if files.index[lastFreeBlock] == 'U' {
          FirstFree(d, old(lastFreeBlock), lastFreeBlock);
          return lastFreeBlock;
        }
        lastFreeBlock := lastFreeBlock + 1;
      }
      return 0;
    }

    /** One attempt, and what the monitor does for others after a refusal. */
    method TryBlock(b: int, now: int, visits: seq<K.Visit>) returns (r: Result<bool>)
      modifies monitor`nextTid, monitor`transactions, monitor`status, monitor`blockmap, this`errorOccurred
      ensures match Answer(Me(), old(monitor.Tables()), M.ALLOCATE, b, now)
              case Handled(t, OK) => r == Got(true) && monitor.Tables() == t
              case Handled(t, DIE) => r == Raised(TE_ABORT) && monitor.Tables() == t
              case Handled(t, NOT_OK) =>
                (match K.AfterVisits(t, visits)
                 case Some(u) => r == Got(false) && monitor.Tables() == u
                 case None => r == Raised(TE_FAIL))
              case BrainDead => r == Raised(TE_FAIL)
      ensures errorOccurred == Failed(old(errorOccurred), r)
    {
      r := AskTpm(M.ALLOCATE, b, now);
      if r == Got(false) {
        var alive := monitor.Serve(visits);
        if !alive {
          return Raised(TE_FAIL);
        }
      }
    }

    /** One round of the search: `again` if the block was refused. */
    method SearchOnce(clock: int -> int, others: int -> seq<K.Visit>, ghost refused: seq<Attempt>)
      returns (again: bool, r: Result<int>, ghost more: seq<Attempt>)
      requires Complete(files.OnDisk()) && process.lastSleep < B.WIDTH && lastFreeBlock >= 0
      modifies `lastFreeBlock, `errorOccurred
      modifies monitor`nextTid, monitor`transactions, monitor`status, monitor`blockmap, process
      ensures lastFreeBlock > old(lastFreeBlock) && (again ==> lastFreeBlock <= NBLOCKS)
      ensures again ==>
                HuntFrom(Me(), old(monitor.Tables()), files.OnDisk(), old(lastFreeBlock), clock, others, refused) ==
                HuntFrom(Me(), monitor.Tables(), files.OnDisk(), lastFreeBlock, clock, others, more)
      ensures !again ==>
                Hunted(HuntFrom(Me(), old(monitor.Tables()), files.OnDisk(), old(lastFreeBlock), clock, others, refused),
                       Me(), old(process.lastSleep), process.limit, lastFreeBlock, monitor.Tables(), r)
      ensures errorOccurred == if again then old(errorOccurred) else Failed(old(errorOccurred), r)
      ensures again || r.Got? ==> process.lastSleep == old(process.lastSleep)
      ensures r.Got? ==> r.value > 0
    {
      ghost var d, last := files.OnDisk(), lastFreeBlock;
      again, r, more := false, Raised(TE_FAIL), refused;
      var fblock := FindFreeBlock();
      assert files.OnDisk() == d;
      if fblock == 0 {
        NoneLeft(d, last);
        var ex := Restart(clock(0));
        return false, Raised(ex), refused;
      }
      NextIsLeast(d, last, fblock);
      HuntUnfolds(Me(), monitor.Tables(), d, last, clock, others, refused, fblock);
      ghost var before := monitor.Tables();
      var asked := TryBlock(fblock, clock(fblock), others(fblock));
      if asked.Raised? {
        return false, Raised(asked.ex), refused;
      }
      if asked.value {
        return false, Got(fblock), refused;
      }
      return true, Raised(TE_FAIL), refused + [Attempt(fblock, before)];
    }

    /** The loop of allocate. */
    method SearchBlock(clock: int -> int, others: int -> seq<K.Visit>) returns (r: Result<int>)
      requires Complete(files.OnDisk()) && process.lastSleep < B.WIDTH && lastFreeBlock >= 0
      modifies `lastFreeBlock, `errorOccurred
      modifies monitor`nextTid, monitor`transactions, monitor`status, monitor`blockmap, process
      ensures Hunted(HuntFrom(Me(), old(monitor.Tables()), files.OnDisk(), old(lastFreeBlock), clock, others, []),
                     Me(), old(process.lastSleep), process.limit, lastFreeBlock, monitor.Tables(), r)
      ensures errorOccurred == Failed(old(errorOccurred), r)
      ensures r.Got? ==> process.lastSleep == old(process.lastSleep)
      ensures r.Got? ==> r.value > 0
    {
      ghost var c, d := Me(), files.OnDisk();
      ghost var hunt := HuntFrom(c, monitor.Tables(), d, lastFreeBlock, clock, others, []);
      ghost var refused: seq<Attempt>;
      var again;
      again, r, refused := SearchOnce(clock, others, []);
      while again
        invariant files.OnDisk() == d && Me() == c && lastFreeBlock > old(lastFreeBlock)
        invariant errorOccurred == if again then old(errorOccurred) else Failed(old(errorOccurred), r)
        invariant again || r.Got? ==> process.lastSleep == old(process.lastSleep)
        invariant again ==> hunt == HuntFrom(c, monitor.Tables(), d, lastFreeBlock, clock, others, refused)
        invariant !again ==> Hunted(hunt, c, old(process.lastSleep), process.limit, lastFreeBlock,
                                    monitor.Tables(), r)
        invariant r.Got? ==> r.value > 0
        invariant again ==> lastFreeBlock <= NBLOCKS
        decreases again, NBLOCKS - lastFreeBlock
      {
        again, r, refused := SearchOnce(clock, others, refused);
      }
    }

    /** Tries the free blocks in increasing order until the monitor grants one; restarts when none is left.  Other
        clients' requests may be served between the attempts. */
    method Allocate(clock: int -> int, others: int -> seq<K.Visit>) returns (r: Result<int>)
      requires Valid() && lastFreeBlock >= 0
      modifies this, monitor`nextTid, monitor`transactions, monitor`status, monitor`blockmap, process
      ensures tid == old(tid)
      ensures Hunted(HuntFrom(Me(), old(monitor.Tables()), files.OnDisk(), old(lastFreeBlock), clock, others, []),
                     Me(), old(process.lastSleep), process.limit, lastFreeBlock, monitor.Tables(), r)
      ensures blockmap == if r.Got? then old(blockmap)[r.value := Allocated()] else old(blockmap)
      ensures errorOccurred == Failed(old(errorOccurred), r)
      ensures Sound() && (r.Got? ==> Valid())
    {
      r := SearchBlock(clock, others);
      if r.Raised? {
        return;
      }
      var block := ZeroBlock();
      Enter(r.value, MBlock(A_LOCK, block, block, 'U'));
    }

    // -------------------------------------------------------------- commit

    ghost function IoNow(): C.Io
      reads files, logger
    {
      C.Io(files.OnDisk(), files.log, logger.pos)
    }

    ghost predicate Ready()
      reads this, files, logger
    {
      logger.files == files && logger.Valid()
    }

    method WriteLog(action: Action, b: int, oldindex: char, oldval: Option<Contents>)
      requires Ready()
      modifies files`log, logger`pos
      ensures Ready()
      ensures IoNow() == C.Perform(old(IoNow()), LogW(Record(tid, action, b, oldindex,
                                   if oldval.Some? then oldval.value else NoValue())))
    {
      logger.Log(tid, action, b, oldindex, oldval);
    }

    method WriteIndex(b: int, c: char)
      requires Ready()
      modifies files`index
      ensures Ready() && IoNow() == C.Perform(old(IoNow()), IndexW(b, c))
    {
      files.index := files.index[b := c];
    }

    method WriteStore(b: int, x: Contents)
      requires Ready()
      modifies files`store
      ensures Ready() && IoNow() == C.Perform(old(IoNow()), StoreW(b, x))
    {
      files.store := files.store[b := x];
    }

    /** Flushes one entry of the block map: log record, then index, then contents. */
    method FlushBlock(b: int)
      requires Ready() && b in blockmap
      modifies files, logger`pos
      ensures Ready() && IoNow() == C.PerformAll(old(IoNow()), BlockWrites(tid, b, blockmap[b]))
    {
      var mb := blockmap[b];
      PerformedBlock(IoNow(), tid, b, mb);
      if mb.lock == A_LOCK {
        WriteLog(LALLOCATE, b, ' ', None);
        WriteIndex(b, 'A');
      }
      if mb.lock == A_LOCK || mb.lock == W_LOCK {
        if mb.lock == W_LOCK {
          WriteLog(LWRITE, b, mb.oldindex, Some(mb.oldval));
        }
        WriteStore(b, mb.data);
      }
      if mb.lock == S_LOCK {
        WriteLog(LRELEASE, b, mb.oldindex, Some(mb.oldval));
        WriteIndex(b, 'U');
      }
      if mb.lock == R_LOCK {
        WriteLog(LREAD, b, ' ', None);
      }
    }

    /** The whole map, in key order, between LBEGIN and LEND. */
    method FlushAll()
      requires Ready()
      modifies files, logger`pos
      ensures Ready() && IoNow() == C.PerformAll(old(IoNow()), Plan(tid, blockmap))
    {
      ghost var io := IoNow();
      PerformedOne(io, [], LogW(BeginRecord(tid)));
      WriteLog(LBEGIN, 0, ' ', None);
      ghost var done := [LogW(BeginRecord(tid))];
      assert [] + done == done;
      var rest := blockmap.Keys;
      while rest != {}
        invariant rest <= blockmap.Keys && Ready()
        invariant IoNow() == C.PerformAll(io, done)
        invariant ToDo(tid, blockmap, done, rest) == Plan(tid, blockmap)
        decreases rest
      {
        var p := Least(rest);
        FlushBlock(p);
        PerformedMore(io, done, BlockWrites(tid, p, blockmap[p]));
        PlanStep(tid, blockmap, done, rest);
        done := done + BlockWrites(tid, p, blockmap[p]);
        rest := rest - {p};
      }
      PerformedOne(io, done, LogW(EndRecord(tid)));
      assert done + [] + [LogW(EndRecord(tid))] == done + [LogW(EndRecord(tid))];
      WriteLog(LEND, 0, ' ', None);
    }

    /** The part of commit() after the grant: flushes, and reports the end. */
    method FlushAndEnd(ghost s: M.State, now: int) returns (r: Result<bool>)
      requires Ready() && P.Live(s, tid) && monitor.Tables() == Marked(s, tid, M.COMMITTING)
      modifies this`errorOccurred, files, logger`pos, monitor`nextTid, monitor`transactions, monitor`status, monitor`blockmap
      ensures IoNow() == C.PerformAll(old(IoNow()), Plan(tid, blockmap)) && monitor.Tables() == Marked(s, tid, M.ENDED)
      ensures r == Got(true) && errorOccurred == old(errorOccurred)
    {
      FlushAll();
      EndAnswered(Me(), s, now);
      r := AskTpm(M.END, 0, now);
      if r.Raised? {
        return;
      }
      if !r.value {
        return Raised(TE_ABORT);
      }
    }

    /** Asks for permission, flushes, and reports the end.  The commit of a live transaction succeeds: END is granted and
        its status is ENDED; any other transaction changes nothing and aborts. */
    method Commit(now: int) returns (r: Result<bool>)
      requires Sound()
      modifies this`errorOccurred, files, logger`pos, monitor`nextTid, monitor`transactions, monitor`status, monitor`blockmap
      ensures IoNow() == if P.Live(old(monitor.Tables()), tid) then C.PerformAll(old(IoNow()), Plan(tid, blockmap))
                         else old(IoNow())
      ensures monitor.Tables() == Marked(old(monitor.Tables()), tid, M.ENDED)
      ensures r == if P.Live(old(monitor.Tables()), tid) then Got(true) else Raised(TE_ABORT)
      ensures errorOccurred == Failed(old(errorOccurred), r)
    {
      ghost var s := monitor.Tables();
      CommitAnswered(Me(), s, now);
      r := AskTpm(M.COMMIT, 0, now);
      if r.Raised? {
        return;
      }
      if !r.value {
        var ex := Abort();
        return Raised(ex);
      }
      r := FlushAndEnd(s, now);
    }

    /** The destructor: a transaction in which no error was recorded commits, whatever ended its scope. */
    method Destroy(now: int) returns (r: Result<bool>)
      requires Sound()
      modifies this`errorOccurred, files, logger`pos, monitor`nextTid, monitor`transactions, monitor`status, monitor`blockmap
      ensures old(errorOccurred) ==>
                r == Got(false) && IoNow() == old(IoNow()) && monitor.Tables() == old(monitor.Tables())
      ensures !old(errorOccurred) ==>
                && IoNow() == (if P.Live(old(monitor.Tables()), tid) then C.PerformAll(old(IoNow()), Plan(tid, blockmap))
                               else old(IoNow()))
                && monitor.Tables() == Marked(old(monitor.Tables()), tid, M.ENDED)
                && r == if P.Live(old(monitor.Tables()), tid) then Got(true) else Raised(TE_ABORT)
    {
      if !errorOccurred {
        r := Commit(now);
      } else {
        r := Got(false);
      }
    }
  }

  // ---------------------------------------------------------------- scopes left by an invalid block number

  /** A scope left by a rejected read: the destructor still runs.  The transaction commits exactly when the block number
      was invalid and the monitor agrees, although the program is told that it was aborted. */
  method LeaveByRead(t: Transaction, b: int, now: int)
    requires t.Valid() && !t.errorOccurred && RouteRead(t.blockmap, t.files.OnDisk(), b) == Reject
    modifies t, t.files, t.logger`pos, t.process
    modifies t.monitor`nextTid, t.monitor`transactions, t.monitor`status, t.monitor`blockmap
    ensures t.tid == old(t.tid) && t.blockmap == old(t.blockmap)
    ensures t.IoNow() == if b <= 0 && P.Live(old(t.monitor.Tables()), t.tid)
                         then C.PerformAll(old(t.IoNow()), Plan(t.tid, t.blockmap)) else old(t.IoNow())
  {
    var r := t.Read(b, now);
    assert t.IoNow() == old(t.IoNow());
    var _ := t.Destroy(now);
  }

  /** The same for a rejected write. */
  method LeaveByWrite(t: Transaction, b: int, newval: Contents, now: int)
    requires t.Valid() && !t.errorOccurred && RouteWrite(t.blockmap, t.files.OnDisk(), b) == Reject
    modifies t, t.files, t.logger`pos, t.process
    modifies t.monitor`nextTid, t.monitor`transactions, t.monitor`status, t.monitor`blockmap
    ensures t.tid == old(t.tid) && t.blockmap == old(t.blockmap)
    ensures t.IoNow() == if b <= 0 && P.Live(old(t.monitor.Tables()), t.tid)
                         then C.PerformAll(old(t.IoNow()), Plan(t.tid, t.blockmap)) else old(t.IoNow())
  {
    var r := t.Write(b, newval, now);
    assert t.IoNow() == old(t.IoNow());
    var _ := t.Destroy(now);
  }

  /** And for a rejected release. */
  method LeaveByRelease(t: Transaction, b: int, now: int)
    requires t.Valid() && !t.errorOccurred && RouteRelease(t.blockmap, t.files.OnDisk(), b) == Reject
    modifies t, t.files, t.logger`pos, t.process
    modifies t.monitor`nextTid, t.monitor`transactions, t.monitor`status, t.monitor`blockmap
    ensures t.tid == old(t.tid) && t.blockmap == old(t.blockmap)
    ensures t.IoNow() == if b <= 0 && P.Live(old(t.monitor.Tables()), t.tid)
                         then C.PerformAll(old(t.IoNow()), Plan(t.tid, t.blockmap)) else old(t.IoNow())
  {
    var r := t.Release(b, now);
    assert t.IoNow() == old(t.IoNow());
    var _ := t.Destroy(now);
  }

  // ---------------------------------------------------------------- scopes left by a call that was denied its lock

  predicate Unanswered(c: Caller, s: M.State, kind: M.Kind, b: int, now: int) {
    Answer(c, s, kind, b, now).Handled? && Answer(c, s, kind, b, now).reply != M.OK
  }

  /** What a transaction that was denied a lock leaves behind once its destructor has run: files and log as they were,
      and a monitor that has been told RESTART, unless it has preempted the transaction itself, and never COMMIT. */
  twostate predicate LeftBehind(t: Transaction)
    reads t, t.files, t.logger, t.monitor
  {
    && t.tid == old(t.tid) && t.IoNow() == old(t.IoNow())
    && t.monitor.Tables() == Marked(old(t.monitor.Tables()), t.tid, M.RESTARTING)
  }

  /** The destructor of a transaction that is marked as failed changes nothing and asks the monitor nothing. */
  method LeaveFailed(t: Transaction, now: int)
    requires t.Sound() && t.errorOccurred
    modifies t, t.files, t.logger`pos
    modifies t.monitor`nextTid, t.monitor`transactions, t.monitor`status, t.monitor`blockmap
    ensures t.tid == old(t.tid) && t.IoNow() == old(t.IoNow()) && t.monitor.Tables() == old(t.monitor.Tables())
  {
    var _ := t.Destroy(now);
  }

  /** A read that was denied its lock: the program is told to restart as long as the next sleep is within the limit, and
      to abort otherwise; the destructor commits nothing. */
  method LeaveDeniedRead(t: Transaction, b: int, now: int) returns (r: Result<Contents>)
    requires t.Valid() && RouteRead(t.blockmap, t.files.OnDisk(), b) == AskMonitor
    requires P.Inv(t.monitor.Tables()) && t.tid in t.monitor.status
    requires Unanswered(t.Me(), t.monitor.Tables(), M.READ, b, now)
    modifies t, t.files, t.logger`pos, t.process
    modifies t.monitor`nextTid, t.monitor`transactions, t.monitor`status, t.monitor`blockmap
    ensures LeftBehind(t)
    ensures r == Raised(if P.Live(old(t.monitor.Tables()), t.tid) && B.Pow2(old(t.process.lastSleep)) <= t.process.limit
                        then TE_RESTART else TE_ABORT)
  {
    ghost var s := t.monitor.Tables();
    r := t.Read(b, now);
    DeniedMeans(t.Me(), s, M.READ, b, old(t.process.lastSleep), t.process.limit, now, t.monitor.Tables(), r.ex);
    LeaveFailed(t, now);
  }

  /** The same for a write. */
  method LeaveDeniedWrite(t: Transaction, b: int, newval: Contents, now: int) returns (r: Result<Contents>)
    requires t.Valid() && RouteWrite(t.blockmap, t.files.OnDisk(), b) == AskMonitor
    requires P.Inv(t.monitor.Tables()) && t.tid in t.monitor.status
    requires Unanswered(t.Me(), t.monitor.Tables(), M.WRITE, b, now)
    modifies t, t.files, t.logger`pos, t.process
    modifies t.monitor`nextTid, t.monitor`transactions, t.monitor`status, t.monitor`blockmap
    ensures LeftBehind(t)
    ensures r == Raised(if P.Live(old(t.monitor.Tables()), t.tid) && B.Pow2(old(t.process.lastSleep)) <= t.process.limit
                        then TE_RESTART else TE_ABORT)
  {
    ghost var s := t.monitor.Tables();
    r := t.Write(b, newval, now);
    DeniedMeans(t.Me(), s, M.WRITE, b, old(t.process.lastSleep), t.process.limit, now, t.monitor.Tables(), r.ex);
    LeaveFailed(t, now);
  }

  /** And for a release. */
  method LeaveDeniedRelease(t: Transaction, b: int, now: int) returns (r: Result<bool>)
    requires t.Valid() && RouteRelease(t.blockmap, t.files.OnDisk(), b) == AskMonitor
    requires P.Inv(t.monitor.Tables()) && t.tid in t.monitor.status
    requires Unanswered(t.Me(), t.monitor.Tables(), M.RELEASE, b, now)
    modifies t, t.files, t.logger`pos, t.process
    modifies t.monitor`nextTid, t.monitor`transactions, t.monitor`status, t.monitor`blockmap
    ensures LeftBehind(t)
    ensures r == Raised(if P.Live(old(t.monitor.Tables()), t.tid) && B.Pow2(old(t.process.lastSleep)) <= t.process.limit
                        then TE_RESTART else TE_ABORT)
  {
    ghost var s := t.monitor.Tables();
    r := t.Release(b, now);
    DeniedMeans(t.Me(), s, M.RELEASE, b, old(t.process.lastSleep), t.process.limit, now, t.monitor.Tables(), r.ex);
    LeaveFailed(t, now);
  }

  /** A scope left by an allocate that obtains no block: over a monitor that keeps running the destructor commits nothing. */
  method LeaveByAllocate(t: Transaction, clock: int -> int, others: int -> seq<K.Visit>, now: int)
    returns (r: Result<int>, ghost hunt: Hunt)
    requires t.Valid() && t.lastFreeBlock >= 0
    modifies t, t.files, t.logger`pos, t.process
    modifies t.monitor`nextTid, t.monitor`transactions, t.monitor`status, t.monitor`blockmap
    ensures t.tid == old(t.tid)
    ensures hunt == HuntFrom(old(t.Me()), old(t.monitor.Tables()), old(t.files.OnDisk()), old(t.lastFreeBlock), clock,
                             others, [])
    ensures match hunt
            case Exhausted(s, _) =>
              && t.IoNow() == old(t.IoNow()) && t.monitor.Tables() == Marked(s, t.tid, M.RESTARTING)
              && r == Raised(if P.Live(s, t.tid) && B.Pow2(old(t.process.lastSleep)) <= t.process.limit
                             then TE_RESTART else TE_ABORT)
            case Stopped(_, Some(s), _) => t.IoNow() == old(t.IoNow()) && t.monitor.Tables() == s && r == Raised(TE_ABORT)
            case Stopped(_, None, _) => r == Raised(TE_FAIL)
            case Obtained(b, _, _) => r == Got(b)
  {
    hunt := HuntFrom(t.Me(), t.monitor.Tables(), t.files.OnDisk(), t.lastFreeBlock, clock, others, []);
    r := t.Allocate(clock, others);
    if r.Raised? {
      var _ := t.Destroy(now);
    }
  }

  /** The first free block that is not refused is granted: allocate returns it, and it enters the map. */
  method AllocateFirst(t: Transaction, clock: int -> int, others: int -> seq<K.Visit>,
                       ghost b: int, ghost u: M.State, ghost refused: seq<Attempt>) returns (r: Result<int>)
    requires t.Valid() && t.lastFreeBlock >= 0
    requires b > t.lastFreeBlock && IsFree(t.files.OnDisk(), b)
    requires Trail(t.Me(), t.files.OnDisk(), clock, t.lastFreeBlock, b - 1, refused)
    requires Chain(t.monitor.Tables(), u, others, refused) && Granted(t.Me(), u, M.ALLOCATE, b, clock(b))
    modifies t, t.monitor`nextTid, t.monitor`transactions, t.monitor`status, t.monitor`blockmap, t.process
    ensures t.tid == old(t.tid) && r == Got(b) && t.lastFreeBlock == b && t.blockmap == old(t.blockmap)[b := Allocated()]
    ensures t.monitor.Tables() == Answer(t.Me(), u, M.ALLOCATE, b, clock(b)).state
    ensures t.errorOccurred == old(t.errorOccurred) && t.Valid()
  {
    HuntFinds(t.Me(), t.monitor.Tables(), t.files.OnDisk(), t.lastFreeBlock, clock, others, b, u, refused);
    r := t.Allocate(clock, others);
  }
}
