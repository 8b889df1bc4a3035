/** What each step does to the history of finished transactions: it only grows, by transactions that log LEND. */
module SystemHistory {
  import opened Basics
  import opened Disk
  import opened SystemSpec
  import opened SystemInv
  import F = SystemFlush
  import E = SystemEnd
  import M = MonitorSpec

  /** The transactions that have logged LEND, in the order in which their COMMITs were granted. */
  function History(w: World): seq<Entry> {
    Strike(w.order, Ids(Unfinished(w)))
  }

  /** A transaction past its COMMIT is in the order with everything it saw. */
  ghost predicate Recorded(w: World) {
    forall t :: t in w.txs && w.txs[t].phase != Working ==> Entry(w.txs[t].id, w.txs[t].obs) in w.order
  }

  /** Once finished, always finished. */
  ghost predicate Stays(w: World, w': World) {
    forall e :: e in History(w) ==> e in History(w')
  }

  lemma FinishedMember(w: World, e: Entry)
    ensures e in History(w) <==> e in w.order && e.id !in Ids(Unfinished(w))
  {
    StrikeMember(w.order, Ids(Unfinished(w)), e);
  }

  /** A transaction enters commit() only from work, and its observations are frozen from then on. */
  ghost predicate PhasesMoved(w: World, w': World, commits: bool) {
    forall t :: t in w'.txs && w'.txs[t].phase != Working ==>
      && t in w.txs && w'.txs[t].id == w.txs[t].id && w'.txs[t].obs == w.txs[t].obs
      && (w'.txs[t].phase.Committing? ==> w.txs[t].phase != Finished)
      && (w.txs[t].phase != Working || (commits && w'.order == w.order + [Entry(w'.txs[t].id, w'.txs[t].obs)]))
  }

  lemma CommitPhases(w: World, fd: int)
    requires Connected(w, fd) && TxOf(w, fd).phase == Working
    ensures PhasesMoved(w, StepCommit(w, fd), true)
  {}

  lemma FlushPhases(w: World, fd: int)
    requires Connected(w, fd)
    ensures PhasesMoved(w, StepFlush(w, fd), false)
  {}

  lemma LeavePhases(w: World, fd: int)
    requires Connected(w, fd)
    ensures PhasesMoved(w, StepLeave(w, fd), false)
  {}

  lemma OtherPhases(w: World, e: Event)
    requires Enabled(w, e) && !e.Commit? && !e.Flush? && !e.Leave?
    ensures PhasesMoved(w, Step(w, e), false)
  {}

  lemma PhasesMove(w: World, e: Event)
    requires Enabled(w, e)
    ensures PhasesMoved(w, Step(w, e), e.Commit?)
  {
    match e
    case Commit(fd) => CommitPhases(w, fd);
    case Flush(fd) => FlushPhases(w, fd);
    case Leave(fd) => LeavePhases(w, fd);
    case _ => OtherPhases(w, e);
  }

  /** What a step does to the order: append one granted COMMIT, or strike out unfinished transactions that are gone. */
  ghost predicate OrderMoved(w: World, w': World) {
    || w'.order == w.order
    || (exists t :: t in w'.txs && w'.order == w.order + [Entry(w'.txs[t].id, w'.txs[t].obs)])
    || (exists ids :: ids <= Ids(Unfinished(w)) && ids !! Ids(w'.txs) && w'.order == Strike(w.order, ids))
  }

  lemma RollbackOrder(w: World, fd: int)
    requires Connected(w, fd) && TxOf(w, fd).phase.Committing? && F.DistinctIds(w.txs)
    ensures OrderMoved(w, E.AfterRollback(w, fd))
  {
    var ids := {TxOf(w, fd).id};
    assert w.mon.transactions[fd] in Unfinished(w);
    assert ids <= Ids(Unfinished(w));
    assert ids !! Ids(E.AfterRollback(w, fd).txs);
  }

  lemma QuietOrder(w: World, fd: int)
    requires Phased(w.mon, w.txs) && Logged(w.files.log, w.txs)
    requires Connected(w, fd) && !TxOf(w, fd).phase.Committing?
    ensures StepLeave(w, fd).order == w.order
  {
    if M.NeedsRollback(w.mon, fd) {
      E.QuietLeaveScan(w, fd);
    }
  }

  lemma LeaveOrder(w: World, fd: int)
    requires Phased(w.mon, w.txs) && Logged(w.files.log, w.txs) && F.DistinctIds(w.txs)
    requires Connected(w, fd) && BeginLogged(w, fd)
    ensures OrderMoved(w, StepLeave(w, fd))
  {
    if TxOf(w, fd).phase.Committing? {
      E.RollbackHappens(w, fd);
      RollbackOrder(w, fd);
    } else {
      QuietOrder(w, fd);
    }
  }

  lemma SameOrder(w: World, e: Event)
    requires !e.Commit? && !e.Leave? && !e.Crash?
    ensures Step(w, e).order == w.order
  {}

  lemma CommitOrder(w: World, fd: int)
    requires Connected(w, fd)
    ensures OrderMoved(w, StepCommit(w, fd))
  {
    var t, w' := w.mon.transactions[fd], StepCommit(w, fd);
    assert w'.order != w.order ==> t in w'.txs && w'.order == w.order + [Entry(w'.txs[t].id, w'.txs[t].obs)];
  }

  lemma CrashOrder(w: World)
    ensures OrderMoved(w, StepCrash(w))
  {
    var ids := Ids(Unfinished(w));
    assert ids !! Ids(StepCrash(w).txs);
  }

  lemma OrderMoves(w: World, e: Event)
    requires Phased(w.mon, w.txs) && Logged(w.files.log, w.txs) && F.DistinctIds(w.txs)
    requires Enabled(w, e)
    ensures OrderMoved(w, Step(w, e))
  {
    match e
    case Commit(fd) => CommitOrder(w, fd);
    case Leave(fd) => LeaveOrder(w, fd);
    case Crash => CrashOrder(w);
    case _ => SameOrder(w, e);
  }

  lemma RecordedStep(w: World, w': World, commits: bool)
    requires Recorded(w) && PhasesMoved(w, w', commits) && OrderMoved(w, w')
    ensures Recorded(w')
  {
    forall t | t in w'.txs && w'.txs[t].phase != Working
      ensures Entry(w'.txs[t].id, w'.txs[t].obs) in w'.order
    {
      var e := Entry(w'.txs[t].id, w'.txs[t].obs);
      if w.txs[t].phase != Working {
        assert e in w.order;
        if ids :| ids <= Ids(Unfinished(w)) && ids !! Ids(w'.txs) && w'.order == Strike(w.order, ids) {
          assert w'.txs[t].id in Ids(w'.txs);
          StrikeMember(w.order, ids, e);
        }
      } else {
        assert w'.order[|w.order|] == e;
      }
    }
  }

  lemma StaysStep(w: World, w': World, commits: bool)
    requires Identified(w.txs, w.order, w.nextId) && PhasesMoved(w, w', commits) && OrderMoved(w, w')
    ensures Stays(w, w')
  {
    forall e | e in History(w)
      ensures e in History(w')
    {
      FinishedMember(w, e);
      FinishedMember(w', e);
      if ids :| ids <= Ids(Unfinished(w)) && ids !! Ids(w'.txs) && w'.order == Strike(w.order, ids) {
        StrikeMember(w.order, ids, e);
      }
      forall t | t in Unfinished(w')
        ensures Unfinished(w')[t].id != e.id
      {
        assert t in w.txs;
        if w.txs[t].phase == Working {
          assert !InOrder(w.order, w.txs[t].id);
        } else {
          assert t in Unfinished(w);
        }
      }
    }
  }

  lemma FinishedInHistory(w: World, t: Tid)
    requires Identified(w.txs, w.order, w.nextId) && Recorded(w)
    requires t in w.txs && w.txs[t].phase == Finished
    ensures Entry(w.txs[t].id, w.txs[t].obs) in History(w)
  {
    FinishedMember(w, Entry(w.txs[t].id, w.txs[t].obs));
  }

  // ---------------------------------------------------------------- each transaction once, and only finished ones

  predicate Distinct(es: seq<Entry>) {
    forall i, j :: 0 <= i < j < |es| ==> es[i].id != es[j].id
  }

  lemma {:induction false} StrikeDistinct(es: seq<Entry>, ids: set<nat>)
    requires Distinct(es)
    ensures Distinct(Strike(es, ids))
  {
    if es != [] {
      var init, e := es[..|es| - 1], es[|es| - 1];
      StrikeDistinct(init, ids);
      forall i | 0 <= i < |Strike(init, ids)|
        ensures Strike(init, ids)[i].id != e.id
      {
        StrikeMember(init, ids, Strike(init, ids)[i]);
        var k :| 0 <= k < |init| && init[k] == Strike(init, ids)[i];
        assert es[k] == init[k];
      }
    }
  }

  lemma DistinctStep(w: World, w': World, commits: bool)
    requires Distinct(w.order) && Identified(w.txs, w.order, w.nextId)
    requires OrderMoved(w, w') && PhasesMoved(w, w', commits)
    requires forall t :: t in w'.txs && w'.order == w.order + [Entry(w'.txs[t].id, w'.txs[t].obs)]
               ==> !InOrder(w.order, w'.txs[t].id)
    ensures Distinct(w'.order)
  {
    if ids :| ids <= Ids(Unfinished(w)) && ids !! Ids(w'.txs) && w'.order == Strike(w.order, ids) {
      StrikeDistinct(w.order, ids);
    } else if w'.order != w.order {
      var t :| t in w'.txs && w'.order == w.order + [Entry(w'.txs[t].id, w'.txs[t].obs)];
      forall i | 0 <= i < |w.order|
        ensures w.order[i].id != w'.txs[t].id
      {
        assert w.order[i] in w.order;
      }
    }
  }

  lemma {:induction false} StrikeShorter(es: seq<Entry>, ids: set<nat>)
    ensures |Strike(es, ids)| <= |es|
  {
    if es != [] {
      StrikeShorter(es[..|es| - 1], ids);
    }
  }

  lemma NoAppend(w: World, e: Event)
    requires Enabled(w, e) && !e.Commit?
    ensures |Step(w, e).order| <= |w.order|
  {
    match e
    case Leave(fd) => StrikeShorter(w.order, {TxOf(w, fd).id});
    case Crash => StrikeShorter(w.order, Ids(Unfinished(w)));
    case _ =>
  }

  lemma CommitAppends(w: World, fd: int, t: Tid)
    requires Identified(w.txs, w.order, w.nextId) && Connected(w, fd) && TxOf(w, fd).phase == Working
    requires t in StepCommit(w, fd).txs
    requires StepCommit(w, fd).order == w.order + [Entry(StepCommit(w, fd).txs[t].id, StepCommit(w, fd).txs[t].obs)]
    ensures t in w.txs && !InOrder(w.order, StepCommit(w, fd).txs[t].id) && t in Unfinished(StepCommit(w, fd))
  {
    var u, w' := w.mon.transactions[fd], StepCommit(w, fd);
    assert w'.order[|w.order|] == Entry(w'.txs[t].id, w'.txs[t].obs);
    assert w'.order[|w.order|] == Entry(w.txs[u].id, w.txs[u].obs);
    assert w'.txs[t].id == w.txs[t].id;
  }

  /** Only the grant of a COMMIT appends to the order, and the transaction is new to it. */
  lemma AppendIsNew(w: World, v: View, e: Event, t: Tid)
    requires Inv(w, v) && Enabled(w, e) && t in Step(w, e).txs
    requires Step(w, e).order == w.order + [Entry(Step(w, e).txs[t].id, Step(w, e).txs[t].obs)]
    ensures e.Commit? && t in w.txs && !InOrder(w.order, Step(w, e).txs[t].id)
    ensures t in Unfinished(Step(w, e))
  {
    if e.Commit? {
      CommitAppends(w, e.fd, t);
    } else {
      NoAppend(w, e);
    }
  }

  /** An unfinished transaction goes on, finishes, or is struck out. */
  ghost predicate Accounted(w: World, w': World) {
    forall t :: t in Unfinished(w) ==>
      || (t in Unfinished(w') && w'.txs[t].id == w.txs[t].id)
      || (t in w'.txs && w'.txs[t].id == w.txs[t].id && w'.txs[t].phase == Finished)
      || !InOrder(w'.order, w.txs[t].id)
  }

  lemma StruckOut(es: seq<Entry>, ids: set<nat>, id: nat)
    requires id in ids
    ensures !InOrder(Strike(es, ids), id)
  {
    if e :| e in Strike(es, ids) && e.id == id {
      StrikeMember(es, ids, e);
    }
  }

  lemma LeaveAccounted(w: World, fd: int)
    requires Phased(w.mon, w.txs) && Logged(w.files.log, w.txs)
    requires Connected(w, fd) && BeginLogged(w, fd)
    ensures Accounted(w, StepLeave(w, fd))
  {
    if TxOf(w, fd).phase.Committing? {
      E.RollbackHappens(w, fd);
      StruckOut(w.order, {TxOf(w, fd).id}, TxOf(w, fd).id);
    }
  }

  /** A step that changes at most the transaction of one client, and not back to work. */
  lemma OneAccounted(w: World, w': World, t: Tid)
    requires forall u :: u in w.txs && u != t ==> u in w'.txs && w'.txs[u] == w.txs[u]
    requires t in Unfinished(w) ==> t in w'.txs && w'.txs[t].id == w.txs[t].id && w'.txs[t].phase != Working
    ensures Accounted(w, w')
  {}

  lemma BufferedAccounted(w: World, fd: int, c: Call)
    requires Connected(w, fd) && TxOf(w, fd).phase == Working
    ensures Accounted(w, StepBuffered(w, fd, c))
  {
    OneAccounted(w, StepBuffered(w, fd, c), w.mon.transactions[fd]);
  }

  lemma CommitAccounted(w: World, fd: int)
    requires Connected(w, fd) && TxOf(w, fd).phase == Working
    ensures Accounted(w, StepCommit(w, fd))
  {
    OneAccounted(w, StepCommit(w, fd), w.mon.transactions[fd]);
  }

  lemma FlushAccounted(w: World, fd: int)
    requires Connected(w, fd)
    ensures Accounted(w, StepFlush(w, fd))
  {
    OneAccounted(w, StepFlush(w, fd), w.mon.transactions[fd]);
  }

  lemma AnsweredAccounted(w: World, t: Tid, c: Call, o: M.Outcome)
    requires t in w.txs && w.txs[t].phase == Working
    ensures Accounted(w, Answered(w, t, c, o))
  {
    OneAccounted(w, Answered(w, t, c, o), t);
  }

  lemma AskedAccounted(w: World, fd: int, c: Call, now: int)
    requires Connected(w, fd) && TxOf(w, fd).phase == Working
    ensures Accounted(w, StepAsked(w, fd, c, now))
  {
    AnsweredAccounted(w, w.mon.transactions[fd], c, M.Process(w.mon, Ask(w, fd, KindOf(c), c.block), fd, now));
  }

  lemma CrashAccounted(w: World)
    ensures Accounted(w, StepCrash(w))
  {
    forall t | t in Unfinished(w)
      ensures !InOrder(StepCrash(w).order, w.txs[t].id)
    {
      assert Unfinished(w)[t].id in Ids(Unfinished(w));
      StruckOut(w.order, Ids(Unfinished(w)), w.txs[t].id);
    }
  }

  lemma StepAccounted(w: World, e: Event)
    requires Phased(w.mon, w.txs) && Logged(w.files.log, w.txs) && w.mon.nextTid !in w.txs
    requires Enabled(w, e)
    ensures Accounted(w, Step(w, e))
  {
    match e
    case Leave(fd) => LeaveAccounted(w, fd);
    case Crash => CrashAccounted(w);
    case Connect(_, _, _) => OneAccounted(w, Step(w, e), w.mon.nextTid);
    case Asked(fd, c, now) => AskedAccounted(w, fd, c, now);
    case Commit(fd) => CommitAccounted(w, fd);
    case Flush(fd) => FlushAccounted(w, fd);
    case Buffered(fd, c) => BufferedAccounted(w, fd, c);
    case _ => OneAccounted(w, Step(w, e), w.mon.transactions[e.fd]);
  }

  lemma FreshTid(w: World, v: View)
    requires Inv(w, v)
    ensures w.mon.nextTid !in w.txs
  {
    assert w.txs.Keys == w.mon.status.Keys;
  }

  /** Some transaction with this id has logged LEND and is still connected. */
  predicate HasFinished(w: World, id: nat) {
    exists t :: t in w.txs && w.txs[t].phase == Finished && w.txs[t].id == id
  }

  lemma UnfinishedIdIn(w: World)
    ensures forall t :: t in Unfinished(w) ==> w.txs[t].id in Ids(Unfinished(w))
  {
    forall t | t in Unfinished(w)
      ensures w.txs[t].id in Ids(Unfinished(w))
    {
      assert Unfinished(w)[t].id in Ids(Unfinished(w));
    }
  }

  lemma NotStillUnfinished(w: World, w': World, t: Tid, e: Entry)
    requires Accounted(w, w') && t in Unfinished(w) && w.txs[t].id == e.id
    requires e in w'.order && e.id !in Ids(Unfinished(w'))
    ensures HasFinished(w', e.id)
  {
    assert InOrder(w'.order, w.txs[t].id);
    UnfinishedIdIn(w');
  }

  lemma NotAppended(w: World, w': World, e: Entry)
    requires OrderMoved(w, w') && e !in w.order && e in w'.order && e.id !in Ids(Unfinished(w'))
    ensures exists t :: t in w'.txs && t !in Unfinished(w') && w'.order == w.order + [Entry(w'.txs[t].id, w'.txs[t].obs)]
  {
    if ids :| ids <= Ids(Unfinished(w)) && ids !! Ids(w'.txs) && w'.order == Strike(w.order, ids) {
      StrikeMember(w.order, ids, e);
    } else {
      var t :| t in w'.txs && w'.order == w.order + [Entry(w'.txs[t].id, w'.txs[t].obs)];
      UnfinishedIdIn(w');
      assert w'.order[|w.order|] == Entry(w'.txs[t].id, w'.txs[t].obs);
    }
  }

  lemma NewlyHistory(w: World, w': World, e: Entry)
    requires OrderMoved(w, w') && Accounted(w, w')
    requires forall t :: t in w'.txs && w'.order == w.order + [Entry(w'.txs[t].id, w'.txs[t].obs)] ==> t in Unfinished(w')
    requires e in History(w') && e !in History(w)
    ensures HasFinished(w', e.id)
  {
    FinishedMember(w, e);
    FinishedMember(w', e);
    if e in w.order {
      var t :| t in Unfinished(w) && Unfinished(w)[t].id == e.id;
      NotStillUnfinished(w, w', t, e);
    } else {
      NotAppended(w, w', e);
    }
  }

  lemma FinishedByStep(w: World, v: View, ev: Event, e: Entry)
    requires Inv(w, v) && Enabled(w, ev) && OrderMoved(w, Step(w, ev))
    requires e in History(Step(w, ev)) && e !in History(w)
    ensures HasFinished(Step(w, ev), e.id)
  {
    var w' := Step(w, ev);
    FreshTid(w, v);
    StepAccounted(w, ev);
    forall t | t in w'.txs && w'.order == w.order + [Entry(w'.txs[t].id, w'.txs[t].obs)]
      ensures t in Unfinished(w')
    {
      AppendIsNew(w, v, ev, t);
    }
    NewlyHistory(w, w', e);
  }

  // ---------------------------------------------------------------- the facts about one step that runs need

  /** What one step does to the history: nobody drops out, nobody comes in twice or without LEND. */
  ghost predicate Advances(w: World, w': World) {
    && (Recorded(w) ==> Recorded(w'))
    && Stays(w, w')
    && (Distinct(w.order) ==> Distinct(w'.order))
    && (forall e :: e in History(w') && e !in History(w) ==> HasFinished(w', e.id))
  }

  lemma StepMoves(w: World, v: View, e: Event)
    requires Inv(w, v) && Enabled(w, e)
    ensures PhasesMoved(w, Step(w, e), e.Commit?) && OrderMoved(w, Step(w, e))
    ensures Identified(w.txs, w.order, w.nextId)
  {
    PhasesMove(w, e);
    OrderMoves(w, e);
  }

  lemma StepDistinct(w: World, v: View, e: Event)
    requires Inv(w, v) && Enabled(w, e) && Distinct(w.order)
    ensures Distinct(Step(w, e).order)
  {
    StepMoves(w, v, e);
    var w' := Step(w, e);
    forall t | t in w'.txs && w'.order == w.order + [Entry(w'.txs[t].id, w'.txs[t].obs)]
      ensures !InOrder(w.order, w'.txs[t].id)
    {
      AppendIsNew(w, v, e, t);
    }
    DistinctStep(w, w', e.Commit?);
  }

  lemma StepFinishes(w: World, v: View, ev: Event)
    requires Inv(w, v) && Enabled(w, ev)
    ensures forall e :: e in History(Step(w, ev)) && e !in History(w) ==> HasFinished(Step(w, ev), e.id)
  {
    StepMoves(w, v, ev);
    forall e | e in History(Step(w, ev)) && e !in History(w)
      ensures HasFinished(Step(w, ev), e.id)
    {
      FinishedByStep(w, v, ev, e);
    }
  }

  lemma StepStays(w: World, v: View, e: Event)
    requires Inv(w, v) && Enabled(w, e)
    ensures Stays(w, Step(w, e)) && (Recorded(w) ==> Recorded(Step(w, e)))
  {
    StepMoves(w, v, e);
    StaysStep(w, Step(w, e), e.Commit?);
    if Recorded(w) {
      RecordedStep(w, Step(w, e), e.Commit?);
    }
  }

  lemma StepAdvances(w: World, v: View, e: Event)
    requires Inv(w, v) && Enabled(w, e)
    ensures Advances(w, Step(w, e))
  {
    StepStays(w, v, e);
    StepFinishes(w, v, e);
    if Distinct(w.order) {
      StepDistinct(w, v, e);
    }
  }
}
