/** The calls and answers of a program, told from the events of a run, and that the serial history is made of them. */
module SystemTranscript {
  import opened Basics
  import opened Disk
  import opened Client
  import opened SystemSpec
  import opened SystemInv
  import opened SystemRun
  import opened ClientRefinement
  import A = SystemAsk
  import M = MonitorSpec
  import P = MonitorProps

  // ---------------------------------------------------------------- what a program hears

  /** A call and the library's answer to it. */
  datatype Exchange = Exchange(call: Call, answer: Answer)

  /** Does the monitor grant the lock that the call needs? */
  predicate LockGranted(w: World, fd: int, c: Call, now: int)
    requires Connected(w, fd)
  {
    M.Process(w.mon, Ask(w, fd, KindOf(c), c.block), fd, now).Handled? &&
    M.Process(w.mon, Ask(w, fd, KindOf(c), c.block), fd, now).reply == M.OK
  }

  /** The call, if this event is one that the program of transaction id gets an answer to. */
  function Exchanged(w: World, e: Event, id: nat): seq<Exchange> {
    if (e.Buffered? || e.Asked?) && Connected(w, e.fd) && TxOf(w, e.fd).id == id
       && (e.Asked? ==> LockGranted(w, e.fd, e.call, e.now))
    then [Exchange(e.call, AnswerOf(TxOf(w, e.fd), w.files.disk, e.call))]
    else []
  }

  function ExchangedBy(m: Machine, a: Act, id: nat): seq<Exchange> {
    if a.Whole? then Exchanged(m.world, a.event, id) else []
  }

  /** All calls and answers of transaction id, up to point i of the run. */
  function Transcript(ms: seq<Machine>, acts: seq<Act>, i: nat, id: nat): seq<Exchange>
    requires i < |ms| && |ms| == |acts| + 1
  {
    if i == 0 then [] else Transcript(ms, acts, i - 1, id) + ExchangedBy(ms[i - 1], acts[i - 1], id)
  }

  /** What one answered call says about the store. */
  function Shows(x: Exchange): seq<Obs> {
    match x
    case Exchange(Read(b), Value(v)) => [DidRead(b, v)]
    case Exchange(Write(b, y), Value(v)) => [DidWrite(b, v, y)]
    case Exchange(Allocate(b), NewBlock(_)) => [DidAllocate(b)]
    case Exchange(Release(b), Done) => [DidRelease(b)]
    case _ => []
  }

  /** What a whole transcript says.  Releasing a block once more says nothing new. */
  function Seen(xs: seq<Exchange>): seq<Obs> {
    if xs == [] then []
    else
      var init, x := xs[..|xs| - 1], xs[|xs| - 1];
      Seen(init) + if x.call.Release? && x in init then [] else Shows(x)
  }

  lemma SeenMore(xs: seq<Exchange>, x: Exchange)
    ensures Seen(xs + [x]) == Seen(xs) + if x.call.Release? && x in xs then [] else Shows(x)
  {
    assert (xs + [x])[..|xs|] == xs;
  }

  // ---------------------------------------------------------------- one transaction

  predicate IsReleased(tx: Tx, b: int) { b in tx.blocks && tx.blocks[b].lock == S_LOCK }

  /** tx has recorded exactly what the transcript says, and has released the blocks that were released in it. */
  ghost predicate Tracks(tx: Tx, xs: seq<Exchange>) {
    && tx.obs == Seen(xs)
    && forall b :: Exchange(Release(b), Done) in xs <==> IsReleased(tx, b)
  }

  lemma TracksMore(tx: Tx, xs: seq<Exchange>, x: Exchange, next: Tx)
    requires Tracks(tx, xs)
    requires next.obs == tx.obs + if x.call.Release? && x in xs then [] else Shows(x)
    requires forall b :: IsReleased(next, b) <==> IsReleased(tx, b) || x == Exchange(Release(b), Done)
    ensures Tracks(next, xs + [x])
  {
    SeenMore(xs, x);
    forall b
      ensures Exchange(Release(b), Done) in xs + [x] <==> IsReleased(next, b)
    {
      assert Exchange(Release(b), Done) in xs <==> IsReleased(tx, b);
    }
  }

  lemma LocalTracks(d: Disk, tx: Tx, c: Call, xs: seq<Exchange>)
    requires Tracks(tx, xs) && RouteOf(tx, d, c) == Local
    ensures c.block in tx.blocks && Tracks(LocalTx(tx, c), xs + [Exchange(c, AnswerOf(tx, d, c))])
  {
    var x, next := Exchange(c, AnswerOf(tx, d, c)), LocalTx(tx, c);
    assert c.Release? ==> (x in xs <==> IsReleased(tx, c.block));
    assert forall b :: b != c.block ==> (IsReleased(next, b) <==> IsReleased(tx, b));
    TracksMore(tx, xs, x, next);
  }

  lemma GrantedTracks(d: Disk, tx: Tx, c: Call, xs: seq<Exchange>)
    requires Tracks(tx, xs) && ValidDisk(d) && RouteOf(tx, d, c) == AskMonitor
    requires c.Allocate? ==> c.block !in tx.blocks
    ensures Tracks(GrantedTx(tx, d, c), xs + [Exchange(c, AnswerOf(tx, d, c))])
  {
    var x, next := Exchange(c, AnswerOf(tx, d, c)), GrantedTx(tx, d, c);
    assert c.Release? ==> (x in xs <==> IsReleased(tx, c.block));
    assert forall b :: b != c.block ==> (IsReleased(next, b) <==> IsReleased(tx, b));
    TracksMore(tx, xs, x, next);
  }

  // ---------------------------------------------------------------- what each act does to what is recorded

  /** Is this act a call answered to some program? */
  predicate IsCall(a: Act) { a.Whole? && (a.event.Buffered? || a.event.Asked?) }

  lemma BufferedTracks(w: World, fd: int, c: Call, t: Tid, xs: seq<Exchange>)
    requires Identified(w.txs, w.order, w.nextId) && Connected(w, fd) && RouteOf(TxOf(w, fd), w.files.disk, c) == Local
    requires t in w.txs && Tracks(w.txs[t], xs)
    ensures var w' := StepBuffered(w, fd, c);
            && t in w'.txs && w'.txs[t].id == w.txs[t].id
            && Tracks(w'.txs[t], xs + Exchanged(w, Buffered(fd, c), w.txs[t].id))
  {
    if t == w.mon.transactions[fd] {
      LocalTracks(w.files.disk, w.txs[t], c, xs);
    } else {
      assert xs + [] == xs;
    }
  }

  predicate Grants(o: M.Outcome) { o.Handled? && o.reply == M.OK }

  lemma GrantAdds(w: World, t: Tid, c: Call, o: M.Outcome, xs: seq<Exchange>)
    requires t in w.txs && Tracks(w.txs[t], xs) && ValidDisk(w.files.disk)
    requires RouteOf(w.txs[t], w.files.disk, c) == AskMonitor && (c.Allocate? ==> c.block !in w.txs[t].blocks)
    requires Grants(o)
    ensures var w' := Answered(w, t, c, o);
            && t in w'.txs && w'.txs[t].id == w.txs[t].id
            && Tracks(w'.txs[t], xs + [Exchange(c, AnswerOf(w.txs[t], w.files.disk, c))])
  {
    GrantedTracks(w.files.disk, w.txs[t], c, xs);
  }

  lemma NoGrantAdds(w: World, t: Tid, c: Call, o: M.Outcome, u: Tid)
    requires t in w.txs && u in w.txs && (u != t || !Grants(o))
    ensures var w' := Answered(w, t, c, o);
            && u in w'.txs && w'.txs[u].id == w.txs[u].id && w'.txs[u].obs == w.txs[u].obs
            && w'.txs[u].blocks == w.txs[u].blocks
  {}

  /** The event by its outcome, whatever the monitor's reasons. */
  lemma ExchangedAsked(w: World, fd: int, c: Call, now: int, id: nat)
    requires Connected(w, fd)
    ensures var o := M.Process(w.mon, Ask(w, fd, KindOf(c), c.block), fd, now);
            Exchanged(w, Asked(fd, c, now), id) ==
            if TxOf(w, fd).id == id && Grants(o) then [Exchange(c, AnswerOf(TxOf(w, fd), w.files.disk, c))] else []
  {}

  lemma AskedTracks(w: World, fd: int, c: Call, now: int, t: Tid, xs: seq<Exchange>)
    requires Identified(w.txs, w.order, w.nextId) && ValidDisk(w.files.disk)
    requires Connected(w, fd) && RouteOf(TxOf(w, fd), w.files.disk, c) == AskMonitor
    requires c.Allocate? && LockGranted(w, fd, c, now) ==> c.block !in TxOf(w, fd).blocks
    requires t in w.txs && Tracks(w.txs[t], xs)
    ensures var w' := StepAsked(w, fd, c, now);
            && t in w'.txs && w'.txs[t].id == w.txs[t].id
            && Tracks(w'.txs[t], xs + Exchanged(w, Asked(fd, c, now), w.txs[t].id))
  {
    var o := M.Process(w.mon, Ask(w, fd, KindOf(c), c.block), fd, now);
    ExchangedAsked(w, fd, c, now, w.txs[t].id);
    if t == w.mon.transactions[fd] && Grants(o) {
      GrantAdds(w, t, c, o, xs);
    } else {
      NoGrantAdds(w, w.mon.transactions[fd], c, o, t);
      assert xs + [] == xs;
    }
  }

  /** An allocation that is granted is of a block that is new to the transaction. */
  lemma GrantedIsNew(w: World, v: View, fd: int, c: Call, now: int)
    requires Inv(w, v) && Connected(w, fd) && TxOf(w, fd).phase == Working
    requires RouteOf(TxOf(w, fd), w.files.disk, c) == AskMonitor && c.Allocate? && LockGranted(w, fd, c, now)
    ensures c.block !in TxOf(w, fd).blocks
  {
    A.AllocateIsNew(w, v, w.mon.transactions[fd], c.block);
  }

  ghost predicate Unrecorded(w: World, w': World, t: Tid)
    requires t in w'.txs
  {
    if t in w.txs then w'.txs[t].id == w.txs[t].id && w'.txs[t].obs == w.txs[t].obs && w'.txs[t].blocks == w.txs[t].blocks
    else w'.txs[t] == Tx(w.nextId, map[], [], 0, Working)
  }

  lemma OtherEvents(w: World, e: Event, t: Tid)
    requires w.mon.nextTid !in w.txs && !e.Buffered? && !e.Asked? && t in Step(w, e).txs
    ensures Unrecorded(w, Step(w, e), t)
  {}

  lemma RollingActs(m: Machine, a: Act, t: Tid)
    requires !a.Whole? && t in Move(m, a).world.txs
    ensures Unrecorded(m.world, Move(m, a).world, t)
  {}

  /** No other act changes what a transaction has recorded or the blocks it has. */
  lemma OtherActs(m: Machine, a: Act, t: Tid)
    requires P.Inv(m.world.mon) && Phased(m.world.mon, m.world.txs) && !IsCall(a)
    requires t in Move(m, a).world.txs
    ensures Unrecorded(m.world, Move(m, a).world, t)
  {
    assert m.world.mon.nextTid !in m.world.mon.status;
    if a.Whole? {
      OtherEvents(m.world, a.event, t);
    } else {
      RollingActs(m, a, t);
    }
  }

  lemma OtherSilent(m: Machine, a: Act, id: nat)
    requires !IsCall(a)
    ensures ExchangedBy(m, a, id) == []
  {}

  /** What one act adds to a transcript, the transaction records. */
  lemma ActTracks(m: Machine, a: Act, v: View, t: Tid, xs: seq<Exchange>)
    requires P.Inv(m.world.mon) && Phased(m.world.mon, m.world.txs)
    requires Identified(m.world.txs, m.world.order, m.world.nextId)
    requires Possible(m, a) && (a.Whole? && a.event.Asked? ==> Inv(m.world, v))
    requires t in m.world.txs && t in Move(m, a).world.txs && Tracks(m.world.txs[t], xs)
    ensures Move(m, a).world.txs[t].id == m.world.txs[t].id
    ensures Tracks(Move(m, a).world.txs[t], xs + ExchangedBy(m, a, m.world.txs[t].id))
  {
    if IsCall(a) {
      match a.event
      case Buffered(fd, c) => BufferedTracks(m.world, fd, c, t, xs);
      case Asked(fd, c, now) =>
        if c.Allocate? && LockGranted(m.world, fd, c, now) {
          GrantedIsNew(m.world, v, fd, c, now);
        }
        AskedTracks(m.world, fd, c, now, t, xs);
    } else {
      OtherActs(m, a, t);
      OtherSilent(m, a, m.world.txs[t].id);
      assert xs + [] == xs;
    }
  }

  /** A transaction that is new has neither called nor recorded anything. */
  lemma ActOpens(m: Machine, a: Act, t: Tid)
    requires P.Inv(m.world.mon) && Phased(m.world.mon, m.world.txs) && Possible(m, a)
    requires t !in m.world.txs && t in Move(m, a).world.txs
    ensures Move(m, a).world.txs[t].id == m.world.nextId && Tracks(Move(m, a).world.txs[t], [])
  {
    if !IsCall(a) {
      OtherActs(m, a, t);
    }
  }

  /** Nobody calls with an id that has not been given out, or past its COMMIT. */
  lemma ActSilent(m: Machine, a: Act, id: nat)
    requires Identified(m.world.txs, m.world.order, m.world.nextId) && Possible(m, a)
    requires id >= m.world.nextId || InOrder(m.world.order, id)
    ensures ExchangedBy(m, a, id) == []
  {}

  lemma ActIds(m: Machine, a: Act)
    requires Possible(m, a)
    ensures Move(m, a).world.nextId >= m.world.nextId
  {}

  ghost predicate Committed(w: World, e: Entry) {
    exists t :: t in w.txs && e == Entry(w.txs[t].id, w.txs[t].obs)
  }

  lemma StruckFrom(es: seq<Entry>, ids: set<nat>, e: Entry)
    requires e in Strike(es, ids)
    ensures e in es
  {
    StrikeMember(es, ids, e);
  }

  /** The order gains at most one entry by an act: what a transaction has recorded when its COMMIT is granted. */
  lemma ActOrders(m: Machine, a: Act, e: Entry)
    requires Possible(m, a) && e in Move(m, a).world.order
    ensures e in m.world.order || (!IsCall(a) && Committed(m.world, e))
  {
    var w := m.world;
    match a
    case Whole(Leave(fd)) =>
      if e in Strike(w.order, {TxOf(w, fd).id}) {
        StruckFrom(w.order, {TxOf(w, fd).id}, e);
      }
    case Whole(Crash) => StruckFrom(w.order, Ids(Unfinished(w)), e);
    case Whole(Commit(fd)) => assert e !in w.order ==> e == Entry(TxOf(w, fd).id, TxOf(w, fd).obs);
    case UndoWrite =>
      if e !in w.order {
        StruckFrom(w.order, {w.txs[w.mon.transactions[m.rolling.fd]].id}, e);
      }
    case _ =>
  }

  /** The observation of a call that is answered with x. */
  function ValueSeen(c: Call, x: Contents): Obs {
    if c.Write? then DidWrite(c.block, x, c.x) else DidRead(c.block, x)
  }

  lemma BufferedValue(w: World, fd: int, c: Call, x: Contents)
    requires Connected(w, fd) && RouteOf(TxOf(w, fd), w.files.disk, c) == Local
    requires AnswerOf(TxOf(w, fd), w.files.disk, c) == Value(x)
    ensures Connected(StepBuffered(w, fd, c), fd)
    ensures TxOf(StepBuffered(w, fd, c), fd).obs == TxOf(w, fd).obs + [ValueSeen(c, x)]
  {}

  lemma AnsweredValue(w: World, t: Tid, c: Call, o: M.Outcome, x: Contents)
    requires t in w.txs && RouteOf(w.txs[t], w.files.disk, c) == AskMonitor && Grants(o)
    requires AnswerOf(w.txs[t], w.files.disk, c) == Value(x)
    ensures var w' := Answered(w, t, c, o);
            t in w'.txs && w'.txs[t].obs == w.txs[t].obs + [ValueSeen(c, x)]
  {}

  lemma AskedConnected(w: World, fd: int, c: Call, now: int)
    requires P.Inv(w.mon) && Connected(w, fd)
    ensures Connected(StepAsked(w, fd, c, now), fd)
    ensures StepAsked(w, fd, c, now).mon.transactions[fd] == w.mon.transactions[fd]
  {
    var rq := Ask(w, fd, KindOf(c), c.block);
    if P.Live(w.mon, rq.tid) {
      P.LockStep(w.mon, rq, fd, now);
    }
  }

  /** A call that is answered with a value adds exactly one observation, and it is of that value. */
  lemma ValueIsSeen(w: World, v: View, e: Event, x: Contents)
    requires Inv(w, v) && Enabled(w, e) && (e.Buffered? || e.Asked?) && (e.Asked? ==> LockGranted(w, e.fd, e.call, e.now))
    requires AnswerOf(TxOf(w, e.fd), w.files.disk, e.call) == Value(x)
    ensures Connected(Step(w, e), e.fd)
    ensures TxOf(Step(w, e), e.fd).obs == TxOf(w, e.fd).obs + [ValueSeen(e.call, x)]
  {
    match e
    case Buffered(fd, c) => BufferedValue(w, fd, c, x);
    case Asked(fd, c, now) =>
      var o := M.Process(w.mon, Ask(w, fd, KindOf(c), c.block), fd, now);
      AskedConnected(w, fd, c, now);
      AnsweredValue(w, w.mon.transactions[fd], c, o, x);
  }
}
