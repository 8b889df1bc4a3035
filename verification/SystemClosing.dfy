/** How a transaction ends: in every run, what the monitor answers to COMMIT, RESTART, ABORT and END. */
module SystemClosing {
  import opened Basics
  import opened SystemSpec
  import opened SystemInv
  import opened SystemRun
  import opened SystemTheorems
  import opened SystemTranscript
  import M = MonitorSpec
  import P = MonitorProps

  /** Does the transaction with this id send END by this act? */
  predicate SendsEnd(m: Machine, a: Act, id: nat) {
    && a.Whole? && a.event.Told? && a.event.kind == M.END
    && Connected(m.world, a.event.fd) && TxOf(m.world, a.event.fd).id == id
  }

  /** Has it sent END before point i of the run? */
  predicate SentEnd(ms: seq<Machine>, acts: seq<Act>, i: nat, id: nat)
    requires i < |ms| && |ms| == |acts| + 1
  {
    i > 0 && (SentEnd(ms, acts, i - 1, id) || SendsEnd(ms[i - 1], acts[i - 1], id))
  }

  /** From its LEND until its END, unless it is preempted, a transaction is in status COMMITTING. */
  predicate Closing(s: M.State, t: Tid, tx: Tx, sent: bool) {
    tx.phase == Finished ==>
      && t in s.status && s.status[t].stat in {M.COMMITTING, M.ENDED, M.PREEMPTED}
      && (s.status[t].stat == M.ENDED ==> sent)
  }

  // ---------------------------------------------------------------- one step

  lemma AskedCloses(w: World, fd: int, c: Call, now: int, t: Tid, sent: bool)
    requires P.Inv(w.mon) && Connected(w, fd) && TxOf(w, fd).phase == Working
    requires t in w.txs && t in StepAsked(w, fd, c, now).txs && Closing(w.mon, t, w.txs[t], sent)
    ensures Closing(StepAsked(w, fd, c, now).mon, t, StepAsked(w, fd, c, now).txs[t], sent)
  {
    var rq := Ask(w, fd, KindOf(c), c.block);
    P.ProcessInv(w.mon, rq, fd, now);
    if t != rq.tid && t in w.mon.status {
      P.PreemptionJustified(w.mon, rq, fd, now, t);
    }
  }

  lemma ToldCloses(w: World, fd: int, kind: M.Kind, t: Tid, sent: bool)
    requires P.Inv(w.mon) && Connected(w, fd) && kind in {M.RESTART, M.ABORT, M.END}
    requires TxOf(w, fd).phase == if kind == M.END then Finished else Working
    requires t in w.txs && Closing(w.mon, t, w.txs[t], sent)
    ensures Closing(StepTold(w, fd, kind).mon, t, w.txs[t], sent || (kind == M.END && t == w.mon.transactions[fd]))
  {
    P.ToldReply(w.mon, Ask(w, fd, kind, 0), fd, 0);
  }

  lemma CommitCloses(w: World, fd: int, t: Tid, sent: bool)
    requires Connected(w, fd) && TxOf(w, fd).phase == Working
    requires t in w.txs && Closing(w.mon, t, w.txs[t], sent)
    ensures Closing(StepCommit(w, fd).mon, t, StepCommit(w, fd).txs[t], sent)
  {
    P.ToldReply(w.mon, Ask(w, fd, M.COMMIT, 0), fd, 0);
  }

  lemma FlushCloses(w: World, fd: int, t: Tid, sent: bool)
    requires Phased(w.mon, w.txs) && Connected(w, fd)
    requires t in w.txs && Closing(w.mon, t, w.txs[t], sent)
    ensures Closing(StepFlush(w, fd).mon, t, StepFlush(w, fd).txs[t], sent)
  {
    assert PhaseOk(w.mon, t, w.txs[t]);
  }

  /** The other events leave a finished transaction as it is, or remove it. */
  lemma QuietCloses(w: World, e: Event, t: Tid, sent: bool)
    requires P.Inv(w.mon) && Phased(w.mon, w.txs) && Enabled(w, e)
    requires !e.Asked? && !e.Told? && !e.Commit? && !e.Flush?
    requires t in w.txs && t in Step(w, e).txs && Closing(w.mon, t, w.txs[t], sent)
    ensures Closing(Step(w, e).mon, t, Step(w, e).txs[t], sent)
  {}

  lemma EventCloses(w: World, e: Event, t: Tid, sent: bool)
    requires P.Inv(w.mon) && Phased(w.mon, w.txs) && Enabled(w, e)
    requires t in w.txs && t in Step(w, e).txs && Closing(w.mon, t, w.txs[t], sent)
    ensures Closing(Step(w, e).mon, t, Step(w, e).txs[t],
                    sent || (e.Told? && e.kind == M.END && t == w.mon.transactions[e.fd]))
  {
    match e
    case Asked(fd, c, now) => AskedCloses(w, fd, c, now, t, sent);
    case Told(fd, kind) => ToldCloses(w, fd, kind, t, sent);
    case Commit(fd) => CommitCloses(w, fd, t, sent);
    case Flush(fd) => FlushCloses(w, fd, t, sent);
    case _ => QuietCloses(w, e, t, sent);
  }

  lemma RollingCloses(m: Machine, a: Act, t: Tid, sent: bool)
    requires Phased(m.world.mon, m.world.txs) && !a.Whole?
    requires t in m.world.txs && t in Move(m, a).world.txs && Closing(m.world.mon, t, m.world.txs[t], sent)
    ensures Closing(Move(m, a).world.mon, t, Move(m, a).world.txs[t], sent)
  {}

  lemma ActCloses(m: Machine, x: Witness, a: Act, t: Tid, sent: bool)
    requires Good(m, x) && Possible(m, a)
    requires t in m.world.txs && t in Move(m, a).world.txs && Closing(m.world.mon, t, m.world.txs[t], sent)
    ensures Closing(Move(m, a).world.mon, t, Move(m, a).world.txs[t], sent || SendsEnd(m, a, m.world.txs[t].id))
  {
    GoodParts(m, x);
    if a.Whole? {
      EventCloses(m.world, a.event, t, sent);
    } else {
      RollingCloses(m, a, t, sent);
    }
  }

  // ---------------------------------------------------------------- whole runs

  lemma AnsweredSameId(w: World, t: Tid, c: Call, o: M.Outcome, u: Tid)
    requires t in w.txs && u in Answered(w, t, c, o).txs
    ensures u in w.txs && Answered(w, t, c, o).txs[u].id == w.txs[u].id
  {}

  lemma CallSameId(w: World, e: Event, t: Tid)
    requires (e.Buffered? || e.Asked?) && Connected(w, e.fd) && t in Step(w, e).txs
    ensures t in w.txs && Step(w, e).txs[t].id == w.txs[t].id
  {
    if e.Asked? {
      AnsweredSameId(w, w.mon.transactions[e.fd], e.call,
                     M.Process(w.mon, Ask(w, e.fd, KindOf(e.call), e.call.block), e.fd, e.now), t);
    }
  }

  lemma ActSameId(m: Machine, x: Witness, a: Act, t: Tid)
    requires Good(m, x) && Possible(m, a) && t in Move(m, a).world.txs
    ensures t in m.world.txs ==> Move(m, a).world.txs[t].id == m.world.txs[t].id
    ensures t !in m.world.txs ==> Move(m, a).world.txs[t].phase == Working
  {
    GoodParts(m, x);
    if IsCall(a) {
      CallSameId(m.world, a.event, t);
    } else {
      OtherActs(m, a, t);
    }
  }

  lemma {:induction false} RunCloses(ms: seq<Machine>, acts: seq<Act>, i: nat, t: Tid)
    requires IsRun(ms, acts) && i < |ms| && t in ms[i].world.txs
    ensures Closing(ms[i].world.mon, t, ms[i].world.txs[t], SentEnd(ms, acts, i, ms[i].world.txs[t].id))
  {
    if i > 0 {
      var x := RunKeeps(ms, acts, i - 1);
      ActSameId(ms[i - 1], x, acts[i - 1], t);
      if t in ms[i - 1].world.txs {
        RunCloses(ms, acts, i - 1, t);
        ActCloses(ms[i - 1], x, acts[i - 1], t, SentEnd(ms, acts, i - 1, ms[i].world.txs[t].id));
      }
    }
  }

  /** In every run: a transaction that has logged LEND and has not yet sent END gets OK to it and is ENDED then, unless
      it has been preempted meanwhile and is told to die. */
  lemma EndAnswered(ms: seq<Machine>, acts: seq<Act>, i: nat, fd: int, now: int)
    requires IsRun(ms, acts) && i < |ms| && Connected(ms[i].world, fd)
    requires TxOf(ms[i].world, fd).phase == Finished && !SentEnd(ms, acts, i, TxOf(ms[i].world, fd).id)
    ensures var s, t := ms[i].world.mon, ms[i].world.mon.transactions[fd];
            var o := M.Process(s, Ask(ms[i].world, fd, M.END, 0), fd, now);
            if P.Live(s, t) then o.Handled? && o.reply == M.OK && t in o.state.status && o.state.status[t].stat == M.ENDED
            else o == M.Handled(s, M.DIE)
  {
    RunCloses(ms, acts, i, ms[i].world.mon.transactions[fd]);
    P.ToldReply(ms[i].world.mon, Ask(ms[i].world, fd, M.END, 0), fd, now);
  }

  /** And a transaction at work gets OK to COMMIT, RESTART and ABORT, unless it has been preempted. */
  lemma WorkerAnswered(ms: seq<Machine>, acts: seq<Act>, i: nat, fd: int, kind: M.Kind, now: int)
    requires IsRun(ms, acts) && i < |ms| && Connected(ms[i].world, fd) && TxOf(ms[i].world, fd).phase == Working
    requires kind in {M.COMMIT, M.RESTART, M.ABORT}
    ensures var s, t := ms[i].world.mon, ms[i].world.mon.transactions[fd];
            var o := M.Process(s, Ask(ms[i].world, fd, kind, 0), fd, now);
            && o.Handled? && o.reply == (if P.Live(s, t) then M.OK else M.DIE)
            && (kind == M.COMMIT && P.Live(s, t) ==> P.Committing(o.state, t))
  {
    var x := RunKeeps(ms, acts, i);
    GoodParts(ms[i], x);
    P.ToldReply(ms[i].world.mon, Ask(ms[i].world, fd, kind, 0), fd, now);
  }
}
