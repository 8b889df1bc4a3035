/** The invariant of the whole system and the steps that leave the disk and the log alone. */
module SystemInv {
  import opened Basics
  import opened Disk
  import opened LogSpec
  import opened Client
  import opened SystemSpec
  import M = MonitorSpec
  import P = MonitorProps

  // ---------------------------------------------------------------- the invariant, piece by piece

  /** The blocks that a transaction changes on disk when it commits. */
  predicate Dirties(tx: Tx, b: int) {
    b in tx.blocks && tx.blocks[b].lock != R_LOCK
  }

  /** Locks of a transaction that still matter are held in the monitor's table, and the table holds no others. */
  ghost predicate LocksOk(s: M.State, t: Tid, tx: Tx) {
    && (P.Live(s, t) && tx.phase != Finished ==>
          forall b :: b in tx.blocks ==>
            if tx.blocks[b].lock == R_LOCK then P.ReadHolds(s, t, b) else P.WriteHolds(s, t, b))
    && (forall b :: P.WriteHolds(s, t, b) ==> b in tx.blocks && tx.blocks[b].lock != R_LOCK)
  }

  predicate PhaseOk(s: M.State, t: Tid, tx: Tx) {
    && t in s.status
    && (tx.phase.Committing? ==> s.status[t].stat == M.COMMITTING)
    && (tx.phase == Working ==> s.status[t].stat != M.COMMITTING)
  }

  ghost predicate TxOk(d: Disk, tx: Tx) {
    && WellFormedBlocks(tx.blocks) && Simulates(tx.blocks, tx.obs)
    && forall b :: b in tx.blocks ==> b in d.index && (tx.blocks[b].oldindex == 'U' ==> b <= tx.lastFree)
  }

  function Records(ws: seq<Client.Write>): seq<Record> {
    if ws == [] then []
    else Records(ws[..|ws| - 1]) + (if ws[|ws| - 1].LogW? then [ws[|ws| - 1].rec] else [])
  }

  ghost predicate LogOk(log: seq<Record>, t: Tid, tx: Tx) {
    match tx.phase
    case Working => Open(log, t) == []
    case Finished => Open(log, t) == [] && LastOf(log, t).Some? && LastOf(log, t).value.action == LEND
    case Committing(todo) =>
      var plan := Plan(t, tx.blocks);
      && 0 < |todo| <= |plan| && todo == plan[|plan| - |todo|..]
      && Open(log, t) == Records(plan[..|plan| - |todo|])
  }

  type Txs = map<Tid, Tx>

  predicate Phased(s: M.State, txs: Txs) {
    txs.Keys == s.status.Keys && forall t :: t in txs ==> PhaseOk(s, t, txs[t])
  }

  ghost predicate Locked(s: M.State, txs: Txs) {
    forall t :: t in txs ==> LocksOk(s, t, txs[t])
  }

  ghost predicate Sound(d: Disk, txs: Txs) {
    forall t :: t in txs ==> TxOk(d, txs[t])
  }

  ghost predicate Logged(log: seq<Record>, txs: Txs) {
    && (forall t :: t in txs ==> LogOk(log, t, txs[t]))
    && (forall t :: t !in txs ==> Open(log, t) == [])
  }

  predicate InOrder(es: seq<Entry>, id: nat) { exists e :: e in es && e.id == id }

  ghost predicate Identified(txs: Txs, order: seq<Entry>, nextId: nat) {
    && (forall t :: t in txs ==> txs[t].id < nextId)
    && (forall t, u :: t in txs && u in txs && txs[t].id == txs[u].id ==> t == u)
    && (forall e :: e in order ==> e.id < nextId)
    && (forall t :: t in txs && txs[t].phase == Working ==> !InOrder(order, txs[t].id))
  }

  /** A working transaction that is not preempted still sees the saved old values. */
  ghost predicate Fresh(s: M.State, txs: Txs, v: View) {
    forall t :: t in txs && txs[t].phase == Working && P.Live(s, t) ==> Agrees(v, txs[t].blocks)
  }

  predicate Clean(txs: map<Tid, Tx>, b: int) { forall t :: t in txs ==> !Dirties(txs[t], b) }

  /** A block that tx is flushing: as far as the remaining writes say, and v already has the new contents. */
  ghost predicate BlockOnDisk(d: Disk, v: View, t: Tid, tx: Tx, b: int)
    requires b in tx.blocks
  {
    && tx.phase.Committing?
    && Flushing(CellOf(d, b), t, b, tx.blocks[b], Mine(tx.phase.todo, b))
    && Get(v, b) == After(tx.blocks[b])
  }

  /** v is the view in which every granted COMMIT has taken effect at once; txs are still flushing. */
  ghost predicate OnDisk(d: Disk, txs: map<Tid, Tx>, v: View) {
    && (forall t, b :: t in txs && Dirties(txs[t], b) ==> BlockOnDisk(d, v, t, txs[t], b))
    && (forall b {:trigger Clean(txs, b)} :: Clean(txs, b) ==> Get(ViewOf(d), b) == Get(v, b))
  }

  /** x is v with the changes of the transactions in ids taken back. */
  ghost predicate TakenBack(txs: map<Tid, Tx>, v: View, ids: set<nat>, x: View) {
    && (forall t, b :: t in txs && Dirties(txs[t], b) && txs[t].id in ids ==> Get(x, b) == Before(txs[t].blocks[b]))
    && (forall b :: (forall t :: t in txs && Dirties(txs[t], b) ==> txs[t].id !in ids) ==> Get(x, b) == Get(v, b))
  }

  /** Whichever unfinished transactions are struck out, the rest is a serial execution. */
  ghost predicate SerialOk(origin: View, order: seq<Entry>, txs: map<Tid, Tx>, v: View) {
    && Serial(origin, order) == Some(v)
    && forall ids: set<nat> {:trigger Strike(order, ids)} :: ids <= Ids(txs) ==>
         && Serial(origin, Strike(order, ids)).Some?
         && TakenBack(txs, v, ids, Serial(origin, Strike(order, ids)).value)
  }

  ghost predicate Inv(w: World, v: View) {
    && P.Inv(w.mon) && ValidDisk(w.files.disk)
    && Phased(w.mon, w.txs) && Locked(w.mon, w.txs) && Sound(w.files.disk, w.txs)
    && Logged(w.files.log, w.txs) && Identified(w.txs, w.order, w.nextId) && Fresh(w.mon, w.txs, v)
    && OnDisk(w.files.disk, Unfinished(w), v)
    && SerialOk(w.origin, w.order, Unfinished(w), v)
  }

  // ---------------------------------------------------------------- small facts

  /** A block that one transaction changes is held by no other that still matters. */
  lemma Exclusive(s: M.State, txs: Txs, t: Tid, u: Tid, b: int)
    requires P.Inv(s) && Locked(s, txs)
    requires t in txs && P.Live(s, t) && txs[t].phase != Finished && Dirties(txs[t], b)
    requires u in txs && P.Live(s, u) && txs[u].phase != Finished && b in txs[u].blocks
    ensures t == u
  {
    assert LocksOk(s, t, txs[t]) && LocksOk(s, u, txs[u]);
    assert P.WriteHolds(s, t, b);
    assert P.HoldersOk(s.status, s.blockmap[b]);
  }

  lemma CommittingLive(s: M.State, txs: Txs, t: Tid)
    requires Phased(s, txs) && t in txs && txs[t].phase.Committing?
    ensures P.Live(s, t)
  {
    assert PhaseOk(s, t, txs[t]);
  }

  lemma DirtyByOne(s: M.State, txs: Txs, t: Tid, u: Tid, b: int)
    requires P.Inv(s) && Phased(s, txs) && Locked(s, txs)
    requires t in txs && txs[t].phase.Committing? && Dirties(txs[t], b)
    requires u in txs && txs[u].phase.Committing? && Dirties(txs[u], b)
    ensures t == u
  {
    CommittingLive(s, txs, t);
    CommittingLive(s, txs, u);
    Exclusive(s, txs, t, u, b);
  }

  lemma {:induction false} StrikeNone(es: seq<Entry>)
    ensures Strike(es, {}) == es
  {
    if es != [] {
      StrikeNone(es[..|es| - 1]);
      assert es == es[..|es| - 1] + [es[|es| - 1]];
    }
  }

  lemma {:induction false} StrikeMore(es: seq<Entry>, ids: set<nat>, more: set<nat>)
    ensures Strike(Strike(es, ids), more) == Strike(es, ids + more)
  {
    if es != [] {
      var init, e := es[..|es| - 1], es[|es| - 1];
      StrikeMore(init, ids, more);
      if e.id !in ids {
        assert Strike(es, ids)[..|Strike(init, ids)|] == Strike(init, ids);
      }
      assert e.id !in ids ==> Strike(es, ids) == Strike(init, ids) + [e];
    }
  }

  lemma {:induction false} StrikeAbsent(es: seq<Entry>, ids: set<nat>, id: nat)
    requires !InOrder(es, id)
    ensures Strike(es, ids + {id}) == Strike(es, ids)
  {
    if es != [] {
      assert es[|es| - 1] in es;
      forall e | e in es[..|es| - 1]
        ensures e.id != id
      {
        assert e in es;
      }
      StrikeAbsent(es[..|es| - 1], ids, id);
    }
  }

  lemma {:induction false} StrikeMember(es: seq<Entry>, ids: set<nat>, e: Entry)
    ensures e in Strike(es, ids) <==> e in es && e.id !in ids
  {
    if es != [] {
      StrikeMember(es[..|es| - 1], ids, e);
      assert es == es[..|es| - 1] + [es[|es| - 1]];
    }
  }

  // ---------------------------------------------------------------- steps that touch neither disk nor log

  /** The monitor moves and one working transaction changes; nothing else. */
  ghost predicate Quiet(w: World, v: View, s: M.State, t: Tid, tx: Tx) {
    && P.Inv(s) && s.status.Keys == w.mon.status.Keys
    && t in w.txs && tx.phase == w.txs[t].phase && tx.id == w.txs[t].id
    && (tx.phase == Working || tx == w.txs[t])
    && TxOk(w.files.disk, tx)
    && Phased(s, w.txs)
    && Locked(s, w.txs[t := tx])
    && (forall u :: P.Live(s, u) ==> P.Live(w.mon, u))
    && (tx.phase == Working && P.Live(s, t) ==> Agrees(v, tx.blocks))
  }

  lemma QuietPhased(s: M.State, txs: Txs, t: Tid, tx: Tx)
    requires Phased(s, txs) && t in txs && tx.phase == txs[t].phase
    ensures Phased(s, txs[t := tx])
  {
    assert PhaseOk(s, t, txs[t]);
  }

  lemma QuietSound(d: Disk, txs: Txs, t: Tid, tx: Tx)
    requires Sound(d, txs) && TxOk(d, tx)
    ensures Sound(d, txs[t := tx])
  {}

  lemma QuietLocked(s: M.State, txs: Txs, t: Tid, tx: Tx)
    requires LocksOk(s, t, tx) && forall u :: u in txs && u != t ==> LocksOk(s, u, txs[u])
    ensures Locked(s, txs[t := tx])
  {}

  lemma QuietLogged(log: seq<Record>, txs: Txs, t: Tid, tx: Tx)
    requires Logged(log, txs) && t in txs && tx.phase == txs[t].phase && (tx.phase == Working || tx == txs[t])
    ensures Logged(log, txs[t := tx])
  {
    assert LogOk(log, t, txs[t]);
  }

  lemma QuietIds(txs: Txs, order: seq<Entry>, n: nat, t: Tid, tx: Tx)
    requires Identified(txs, order, n) && t in txs && tx.phase == txs[t].phase && tx.id == txs[t].id
    ensures Identified(txs[t := tx], order, n)
  {}

  lemma QuietFresh(w: World, v: View, s: M.State, t: Tid, tx: Tx)
    requires Fresh(w.mon, w.txs, v)
    requires forall u :: P.Live(s, u) ==> P.Live(w.mon, u)
    requires tx.phase == Working && P.Live(s, t) ==> Agrees(v, tx.blocks)
    ensures Fresh(s, w.txs[t := tx], v)
  {}

  lemma QuietUnfinished(w: World, s: M.State, t: Tid, tx: Tx)
    requires t in w.txs && tx.phase == w.txs[t].phase && (tx.phase == Working || tx == w.txs[t])
    ensures Unfinished(w.(mon := s, txs := w.txs[t := tx])) == Unfinished(w)
  {}

  lemma QuietStep(w: World, v: View, s: M.State, t: Tid, tx: Tx)
    requires Inv(w, v) && Quiet(w, v, s, t, tx)
    ensures Inv(w.(mon := s, txs := w.txs[t := tx]), v)
  {
    QuietPhased(s, w.txs, t, tx);
    QuietSound(w.files.disk, w.txs, t, tx);
    QuietLogged(w.files.log, w.txs, t, tx);
    QuietIds(w.txs, w.order, w.nextId, t, tx);
    QuietFresh(w, v, s, t, tx);
    QuietUnfinished(w, s, t, tx);
  }
}
