/** Connecting, and being granted COMMIT. */
module SystemCommit {
  import opened Basics
  import opened Disk
  import opened LogSpec
  import opened Client
  import opened SystemSpec
  import opened SystemInv
  import M = MonitorSpec
  import P = MonitorProps

  // ---------------------------------------------------------------- a new connection

  lemma ConnectMonitor(s: M.State, txs: Txs, fd: int, pid: int, now: int, tx: Tx)
    requires P.Inv(s) && Phased(s, txs) && Locked(s, txs)
    requires tx.blocks == map[] && tx.phase == Working
    ensures s.nextTid !in txs
    ensures var s' := M.BeginRq(s, fd, pid, now); var all := txs[s.nextTid := tx];
            P.Inv(s') && Phased(s', all) && Locked(s', all)
            && forall u :: u in txs && P.Live(s', u) ==> P.Live(s, u)
  {
    var s', all := M.BeginRq(s, fd, pid, now), txs[s.nextTid := tx];
    assert M.Process(s, M.Request(0, pid, M.BEGIN, 0), fd, now) == M.Handled(s', M.OK);
    P.ProcessInv(s, M.Request(0, pid, M.BEGIN, 0), fd, now);
    forall u | u in all
      ensures PhaseOk(s', u, all[u]) && LocksOk(s', u, all[u])
    {
      if u != s.nextTid {
        assert PhaseOk(s, u, txs[u]) && LocksOk(s, u, txs[u]);
      } else {
        forall b
          ensures !P.WriteHolds(s', u, b)
        {
          if b in s.blockmap {
            assert P.HoldersOk(s.status, s.blockmap[b]);
          }
        }
      }
    }
  }

  lemma ConnectIds(txs: Txs, order: seq<Entry>, n: nat, t: Tid, tx: Tx)
    requires Identified(txs, order, n) && t !in txs && tx.id == n
    ensures Identified(txs[t := tx], order, n + 1)
  {}

  lemma ConnectLogged(log: seq<Record>, txs: Txs, t: Tid, tx: Tx)
    requires Logged(log, txs) && t !in txs && tx.phase == Working
    ensures Logged(log, txs[t := tx])
  {}

  lemma ConnectFresh(s: M.State, s': M.State, txs: Txs, v: View, t: Tid, tx: Tx)
    requires Fresh(s, txs, v) && tx.blocks == map[] && forall u :: u in txs && P.Live(s', u) ==> P.Live(s, u)
    ensures Fresh(s', txs[t := tx], v)
  {}

  lemma ConnectSound(d: Disk, txs: Txs, t: Tid, id: nat)
    requires Sound(d, txs)
    ensures Sound(d, txs[t := Tx(id, map[], [], 0, Working)])
  {
    SimulatesNothing();
    QuietSound(d, txs, t, Tx(id, map[], [], 0, Working));
  }

  lemma ConnectUnfinished(w: World, fd: int, pid: int, now: int)
    requires w.mon.nextTid !in w.txs
    ensures Unfinished(StepConnect(w, fd, pid, now)) == Unfinished(w)
  {}

  lemma ConnectStep(w: World, v: View, fd: int, pid: int, now: int)
    requires Inv(w, v)
    ensures Inv(StepConnect(w, fd, pid, now), v)
  {
    var t, tx := w.mon.nextTid, Tx(w.nextId, map[], [], 0, Working);
    ConnectMonitor(w.mon, w.txs, fd, pid, now, tx);
    ConnectSound(w.files.disk, w.txs, t, w.nextId);
    ConnectIds(w.txs, w.order, w.nextId, t, tx);
    ConnectLogged(w.files.log, w.txs, t, tx);
    ConnectFresh(w.mon, M.BeginRq(w.mon, fd, pid, now), w.txs, v, t, tx);
    ConnectUnfinished(w, fd, pid, now);
  }

  // ---------------------------------------------------------------- COMMIT granted

  function Started(t: Tid, tx: Tx): Tx {
    tx.(phase := Committing(Plan(t, tx.blocks)))
  }

  lemma CommitMonitor(s: M.State, txs: Txs, rq: M.Request, who: int)
    requires P.Inv(s) && Phased(s, txs) && Locked(s, txs) && P.OwnTid(s, rq, who)
    requires rq.tid in txs && txs[rq.tid].phase == Working && rq.kind == M.COMMIT
    ensures var o, all := M.Process(s, rq, who, 0), txs[rq.tid := Started(rq.tid, txs[rq.tid])];
            if P.Live(s, rq.tid) then
              && o.Handled? && o.reply == M.OK && P.Inv(o.state) && Phased(o.state, all) && Locked(o.state, all)
              && forall u :: P.Live(o.state, u) ==> P.Live(s, u)
            else o == M.Handled(s, M.DIE)
  {
    var o, all := M.Process(s, rq, who, 0), txs[rq.tid := Started(rq.tid, txs[rq.tid])];
    assert PhaseOk(s, rq.tid, txs[rq.tid]);
    P.ProcessInv(s, rq, who, 0);
    forall u | u in txs && P.Live(s, rq.tid)
      ensures PhaseOk(o.state, u, all[u]) && LocksOk(o.state, u, all[u])
    {
      assert PhaseOk(s, u, txs[u]) && LocksOk(s, u, txs[u]);
    }
  }

  lemma CommitLogged(log: seq<Record>, txs: Txs, t: Tid)
    requires Logged(log, txs) && t in txs && txs[t].phase == Working
    ensures Logged(log, txs[t := Started(t, txs[t])])
  {
    assert LogOk(log, t, txs[t]);
    assert LogOk(log, t, Started(t, txs[t]));
  }

  lemma CommitIds(txs: Txs, order: seq<Entry>, n: nat, t: Tid)
    requires Identified(txs, order, n) && t in txs
    ensures Identified(txs[t := Started(t, txs[t])], order + [Entry(txs[t].id, txs[t].obs)], n)
  {
    var all, es := txs[t := Started(t, txs[t])], order + [Entry(txs[t].id, txs[t].obs)];
    forall u | u in all && all[u].phase == Working
      ensures !InOrder(es, all[u].id)
    {
      assert u in txs && u != t && txs[u].id != txs[t].id;
    }
  }

  lemma CommitFresh(s: M.State, s': M.State, txs: Txs, v: View, t: Tid)
    requires P.Inv(s) && Locked(s, txs) && Fresh(s, txs, v)
    requires t in txs && txs[t].phase == Working && P.Live(s, t)
    requires WellFormedBlocks(txs[t].blocks)
    requires forall u :: P.Live(s', u) ==> P.Live(s, u)
    ensures Fresh(s', txs[t := Started(t, txs[t])], Overlay(v, txs[t].blocks))
  {
    var all, bs := txs[t := Started(t, txs[t])], txs[t].blocks;
    forall u, b | u in txs && u != t && txs[u].phase == Working && P.Live(s', u) && b in txs[u].blocks
      ensures Get(Overlay(v, bs), b) == Before(txs[u].blocks[b])
    {
      assert Agrees(v, txs[u].blocks) && Agrees(v, bs);
      OverlayAt(v, bs, b);
      if b in bs {
        if Dirties(txs[t], b) {
          Exclusive(s, txs, t, u, b);
        }
        assert WellFormed(bs[b]);
      }
    }
  }

  lemma RestoredAtStart(d: Disk, b: int, mb: MBlock)
    requires ValidDisk(d) && b in d.index && WellFormed(mb) && Get(ViewOf(d), b) == Before(mb)
    ensures Restored(CellOf(d, b), mb) && CellOf(d, b).val.Some?
  {
    ViewAt(d, b);
  }

  /** The transactions that are still flushing leave the blocks of tx alone. */
  ghost predicate Apart(txs: Txs, tx: Tx) {
    forall u, b :: u in txs && Dirties(txs[u], b) ==> b !in tx.blocks
  }

  lemma CommitApart(w: World, t: Tid)
    requires P.Inv(w.mon) && Phased(w.mon, w.txs) && Locked(w.mon, w.txs)
    requires t in w.txs && w.txs[t].phase == Working && P.Live(w.mon, t)
    ensures Apart(Unfinished(w), w.txs[t]) && t !in Unfinished(w)
  {
    forall u, b | u in Unfinished(w) && Dirties(Unfinished(w)[u], b)
      ensures b !in w.txs[t].blocks
    {
      CommittingLive(w.mon, w.txs, u);
      if b in w.txs[t].blocks {
        Exclusive(w.mon, w.txs, u, t, b);
      }
    }
  }

  lemma CommitOwn(d: Disk, txs: Txs, v: View, t: Tid, tx: Tx, b: int)
    requires ValidDisk(d) && OnDisk(d, txs, v) && TxOk(d, tx) && Agrees(v, tx.blocks) && Apart(txs, tx)
    requires b in tx.blocks
    ensures Flushing(CellOf(d, b), t, b, tx.blocks[b], Mine(Plan(t, tx.blocks), b))
  {
    assert Clean(txs, b);
    assert WellFormed(tx.blocks[b]);
    RestoredAtStart(d, b, tx.blocks[b]);
    FlushStarts(CellOf(d, b), t, b, tx.blocks[b]);
    MinePlan(t, tx.blocks, b);
  }

  lemma CommitClean(d: Disk, txs: Txs, v: View, t: Tid, tx: Tx, b: int)
    requires OnDisk(d, txs, v) && WellFormedBlocks(tx.blocks) && Agrees(v, tx.blocks) && t !in txs
    requires Clean(txs[t := tx], b)
    ensures Get(ViewOf(d), b) == Get(Overlay(v, tx.blocks), b)
  {
    var all := txs[t := tx];
    forall u | u in txs
      ensures !Dirties(txs[u], b)
    {
      assert u in all && !Dirties(all[u], b);
    }
    assert Clean(txs, b);
    assert t in all && !Dirties(all[t], b);
    OverlayAt(v, tx.blocks, b);
    if b in tx.blocks {
      assert WellFormed(tx.blocks[b]);
    }
  }

  lemma CommitOnDisk(d: Disk, txs: Txs, v: View, t: Tid, tx: Tx)
    requires ValidDisk(d) && OnDisk(d, txs, v) && TxOk(d, tx) && Agrees(v, tx.blocks) && Apart(txs, tx) && t !in txs
    ensures OnDisk(d, txs[t := Started(t, tx)], Overlay(v, tx.blocks))
  {
    var all, bs := txs[t := Started(t, tx)], tx.blocks;
    forall u, b | u in all && Dirties(all[u], b)
      ensures BlockOnDisk(d, Overlay(v, bs), u, all[u], b)
    {
      OverlayAt(v, bs, b);
      if u == t {
        CommitOwn(d, txs, v, t, tx, b);
      } else {
        assert BlockOnDisk(d, v, u, txs[u], b);
      }
    }
    forall b | Clean(all, b)
      ensures Get(ViewOf(d), b) == Get(Overlay(v, bs), b)
    {
      CommitClean(d, txs, v, t, Started(t, tx), b);
    }
  }

  // ---------------------------------------------------------------- the serial order grows

  /** tx joins the order: its blocks are untouched by the transactions that are still flushing. */
  ghost predicate Joins(txs: Txs, v: View, order: seq<Entry>, t: Tid, tx: Tx) {
    && Agrees(v, tx.blocks) && Simulates(tx.blocks, tx.obs) && WellFormedBlocks(tx.blocks)
    && !InOrder(order, tx.id) && t !in txs && Apart(txs, tx)
  }

  lemma SerialSnoc(origin: View, es: seq<Entry>, e: Entry, bs: Blocks)
    requires Serial(origin, es).Some? && Agrees(Serial(origin, es).value, bs) && Simulates(bs, e.obs)
    ensures Serial(origin, es + [e]) == Some(Overlay(Serial(origin, es).value, bs))
  {
    assert (es + [e])[..|es|] == es;
    assert Replay(Serial(origin, es).value, e.obs) == Some(Overlay(Serial(origin, es).value, bs));
  }

  /** It stays while others are struck out. */
  lemma JoinKept(txs: Txs, v: View, order: seq<Entry>, t: Tid, tx: Tx, ids: set<nat>, x: View)
    requires Joins(txs, v, order, t, tx) && TakenBack(txs, v, ids, x) && tx.id !in ids
    ensures Agrees(x, tx.blocks)
    ensures TakenBack(txs[t := tx], Overlay(v, tx.blocks), ids, Overlay(x, tx.blocks))
  {
    var all := txs[t := tx];
    forall b | b in tx.blocks
      ensures Get(x, b) == Get(v, b)
    {
    }
    forall u, b | u in all && Dirties(all[u], b) && all[u].id in ids
      ensures Get(Overlay(x, tx.blocks), b) == Before(all[u].blocks[b])
    {
      assert u in txs && u != t;
      OverlayAt(x, tx.blocks, b);
    }
    forall b | forall u :: u in all && Dirties(all[u], b) ==> all[u].id !in ids
      ensures Get(Overlay(x, tx.blocks), b) == Get(Overlay(v, tx.blocks), b)
    {
      OverlayAt(x, tx.blocks, b);
      OverlayAt(v, tx.blocks, b);
      forall u | u in txs && Dirties(txs[u], b)
        ensures txs[u].id !in ids
      {
        assert u in all && all[u] == txs[u];
      }
    }
  }

  /** It is itself struck out. */
  lemma JoinTakenBack(txs: Txs, v: View, order: seq<Entry>, t: Tid, tx: Tx, ids: set<nat>, x: View)
    requires Joins(txs, v, order, t, tx) && TakenBack(txs, v, ids, x) && tx.id !in Ids(txs)
    ensures TakenBack(txs[t := tx], Overlay(v, tx.blocks), ids + {tx.id}, x)
  {
    var all := txs[t := tx];
    forall u, b | u in all && Dirties(all[u], b) && all[u].id in ids + {tx.id}
      ensures Get(x, b) == Before(all[u].blocks[b])
    {
      if u == t {
        assert Get(x, b) == Get(v, b);
      } else {
        assert txs[u].id in Ids(txs);
      }
    }
    forall b | forall u :: u in all && Dirties(all[u], b) ==> all[u].id !in ids + {tx.id}
      ensures Get(x, b) == Get(Overlay(v, tx.blocks), b)
    {
      OverlayAt(v, tx.blocks, b);
      forall u | u in txs && Dirties(txs[u], b)
        ensures txs[u].id !in ids
      {
        assert u in all && all[u] == txs[u];
      }
      assert t in all && !Dirties(all[t], b);
      if b in tx.blocks {
        assert WellFormed(tx.blocks[b]);
      }
    }
  }

  lemma JoinIds(txs: Txs, t: Tid, tx: Tx, ids: set<nat>)
    requires ids <= Ids(txs[t := tx])
    ensures ids - {tx.id} <= Ids(txs)
  {
    var all := txs[t := tx];
    forall i | i in ids - {tx.id}
      ensures i in Ids(txs)
    {
      var u :| u in all && all[u].id == i;
      assert u in txs;
    }
  }

  lemma CommitSerial(origin: View, order: seq<Entry>, txs: Txs, v: View, t: Tid, tx: Tx)
    requires SerialOk(origin, order, txs, v) && Joins(txs, v, order, t, tx) && tx.id !in Ids(txs)
    ensures SerialOk(origin, order + [Entry(tx.id, tx.obs)], txs[t := tx], Overlay(v, tx.blocks))
  {
    var e, es := Entry(tx.id, tx.obs), order + [Entry(tx.id, tx.obs)];
    SerialSnoc(origin, order, e, tx.blocks);
    forall ids: set<nat> | ids <= Ids(txs[t := tx])
      ensures Serial(origin, Strike(es, ids)).Some?
      ensures TakenBack(txs[t := tx], Overlay(v, tx.blocks), ids, Serial(origin, Strike(es, ids)).value)
    {
      assert es[..|order|] == order;
      var rest := ids - {tx.id};
      JoinIds(txs, t, tx, ids);
      assert Serial(origin, Strike(order, rest)).Some?;
      var x := Serial(origin, Strike(order, rest)).value;
      if tx.id in ids {
        StrikeAbsent(order, rest, tx.id);
        assert rest + {tx.id} == ids;
        JoinTakenBack(txs, v, order, t, tx, rest, x);
      } else {
        assert rest == ids;
        JoinKept(txs, v, order, t, tx, ids, x);
        SerialSnoc(origin, Strike(order, ids), e, tx.blocks);
      }
    }
  }

  // ---------------------------------------------------------------- the step

  lemma CommitUnfinished(w: World, s: M.State, t: Tid, es: seq<Entry>)
    requires t in w.txs
    ensures Unfinished(w.(mon := s, txs := w.txs[t := Started(t, w.txs[t])], order := es)) ==
            Unfinished(w)[t := Started(t, w.txs[t])]
  {}

  lemma SoundStarted(d: Disk, txs: Txs, t: Tid)
    requires Sound(d, txs) && t in txs
    ensures Sound(d, txs[t := Started(t, txs[t])])
  {
    assert TxOk(d, txs[t]);
    QuietSound(d, txs, t, Started(t, txs[t]));
  }

  lemma CommitJoins(w: World, v: View, t: Tid)
    requires P.Inv(w.mon) && Phased(w.mon, w.txs) && Locked(w.mon, w.txs) && Sound(w.files.disk, w.txs)
    requires Identified(w.txs, w.order, w.nextId) && Fresh(w.mon, w.txs, v)
    requires t in w.txs && w.txs[t].phase == Working && P.Live(w.mon, t)
    ensures Joins(Unfinished(w), v, w.order, t, Started(t, w.txs[t])) && w.txs[t].id !in Ids(Unfinished(w))
    ensures Agrees(v, w.txs[t].blocks) && TxOk(w.files.disk, w.txs[t]) && Apart(Unfinished(w), w.txs[t])
  {
    CommitApart(w, t);
    assert TxOk(w.files.disk, w.txs[t]) && Agrees(v, w.txs[t].blocks);
  }

  lemma CommitData(w: World, v: View, t: Tid)
    requires Inv(w, v) && t in w.txs && w.txs[t].phase == Working && P.Live(w.mon, t)
    ensures WellFormedBlocks(w.txs[t].blocks)
    ensures OnDisk(w.files.disk, Unfinished(w)[t := Started(t, w.txs[t])], Overlay(v, w.txs[t].blocks))
    ensures SerialOk(w.origin, w.order + [Entry(w.txs[t].id, w.txs[t].obs)],
                     Unfinished(w)[t := Started(t, w.txs[t])], Overlay(v, w.txs[t].blocks))
  {
    CommitJoins(w, v, t);
    CommitOnDisk(w.files.disk, Unfinished(w), v, t, w.txs[t]);
    CommitSerial(w.origin, w.order, Unfinished(w), v, t, Started(t, w.txs[t]));
  }

  ghost predicate CommitAllowed(s: M.State, s': M.State, txs: Txs, t: Tid)
    requires t in txs
  {
    && P.Inv(s') && Phased(s', txs[t := Started(t, txs[t])]) && Locked(s', txs[t := Started(t, txs[t])])
    && forall u :: P.Live(s', u) ==> P.Live(s, u)
  }

  lemma CommitGranted(w: World, v: View, s: M.State, t: Tid)
    requires Inv(w, v) && t in w.txs && w.txs[t].phase == Working && P.Live(w.mon, t)
    requires CommitAllowed(w.mon, s, w.txs, t)
    ensures Inv(w.(mon := s, txs := w.txs[t := Started(t, w.txs[t])],
                   order := w.order + [Entry(w.txs[t].id, w.txs[t].obs)]), Overlay(v, w.txs[t].blocks))
  {
    CommitData(w, v, t);
    SoundStarted(w.files.disk, w.txs, t);
    CommitLogged(w.files.log, w.txs, t);
    CommitIds(w.txs, w.order, w.nextId, t);
    CommitFresh(w.mon, s, w.txs, v, t);
    CommitUnfinished(w, s, t, w.order + [Entry(w.txs[t].id, w.txs[t].obs)]);
  }

  lemma CommitStep(w: World, v: View, fd: int) returns (next: View)
    requires Inv(w, v) && Connected(w, fd) && TxOf(w, fd).phase == Working
    ensures Inv(StepCommit(w, fd), next)
  {
    var rq := Ask(w, fd, M.COMMIT, 0);
    CommitMonitor(w.mon, w.txs, rq, fd);
    if P.Live(w.mon, rq.tid) {
      CommitGranted(w, v, M.Process(w.mon, rq, fd, 0).state, rq.tid);
      next := Overlay(v, w.txs[rq.tid].blocks);
    } else {
      next := v;
    }
  }
}
