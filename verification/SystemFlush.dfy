/** The writes of commit(), one at a time, and block writes cut short. */
module SystemFlush {
  import opened Basics
  import opened Disk
  import opened LogSpec
  import opened Client
  import opened Recovery
  import opened SystemSpec
  import opened SystemInv
  import M = MonitorSpec
  import P = MonitorProps

  /** One write further. */
  function Flushed(tx: Tx): Tx
    requires tx.phase.Committing? && tx.phase.todo != []
  {
    tx.(phase := if |tx.phase.todo| == 1 then Finished else Committing(tx.phase.todo[1..]))
  }

  /** The remaining writes are a tail of the plan. */
  predicate OnPlan(t: Tid, tx: Tx) {
    && tx.phase.Committing?
    && 0 < |tx.phase.todo| <= |Plan(t, tx.blocks)|
    && tx.phase.todo == Plan(t, tx.blocks)[|Plan(t, tx.blocks)| - |tx.phase.todo|..]
  }

  function Head(tx: Tx): Client.Write
    requires tx.phase.Committing? && tx.phase.todo != []
  {
    tx.phase.todo[0]
  }

  lemma HeadShape(t: Tid, tx: Tx)
    requires OnPlan(t, tx)
    ensures |tx.phase.todo| == 1 <==> Head(tx) == LogW(EndRecord(t))
    ensures Head(tx).LogW? ==> Head(tx).rec.tid == t
    ensures Head(tx).LogW? && |tx.phase.todo| > 1 ==> !Terminates(Head(tx).rec, t)
    ensures !Head(tx).LogW? ==> Dirties(tx, Head(tx).block)
    ensures Head(tx).IndexW? ==> Head(tx).c == 'A' || Head(tx).c == 'U'
  {
    PlanShape(t, tx.blocks, |Plan(t, tx.blocks)| - |tx.phase.todo|);
  }

  // ---------------------------------------------------------------- the log

  lemma RecordsStep(plan: seq<Client.Write>, n: nat)
    requires n < |plan|
    ensures Records(plan[..n + 1]) == Records(plan[..n]) + (if plan[n].LogW? then [plan[n].rec] else [])
    ensures plan[n..][0] == plan[n] && plan[n..][1..] == plan[n + 1..]
  {
    assert plan[..n + 1][..n] == plan[..n];
  }

  lemma FlushedLog(log: seq<Record>, t: Tid, tx: Tx)
    requires LogOk(log, t, tx) && tx.phase.Committing?
    ensures LogOk(if Head(tx).LogW? then log + [Head(tx).rec] else log, t, Flushed(tx))
  {
    HeadShape(t, tx);
    RecordsStep(Plan(t, tx.blocks), |Plan(t, tx.blocks)| - |tx.phase.todo|);
    if Head(tx).LogW? {
      OpenSnoc(log, Head(tx).rec, t);
    }
  }

  lemma OtherLog(log: seq<Record>, r: Record, u: Tid, ux: Tx)
    requires LogOk(log, u, ux) && r.tid != u
    ensures LogOk(log + [r], u, ux)
  {
    OpenSnoc(log, r, u);
    assert (log + [r])[..|log|] == log;
  }

  lemma FlushLogged(log: seq<Record>, txs: Txs, t: Tid)
    requires Logged(log, txs) && t in txs && txs[t].phase.Committing?
    ensures OnPlan(t, txs[t])
    ensures Logged(if Head(txs[t]).LogW? then log + [Head(txs[t]).rec] else log, txs[t := Flushed(txs[t])])
  {
    var w, all := Head(txs[t]), txs[t := Flushed(txs[t])];
    var log' := if w.LogW? then log + [w.rec] else log;
    assert LogOk(log, t, txs[t]);
    HeadShape(t, txs[t]);
    forall u
      ensures if u in all then LogOk(log', u, all[u]) else Open(log', u) == []
    {
      if u == t {
        FlushedLog(log, t, txs[t]);
      } else if u in txs {
        assert LogOk(log, u, txs[u]);
        if w.LogW? {
          OtherLog(log, w.rec, u, txs[u]);
        }
      } else if w.LogW? {
        OpenSnoc(log, w.rec, u);
      }
    }
  }

  // ---------------------------------------------------------------- the disk

  lemma WriteKeepsDisk(d: Disk, w: Client.Write)
    requires ValidDisk(d) && (!w.LogW? ==> w.block in d.index) && (w.IndexW? ==> w.c == 'A' || w.c == 'U')
    ensures ValidDisk(WriteDisk(d, w)) && WriteDisk(d, w).index.Keys == d.index.Keys
  {}

  lemma SoundKeys(d: Disk, e: Disk, txs: Txs)
    requires Sound(d, txs) && d.index.Keys == e.index.Keys
    ensures Sound(e, txs)
  {
    forall t | t in txs
      ensures TxOk(e, txs[t])
    {
      assert TxOk(d, txs[t]);
    }
  }

  /** No two of the flushing transactions change one block. */
  ghost predicate Disjoint(txs: Txs) {
    forall t, u, b :: t in txs && u in txs && Dirties(txs[t], b) && Dirties(txs[u], b) ==> t == u
  }

  lemma UnfinishedDisjoint(w: World)
    requires P.Inv(w.mon) && Phased(w.mon, w.txs) && Locked(w.mon, w.txs)
    ensures Disjoint(Unfinished(w))
  {
    forall t, u, b | t in Unfinished(w) && u in Unfinished(w) && Dirties(w.txs[t], b) && Dirties(w.txs[u], b)
      ensures t == u
    {
      DirtyByOne(w.mon, w.txs, t, u, b);
    }
  }

  lemma FlushOwn(d: Disk, v: View, t: Tid, tx: Tx, b: int)
    requires OnPlan(t, tx) && WellFormedBlocks(tx.blocks) && Dirties(tx, b) && BlockOnDisk(d, v, t, tx, b)
    ensures Flushing(CellOf(WriteDisk(d, Head(tx)), b), t, b, tx.blocks[b], Mine(tx.phase.todo[1..], b))
  {
    var c, mb, todo := CellOf(d, b), tx.blocks[b], tx.phase.todo;
    WriteDiskAt(d, todo[0], b);
    assert WellFormed(mb);
    if BlockOf(todo[0]) == b {
      FlushStep(c, t, b, mb, Mine(todo, b));
      assert Mine(todo, b) == [todo[0]] + Mine(todo[1..], b);
      assert Mine(todo, b)[1..] == Mine(todo[1..], b);
    }
  }

  /** A write of t is not a write to a block that t does not dirty. */
  lemma FlushElsewhere(d: Disk, t: Tid, tx: Tx, b: int)
    requires OnPlan(t, tx) && !Dirties(tx, b)
    ensures CellOf(WriteDisk(d, Head(tx)), b) == CellOf(d, b)
  {
    HeadShape(t, tx);
    WriteDiskAt(d, Head(tx), b);
  }

  lemma CleanStill(txs: Txs, all: Txs, b: int)
    requires txs.Keys == all.Keys && forall u :: u in txs ==> txs[u].blocks == all[u].blocks
    requires Clean(all, b)
    ensures Clean(txs, b)
  {
    forall u | u in txs
      ensures !Dirties(txs[u], b)
    {
      assert !Dirties(all[u], b);
    }
  }

  lemma FlushOnDisk(d: Disk, txs: Txs, v: View, t: Tid)
    requires OnDisk(d, txs, v) && Disjoint(txs) && t in txs && OnPlan(t, txs[t]) && WellFormedBlocks(txs[t].blocks)
    requires |txs[t].phase.todo| > 1
    ensures OnDisk(WriteDisk(d, Head(txs[t])), txs[t := Flushed(txs[t])], v)
  {
    var tx := txs[t];
    var e, all := WriteDisk(d, Head(tx)), txs[t := Flushed(tx)];
    forall u, b | u in all && Dirties(all[u], b)
      ensures BlockOnDisk(e, v, u, all[u], b)
    {
      assert Dirties(txs[u], b) && BlockOnDisk(d, v, u, txs[u], b);
      if u == t {
        FlushOwn(d, v, t, tx, b);
      } else {
        FlushElsewhere(d, t, tx, b);
      }
    }
    forall b | Clean(all, b)
      ensures Get(ViewOf(e), b) == Get(v, b)
    {
      assert !Dirties(all[t], b);
      CleanStill(txs, all, b);
      FlushElsewhere(d, t, tx, b);
      ViewAt(d, b);
      ViewAt(e, b);
    }
  }

  lemma FinishBlock(d: Disk, v: View, t: Tid, tx: Tx, b: int)
    requires OnPlan(t, tx) && WellFormedBlocks(tx.blocks) && |tx.phase.todo| == 1
    requires Dirties(tx, b) && BlockOnDisk(d, v, t, tx, b)
    ensures Get(ViewOf(d), b) == Get(v, b)
  {
    HeadShape(t, tx);
    assert WellFormed(tx.blocks[b]);
    assert tx.phase.todo == [LogW(EndRecord(t))];
    assert Mine(tx.phase.todo, b) == [];
    FlushDone(CellOf(d, b), t, b, tx.blocks[b]);
    ViewAt(d, b);
  }

  /** With LEND logged, every block of the transaction shows its new contents. */
  lemma FinishOnDisk(d: Disk, txs: Txs, v: View, t: Tid)
    requires OnDisk(d, txs, v) && t in txs && OnPlan(t, txs[t]) && WellFormedBlocks(txs[t].blocks)
    requires |txs[t].phase.todo| == 1
    ensures OnDisk(d, txs - {t}, v)
  {
    var tx := txs[t];
    var all := txs - {t};
    forall b | Clean(all, b)
      ensures Get(ViewOf(d), b) == Get(v, b)
    {
      if Dirties(tx, b) {
        FinishBlock(d, v, t, tx, b);
      } else {
        forall u | u in txs
          ensures !Dirties(txs[u], b)
        {
          if u != t {
            assert u in all && !Dirties(all[u], b);
          }
        }
        assert Clean(txs, b);
      }
    }
    forall u, b | u in all && Dirties(all[u], b)
      ensures BlockOnDisk(d, v, u, all[u], b)
    {
      assert u in txs && BlockOnDisk(d, v, u, txs[u], b);
    }
  }

  lemma TearOnDisk(d: Disk, txs: Txs, v: View, t: Tid, junk: Contents)
    requires OnDisk(d, txs, v) && Disjoint(txs) && t in txs && OnPlan(t, txs[t]) && WellFormedBlocks(txs[t].blocks)
    requires Head(txs[t]).StoreW?
    ensures OnDisk(WriteDisk(d, StoreW(Head(txs[t]).block, junk)), txs, v)
  {
    var tx := txs[t];
    var k := Head(tx).block;
    var e := WriteDisk(d, StoreW(k, junk));
    HeadShape(t, tx);
    forall u, b | u in txs && Dirties(txs[u], b)
      ensures BlockOnDisk(e, v, u, txs[u], b)
    {
      assert BlockOnDisk(d, v, u, txs[u], b);
      WriteDiskAt(d, StoreW(k, junk), b);
      if b == k {
        assert WellFormed(tx.blocks[b]);
        FlushTorn(CellOf(d, b), t, b, tx.blocks[b], Mine(tx.phase.todo, b), junk);
      }
    }
    forall b | Clean(txs, b)
      ensures Get(ViewOf(e), b) == Get(v, b)
    {
      assert b != k;
      WriteDiskAt(d, StoreW(k, junk), b);
      ViewAt(d, b);
      ViewAt(e, b);
    }
  }

  // ---------------------------------------------------------------- the serial order

  /** Fewer transactions are unfinished; the rest is as before. */
  lemma SerialRestrict(origin: View, order: seq<Entry>, txs: Txs, all: Txs, v: View)
    requires SerialOk(origin, order, txs, v)
    requires all.Keys <= txs.Keys
    requires forall u :: u in all ==> all[u].id == txs[u].id && all[u].blocks == txs[u].blocks
    requires forall t, u :: t in txs && u in txs && txs[t].id == txs[u].id ==> t == u
    ensures SerialOk(origin, order, all, v)
  {
    forall ids: set<nat> | ids <= Ids(all)
      ensures Serial(origin, Strike(order, ids)).Some?
      ensures TakenBack(all, v, ids, Serial(origin, Strike(order, ids)).value)
    {
      assert ids <= Ids(txs);
      assert Serial(origin, Strike(order, ids)).Some?;
      var x := Serial(origin, Strike(order, ids)).value;
      assert TakenBack(txs, v, ids, x);
      forall b | forall u :: u in all && Dirties(all[u], b) ==> all[u].id !in ids
        ensures Get(x, b) == Get(v, b)
      {
        forall u | u in txs && Dirties(txs[u], b)
          ensures txs[u].id !in ids
        {
        }
      }
      forall u, b | u in all && Dirties(all[u], b) && all[u].id in ids
        ensures Get(x, b) == Before(all[u].blocks[b])
      {
        assert u in txs && Dirties(txs[u], b);
      }
    }
  }

  // ---------------------------------------------------------------- the steps

  lemma FlushTables(s: M.State, txs: Txs, t: Tid)
    requires Phased(s, txs) && Locked(s, txs) && t in txs && txs[t].phase.Committing? && txs[t].phase.todo != []
    ensures Phased(s, txs[t := Flushed(txs[t])]) && Locked(s, txs[t := Flushed(txs[t])])
  {
    assert PhaseOk(s, t, txs[t]) && LocksOk(s, t, txs[t]);
    QuietLocked(s, txs, t, Flushed(txs[t]));
  }

  lemma FlushSound(d: Disk, txs: Txs, t: Tid)
    requires ValidDisk(d) && Sound(d, txs) && t in txs && OnPlan(t, txs[t])
    ensures WellFormedBlocks(txs[t].blocks)
    ensures ValidDisk(WriteDisk(d, Head(txs[t])))
    ensures Sound(WriteDisk(d, Head(txs[t])), txs[t := Flushed(txs[t])])
  {
    assert TxOk(d, txs[t]);
    HeadShape(t, txs[t]);
    WriteKeepsDisk(d, Head(txs[t]));
    SoundKeys(d, WriteDisk(d, Head(txs[t])), txs);
    assert TxOk(WriteDisk(d, Head(txs[t])), txs[t]);
    QuietSound(WriteDisk(d, Head(txs[t])), txs, t, Flushed(txs[t]));
  }

  lemma FlushIds(txs: Txs, order: seq<Entry>, n: nat, t: Tid)
    requires Identified(txs, order, n) && t in txs && txs[t].phase.Committing? && txs[t].phase.todo != []
    ensures Identified(txs[t := Flushed(txs[t])], order, n)
  {}

  lemma FlushFresh(s: M.State, txs: Txs, v: View, t: Tid)
    requires Fresh(s, txs, v) && t in txs && txs[t].phase.Committing? && txs[t].phase.todo != []
    ensures Fresh(s, txs[t := Flushed(txs[t])], v)
  {}

  function AfterFlush(w: World, t: Tid): World
    requires t in w.txs && w.txs[t].phase.Committing? && w.txs[t].phase.todo != []
  {
    w.(files := WriteFiles(w.files, Head(w.txs[t])), txs := w.txs[t := Flushed(w.txs[t])])
  }

  lemma FlushUnfinished(w: World, t: Tid)
    requires t in w.txs && OnPlan(t, w.txs[t])
    ensures Unfinished(AfterFlush(w, t)) ==
            if |w.txs[t].phase.todo| == 1 then Unfinished(w) - {t} else Unfinished(w)[t := Flushed(w.txs[t])]
  {}

  ghost predicate DistinctIds(txs: Txs) {
    forall t, u :: t in txs && u in txs && txs[t].id == txs[u].id ==> t == u
  }

  lemma UnfinishedIds(w: World)
    requires Identified(w.txs, w.order, w.nextId)
    ensures DistinctIds(Unfinished(w))
  {}

  /** The unfinished transactions after one more write of t. */
  function Remaining(txs: Txs, t: Tid): Txs
    requires t in txs && OnPlan(t, txs[t])
  {
    if |txs[t].phase.todo| == 1 then txs - {t} else txs[t := Flushed(txs[t])]
  }

  lemma RemainingData(d: Disk, origin: View, order: seq<Entry>, txs: Txs, v: View, t: Tid)
    requires OnDisk(d, txs, v) && SerialOk(origin, order, txs, v) && Disjoint(txs) && DistinctIds(txs)
    requires t in txs && OnPlan(t, txs[t]) && WellFormedBlocks(txs[t].blocks)
    ensures OnDisk(WriteDisk(d, Head(txs[t])), Remaining(txs, t), v)
    ensures SerialOk(origin, order, Remaining(txs, t), v)
  {
    SerialRestrict(origin, order, txs, Remaining(txs, t), v);
    if |txs[t].phase.todo| == 1 {
      HeadShape(t, txs[t]);
      FinishOnDisk(d, txs, v, t);
    } else {
      FlushOnDisk(d, txs, v, t);
    }
  }

  lemma FlushData(w: World, v: View, t: Tid)
    requires P.Inv(w.mon) && Phased(w.mon, w.txs) && Locked(w.mon, w.txs) && Identified(w.txs, w.order, w.nextId)
    requires OnDisk(w.files.disk, Unfinished(w), v) && SerialOk(w.origin, w.order, Unfinished(w), v)
    requires t in w.txs && OnPlan(t, w.txs[t]) && WellFormedBlocks(w.txs[t].blocks)
    ensures OnDisk(WriteDisk(w.files.disk, Head(w.txs[t])), Unfinished(AfterFlush(w, t)), v)
    ensures SerialOk(w.origin, w.order, Unfinished(AfterFlush(w, t)), v)
  {
    FlushUnfinished(w, t);
    UnfinishedDisjoint(w);
    UnfinishedIds(w);
    RemainingData(w.files.disk, w.origin, w.order, Unfinished(w), v, t);
  }

  lemma FlushedStep(w: World, v: View, fd: int)
    requires Inv(w, v) && Connected(w, fd) && TxOf(w, fd).phase.Committing?
    ensures Inv(StepFlush(w, fd), v)
  {
    var t := w.mon.transactions[fd];
    FlushLogged(w.files.log, w.txs, t);
    FlushTables(w.mon, w.txs, t);
    FlushSound(w.files.disk, w.txs, t);
    FlushIds(w.txs, w.order, w.nextId, t);
    FlushFresh(w.mon, w.txs, v, t);
    FlushData(w, v, t);
    assert StepFlush(w, fd) == AfterFlush(w, t);
  }

  lemma TornData(w: World, v: View, t: Tid, junk: Contents)
    requires P.Inv(w.mon) && Phased(w.mon, w.txs) && Locked(w.mon, w.txs)
    requires ValidDisk(w.files.disk) && Sound(w.files.disk, w.txs)
    requires OnDisk(w.files.disk, Unfinished(w), v)
    requires t in w.txs && OnPlan(t, w.txs[t]) && Head(w.txs[t]).StoreW?
    ensures var e := WriteDisk(w.files.disk, StoreW(Head(w.txs[t]).block, junk));
            ValidDisk(e) && Sound(e, w.txs) && OnDisk(e, Unfinished(w), v)
  {
    var torn := StoreW(Head(w.txs[t]).block, junk);
    assert TxOk(w.files.disk, w.txs[t]);
    HeadShape(t, w.txs[t]);
    WriteKeepsDisk(w.files.disk, torn);
    SoundKeys(w.files.disk, WriteDisk(w.files.disk, torn), w.txs);
    UnfinishedDisjoint(w);
    TearOnDisk(w.files.disk, Unfinished(w), v, t, junk);
  }

  lemma TornUnfinished(w: World, w': World)
    requires w'.txs == w.txs
    ensures Unfinished(w') == Unfinished(w)
  {}

  lemma TornStep(w: World, v: View, fd: int, junk: Contents)
    requires Inv(w, v) && Connected(w, fd) && TxOf(w, fd).phase.Committing?
    ensures Inv(StepTear(w, fd, junk), v)
  {
    var t := w.mon.transactions[fd];
    FlushLogged(w.files.log, w.txs, t);
    if Head(w.txs[t]).StoreW? {
      TornData(w, v, t, junk);
      TornUnfinished(w, StepTear(w, fd, junk));
    }
  }
}
