/** Offline recovery: which disk it leaves, that it closes every transaction, and that it can be cut off and rerun. */
module Recovery {
  import opened Basics
  import opened Disk
  import opened LogSpec
  import opened Client

  /** The disk and the log together. */
  datatype Files = Files(disk: Disk, log: seq<Record>)

  /** NeverReturns: the scan reaches the start of the file and spins there. */
  datatype RollbackResult = RolledBack(files: Files) | AlreadyEnded | NeverReturns

  /** rollback: undo what the backward scan collected, then append an LABORT. */
  function Rollback(f: Files, tid: Tid): RollbackResult {
    match BackScan(f.log, tid, [])
    case Ended => AlreadyEnded
    case Spins => NeverReturns
    case Found(recs) => RolledBack(Files(UndoAll(f.disk, recs), f.log + [AbortRecord(tid)]))
  }

  /** Undo each broken transaction, least tid first, and close it with an LABORT at the end of the log. */
  function RecoverTids(f: Files, bts: Broken, ts: set<Tid>): Files
    requires ts <= bts.Keys && forall t :: t in ts ==> bts[t] != []
    decreases ts
  {
    if ts == {} then f
    else
      var t := Least(ts);
      RecoverTids(Files(UndoAll(f.disk, bts[t]), f.log + [AbortRecord(bts[t][0].tid)]), bts, ts - {t})
  }

  lemma ScanLists(log: seq<Record>)
    ensures forall t :: t in Scan(log) ==> Scan(log)[t] == Open(log, t) && Open(log, t) != []
  {
    forall t | t in Scan(log)
      ensures Scan(log)[t] == Open(log, t) && Open(log, t) != []
    {
      ScanExact(log, t);
    }
  }

  /** doRecovery. */
  function Recover(f: Files): Files {
    ScanLists(f.log);
    RecoverTids(f, Scan(f.log), Scan(f.log).Keys)
  }

  /** All records that recovery undoes, in the order it undoes them. */
  function Flat(bts: Broken, ts: set<Tid>): seq<Record>
    requires ts <= bts.Keys
  {
    if ts == {} then [] else var t := Least(ts); bts[t] + Flat(bts, ts - {t})
  }

  lemma {:induction false} FlatMember(bts: Broken, ts: set<Tid>, r: Record)
    requires ts <= bts.Keys
    ensures r in Flat(bts, ts) <==> exists t :: t in ts && r in bts[t]
  {
    if ts != {} {
      FlatMember(bts, ts - {Least(ts)}, r);
    }
  }

  lemma {:induction false} UndoAllConcat(d: Disk, rs: seq<Record>, qs: seq<Record>)
    ensures UndoAll(d, rs + qs) == UndoAll(UndoAll(d, rs), qs)
    decreases |rs|
  {
    if rs == [] {
      assert rs + qs == qs;
    } else {
      assert (rs + qs)[1..] == rs[1..] + qs;
      UndoAllConcat(UndoRecord(d, rs[0]), rs[1..], qs);
    }
  }

  lemma {:induction false} RecoverTidsDisk(f: Files, bts: Broken, ts: set<Tid>)
    requires ts <= bts.Keys && forall t :: t in ts ==> bts[t] != []
    ensures RecoverTids(f, bts, ts).disk == UndoAll(f.disk, Flat(bts, ts))
    decreases ts
  {
    if ts != {} {
      var t := Least(ts);
      var g := Files(UndoAll(f.disk, bts[t]), f.log + [AbortRecord(bts[t][0].tid)]);
      RecoverTidsDisk(g, bts, ts - {t});
      UndoAllConcat(f.disk, bts[t], Flat(bts, ts - {t}));
    }
  }

  /** A record that recovery will undo. */
  ghost predicate Pending(log: seq<Record>, r: Record) {
    r in Open(log, r.tid) && Touches(r)
  }

  /** Transactions left open in the log have disjoint write sets, each block logged once. */
  ghost predicate DisjointOpen(log: seq<Record>) {
    forall r, q :: Pending(log, r) && Pending(log, q) && r.block == q.block ==> r == q
  }

  lemma FlatScan(log: seq<Record>, r: Record)
    ensures r in Flat(Scan(log), Scan(log).Keys) <==> r in Open(log, r.tid)
  {
    FlatMember(Scan(log), Scan(log).Keys, r);
    ScanExact(log, r.tid);
    ScanLists(log);
  }

  lemma FlatConsistent(log: seq<Record>)
    requires DisjointOpen(log)
    ensures Consistent(Flat(Scan(log), Scan(log).Keys))
  {
    forall r | r in Flat(Scan(log), Scan(log).Keys)
      ensures r in Open(log, r.tid)
    {
      FlatScan(log, r);
    }
  }

  /** Block by block: recovery restores the image of the one pending record, and leaves all other blocks alone.  An
      allocated block is unallocated again, a written one has its old value, a released one its old index entry and, if
      that was 'A', its old value. */
  lemma RecoverAt(f: Files, r: Record)
    requires DisjointOpen(f.log) && Pending(f.log, r)
    ensures CellOf(Recover(f).disk, r.block) == UndoCell(CellOf(f.disk, r.block), r)
    ensures var c, c' := CellOf(f.disk, r.block), CellOf(Recover(f).disk, r.block);
            && (r.action == LALLOCATE ==> c'.idx == Some('U') && c'.val == c.val)
            && (r.action == LWRITE ==> c'.idx == c.idx && c'.val == Some(r.oldval))
            && (r.action == LRELEASE ==>
                  c'.idx == Some(r.oindex) && c'.val == if r.oindex == 'A' then Some(r.oldval) else c.val)
  {
    ScanLists(f.log);
    var flat := Flat(Scan(f.log), Scan(f.log).Keys);
    RecoverTidsDisk(f, Scan(f.log), Scan(f.log).Keys);
    FlatConsistent(f.log);
    FlatScan(f.log, r);
    UndoAllAt(f.disk, flat, r);
  }

  lemma RecoverElsewhere(f: Files, b: int)
    requires forall r :: Pending(f.log, r) ==> r.block != b
    ensures CellOf(Recover(f).disk, b) == CellOf(f.disk, b)
  {
    ScanLists(f.log);
    var flat := Flat(Scan(f.log), Scan(f.log).Keys);
    RecoverTidsDisk(f, Scan(f.log), Scan(f.log).Keys);
    forall r | r in flat && Touches(r)
      ensures r.block != b
    {
      FlatScan(f.log, r);
      assert Pending(f.log, r);
    }
    UndoAllElsewhere(f.disk, flat, b);
  }

  lemma {:induction false} RecoverSubmap(f: Files, m: Broken, n: Broken, ts: set<Tid>)
    requires ts <= m.Keys && ts <= n.Keys
    requires forall t :: t in ts ==> m[t] != [] && n[t] == m[t]
    ensures RecoverTids(f, m, ts) == RecoverTids(f, n, ts)
    decreases ts
  {
    if ts != {} {
      var t := Least(ts);
      RecoverSubmap(Files(UndoAll(f.disk, m[t]), f.log + [AbortRecord(m[t][0].tid)]), m, n, ts - {t});
    }
  }

  /** Recovering one transaction and starting over is the same as carrying on. */
  lemma RecoverOne(f: Files)
    requires Scan(f.log) != map[]
    ensures var t := Least(Scan(f.log).Keys);
            var g := Files(UndoAll(f.disk, Open(f.log, t)), f.log + [AbortRecord(t)]);
            && Scan(g.log) == Scan(f.log) - {t} && Recover(f) == Recover(g)
            && Open(f.log, t) != [] && Open(f.log, t)[0].tid == t
            && Scan(f.log)[t] == Open(f.log, t)
  {
    var ts := Scan(f.log).Keys;
    assert ts == {} ==> Scan(f.log) == map[];
    var t := Least(ts);
    ScanLists(f.log);
    assert Open(f.log, t)[0] in Open(f.log, t);
    var g := Files(UndoAll(f.disk, Open(f.log, t)), f.log + [AbortRecord(t)]);
    ScanSnoc(f.log, AbortRecord(t));
    ScanLists(g.log);
    assert Scan(g.log).Keys == ts - {t};
    RecoverSubmap(g, Scan(f.log), Scan(g.log), ts - {t});
  }

  lemma {:induction false} RecoverTidsCloses(f: Files, ts: set<Tid>)
    requires ts == Scan(f.log).Keys
    requires forall t :: t in ts ==> Scan(f.log)[t] != []
    ensures Scan(RecoverTids(f, Scan(f.log), ts).log) == map[]
    decreases ts
  {
    if ts != {} {
      var t := Least(ts);
      var bts := Scan(f.log);
      RecoverOne(f);
      var g := Files(UndoAll(f.disk, bts[t]), f.log + [AbortRecord(t)]);
      RecoverTidsCloses(g, ts - {t});
    }
  }

  /** After recovery no transaction is broken, so a second run finds nothing to do. */
  lemma RecoverIdempotent(f: Files)
    ensures Scan(Recover(f).log) == map[]
    ensures Recover(Recover(f)) == Recover(f)
  {
    ScanLists(f.log);
    RecoverTidsCloses(f, Scan(f.log).Keys);
  }

  lemma RecoverCloses(f: Files, t: Tid)
    ensures Open(Recover(f).log, t) == []
  {
    RecoverIdempotent(f);
    ScanExact(Recover(f).log, t);
  }

  // ---------------------------------------------------------------- recovery cut off and rerun

  /** The writes with which one record is undone. */
  function UndoWrites(r: Record): seq<Write> {
    match r.action
    case LWRITE => [StoreW(r.block, r.oldval)]
    case LALLOCATE => [IndexW(r.block, 'U')]
    case LRELEASE =>
      [IndexW(r.block, r.oindex)] + (if r.oindex == 'A' then [StoreW(r.block, r.oldval)] else [])
    case _ => []
  }

  function UndoAllWrites(rs: seq<Record>): seq<Write> {
    if rs == [] then [] else UndoWrites(rs[0]) + UndoAllWrites(rs[1..])
  }

  function RecoveryWrites(bts: Broken, ts: set<Tid>): seq<Write>
    requires ts <= bts.Keys
  {
    if ts == {} then []
    else var t := Least(ts); UndoAllWrites(bts[t]) + [LogW(AbortRecord(t))] + RecoveryWrites(bts, ts - {t})
  }

  function WriteFiles(f: Files, w: Write): Files {
    Files(WriteDisk(f.disk, w), if w.LogW? then f.log + [w.rec] else f.log)
  }

  function WriteAll(f: Files, ws: seq<Write>): Files
    decreases |ws|
  {
    if ws == [] then f else WriteAll(WriteFiles(f, ws[0]), ws[1..])
  }

  /** Cut off after k writes; if the next one is a block write it may have left anything in its block. */
  function Cut(f: Files, ws: seq<Write>, k: nat, torn: Option<Contents>): Files
    requires k <= |ws|
  {
    var g := WriteAll(f, ws[..k]);
    if torn.Some? && k < |ws| && ws[k].StoreW? then g.(disk := WriteDisk(g.disk, StoreW(ws[k].block, torn.value))) else g
  }

  lemma {:induction false} WriteAllConcat(f: Files, us: seq<Write>, ws: seq<Write>)
    ensures WriteAll(f, us + ws) == WriteAll(WriteAll(f, us), ws)
    decreases |us|
  {
    if us == [] {
      assert us + ws == ws;
    } else {
      assert (us + ws)[1..] == us[1..] + ws;
      WriteAllConcat(WriteFiles(f, us[0]), us[1..], ws);
    }
  }

  lemma UndoWritesUndo(f: Files, r: Record)
    ensures WriteAll(f, UndoWrites(r)) == f.(disk := UndoRecord(f.disk, r))
  {
    if r.action == LRELEASE && r.oindex == 'A' {
      var ws := UndoWrites(r);
      assert ws[1..] == [StoreW(r.block, r.oldval)];
      assert WriteAll(WriteFiles(f, ws[0]), ws[1..]) == WriteFiles(WriteFiles(f, ws[0]), ws[1]);
    }
  }

  lemma {:induction false} UndoAllWritesUndo(f: Files, rs: seq<Record>)
    ensures WriteAll(f, UndoAllWrites(rs)) == f.(disk := UndoAll(f.disk, rs))
    decreases |rs|
  {
    if rs != [] {
      UndoWritesUndo(f, rs[0]);
      WriteAllConcat(f, UndoWrites(rs[0]), UndoAllWrites(rs[1..]));
      UndoAllWritesUndo(f.(disk := UndoRecord(f.disk, rs[0])), rs[1..]);
    }
  }

  /** Undoing some record of rs afterwards wipes out the write. */
  ghost predicate Absorbed(w: Write, rs: seq<Record>) {
    !w.LogW? &&
    exists q :: q in rs && Touches(q) && q.block == BlockOf(w) &&
      (if w.IndexW? then q.action != LWRITE else q.action == LWRITE || (q.action == LRELEASE && q.oindex == 'A'))
  }

  lemma {:induction false} UndoWritesAbsorbed(rs: seq<Record>, i: nat)
    requires i < |UndoAllWrites(rs)|
    ensures Absorbed(UndoAllWrites(rs)[i], rs)
    ensures forall w: Write :: w.StoreW? && UndoAllWrites(rs)[i].StoreW? && w.block == UndoAllWrites(rs)[i].block
              ==> Absorbed(w, rs)
    decreases |rs|
  {
    var n := |UndoWrites(rs[0])|;
    if i >= n {
      UndoWritesAbsorbed(rs[1..], i - n);
      assert UndoAllWrites(rs)[i] == UndoAllWrites(rs[1..])[i - n];
      assert forall r :: r in rs[1..] ==> r in rs;
    } else {
      assert UndoAllWrites(rs)[i] == UndoWrites(rs[0])[i];
      assert rs[0] in rs;
    }
  }

  /** Two disks that the undoing of rs cannot tell apart. */
  ghost predicate SameUndone(d: Disk, e: Disk, rs: seq<Record>) {
    && (forall r :: r in rs && Touches(r) ==> UndoCell(CellOf(d, r.block), r) == UndoCell(CellOf(e, r.block), r))
    && (forall b :: (forall r :: r in rs && Touches(r) ==> r.block != b) ==> CellOf(d, b) == CellOf(e, b))
  }

  lemma AbsorbOne(d: Disk, e: Disk, w: Write, rs: seq<Record>)
    requires Consistent(rs) && SameUndone(d, e, rs) && Absorbed(w, rs)
    ensures SameUndone(d, WriteDisk(e, w), rs)
  {
    var e' := WriteDisk(e, w);
    forall r | r in rs && Touches(r)
      ensures UndoCell(CellOf(d, r.block), r) == UndoCell(CellOf(e', r.block), r)
    {
      WriteDiskAt(e, w, r.block);
    }
    forall b | forall r :: r in rs && Touches(r) ==> r.block != b
      ensures CellOf(d, b) == CellOf(e', b)
    {
      WriteDiskAt(e, w, b);
    }
  }

  lemma {:induction false} AbsorbMany(f: Files, g: Files, ws: seq<Write>, rs: seq<Record>)
    requires Consistent(rs) && SameUndone(f.disk, g.disk, rs)
    requires forall i :: 0 <= i < |ws| ==> Absorbed(ws[i], rs)
    ensures SameUndone(f.disk, WriteAll(g, ws).disk, rs) && WriteAll(g, ws).log == g.log
    decreases |ws|
  {
    if ws != [] {
      AbsorbOne(f.disk, g.disk, ws[0], rs);
      AbsorbMany(f, WriteFiles(g, ws[0]), ws[1..], rs);
    }
  }

  lemma {:induction false} RecoverTidsLog(f: Files, g: Files, bts: Broken, ts: set<Tid>)
    requires ts <= bts.Keys && forall t :: t in ts ==> bts[t] != []
    requires f.log == g.log
    ensures RecoverTids(f, bts, ts).log == RecoverTids(g, bts, ts).log
    decreases ts
  {
    if ts != {} {
      var t := Least(ts);
      var l := f.log + [AbortRecord(bts[t][0].tid)];
      RecoverTidsLog(Files(UndoAll(f.disk, bts[t]), l), Files(UndoAll(g.disk, bts[t]), l), bts, ts - {t});
    }
  }

  /** Recovery forgets any half-done undoing of one transaction. */
  lemma RecoverForgets(f: Files, g: Files, t: Tid)
    requires DisjointOpen(f.log) && f.log == g.log && SameUndone(f.disk, g.disk, Open(f.log, t))
    ensures Recover(g) == Recover(f)
  {
    ScanLists(f.log);
    RecoverTidsLog(f, g, Scan(f.log), Scan(f.log).Keys);
    forall b
      ensures CellOf(Recover(f).disk, b) == CellOf(Recover(g).disk, b)
    {
      if r :| Pending(f.log, r) && r.block == b {
        RecoverAt(f, r);
        RecoverAt(g, r);
        if r.tid != t {
          forall q | q in Open(f.log, t) && Touches(q)
            ensures q.block != b
          {
            assert Pending(f.log, q);
          }
        }
      } else {
        RecoverElsewhere(f, b);
        RecoverElsewhere(g, b);
        forall q | q in Open(f.log, t) && Touches(q)
          ensures q.block != b
        {
          assert Pending(f.log, q);
        }
      }
    }
    DiskExtensional(Recover(f).disk, Recover(g).disk);
  }

  lemma {:induction false} RecoveryWritesSubmap(m: Broken, n: Broken, ts: set<Tid>)
    requires ts <= m.Keys && ts <= n.Keys && forall t :: t in ts ==> m[t] == n[t]
    ensures RecoveryWrites(m, ts) == RecoveryWrites(n, ts)
    decreases ts
  {
    if ts != {} {
      RecoveryWritesSubmap(m, n, ts - {Least(ts)});
    }
  }

  /** All the writes of doRecovery on these files. */
  function WritesOf(f: Files): seq<Write> {
    RecoveryWrites(Scan(f.log), Scan(f.log).Keys)
  }

  lemma WritesOfOne(f: Files)
    requires Scan(f.log) != map[]
    ensures var t := Least(Scan(f.log).Keys);
            var g := Files(UndoAll(f.disk, Open(f.log, t)), f.log + [AbortRecord(t)]);
            var first := UndoAllWrites(Open(f.log, t)) + [LogW(AbortRecord(t))];
            WritesOf(f) == first + WritesOf(g) && WriteAll(f, first) == g
  {
    var t := Least(Scan(f.log).Keys);
    RecoverOne(f);
    var us, a := UndoAllWrites(Open(f.log, t)), LogW(AbortRecord(t));
    var g := Files(UndoAll(f.disk, Open(f.log, t)), f.log + [AbortRecord(t)]);
    RecoveryWritesSubmap(Scan(f.log), Scan(g.log), Scan(f.log).Keys - {t});
    UndoAllWritesUndo(f, Open(f.log, t));
    WriteAllConcat(f, us, [a]);
    var h := WriteAll(f, us);
    assert WriteAll(h, [a]) == WriteAll(WriteFiles(h, a), []);
  }

  lemma DisjointAfterOne(f: Files, t: Tid)
    requires DisjointOpen(f.log)
    ensures DisjointOpen(f.log + [AbortRecord(t)])
  {
    forall r | Pending(f.log + [AbortRecord(t)], r)
      ensures Pending(f.log, r)
    {
      OpenSnoc(f.log, AbortRecord(t), r.tid);
    }
  }

  /** The write sequence is the recovery. */
  lemma {:induction false} WritesOfRecover(f: Files)
    ensures WriteAll(f, WritesOf(f)) == Recover(f)
    decreases Scan(f.log).Keys
  {
    if Scan(f.log) != map[] {
      var t := Least(Scan(f.log).Keys);
      RecoverOne(f);
      WritesOfOne(f);
      var g := Files(UndoAll(f.disk, Open(f.log, t)), f.log + [AbortRecord(t)]);
      WriteAllConcat(f, UndoAllWrites(Open(f.log, t)) + [LogW(AbortRecord(t))], WritesOf(g));
      WritesOfRecover(g);
    }
  }

  lemma CutConcat(f: Files, us: seq<Write>, ws: seq<Write>, k: nat, torn: Option<Contents>)
    requires k <= |us + ws|
    ensures Cut(f, us + ws, k, torn) ==
            if k < |us| then Cut(f, us, k, torn) else Cut(WriteAll(f, us), ws, k - |us|, torn)
  {
    if k < |us| {
      assert (us + ws)[..k] == us[..k];
    } else {
      assert (us + ws)[..k] == us + ws[..k - |us|];
      WriteAllConcat(f, us, ws[..k - |us|]);
    }
  }

  /** Cutting the writes of recovery: inside the first transaction's part, or after it. */
  lemma CutOne(f: Files, k: nat, torn: Option<Contents>)
    requires Scan(f.log) != map[] && k <= |WritesOf(f)|
    ensures var t := Least(Scan(f.log).Keys);
            var g := Files(UndoAll(f.disk, Open(f.log, t)), f.log + [AbortRecord(t)]);
            var first := UndoAllWrites(Open(f.log, t)) + [LogW(AbortRecord(t))];
            if k < |first| then Cut(f, WritesOf(f), k, torn) == Cut(f, first, k, torn)
            else k - |first| <= |WritesOf(g)| && Cut(f, WritesOf(f), k, torn) == Cut(g, WritesOf(g), k - |first|, torn)
  {
    var t := Least(Scan(f.log).Keys);
    var g := Files(UndoAll(f.disk, Open(f.log, t)), f.log + [AbortRecord(t)]);
    WritesOfOne(f);
    CutConcat(f, UndoAllWrites(Open(f.log, t)) + [LogW(AbortRecord(t))], WritesOf(g), k, torn);
  }

  /** Undoing the open records of t, in whatever order, cut off anywhere: recovery does not notice. */
  lemma CutInside(f: Files, t: Tid, rs: seq<Record>, k: nat, torn: Option<Contents>)
    requires DisjointOpen(f.log) && k <= |UndoAllWrites(rs)|
    requires forall r :: r in rs <==> r in Open(f.log, t)
    ensures Cut(f, UndoAllWrites(rs) + [LogW(AbortRecord(t))], k, torn).log == f.log
    ensures Recover(Cut(f, UndoAllWrites(rs) + [LogW(AbortRecord(t))], k, torn)) == Recover(f)
  {
    var us := UndoAllWrites(rs);
    var first := us + [LogW(AbortRecord(t))];
    assert Consistent(rs) by {
      assert forall r :: r in rs && Touches(r) ==> Pending(f.log, r);
    }
    forall i | 0 <= i < |us|
      ensures Absorbed(us[i], rs)
    {
      UndoWritesAbsorbed(rs, i);
    }
    assert first[..k] == us[..k];
    AbsorbMany(f, f, us[..k], rs);
    var g := Cut(f, first, k, torn);
    if torn.Some? && k < |us| && us[k].StoreW? {
      UndoWritesAbsorbed(rs, k);
      AbsorbOne(f.disk, WriteAll(f, us[..k]).disk, StoreW(us[k].block, torn.value), rs);
    }
    RecoverForgets(f, g, t);
  }

  /** Cut off while the first transaction is being undone. */
  lemma CutFirst(f: Files, k: nat, torn: Option<Contents>)
    requires DisjointOpen(f.log) && Scan(f.log) != map[] && k <= |WritesOf(f)|
    requires k <= |UndoAllWrites(Open(f.log, Least(Scan(f.log).Keys)))|
    ensures Recover(Cut(f, WritesOf(f), k, torn)) == Recover(f)
  {
    var t := Least(Scan(f.log).Keys);
    CutOne(f, k, torn);
    CutInside(f, t, Open(f.log, t), k, torn);
  }

  /** The files once recovery has dealt with its first transaction, and the number of writes that takes. */
  function AfterFirst(f: Files): Files
    requires Scan(f.log) != map[]
  {
    var t := Least(Scan(f.log).Keys);
    Files(UndoAll(f.disk, Open(f.log, t)), f.log + [AbortRecord(t)])
  }

  function FirstWrites(f: Files): nat
    requires Scan(f.log) != map[]
  {
    |UndoAllWrites(Open(f.log, Least(Scan(f.log).Keys)))| + 1
  }

  /** Cut off later than that. */
  lemma CutLater(f: Files, k: nat, torn: Option<Contents>)
    requires DisjointOpen(f.log) && Scan(f.log) != map[] && FirstWrites(f) <= k <= |WritesOf(f)|
    ensures var g := AfterFirst(f);
            && DisjointOpen(g.log) && Scan(g.log).Keys < Scan(f.log).Keys && Recover(g) == Recover(f)
            && k - FirstWrites(f) <= |WritesOf(g)|
            && Cut(f, WritesOf(f), k, torn) == Cut(g, WritesOf(g), k - FirstWrites(f), torn)
  {
    var t := Least(Scan(f.log).Keys);
    CutOne(f, k, torn);
    RecoverOne(f);
    DisjointAfterOne(f, t);
    assert t in Scan(f.log).Keys && t !in Scan(AfterFirst(f).log).Keys;
  }

  /** Recovery cut off between any two writes, or inside a block write, and rerun, ends with the same disk and log
      as one uninterrupted run. */
  lemma {:induction false} RecoveryRestartable(f: Files, k: nat, torn: Option<Contents>)
    requires DisjointOpen(f.log) && k <= |WritesOf(f)|
    ensures Recover(Cut(f, WritesOf(f), k, torn)) == Recover(f)
    decreases Scan(f.log).Keys
  {
    if Scan(f.log) == map[] {
      assert WritesOf(f) == [];
    } else if k < FirstWrites(f) {
      CutFirst(f, k, torn);
    } else {
      CutLater(f, k, torn);
      RecoveryRestartable(AfterFirst(f), k - FirstWrites(f), torn);
    }
  }

  // ---------------------------------------------------------------- an online rollback write by write

  /** The writes of rolling back an open transaction: newest record first, then LABORT. */
  function RollbackWrites(log: seq<Record>, t: Tid): seq<Write> {
    UndoAllWrites(Reverse(Open(log, t))) + [LogW(AbortRecord(t))]
  }

  /** They add up to the rollback. */
  lemma RollbackWritesRollback(f: Files, t: Tid)
    requires OpenTransaction(Open(f.log, t))
    ensures Rollback(f, t) == RolledBack(WriteAll(f, RollbackWrites(f.log, t)))
  {
    BackScanOpen(f.log, t, []);
    var rs := Reverse(Open(f.log, t));
    assert [] + rs == rs;
    UndoAllWritesUndo(f, rs);
    WriteAllConcat(f, UndoAllWrites(rs), [LogW(AbortRecord(t))]);
    var g := WriteAll(f, UndoAllWrites(rs));
    assert WriteAll(g, [LogW(AbortRecord(t))]) == WriteAll(WriteFiles(g, LogW(AbortRecord(t))), []);
  }

  /** A rollback cut off before its LABORT, anywhere, even inside a block write, is invisible to recovery: it leaves
      what it would have left had the rollback not begun. */
  lemma RollbackForgotten(f: Files, t: Tid, k: nat, torn: Option<Contents>)
    requires DisjointOpen(f.log) && k < |RollbackWrites(f.log, t)|
    ensures Cut(f, RollbackWrites(f.log, t), k, torn).log == f.log
    ensures Recover(Cut(f, RollbackWrites(f.log, t), k, torn)) == Recover(f)
  {
    var rs := Open(f.log, t);
    forall r
      ensures r in Reverse(rs) <==> r in rs
    {
      ReverseMembers(rs, r);
    }
    CutInside(f, t, Reverse(rs), k, torn);
  }

  // ---------------------------------------------------------------- any number of interrupted recoveries

  /** After so many writes, or inside the block write that follows them. */
  datatype Interruption = Interruption(writes: nat, torn: Option<Contents>)

  function Attempt(f: Files, cut: Interruption): Files {
    var ws := WritesOf(f);
    Cut(f, ws, if cut.writes <= |ws| then cut.writes else |ws|, cut.torn)
  }

  /** Recovery started over and over, each time cut off. */
  function Attempts(f: Files, cuts: seq<Interruption>): Files
    decreases |cuts|
  {
    if cuts == [] then f else Attempts(Attempt(f, cuts[0]), cuts[1..])
  }

  predicate OnlyAborts(ws: seq<Write>) {
    forall i :: 0 <= i < |ws| && ws[i].LogW? ==> ws[i].rec == AbortRecord(ws[i].rec.tid)
  }

  lemma {:induction false} RecoveryLogsAborts(bts: Broken, ts: set<Tid>)
    requires ts <= bts.Keys
    ensures OnlyAborts(RecoveryWrites(bts, ts))
    decreases ts
  {
    if ts != {} {
      var t := Least(ts);
      var us := UndoAllWrites(bts[t]);
      RecoveryLogsAborts(bts, ts - {t});
      forall i | 0 <= i < |us|
        ensures !us[i].LogW?
      {
        UndoWritesAbsorbed(bts[t], i);
      }
      var rest := RecoveryWrites(bts, ts - {t});
      assert RecoveryWrites(bts, ts) == us + [LogW(AbortRecord(t))] + rest;
    }
  }

  lemma {:induction false} AbortsKeepDisjoint(f: Files, ws: seq<Write>)
    requires DisjointOpen(f.log) && OnlyAborts(ws)
    ensures DisjointOpen(WriteAll(f, ws).log)
    decreases |ws|
  {
    if ws != [] {
      if ws[0].LogW? {
        DisjointAfterOne(f, ws[0].rec.tid);
      }
      AbortsKeepDisjoint(WriteFiles(f, ws[0]), ws[1..]);
    }
  }

  /** However often recovery is cut off, the attempt that completes ends with the same disk and log. */
  lemma {:induction false} AttemptsConverge(f: Files, cuts: seq<Interruption>)
    requires DisjointOpen(f.log)
    ensures Recover(Attempts(f, cuts)) == Recover(f)
    decreases |cuts|
  {
    if cuts != [] {
      var ws := WritesOf(f);
      var k := if cuts[0].writes <= |ws| then cuts[0].writes else |ws|;
      RecoveryRestartable(f, k, cuts[0].torn);
      RecoveryLogsAborts(Scan(f.log), Scan(f.log).Keys);
      AbortsKeepDisjoint(f, ws[..k]);
      AttemptsConverge(Attempt(f, cuts[0]), cuts[1..]);
    }
  }
}
