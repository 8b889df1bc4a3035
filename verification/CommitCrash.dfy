/** One commit at the log descriptor's real offset: cut off anywhere, rolled back or recovered, or completed;
    and any number of commits that do not overlap, each overwriting the log from the beginning. */
module CommitCrash {
  import opened Basics
  import opened Disk
  import opened LogSpec
  import opened Client
  import opened Recovery
  import S = SystemSpec
  import I = SystemInv
  import F = SystemFlush
  import E = SystemEnd

  // ---------------------------------------------------------------- writing at an offset

  /** One record written at the descriptor's offset: it replaces a record or extends the file. */
  function Put(log: seq<Record>, pos: nat, r: Record): seq<Record>
    requires pos <= |log|
  {
    if pos < |log| then log[pos := r] else log + [r]
  }

  /** The files and the offset of the client's log descriptor. */
  datatype Io = Io(disk: Disk, log: seq<Record>, pos: nat)

  predicate ValidIo(io: Io) { io.pos <= |io.log| }

  function Perform(io: Io, w: Write): (r: Io)
    requires ValidIo(io)
    ensures ValidIo(r)
  {
    Io(WriteDisk(io.disk, w),
       if w.LogW? then Put(io.log, io.pos, w.rec) else io.log,
       if w.LogW? then io.pos + 1 else io.pos)
  }

  function PerformAll(io: Io, ws: seq<Write>): (r: Io)
    requires ValidIo(io)
    ensures ValidIo(r)
  {
    if ws == [] then io else Perform(PerformAll(io, ws[..|ws| - 1]), ws[|ws| - 1])
  }

  /** rs laid over the log from pos on. */
  function Overwrite(log: seq<Record>, pos: nat, rs: seq<Record>): seq<Record>
    requires pos <= |log|
  {
    log[..pos] + rs + (if pos + |rs| < |log| then log[pos + |rs|..] else [])
  }

  lemma {:induction false} PerformAllLog(io: Io, ws: seq<Write>)
    requires ValidIo(io)
    ensures PerformAll(io, ws).log == Overwrite(io.log, io.pos, I.Records(ws))
    ensures PerformAll(io, ws).pos == io.pos + |I.Records(ws)|
  {
    if ws == [] {
      assert io.log == Overwrite(io.log, io.pos, []);
    } else {
      PerformAllLog(io, ws[..|ws| - 1]);
    }
  }

  // ---------------------------------------------------------------- opening of concatenations

  lemma {:induction false} OfConcat(a: seq<Record>, b: seq<Record>, t: Tid)
    ensures Of(a + b, t) == Of(a, t) + Of(b, t)
  {
    if b == [] {
      assert a + b == a;
    } else {
      assert (a + b)[..|a + b| - 1] == a + b[..|b| - 1];
      OfConcat(a, b[..|b| - 1], t);
    }
  }

  /** Does the log hold a terminator of t? */
  predicate HasEnd(log: seq<Record>, t: Tid) {
    log != [] && (Terminates(log[|log| - 1], t) || HasEnd(log[..|log| - 1], t))
  }

  lemma OfSnoc(log: seq<Record>, r: Record, t: Tid)
    ensures Of(log + [r], t) == if r.tid == t then Of(log, t) + [r] else Of(log, t)
    ensures HasEnd(log + [r], t) <==> Terminates(r, t) || HasEnd(log, t)
  {
    assert (log + [r])[..|log|] == log;
  }

  /** The case split behind OpenConcat, on plain sequences: mine, ended say whether r belongs to, or ends, the
      transaction; done whether it had ended before. */
  lemma JoinCases(joined: seq<Record>, oa: seq<Record>, ob: seq<Record>, fb: seq<Record>, r: Record,
                  mine: bool, ended: bool, done: bool)
    requires joined == (if done then ob else oa + fb) && (ended ==> mine)
    ensures (if !mine then joined else if ended then [] else joined + [r]) ==
            if ended || done then (if !mine then ob else if ended then [] else ob + [r])
            else oa + (if mine then fb + [r] else fb)
  {
    assert oa + fb + [r] == oa + (fb + [r]);
  }

  lemma OpenConcatSnoc(a: seq<Record>, b: seq<Record>, r: Record, t: Tid)
    requires Open(a + b, t) == if HasEnd(b, t) then Open(b, t) else Open(a, t) + Of(b, t)
    ensures Open(a + b + [r], t) == if HasEnd(b + [r], t) then Open(b + [r], t) else Open(a, t) + Of(b + [r], t)
  {
    OpenSnoc(a + b, r, t);
    OpenSnoc(b, r, t);
    OfSnoc(b, r, t);
    JoinCases(Open(a + b, t), Open(a, t), Open(b, t), Of(b, t), r, r.tid == t, Terminates(r, t), HasEnd(b, t));
  }

  lemma {:induction false} OpenConcat(a: seq<Record>, b: seq<Record>, t: Tid)
    ensures Open(a + b, t) == if HasEnd(b, t) then Open(b, t) else Open(a, t) + Of(b, t)
  {
    if b == [] {
      assert a + b == a;
    } else {
      var init, r := b[..|b| - 1], b[|b| - 1];
      OpenConcat(a, init, t);
      OpenConcatSnoc(a, init, r, t);
      assert b == init + [r] && a + b == a + init + [r];
    }
  }

  /** Nothing is left open. */
  ghost predicate Settled(log: seq<Record>) {
    forall t: Tid :: Open(log, t) == []
  }

  /** The record at i is followed by its own transaction's LEND or LABORT. */
  predicate Covered(log: seq<Record>, i: nat)
    requires i < |log|
  {
    exists j :: i <= j < |log| && Terminates(log[j], log[i].tid)
  }

  lemma LeftOver(log: seq<Record>, e: nat, i: nat)
    requires e <= i < |log|
    ensures Of(log[e..], log[i].tid) != []
  {
    assert log[e..][i - e] == log[i];
    assert log[i] in Of(log[e..], log[i].tid);
  }

  lemma {:induction false} SettledMeans(log: seq<Record>, i: nat)
    requires Settled(log) && i < |log|
    ensures Covered(log, i)
  {
    var t := log[i].tid;
    var e := LastEnd(log, t);
    assert Open(log, t) == [];
    OpenIsTail(log, t);
    if e <= i {
      LeftOver(log, e, i);
    }
  }

  /** What is left of a settled log when its beginning is overwritten is settled. */
  lemma SettledTail(log: seq<Record>, k: nat, t: Tid)
    requires Settled(log) && k <= |log|
    ensures Open(log[k..], t) == []
  {
    assert log == log[..k] + log[k..];
    OpenConcat(log[..k], log[k..], t);
    assert Open(log, t) == [];
    if !HasEnd(log[k..], t) {
      OpenConcat([], log[k..], t);
      assert [] + log[k..] == log[k..];
    }
  }

  // ---------------------------------------------------------------- the disk in the middle of a commit

  /** The block map was filled from this disk. */
  ghost predicate TakenFrom(bs: Blocks, d: Disk) {
    && ValidDisk(d) && WellFormedBlocks(bs)
    && forall b :: b in bs ==> b in d.index && Get(ViewOf(d), b) == Before(bs[b])
  }

  /** The client in the middle of commit(), k writes done. */
  function Midway(t: Tid, bs: Blocks, k: nat): S.Tx
    requires k <= |Plan(t, bs)|
  {
    S.Tx(0, bs, [], 0, S.Committing(Plan(t, bs)[k..]))
  }

  /** The stage block b is in, with `todo` still to be written, when the disk was d0 before the commit. */
  predicate AtStage(d0: Disk, d: Disk, t: Tid, bs: Blocks, todo: seq<Write>, b: int) {
    if b in bs && bs[b].lock != R_LOCK then Flushing(CellOf(d, b), t, b, bs[b], Mine(todo, b))
    else CellOf(d, b) == CellOf(d0, b)
  }

  lemma MineHead(todo: seq<Write>, b: int)
    requires todo != []
    ensures BlockOf(todo[0]) != b ==> Mine(todo, b) == Mine(todo[1..], b)
    ensures BlockOf(todo[0]) == b ==>
              Mine(todo, b) != [] && Mine(todo, b)[0] == todo[0] && Mine(todo, b)[1..] == Mine(todo[1..], b)
  {
    assert BlockOf(todo[0]) == b ==> Mine(todo, b) == [todo[0]] + Mine(todo[1..], b);
  }

  /** A write of a block that is only read, or not in the map, is a log record. */
  lemma NotDirtied(t: Tid, bs: Blocks, w: Write, b: int)
    requires w.LogW? || BodyWrite(t, bs, w)
    requires BlockOf(w) == b && !(b in bs && bs[b].lock != R_LOCK)
    ensures w.LogW?
  {}

  lemma StageStep(d0: Disk, d: Disk, t: Tid, bs: Blocks, todo: seq<Write>, b: int)
    requires todo != [] && AtStage(d0, d, t, bs, todo, b)
    requires b in bs ==> WellFormed(bs[b])
    requires todo[0].LogW? || BodyWrite(t, bs, todo[0])
    ensures AtStage(d0, WriteDisk(d, todo[0]), t, bs, todo[1..], b)
  {
    WriteDiskAt(d, todo[0], b);
    MineHead(todo, b);
    if BlockOf(todo[0]) == b {
      if b in bs && bs[b].lock != R_LOCK {
        FlushStep(CellOf(d, b), t, b, bs[b], Mine(todo, b));
      } else {
        NotDirtied(t, bs, todo[0], b);
      }
    }
  }

  lemma StageStart(d: Disk, t: Tid, bs: Blocks, b: int)
    requires TakenFrom(bs, d)
    ensures AtStage(d, d, t, bs, Plan(t, bs), b)
  {
    if b in bs {
      assert WellFormed(bs[b]);
      MinePlan(t, bs, b);
      ViewAt(d, b);
      FlushStarts(CellOf(d, b), t, b, bs[b]);
    }
  }

  /** Some of a list of writes performed, the rest still to come. */
  lemma {:induction false} StageAfter(io: Io, t: Tid, bs: Blocks, ws: seq<Write>, k: nat, b: int)
    requires ValidIo(io) && k <= |ws| && AtStage(io.disk, io.disk, t, bs, ws, b)
    requires b in bs ==> WellFormed(bs[b])
    requires forall i :: 0 <= i < |ws| ==> ws[i].LogW? || BodyWrite(t, bs, ws[i])
    ensures AtStage(io.disk, PerformAll(io, ws[..k]).disk, t, bs, ws[k..], b)
  {
    if k == 0 {
      assert ws[0..] == ws;
    } else {
      StageAfter(io, t, bs, ws, k - 1, b);
      assert ws[..k][..k - 1] == ws[..k - 1];
      assert ws[k - 1..][1..] == ws[k..];
      StageStep(io.disk, PerformAll(io, ws[..k - 1]).disk, t, bs, ws[k - 1..], b);
    }
  }

  lemma MidwayCell(io: Io, t: Tid, bs: Blocks, k: nat, b: int)
    requires ValidIo(io) && TakenFrom(bs, io.disk) && k <= |Plan(t, bs)|
    ensures AtStage(io.disk, PerformAll(io, Plan(t, bs)[..k]).disk, t, bs, Plan(t, bs)[k..], b)
  {
    var plan := Plan(t, bs);
    forall i | 0 <= i < |plan|
      ensures plan[i].LogW? || BodyWrite(t, bs, plan[i])
    {
      PlanShape(t, bs, i);
    }
    StageStart(io.disk, t, bs, b);
    assert b in bs ==> WellFormed(bs[b]);
    StageAfter(io, t, bs, plan, k, b);
  }

  /** The files when the client dies after k writes; a block write in progress leaves junk in its block. */
  function DiesAfter(io: Io, t: Tid, bs: Blocks, k: nat, junk: Contents): Files
    requires ValidIo(io) && k < |Plan(t, bs)|
  {
    var r, w := PerformAll(io, Plan(t, bs)[..k]), Plan(t, bs)[k];
    Files(if w.StoreW? then WriteDisk(r.disk, StoreW(w.block, junk)) else r.disk, r.log)
  }

  lemma StageTorn(d0: Disk, d: Disk, t: Tid, bs: Blocks, todo: seq<Write>, junk: Contents, b: int)
    requires todo != [] && todo[0].StoreW? && AtStage(d0, d, t, bs, todo, b)
    requires b in bs ==> WellFormed(bs[b])
    requires BodyWrite(t, bs, todo[0])
    ensures AtStage(d0, WriteDisk(d, StoreW(todo[0].block, junk)), t, bs, todo, b)
  {
    WriteDiskAt(d, StoreW(todo[0].block, junk), b);
    if todo[0].block == b {
      MineHead(todo, b);
      if b in bs && bs[b].lock != R_LOCK {
        FlushTorn(CellOf(d, b), t, b, bs[b], Mine(todo, b), junk);
      } else {
        NotDirtied(t, bs, todo[0], b);
      }
    }
  }

  lemma DeadCell(io: Io, t: Tid, bs: Blocks, k: nat, junk: Contents, b: int)
    requires ValidIo(io) && TakenFrom(bs, io.disk) && k < |Plan(t, bs)|
    ensures AtStage(io.disk, DiesAfter(io, t, bs, k, junk).disk, t, bs, Plan(t, bs)[k..], b)
  {
    var plan := Plan(t, bs);
    MidwayCell(io, t, bs, k, b);
    PlanShape(t, bs, k);
    assert plan[k..][0] == plan[k];
    assert b in bs ==> WellFormed(bs[b]);
    if plan[k].StoreW? {
      StageTorn(io.disk, PerformAll(io, plan[..k]).disk, t, bs, plan[k..], junk, b);
    }
  }

  // ---------------------------------------------------------------- the log in the middle of a commit

  predicate NotIn(log: seq<Record>, t: Tid) { forall r :: r in log ==> r.tid != t }

  lemma PlanRecord(t: Tid, bs: Blocks, k: nat, r: Record)
    requires k <= |Plan(t, bs)| && r in I.Records(Plan(t, bs)[..k])
    ensures r.tid == t && (k < |Plan(t, bs)| ==> !Terminates(r, t))
  {
    var plan := Plan(t, bs);
    E.RecordsMember(plan[..k], r);
    var i :| 0 <= i < k && plan[..k][i] == LogW(r);
    assert plan[i] == LogW(r);
    PlanShape(t, bs, i);
  }

  lemma {:induction false} NoEnd(rs: seq<Record>, t: Tid)
    requires forall r :: r in rs ==> !Terminates(r, t)
    ensures !HasEnd(rs, t)
  {
    if rs != [] {
      NoEnd(rs[..|rs| - 1], t);
    }
  }

  lemma {:induction false} OpenOrEnd(rs: seq<Record>, t: Tid)
    requires forall r :: r in rs ==> r.tid == t
    ensures !HasEnd(rs, t) ==> Open(rs, t) == Of(rs, t) == rs
  {
    if rs != [] {
      OpenOrEnd(rs[..|rs| - 1], t);
      OpenSnoc(rs[..|rs| - 1], rs[|rs| - 1], t);
      assert rs == rs[..|rs| - 1] + [rs[|rs| - 1]];
    }
  }

  /** The records of an unfinished commit are all open; those of a finished one are all closed. */
  lemma PlanOpen(t: Tid, bs: Blocks, k: nat)
    requires k <= |Plan(t, bs)|
    ensures forall r :: r in I.Records(Plan(t, bs)[..k]) ==> r.tid == t
    ensures Open(I.Records(Plan(t, bs)[..k]), t) == if k < |Plan(t, bs)| then I.Records(Plan(t, bs)[..k]) else []
  {
    var plan := Plan(t, bs);
    var rs := I.Records(plan[..k]);
    forall r | r in rs
      ensures r.tid == t && (k < |plan| ==> !Terminates(r, t))
    {
      PlanRecord(t, bs, k, r);
    }
    if k < |plan| {
      NoEnd(rs, t);
      OpenOrEnd(rs, t);
    } else {
      PlanShape(t, bs, k - 1);
      F.RecordsStep(plan, k - 1);
      OpenSnoc(I.Records(plan[..k - 1]), EndRecord(t), t);
    }
  }

  lemma {:induction false} OfNone(log: seq<Record>, t: Tid)
    requires NotIn(log, t)
    ensures Of(log, t) == []
  {
    if log != [] {
      OfNone(log[..|log| - 1], t);
    }
  }

  lemma {:induction false} EndNone(log: seq<Record>, t: Tid)
    requires NotIn(log, t)
    ensures !HasEnd(log, t) && Open(log, t) == []
  {
    if log != [] {
      EndNone(log[..|log| - 1], t);
      OpenSnoc(log[..|log| - 1], log[|log| - 1], t);
      assert log == log[..|log| - 1] + [log[|log| - 1]];
    }
  }

  /** A log with nothing of u open has either an end of u or no record of u. */
  lemma TailOf(log: seq<Record>, u: Tid)
    requires Open(log, u) == []
    ensures !HasEnd(log, u) ==> Of(log, u) == []
  {
    OpenConcat([], log, u);
    assert [] + log == log;
  }

  /** rs, all of t, laid over the beginning of a settled log without t. */
  lemma OverwriteStart(log: seq<Record>, rs: seq<Record>, t: Tid, u: Tid)
    requires NotIn(log, t) && Settled(log) && forall r :: r in rs ==> r.tid == t
    ensures Open(Overwrite(log, 0, rs), u) == if u == t then Open(rs, t) else []
  {
    var tail := if |rs| < |log| then log[|rs|..] else [];
    assert Overwrite(log, 0, rs) == rs + tail;
    OpenConcat(rs, tail, u);
    if u == t {
      assert NotIn(tail, t);
      EndNone(tail, t);
      OfNone(tail, t);
    } else {
      EndNone(rs, u);
      if |rs| < |log| {
        SettledTail(log, |rs|, u);
        TailOf(tail, u);
      }
    }
  }

  lemma AppendOwn(rs: seq<Record>, t: Tid)
    requires forall r :: r in rs ==> r.tid == t
    ensures (if HasEnd(rs, t) then Open(rs, t) else [] + Of(rs, t)) == Open(rs, t)
  {
    OpenOrEnd(rs, t);
    assert [] + Of(rs, t) == Of(rs, t);
  }

  /** rs, all of t, appended to a settled log, in which t may already have been used. */
  lemma AppendEnd(log: seq<Record>, rs: seq<Record>, t: Tid, u: Tid)
    requires Settled(log) && forall r :: r in rs ==> r.tid == t
    ensures Open(Overwrite(log, |log|, rs), u) == if u == t then Open(rs, t) else []
  {
    assert Overwrite(log, |log|, rs) == log + rs;
    assert Open(log, u) == [];
    OpenConcat(log, rs, u);
    if u == t {
      AppendOwn(rs, t);
    } else {
      EndNone(rs, u);
      OfNone(rs, u);
    }
  }

  // ---------------------------------------------------------------- a commit cut off anywhere

  /** Nobody else is committing, and the client's log descriptor is at the end, as the documentation wants it, or at
      the beginning, as the source opens it; in the latter case the tid is new. */
  ghost predicate Ready(io: Io, t: Tid) {
    Settled(io.log) && (io.pos == |io.log| || (io.pos == 0 && NotIn(io.log, t)))
  }

  lemma DeadLog(io: Io, t: Tid, bs: Blocks, k: nat, u: Tid)
    requires Ready(io, t) && k <= |Plan(t, bs)|
    ensures Open(PerformAll(io, Plan(t, bs)[..k]).log, u) ==
            if u == t && k < |Plan(t, bs)| then I.Records(Plan(t, bs)[..k]) else []
  {
    PerformAllLog(io, Plan(t, bs)[..k]);
    PlanOpen(t, bs, k);
    if io.pos == 0 {
      OverwriteStart(io.log, I.Records(Plan(t, bs)[..k]), t, u);
    } else {
      AppendEnd(io.log, I.Records(Plan(t, bs)[..k]), t, u);
    }
  }

  /** The disk is as it was, except for the contents of blocks that were not allocated. */
  predicate Intact(d: Disk, e: Disk) {
    && e.index == d.index && e.store.Keys == d.store.Keys
    && forall b :: b in d.store && b in d.index && d.index[b] == 'A' ==> e.store[b] == d.store[b]
  }

  predicate IntactCell(c: Cell, c': Cell) {
    c'.idx == c.idx && c'.val.Some? == c.val.Some? && (c.idx == Some('A') ==> c'.val == c.val)
  }

  lemma IntactByCells(d: Disk, e: Disk)
    requires ValidDisk(d) && forall b :: IntactCell(CellOf(d, b), CellOf(e, b))
    ensures Intact(d, e) && ValidDisk(e) && ViewOf(e) == ViewOf(d)
  {
    forall b
      ensures b in e.index <==> b in d.index
      ensures b in e.index ==> e.index[b] == d.index[b]
      ensures b in e.store <==> b in d.store
      ensures b in d.store && b in d.index && d.index[b] == 'A' ==> e.store[b] == d.store[b]
    {
      assert IntactCell(CellOf(d, b), CellOf(e, b));
    }
    assert e.index == d.index;
  }

  /** Undoing what was logged restores every block. */
  lemma UndoneIntact(io: Io, t: Tid, bs: Blocks, k: nat, junk: Contents, b: int)
    requires ValidIo(io) && TakenFrom(bs, io.disk) && k < |Plan(t, bs)|
    requires I.LogOk(DiesAfter(io, t, bs, k, junk).log, t, Midway(t, bs, k))
    ensures var f := DiesAfter(io, t, bs, k, junk);
            IntactCell(CellOf(io.disk, b), CellOf(UndoAll(f.disk, Reverse(Open(f.log, t))), b))
  {
    var f, tx := DiesAfter(io, t, bs, k, junk), Midway(t, bs, k);
    DeadCell(io, t, bs, k, junk, b);
    E.RollbackAt(f.disk, f.log, t, tx, b);
    if I.Dirties(tx, b) {
      var c' := CellOf(UndoAll(f.disk, Reverse(Open(f.log, t))), b);
      E.UndoneBlock(f.disk, Set(map[], b, After(bs[b])), c', f.log, t, tx, b);
      ViewAt(io.disk, b);
      assert WellFormed(bs[b]);
    }
  }

  lemma RecoverOnly(f: Files, t: Tid)
    requires Open(f.log, t) != [] && forall u: Tid :: u != t ==> Open(f.log, u) == []
    ensures Recover(f) == Files(UndoAll(f.disk, Open(f.log, t)), f.log + [AbortRecord(t)])
  {
    ScanExact(f.log, t);
    forall u | u in Scan(f.log)
      ensures u == t
    {
      ScanExact(f.log, u);
    }
    RecoverOne(f);
    assert Least(Scan(f.log).Keys) == t;
    assert Scan(f.log) - {t} == map[];
  }

  lemma RecoverNothing(f: Files)
    requires Settled(f.log)
    ensures Recover(f) == f
  {
    forall u
      ensures u !in Scan(f.log)
    {
      assert Open(f.log, u) == [];
      ScanExact(f.log, u);
    }
  }

  lemma RollbackIsRecover(f: Files, t: Tid, tx: S.Tx)
    requires I.LogOk(f.log, t, tx) && OpenTransaction(Open(f.log, t))
    requires forall u: Tid :: u != t ==> Open(f.log, u) == []
    ensures Rollback(f, t) == RolledBack(Recover(f))
    ensures Recover(f) == Files(UndoAll(f.disk, Reverse(Open(f.log, t))), f.log + [AbortRecord(t)])
  {
    var rs := Open(f.log, t);
    BackScanOpen(f.log, t, []);
    assert [] + Reverse(rs) == Reverse(rs);
    RecoverOnly(f, t);
    E.UndoneConsistent(f.log, t, tx);
    forall r
      ensures r in rs <==> r in Reverse(rs)
    {
      ReverseMembers(rs, r);
    }
    UndoOrderIndependent(f.disk, rs, Reverse(rs));
  }

  lemma SettledAfterAbort(log: seq<Record>, t: Tid)
    requires forall u: Tid :: u != t ==> Open(log, u) == []
    ensures Settled(log + [AbortRecord(t)])
  {
    forall u: Tid
      ensures Open(log + [AbortRecord(t)], u) == []
    {
      OpenSnoc(log, AbortRecord(t), u);
    }
  }

  lemma DeadLogOk(io: Io, t: Tid, bs: Blocks, k: nat, junk: Contents)
    requires Ready(io, t) && k < |Plan(t, bs)|
    ensures var f := DiesAfter(io, t, bs, k, junk);
            && I.LogOk(f.log, t, Midway(t, bs, k)) && Open(f.log, t) == I.Records(Plan(t, bs)[..k])
            && (forall u: Tid :: u != t ==> Open(f.log, u) == [])
  {
    DeadLog(io, t, bs, k, t);
    forall u: Tid | u != t
      ensures Open(DiesAfter(io, t, bs, k, junk).log, u) == []
    {
      DeadLog(io, t, bs, k, u);
    }
  }

  /** A client that dies after LBEGIN and before LEND, anywhere, even inside a block write: online rollback and
      offline recovery leave the same disk and the same log.  The index is restored exactly, the store exactly on
      every block that was allocated, and every transaction is closed. */
  lemma CrashAnywhere(io: Io, t: Tid, bs: Blocks, k: nat, junk: Contents)
    requires Ready(io, t) && TakenFrom(bs, io.disk) && 1 <= k < |Plan(t, bs)|
    ensures var f := DiesAfter(io, t, bs, k, junk);
            && Rollback(f, t) == RolledBack(Recover(f))
            && Intact(io.disk, Recover(f).disk) && ValidDisk(Recover(f).disk)
            && ViewOf(Recover(f).disk) == ViewOf(io.disk)
            && Recover(f).log == f.log + [AbortRecord(t)] && Settled(Recover(f).log)
  {
    var f := DiesAfter(io, t, bs, k, junk);
    DeadLogOk(io, t, bs, k, junk);
    E.RecordsOpen(t, bs, k);
    RollbackIsRecover(f, t, Midway(t, bs, k));
    forall b
      ensures IntactCell(CellOf(io.disk, b), CellOf(Recover(f).disk, b))
    {
      UndoneIntact(io, t, bs, k, junk, b);
    }
    IntactByCells(io.disk, Recover(f).disk);
    SettledAfterAbort(f.log, t);
  }

  /** Before LBEGIN is logged nothing has changed and there is nothing to recover.  What a rollback does then depends
      on what an earlier user of the tid left in the log: nothing there, and it never returns; LEND, and it finds
      nothing to do; otherwise it undoes records that are already closed. */
  lemma DeadBeforeBegin(io: Io, t: Tid, bs: Blocks, junk: Contents)
    requires Ready(io, t)
    ensures var f, m := DiesAfter(io, t, bs, 0, junk), LastStop(io.log, t);
            && f == Files(io.disk, io.log) && Recover(f) == f
            && Rollback(f, t) ==
                 if m == 0 then NeverReturns
                 else if io.log[m - 1].action == LEND then AlreadyEnded
                 else RolledBack(Files(UndoAll(io.disk, Reverse(Of(io.log[m - 1..], t))), io.log + [AbortRecord(t)]))
  {
    var f := DiesAfter(io, t, bs, 0, junk);
    assert Plan(t, bs)[..0] == [];
    PlanShape(t, bs, 0);
    RecoverNothing(f);
    BackScanOutcome(f.log, t, []);
    var m := LastStop(io.log, t);
    assert m > 0 ==> [] + Reverse(Of(io.log[m - 1..], t)) == Reverse(Of(io.log[m - 1..], t));
  }

  // ---------------------------------------------------------------- a commit that completes

  lemma {:induction false} LastOfConcat(a: seq<Record>, b: seq<Record>, t: Tid)
    requires NotIn(b, t)
    ensures LastOf(a + b, t) == LastOf(a, t)
  {
    if b == [] {
      assert a + b == a;
    } else {
      assert (a + b)[..|a + b| - 1] == a + b[..|b| - 1];
      LastOfConcat(a, b[..|b| - 1], t);
    }
  }

  lemma DoneLast(io: Io, t: Tid, bs: Blocks)
    requires Ready(io, t)
    ensures LastOf(PerformAll(io, Plan(t, bs)).log, t) == Some(EndRecord(t))
  {
    var plan, rs := Plan(t, bs), I.Records(Plan(t, bs));
    PerformAllLog(io, plan);
    PlanShape(t, bs, |plan| - 1);
    assert rs[|rs| - 1] == EndRecord(t);
    var log := Overwrite(io.log, io.pos, rs);
    if io.pos == 0 && |rs| < |io.log| {
      assert log == rs + io.log[|rs|..];
      LastOfConcat(rs, io.log[|rs|..], t);
    } else {
      assert log[|log| - 1] == EndRecord(t);
    }
  }

  lemma DoneCell(io: Io, t: Tid, bs: Blocks, b: int)
    requires ValidIo(io) && TakenFrom(bs, io.disk)
    ensures var d := PerformAll(io, Plan(t, bs)).disk;
            && CellView(CellOf(d, b)) == Get(Overlay(ViewOf(io.disk), bs), b)
            && E.CellOk(CellOf(d, b), CellOf(io.disk, b))
  {
    var plan := Plan(t, bs);
    assert plan[..|plan|] == plan && plan[|plan|..] == [];
    MidwayCell(io, t, bs, |plan|, b);
    ViewAt(io.disk, b);
    OverlayAt(ViewOf(io.disk), bs, b);
    if b in bs {
      assert WellFormed(bs[b]);
      if bs[b].lock != R_LOCK {
        FlushDone(CellOf(PerformAll(io, plan).disk, b), t, b, bs[b]);
      }
    }
  }

  /** Whatever the log holds: all writes of a commit turn the disk's view into the private copy. */
  lemma DoneView(io: Io, t: Tid, bs: Blocks)
    requires ValidIo(io) && TakenFrom(bs, io.disk)
    ensures var d := PerformAll(io, Plan(t, bs)).disk;
            ViewOf(d) == Overlay(ViewOf(io.disk), bs) && ValidDisk(d) && d.index.Keys == io.disk.index.Keys
  {
    var d := PerformAll(io, Plan(t, bs)).disk;
    forall b
      ensures Get(ViewOf(d), b) == Get(Overlay(ViewOf(io.disk), bs), b)
      ensures E.CellOk(CellOf(d, b), CellOf(io.disk, b))
    {
      DoneCell(io, t, bs, b);
      ViewAt(d, b);
    }
    ViewExtensional(ViewOf(d), Overlay(ViewOf(io.disk), bs));
    E.ValidByCells(io.disk, d);
  }

  /** A commit that logs LEND makes the disk's view exactly the private copy, and is final: neither rollback nor
      recovery changes anything afterwards, even if the client dies before it sends END. */
  lemma CommitCompletes(io: Io, t: Tid, bs: Blocks)
    requires Ready(io, t) && TakenFrom(bs, io.disk)
    ensures var r := PerformAll(io, Plan(t, bs)); var f := Files(r.disk, r.log);
            && ViewOf(f.disk) == Overlay(ViewOf(io.disk), bs) && ValidDisk(f.disk)
            && f.disk.index.Keys == io.disk.index.Keys
            && Settled(f.log) && Recover(f) == f && Rollback(f, t) == AlreadyEnded
  {
    var r := PerformAll(io, Plan(t, bs));
    var f := Files(r.disk, r.log);
    DoneView(io, t, bs);
    assert Plan(t, bs)[..|Plan(t, bs)|] == Plan(t, bs);
    forall u: Tid
      ensures Open(f.log, u) == []
    {
      DeadLog(io, t, bs, |Plan(t, bs)|, u);
    }
    RecoverNothing(f);
    DoneLast(io, t, bs);
    BackScanEnded(f.log, t, []);
  }

  /** Why overlapping commits need an append-only log: a second client's first record, written at offset 0, replaces
      the first client's LBEGIN, and a rollback of the first never returns. */
  lemma OverlapLosesBegin(d: Disk, log: seq<Record>, t: Tid, r: Record)
    requires log != [] && r.tid != t
    requires forall i :: 1 <= i < |log| && log[i].tid == t ==> log[i].action != LBEGIN && log[i].action != LEND
    ensures Rollback(Files(d, Put(log, 0, r)), t) == NeverReturns
  {
    BackScanReturns(Put(log, 0, r), t, []);
  }

  // ---------------------------------------------------------------- commits that never overlap, each from offset 0

  datatype Ending = Ends | Dies(writes: nat, junk: Contents)

  /** One client: its commit starts at offset 0 and completes, or is cut off and then rolled back or recovered
      (which leave the same files). */
  datatype Episode = Episode(tid: Tid, blocks: Blocks, ending: Ending)

  function AfterEpisode(f: Files, e: Episode): Files
    requires e.ending.Dies? ==> e.ending.writes < |Plan(e.tid, e.blocks)|
  {
    var io := Io(f.disk, f.log, 0);
    match e.ending
    case Ends => var r := PerformAll(io, Plan(e.tid, e.blocks)); Files(r.disk, r.log)
    case Dies(k, junk) => Recover(DiesAfter(io, e.tid, e.blocks, k, junk))
  }

  ghost predicate Possible(es: seq<Episode>, f: Files, e: Episode) {
    && TakenFrom(e.blocks, f.disk)
    && (forall d :: d in es ==> d.tid != e.tid)
    && (e.ending.Dies? ==> e.ending.writes < |Plan(e.tid, e.blocks)|)
  }

  /** The files after some number of episodes, starting from an empty log. */
  ghost predicate Reaches(d: Disk, es: seq<Episode>, f: Files)
    decreases |es|
  {
    if es == [] then f == Files(d, [])
    else
      var init, e := es[..|es| - 1], es[|es| - 1];
      exists g :: Reaches(d, init, g) && Possible(init, g, e) && f == AfterEpisode(g, e)
  }

  /** The view that the completed commits should produce. */
  function ViewAfter(v: View, es: seq<Episode>): View {
    if es == [] then v
    else
      var e, u := es[|es| - 1], ViewAfter(v, es[..|es| - 1]);
      if e.ending.Ends? then Overlay(u, e.blocks) else u
  }

  ghost predicate OnlyOf(log: seq<Record>, es: seq<Episode>) {
    forall r :: r in log ==> exists e :: e in es && e.tid == r.tid
  }

  lemma PutMember(log: seq<Record>, pos: nat, rs: seq<Record>, r: Record)
    requires pos <= |log| && r in Overwrite(log, pos, rs)
    ensures r in log || r in rs
  {}

  lemma EpisodeRecord(f: Files, e: Episode, k: nat, r: Record)
    requires e.ending.Dies? ==> e.ending.writes < |Plan(e.tid, e.blocks)|
    requires e.ending.Dies? ==> Ready(Io(f.disk, f.log, 0), e.tid) && TakenFrom(e.blocks, f.disk)
    requires k == if e.ending.Ends? then |Plan(e.tid, e.blocks)| else e.ending.writes
    requires r in AfterEpisode(f, e).log
    ensures r in f.log || r.tid == e.tid
  {
    var io, plan := Io(f.disk, f.log, 0), Plan(e.tid, e.blocks);
    assert plan[..|plan|] == plan;
    PerformAllLog(io, plan[..k]);
    var log := PerformAll(io, plan[..k]).log;
    if r in log {
      PutMember(f.log, 0, I.Records(plan[..k]), r);
      PlanOpen(e.tid, e.blocks, k);
    } else if k == 0 {
      DeadBeforeBegin(io, e.tid, e.blocks, e.ending.junk);
    } else {
      CrashAnywhere(io, e.tid, e.blocks, k, e.ending.junk);
    }
  }

  lemma EpisodeRecords(f: Files, es: seq<Episode>, e: Episode)
    requires OnlyOf(f.log, es) && (e.ending.Dies? ==> e.ending.writes < |Plan(e.tid, e.blocks)|)
    requires e.ending.Dies? ==> Ready(Io(f.disk, f.log, 0), e.tid) && TakenFrom(e.blocks, f.disk)
    ensures OnlyOf(AfterEpisode(f, e).log, es + [e])
  {
    var io, plan := Io(f.disk, f.log, 0), Plan(e.tid, e.blocks);
    var k := if e.ending.Ends? then |plan| else e.ending.writes;
    assert plan[..|plan|] == plan;
    PerformAllLog(io, plan[..k]);
    assert (es + [e])[|es|] == e;
    forall r | r in AfterEpisode(f, e).log
      ensures exists d :: d in es + [e] && d.tid == r.tid
    {
      EpisodeRecord(f, e, k, r);
    }
  }

  lemma EpisodeKeeps(es: seq<Episode>, f: Files, e: Episode)
    requires Settled(f.log) && OnlyOf(f.log, es) && Possible(es, f, e)
    ensures var g := AfterEpisode(f, e);
            && ValidDisk(g.disk) && Settled(g.log) && OnlyOf(g.log, es + [e])
            && ViewOf(g.disk) == if e.ending.Ends? then Overlay(ViewOf(f.disk), e.blocks) else ViewOf(f.disk)
  {
    var io := Io(f.disk, f.log, 0);
    assert Ready(io, e.tid);
    EpisodeRecords(f, es, e);
    if e.ending.Ends? {
      CommitCompletes(io, e.tid, e.blocks);
    } else if e.ending.writes == 0 {
      DeadBeforeBegin(io, e.tid, e.blocks, e.ending.junk);
    } else {
      CrashAnywhere(io, e.tid, e.blocks, e.ending.writes, e.ending.junk);
    }
  }

  /** The log as the source really writes it: every client overwrites it from the beginning, rollback and recovery
      append.  With commits that never overlap and fresh tids, every record, stale ones included, is followed by its
      own transaction's LEND or LABORT, and the view is that of the completed commits, however the others died. */
  lemma {:induction false} RealOffsets(d: Disk, es: seq<Episode>, f: Files)
    requires ValidDisk(d) && Reaches(d, es, f)
    ensures ValidDisk(f.disk) && ViewOf(f.disk) == ViewAfter(ViewOf(d), es)
    ensures Settled(f.log) && OnlyOf(f.log, es)
    ensures forall i :: 0 <= i < |f.log| ==> Covered(f.log, i)
    decreases |es|
  {
    if es != [] {
      var init, e := es[..|es| - 1], es[|es| - 1];
      assert es == init + [e];
      var g :| Reaches(d, init, g) && Possible(init, g, e) && f == AfterEpisode(g, e);
      RealOffsets(d, init, g);
      EpisodeKeeps(init, g, e);
    }
    forall i | 0 <= i < |f.log|
      ensures Covered(f.log, i)
    {
      SettledMeans(f.log, i);
    }
  }
}
