/** The undo log: what a backward scan (rollback) and a forward scan (recovery) find, and what undoing does. */
module LogSpec {
  import opened Basics
  import opened Disk

  datatype Action = LREAD | LWRITE | LALLOCATE | LABORT | LRELEASE | LBEGIN | LEND | LCOMMIT

  datatype Record = Record(tid: Tid, action: Action, block: int, oindex: char, oldval: Contents)

  /** The bytes of a record that was given no old value: the zeroed buffer. */
  function NoValue(): Contents { seq(BLOCKSIZE, _ => 0) }

  predicate Terminates(r: Record, tid: Tid) {
    r.tid == tid && (r.action == LEND || r.action == LABORT)
  }

  function AbortRecord(tid: Tid): Record {
    Record(tid, LABORT, 0, '\0', NoValue())
  }

  // ---------------------------------------------------------------- the open records of a transaction

  /** One past the position of tid's last LEND or LABORT. */
  function LastEnd(log: seq<Record>, tid: Tid): (e: nat)
    ensures e <= |log|
    ensures e > 0 ==> Terminates(log[e - 1], tid)
    ensures forall j :: e <= j < |log| ==> !Terminates(log[j], tid)
  {
    if log == [] then 0
    else if Terminates(log[|log| - 1], tid) then |log|
    else LastEnd(log[..|log| - 1], tid)
  }

  function Of(log: seq<Record>, tid: Tid): (rs: seq<Record>)
    ensures forall r :: r in rs <==> r in log && r.tid == tid
  {
    if log == [] then []
    else if log[|log| - 1].tid == tid then Of(log[..|log| - 1], tid) + [log[|log| - 1]]
    else Of(log[..|log| - 1], tid)
  }

  /** tid's open records: those since its last LEND or LABORT. */
  function Open(log: seq<Record>, tid: Tid): (rs: seq<Record>)
    ensures forall r :: r in rs ==> r in log && r.tid == tid && !Terminates(r, tid)
  {
    if log == [] then []
    else
      var r := log[|log| - 1];
      if r.tid != tid then Open(log[..|log| - 1], tid)
      else if Terminates(r, tid) then []
      else Open(log[..|log| - 1], tid) + [r]
  }

  lemma OpenSnoc(log: seq<Record>, r: Record, tid: Tid)
    ensures Open(log + [r], tid) ==
            if r.tid != tid then Open(log, tid)
            else if Terminates(r, tid) then []
            else Open(log, tid) + [r]
  {
    assert (log + [r])[..|log|] == log;
  }

  /** In other words: tid's records after the position of its last LEND or LABORT. */
  lemma {:induction false} OpenIsTail(log: seq<Record>, tid: Tid)
    ensures Open(log, tid) == Of(log[LastEnd(log, tid)..], tid)
  {
    if log != [] && !Terminates(log[|log| - 1], tid) {
      var init, r := log[..|log| - 1], log[|log| - 1];
      OpenIsTail(init, tid);
      var e := LastEnd(log, tid);
      assert log[e..][..|log[e..]| - 1] == init[e..];
      assert log[e..][|log[e..]| - 1] == r;
    }
  }

  // ---------------------------------------------------------------- recovery's forward scan

  type Broken = map<Tid, seq<Record>>

  function ScanStep(bts: Broken, r: Record): Broken {
    if r.action == LEND || r.action == LABORT then bts - {r.tid}
    else bts[r.tid := (if r.tid in bts then bts[r.tid] else []) + [r]]
  }

  function Scan(log: seq<Record>): Broken {
    if log == [] then map[] else ScanStep(Scan(log[..|log| - 1]), log[|log| - 1])
  }

  /** The map built by the read loop holds exactly the open records of every tid that has any. */
  lemma {:induction false} ScanExact(log: seq<Record>, tid: Tid)
    ensures tid in Scan(log) <==> Open(log, tid) != []
    ensures tid in Scan(log) ==> Scan(log)[tid] == Open(log, tid)
  {
    if log == [] {
    } else {
      var init, r := log[..|log| - 1], log[|log| - 1];
      assert log == init + [r];
      ScanExact(init, tid);
      OpenSnoc(init, r, tid);
    }
  }

  lemma ScanSnoc(log: seq<Record>, r: Record)
    ensures Scan(log + [r]) == ScanStep(Scan(log), r)
  {
    assert (log + [r])[..|log|] == log;
  }

  // ---------------------------------------------------------------- rollback's backward scan

  datatype Backward = Ended | Found(recs: seq<Record>) | Spins

  /** Newest record first.  Spins: the file start is reached and the source re-reads record 0 forever. */
  function BackScan(log: seq<Record>, tid: Tid, acc: seq<Record>): Backward {
    if log == [] then Spins
    else
      var init, r := log[..|log| - 1], log[|log| - 1];
      if r.tid != tid then BackScan(init, tid, acc)
      else if r.action == LEND then Ended
      else if r.action == LBEGIN then Found(acc + [r])
      else BackScan(init, tid, acc + [r])
  }

  /** Rollback returns exactly when the log holds an LBEGIN or an LEND of the transaction. */
  lemma {:induction false} BackScanReturns(log: seq<Record>, tid: Tid, acc: seq<Record>)
    ensures BackScan(log, tid, acc) != Spins <==>
            exists r :: r in log && r.tid == tid && (r.action == LBEGIN || r.action == LEND)
  {
    if log != [] {
      var init, r := log[..|log| - 1], log[|log| - 1];
      assert log == init + [r];
      BackScanReturns(init, tid, acc);
      BackScanReturns(init, tid, acc + [r]);
    }
  }

  /** A transaction that has logged LBEGIN and no terminator since. */
  predicate OpenTransaction(rs: seq<Record>) {
    |rs| > 0 && rs[0].action == LBEGIN && forall i :: 1 <= i < |rs| ==> rs[i].action != LBEGIN
  }

  lemma OpenPrefix(rs: seq<Record>, r: Record)
    requires OpenTransaction(rs + [r]) && r.action != LBEGIN
    ensures OpenTransaction(rs)
  {
    assert (rs + [r])[0].action == LBEGIN;
    forall i | 1 <= i < |rs|
      ensures rs[i].action != LBEGIN
    {
      assert (rs + [r])[i] == rs[i];
    }
  }

  lemma ReverseOnto(acc: seq<Record>, earlier: seq<Record>, r: Record)
    ensures acc + Reverse(earlier + [r]) == acc + [r] + Reverse(earlier)
  {
    ReverseSnoc(earlier, r);
    assert acc + ([r] + Reverse(earlier)) == acc + [r] + Reverse(earlier);
  }

  /** For such a transaction the backward scan collects the same records as recovery, newest first. */
  lemma {:induction false} BackScanOpen(log: seq<Record>, tid: Tid, acc: seq<Record>)
    requires OpenTransaction(Open(log, tid))
    ensures BackScan(log, tid, acc) == Found(acc + Reverse(Open(log, tid)))
  {
    var init, r := log[..|log| - 1], log[|log| - 1];
    assert log == init + [r];
    OpenSnoc(init, r, tid);
    var earlier := Open(init, tid);
    if r.tid != tid {
      BackScanOpen(init, tid, acc);
    } else if r.action == LBEGIN {
      assert Open(log, tid)[|earlier|] == r;
      assert earlier == [];
      assert Reverse([r]) == [r];
    } else {
      OpenPrefix(earlier, r);
      BackScanOpen(init, tid, acc + [r]);
      ReverseOnto(acc, earlier, r);
    }
  }

  /** The transaction's newest record. */
  function LastOf(log: seq<Record>, tid: Tid): Option<Record> {
    if log == [] then None
    else if log[|log| - 1].tid == tid then Some(log[|log| - 1])
    else LastOf(log[..|log| - 1], tid)
  }

  lemma {:induction false} BackScanEnded(log: seq<Record>, tid: Tid, acc: seq<Record>)
    requires LastOf(log, tid).Some? && LastOf(log, tid).value.action == LEND
    ensures BackScan(log, tid, acc) == Ended
  {
    if log[|log| - 1].tid != tid {
      BackScanEnded(log[..|log| - 1], tid, acc);
    }
  }

  // ---------------------------------------------------------------- what rollback's scan finds in any log

  /** The records at which the backward scan stops. */
  predicate Stops(r: Record, tid: Tid) {
    r.tid == tid && (r.action == LBEGIN || r.action == LEND)
  }

  /** One past the position of tid's newest LBEGIN or LEND.  LABORT does not count: the scan walks past it. */
  function LastStop(log: seq<Record>, tid: Tid): (m: nat)
    ensures m <= |log|
    ensures m > 0 ==> Stops(log[m - 1], tid)
    ensures forall j :: m <= j < |log| ==> !Stops(log[j], tid)
  {
    if log == [] then 0
    else if Stops(log[|log| - 1], tid) then |log|
    else LastStop(log[..|log| - 1], tid)
  }

  /** What a backward scan should find: nothing ever without a stop, LEND, or everything of the transaction from its
      newest LBEGIN on, closed or not, newest first. */
  function Outcome(log: seq<Record>, tid: Tid, acc: seq<Record>): Backward {
    var m := LastStop(log, tid);
    if m == 0 then Spins
    else if log[m - 1].action == LEND then Ended
    else Found(acc + Reverse(Of(log[m - 1..], tid)))
  }

  lemma TailSnoc(init: seq<Record>, r: Record, k: nat, tid: Tid, acc: seq<Record>)
    requires k < |init|
    ensures Of((init + [r])[k..], tid) == Of(init[k..], tid) + (if r.tid == tid then [r] else [])
    ensures acc + Reverse(Of((init + [r])[k..], tid)) ==
            (if r.tid == tid then acc + [r] else acc) + Reverse(Of(init[k..], tid))
  {
    var older := Of(init[k..], tid);
    assert (init + [r])[k..] == init[k..] + [r];
    assert (init[k..] + [r])[..|init[k..]|] == init[k..];
    if r.tid == tid {
      ReverseSnoc(older, r);
      assert acc + ([r] + Reverse(older)) == acc + [r] + Reverse(older);
    }
  }

  lemma OutcomeSnoc(init: seq<Record>, r: Record, tid: Tid, acc: seq<Record>)
    ensures Outcome(init + [r], tid, acc) ==
            if r.tid != tid then Outcome(init, tid, acc)
            else if r.action == LEND then Ended
            else if r.action == LBEGIN then Found(acc + [r])
            else Outcome(init, tid, acc + [r])
  {
    assert (init + [r])[..|init|] == init;
    if Stops(r, tid) {
      assert (init + [r])[|init|..] == [r];
      assert [r][..0] == [] && Of([r], tid) == [r] && Reverse([r]) == [r];
    } else {
      var m := LastStop(init, tid);
      assert LastStop(init + [r], tid) == m;
      if m > 0 {
        TailSnoc(init, r, m - 1, tid, acc);
      }
    }
  }

  /** The scan in any log. */
  lemma {:induction false} BackScanOutcome(log: seq<Record>, tid: Tid, acc: seq<Record>)
    ensures BackScan(log, tid, acc) == Outcome(log, tid, acc)
  {
    if log != [] {
      var init, r := log[..|log| - 1], log[|log| - 1];
      assert log == init + [r];
      OutcomeSnoc(init, r, tid, acc);
      BackScanOutcome(init, tid, acc);
      BackScanOutcome(init, tid, acc + [r]);
    }
  }

  lemma {:induction false} OfHead(r: Record, rest: seq<Record>, tid: Tid)
    requires r.tid == tid
    ensures Of([r] + rest, tid) == [r] + Of(rest, tid)
  {
    if rest == [] {
      assert [r] + rest == [r];
      assert [r][..0] == [];
    } else {
      var init := rest[..|rest| - 1];
      assert ([r] + rest)[..|rest|] == [r] + init;
      OfHead(r, init, tid);
    }
  }

  lemma FromBegin(log: seq<Record>, m: nat, tid: Tid)
    requires 0 < m <= |log| && log[m - 1].action == LBEGIN && forall j :: m <= j < |log| ==> !Stops(log[j], tid)
    ensures OpenTransaction([log[m - 1]] + Of(log[m..], tid))
  {
    var rest := Of(log[m..], tid);
    forall i | 0 <= i < |rest|
      ensures rest[i].action != LBEGIN
    {
      assert rest[i] in rest;
      var j :| 0 <= j < |log[m..]| && log[m..][j] == rest[i];
      assert !Stops(log[m + j], tid);
    }
  }

  /** Collected records start, in file order, with the newest LBEGIN. */
  lemma FoundFromBegin(log: seq<Record>, tid: Tid)
    requires BackScan(log, tid, []).Found?
    ensures OpenTransaction(Reverse(BackScan(log, tid, []).recs))
  {
    BackScanOutcome(log, tid, []);
    var m := LastStop(log, tid);
    var all := Of(log[m - 1..], tid);
    assert [] + Reverse(all) == Reverse(all);
    ReverseTwice(all);
    assert log[m - 1..] == [log[m - 1]] + log[m..];
    OfHead(log[m - 1], log[m..], tid);
    FromBegin(log, m, tid);
  }

  /** Rollback's scan finds exactly the open records if and only if the transaction has logged LBEGIN since its last
      terminator. */
  lemma BackScanExact(log: seq<Record>, tid: Tid)
    ensures BackScan(log, tid, []) == Found(Reverse(Open(log, tid))) <==> OpenTransaction(Open(log, tid))
  {
    if OpenTransaction(Open(log, tid)) {
      BackScanOpen(log, tid, []);
      assert [] + Reverse(Open(log, tid)) == Reverse(Open(log, tid));
    }
    if BackScan(log, tid, []) == Found(Reverse(Open(log, tid))) {
      FoundFromBegin(log, tid);
      ReverseTwice(Open(log, tid));
    }
  }

  /** With nothing open the newest record is a terminator, and it is the first one the scan collects. */
  lemma {:induction false} LastNewest(log: seq<Record>, tid: Tid, acc: seq<Record>)
    requires Open(log, tid) == []
    ensures LastOf(log, tid) == None ==> BackScan(log, tid, acc) == Spins
    ensures LastOf(log, tid).Some? ==> Terminates(LastOf(log, tid).value, tid)
    ensures LastOf(log, tid).Some? && LastOf(log, tid).value.action == LEND ==> BackScan(log, tid, acc) == Ended
    ensures LastOf(log, tid).Some? && BackScan(log, tid, acc).Found? ==>
              |BackScan(log, tid, acc).recs| > |acc| && BackScan(log, tid, acc).recs[|acc|] == LastOf(log, tid).value
  {
    if log != [] {
      var init, r := log[..|log| - 1], log[|log| - 1];
      if r.tid != tid {
        LastNewest(init, tid, acc);
      } else {
        BackScanOutcome(init, tid, acc + [r]);
      }
    }
  }

  /** A transaction with nothing open: rollback finds nothing to do only if its newest record is LEND, or LABORT right
      after an LEND.  It never returns if there is no LBEGIN or LEND at all, and otherwise it collects records that an
      LABORT has closed. */
  lemma NothingOpen(log: seq<Record>, tid: Tid)
    requires Open(log, tid) == []
    ensures LastOf(log, tid) == None ==> BackScan(log, tid, []) == Spins
    ensures LastOf(log, tid).Some? && LastOf(log, tid).value.action == LEND ==> BackScan(log, tid, []) == Ended
    ensures BackScan(log, tid, []).Found? ==>
              && BackScan(log, tid, []).recs != []
              && LastOf(log, tid) == Some(BackScan(log, tid, []).recs[0])
              && BackScan(log, tid, []).recs[0].action == LABORT
              && OpenTransaction(Reverse(BackScan(log, tid, []).recs))
  {
    LastNewest(log, tid, []);
    if BackScan(log, tid, []).Found? {
      FoundFromBegin(log, tid);
    }
  }

  // ---------------------------------------------------------------- undoing records

  predicate Touches(r: Record) {
    r.action == LWRITE || r.action == LALLOCATE || r.action == LRELEASE
  }

  function UndoRecord(d: Disk, r: Record): Disk {
    match r.action
    case LWRITE => d.(store := d.store[r.block := r.oldval])
    case LALLOCATE => d.(index := d.index[r.block := 'U'])
    case LRELEASE =>
      var e := d.(index := d.index[r.block := r.oindex]);
      if r.oindex == 'A' then e.(store := e.store[r.block := r.oldval]) else e
    case _ => d
  }

  function UndoAll(d: Disk, rs: seq<Record>): Disk
    decreases |rs|
  {
    if rs == [] then d else UndoAll(UndoRecord(d, rs[0]), rs[1..])
  }

  /** The effect of undoing r on r's own block. */
  function UndoCell(c: Cell, r: Record): Cell {
    match r.action
    case LWRITE => c.(val := Some(r.oldval))
    case LALLOCATE => c.(idx := Some('U'))
    case LRELEASE => Cell(Some(r.oindex), if r.oindex == 'A' then Some(r.oldval) else c.val)
    case _ => c
  }

  lemma UndoRecordAt(d: Disk, r: Record, b: int)
    ensures CellOf(UndoRecord(d, r), b) ==
            if Touches(r) && r.block == b then UndoCell(CellOf(d, b), r) else CellOf(d, b)
  {}

  /** commit() logs each block at most once: no two different undo images for one block. */
  predicate Consistent(rs: seq<Record>) {
    forall r, q :: r in rs && q in rs && Touches(r) && Touches(q) && r.block == q.block ==> r == q
  }

  lemma {:induction false} UndoAllElsewhere(d: Disk, rs: seq<Record>, b: int)
    requires forall r :: r in rs && Touches(r) ==> r.block != b
    ensures CellOf(UndoAll(d, rs), b) == CellOf(d, b)
    decreases |rs|
  {
    if rs != [] {
      UndoRecordAt(d, rs[0], b);
      assert forall r :: r in rs[1..] ==> r in rs;
      UndoAllElsewhere(UndoRecord(d, rs[0]), rs[1..], b);
    }
  }

  lemma {:induction false} UndoAllAt(d: Disk, rs: seq<Record>, r: Record)
    requires Consistent(rs) && r in rs && Touches(r)
    ensures CellOf(UndoAll(d, rs), r.block) == UndoCell(CellOf(d, r.block), r)
    decreases |rs|
  {
    var first, rest := rs[0], rs[1..];
    assert rs == [first] + rest;
    UndoRecordAt(d, first, r.block);
    if r in rest {
      UndoAllAt(UndoRecord(d, first), rest, r);
    } else {
      UndoAllElsewhere(UndoRecord(d, first), rest, r.block);
    }
  }

  /** Undoing is insensitive to order and repetition: rollback's newest-first and recovery's
      oldest-first passes over the same records leave the same disk. */
  lemma UndoOrderIndependent(d: Disk, rs: seq<Record>, qs: seq<Record>)
    requires Consistent(rs)
    requires forall r :: r in rs <==> r in qs
    ensures UndoAll(d, rs) == UndoAll(d, qs)
  {
    forall b
      ensures CellOf(UndoAll(d, rs), b) == CellOf(UndoAll(d, qs), b)
    {
      if r :| r in rs && Touches(r) && r.block == b {
        UndoAllAt(d, rs, r);
        UndoAllAt(d, qs, r);
      } else {
        UndoAllElsewhere(d, rs, b);
        UndoAllElsewhere(d, qs, b);
      }
    }
    DiskExtensional(UndoAll(d, rs), UndoAll(d, qs));
  }
}
