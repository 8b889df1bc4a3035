/** One transaction over an unchanged disk: every call answers as a private copy of the view would, the saved old values
    stay those of the disk, and commit() makes the disk's view equal the copy. */
module ClientRefinement {
  import opened Basics
  import opened Disk
  import opened LogSpec
  import opened Client
  import opened Recovery
  import opened CommitCrash
  import S = SystemSpec

  /** A call that gets its lock if it needs one, or an allocation attempt that the monitor refuses.  Any other refusal
      ends the transaction. */
  datatype Op = Call(call: S.Call) | Refused(block: int)

  /** What the program gets back.  Raised: the transaction aborts. */
  datatype Answer = Value(x: Contents) | NewBlock(block: int) | Done | Raised

  // ---------------------------------------------------------------- the library

  const START := S.Tx(0, map[], [], 0, S.Working)

  function Perform(tx: S.Tx, d: Disk, op: Op): S.Tx {
    match op
    case Refused(b) => if IsNextFree(d, tx.lastFree, b) then tx.(lastFree := b) else tx
    case Call(c) =>
      match S.RouteOf(tx, d, c)
      case Local => if c.block in tx.blocks then S.LocalTx(tx, c) else tx
      case AskMonitor => S.GrantedTx(if c.Allocate? then tx.(lastFree := c.block) else tx, d, c)
      case Reject => tx
  }

  function RunLibrary(d: Disk, ops: seq<Op>): S.Tx {
    if ops == [] then START else Perform(RunLibrary(d, ops[..|ops| - 1]), d, ops[|ops| - 1])
  }

  function AnswerOf(tx: S.Tx, d: Disk, c: S.Call): Answer {
    var route := S.RouteOf(tx, d, c);
    if route == Reject then Raised
    else
      match c
      case Allocate(b) => NewBlock(b)
      case Release(_) => Done
      case _ =>
        if route == Local then (if c.block in tx.blocks then Value(tx.blocks[c.block].data) else Raised)
        else if c.block in d.store then Value(d.store[c.block]) else Raised
  }

  // ---------------------------------------------------------------- the private copy

  /** A copy of the view, the blocks released so far and the last block number tried by allocate. */
  datatype Copy = Copy(view: View, released: set<int>, last: int)

  function CopyStep(p: Copy, d: Disk, op: Op): Copy {
    match op
    case Refused(b) => if IsNextFree(d, p.last, b) then p.(last := b) else p
    case Call(Read(_)) => p
    case Call(Write(b, x)) => if b in p.view then p.(view := p.view[b := x]) else p
    case Call(Release(b)) => if b in p.view then p.(view := p.view - {b}, released := p.released + {b}) else p
    case Call(Allocate(b)) =>
      if IsNextFree(d, p.last, b) then p.(view := p.view[b := ZeroBlock()], last := b) else p
  }

  function RunCopy(d: Disk, ops: seq<Op>): Copy {
    if ops == [] then Copy(ViewOf(d), {}, 0) else CopyStep(RunCopy(d, ops[..|ops| - 1]), d, ops[|ops| - 1])
  }

  /** Reads and writes need the block in the copy; a block already released may be released again. */
  function CopyAnswer(p: Copy, d: Disk, c: S.Call): Answer {
    match c
    case Read(b) => if b in p.view then Value(p.view[b]) else Raised
    case Write(b, _) => if b in p.view then Value(p.view[b]) else Raised
    case Release(b) => if b in p.view || b in p.released then Done else Raised
    case Allocate(b) => if IsNextFree(d, p.last, b) then NewBlock(b) else Raised
  }

  // ---------------------------------------------------------------- the simulation

  ghost predicate Matches(d: Disk, tx: S.Tx, p: Copy) {
    && TakenFrom(tx.blocks, d) && tx.lastFree == p.last && Overlay(ViewOf(d), tx.blocks) == p.view
    && (forall b :: b in p.released <==> b in tx.blocks && tx.blocks[b].lock == S_LOCK)
    && (forall b :: b in tx.blocks && d.index[b] == 'U' ==> b <= tx.lastFree)
  }

  lemma MatchesAt(d: Disk, tx: S.Tx, p: Copy, b: int)
    requires Matches(d, tx, p)
    ensures Get(p.view, b) == if b in tx.blocks then After(tx.blocks[b]) else Get(ViewOf(d), b)
    ensures IsAllocated(d, b) <==> b in ViewOf(d)
    ensures b in tx.blocks ==> b > 0 && WellFormed(tx.blocks[b]) && tx.blocks[b].oldindex == d.index[b]
    ensures b in ViewOf(d) ==> b > 0 && ViewOf(d)[b] == d.store[b]
  {
    OverlayAt(ViewOf(d), tx.blocks, b);
    if b in tx.blocks {
      assert WellFormed(tx.blocks[b]) && Get(ViewOf(d), b) == Before(tx.blocks[b]);
    }
  }

  lemma AnswersAgree(d: Disk, tx: S.Tx, p: Copy, c: S.Call)
    requires Matches(d, tx, p)
    ensures AnswerOf(tx, d, c) == CopyAnswer(p, d, c)
  {
    MatchesAt(d, tx, p, c.block);
  }

  /** One block of the map changes, its saved old value does not. */
  lemma Replaced(d: Disk, tx: S.Tx, p: Copy, b: int, mb: MBlock, last: int, q: Copy)
    requires Matches(d, tx, p) && last >= tx.lastFree
    requires WellFormed(mb) && b in d.index && Get(ViewOf(d), b) == Before(mb) && (d.index[b] == 'U' ==> b <= last)
    requires q.view == Set(p.view, b, After(mb)) && q.last == last
    requires q.released == if mb.lock == S_LOCK then p.released + {b} else p.released - {b}
    ensures Matches(d, tx.(blocks := tx.blocks[b := mb], lastFree := last), q)
  {
    OverlaySet(ViewOf(d), tx.blocks, b, mb);
  }

  lemma Unobserved(d: Disk, tx: S.Tx, p: Copy, obs: seq<Obs>)
    requires Matches(d, tx, p)
    ensures Matches(d, tx.(obs := obs), p)
  {}

  lemma CallStep(d: Disk, tx: S.Tx, p: Copy, c: S.Call)
    requires Matches(d, tx, p)
    ensures Matches(d, Perform(tx, d, Call(c)), CopyStep(p, d, Call(c)))
  {
    var b, next, q := c.block, Perform(tx, d, Call(c)), CopyStep(p, d, Call(c));
    MatchesAt(d, tx, p, b);
    if next.blocks != tx.blocks {
      var mb := next.blocks[b];
      assert WellFormed(mb) && b in d.index && Get(ViewOf(d), b) == Before(mb);
      Replaced(d, tx, p, b, mb, next.lastFree, q);
      Unobserved(d, tx.(blocks := tx.blocks[b := mb], lastFree := next.lastFree), q, next.obs);
    } else {
      Unobserved(d, tx, p, next.obs);
    }
  }

  lemma OpStep(d: Disk, tx: S.Tx, p: Copy, op: Op)
    requires Matches(d, tx, p)
    ensures Matches(d, Perform(tx, d, op), CopyStep(p, d, op))
  {
    if op.Call? {
      CallStep(d, tx, p, op.call);
    }
  }

  /** After every sequence of calls, every next call gets the answer the private copy would give: reads see the
      program's own writes, released blocks are gone, and a call is rejected exactly when the copy lacks the block. */
  lemma {:induction false} Refines(d: Disk, ops: seq<Op>)
    requires ValidDisk(d)
    ensures Matches(d, RunLibrary(d, ops), RunCopy(d, ops))
    ensures forall c :: AnswerOf(RunLibrary(d, ops), d, c) == CopyAnswer(RunCopy(d, ops), d, c)
  {
    if ops == [] {
      assert Overlay(ViewOf(d), map[]) == ViewOf(d);
    } else {
      var init, op := ops[..|ops| - 1], ops[|ops| - 1];
      Refines(d, init);
      OpStep(d, RunLibrary(d, init), RunCopy(d, init), op);
    }
    forall c
      ensures AnswerOf(RunLibrary(d, ops), d, c) == CopyAnswer(RunCopy(d, ops), d, c)
    {
      AnswersAgree(d, RunLibrary(d, ops), RunCopy(d, ops), c);
    }
  }

  /** Through repeated writes, upgrades and releases every entry of the map keeps the block's pre-transaction index,
      and its pre-transaction contents if it had any; a block allocated and then released keeps old index 'U'. */
  lemma SavedOldValues(d: Disk, ops: seq<Op>, b: int)
    requires ValidDisk(d) && b in RunLibrary(d, ops).blocks
    ensures b in d.index && RunLibrary(d, ops).blocks[b].oldindex == d.index[b]
    ensures d.index[b] == 'A' ==> RunLibrary(d, ops).blocks[b].oldval == d.store[b]
    ensures RunLibrary(d, ops).blocks[b].lock == W_LOCK ==> d.index[b] == 'A'
    ensures RunLibrary(d, ops).blocks[b].lock == A_LOCK ==> d.index[b] == 'U'
  {
    Refines(d, ops);
    MatchesAt(d, RunLibrary(d, ops), RunCopy(d, ops), b);
    assert Get(ViewOf(d), b) == Before(RunLibrary(d, ops).blocks[b]);
  }

  /** commit() publishes the private copy: the disk's view becomes what the program was shown. */
  lemma CommitPublishes(d: Disk, log: seq<Record>, pos: nat, t: Tid, ops: seq<Op>)
    requires ValidDisk(d) && pos <= |log|
    ensures ViewOf(PerformAll(Io(d, log, pos), Plan(t, RunLibrary(d, ops).blocks)).disk) == RunCopy(d, ops).view
  {
    Refines(d, ops);
    DoneView(Io(d, log, pos), t, RunLibrary(d, ops).blocks);
  }

  /** Whatever the program did, a client that dies after LBEGIN and before LEND leaves nothing behind once it is rolled
      back or recovered: the index is as before, and so is every block that was allocated. */
  lemma DeathLeavesNothing(d: Disk, log: seq<Record>, pos: nat, t: Tid, ops: seq<Op>, k: nat, junk: Contents)
    requires ValidDisk(d) && Ready(Io(d, log, pos), t) && 1 <= k < |Plan(t, RunLibrary(d, ops).blocks)|
    ensures var f := DiesAfter(Io(d, log, pos), t, RunLibrary(d, ops).blocks, k, junk);
            && Rollback(f, t) == RolledBack(Recover(f))
            && Recover(f).disk.index == d.index
            && forall b :: IsAllocated(d, b) ==> b in Recover(f).disk.store && Recover(f).disk.store[b] == d.store[b]
  {
    Refines(d, ops);
    CrashAnywhere(Io(d, log, pos), t, RunLibrary(d, ops).blocks, k, junk);
  }

  // ---------------------------------------------------------------- the search for free blocks

  /** The library itself picks the block of an allocation: the next free one. */
  ghost predicate Picked(d: Disk, ops: seq<Op>) {
    forall i :: 0 <= i < |ops| ==>
      var last := RunLibrary(d, ops[..i]).lastFree;
      match ops[i]
      case Refused(b) => IsNextFree(d, last, b)
      case Call(Allocate(b)) => IsNextFree(d, last, b)
      case _ => true
  }

  predicate Tries(op: Op, b: int) {
    op == Refused(b) || op == Call(S.Allocate(b))
  }

  /** Every block number tried is at most last. */
  ghost predicate TriedBelow(ops: seq<Op>, last: int) {
    forall i, a :: 0 <= i < |ops| && Tries(ops[i], a) ==> a <= last
  }

  /** Block numbers are tried in strictly increasing order. */
  ghost predicate Increasing(ops: seq<Op>) {
    forall i, j, a, b :: 0 <= i < j < |ops| && Tries(ops[i], a) && Tries(ops[j], b) ==> a < b
  }

  predicate Tried(ops: seq<Op>, b: int) {
    exists i :: 0 <= i < |ops| && Tries(ops[i], b)
  }

  /** No free block up to last was passed over untried. */
  ghost predicate NoneSkipped(d: Disk, ops: seq<Op>, last: int) {
    forall b :: 0 < b <= last && b in d.index && d.index[b] == 'U' ==> Tried(ops, b)
  }

  /** What one more call does to the search: it tries the next free block, or none. */
  lemma SearchStep(tx: S.Tx, d: Disk, op: Op)
    requires forall b :: Tries(op, b) ==> IsNextFree(d, tx.lastFree, b)
    ensures Perform(tx, d, op).lastFree >= tx.lastFree
    ensures forall b :: Tries(op, b) ==> Perform(tx, d, op).lastFree == b > tx.lastFree
    ensures forall b :: tx.lastFree < b <= Perform(tx, d, op).lastFree && b in d.index && d.index[b] == 'U' ==> Tries(op, b)
  {}

  lemma TriedMore(ops: seq<Op>, op: Op, b: int)
    ensures Tried(ops + [op], b) <==> Tried(ops, b) || Tries(op, b)
  {
    assert (ops + [op])[|ops|] == op;
    if i :| 0 <= i < |ops| && Tries(ops[i], b) {
      assert Tries((ops + [op])[i], b);
    }
  }

  lemma SearchMore(d: Disk, ops: seq<Op>, op: Op, last: int, next: int)
    requires TriedBelow(ops, last) && Increasing(ops) && NoneSkipped(d, ops, last) && next >= last
    requires forall b :: Tries(op, b) ==> next == b > last
    requires forall b :: last < b <= next && b in d.index && d.index[b] == 'U' ==> Tries(op, b)
    ensures TriedBelow(ops + [op], next) && Increasing(ops + [op]) && NoneSkipped(d, ops + [op], next)
  {
    forall b | 0 < b <= next && b in d.index && d.index[b] == 'U'
      ensures Tried(ops + [op], b)
    {
      TriedMore(ops, op, b);
    }
  }

  lemma PickedBefore(d: Disk, ops: seq<Op>)
    requires Picked(d, ops) && ops != []
    ensures var init, op := ops[..|ops| - 1], ops[|ops| - 1];
            && Picked(d, init)
            && forall b :: Tries(op, b) ==> IsNextFree(d, RunLibrary(d, init).lastFree, b)
  {
    var init := ops[..|ops| - 1];
    forall i | 0 <= i < |init|
      ensures init[..i] == ops[..i] && init[i] == ops[i]
    {}
  }

  /** Within a transaction block numbers are tried in strictly increasing order, and every free block passed over was
      tried: the search skips only blocks that are allocated or were refused. */
  lemma {:induction false} SearchOrder(d: Disk, ops: seq<Op>)
    requires Picked(d, ops)
    ensures Increasing(ops)
    ensures TriedBelow(ops, RunLibrary(d, ops).lastFree) && NoneSkipped(d, ops, RunLibrary(d, ops).lastFree)
  {
    if ops != [] {
      var n := |ops| - 1;
      var init := ops[..n];
      PickedBefore(d, ops);
      SearchOrder(d, init);
      SearchStep(RunLibrary(d, init), d, ops[n]);
      SearchMore(d, init, ops[n], RunLibrary(d, init).lastFree, RunLibrary(d, ops).lastFree);
      assert ops == init + [ops[n]];
    }
  }
}
