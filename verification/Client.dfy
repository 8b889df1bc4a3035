/** A transaction's private block map: what each operation does to it, what it stands for, and how commit flushes it. */
module Client {
  import opened Basics
  import opened Disk
  import opened LogSpec

  datatype Lock = A_LOCK | R_LOCK | W_LOCK | S_LOCK

  datatype MBlock = MBlock(lock: Lock, data: Contents, oldval: Contents, oldindex: char)

  type Blocks = map<int, MBlock>

  // ---------------------------------------------------------------- the operations

  predicate IsAllocated(d: Disk, b: int) {
    b <= NBLOCKS && b in d.index && d.index[b] == 'A'
  }

  /** How an operation proceeds: from the private map, by asking the monitor, or not at all. */
  datatype Route = Local | AskMonitor | Reject

  function RouteRead(bs: Blocks, d: Disk, b: int): Route {
    if b <= 0 then Reject
    else if b in bs then if bs[b].lock == S_LOCK then Reject else Local
    else if IsAllocated(d, b) then AskMonitor
    else Reject
  }

  function RouteWrite(bs: Blocks, d: Disk, b: int): Route {
    if b <= 0 || (b in bs && bs[b].lock == S_LOCK) then Reject
    else if b in bs && bs[b].lock != R_LOCK then Local
    else if IsAllocated(d, b) then AskMonitor
    else Reject
  }

  function RouteRelease(bs: Blocks, d: Disk, b: int): Route {
    if b <= 0 then Reject
    else if b in bs && bs[b].lock != R_LOCK then Local
    else if IsAllocated(d, b) then AskMonitor
    else Reject
  }

  /** A fresh block: data and oldval are one buffer. */
  function Allocated(): MBlock {
    MBlock(A_LOCK, ZeroBlock(), ZeroBlock(), 'U')
  }

  function ReadFrom(x: Contents): MBlock {
    MBlock(R_LOCK, x, x, 'A')
  }

  /** Writing in the private map; an A-locked block shares one buffer between data and oldval. */
  function WrittenLocally(mb: MBlock, x: Contents): MBlock {
    if mb.lock == A_LOCK then mb.(data := x, oldval := x) else mb.(data := x)
  }

  function WrittenOver(was: Contents, x: Contents): MBlock {
    MBlock(W_LOCK, x, was, 'A')
  }

  function ReleasedLocally(mb: MBlock): MBlock {
    mb.(lock := S_LOCK)
  }

  function ReleasedFrom(x: Contents): MBlock {
    MBlock(S_LOCK, x, x, 'A')
  }

  /** The next block find_free_block returns: the first 'U' after `last`. */
  predicate IsNextFree(d: Disk, last: int, b: int) {
    b > last && b in d.index && d.index[b] == 'U' &&
    forall k :: last < k < b && k in d.index ==> d.index[k] != 'U'
  }

  // ---------------------------------------------------------------- what the map stands for

  predicate WellFormed(mb: MBlock) {
    match mb.lock
    case A_LOCK => mb.oldindex == 'U'
    case R_LOCK => mb.oldindex == 'A' && mb.data == mb.oldval
    case W_LOCK => mb.oldindex == 'A'
    case S_LOCK => mb.oldindex == 'A' || mb.oldindex == 'U'
  }

  predicate WellFormedBlocks(bs: Blocks) {
    forall b :: b in bs ==> b > 0 && WellFormed(bs[b])
  }

  /** The block before the transaction, as saved for the log. */
  function Before(mb: MBlock): Option<Contents> {
    if mb.oldindex == 'A' then Some(mb.oldval) else None
  }

  /** The block as the transaction leaves it. */
  function After(mb: MBlock): Option<Contents> {
    if mb.lock == S_LOCK then None else Some(mb.data)
  }

  predicate Agrees(v: View, bs: Blocks) {
    forall b :: b in bs ==> Get(v, b) == Before(bs[b])
  }

  /** The private copy: the view with the block map laid over it. */
  function Overlay(v: View, bs: Blocks): View {
    map b | b in v.Keys + bs.Keys && (b in bs ==> After(bs[b]).Some?) ::
      if b in bs then After(bs[b]).value else v[b]
  }

  lemma OverlayAt(v: View, bs: Blocks, b: int)
    ensures Get(Overlay(v, bs), b) == if b in bs then After(bs[b]) else Get(v, b)
  {}

  // ---------------------------------------------------------------- the serial reference

  /** What the program saw of one operation. */
  datatype Obs =
    | DidRead(block: int, value: Contents)
    | DidWrite(block: int, was: Contents, now: Contents)
    | DidAllocate(block: int)
    | DidRelease(block: int)

  /** The effect an observation has on its block in a one-copy, one-user store. */
  predicate Fits(o: Obs, pre: Option<Contents>, post: Option<Contents>) {
    match o
    case DidRead(_, x) => pre == post == Some(x)
    case DidWrite(_, was, x) => pre == Some(was) && post == Some(x)
    case DidAllocate(_) => pre == None && post == Some(ZeroBlock())
    case DidRelease(_) => pre.Some? && post == None
  }

  /** One operation against a plain store: None when the plain store would not have shown this. */
  function Apply(v: View, o: Obs): Option<View> {
    match o
    case DidRead(b, x) => if Get(v, b) == Some(x) then Some(v) else None
    case DidWrite(b, was, x) => if Get(v, b) == Some(was) then Some(v[b := x]) else None
    case DidAllocate(b) => if b !in v then Some(v[b := ZeroBlock()]) else None
    case DidRelease(b) => if b in v then Some(v - {b}) else None
  }

  lemma ApplyFits(v: View, o: Obs, post: Option<Contents>)
    requires Fits(o, Get(v, o.block), post)
    ensures Apply(v, o) == Some(Set(v, o.block, post))
  {
    if o.DidRead? {
      assert Set(v, o.block, post) == v;
    }
  }

  /** Exactly when the plain store would have shown this, and nothing but the observed block changes. */
  lemma ApplyExact(v: View, o: Obs, u: View)
    ensures Apply(v, o) == Some(u) <==>
              Fits(o, Get(v, o.block), Get(u, o.block)) && forall b :: b != o.block ==> Get(u, b) == Get(v, b)
  {
    if Fits(o, Get(v, o.block), Get(u, o.block)) && forall b :: b != o.block ==> Get(u, b) == Get(v, b) {
      forall b
        ensures Get(Set(v, o.block, Get(u, o.block)), b) == Get(u, b)
      {}
      ViewExtensional(Set(v, o.block, Get(u, o.block)), u);
      ApplyFits(v, o, Get(u, o.block));
    }
  }

  function Replay(v: View, obs: seq<Obs>): Option<View> {
    if obs == [] then Some(v)
    else match Replay(v, obs[..|obs| - 1])
      case None => None
      case Some(u) => Apply(u, obs[|obs| - 1])
  }

  /** The block map simulates the program's operations on any store that agrees with the saved old values. */
  ghost predicate Simulates(bs: Blocks, obs: seq<Obs>) {
    forall v {:trigger Replay(v, obs)} :: Agrees(v, bs) ==> Replay(v, obs) == Some(Overlay(v, bs))
  }

  lemma SimulatesNothing()
    ensures Simulates(map[], [])
  {
    forall v: View | Agrees(v, map[])
      ensures Replay(v, []) == Some(Overlay(v, map[]))
    {
      assert Overlay(v, map[]) == v;
    }
  }

  lemma OverlaySet(v: View, bs: Blocks, b: int, mb: MBlock)
    ensures Set(Overlay(v, bs), b, After(mb)) == Overlay(v, bs[b := mb])
  {
    forall x
      ensures Get(Set(Overlay(v, bs), b, After(mb)), x) == Get(Overlay(v, bs[b := mb]), x)
    {
      OverlayAt(v, bs, x);
      OverlayAt(v, bs[b := mb], x);
    }
    ViewExtensional(Set(Overlay(v, bs), b, After(mb)), Overlay(v, bs[b := mb]));
  }

  /** Every operation keeps the simulation: it leaves the saved old value alone and its observation fits. */
  lemma Observe(bs: Blocks, obs: seq<Obs>, mb: MBlock, o: Obs)
    requires Simulates(bs, obs)
    requires o.block in bs ==> Before(bs[o.block]) == Before(mb)
    requires Fits(o, if o.block in bs then After(bs[o.block]) else Before(mb), After(mb))
    ensures Simulates(bs[o.block := mb], obs + [o])
  {
    var next := bs[o.block := mb];
    forall v: View | Agrees(v, next)
      ensures Replay(v, obs + [o]) == Some(Overlay(v, next))
    {
      forall b | b in bs
        ensures Get(v, b) == Before(bs[b])
      {
        assert b in next && Get(v, b) == Before(next[b]);
      }
      assert Agrees(v, bs);
      assert Get(v, o.block) == Before(next[o.block]);
      OverlayAt(v, bs, o.block);
      ApplyFits(Overlay(v, bs), o, After(mb));
      assert (obs + [o])[..|obs|] == obs;
      OverlaySet(v, bs, o.block, mb);
    }
  }

  // ---------------------------------------------------------------- the writes of commit()

  datatype Write = LogW(rec: Record) | IndexW(block: int, c: char) | StoreW(block: int, contents: Contents)

  function BlockOf(w: Write): int {
    if w.LogW? then w.rec.block else w.block
  }

  function BlockWrites(tid: Tid, b: int, mb: MBlock): seq<Write> {
    match mb.lock
    case A_LOCK => [LogW(Record(tid, LALLOCATE, b, ' ', NoValue())), IndexW(b, 'A'), StoreW(b, mb.data)]
    case W_LOCK => [LogW(Record(tid, LWRITE, b, mb.oldindex, mb.oldval)), StoreW(b, mb.data)]
    case S_LOCK => [LogW(Record(tid, LRELEASE, b, mb.oldindex, mb.oldval)), IndexW(b, 'U')]
    case R_LOCK => [LogW(Record(tid, LREAD, b, ' ', NoValue()))]
  }

  function BeginRecord(tid: Tid): Record { Record(tid, LBEGIN, 0, ' ', NoValue()) }

  function EndRecord(tid: Tid): Record { Record(tid, LEND, 0, ' ', NoValue()) }

  /** The map is walked in key order. */
  function PlanBlocks(tid: Tid, bs: Blocks, ks: set<int>): seq<Write>
    requires ks <= bs.Keys
  {
    if ks == {} then []
    else var b := Least(ks); BlockWrites(tid, b, bs[b]) + PlanBlocks(tid, bs, ks - {b})
  }

  /** All writes of commit(), from LBEGIN to LEND. */
  function Plan(tid: Tid, bs: Blocks): seq<Write> {
    [LogW(BeginRecord(tid))] + PlanBlocks(tid, bs, bs.Keys) + [LogW(EndRecord(tid))]
  }

  /** The writes that concern block b. */
  function Mine(ws: seq<Write>, b: int): seq<Write> {
    if ws == [] then []
    else (if BlockOf(ws[0]) == b then [ws[0]] else []) + Mine(ws[1..], b)
  }

  lemma {:induction false} MineConcat(us: seq<Write>, ws: seq<Write>, b: int)
    ensures Mine(us + ws, b) == Mine(us, b) + Mine(ws, b)
  {
    if us == [] {
      assert us + ws == ws;
    } else {
      var first := if BlockOf(us[0]) == b then [us[0]] else [];
      assert (us + ws)[0] == us[0] && (us + ws)[1..] == us[1..] + ws;
      MineConcat(us[1..], ws, b);
      assert first + (Mine(us[1..], b) + Mine(ws, b)) == first + Mine(us[1..], b) + Mine(ws, b);
    }
  }

  lemma {:induction false} MineAll(ws: seq<Write>, k: int, b: int)
    requires forall i :: 0 <= i < |ws| ==> BlockOf(ws[i]) == k
    ensures Mine(ws, b) == if k == b then ws else []
  {
    if ws != [] {
      MineAll(ws[1..], k, b);
      assert ws == [ws[0]] + ws[1..];
    }
  }

  lemma MineBlockWrites(tid: Tid, k: int, mb: MBlock, b: int)
    ensures Mine(BlockWrites(tid, k, mb), b) == if k == b then BlockWrites(tid, k, mb) else []
  {
    var ws := BlockWrites(tid, k, mb);
    assert forall i :: 0 <= i < |ws| ==> BlockOf(ws[i]) == k;
    MineAll(ws, k, b);
  }

  lemma {:induction false} MinePlanBlocks(tid: Tid, bs: Blocks, ks: set<int>, b: int)
    requires ks <= bs.Keys
    ensures Mine(PlanBlocks(tid, bs, ks), b) == if b in ks then BlockWrites(tid, b, bs[b]) else []
  {
    if ks != {} {
      var k := Least(ks);
      MineConcat(BlockWrites(tid, k, bs[k]), PlanBlocks(tid, bs, ks - {k}), b);
      MineBlockWrites(tid, k, bs[k], b);
      MinePlanBlocks(tid, bs, ks - {k}, b);
    }
  }

  /** Each block of the map is flushed exactly once: log record first, then index and store. */
  lemma MinePlan(tid: Tid, bs: Blocks, b: int)
    requires b > 0
    ensures Mine(Plan(tid, bs), b) == if b in bs then BlockWrites(tid, b, bs[b]) else []
  {
    var body := PlanBlocks(tid, bs, bs.Keys);
    MineConcat([LogW(BeginRecord(tid))] + body, [LogW(EndRecord(tid))], b);
    MineConcat([LogW(BeginRecord(tid))], body, b);
    MineAll([LogW(BeginRecord(tid))], 0, b);
    MineAll([LogW(EndRecord(tid))], 0, b);
    MinePlanBlocks(tid, bs, bs.Keys, b);
  }

  /** A write of commit() other than LBEGIN and LEND. */
  predicate BodyWrite(tid: Tid, bs: Blocks, w: Write) {
    BlockOf(w) in bs && w in BlockWrites(tid, BlockOf(w), bs[BlockOf(w)])
  }

  lemma {:induction false} PlanBlocksShape(tid: Tid, bs: Blocks, ks: set<int>, i: nat)
    requires ks <= bs.Keys && i < |PlanBlocks(tid, bs, ks)|
    ensures BodyWrite(tid, bs, PlanBlocks(tid, bs, ks)[i])
  {
    var k := Least(ks);
    var first := BlockWrites(tid, k, bs[k]);
    if i >= |first| {
      PlanBlocksShape(tid, bs, ks - {k}, i - |first|);
    } else {
      assert PlanBlocks(tid, bs, ks)[i] == first[i];
    }
  }

  /** LBEGIN first, LEND last, and between them only writes of the map's blocks. */
  lemma PlanShape(tid: Tid, bs: Blocks, i: nat)
    requires i < |Plan(tid, bs)|
    ensures |Plan(tid, bs)| >= 2
    ensures i == 0 ==> Plan(tid, bs)[i] == LogW(BeginRecord(tid))
    ensures i == |Plan(tid, bs)| - 1 ==> Plan(tid, bs)[i] == LogW(EndRecord(tid))
    ensures 0 < i < |Plan(tid, bs)| - 1 ==> BodyWrite(tid, bs, Plan(tid, bs)[i])
  {
    if 0 < i < |Plan(tid, bs)| - 1 {
      PlanBlocksShape(tid, bs, bs.Keys, i - 1);
    }
  }

  // ---------------------------------------------------------------- one block during the flush

  function WriteCell(c: Cell, w: Write): Cell {
    match w
    case LogW(_) => c
    case IndexW(_, x) => c.(idx := Some(x))
    case StoreW(_, x) => c.(val := Some(x))
  }

  function WriteDisk(d: Disk, w: Write): Disk {
    match w
    case LogW(_) => d
    case IndexW(b, x) => d.(index := d.index[b := x])
    case StoreW(b, x) => d.(store := d.store[b := x])
  }

  lemma WriteDiskAt(d: Disk, w: Write, b: int)
    ensures CellOf(WriteDisk(d, w), b) == if BlockOf(w) == b then WriteCell(CellOf(d, b), w) else CellOf(d, b)
  {}

  /** What holds of a block on disk while `left` of its writes are still to come. */
  predicate StageOk(c: Cell, mb: MBlock, left: nat) {
    c.val.Some? &&
    match mb.lock
    case A_LOCK =>
      && left <= 3
      && c.idx == Some(if left >= 2 then 'U' else 'A')
      && (left == 0 ==> c.val == Some(mb.data))
    case W_LOCK =>
      && left <= 2
      && c.idx == Some('A')
      && (left == 2 ==> c.val == Some(mb.oldval))
      && (left == 0 ==> c.val == Some(mb.data))
    case S_LOCK =>
      && left <= 2
      && c.idx == Some(if left >= 1 then mb.oldindex else 'U')
      && (mb.oldindex == 'A' ==> c.val == Some(mb.oldval))
    case R_LOCK =>
      && left <= 1
      && c.idx == Some('A')
      && c.val == Some(mb.oldval)
  }

  /** `rest` is what remains of the block's writes, and the disk is where it should be. */
  predicate Flushing(c: Cell, tid: Tid, b: int, mb: MBlock, rest: seq<Write>) {
    var all := BlockWrites(tid, b, mb);
    |rest| <= |all| && rest == all[|all| - |rest|..] && StageOk(c, mb, |rest|)
  }

  /** The block is as it was before the transaction. */
  predicate Restored(c: Cell, mb: MBlock) {
    c.idx == Some(mb.oldindex) && (mb.oldindex == 'A' ==> c.val == Some(mb.oldval))
  }

  function UndoImage(tid: Tid, b: int, mb: MBlock): Record {
    BlockWrites(tid, b, mb)[0].rec
  }

  lemma FlushStarts(c: Cell, tid: Tid, b: int, mb: MBlock)
    requires WellFormed(mb) && Restored(c, mb) && c.val.Some?
    ensures Flushing(c, tid, b, mb, BlockWrites(tid, b, mb))
  {}

  lemma FlushStep(c: Cell, tid: Tid, b: int, mb: MBlock, rest: seq<Write>)
    requires WellFormed(mb) && Flushing(c, tid, b, mb, rest) && rest != []
    ensures Flushing(WriteCell(c, rest[0]), tid, b, mb, rest[1..])
  {}

  /** A block write cut short leaves anything at all in the block. */
  lemma FlushTorn(c: Cell, tid: Tid, b: int, mb: MBlock, rest: seq<Write>, junk: Contents)
    requires WellFormed(mb) && Flushing(c, tid, b, mb, rest) && rest != [] && rest[0].StoreW?
    ensures Flushing(c.(val := Some(junk)), tid, b, mb, rest)
  {}

  lemma FlushDone(c: Cell, tid: Tid, b: int, mb: MBlock)
    requires WellFormed(mb) && Flushing(c, tid, b, mb, [])
    ensures CellView(c) == After(mb)
  {}

  /** At any point, undoing the block's record (if it was logged) restores the block. */
  lemma FlushUndone(c: Cell, tid: Tid, b: int, mb: MBlock, rest: seq<Write>)
    requires WellFormed(mb) && Flushing(c, tid, b, mb, rest)
    ensures |rest| < |BlockWrites(tid, b, mb)| ==> Restored(UndoCell(c, UndoImage(tid, b, mb)), mb)
    ensures |rest| == |BlockWrites(tid, b, mb)| ==> Restored(c, mb)
  {}
}
