/** The persistent files: the block index ('A' allocated / 'U' unallocated) and the block store. */
module Disk {
  import opened Basics

  const BLOCKSIZE: nat := 4096
  const NBLOCKS: nat := 30

  type Byte = x: int | 0 <= x < 256
  type Contents = seq<Byte>

  /** What a freshly allocated block holds: the character '0' in every byte. */
  function ZeroBlock(): Contents { seq(BLOCKSIZE, _ => 48) }

  /** Both files, keyed by block number (block b lives at offset b-1). */
  datatype Disk = Disk(index: map<int, char>, store: map<int, Contents>)

  predicate ValidDisk(d: Disk) {
    d.index.Keys == d.store.Keys && forall b :: b in d.index ==> 0 < b <= NBLOCKS && d.index[b] in {'A', 'U'}
  }

  function BlocksUpTo(n: nat): (bs: set<int>)
    ensures forall b :: b in bs <==> 1 <= b <= n
  {
    if n == 0 then {} else BlocksUpTo(n - 1) + {n}
  }

  function ViewOf(d: Disk): View {
    map b | b in d.index && d.index[b] == 'A' && b in d.store :: d.store[b]
  }

  /** initstore: NBLOCKS zeroed, unallocated blocks. */
  function InitialDisk(): (d: Disk)
    ensures ValidDisk(d) && ViewOf(d) == map[]
    ensures forall b :: b in d.index <==> 1 <= b <= NBLOCKS
    ensures forall b :: b in d.index ==> d.index[b] == 'U' && |d.store[b]| == BLOCKSIZE
    ensures forall b, i :: b in d.index && 0 <= i < BLOCKSIZE ==> d.store[b][i] == '0' as int
  {
    Disk(map b | b in BlocksUpTo(NBLOCKS) :: 'U', map b | b in BlocksUpTo(NBLOCKS) :: ZeroBlock())
  }

  /** One block seen through both files. */
  datatype Cell = Cell(idx: Option<char>, val: Option<Contents>)

  function CellOf(d: Disk, b: int): Cell {
    Cell(if b in d.index then Some(d.index[b]) else None,
         if b in d.store then Some(d.store[b]) else None)
  }

  lemma DiskExtensional(d: Disk, e: Disk)
    requires forall b :: CellOf(d, b) == CellOf(e, b)
    ensures d == e
  {
    forall b
      ensures b in d.index <==> b in e.index
      ensures b in d.store <==> b in e.store
      ensures b in d.index ==> d.index[b] == e.index[b]
      ensures b in d.store ==> d.store[b] == e.store[b]
    {
      assert CellOf(d, b) == CellOf(e, b);
    }
    assert d.index == e.index;
    assert d.store == e.store;
  }

  /** What a reader of the database can see: the contents of the allocated blocks. */
  type View = map<int, Contents>

  function Get(v: View, b: int): Option<Contents> {
    if b in v then Some(v[b]) else None
  }

  function Set(v: View, b: int, x: Option<Contents>): View {
    if x.Some? then v[b := x.value] else v - {b}
  }

  function CellView(c: Cell): Option<Contents> {
    if c.idx == Some('A') then c.val else None
  }

  lemma ViewAt(d: Disk, b: int)
    ensures Get(ViewOf(d), b) == CellView(CellOf(d, b))
  {}

  lemma ViewExtensional(v: View, w: View)
    requires forall b :: Get(v, b) == Get(w, b)
    ensures v == w
  {
    forall b
      ensures b in v <==> b in w
      ensures b in v ==> v[b] == w[b]
    {
      assert Get(v, b) == Get(w, b);
    }
  }
}
