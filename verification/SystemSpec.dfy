/** The whole system: monitor, clients, disk and log, one step at a time, with crashes and recoveries. */
module SystemSpec {
  import opened Basics
  import opened Disk
  import opened Client
  import opened Recovery
  import M = MonitorSpec
  import P = MonitorProps

  /** Working: operations buffered; Committing: commit() writes still to do; Finished: LEND is logged. */
  datatype Phase = Working | Committing(todo: seq<Write>) | Finished

  /** A connected client.  `id` is never reused, unlike the tid, which restarts at 1 with a new monitor. */
  datatype Tx = Tx(id: nat, blocks: Blocks, obs: seq<Obs>, lastFree: int, phase: Phase)

  datatype Entry = Entry(id: nat, obs: seq<Obs>)

  /** `order`: what the transactions whose COMMIT was granted saw, in the order of the grants; a transaction that is
      rolled back is struck out.  `origin`: the view at the very beginning. */
  datatype World = World(
    origin: View,
    mon: M.State,
    files: Files,
    txs: map<Tid, Tx>,
    order: seq<Entry>,
    nextId: nat)

  predicate Initial(w: World) {
    && ValidDisk(w.files.disk) && w.files.log == []
    && w.origin == ViewOf(w.files.disk)
    && w.mon == M.INITIAL && w.txs == map[] && w.order == [] && w.nextId == 0
  }

  // ---------------------------------------------------------------- running transactions one at a time

  function Serial(v: View, es: seq<Entry>): Option<View> {
    if es == [] then Some(v)
    else match Serial(v, es[..|es| - 1])
      case None => None
      case Some(u) => Replay(u, es[|es| - 1].obs)
  }

  function Strike(es: seq<Entry>, ids: set<nat>): seq<Entry> {
    if es == [] then []
    else if es[|es| - 1].id in ids then Strike(es[..|es| - 1], ids)
    else Strike(es[..|es| - 1], ids) + [es[|es| - 1]]
  }

  // ---------------------------------------------------------------- steps

  datatype Call = Allocate(block: int) | Read(block: int) | Write(block: int, x: Contents) | Release(block: int)

  datatype Event =
    | Connect(fd: int, pid: int, now: int)
    | Buffered(fd: int, call: Call)
    | Asked(fd: int, call: Call, now: int)
    | Told(fd: int, kind: M.Kind)
    | Commit(fd: int)
    | Flush(fd: int)
    | Tear(fd: int, junk: Contents)
    | Leave(fd: int)
    | Crash

  function RouteOf(tx: Tx, d: Disk, c: Call): Route {
    match c
    case Allocate(b) => if IsNextFree(d, tx.lastFree, b) then AskMonitor else Reject
    case Read(b) => RouteRead(tx.blocks, d, b)
    case Write(b, _) => RouteWrite(tx.blocks, d, b)
    case Release(b) => RouteRelease(tx.blocks, d, b)
  }

  function KindOf(c: Call): M.Kind {
    match c
    case Allocate(_) => M.ALLOCATE
    case Read(_) => M.READ
    case Write(_, _) => M.WRITE
    case Release(_) => M.RELEASE
  }

  /** An operation answered from the block map. */
  function LocalTx(tx: Tx, c: Call): Tx
    requires c.block in tx.blocks
  {
    var b, mb := c.block, tx.blocks[c.block];
    match c
    case Read(_) => tx.(obs := tx.obs + [DidRead(b, mb.data)])
    case Write(_, x) => tx.(blocks := tx.blocks[b := WrittenLocally(mb, x)], obs := tx.obs + [DidWrite(b, mb.data, x)])
    case Release(_) =>
      if mb.lock == S_LOCK then tx
      else tx.(blocks := tx.blocks[b := ReleasedLocally(mb)], obs := tx.obs + [DidRelease(b)])
    case Allocate(_) => tx
  }

  /** The block map entry and the observation of an operation that was granted its lock. */
  function GrantedBlock(d: Disk, c: Call): MBlock {
    var x := if c.block in d.store then d.store[c.block] else [];
    match c
    case Allocate(_) => Allocated()
    case Read(_) => ReadFrom(x)
    case Write(_, y) => WrittenOver(x, y)
    case Release(_) => ReleasedFrom(x)
  }

  function GrantedObs(d: Disk, c: Call): Obs {
    var x := if c.block in d.store then d.store[c.block] else [];
    match c
    case Allocate(b) => DidAllocate(b)
    case Read(b) => DidRead(b, x)
    case Write(b, y) => DidWrite(b, x, y)
    case Release(b) => DidRelease(b)
  }

  function GrantedTx(tx: Tx, d: Disk, c: Call): Tx {
    tx.(blocks := tx.blocks[c.block := GrantedBlock(d, c)], obs := tx.obs + [GrantedObs(d, c)])
  }

  function Ask(w: World, fd: int, kind: M.Kind, b: int): M.Request
    requires fd in w.mon.transactions
  {
    M.Request(w.mon.transactions[fd], 0, kind, b)
  }

  predicate Connected(w: World, fd: int) {
    fd in w.mon.transactions && w.mon.transactions[fd] in w.txs
  }

  function TxOf(w: World, fd: int): Tx
    requires Connected(w, fd)
  {
    w.txs[w.mon.transactions[fd]]
  }

  /** Hypothesis: no reader sweep meets a committing reader. */
  ghost predicate SparesCommitting(s: M.State, rq: M.Request, now: int) {
    P.Sweeps(s, rq, now) ==> forall u :: P.ReadHolds(s, u, rq.block) ==> !P.Committing(s, u)
  }

  /** Hypothesis: a client that dies between the grant of its COMMIT and its LEND has logged its LBEGIN. */
  predicate BeginLogged(w: World, fd: int)
    requires Connected(w, fd)
  {
    var tx := TxOf(w, fd);
    tx.phase.Committing? ==> tx.phase.todo != Plan(w.mon.transactions[fd], tx.blocks)
  }

  ghost predicate Enabled(w: World, e: Event) {
    match e
    case Connect(fd, _, _) => fd !in w.mon.transactions
    case Buffered(fd, c) =>
      Connected(w, fd) && TxOf(w, fd).phase == Working && RouteOf(TxOf(w, fd), w.files.disk, c) == Local
    case Asked(fd, c, now) =>
      && Connected(w, fd) && TxOf(w, fd).phase == Working && RouteOf(TxOf(w, fd), w.files.disk, c) == AskMonitor
      && SparesCommitting(w.mon, Ask(w, fd, KindOf(c), c.block), now)
    case Told(fd, kind) =>
      && Connected(w, fd)
      && (if kind == M.END then TxOf(w, fd).phase == Finished
          else TxOf(w, fd).phase == Working && (kind == M.RESTART || kind == M.ABORT))
    case Commit(fd) => Connected(w, fd) && TxOf(w, fd).phase == Working
    case Flush(fd) => Connected(w, fd) && TxOf(w, fd).phase.Committing?
    case Tear(fd, _) =>
      Connected(w, fd) && TxOf(w, fd).phase.Committing? && TxOf(w, fd).phase.todo != [] && TxOf(w, fd).phase.todo[0].StoreW?
    case Leave(fd) => Connected(w, fd) && BeginLogged(w, fd)
    case Crash => true
  }

  function StepConnect(w: World, fd: int, pid: int, now: int): World {
    w.(mon := M.BeginRq(w.mon, fd, pid, now),
       txs := w.txs[w.mon.nextTid := Tx(w.nextId, map[], [], 0, Working)],
       nextId := w.nextId + 1)
  }

  function StepBuffered(w: World, fd: int, c: Call): World
    requires Connected(w, fd)
  {
    if c.block in TxOf(w, fd).blocks then w.(txs := w.txs[w.mon.transactions[fd] := LocalTx(TxOf(w, fd), c)]) else w
  }

  /** The monitor's answer reaches the client; a block that was tried is remembered even when it is refused. */
  function Answered(w: World, t: Tid, c: Call, o: M.Outcome): World
    requires t in w.txs
  {
    var tx := if c.Allocate? then w.txs[t].(lastFree := c.block) else w.txs[t];
    if o.BrainDead? then w
    else w.(mon := o.state, txs := w.txs[t := if o.reply == M.OK then GrantedTx(tx, w.files.disk, c) else tx])
  }

  function StepAsked(w: World, fd: int, c: Call, now: int): World
    requires Connected(w, fd)
  {
    Answered(w, w.mon.transactions[fd], c, M.Process(w.mon, Ask(w, fd, KindOf(c), c.block), fd, now))
  }

  function StepTold(w: World, fd: int, kind: M.Kind): World
    requires Connected(w, fd)
  {
    w.(mon := P.After(w.mon, Ask(w, fd, kind, 0), fd, 0))
  }

  function StepCommit(w: World, fd: int): World
    requires Connected(w, fd)
  {
    var t, tx := w.mon.transactions[fd], TxOf(w, fd);
    var o := M.Process(w.mon, Ask(w, fd, M.COMMIT, 0), fd, 0);
    if o.Handled? && o.reply == M.OK then
      w.(mon := o.state,
         txs := w.txs[t := tx.(phase := Committing(Plan(t, tx.blocks)))],
         order := w.order + [Entry(tx.id, tx.obs)])
    else w
  }

  function StepFlush(w: World, fd: int): World
    requires Connected(w, fd)
  {
    var t, tx := w.mon.transactions[fd], TxOf(w, fd);
    if tx.phase.Committing? && tx.phase.todo != [] then
      var todo := tx.phase.todo;
      w.(files := WriteFiles(w.files, todo[0]),
         txs := w.txs[t := tx.(phase := if |todo| == 1 then Finished else Committing(todo[1..]))])
    else w
  }

  function StepTear(w: World, fd: int, junk: Contents): World
    requires Connected(w, fd)
  {
    var tx := TxOf(w, fd);
    if tx.phase.Committing? && tx.phase.todo != [] && tx.phase.todo[0].StoreW? then
      w.(files := WriteFiles(w.files, StoreW(tx.phase.todo[0].block, junk)))
    else w
  }

  /** The monitor rolls back a committing client before it lets go of its locks. */
  function StepLeave(w: World, fd: int): World
    requires Connected(w, fd)
  {
    var t := w.mon.transactions[fd];
    var gone := w.(mon := M.Disconnect(w.mon, fd), txs := w.txs - {t});
    if !M.NeedsRollback(w.mon, fd) then gone
    else
      match Rollback(w.files, t)
      case RolledBack(files) => gone.(files := files, order := Strike(w.order, {w.txs[t].id}))
      case _ => gone
  }

  /** The transactions that have been granted COMMIT but have not logged LEND. */
  function Unfinished(w: World): map<Tid, Tx> {
    map t | t in w.txs && w.txs[t].phase.Committing? :: w.txs[t]
  }

  function Ids(txs: map<Tid, Tx>): set<nat> {
    set t | t in txs :: txs[t].id
  }

  /** All processes stop; recovery runs; the monitor restarts. */
  function StepCrash(w: World): World {
    w.(mon := M.INITIAL, txs := map[], files := Recover(w.files), order := Strike(w.order, Ids(Unfinished(w))))
  }

  function Step(w: World, e: Event): World {
    match e
    case Connect(fd, pid, now) => StepConnect(w, fd, pid, now)
    case Buffered(fd, c) => if Connected(w, fd) then StepBuffered(w, fd, c) else w
    case Asked(fd, c, now) => if Connected(w, fd) then StepAsked(w, fd, c, now) else w
    case Told(fd, kind) => if Connected(w, fd) then StepTold(w, fd, kind) else w
    case Commit(fd) => if Connected(w, fd) then StepCommit(w, fd) else w
    case Flush(fd) => if Connected(w, fd) then StepFlush(w, fd) else w
    case Tear(fd, junk) => if Connected(w, fd) then StepTear(w, fd, junk) else w
    case Leave(fd) => if Connected(w, fd) then StepLeave(w, fd) else w
    case Crash => StepCrash(w)
  }
}
