/** What the contracts of the classes say is what the steps of the whole-system model do. */
module SystemLink {
  import opened Disk
  import opened Client
  import opened Recovery
  import opened SystemSpec
  import opened SystemRun
  import C = CommitCrash
  import R = ClientRefinement
  import M = MonitorSpec
  import P = MonitorProps
  import T = TransactionLibrary

  /** The library object behind connection fd. */
  function CallerOf(w: World, fd: int, pid: int): T.Caller
    requires Connected(w, fd)
  {
    T.Caller(w.mon.transactions[fd], pid, fd)
  }

  /** The process id in a request makes no difference. */
  lemma SamePid(c: T.Caller, s: M.State, kind: M.Kind, b: int, now: int)
    requires kind != M.BEGIN
    ensures T.Answer(c, s, kind, b, now) == M.Process(s, M.Request(c.tid, 0, kind, b), c.fd, now)
  {}

  /** The block map entry with which Read, Write, Release and Allocate answer a grant. */
  function EntryFor(d: Disk, c: Call): MBlock
    requires c.Allocate? || c.block in d.store
  {
    match c
    case Allocate(_) => Allocated()
    case Read(b) => ReadFrom(d.store[b])
    case Write(b, y) => WrittenOver(d.store[b], y)
    case Release(b) => ReleasedFrom(d.store[b])
  }

  /** A call that asks the monitor, whatever the answer: the tables are those of the monitor's answer, the block map
      changes only on a grant, and allocate remembers the block it tried. */
  lemma AskedIsStep(w: World, fd: int, pid: int, c: Call, now: int)
    requires Connected(w, fd) && ValidDisk(w.files.disk) && RouteOf(TxOf(w, fd), w.files.disk, c) == AskMonitor
    requires T.Answer(CallerOf(w, fd, pid), w.mon, KindOf(c), c.block, now).Handled?
    ensures c.Allocate? || c.block in w.files.disk.store
    ensures var t, tx, w' := w.mon.transactions[fd], TxOf(w, fd), StepAsked(w, fd, c, now);
            var o := T.Answer(CallerOf(w, fd, pid), w.mon, KindOf(c), c.block, now);
            && w'.mon == o.state && w'.files == w.files && w'.txs.Keys == w.txs.Keys
            && (forall u :: u in w.txs && u != t ==> w'.txs[u] == w.txs[u])
            && w'.txs[t].blocks == (if o.reply == M.OK then tx.blocks[c.block := EntryFor(w.files.disk, c)] else tx.blocks)
            && w'.txs[t].lastFree == (if c.Allocate? then c.block else tx.lastFree)
  {
    SamePid(CallerOf(w, fd, pid), w.mon, KindOf(c), c.block, now);
  }

  /** A call answered from the block map. */
  lemma BufferedIsStep(w: World, fd: int, c: Call)
    requires Connected(w, fd) && RouteOf(TxOf(w, fd), w.files.disk, c) == Local
    ensures var t, tx, w' := w.mon.transactions[fd], TxOf(w, fd), StepBuffered(w, fd, c);
            && c.block in tx.blocks && w'.mon == w.mon && w'.files == w.files
            && w'.txs[t].blocks == match c
                 case Write(b, x) => tx.blocks[b := WrittenLocally(tx.blocks[b], x)]
                 case Release(b) => tx.blocks[b := ReleasedLocally(tx.blocks[b])]
                 case _ => tx.blocks
  {
    var tx := TxOf(w, fd);
    if c.Release? && tx.blocks[c.block].lock == S_LOCK {
      assert tx.blocks[c.block := ReleasedLocally(tx.blocks[c.block])] == tx.blocks;
    }
  }

  /** The library object as the system's model sees it. */
  ghost function TxFor(t: T.Transaction): Tx
    reads t
  {
    Tx(0, t.blockmap, [], t.lastFreeBlock, Working)
  }

  /** What the program is told by read, and the map that read leaves, are those of the model's transaction. */
  method ReadAnswers(t: T.Transaction, b: int, now: int) returns (r: T.Result<Contents>)
    requires t.Valid()
    modifies t, t.monitor`nextTid, t.monitor`transactions, t.monitor`status, t.monitor`blockmap, t.process
    ensures r.Got? ==>
              && R.AnswerOf(old(TxFor(t)), old(t.files.OnDisk()), Read(b)) == R.Value(r.value)
              && t.blockmap == R.Perform(old(TxFor(t)), old(t.files.OnDisk()), R.Call(Read(b))).blocks
    ensures R.AnswerOf(old(TxFor(t)), old(t.files.OnDisk()), Read(b)) == R.Raised ==> r == T.Raised(T.TE_ABORT)
    ensures r.Raised? ==> t.blockmap == old(t.blockmap)
  {
    r := t.Read(b, now);
  }

  /** The same for write. */
  method WriteAnswers(t: T.Transaction, b: int, x: Contents, now: int) returns (r: T.Result<Contents>)
    requires t.Valid()
    modifies t, t.monitor`nextTid, t.monitor`transactions, t.monitor`status, t.monitor`blockmap, t.process
    ensures r.Got? ==>
              && R.AnswerOf(old(TxFor(t)), old(t.files.OnDisk()), Write(b, x)) == R.Value(r.value)
              && t.blockmap == R.Perform(old(TxFor(t)), old(t.files.OnDisk()), R.Call(Write(b, x))).blocks
    ensures R.AnswerOf(old(TxFor(t)), old(t.files.OnDisk()), Write(b, x)) == R.Raised ==> r == T.Raised(T.TE_ABORT)
    ensures r.Raised? ==> t.blockmap == old(t.blockmap)
  {
    r := t.Write(b, x, now);
  }

  /** And for release. */
  method ReleaseAnswers(t: T.Transaction, b: int, now: int) returns (r: T.Result<bool>)
    requires t.Valid()
    modifies t, t.monitor`nextTid, t.monitor`transactions, t.monitor`status, t.monitor`blockmap, t.process
    ensures r.Got? ==>
              && R.AnswerOf(old(TxFor(t)), old(t.files.OnDisk()), Release(b)) == R.Done
              && t.blockmap == R.Perform(old(TxFor(t)), old(t.files.OnDisk()), R.Call(Release(b))).blocks
    ensures R.AnswerOf(old(TxFor(t)), old(t.files.OnDisk()), Release(b)) == R.Raised ==> r == T.Raised(T.TE_ABORT)
    ensures r.Raised? ==> t.blockmap == old(t.blockmap)
  {
    ghost var before := t.blockmap;
    r := t.Release(b, now);
    if b in before && before[b].lock == S_LOCK {
      assert before[b := ReleasedLocally(before[b])] == before;
    }
  }

  /** RESTART after a refusal, ABORT, and END after a commit: tables and answer. */
  lemma ToldIsStep(w: World, fd: int, pid: int, kind: M.Kind)
    requires Connected(w, fd) && kind in {M.RESTART, M.ABORT, M.END}
    ensures T.Answer(CallerOf(w, fd, pid), w.mon, kind, 0, 0) == M.Handled(StepTold(w, fd, kind).mon,
              T.Answer(CallerOf(w, fd, pid), w.mon, kind, 0, 0).reply)
    ensures var s, t := w.mon, w.mon.transactions[fd];
            StepTold(w, fd, kind).mon ==
              if kind == M.END && !P.Committing(s, t) then s
              else T.Marked(s, t, if kind == M.RESTART then M.RESTARTING else if kind == M.ABORT then M.ABORTING else M.ENDED)
    ensures T.Granted(CallerOf(w, fd, pid), w.mon, kind, 0, 0) <==>
              if kind == M.END then P.Committing(w.mon, w.mon.transactions[fd]) else P.Live(w.mon, w.mon.transactions[fd])
  {
    SamePid(CallerOf(w, fd, pid), w.mon, kind, 0, 0);
    P.ToldReply(w.mon, Ask(w, fd, kind, 0), fd, 0);
  }

  /** The grant of COMMIT. */
  lemma CommitIsStep(w: World, fd: int, pid: int)
    requires Connected(w, fd)
    ensures var t, o, w' := w.mon.transactions[fd], T.Answer(CallerOf(w, fd, pid), w.mon, M.COMMIT, 0, 0), StepCommit(w, fd);
            && o.Handled? && w'.mon == o.state && w'.files == w.files
            && (o.reply == M.OK <==> P.Live(w.mon, t))
            && (o.reply == M.OK ==> w'.txs[t].phase == Committing(Plan(t, w.txs[t].blocks)))
            && (o.reply != M.OK ==> w' == w)
  {
    SamePid(CallerOf(w, fd, pid), w.mon, M.COMMIT, 0, 0);
  }

  ghost predicate FlushesTo(w: World, fd: int, w': World) {
    Connected(w, fd) && w' == StepFlush(w, fd)
  }

  /** Flush steps of one client, one after the other. */
  ghost predicate Flushes(ws: seq<World>, fd: int) {
    ws != [] && forall i :: 0 <= i < |ws| - 1 ==> FlushesTo(ws[i], fd, ws[i + 1])
  }

  /** One of them is one write at the end of the log. */
  lemma FlushIsWrite(w: World, fd: int)
    requires Connected(w, fd) && TxOf(w, fd).phase.Committing? && TxOf(w, fd).phase.todo != []
    ensures var t, todo, w' := w.mon.transactions[fd], TxOf(w, fd).phase.todo, StepFlush(w, fd);
            var io := C.Perform(C.Io(w.files.disk, w.files.log, |w.files.log|), todo[0]);
            && w'.files == Files(io.disk, io.log) && io.pos == |io.log| && w'.mon == w.mon && w'.txs.Keys == w.txs.Keys
            && w'.txs[t].phase == if |todo| == 1 then Finished else Committing(todo[1..])
  {}

  /** Files and phase of a client that has made n of the writes in todo, starting from files f. */
  predicate FlushedSo(f: Files, todo: seq<Client.Write>, n: nat, g: Files, phase: Phase)
    requires n <= |todo|
  {
    var io := C.PerformAll(C.Io(f.disk, f.log, |f.log|), todo[..n]);
    && g == Files(io.disk, io.log) && io.pos == |io.log|
    && (n < |todo| ==> phase == Committing(todo[n..]))
    && (n == |todo| > 0 ==> phase == Finished)
  }

  lemma FlushedOneMore(f: Files, todo: seq<Client.Write>, n: nat, g: Files, h: Files, next: Phase)
    requires n < |todo| && FlushedSo(f, todo, n, g, Committing(todo[n..]))
    requires var io := C.Perform(C.Io(g.disk, g.log, |g.log|), todo[n..][0]);
             h == Files(io.disk, io.log) && io.pos == |io.log|
    requires next == if |todo[n..]| == 1 then Finished else Committing(todo[n..][1..])
    ensures FlushedSo(f, todo, n + 1, h, next)
  {
    T.PerformedOne(C.Io(f.disk, f.log, |f.log|), todo[..n], todo[n]);
    assert todo[..n] + [todo[n]] == todo[..n + 1];
    assert todo[n..][0] == todo[n] && todo[n..][1..] == todo[n + 1..];
  }

  lemma FlushedNone(f: Files, todo: seq<Client.Write>)
    requires todo != []
    ensures FlushedSo(f, todo, 0, f, Committing(todo))
  {
    assert todo[0..] == todo && todo[..0] == [];
  }

  /** On an append-only log the loop of commit() is the client's flush steps, one by one. */
  lemma {:induction false} FlushIsSteps(ws: seq<World>, fd: int, n: nat)
    requires Flushes(ws, fd) && n < |ws|
    requires Connected(ws[0], fd) && TxOf(ws[0], fd).phase.Committing? && n <= |TxOf(ws[0], fd).phase.todo|
    requires TxOf(ws[0], fd).phase.todo != []
    ensures ws[n].mon == ws[0].mon && ws[n].txs.Keys == ws[0].txs.Keys
    ensures FlushedSo(ws[0].files, TxOf(ws[0], fd).phase.todo, n, ws[n].files, TxOf(ws[n], fd).phase)
  {
    var todo := TxOf(ws[0], fd).phase.todo;
    if n == 0 {
      FlushedNone(ws[0].files, todo);
    } else {
      FlushIsSteps(ws, fd, n - 1);
      assert FlushesTo(ws[n - 1], fd, ws[n - 1 + 1]);
      FlushIsWrite(ws[n - 1], fd);
      FlushedOneMore(ws[0].files, todo, n - 1, ws[n - 1].files, ws[n].files, TxOf(ws[n], fd).phase);
    }
  }

  /** A disconnect leaves what client_disconnect promises: the tables flushed, and the files rolled back if the client
      was committing. */
  lemma LeaveIsStep(w: World, fd: int)
    requires Connected(w, fd)
    ensures var t, w' := w.mon.transactions[fd], StepLeave(w, fd);
            && w'.mon == M.Disconnect(w.mon, fd) && w'.txs == w.txs - {t}
            && (!M.NeedsRollback(w.mon, fd) ==> w'.files == w.files)
            && (M.NeedsRollback(w.mon, fd) ==>
                  w'.files == match Rollback(w.files, t) case RolledBack(f) => f case _ => w.files)
  {}

  /** A connection opens a transaction with the tables and the empty map that the class's constructor leaves. */
  lemma ConnectIsStep(w: World, fd: int, pid: int, now: int)
    requires P.Inv(w.mon) && w.mon.nextTid !in w.txs
    ensures var t, w' := w.mon.nextTid, StepConnect(w, fd, pid, now);
            && w'.mon.nextTid == t + 1 && w'.mon.transactions == w.mon.transactions[fd := t]
            && w'.mon.status == w.mon.status[t := M.TStat(pid, 0, now, M.BEGUN)] && w'.mon.blockmap == w.mon.blockmap
            && w'.files == w.files && w'.order == w.order
            && Connected(w', fd) && TxOf(w', fd).blocks == map[] && TxOf(w', fd).lastFree == 0
            && TxOf(w', fd).phase == Working && TxOf(w', fd).id == w.nextId < w'.nextId
            && forall u :: u in w.txs ==> u in w'.txs && w'.txs[u] == w.txs[u]
  {}

  /** f with any contents at all in block b. */
  predicate TornAt(f: Files, b: int, junk: Contents, g: Files) {
    && g.log == f.log && g.disk.index == f.disk.index && g.disk.store.Keys == f.disk.store.Keys + {b}
    && g.disk.store[b] == junk && forall x :: x in f.disk.store && x != b ==> g.disk.store[x] == f.disk.store[x]
  }

  /** A block write cut short, of a client or of a rollback, leaves anything at all in that block and the write still to
      be made. */
  lemma TornIsTorn(m: Machine, fd: int, junk: Contents)
    ensures Connected(m.world, fd) && Enabled(m.world, Tear(fd, junk)) ==>
              && TornAt(m.world.files, TxOf(m.world, fd).phase.todo[0].block, junk, StepTear(m.world, fd, junk).files)
              && StepTear(m.world, fd, junk) == m.world.(files := StepTear(m.world, fd, junk).files)
    ensures Possible(m, UndoTorn(junk)) ==>
              && TornAt(m.world.files, m.rolling.todo[0].block, junk, Move(m, UndoTorn(junk)).world.files)
              && Move(m, UndoTorn(junk)) == m.(world := m.world.(files := Move(m, UndoTorn(junk)).world.files))
  {}

  /** A crash stops every process; the files are those that recovery leaves, and the monitor starts anew. */
  lemma CrashIsStep(m: Machine)
    ensures var n := Move(m, Whole(Crash));
            && n.world.files == Recover(m.world.files) && n.rolling == Idle
            && n.world.mon == M.State(1, map[], map[], map[]) && n.world.txs == map[]
  {}

  /** A rejected call makes no step; every other call of a transaction at work does, unless it would sweep a committing
      reader.  While a rollback is in progress the monitor answers nobody. */
  ghost predicate CallGoesOn(m: Machine, fd: int, c: Call, now: int)
    requires Connected(m.world, fd)
  {
    match RouteOf(TxOf(m.world, fd), m.world.files.disk, c)
    case Reject => true
    case Local => Possible(m, Whole(Buffered(fd, c)))
    case AskMonitor =>
      m.rolling.Idle? && SparesCommitting(m.world.mon, Ask(m.world, fd, KindOf(c), c.block), now) ==>
        Possible(m, Whole(Asked(fd, c, now)))
  }

  /** The two hypotheses exclude nothing else.  Every call of a client at work can be made, ... */
  lemma CallsGoOn(m: Machine, fd: int, c: Call, now: int)
    requires Connected(m.world, fd) && TxOf(m.world, fd).phase == Working
    requires m.rolling.Undoing? ==> fd != m.rolling.fd
    ensures CallGoesOn(m, fd, c, now)
  {}

  /** ... every write of a commit too, and it may be torn, ... */
  lemma FlushesGoOn(m: Machine, fd: int, junk: Contents)
    requires Connected(m.world, fd) && TxOf(m.world, fd).phase.Committing?
    requires m.rolling.Undoing? ==> fd != m.rolling.fd
    ensures Possible(m, Whole(Flush(fd)))
    ensures var todo := TxOf(m.world, fd).phase.todo;
            todo != [] && todo[0].StoreW? ==> Possible(m, Whole(Tear(fd, junk)))
  {}

  /** ... and so can the monitor's messages and a client's death; ... */
  lemma MessagesGoOn(m: Machine, fd: int, pid: int, now: int)
    requires m.rolling.Idle?
    ensures fd !in m.world.mon.transactions ==> Possible(m, Whole(Connect(fd, pid, now)))
    ensures Connected(m.world, fd) && TxOf(m.world, fd).phase == Working ==>
              && Possible(m, Whole(Commit(fd)))
              && Possible(m, Whole(Told(fd, M.RESTART))) && Possible(m, Whole(Told(fd, M.ABORT)))
    ensures Connected(m.world, fd) && TxOf(m.world, fd).phase == Finished ==> Possible(m, Whole(Told(fd, M.END)))
    ensures Connected(m.world, fd) && BeginLogged(m.world, fd) ==>
              Possible(m, if Undoes(m.world, fd) then StartUndo(fd) else Whole(Leave(fd)))
  {}

  /** ... a rollback in progress goes on, and a crash may come at any moment. */
  lemma RollbackGoesOn(m: Machine, junk: Contents)
    ensures Possible(m, Whole(Crash))
    ensures m.rolling.Undoing? ==> Possible(m, UndoWrite)
    ensures m.rolling.Undoing? && m.rolling.todo != [] && m.rolling.todo[0].StoreW? ==> Possible(m, UndoTorn(junk))
  {}

  /** n writes of a rollback in progress. */
  function UndoTimes(m: Machine, n: nat): Machine {
    if n == 0 then m else Move(UndoTimes(m, n - 1), UndoWrite)
  }

  /** The monitor's rollback, left undisturbed, makes exactly the writes of the log manager's rollback. */
  lemma {:induction false} UndoIsSteps(m: Machine, n: nat)
    requires m.rolling.Undoing? && Connected(m.world, m.rolling.fd) && n < |m.rolling.todo|
    ensures UndoTimes(m, n) ==
            Machine(m.world.(files := WriteAll(m.world.files, m.rolling.todo[..n])),
                    Undoing(m.rolling.fd, m.rolling.todo[n..]))
  {
    var todo := m.rolling.todo;
    if n == 0 {
      assert todo[0..] == todo && todo[..0] == [];
    } else {
      UndoIsSteps(m, n - 1);
      assert todo[..n] == todo[..n - 1] + [todo[n - 1]];
      WriteAllConcat(m.world.files, todo[..n - 1], [todo[n - 1]]);
      var g := WriteAll(m.world.files, todo[..n - 1]);
      assert WriteAll(g, [todo[n - 1]]) == WriteAll(WriteFiles(g, todo[n - 1]), []);
      assert todo[n - 1..][0] == todo[n - 1] && todo[n - 1..][1..] == todo[n..];
    }
  }
}
