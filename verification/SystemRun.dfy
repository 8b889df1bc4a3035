/** Whole runs, in which the monitor's rollback is a sequence of single writes that other clients' flushes and crashes
    may interrupt. */
module SystemRun {
  import opened Disk
  import opened LogSpec
  import opened Client
  import opened Recovery
  import opened SystemSpec
  import M = MonitorSpec

  /** What the monitor is doing: waiting for the next request, or rolling back the dead client behind fd.  It serves
      nobody until it is done. */
  datatype Rolling = Idle | Undoing(fd: int, todo: seq<Client.Write>)

  datatype Machine = Machine(world: World, rolling: Rolling)

  /** Whole: an event of the system; the others are the start of a rollback, its next write, and a torn write. */
  datatype Act = Whole(event: Event) | StartUndo(fd: int) | UndoWrite | UndoTorn(junk: Contents)

  /** The monitor finds something to roll back when this client disconnects. */
  predicate Undoes(w: World, fd: int)
    requires Connected(w, fd)
  {
    M.NeedsRollback(w.mon, fd) && BackScan(w.files.log, w.mon.transactions[fd], []).Found?
  }

  /** The writes of the rollback: every collected record undone, newest first, then LABORT. */
  function UndoTodo(w: World, fd: int): seq<Client.Write>
    requires Connected(w, fd) && Undoes(w, fd)
  {
    var t := w.mon.transactions[fd];
    UndoAllWrites(BackScan(w.files.log, t, []).recs) + [LogW(AbortRecord(t))]
  }

  /** While the monitor is busy the other clients can only use their block maps and flush. */
  ghost predicate Possible(m: Machine, a: Act) {
    match a
    case Whole(e) =>
      && Enabled(m.world, e)
      && (m.rolling.Idle? && e.Leave? ==> !Undoes(m.world, e.fd))
      && (m.rolling.Undoing? ==> e.Crash? || ((e.Buffered? || e.Flush? || e.Tear?) && e.fd != m.rolling.fd))
    case StartUndo(fd) =>
      m.rolling.Idle? && Connected(m.world, fd) && BeginLogged(m.world, fd) && Undoes(m.world, fd)
    case UndoWrite => m.rolling.Undoing?
    case UndoTorn(_) => m.rolling.Undoing? && m.rolling.todo != [] && m.rolling.todo[0].StoreW?
  }

  /** The dead client's locks go, and its transaction is struck out. */
  function Dropped(w: World, fd: int): World
    requires Connected(w, fd)
  {
    var t := w.mon.transactions[fd];
    w.(mon := M.Disconnect(w.mon, fd), txs := w.txs - {t}, order := Strike(w.order, {w.txs[t].id}))
  }

  function Written(w: World, x: Client.Write): World {
    w.(files := WriteFiles(w.files, x))
  }

  function Move(m: Machine, a: Act): Machine {
    match a
    case Whole(e) => Machine(Step(m.world, e), if e.Crash? then Idle else m.rolling)
    case StartUndo(fd) =>
      if Connected(m.world, fd) && Undoes(m.world, fd) then m.(rolling := Undoing(fd, UndoTodo(m.world, fd))) else m
    case UndoWrite =>
      if m.rolling.Undoing? && m.rolling.todo != [] && Connected(m.world, m.rolling.fd) then
        var w := Written(m.world, m.rolling.todo[0]);
        if |m.rolling.todo| == 1 then Machine(Dropped(w, m.rolling.fd), Idle)
        else Machine(w, Undoing(m.rolling.fd, m.rolling.todo[1..]))
      else m
    case UndoTorn(junk) =>
      if m.rolling.Undoing? && m.rolling.todo != [] && m.rolling.todo[0].StoreW? then
        m.(world := Written(m.world, StoreW(m.rolling.todo[0].block, junk)))
      else m
  }

  /** A run from an initial world in which every act respects the hypotheses. */
  ghost predicate IsRun(ms: seq<Machine>, acts: seq<Act>) {
    && |ms| == |acts| + 1
    && Initial(ms[0].world) && ms[0].rolling == Idle
    && forall i :: 0 <= i < |acts| ==> Possible(ms[i], acts[i]) && ms[i + 1] == Move(ms[i], acts[i])
  }
}
