/** The lock monitor as a state machine: what one request or one disconnect does to its three tables. */
module MonitorSpec {
  import opened Basics

  const TIMESLICE: int := 4

  datatype Status =
    BEGUN | READING | WRITING | ALLOCATED | RELEASING | ABORTING | RESTARTING | COMMITTING | ENDED | PREEMPTED

  datatype TStat = TStat(pid: int, block: int, started: int, stat: Status)

  /** writer == 0: nobody. */
  datatype Holders = Holders(readers: seq<Tid>, writer: Tid)

  datatype State = State(
    nextTid: Tid,
    transactions: map<int, Tid>,
    status: map<Tid, TStat>,
    blockmap: map<int, Holders>)

  const INITIAL := State(1, map[], map[], map[])

  datatype Kind = BEGIN | COMMIT | END | READ | WRITE | ABORT | ALLOCATE | RELEASE | RESTART

  datatype Request = Request(tid: Tid, pid: int, kind: Kind, block: int)

  datatype Reply = OK | NOT_OK | DIE

  /** BrainDead: a holder without a status entry; the source exits or follows an end iterator. */
  datatype Outcome = Handled(state: State, reply: Reply) | BrainDead

  datatype Verdict = Granted | Refused | Dead

  datatype Check = Check(verdict: Verdict, state: State)

  predicate Older(t: Tid, u: Tid) { t < u }

  predicate Younger(t: Tid, u: Tid) { t > u }

  predicate Expired(st: TStat, now: int) { now - st.started > TIMESLICE }

  /** The writer of a block is preempted and loses the block. */
  function EvictWriter(s: State, b: int): State
    requires b in s.blockmap && s.blockmap[b].writer in s.status
  {
    var w := s.blockmap[b].writer;
    s.(status := s.status[w := s.status[w].(stat := PREEMPTED)],
       blockmap := s.blockmap[b := s.blockmap[b].(writer := 0)])
  }

  /** A writer stands in the way: preempt it if it is younger or past its time slice, never while committing. */
  function AgainstWriter(s: State, t: Tid, b: int, now: int): Check
    requires b in s.blockmap
  {
    var w := s.blockmap[b].writer;
    if w !in s.status then Check(Dead, s)
    else if s.status[w].stat == COMMITTING then Check(Refused, s)
    else if Younger(w, t) || Expired(s.status[w], now) then Check(Granted, EvictWriter(s, b))
    else Check(Refused, s)
  }

  function CanRead(s: State, t: Tid, b: int, now: int): Check {
    if b !in s.blockmap || s.blockmap[b].writer == 0 then Check(Granted, s)
    else AgainstWriter(s, t, b, now)
  }

  /** A reader that keeps a writer out: older, within its time slice and not committing. */
  predicate Blocks(st: TStat, r: Tid, t: Tid, now: int) {
    st.stat != COMMITTING && Older(r, t) && !Expired(st, now)
  }

  function ScanReaders(status: map<Tid, TStat>, readers: seq<Tid>, t: Tid, now: int): Verdict {
    if readers == [] then Granted
    else if readers[0] !in status then Dead
    else if Blocks(status[readers[0]], readers[0], t, now) then Refused
    else ScanReaders(status, readers[1..], t, now)
  }

  function PreemptAll(status: map<Tid, TStat>, readers: seq<Tid>): map<Tid, TStat> {
    map u | u in status :: if u in readers then status[u].(block := 0, stat := PREEMPTED) else status[u]
  }

  /** All readers of b are preempted, whatever their status, and b's reader list is cleared. */
  function SweepReaders(s: State, b: int): State
    requires b in s.blockmap
  {
    s.(status := PreemptAll(s.status, s.blockmap[b].readers),
       blockmap := s.blockmap[b := s.blockmap[b].(readers := [])])
  }

  function CanWrite(s: State, t: Tid, b: int, now: int): Check {
    if b !in s.blockmap then Check(Granted, s)
    else if s.blockmap[b].writer != 0 then AgainstWriter(s, t, b, now)
    else if s.blockmap[b].readers == [] then Check(Granted, s)
    else
      match ScanReaders(s.status, s.blockmap[b].readers, t, now)
      case Granted => Check(Granted, SweepReaders(s, b))
      case v => Check(v, s)
  }

  function HoldersOf(s: State, b: int): Holders {
    if b in s.blockmap then s.blockmap[b] else Holders([], 0)
  }

  function SetWriter(s: State, b: int, t: Tid): State {
    s.(blockmap := s.blockmap[b := HoldersOf(s, b).(writer := t)])
  }

  function SetReader(s: State, b: int, t: Tid): State {
    s.(blockmap := s.blockmap[b := HoldersOf(s, b).(readers := [t] + HoldersOf(s, b).readers)])
  }

  /** The source takes front() of a list that may be empty; that case is false here. */
  predicate SoleReader(s: State, t: Tid, b: int) {
    b in s.blockmap && |s.blockmap[b].readers| == 1 && s.blockmap[b].readers[0] == t
  }

  /** list::remove: every occurrence. */
  function Without(readers: seq<Tid>, t: Tid): (rs: seq<Tid>)
    ensures forall u :: u in rs <==> u in readers && u != t
  {
    if readers == [] then []
    else if readers[0] == t then Without(readers[1..], t)
    else [readers[0]] + Without(readers[1..], t)
  }

  function RemoveReader(s: State, b: int, t: Tid): State {
    if b !in s.blockmap then s
    else s.(blockmap := s.blockmap[b := s.blockmap[b].(readers := Without(s.blockmap[b].readers, t))])
  }

  function UpdateStatus(s: State, t: Tid, b: int, stat: Status): State {
    if t !in s.status then s
    else s.(status := s.status[t := s.status[t].(block := b, stat := stat)])
  }

  function SetStat(s: State, t: Tid, stat: Status): State
    requires t in s.status
  {
    s.(status := s.status[t := s.status[t].(stat := stat)])
  }

  // ---------------------------------------------------------------- the request handlers

  function Answer(c: Check, granted: State): Outcome {
    match c.verdict
    case Granted => Handled(granted, OK)
    case Refused => Handled(c.state, NOT_OK)
    case Dead => BrainDead
  }

  function BeginRq(s: State, who: int, pid: int, now: int): State {
    State(s.nextTid + 1,
          s.transactions[who := s.nextTid],
          s.status[s.nextTid := TStat(pid, 0, now, BEGUN)],
          s.blockmap)
  }

  function AllocateRq(s: State, t: Tid, b: int, now: int): Outcome {
    var c := CanWrite(s, t, b, now);
    Answer(c, UpdateStatus(SetWriter(c.state, b, t), t, b, ALLOCATED))
  }

  function ReadRq(s: State, t: Tid, b: int, now: int): Outcome {
    var c := CanRead(s, t, b, now);
    Answer(c, UpdateStatus(SetReader(c.state, b, t), t, b, READING))
  }

  function WriteRq(s: State, t: Tid, b: int, now: int): Outcome {
    if SoleReader(s, t, b) then
      Handled(UpdateStatus(SetWriter(RemoveReader(s, b, t), b, t), t, b, WRITING), OK)
    else
      var c := CanWrite(s, t, b, now);
      Answer(c, UpdateStatus(SetWriter(c.state, b, t), t, b, WRITING))
  }

  function ReleaseRq(s: State, t: Tid, b: int, now: int): Outcome {
    var c := CanWrite(s, t, b, now);
    Answer(c, UpdateStatus(SetWriter(c.state, b, t), t, b, RELEASING))
  }

  function StatusRq(s: State, t: Tid, stat: Status): Outcome {
    if t in s.status then Handled(SetStat(s, t, stat), OK) else Handled(s, NOT_OK)
  }

  function EndRq(s: State, t: Tid): Outcome {
    if t in s.status && s.status[t].stat == COMMITTING then Handled(SetStat(s, t, ENDED), OK)
    else Handled(s, NOT_OK)
  }

  /** process_clientrq: a preempted transaction is told to die, whatever it asks. */
  function Process(s: State, rq: Request, who: int, now: int): Outcome {
    if rq.kind != BEGIN && rq.tid in s.status && s.status[rq.tid].stat == PREEMPTED then Handled(s, DIE)
    else
      match rq.kind
      case BEGIN => Handled(BeginRq(s, who, rq.pid, now), OK)
      case ALLOCATE => AllocateRq(s, rq.tid, rq.block, now)
      case READ => ReadRq(s, rq.tid, rq.block, now)
      case WRITE => WriteRq(s, rq.tid, rq.block, now)
      case RELEASE => ReleaseRq(s, rq.tid, rq.block, now)
      case RESTART => StatusRq(s, rq.tid, RESTARTING)
      case ABORT => StatusRq(s, rq.tid, ABORTING)
      case COMMIT => StatusRq(s, rq.tid, COMMITTING)
      case END => EndRq(s, rq.tid)
  }

  // ---------------------------------------------------------------- disconnects

  function FlushHolders(h: Holders, t: Tid): Holders {
    if h.writer == t then h.(writer := 0) else h.(readers := Without(h.readers, t))
  }

  function FlushBlocks(bm: map<int, Holders>, t: Tid): map<int, Holders> {
    map b | b in bm :: FlushHolders(bm[b], t)
  }

  function Flush(s: State, t: Tid): State {
    if t !in s.status then s
    else s.(status := s.status - {t}, blockmap := FlushBlocks(s.blockmap, t))
  }

  /** client_disconnect: does the log manager roll back, and what remains of the tables. */
  predicate NeedsRollback(s: State, fd: int) {
    fd in s.transactions && s.transactions[fd] in s.status && s.status[s.transactions[fd]].stat == COMMITTING
  }

  function Disconnect(s: State, fd: int): State {
    if fd !in s.transactions || s.transactions[fd] !in s.status then s
    else Flush(s, s.transactions[fd]).(transactions := s.transactions - {fd})
  }
}
