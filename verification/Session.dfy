/** One transfer as two processes over two FIFO pipes: the client runs `send_to_remote`, the server
    `run_server_on`. Every write may block on a full pipe, every read on an empty one, either pipe may
    break at any time, and every local operation that the code checks may fail. */
module Session {
  import opened Wrappers
  import opened Codec

  datatype Upstream = Hello | Ready(ok: bool) | Chunk(payload: seq<byte>, more: bool) | TornUp
  datatype Downstream = Status(ok: bool) | ServerHello | TornDown

  /** What has been written and not yet read; closed when either end is gone. */
  datatype Pipe<T> = Pipe(queue: seq<T>, open: bool)

  datatype Outcome = Sent(bytes: nat) | Failed | Cancelled

  datatype Client =
    | Greeting                     // write ClientHello
    | AwaitVersion                 // read the version ServerStatus
    | AwaitHello                   // read ServerHello
    | Deciding                     // decide_transfer, spawn zfs send
    | Declining(result: Outcome)   // write ClientReady { ok: false }, errors ignored
    | Readying                     // write ClientReady { ok: true }
    | Looking(k: nat)              // write_stream: read ahead past chunk k
    | Pushing(k: nat)              // write chunk k and its frame
    | Checking(k: nat)             // progress done; poll the cancel token
    | AwaitFinal                   // read the final ServerStatus
    | Draining                     // after a stream error: try to read a ServerStatus
    | Closing(result: Outcome)     // send_on returned; drop stdin
    | Waiting(result: Outcome)     // wait for the ssh child
    | Gone(result: Outcome)

  datatype Server =
    | AwaitGreeting                // read ClientHello
    | Judging                      // version gate
    | RefusingVersion              // write ServerStatus { ok: false }
    | Accepting                    // write ServerStatus { ok: true }
    | Admitting                    // client name, allow list, token, listing
    | Refusing                     // write ServerStatus { ok: false } where ServerHello is expected
    | Introducing                  // write ServerHello
    | AwaitReady                   // read ClientReady
    | Spawning                     // spawn zfs receive
    | Receiving                    // read_stream_with_cancel
    | Finishing                    // whole stream read: wait for zfs receive
    | Failing                      // stream error: wait, annotate
    | Concluding(ok: bool)         // write the final ServerStatus
    | Leaving
    | Left

  datatype State = State(
    cap: nat, client: Client, server: Server, up: Pipe<Upstream>, down: Pipe<Downstream>,
    data: seq<byte>,           // everything read from zfs send
    sent: nat,                 // the last progress value
    received: seq<byte>,       // everything written to zfs receive
    finished: bool,            // zfs receive exited successfully after the whole stream
    upOut: seq<Upstream>, upIn: nat,       // all tokens ever written, number read
    downOut: seq<Downstream>, downIn: nat,
    faults: nat)               // breaks, cancels, and failures of local operations so far

  datatype ClientMove = Go | UpToDate | Diverged | SpawnFails | Stream | SourceFails | Cancel
  datatype ServerMove = Proceed | BadVersion | Reject | Abort | SinkFails(part: nat) | Hangup

  datatype Action =
    | ByClient(cm: ClientMove)
    | ByServer(sm: ServerMove)
    | BreakUp(keep: nat, torn: bool)
    | BreakDown(keep: nat, torn: bool)

  function Initial(cap: nat, data: seq<byte>): State {
    State(cap, Greeting, AwaitGreeting, Pipe([], true), Pipe([], true), data, 0, [], false, [], 0, [], 0, 0)
  }

  // ----- pipe operations

  /** Write a token and go on, fail on a closed pipe, or block. */
  function ClientWrite(s: State, t: Upstream, next: Client, onError: Client): Option<State> {
    if !s.up.open then Some(s.(client := onError))
    else if |s.up.queue| < s.cap then
      Some(s.(client := next, up := s.up.(queue := s.up.queue + [t]), upOut := s.upOut + [t]))
    else None
  }

  function ServerWrite(s: State, t: Downstream, next: Server): Option<State> {
    if !s.down.open then Some(s.(server := Leaving))
    else if |s.down.queue| < s.cap then
      Some(s.(server := next, down := s.down.(queue := s.down.queue + [t]), downOut := s.downOut + [t]))
    else None
  }

  /** The state after taking the first waiting token; a torn one is not counted as read. */
  function ClientTake(s: State): State
    requires s.down.queue != []
  {
    s.(down := s.down.(queue := s.down.queue[1..]),
       downIn := s.downIn + if s.down.queue[0] == TornDown then 0 else 1)
  }

  function ServerTake(s: State): State
    requires s.up.queue != []
  {
    s.(up := s.up.(queue := s.up.queue[1..]),
       upIn := s.upIn + if s.up.queue[0] == TornUp then 0 else 1)
  }

  function Faulty(s: State): State {
    s.(faults := s.faults + 1)
  }

  // ----- the client

  /** Read a ServerStatus or ServerHello; `next` says where each token leads. */
  function ClientRead(s: State, next: Downstream -> Client): Option<State> {
    if s.down.queue != [] then Some(ClientTake(s).(client := next(s.down.queue[0])))
    else if s.down.open then None
    else Some(s.(client := Closing(Failed)))
  }

  function ClientStep(s: State, m: ClientMove): Option<State> {
    match s.client
    case Greeting =>
      if m.Go? then ClientWrite(s, Hello, AwaitVersion, Closing(Failed)) else None
    case AwaitVersion =>
      if m.Go? then ClientRead(s, t => if t == Status(true) then AwaitHello else Closing(Failed)) else None
    case AwaitHello =>
      if m.Go? then ClientRead(s, t => if t == ServerHello then Deciding else Closing(Failed)) else None
    case Deciding => (
      match m
      case UpToDate => Some(s.(client := Declining(Sent(0))))
      case Diverged => Some(s.(client := Closing(Failed)))
      case SpawnFails => Some(Faulty(s).(client := Declining(Failed)))
      case Stream => Some(s.(client := Readying))
      case _ => None)
    case Declining(result) =>
      if m.Go? then ClientWrite(s, Ready(false), Closing(result), Closing(result)) else None
    case Readying =>
      if m.Go? then ClientWrite(s, Ready(true), Looking(0), Closing(Failed)) else None
    case Looking(k) => (
      match m
      case Go => Some(s.(client := Pushing(k)))
      case SourceFails => Some(Faulty(s).(client := Draining))
      case _ => None)
    case Pushing(k) =>
      if m.Go? then
        match ClientWrite(s, Chunk(Payload(s.data, k), More(s.data, k)), Checking(k), Draining)
        case None => None
        case Some(s') => Some(if s'.client == Checking(k) then s'.(sent := Offset(s.data, k + 1)) else s')
      else None
    case Checking(k) => (
      match m
      case Go => Some(s.(client := if More(s.data, k) then Looking(k + 1) else AwaitFinal))
      case Cancel => Some(Faulty(s).(client := Closing(Cancelled)))
      case _ => None)
    case AwaitFinal =>
      if m.Go? then ClientRead(s, t => if t == Status(true) then Closing(Sent(s.sent)) else Closing(Failed)) else None
    case Draining =>
      if m.Go? then ClientRead(s, t => Closing(Failed)) else None
    case Closing(result) =>
      if m.Go? then Some(s.(client := Waiting(result), up := s.up.(open := false))) else None
    case Waiting(result) =>
      if m.Go? && (s.server == Left || !s.down.open) then Some(s.(client := Gone(result))) else None
    case Gone(_) => None
  }

  // ----- the server

  function ServerStep(s: State, m: ServerMove): Option<State> {
    match s.server
    case AwaitGreeting =>
      if !m.Proceed? then None
      else if s.up.queue != [] then
        Some(ServerTake(s).(server := if s.up.queue[0] == Hello then Judging else Leaving))
      else if s.up.open then None
      else Some(s.(server := Leaving))
    case Judging => (
      match m
      case Proceed => Some(s.(server := Accepting))
      case BadVersion => Some(s.(server := RefusingVersion))
      case _ => None)
    case RefusingVersion => if m.Proceed? then ServerWrite(s, Status(false), Leaving) else None
    case Accepting => if m.Proceed? then ServerWrite(s, Status(true), Admitting) else None
    case Admitting => (
      match m
      case Proceed => Some(s.(server := Introducing))
      case Reject => Some(s.(server := Refusing))
      case Abort => Some(Faulty(s).(server := Leaving))
      case _ => None)
    case Refusing => if m.Proceed? then ServerWrite(s, Status(false), Leaving) else None
    case Introducing => if m.Proceed? then ServerWrite(s, ServerHello, AwaitReady) else None
    case AwaitReady =>
      if !m.Proceed? then None
      else if s.up.queue != [] then
        Some(ServerTake(s).(server := if s.up.queue[0] == Ready(true) then Spawning else Leaving))
      else if s.up.open then None
      else Some(s.(server := Leaving))
    case Spawning => (
      match m
      case Proceed => Some(s.(server := Receiving))
      case Abort => Some(Faulty(s).(server := Leaving))
      case _ => None)
    case Receiving => ServerReceive(s, m)
    case Finishing => (
      match m
      case Proceed => Some(s.(server := Concluding(true), finished := true))
      case Reject => Some(Faulty(s).(server := Concluding(false)))
      case Abort => Some(Faulty(s).(server := Leaving))
      case _ => None)
    case Failing => (
      match m
      case Proceed => Some(s.(server := Concluding(false)))
      case Abort => Some(Faulty(s).(server := Leaving))
      case _ => None)
    case Concluding(ok) => if m.Proceed? then ServerWrite(s, Status(ok), Leaving) else None
    case Leaving =>
      if m.Proceed? then Some(s.(server := Left, up := s.up.(open := false), down := s.down.(open := false))) else None
    case Left => None
  }

  /** One block: copy its payload to zfs receive, end, or stop on the hang-up flag. */
  function ServerReceive(s: State, m: ServerMove): Option<State> {
    if s.up.queue == [] then
      if m.Proceed? && !s.up.open then Some(s.(server := Failing)) else None
    else
      var s' := ServerTake(s);
      match s.up.queue[0]
      case Chunk(payload, more) => (
        match m
        case Proceed =>
          Some(s'.(server := if more then Receiving else Finishing, received := s.received + payload))
        case SinkFails(part) =>
          if part <= |payload|
          then Some(Faulty(s').(server := Failing, received := s.received + payload[..part]))
          else None
        case Hangup =>
          if more then Some(Faulty(s').(server := Leaving, received := s.received + payload)) else None
        case _ => None)
      case _ => if m.Proceed? then Some(s'.(server := Failing)) else None
  }

  // ----- runs

  /** A broken pipe loses what was in flight after some point, possibly inside a token. */
  function Step(s: State, a: Action): Option<State> {
    match a
    case ByClient(m) => ClientStep(s, m)
    case ByServer(m) => ServerStep(s, m)
    case BreakUp(keep, torn) =>
      if s.up.open && keep <= |s.up.queue|
      then Some(Faulty(s).(up := Pipe(s.up.queue[..keep] + (if torn then [TornUp] else []), false)))
      else None
    case BreakDown(keep, torn) =>
      if s.down.open && keep <= |s.down.queue|
      then Some(Faulty(s).(down := Pipe(s.down.queue[..keep] + (if torn then [TornDown] else []), false)))
      else None
  }

  function Exec(s: State, actions: seq<Action>): Option<State> {
    if actions == [] then Some(s)
    else
      match Exec(s, actions[..|actions| - 1])
      case None => None
      case Some(mid) => Step(mid, actions[|actions| - 1])
  }

  ghost predicate Reachable(s: State) {
    exists actions :: s.cap > 0 && Exec(Initial(s.cap, s.data), actions) == Some(s)
  }
}
