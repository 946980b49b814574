/**
 * The CLI's wait machine as a state machine. Time is in milliseconds; a tick is one poll of the biased
 * select together with the instant its handling finished. Frame numbers in `sent` and tags in the log
 * record which event caused a response or a log line.
 */
module Session {
  import opened Wrappers
  import opened JsonValue
  import opened RequestIds
  import opened Normalize
  import Transport

  const NEVER: nat := 365 * 24 * 3600 * 1000
  const EXIT_COMPLETED := 0
  const EXIT_TURN_NOT_COMPLETED := 1
  const EXIT_REQUEST_PENDING := 2
  const EXIT_STALLED := 3
  const EXIT_ERROR := 4

  datatype Opts = Opts(stallSecs: nat, timeoutSecs: nat, autoDecline: bool, follow: bool)

  datatype Config = Config(backend: Backend, threadId: string, hasLog: bool, opts: Opts)

  datatype Payload = ResultJson(value: Value) | Decided(decision: Decision)

  datatype PendingReply = PendingReply(id: Value, payload: Payload, deadline: nat)

  /** One line of JSON output. A `Note` goes to the log only. */
  datatype Line =
    | RequestLine(thread: Value, id: Value, name: string, params: Value)
    | StalledLine(threadId: string, turnId: Option<string>, secs: nat, finalMessage: string)
    | TimeoutLine(threadId: string, turnId: Option<string>, secs: nat, finalMessage: string)
    | TurnLine(status: string, threadId: string, turnId: Option<string>, finalMessage: string, fields: Value)
    | ErrorLine(failure: Failure)
    | Note(value: Value)

  /** A log line and the ordinal of the event being handled when it was written; 0 outside handling. */
  datatype Entry = Entry(line: Line, tag: nat)

  datatype Response = Result(id: Value, body: Value) | Refusal(id: Value)

  /** A response and the position in the event stream of the request it answers. */
  datatype Sent = Sent(response: Response, frame: nat)

  datatype Out = Out(stdout: seq<Line>, log: seq<Entry>, unlogged: nat, suppress: bool, handled: nat, during: nat)

  datatype State = State(
    turnId: Option<string>,
    finalMessage: string,
    out: Out,
    sent: seq<Sent>,
    unsubscribed: seq<string>,
    taken: nat,
    reply: Option<PendingReply>,
    lastItem: nat)

  datatype Step = Continue | Exit(code: int) | Fail(failure: Failure)

  // ---- output ----

  function WriteLog(hasLog: bool, out: Out, line: Line): Out {
    if out.suppress || !hasLog then out else out.(log := out.log + [Entry(line, out.during)])
  }

  function Emit(hasLog: bool, out: Out, line: Line): Out {
    WriteLog(hasLog, out.(stdout := out.stdout + [line]), line)
  }

  function Emitted(cfg: Config, s: State, line: Line): State {
    s.(out := Emit(cfg.hasLog, s.out, line))
  }

  function Logged(cfg: Config, s: State, value: Value): State {
    s.(out := WriteLog(cfg.hasLog, s.out, Note(value)))
  }

  // ---- answering ----

  function BodyOf(b: Backend, name: string, payload: Payload): Option<Value> {
    match payload
    case ResultJson(value) => Some(value)
    case Decided(decision) => DecisionResponse(b, name, decision)
  }

  function RepliedNote(cfg: Config, id: Value, name: string, body: Value): Value {
    Obj(map["event" := Str("replied"), "threadId" := Str(cfg.threadId), "requestId" := id, "method" := Str(name),
      "result" := body])
  }

  const UNATTENDED_MESSAGE :=
    "agent-bridge is running this turn unattended: no human is available to approve or answer. "
    + "Use your own judgment and continue with what you can do without this approval."

  function DeclinedNote(cfg: Config, id: Value, name: string): Value {
    Obj(map["event" := Str("autoDeclined"), "threadId" := Str(cfg.threadId), "requestId" := id, "method" := Str(name),
            "message" := Str(UNATTENDED_MESSAGE)])
  }

  /** `answer_request`: the response to the request found at `frame`, then its log line. */
  function Answered(cfg: Config, s: State, id: Value, name: string, body: Value, frame: nat): State {
    Logged(cfg, s.(sent := s.sent + [Sent(Result(id, body), frame)]), RepliedNote(cfg, id, name, body))
  }

  // ---- handling one event ----

  function TurnOutcome(status: string): int {
    if status == "completed" then EXIT_COMPLETED else EXIT_TURN_NOT_COMPLETED
  }

  function TurnLineOf(cfg: Config, s: State, status: string, fields: Value): Line {
    TurnLine(status, cfg.threadId, s.turnId, s.finalMessage, fields)
  }

  function Absorb(s: State, turnId: Option<string>, text: Option<string>): State {
    s.(turnId := if turnId.Some? then turnId else s.turnId, finalMessage := text.GetOr(s.finalMessage))
  }

  predicate Awaits(cfg: Config, s: State, id: Value) {
    s.reply.Some? && SameRequestId(cfg.backend, s.reply.value.id, id)
  }

  function ProgressIf(s: State, progress: bool, now: nat): State {
    if progress then s.(lastItem := now) else s
  }

  function HandleRequest(cfg: Config, s: State, id: Value, name: string, params: Value, now: nat): (State, Step)
    requires s.taken > 0
  {
    var policy := PolicyOf(cfg.backend);
    if Awaits(cfg, s, id) then
      var body := BodyOf(cfg.backend, name, s.reply.value.payload);
      if body.None? then (s.(reply := None), Fail(NoDecisionFor(name)))
      else
        (ProgressIf(Answered(cfg, s.(reply := None), id, name, body.value, s.taken - 1), policy.requestIsProgress, now),
          Continue)
    else if s.reply.Some? && policy.isolateSelectedRequest then (s, Continue)
    else if cfg.opts.autoDecline then
      var s1 := Logged(cfg, s.(sent := s.sent + [Sent(Refusal(id), s.taken - 1)]), DeclinedNote(cfg, id, name));
      (ProgressIf(s1, policy.requestIsProgress, now), Continue)
    else
      (Emitted(cfg, s, RequestLine(params.Get("threadId").GetOr(Str(cfg.threadId)), id, name, params)),
       if cfg.opts.follow then Continue else Exit(EXIT_REQUEST_PENDING))
  }

  function HandleEvent(cfg: Config, s: State, event: Event, now: nat): (State, Step)
    requires s.taken > 0
  {
    match event
    case Ignore => (s, Continue)
    case Closed(reason) => (Emitted(cfg, s, ErrorLine(SocketClosed(reason))), Exit(EXIT_ERROR))
    case Update(turnId, text, progress, log) =>
      var s1 := ProgressIf(Absorb(s, turnId, text), progress, now);
      (if log.Some? then Logged(cfg, s1, log.value) else s1, Continue)
    case TurnCompleted(turnId, status, text, fields) =>
      var s1 := Absorb(s, turnId, text);
      (Emitted(cfg, s1, TurnLineOf(cfg, s1, status, fields)), Exit(TurnOutcome(status)))
    case RequestResolved(id, note) =>
      (Logged(cfg, s, note), if Awaits(cfg, s, id) then Fail(AlreadyResolved) else Continue)
    case Request(id, name, params, _) => HandleRequest(cfg, s, id, name, params, now)
  }

  function Opening(s: State): State {
    s.(out := s.out.(suppress := s.out.unlogged > 0, unlogged := if s.out.unlogged > 0 then s.out.unlogged - 1 else 0,
                     handled := s.out.handled + 1, during := s.out.handled + 1))
  }

  function Closing(s: State): State { s.(out := s.out.(suppress := false, during := 0)) }

  function Handle(cfg: Config, s: State, event: Event, now: nat): (State, Step)
    requires s.taken > 0
  {
    var (s1, step) := HandleEvent(cfg, Opening(s), event, now);
    (Closing(s1), step)
  }

  function ContextOf(cfg: Config, s: State): Context { Context(cfg.threadId, s.turnId, s.reply.Some?) }

  function WithUnsubscribe(cfg: Config, s: State, raw: Transport.Event): State {
    match Unsubscribes(cfg.backend, raw, ContextOf(cfg, s))
    case Some(sub) => s.(unsubscribed := s.unsubscribed + [sub])
    case None => s
  }

  /** Normalize and handle an event that has been taken from the channel. */
  function Process(cfg: Config, s: State, raw: Transport.Event, now: nat): (State, Step)
    requires s.taken > 0
  {
    match Normalized(cfg.backend, raw, ContextOf(cfg, s))
    case Err(failure) => (WithUnsubscribe(cfg, s, raw), Fail(failure))
    case Ok(event) => Handle(cfg, WithUnsubscribe(cfg, s, raw), event, now)
  }

  // ---- waking ----

  datatype Arrival = Arrival(at: nat, raw: Transport.Event)

  /** What the reader task delivers: events in arrival order, then possibly the end of the stream. */
  datatype Feed = Feed(arrivals: seq<Arrival>, endAt: Option<nat>)

  datatype Wake = GotEvent(raw: Transport.Event) | StreamEnd | ReplyDue | StallDue | TimeoutDue

  function Deadline(start: nat, secs: nat, now: nat): nat {
    if secs == 0 then now + NEVER else start + secs * 1000
  }

  /** What receiving from the channel yields at `t`, when `taken` events have been taken. */
  function Recv(feed: Feed, taken: nat, t: nat): Option<Wake> {
    if taken < |feed.arrivals| then
      if feed.arrivals[taken].at <= t then Some(GotEvent(feed.arrivals[taken].raw)) else None
    else if feed.endAt.Some? && feed.endAt.value <= t then Some(StreamEnd)
    else None
  }

  /** The biased select polled at `t`: the first ready branch in the backend's order. */
  function NextWake(deadlinesFirst: bool, stall: nat, timeout: nat, reply: nat, t: nat,
    event: Option<Wake>): Option<Wake> {
    if deadlinesFirst then
      if timeout <= t then Some(TimeoutDue)
      else if reply <= t then Some(ReplyDue)
      else if stall <= t then Some(StallDue)
      else event
    else
      if event.Some? then event
      else if reply <= t then Some(ReplyDue)
      else if stall <= t then Some(StallDue)
      else if timeout <= t then Some(TimeoutDue)
      else None
  }

  // ---- the wait loop ----

  datatype Tick = Tick(poll: nat, now: nat)

  datatype End = Exited(code: int) | Failed(failure: Failure)

  /** A poll that woke the loop, how many events had been taken before it, and whether it sent a response. */
  datatype Happening = Happening(poll: nat, now: nat, wake: Wake, taken: nat, responded: bool)

  /** `round` is when the current iteration computed its deadlines. */
  datatype Wait = Wait(s: State, started: nat, round: nat, end: Option<End>, trace: seq<Happening>)

  function WakeAt(cfg: Config, feed: Feed, w: Wait, t: nat): Option<Wake> {
    NextWake(PolicyOf(cfg.backend).deadlinesFirst,
             Deadline(w.s.lastItem, cfg.opts.stallSecs, w.round),
             Deadline(w.started, cfg.opts.timeoutSecs, w.round),
             if w.s.reply.Some? then w.s.reply.value.deadline else w.round + NEVER,
             t,
             Recv(feed, w.s.taken, t))
  }

  function React(cfg: Config, s: State, wake: Wake, now: nat): (State, Step) {
    match wake
    case GotEvent(raw) => Process(cfg, s.(taken := s.taken + 1), raw, now)
    case StreamEnd => (Emitted(cfg, s, ErrorLine(StreamEnded)), Exit(EXIT_ERROR))
    case ReplyDue =>
      var id := if s.reply.Some? then s.reply.value.id else Null;
      (Emitted(cfg, s, ErrorLine(NotRedelivered(id))), Exit(EXIT_ERROR))
    case StallDue =>
      var s1 := Emitted(cfg, s, StalledLine(cfg.threadId, s.turnId, cfg.opts.stallSecs, s.finalMessage));
      if cfg.opts.follow then (s1.(lastItem := now), Continue) else (s1, Exit(EXIT_STALLED))
    case TimeoutDue =>
      (Emitted(cfg, s, TimeoutLine(cfg.threadId, s.turnId, cfg.opts.timeoutSecs, s.finalMessage)), Exit(EXIT_STALLED))
  }

  function EndOf(step: Step): Option<End> {
    match step
    case Continue => None
    case Exit(code) => Some(Exited(code))
    case Fail(failure) => Some(Failed(failure))
  }

  function HappeningOf(cfg: Config, w: Wait, wake: Wake, tick: Tick): Happening {
    Happening(tick.poll, tick.now, wake, w.s.taken, |React(cfg, w.s, wake, tick.now).0.sent| > |w.s.sent|)
  }

  function Woken(cfg: Config, w: Wait, wake: Wake, tick: Tick): Wait {
    var (s, step) := React(cfg, w.s, wake, tick.now);
    Wait(s, w.started, tick.now, EndOf(step), w.trace + [HappeningOf(cfg, w, wake, tick)])
  }

  /** One poll: nothing happens unless a branch is ready and the loop is still running. */
  function WaitStep(cfg: Config, feed: Feed, w: Wait, tick: Tick): Wait {
    if w.end.Some? then w
    else
      match WakeAt(cfg, feed, w, tick.poll)
      case None => w
      case Some(wake) => Woken(cfg, w, wake, tick)
  }

  /** The loop's start: both clocks are read, then the first iteration begins. */
  function Begin(s: State, started: nat): Wait {
    Wait(s.(lastItem := started), started, started, None, [])
  }

  function WaitRun(cfg: Config, feed: Feed, w: Wait, ticks: seq<Tick>): Wait {
    if ticks == [] then w else WaitStep(cfg, feed, WaitRun(cfg, feed, w, ticks[..|ticks| - 1]), ticks[|ticks| - 1])
  }

  /** The clock never runs backwards. */
  ghost predicate Ordered(start: nat, ticks: seq<Tick>) {
    && (forall i | 0 <= i < |ticks| :: start <= ticks[i].poll <= ticks[i].now)
    && (forall i, j | 0 <= i < j < |ticks| :: ticks[i].now <= ticks[j].poll)
  }

  // ---- what the user sees ----

  /** Standard output of the whole command: a failed command adds one error line. */
  function OutputOf(w: Wait): seq<Line> {
    w.s.out.stdout + if w.end.Some? && w.end.value.Failed? then [ErrorLine(w.end.value.failure)] else []
  }

  function ExitCodeOf(end: End): int {
    match end
    case Exited(code) => code
    case Failed(_) => EXIT_ERROR
  }
}
