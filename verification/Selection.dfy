/**
 * Replying without naming a request: a ten-second window collects redelivered requests, an exact drain
 * closes it, and only then is the one request answered and are the deferred completions replayed.
 */
module Selection {
  import opened Wrappers
  import opened JsonValue
  import opened RequestIds
  import opened Normalize
  import opened Session
  import SessionRuns
  import Transport

  const REPLY_REDELIVERY_MS: nat := 10 * 1000

  /** A distinct request seen in the window, and where it stands in the stream. */
  datatype Candidate = Candidate(id: Value, name: string, frame: nat)

  /** `remaining` counts what is left of the drain; `deadline` is the poll that began it. */
  datatype Window = Window(
    s: State,
    requests: seq<Candidate>,
    deferred: seq<Transport.Event>,
    resolved: seq<Value>,
    remaining: Option<nat>,
    deadline: Option<nat>,
    failure: Option<Failure>)

  function Opened(s: State, started: nat): Window {
    Window(s.(lastItem := started, reply := None), [], [], [], None, None, None)
  }

  predicate Known(b: Backend, requests: seq<Candidate>, id: Value) {
    exists i | 0 <= i < |requests| :: SameRequestId(b, requests[i].id, id)
  }

  predicate AmongIds(b: Backend, ids: seq<Value>, id: Value) {
    exists i | 0 <= i < |ids| :: SameRequestId(b, ids[i], id)
  }

  function ResolvedIds(event: Event): seq<Value> {
    match event
    case RequestResolved(id, _) => [id]
    case _ => []
  }

  /** What the loop body does with one event taken from the channel. */
  function Examine(cfg: Config, v: Window, raw: Transport.Event, now: nat): (v': Window)
    ensures v'.s.taken == v.s.taken + 1
  {
    var s := v.s.(taken := v.s.taken + 1);
    if DeferDuringSelection(raw) then v.(s := s, deferred := v.deferred + [raw])
    else
      match Normalized(cfg.backend, raw, ContextOf(cfg, s))
      case Err(failure) => v.(s := WithUnsubscribe(cfg, s, raw), failure := Some(failure))
      case Ok(Request(id, name, _, thread)) =>
        if (thread.Some? && thread.value != cfg.threadId) || Known(cfg.backend, v.requests, id) then v.(s := s)
        else v.(s := s, requests := v.requests + [Candidate(id, name, s.taken - 1)])
      case Ok(Closed(reason)) => v.(s := s, failure := Some(SocketClosed(reason)))
      case Ok(event) =>
        var (s1, step) := Handle(cfg, WithUnsubscribe(cfg, s, raw), event, now);
        SessionRuns.EventCounts(cfg, Opening(WithUnsubscribe(cfg, s, raw)), event, now);
        v.(s := s1,
           resolved := v.resolved + ResolvedIds(event),
           failure := if step.Fail? then Some(step.failure) else None)
  }

  /** How far the events queued at `t` reach, when `taken` have been taken. */
  function QueuedUpTo(feed: Feed, taken: nat, t: nat): (n: nat)
    ensures taken <= n && (taken <= |feed.arrivals| ==> n <= |feed.arrivals|)
    decreases |feed.arrivals| - taken
  {
    if taken < |feed.arrivals| && feed.arrivals[taken].at <= t then QueuedUpTo(feed, taken + 1, t) else taken
  }

  predicate Finished(v: Window) { v.failure.Some? || v.remaining == Some(0) }

  /** One turn of the collecting loop: the deadline comes first, then the drain of what was queued at it. */
  function WindowStep(cfg: Config, feed: Feed, until: nat, v: Window, tick: Tick): (v': Window)
    ensures v'.s.taken >= v.s.taken && (v'.deferred == v.deferred || v'.s.taken > v.s.taken)
  {
    if Finished(v) then v
    else if v.remaining.Some? then
      var v1 := v.(remaining := Some(v.remaining.value - 1));
      if v.s.taken < |feed.arrivals| then Examine(cfg, v1, feed.arrivals[v.s.taken].raw, tick.now)
      else v1.(failure := Some(StreamEnded))
    else if until <= tick.poll then
      v.(remaining := Some(QueuedUpTo(feed, v.s.taken, tick.poll) - v.s.taken), deadline := Some(tick.poll))
    else
      match Recv(feed, v.s.taken, tick.poll)
      case Some(GotEvent(raw)) => Examine(cfg, v, raw, tick.now)
      case Some(_) => v.(failure := Some(StreamEnded))
      case None => v
  }

  function WindowRun(cfg: Config, feed: Feed, s: State, started: nat, ticks: seq<Tick>): (v: Window)
    ensures v.s.taken >= s.taken && (v.deferred != [] ==> v.s.taken > 0)
  {
    if ticks == [] then Opened(s, started)
    else
      WindowStep(cfg, feed, started + REPLY_REDELIVERY_MS,
                 WindowRun(cfg, feed, s, started, ticks[..|ticks| - 1]), ticks[|ticks| - 1])
  }

  /** After the window: exactly one request, not resolved meanwhile, is answered. */
  function Choose(cfg: Config, v: Window, payload: Payload): (State, Step) {
    if |v.requests| == 0 then (v.s, Fail(NothingRedelivered))
    else if |v.requests| > 1 then (v.s, Fail(SeveralRedelivered(|v.requests|)))
    else
      var request := v.requests[0];
      if AmongIds(cfg.backend, v.resolved, request.id) then (v.s, Fail(SelectedResolved(request.id)))
      else
        match BodyOf(cfg.backend, request.name, payload)
        case None => (v.s, Fail(NoDecisionFor(request.name)))
        case Some(body) => (Answered(cfg, v.s, request.id, request.name, body, request.frame), Continue)
  }

  /** The deferred completions, in order, up to the first that ends the command. */
  function Replay(cfg: Config, s: State, deferred: seq<Transport.Event>, now: nat): (State, Step)
    requires deferred != [] ==> s.taken > 0
    ensures Replay(cfg, s, deferred, now).0.taken == s.taken
  {
    if deferred == [] then (s, Continue)
    else
      var (s1, step) := Replay(cfg, s, deferred[..|deferred| - 1], now);
      if !step.Continue? then (s1, step)
      else
        SessionRuns.ProcessCounts(cfg, s1, deferred[|deferred| - 1], now);
        Process(cfg, s1, deferred[|deferred| - 1], now)
  }

  /** Once the window has closed: the answer, then the replay. */
  function AnswerAndReplay(cfg: Config, v: Window, payload: Payload, now: nat): (State, Step)
    requires v.deferred != [] ==> v.s.taken > 0
  {
    var (s1, step) := Choose(cfg, v, payload);
    if step.Continue? then Replay(cfg, s1, v.deferred, now) else (s1, step)
  }

  /**
   * The whole command after subscribing: `window` are the polls of the collecting loop, `resumed` is when
   * the answer and the replay are done, `ticks` are the polls of the wait loop.
   */
  function ReplyRun(cfg: Config, feed: Feed, s: State, payload: Payload, started: nat, window: seq<Tick>, resumed: nat,
    ticks: seq<Tick>): Wait {
    var v := WindowRun(cfg, feed, s, started, window);
    if v.failure.Some? then Stopped(v.s, started, Fail(v.failure.value))
    else if v.remaining != Some(0) then Stopped(v.s, started, Continue)
    else
      var (s1, step) := AnswerAndReplay(cfg, v, payload, resumed);
      if step.Continue? then WaitRun(cfg, feed, Begin(s1, resumed), ticks) else Stopped(s1, started, step)
  }

  function Stopped(s: State, started: nat, step: Step): Wait { Wait(s, started, started, EndOf(step), []) }
}
