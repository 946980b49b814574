/**
 * The plugin's reverse-request protocol as a state machine: one function per atomic piece of JavaScript.
 * Answers reach their continuation through the FIFO queue `jobs`, so every interleaving of the moves
 * between an answer and its continuation is a run of this machine. `sent`, `history` and the sets inside
 * a thread's turn state are histories.
 */
module Protocol {
  import opened Wrappers
  import opened JsonValue
  import opened SessionLog
  import Decimal
  import Turns

  type ConnId = nat
  type ThreadId = string
  type ReqId = string

  datatype Kind = Approval | UserQuestion

  datatype ResolvedBy = ByClient | ByCancellation

  datatype Frame =
    | RequestFrame(id: ReqId, kind: Kind, thread: ThreadId, params: Value)
    | ResolvedFrame(id: ReqId, thread: ThreadId, resolvedBy: ResolvedBy)
    | StartedFrame(thread: ThreadId, turn: int)
    | CompletedFrame(thread: ThreadId, summary: Turns.Summary)
    | EventFrame(thread: ThreadId, event: SessionEvent)
    | StatusFrame(thread: ThreadId, status: string)

  /** How a promise returned by `Connection.request` settles. */
  datatype Reply = Accepted(value: Value) | Refused(message: string) | Abandoned

  /** A queued continuation of the request `id` sent to `conn`. */
  datatype Job = Job(conn: ConnId, id: ReqId, reply: Reply)

  datatype Outcome = Given(value: Value) | Rejected(message: string) | Cancelled

  datatype RpcId = IdStr(s: string) | IdNum(n: int)

  datatype Signal = NoSignal | LiveSignal | AbortedSignal

  datatype Conn = Conn(closed: bool, subscriptions: set<ThreadId>, outbound: seq<ReqId>, sent: seq<Frame>)

  datatype Pending = Pending(
    thread: ThreadId,
    kind: Kind,
    params: Value,
    signal: Signal,
    delivered: set<ConnId>,
    settled: bool,
    listening: bool)

  /** Subscribers and pending requests keep insertion order, as a JavaScript Set and Map do. */
  datatype Thread = Thread(subscribers: seq<ConnId>, pending: seq<ReqId>, turn: Turns.TurnState)

  /** Who won a request, who was subscribed at that moment, and who was told. */
  datatype Settlement = Settlement(resolvedBy: ResolvedBy, winner: Option<ConnId>, subscribed: set<ConnId>,
    told: set<ConnId>)

  datatype State = State(
    conns: map<ConnId, Conn>,
    threads: map<ThreadId, Thread>,
    requests: map<ReqId, Pending>,
    seqNo: nat,
    jobs: seq<Job>,
    timers: seq<(ConnId, ThreadId)>,
    outcomes: map<ReqId, Outcome>,
    history: map<ReqId, Settlement>)

  const INITIAL := State(map[], map[], map[], 0, [], [], map[], map[])

  datatype Move =
    | Connect(conn: ConnId)
    | StartThread(conn: ConnId, thread: ThreadId)
    | Adopt(thread: ThreadId)
    | Resume(conn: ConnId, thread: ThreadId)
    | FireTimer
    | Touch(conn: ConnId, thread: ThreadId)
    | Unsubscribe(conn: ConnId, thread: ThreadId)
    | Close(conn: ConnId)
    | Ask(thread: ThreadId, kind: Kind, params: Value, signal: Signal)
    | Answer(conn: ConnId, rpcId: Option<RpcId>, answer: Reply)
    | RunJob
    | Abort(id: ReqId)
    | SubmitTurn(conn: ConnId, thread: ThreadId, messageId: string, textOk: bool, agentRunning: bool, agentLive: bool)
    | TurnInput(thread: ThreadId, input: Turns.Input)
    | AgentStatus(thread: ThreadId, status: string)
    | AgentError(thread: ThreadId, turn: int, message: string)

  // ---- small pieces ----

  function RequestName(n: nat): ReqId { "req-" + Decimal.Print(n) }

  /** The key a response's id is looked up under. */
  function KeyOf(id: RpcId): ReqId {
    match id
    case IdStr(s) => s
    case IdNum(n) => Decimal.Print(n)
  }

  function Without<T(==,!new)>(xs: seq<T>, x: T): (ys: seq<T>)
    ensures forall y :: y in ys <==> y in xs && y != x
    ensures Distinct(xs) ==> Distinct(ys)
  {
    if xs == [] then []
    else
      var init, last := xs[..|xs| - 1], xs[|xs| - 1];
      assert Distinct(xs) ==> Distinct(init) && last !in init;
      Without(init, x) + if last == x then [] else [last]
  }

  function Including<T(==)>(xs: seq<T>, x: T): seq<T> {
    if x in xs then xs else xs + [x]
  }

  ghost predicate Distinct<T(!new)>(xs: seq<T>) {
    forall i, j | 0 <= i < j < |xs| :: xs[i] != xs[j]
  }

  function Forwarded(e: SessionEvent): bool {
    e.OtherEvent? ==> e.kind in ["user/message", "tool/call", "tool/result", "step/start", "step/end", "session/title"]
  }

  function Written(conn: Conn, frame: Frame): Conn {
    if conn.closed then conn else conn.(sent := conn.sent + [frame])
  }

  /** `Connection.request` on an open connection. */
  function Requested(conn: Conn, frame: Frame): Conn
    requires frame.RequestFrame?
  {
    Written(conn.(outbound := Including(conn.outbound, frame.id)), frame)
  }

  /** `cancelRequest` when the request is outstanding, then the notification. */
  function ToldResolved(conn: Conn, frame: Frame): Conn
    requires frame.ResolvedFrame?
  {
    Written(conn.(outbound := Without(conn.outbound, frame.id)), frame)
  }

  // ---- subscriptions and broadcasts ----

  function Subscribed(s: State, c: ConnId, t: ThreadId): State
    requires c in s.conns && t in s.threads
  {
    s.(conns := s.conns[c := s.conns[c].(subscriptions := s.conns[c].subscriptions + {t})],
       threads := s.threads[t := s.threads[t].(subscribers := Including(s.threads[t].subscribers, c))])
  }

  predicate IsOpen(s: State, c: ConnId) { c in s.conns && !s.conns[c].closed }

  function OpenOnly(s: State, cs: seq<ConnId>): seq<ConnId> {
    if cs == [] then []
    else OpenOnly(s, cs[..|cs| - 1]) + if IsOpen(s, cs[|cs| - 1]) then [cs[|cs| - 1]] else []
  }

  /** Notify every open subscriber and forget the closed ones. */
  function Broadcast(s: State, t: ThreadId, frame: Frame): State
    requires t in s.threads
  {
    var subscribers := s.threads[t].subscribers;
    s.(conns := map c | c in s.conns :: if c in subscribers then Written(s.conns[c], frame) else s.conns[c],
       threads := s.threads[t := s.threads[t].(subscribers := OpenOnly(s, subscribers))])
  }

  // ---- delivering, announcing, settling ----

  function RequestFrameOf(s: State, r: ReqId): Frame
    requires r in s.requests
  {
    RequestFrame(r, s.requests[r].kind, s.requests[r].thread, s.requests[r].params)
  }

  /** `deliver`: not when settled, not to a closed connection, not twice. */
  predicate Deliverable(s: State, r: ReqId, c: ConnId) {
    r in s.requests && IsOpen(s, c) && !s.requests[r].settled && c !in s.requests[r].delivered
  }

  function Deliver(s: State, r: ReqId, c: ConnId): State {
    if !Deliverable(s, r, c) then s
    else
      s.(requests := s.requests[r := s.requests[r].(delivered := s.requests[r].delivered + {c})],
         conns := s.conns[c := Requested(s.conns[c], RequestFrameOf(s, r))])
  }

  /** Delivering touches only connections and the requests' delivered sets. */
  ghost predicate SameBooks(s: State, s': State) {
    && s'.threads == s.threads && s'.seqNo == s.seqNo && s'.jobs == s.jobs && s'.timers == s.timers
    && s'.outcomes == s.outcomes && s'.history == s.history
    && s'.conns.Keys == s.conns.Keys && s'.requests.Keys == s.requests.Keys
    && (forall q | q in s.requests :: s'.requests[q] == s.requests[q].(delivered := s'.requests[q].delivered))
    && (forall d | d in s.conns ::
          s'.conns[d].closed == s.conns[d].closed && s'.conns[d].subscriptions == s.conns[d].subscriptions)
  }

  function FanOut(s: State, r: ReqId, cs: seq<ConnId>): (s': State)
    ensures SameBooks(s, s')
  {
    if cs == [] then s else Deliver(FanOut(s, r, cs[..|cs| - 1]), r, cs[|cs| - 1])
  }

  function RedeliverAll(s: State, c: ConnId, rs: seq<ReqId>): (s': State)
    ensures SameBooks(s, s')
  {
    if rs == [] then s else Deliver(RedeliverAll(s, c, rs[..|rs| - 1]), rs[|rs| - 1], c)
  }

  function SubscribersOf(s: State, r: ReqId): seq<ConnId> {
    if r in s.requests && s.requests[r].thread in s.threads then s.threads[s.requests[r].thread].subscribers else []
  }

  /** The subscribers `announceResolved` does not skip. */
  predicate Hears(s: State, r: ReqId, winner: Option<ConnId>, c: ConnId) {
    c in SubscribersOf(s, r) && IsOpen(s, c) && winner != Some(c)
  }

  /** The connections told that `r` is resolved: its open subscribers other than the winner. */
  function Told(s: State, r: ReqId, winner: Option<ConnId>): set<ConnId> {
    set c | c in SubscribersOf(s, r) && Hears(s, r, winner, c)
  }

  /** The rejections `announceResolved` queues: one per connection it withdraws `r` from. */
  function Withdrawals(conns: map<ConnId, Conn>, r: ReqId, winner: Option<ConnId>, cs: seq<ConnId>): seq<Job> {
    if cs == [] then []
    else
      var c := cs[|cs| - 1];
      Withdrawals(conns, r, winner, cs[..|cs| - 1])
      + if c in conns && !conns[c].closed && winner != Some(c) && r in conns[c].outbound then [Job(c, r, Abandoned)]
        else []
  }

  function Announce(s: State, r: ReqId, resolvedBy: ResolvedBy, winner: Option<ConnId>): State
    requires r in s.requests
  {
    var frame := ResolvedFrame(r, s.requests[r].thread, resolvedBy);
    s.(conns := map c | c in s.conns :: if Hears(s, r, winner, c) then ToldResolved(s.conns[c], frame) else s.conns[c],
       jobs := s.jobs + Withdrawals(s.conns, r, winner, SubscribersOf(s, r)))
  }

  function SettlementOf(s: State, r: ReqId, resolvedBy: ResolvedBy, winner: Option<ConnId>): Settlement {
    Settlement(resolvedBy, winner, (set c | c in SubscribersOf(s, r)), Told(s, r, winner))
  }

  function Settle(s: State, r: ReqId, resolvedBy: ResolvedBy, winner: Option<ConnId>, outcome: Outcome): State
    requires r in s.requests && s.requests[r].thread in s.threads
  {
    var pending := s.requests[r];
    if pending.settled then s
    else
      var thread := s.threads[pending.thread];
      s.(requests := s.requests[r := pending.(settled := true, listening := false)],
         threads := s.threads[pending.thread := thread.(pending := Without(thread.pending, r))],
         outcomes := s.outcomes[r := outcome],
         history := s.history[r := SettlementOf(s, r, resolvedBy, winner)])
  }

  /** Announce, then settle: the two calls every deciding path makes together. */
  function Resolve(s: State, r: ReqId, resolvedBy: ResolvedBy, winner: Option<ConnId>, outcome: Outcome): State
    requires r in s.requests && s.requests[r].thread in s.threads
  {
    Settle(Announce(s, r, resolvedBy, winner), r, resolvedBy, winner, outcome)
  }

  // ---- the moves ----

  function NewThread(): Thread { Thread([], [], Turns.IDLE) }

  function FireTimerStep(s: State): State
    requires s.timers != []
  {
    var (c, t) := s.timers[0];
    var s1 := s.(timers := s.timers[1..]);
    if t in s.threads then RedeliverAll(s1, c, s.threads[t].pending) else s1
  }

  function UnsubscribeStep(s: State, c: ConnId, t: ThreadId): State
    requires c in s.conns
  {
    s.(conns := s.conns[c := s.conns[c].(subscriptions := s.conns[c].subscriptions - {t})],
       threads := if t in s.threads
                  then s.threads[t := s.threads[t].(subscribers := Without(s.threads[t].subscribers, c))]
                  else s.threads)
  }

  function AbandonAll(c: ConnId, ids: seq<ReqId>): seq<Job> {
    seq(|ids|, i requires 0 <= i < |ids| => Job(c, ids[i], Abandoned))
  }

  function CloseStep(s: State, c: ConnId): State
    requires c in s.conns
  {
    var conn := s.conns[c];
    s.(conns := s.conns[c := conn.(closed := true, outbound := [], subscriptions := {})],
       jobs := s.jobs + AbandonAll(c, conn.outbound),
       threads := map t | t in s.threads :: s.threads[t].(subscribers := Without(s.threads[t].subscribers, c)))
  }

  /** `ownedThread`: the thread is registered and a bridge turn is in flight on it. */
  predicate Owned(s: State, t: ThreadId) {
    t in s.threads && s.threads[t].turn.inflight.Some?
  }

  function WithRequest(s: State, t: ThreadId, kind: Kind, params: Value, signal: Signal): State
    requires t in s.threads
  {
    var r := RequestName(s.seqNo + 1);
    s.(seqNo := s.seqNo + 1,
       requests := s.requests[r := Pending(t, kind, params, signal, {}, false, signal.LiveSignal?)],
       threads := s.threads[t := s.threads[t].(pending := Including(s.threads[t].pending, r))])
  }

  /** What follows registration: cancelled at once on an aborted signal, otherwise fanned out. */
  function AfterRegistering(s: State, r: ReqId, signal: Signal, subscribers: seq<ConnId>): State
    requires r in s.requests && s.requests[r].thread in s.threads
  {
    if signal.AbortedSignal? then Resolve(s, r, ByCancellation, None, Cancelled) else FanOut(s, r, subscribers)
  }

  function AskStep(s: State, t: ThreadId, kind: Kind, params: Value, signal: Signal): State
    requires Owned(s, t)
  {
    AfterRegistering(WithRequest(s, t, kind, params, signal), RequestName(s.seqNo + 1), signal,
      s.threads[t].subscribers)
  }

  function AnswerStep(s: State, c: ConnId, key: ReqId, reply: Reply): State
    requires c in s.conns
  {
    if key !in s.conns[c].outbound then s
    else
      s.(conns := s.conns[c := s.conns[c].(outbound := Without(s.conns[c].outbound, key))],
         jobs := s.jobs + [Job(c, key, reply)])
  }

  function OutcomeOf(reply: Reply): Outcome {
    match reply
    case Accepted(v) => Given(v)
    case Refused(message) => Rejected(message)
    case Abandoned => Cancelled
  }

  function RunJobStep(s: State): State
    requires s.jobs != []
  {
    var job := s.jobs[0];
    var s1 := s.(jobs := s.jobs[1..]);
    if job.reply.Abandoned? || job.id !in s.requests || s.requests[job.id].settled
      || s.requests[job.id].thread !in s.threads then s1
    else Resolve(s1, job.id, ByClient, Some(job.conn), OutcomeOf(job.reply))
  }

  function AbortStep(s: State, r: ReqId): State {
    if r in s.requests && s.requests[r].listening && s.requests[r].thread in s.threads
    then Resolve(s, r, ByCancellation, None, Cancelled)
    else s
  }

  function FrameOfNote(t: ThreadId, note: Turns.Note): Frame {
    match note
    case Started(_, turn) => StartedFrame(t, turn)
    case Completed(summary) => CompletedFrame(t, summary)
  }

  /** One turn input: a log event is forwarded first, then the turn note it causes is broadcast. */
  function TurnStep(s: State, t: ThreadId, input: Turns.Input): State
    requires t in s.threads
  {
    var s1 := if input.Log? && Forwarded(input.event) then Broadcast(s, t, EventFrame(t, input.event)) else s;
    var note := Turns.NoteFor(s.threads[t].turn, input);
    var s2 := s1.(threads := s1.threads[t := s1.threads[t].(turn := Turns.Advance(s.threads[t].turn, input))]);
    if note.Some? then Broadcast(s2, t, FrameOfNote(t, note.value)) else s2
  }

  /** Whether `turn/start` is accepted, after it has subscribed the caller. */
  predicate Accepts(s: State, t: ThreadId, textOk: bool, agentRunning: bool, agentLive: bool) {
    t in s.threads && textOk && s.threads[t].turn.inflight.None? && !agentRunning && agentLive
  }

  function SubmitStep(s: State, c: ConnId, t: ThreadId, m: string, accepted: bool): State
    requires c in s.conns && t in s.threads
  {
    var s1 := Subscribed(s, c, t);
    if accepted then TurnStep(s1, t, Turns.Submit(m)) else s1
  }

  /** What `agent/error` is forwarded as: an event of no log position. */
  function ErrorFrame(t: ThreadId, turn: int, message: string): Frame {
    EventFrame(t, OtherEvent("agent/error", Obj(map["turn" := Int(turn), "error" := Str(message)])))
  }

  function Step(s: State, m: Move): State {
    match m
    case Connect(c) => if c in s.conns then s else s.(conns := s.conns[c := Conn(false, {}, [], [])])
    case StartThread(c, t) =>
      if c in s.conns then Subscribed(s.(threads := s.threads[t := NewThread()]), c, t) else s
    case Adopt(t) => if t in s.threads then s else s.(threads := s.threads[t := NewThread()])
    case Resume(c, t) =>
      if c in s.conns && t in s.threads then Subscribed(s, c, t).(timers := s.timers + [(c, t)]) else s
    case FireTimer => if s.timers == [] then s else FireTimerStep(s)
    case Touch(c, t) => if c in s.conns && t in s.threads then Subscribed(s, c, t) else s
    case Unsubscribe(c, t) => if c in s.conns then UnsubscribeStep(s, c, t) else s
    case Close(c) => if c in s.conns then CloseStep(s, c) else s
    case Ask(t, kind, params, signal) => if Owned(s, t) then AskStep(s, t, kind, params, signal) else s
    case Answer(c, rpcId, answer) =>
      if c in s.conns && rpcId.Some? && !answer.Abandoned? then AnswerStep(s, c, KeyOf(rpcId.value), answer) else s
    case RunJob => if s.jobs == [] then s else RunJobStep(s)
    case Abort(r) => AbortStep(s, r)
    case SubmitTurn(c, t, messageId, textOk, agentRunning, agentLive) =>
      if c in s.conns && t in s.threads
      then SubmitStep(s, c, t, messageId, Accepts(s, t, textOk, agentRunning, agentLive))
      else s
    case TurnInput(t, input) => if t in s.threads && !input.Submit? then TurnStep(s, t, input) else s
    case AgentStatus(t, status) => if t in s.threads then Broadcast(s, t, StatusFrame(t, status)) else s
    case AgentError(t, turn, message) => if t in s.threads then Broadcast(s, t, ErrorFrame(t, turn, message)) else s
  }

  /** What the environment promises before each move. */
  predicate Enabled(s: State, m: Move) {
    match m
    case StartThread(_, t) => t !in s.threads
    case TurnInput(t, input) => t in s.threads ==> Turns.Allowed(s.threads[t].turn, input)
    case SubmitTurn(_, t, messageId, _, _, _) => t in s.threads ==>
      Turns.Allowed(s.threads[t].turn, Turns.Submit(messageId))
    case _ => true
  }

  function Run(ms: seq<Move>): State {
    if ms == [] then INITIAL else Step(Run(ms[..|ms| - 1]), ms[|ms| - 1])
  }

  predicate Legal(ms: seq<Move>) {
    ms == [] || (Legal(ms[..|ms| - 1]) && Enabled(Run(ms[..|ms| - 1]), ms[|ms| - 1]))
  }

  // ---- what the dsh listeners return ----

  /** The answer `onApprovalRequest` gives dsh for an owned approval. */
  function ApprovalVerdict(outcome: Outcome): string {
    match outcome
    case Cancelled => "cancelled"
    case Rejected(_) => "rejected"
    case Given(v) =>
      match GetStr(v, "decision")
      case Some(d) => if d in ["allowed-once", "rejected"] then d else "rejected"
      case None => "rejected"
  }

  /** `onUserQuestionRequest`: the answers array, or a failure of the tool call. */
  function QuestionAnswers(outcome: Outcome): Result<seq<Value>, string> {
    match outcome
    case Cancelled => Err("dsh-bridge: the user-question request was cancelled")
    case Rejected(message) => Err("dsh-bridge: " + message)
    case Given(v) =>
      match v.Get("answers")
      case Some(Arr(answers)) => Ok(answers)
      case _ => Err("dsh-bridge: the client answer must be {answers: [{id, selected, custom?}]}")
  }
}
