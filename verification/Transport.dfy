/** The CLI's JSON-RPC client: id allocation, decoding, the waiter table and the event channel. */
module Transport {
  import opened Wrappers
  import opened JsonValue
  import opened RequestIds
  import Decimal

  datatype RpcError = RpcError(code: int, message: string, data: Option<Value>)

  type Outcome = Result<Value, RpcError>

  datatype Event =
    | Notification(name: string, params: Value)
    | ServerRequest(id: Value, name: string, params: Value)
    | Closed(reason: string)

  // ---- protocol choices ----

  const TWO_TO_THE_63: int := 0x8000_0000_0000_0000
  const TWO_TO_THE_64: int := 0x1_0000_0000_0000_0000

  /** The value `fetch_add` returns to the n-th allocation: an i64 that starts at 1 and wraps. */
  function Sequence(n: nat): int {
    var u := (n + 1) % TWO_TO_THE_64;
    if u < TWO_TO_THE_63 then u else u - TWO_TO_THE_64
  }

  function NextId(b: Backend, sequence: int): Value {
    match b
    case Dsh => Str("client-" + Decimal.Print(sequence))
    case Codex => Int(sequence)
  }

  /** The table key of a response id; nothing when this protocol never allocates such an id. */
  function ResponseKey(b: Backend, id: Value): Option<string> {
    match b
    case Dsh => id.AsStr()
    case Codex => match id.AsI64() { case Some(n) => Some(Decimal.Print(n)) case None => None }
  }

  /** What pairing needs of a wire protocol: the id given to the n-th request, and the key an id is looked up under. */
  datatype Protocol = Protocol(allocate: nat -> Value, responseKey: Value -> Option<string>) {
    function KeyOfCall(n: nat): string { responseKey(allocate(n)).GetOr("") }

    /** Keys exist and differ for as many calls as the counter has values. */
    ghost predicate Sound() {
      && (forall n: nat :: responseKey(allocate(n)).Some?)
      && (forall i: nat, j: nat | i < TWO_TO_THE_64 && j < TWO_TO_THE_64 :: KeyOfCall(i) == KeyOfCall(j) ==> i == j)
    }
  }

  function ProtocolOf(b: Backend): Protocol {
    Protocol((n: nat) => NextId(b, Sequence(n)), id => ResponseKey(b, id))
  }

  /** What the socket yields; `parsed` is the JSON of a text, when it is JSON. */
  datatype Wire =
    | Text(text: string, parsed: Option<Value>)
    | Binary(text: string, parsed: Option<Value>)
    | CloseFrame
    | Other
    | Failed(error: string)
    | Ended

  function Decode(b: Backend, text: string, parsed: Option<Value>): Result<Value, string> {
    match b
    case Codex =>
      Ok(parsed.GetOr(Obj(map["method" := Str("$/unparseable"), "params" := Obj(map["raw" := Str(text)])])))
    case Dsh =>
      if parsed.None? then Err("invalid JSON from server")
      else
        var msg := parsed.value;
        var id, name := msg.Get("id"), msg.Get("method");
        if !msg.Obj? || GetStr(msg, "jsonrpc") != Some("2.0") then Err("expected a JSON-RPC 2.0 object")
        else if id.Some? && !id.value.Str? then Err("JSON-RPC id must be a string")
        else if name.Some? && !name.value.Str? then Err("JSON-RPC method must be a string")
        else if id.Some? && name.None? && msg.Get("result").Some? == msg.Get("error").Some?
        then Err("JSON-RPC response must contain exactly one of result or error")
        else if id.None? && name.None? then Err("JSON-RPC message has neither method nor id")
        else Ok(msg)
  }

  datatype Reading = Message(msg: Value) | Skip | Stop(reason: string)

  function Read(b: Backend, wire: Wire): Reading {
    match wire
    case Text(text, parsed) => Decoded(Decode(b, text, parsed))
    case Binary(text, parsed) => Decoded(if b.Dsh? then Err("expected a JSON text frame") else Decode(b, text, parsed))
    case CloseFrame => Stop("server closed the connection")
    case Other => Skip
    case Failed(error) => Stop(error)
    case Ended => Stop("connection ended")
  }

  function Decoded(r: Result<Value, string>): Reading {
    match r
    case Ok(msg) => Message(msg)
    case Err(e) => Stop("protocol error: " + e)
  }

  // ---- what one message is ----

  function ParamsOf(msg: Value): Value { GetOrNull(msg, "params") }

  /** A message with a method is an event; nothing else is. */
  function EventOf(msg: Value): Option<Event> {
    match GetStr(msg, "method")
    case None => None
    case Some(name) =>
      match msg.Get("id")
      case Some(id) => Some(ServerRequest(id, name, ParamsOf(msg)))
      case None => Some(Notification(name, ParamsOf(msg)))
  }

  /** The key a message without a method answers. */
  function ResponseFor(p: Protocol, msg: Value): Option<string> {
    if GetStr(msg, "method").Some? || msg.Get("id").None? then None else p.responseKey(msg.Get("id").value)
  }

  function OutcomeOf(msg: Value): Outcome {
    match msg.Get("error")
    case Some(error) =>
      Err(RpcError(match error.Get("code") { case Some(code) => code.AsI64().GetOr(0) case None => 0 },
                   GetStr(error, "message").GetOr("unknown error"), error.Get("data")))
    case None => Ok(GetOrNull(msg, "result"))
  }

  // ---- the pairing machine ----

  /** What completed a waiter: a response frame, or the drain when the reader stopped. */
  datatype Source = Response(frame: nat) | Drain

  /** A request put on the wire: the call that sent it and the id it bears. */
  datatype Written = Written(call: nat, id: Value)

  datatype State = State(
    calls: nat,
    silent: set<nat>,
    wire: seq<Written>,
    pending: map<string, nat>,
    registeredAt: map<nat, nat>,
    completed: map<nat, Outcome>,
    sources: map<nat, Source>,
    frames: seq<Value>,
    events: seq<Event>,
    closed: bool)

  const INITIAL := State(0, {}, [], map[], map[], map[], map[], [], [], false)

  /** A call is numbered, and registered when it wants an answer, before it gets to write; calls race for the socket. */
  datatype Move =
    | Request
    | RequestNoReply
    | Write(call: nat)
    | Receive(msg: Value)
    | StopReading(reason: string)

  predicate WasWritten(wire: seq<Written>, call: nat) {
    exists i :: 0 <= i < |wire| && wire[i].call == call
  }

  function DrainError(reason: string): Outcome {
    Err(RpcError(-32000, "connection closed: " + reason, None))
  }

  function Dispatch(p: Protocol, s: State, msg: Value): State {
    var s1 := s.(frames := s.frames + [msg]);
    match EventOf(msg)
    case Some(event) => s1.(events := s.events + [event])
    case None =>
      match ResponseFor(p, msg)
      case None => s1
      case Some(key) =>
        if key !in s.pending then s1
        else
          s1.(pending := s.pending - {key},
              completed := s.completed[s.pending[key] := OutcomeOf(msg)],
              sources := s.sources[s.pending[key] := Response(|s.frames|)])
  }

  /** The waiters `calls` fail with the reason the reader stopped. */
  function FailAll(completed: map<nat, Outcome>, calls: set<nat>, reason: string): map<nat, Outcome> {
    completed + map n | n in calls :: DrainError(reason)
  }

  function DrainAll(sources: map<nat, Source>, calls: set<nat>): map<nat, Source> {
    sources + map n | n in calls :: Drain
  }

  function Step(p: Protocol, s: State, m: Move): State {
    match m
    case Request =>
      s.(calls := s.calls + 1,
         pending := s.pending[p.KeyOfCall(s.calls) := s.calls],
         registeredAt := s.registeredAt[s.calls := |s.frames|])
    case RequestNoReply => s.(calls := s.calls + 1, silent := s.silent + {s.calls})
    case Write(call) =>
      if call >= s.calls || WasWritten(s.wire, call) then s
      else s.(wire := s.wire + [Written(call, p.allocate(call))])
    case Receive(msg) => if s.closed then s else Dispatch(p, s, msg)
    case StopReading(reason) =>
      if s.closed then s
      else s.(pending := map[], completed := FailAll(s.completed, s.pending.Values, reason),
               sources := DrainAll(s.sources, s.pending.Values),
               events := s.events + [Closed(reason)], closed := true)
  }

  function Run(p: Protocol, ms: seq<Move>): State {
    if ms == [] then INITIAL else Step(p, Run(p, ms[..|ms| - 1]), ms[|ms| - 1])
  }

  // ---- key allocation ----

  lemma SequenceRepeats(i: nat, j: nat)
    ensures Sequence(i) == Sequence(j) <==> (i + 1) % TWO_TO_THE_64 == (j + 1) % TWO_TO_THE_64
  {
  }

  /** Two allocations share a key exactly when the 64-bit counter has gone all the way round between them. */
  lemma KeysRepeatExactly(b: Backend, i: nat, j: nat)
    ensures ProtocolOf(b).KeyOfCall(i) == ProtocolOf(b).KeyOfCall(j) <==>
      (i + 1) % TWO_TO_THE_64 == (j + 1) % TWO_TO_THE_64
  {
    SequenceRepeats(i, j);
    if ProtocolOf(b).KeyOfCall(i) == ProtocolOf(b).KeyOfCall(j) {
      match b
      case Dsh => Decimal.PrefixedPrintInjective("client-", Sequence(i), Sequence(j));
      case Codex => Decimal.PrintInjective(Sequence(i), Sequence(j));
    }
  }

  lemma KeysAreDistinct(b: Backend, i: nat, j: nat)
    requires i < TWO_TO_THE_64 && j < TWO_TO_THE_64 && ProtocolOf(b).KeyOfCall(i) == ProtocolOf(b).KeyOfCall(j)
    ensures i == j
  {
    assert (i + 1) % TWO_TO_THE_64 == (j + 1) % TWO_TO_THE_64 by { KeysRepeatExactly(b, i, j); }
    SameResidue(i, j);
  }

  lemma SameResidue(i: nat, j: nat)
    requires i < TWO_TO_THE_64 && j < TWO_TO_THE_64 && (i + 1) % TWO_TO_THE_64 == (j + 1) % TWO_TO_THE_64
    ensures i == j
  {
  }

  /** Both wires allocate ids that have keys, all different until the counter has gone all the way round. */
  lemma BothProtocolsAreSound(b: Backend)
    ensures ProtocolOf(b).Sound()
  {
    forall i: nat, j: nat | i < TWO_TO_THE_64 && j < TWO_TO_THE_64
      && ProtocolOf(b).KeyOfCall(i) == ProtocolOf(b).KeyOfCall(j)
      ensures i == j
    {
      KeysAreDistinct(b, i, j);
    }
  }

  // ---- the invariant ----

  /** Frame `f` answers call `n`. */
  predicate Answers(p: Protocol, frames: seq<Value>, f: nat, n: nat) {
    f < |frames| && ResponseFor(p, frames[f]) == Some(p.KeyOfCall(n))
  }

  ghost predicate UnansweredUntil(p: Protocol, s: State, n: nat, end: nat)
    requires n in s.registeredAt
  {
    forall f: nat | s.registeredAt[n] <= f < end :: !Answers(p, s.frames, f, n)
  }

  ghost predicate CallOk(p: Protocol, s: State, n: nat)
    requires n in s.registeredAt
  {
    && n < s.calls && s.registeredAt[n] <= |s.frames|
    && (n in s.completed ==> n in s.sources)
    && ((n in s.completed) != (p.KeyOfCall(n) in s.pending && s.pending[p.KeyOfCall(n)] == n))
    && (n in s.completed ==>
          match s.sources[n]
          case Response(f) =>
            && s.registeredAt[n] <= f && Answers(p, s.frames, f, n) && UnansweredUntil(p, s, n, f)
            && s.completed[n] == OutcomeOf(s.frames[f])
          case Drain => s.closed && UnansweredUntil(p, s, n, |s.frames|) && Drained(s.events, s.completed[n]))
    && (n !in s.completed && !s.closed ==> UnansweredUntil(p, s, n, |s.frames|))
  }

  function EventsOf(frames: seq<Value>): seq<Event> {
    if frames == [] then []
    else
      EventsOf(frames[..|frames| - 1])
      + match EventOf(frames[|frames| - 1]) { case Some(event) => [event] case None => [] }
  }

  ghost predicate TableOk(p: Protocol, s: State) {
    && s.completed.Keys <= s.registeredAt.Keys && s.sources.Keys == s.completed.Keys
    && (forall key | key in s.pending :: s.pending[key] in s.registeredAt && key == p.KeyOfCall(s.pending[key]))
  }

  ghost predicate CallsOk(p: Protocol, s: State) {
    (forall n | n in s.registeredAt :: CallOk(p, s, n)) && TableOk(p, s)
  }

  ghost predicate ChannelOk(s: State) {
    if s.closed then exists reason :: s.events == EventsOf(s.frames) + [Closed(reason)]
    else s.events == EventsOf(s.frames)
  }

  /** What is on the wire bears its call's own id, once, and wants no answer unless its waiter was registered before. */
  ghost predicate WireOk(p: Protocol, s: State) {
    && (forall n: nat | n < s.calls :: n in s.registeredAt || n in s.silent)
    && (forall i | 0 <= i < |s.wire| :: s.wire[i].call < s.calls && s.wire[i].id == p.allocate(s.wire[i].call))
    && (forall i, j | 0 <= i < j < |s.wire| :: s.wire[i].call != s.wire[j].call)
  }

  ghost predicate Inv(p: Protocol, s: State) { CallsOk(p, s) && ChannelOk(s) && WireOk(p, s) }

  lemma EventsAppend(frames: seq<Value>, msg: Value)
    ensures EventsOf(frames + [msg])
      == EventsOf(frames) + match EventOf(msg) { case Some(event) => [event] case None => [] }
  {
    assert (frames + [msg])[..|frames|] == frames;
  }

  lemma RequestKeeps(p: Protocol, s: State)
    requires p.Sound() && CallsOk(p, s) && s.calls < TWO_TO_THE_64
    ensures CallsOk(p, Step(p, s, Request))
  {
    var s' := Step(p, s, Request);
    forall n | n in s.registeredAt ensures n < s.calls && p.KeyOfCall(n) != p.KeyOfCall(s.calls) {
      assert CallOk(p, s, n);
    }
    forall n | n in s'.registeredAt ensures CallOk(p, s', n) {
      if n == s.calls {
        RequestOnItself(p, s);
      } else {
        RequestOnOther(p, s, n);
      }
    }
    RequestTable(p, s);
  }

  lemma RequestOnOther(p: Protocol, s: State, n: nat)
    requires n in s.registeredAt && CallOk(p, s, n) && p.KeyOfCall(n) != p.KeyOfCall(s.calls)
    ensures CallOk(p, Step(p, s, Request), n)
  {
    var s' := Step(p, s, Request);
    assert UnansweredUntil(p, s, n, |s.frames|) ==> UnansweredUntil(p, s', n, |s.frames|);
  }

  lemma RequestOnItself(p: Protocol, s: State)
    requires TableOk(p, s) && s.calls !in s.registeredAt
    ensures CallOk(p, Step(p, s, Request), s.calls)
  {
  }

  lemma RequestTable(p: Protocol, s: State)
    requires TableOk(p, s) && s.calls !in s.registeredAt
    ensures TableOk(p, Step(p, s, Request))
  {
  }

  /** A call the frame does not complete keeps its state. */
  lemma FrameOnOther(p: Protocol, s: State, msg: Value, n: nat)
    requires !s.closed && n in s.registeredAt && CallOk(p, s, n)
    requires var key := ResponseFor(p, msg); key.Some? && key.value in s.pending ==> s.pending[key.value] != n
    ensures CallOk(p, Dispatch(p, s, msg), n)
  {
    var s' := Dispatch(p, s, msg);
    assert forall f: nat | f < |s.frames| :: Answers(p, s'.frames, f, n) == Answers(p, s.frames, f, n);
    DispatchOnOther(p, s, msg, n);
    if n !in s.completed {
      assert !Answers(p, s'.frames, |s.frames|, n);
    }
  }

  lemma DispatchOnOther(p: Protocol, s: State, msg: Value, n: nat)
    requires var key := ResponseFor(p, msg); key.Some? && key.value in s.pending ==> s.pending[key.value] != n
    ensures var s', key := Dispatch(p, s, msg), p.KeyOfCall(n);
      && s'.calls == s.calls && s'.closed == s.closed && s'.registeredAt == s.registeredAt
      && s'.frames == s.frames + [msg]
      && (n in s'.completed <==> n in s.completed) && (n in s.completed ==> s'.completed[n] == s.completed[n])
      && (n in s'.sources <==> n in s.sources) && (n in s.sources ==> s'.sources[n] == s.sources[n])
      && ((key in s'.pending && s'.pending[key] == n) <==> (key in s.pending && s.pending[key] == n))
  {
    var answered := ResponseFor(p, msg);
    if EventOf(msg).None? && answered.Some? && answered.value in s.pending {
      assert Dispatch(p, s, msg).pending == s.pending - {answered.value};
    } else {
      assert Dispatch(p, s, msg).pending == s.pending;
    }
  }

  lemma FrameOnItsCall(p: Protocol, s: State, msg: Value, n: nat)
    requires !s.closed && n in s.registeredAt && CallOk(p, s, n) && n !in s.completed
    requires ResponseFor(p, msg) == Some(p.KeyOfCall(n))
    ensures CallOk(p, Dispatch(p, s, msg), n)
  {
    var s' := Dispatch(p, s, msg);
    assert forall f: nat | f < |s.frames| :: Answers(p, s'.frames, f, n) == Answers(p, s.frames, f, n);
  }

  lemma ReceiveTable(p: Protocol, s: State, msg: Value)
    requires TableOk(p, s)
    ensures TableOk(p, Dispatch(p, s, msg)) && Dispatch(p, s, msg).registeredAt == s.registeredAt
  {
  }

  lemma ReceiveKeeps(p: Protocol, s: State, msg: Value)
    requires CallsOk(p, s) && !s.closed
    ensures CallsOk(p, Dispatch(p, s, msg))
  {
    ReceiveTable(p, s, msg);
    var key := ResponseFor(p, msg);
    forall n | n in s.registeredAt ensures CallOk(p, Dispatch(p, s, msg), n) {
      assert CallOk(p, s, n);
      if key.Some? && key.value in s.pending && s.pending[key.value] == n {
        FrameOnItsCall(p, s, msg, n);
      } else {
        FrameOnOther(p, s, msg, n);
      }
    }
  }

  lemma StopKeeps(p: Protocol, s: State, reason: string)
    requires CallsOk(p, s) && !s.closed
    ensures CallsOk(p, Step(p, s, StopReading(reason)))
  {
    var s' := Step(p, s, StopReading(reason));
    forall n | n in s'.registeredAt ensures CallOk(p, s', n) {
      assert CallOk(p, s, n);
      if n !in s.completed {
        assert s.pending[p.KeyOfCall(n)] in s.pending.Values;
      } else {
        forall key | key in s.pending ensures s.pending[key] != n {
          assert CallOk(p, s, s.pending[key]);
        }
      }
    }
  }

  lemma NoReplyKeeps(p: Protocol, s: State)
    requires CallsOk(p, s)
    ensures CallsOk(p, Step(p, s, RequestNoReply))
  {
    forall n | n in s.registeredAt ensures CallOk(p, Step(p, s, RequestNoReply), n) {
      assert CallOk(p, s, n);
    }
  }

  lemma WriteKeeps(p: Protocol, s: State, call: nat)
    requires CallsOk(p, s)
    ensures CallsOk(p, Step(p, s, Write(call)))
  {
    assert Step(p, s, Write(call)) == s.(wire := Step(p, s, Write(call)).wire);
    forall n | n in s.registeredAt ensures CallOk(p, Step(p, s, Write(call)), n) {
      assert CallOk(p, s, n);
    }
  }

  lemma StepKeeps(p: Protocol, s: State, m: Move)
    requires p.Sound() && CallsOk(p, s) && s.calls < TWO_TO_THE_64
    ensures CallsOk(p, Step(p, s, m))
  {
    match m
    case Request => RequestKeeps(p, s);
    case RequestNoReply => NoReplyKeeps(p, s);
    case Write(call) => WriteKeeps(p, s, call);
    case Receive(msg) => if !s.closed { ReceiveKeeps(p, s, msg); }
    case StopReading(reason) => if !s.closed { StopKeeps(p, s, reason); }
  }

  lemma ChannelKeeps(p: Protocol, s: State, m: Move)
    requires ChannelOk(s)
    ensures ChannelOk(Step(p, s, m)) && Step(p, s, m).calls <= s.calls + 1
  {
    match m
    case Receive(msg) => if !s.closed { DispatchChannel(p, s, msg); }
    case _ =>
  }

  lemma WireKeeps(p: Protocol, s: State, m: Move)
    requires ChannelOk(s) && WireOk(p, s)
    ensures WireOk(p, Step(p, s, m))
  {
    match m
    case Receive(msg) => if !s.closed { DispatchChannel(p, s, msg); }
    case _ =>
  }

  lemma DispatchChannel(p: Protocol, s: State, msg: Value)
    requires ChannelOk(s) && !s.closed
    ensures var s' := Dispatch(p, s, msg);
      && ChannelOk(s') && !s'.closed
      && s'.calls == s.calls && s'.wire == s.wire && s'.silent == s.silent && s'.registeredAt == s.registeredAt
  {
    EventsAppend(s.frames, msg);
  }

  lemma InvKeeps(p: Protocol, s: State, m: Move)
    requires p.Sound() && Inv(p, s) && s.calls < TWO_TO_THE_64
    ensures Inv(p, Step(p, s, m)) && Step(p, s, m).calls <= s.calls + 1
  {
    StepKeeps(p, s, m);
    ChannelKeeps(p, s, m);
    WireKeeps(p, s, m);
  }

  lemma {:induction false} RunKeeps(p: Protocol, ms: seq<Move>)
    requires p.Sound() && |ms| <= TWO_TO_THE_64
    ensures Inv(p, Run(p, ms)) && Run(p, ms).calls <= |ms|
  {
    if ms != [] {
      RunKeeps(p, ms[..|ms| - 1]);
      InvKeeps(p, Run(p, ms[..|ms| - 1]), ms[|ms| - 1]);
    }
  }

  // ---- what holds of every run ----

  predicate HasMember(v: Value, key: string) { v.Obj? && key in v.fields }

  /** The code of an error: its `code` when that is a 64-bit integer, otherwise 0. */
  predicate CodeIs(error: Value, code: int) {
    if HasMember(error, "code") && error.fields["code"].Int?
       && -0x8000_0000_0000_0000 <= error.fields["code"].n <= 0x7FFF_FFFF_FFFF_FFFF
    then code == error.fields["code"].n
    else code == 0
  }

  predicate MessageIs(error: Value, message: string) {
    if HasMember(error, "message") && error.fields["message"].Str? then message == error.fields["message"].s
    else message == "unknown error"
  }

  predicate DataIs(error: Value, data: Option<Value>) {
    if HasMember(error, "data") then data == Some(error.fields["data"]) else data == None
  }

  /** The outcome a response reports: its result, or null, exactly when it has no error; otherwise its error. */
  predicate Reported(frame: Value, outcome: Outcome) {
    match outcome
    case Ok(value) =>
      && !HasMember(frame, "error")
      && value == (if HasMember(frame, "result") then frame.fields["result"] else Null)
    case Err(e) =>
      && HasMember(frame, "error")
      && CodeIs(frame.fields["error"], e.code)
      && MessageIs(frame.fields["error"], e.message)
      && DataIs(frame.fields["error"], e.data)
  }

  lemma OutcomeIsReported(frame: Value)
    ensures Reported(frame, OutcomeOf(frame))
  {
  }

  /** What the waiters of a reader that stopped are told: the reason it announces in its last event. */
  predicate Drained(events: seq<Event>, outcome: Outcome) {
    && events != [] && events[|events| - 1].Closed?
    && outcome == Err(RpcError(-32000, "connection closed: " + events[|events| - 1].reason, None))
  }

  /**
   * A call that completed by a response did so by the first frame, after it registered, that bears its
   * key and no method, with what that frame reports; a call the drain completed had no such frame and fails.
   */
  lemma CompletedByOwnResponse(p: Protocol, ms: seq<Move>, n: nat)
    requires p.Sound() && |ms| <= TWO_TO_THE_64 && n in Run(p, ms).completed
    ensures var s := Run(p, ms);
      && n in s.registeredAt && n in s.sources
      && match s.sources[n]
         case Response(f) =>
           && s.registeredAt[n] <= f && Answers(p, s.frames, f, n) && UnansweredUntil(p, s, n, f)
           && Reported(s.frames[f], s.completed[n])
         case Drain => s.closed && UnansweredUntil(p, s, n, |s.frames|) && Drained(s.events, s.completed[n])
  {
    RunKeeps(p, ms);
    assert CallOk(p, Run(p, ms), n);
    if Run(p, ms).sources[n].Response? {
      OutcomeIsReported(Run(p, ms).frames[Run(p, ms).sources[n].frame]);
    }
  }

  /**
   * Registered calls split into completed ones and pending ones, and a pending call is unanswered while frames are
   * read.
   */
  lemma CallsSplit(p: Protocol, ms: seq<Move>, n: nat)
    requires p.Sound() && |ms| <= TWO_TO_THE_64 && n in Run(p, ms).registeredAt
    ensures var s := Run(p, ms);
      && ((n in s.completed) != (exists key :: key in s.pending && s.pending[key] == n))
      && (n !in s.completed && !s.closed ==> UnansweredUntil(p, s, n, |s.frames|))
  {
    RunKeeps(p, ms);
    var s := Run(p, ms);
    assert CallOk(p, s, n);
    if key :| key in s.pending && s.pending[key] == n {
      assert key == p.KeyOfCall(n);
    }
  }

  lemma CompletionKept(p: Protocol, s: State, m: Move, n: nat)
    requires CallsOk(p, s) && n in s.completed
    ensures n in Step(p, s, m).completed && Step(p, s, m).completed[n] == s.completed[n]
  {
    WaitersAreNot(p, s, n);
    StaysCompleted(p, s, m, n);
  }

  lemma StaysCompleted(p: Protocol, s: State, m: Move, n: nat)
    requires n in s.completed && n !in s.pending.Values
    ensures n in Step(p, s, m).completed && Step(p, s, m).completed[n] == s.completed[n]
  {
    match m
    case Receive(msg) => DispatchKeeps(p, s, msg, n);
    case StopReading(reason) => FailAllAt(s.completed, s.pending.Values, reason, n);
    case _ =>
  }

  lemma WaitersAreNot(p: Protocol, s: State, n: nat)
    requires CallsOk(p, s) && n in s.completed
    ensures n !in s.pending.Values
  {
    forall key | key in s.pending ensures s.pending[key] != n {
      assert CallOk(p, s, s.pending[key]);
    }
  }

  lemma DispatchKeeps(p: Protocol, s: State, msg: Value, n: nat)
    requires n in s.completed && n !in s.pending.Values
    ensures n in Dispatch(p, s, msg).completed && Dispatch(p, s, msg).completed[n] == s.completed[n]
  {
  }

  /** A completion is final: each call gets at most one. */
  lemma {:induction false} CompletedOnce(p: Protocol, ms: seq<Move>, more: seq<Move>, n: nat)
    requires p.Sound() && |ms| + |more| <= TWO_TO_THE_64 && n in Run(p, ms).completed
    ensures n in Run(p, ms + more).completed && Run(p, ms + more).completed[n] == Run(p, ms).completed[n]
  {
    if more == [] {
      assert ms + more == ms;
    } else {
      var init := ms + more[..|more| - 1];
      CompletedOnce(p, ms, more[..|more| - 1], n);
      RunSplit(p, ms, more);
      RunKeeps(p, init);
      CompletionKept(p, Run(p, init), more[|more| - 1], n);
    }
  }

  lemma RunSplit(p: Protocol, ms: seq<Move>, more: seq<Move>)
    requires more != []
    ensures Run(p, ms + more) == Step(p, Run(p, ms + more[..|more| - 1]), more[|more| - 1])
  {
    assert (ms + more)[..|ms + more| - 1] == ms + more[..|more| - 1];
  }

  lemma RunAppend(p: Protocol, ms: seq<Move>, m: Move)
    ensures Run(p, ms + [m]) == Step(p, Run(p, ms), m)
  {
    assert (ms + [m])[..|ms|] == ms;
  }

  /**
   * A request on the wire bears its own call's id, is written once, and wants no answer unless its waiter is in the
   * table or has been completed: whatever answers it finds the waiter.
   */
  lemma WrittenAreRegistered(p: Protocol, ms: seq<Move>, i: nat)
    requires p.Sound() && |ms| <= TWO_TO_THE_64 && i < |Run(p, ms).wire|
    ensures var s := Run(p, ms);
      var w := s.wire[i];
      && w.id == p.allocate(w.call)
      && (forall j | 0 <= j < |s.wire| && s.wire[j].call == w.call :: j == i)
      && (w.call in s.silent || w.call in s.completed
          || (p.KeyOfCall(w.call) in s.pending && s.pending[p.KeyOfCall(w.call)] == w.call))
  {
    RunKeeps(p, ms);
    var s := Run(p, ms);
    var call := s.wire[i].call;
    assert call < s.calls;
    assert call in s.registeredAt ==> CallOk(p, s, call);
  }

  predicate HasMethod(frame: Value) { HasMember(frame, "method") && frame.fields["method"].Str? }

  /** The positions of the frames that name a method. */
  function MethodPositions(frames: seq<Value>): (at: seq<nat>)
    ensures forall k | 0 <= k < |at| :: at[k] < |frames| && HasMethod(frames[at[k]])
  {
    if frames == [] then []
    else
      MethodPositions(frames[..|frames| - 1]) + if HasMethod(frames[|frames| - 1]) then [|frames| - 1] else []
  }

  /** The event a frame with a method is: a request when it has an id, otherwise a notification. */
  predicate Announces(frame: Value, event: Event)
    requires HasMethod(frame)
  {
    var name, params := frame.fields["method"].s, if HasMember(frame, "params") then frame.fields["params"] else Null;
    if HasMember(frame, "id") then event == ServerRequest(frame.fields["id"], name, params)
    else event == Notification(name, params)
  }

  /** One event for each frame that names a method, in order. */
  ghost predicate CarriesMethods(events: seq<Event>, frames: seq<Value>) {
    var at := MethodPositions(frames);
    |events| == |at| && forall k | 0 <= k < |at| :: Announces(frames[at[k]], events[k])
  }

  lemma EventIsAnnounced(frame: Value)
    ensures HasMethod(frame) <==> EventOf(frame).Some?
    ensures HasMethod(frame) ==> Announces(frame, EventOf(frame).value)
  {
  }

  lemma {:induction false} EventsAreMethods(frames: seq<Value>)
    ensures CarriesMethods(EventsOf(frames), frames)
  {
    if frames != [] {
      var init, last := frames[..|frames| - 1], frames[|frames| - 1];
      EventsAreMethods(init);
      EventIsAnnounced(last);
      assert frames == init + [last];
    }
  }

  /** The event channel carries exactly the method-bearing frames in wire order, then one final `Closed`. */
  lemma ChannelIsMethodFrames(p: Protocol, ms: seq<Move>)
    requires p.Sound() && |ms| <= TWO_TO_THE_64
    ensures var s := Run(p, ms);
      if s.closed then s.events != [] && s.events[|s.events| - 1].Closed?
                       && CarriesMethods(s.events[..|s.events| - 1], s.frames)
      else CarriesMethods(s.events, s.frames)
  {
    RunKeeps(p, ms);
    EventsAreMethods(Run(p, ms).frames);
    if Run(p, ms).closed {
      var reason :| Run(p, ms).events == EventsOf(Run(p, ms).frames) + [Closed(reason)];
    }
  }

  /** The id of the n-th call on each wire, until the counter wraps. */
  function IdOfCall(b: Backend, n: nat): Value {
    match b
    case Dsh => Str("client-" + Decimal.Print(n + 1))
    case Codex => Int(n + 1)
  }

  lemma AllocatesInTurn(b: Backend, n: nat)
    requires n < TWO_TO_THE_63 - 1
    ensures ProtocolOf(b).allocate(n) == IdOfCall(b, n)
  {
    assert (n + 1) % TWO_TO_THE_64 == n + 1;
  }

  lemma KeyAnswers(b: Backend, id: Value, n: nat)
    requires n < TWO_TO_THE_63 - 1
    ensures ResponseKey(b, id) == ResponseKey(b, IdOfCall(b, n)) <==> id == IdOfCall(b, n)
  {
    if b.Codex? && id.Int? && Decimal.Print(id.n) == Decimal.Print(n + 1) {
      Decimal.PrintInjective(id.n, n + 1);
    }
  }

  /** A call is answered by exactly the frames without a method whose id is its own. */
  lemma AnswersExactly(b: Backend, frames: seq<Value>, f: nat, n: nat)
    requires n < TWO_TO_THE_63 - 1
    ensures ProtocolOf(b).allocate(n) == IdOfCall(b, n)
    ensures Answers(ProtocolOf(b), frames, f, n) <==>
      && f < |frames| && !HasMethod(frames[f])
      && HasMember(frames[f], "id") && frames[f].fields["id"] == IdOfCall(b, n)
  {
    AllocatesInTurn(b, n);
    assert ResponseKey(b, IdOfCall(b, n)).Some?;
    if f < |frames| && HasMember(frames[f], "id") {
      KeyAnswers(b, frames[f].fields["id"], n);
    }
  }

  /**
   * While the reader runs, a registered call is completed exactly when a frame without a method has borne its key
   * since it registered: requests, notifications and responses to other ids consume no waiter.
   */
  lemma CompletedExactlyWhenAnswered(p: Protocol, ms: seq<Move>, n: nat)
    requires p.Sound() && |ms| <= TWO_TO_THE_64 && n in Run(p, ms).registeredAt && !Run(p, ms).closed
    ensures var s := Run(p, ms);
      n in s.completed <==> exists f: nat :: s.registeredAt[n] <= f && Answers(p, s.frames, f, n)
  {
    RunKeeps(p, ms);
    var s := Run(p, ms);
    assert CallOk(p, s, n);
    if n !in s.completed {
      assert forall f: nat | s.registeredAt[n] <= f < |s.frames| :: !Answers(p, s.frames, f, n);
    }
  }

  /**
   * When the reader stops no registered call is left waiting: the waiters are told why, the others keep what they have.
   */
  lemma StopLeavesNoneWaiting(p: Protocol, ms: seq<Move>, reason: string, n: nat)
    requires p.Sound() && |ms| <= TWO_TO_THE_64 && n in Run(p, ms).registeredAt && !Run(p, ms).closed
    ensures var s, after := Run(p, ms), Run(p, ms + [StopReading(reason)]);
      && after.closed && after.pending == map[] && n in after.completed
      && after.completed[n] == (
           if n in s.completed then s.completed[n]
           else Err(RpcError(-32000, "connection closed: " + reason, None)))
  {
    RunAppend(p, ms, StopReading(reason));
    RunKeeps(p, ms);
    PendingOrCompleted(p, Run(p, ms), n);
    StopCompletes(p, Run(p, ms), reason, n);
  }

  lemma StopCompletes(p: Protocol, s: State, reason: string, n: nat)
    requires !s.closed && (n in s.pending.Values <==> n !in s.completed)
    ensures var after := Step(p, s, StopReading(reason));
      && after.closed && after.pending == map[] && n in after.completed
      && after.completed[n] == (if n in s.completed then s.completed[n] else DrainError(reason))
  {
    FailAllAt(s.completed, s.pending.Values, reason, n);
  }

  lemma PendingOrCompleted(p: Protocol, s: State, n: nat)
    requires CallsOk(p, s) && n in s.registeredAt
    ensures n in s.pending.Values <==> n !in s.completed
  {
    assert CallOk(p, s, n);
    if n in s.completed {
      WaitersAreNot(p, s, n);
    } else {
      WaiterIsPending(p, s, n);
    }
  }

  lemma FailAllAt(completed: map<nat, Outcome>, calls: set<nat>, reason: string, n: nat)
    ensures n in FailAll(completed, calls, reason) <==> n in completed || n in calls
    ensures n in calls ==> FailAll(completed, calls, reason)[n] == DrainError(reason)
    ensures n in completed && n !in calls ==> FailAll(completed, calls, reason)[n] == completed[n]
  {
  }

  /** Codex reads every text; what is not JSON becomes a notification that carries it. */
  predicate CodexReads(parsed: Option<Value>, text: string, msg: Value) {
    match parsed
    case Some(value) => msg == value
    case None => EventOf(msg) == Some(Notification("$/unparseable", Obj(map["raw" := Str(text)])))
  }

  /** What stops the reader, what it skips, and what it reads, on both wires. */
  lemma ReaderStopsExactly(b: Backend, wire: Wire)
    ensures Read(b, wire).Skip? <==> wire.Other?
    ensures Read(b, wire).Stop? <==>
      || wire.CloseFrame? || wire.Failed? || wire.Ended?
      || (b.Dsh? && wire.Binary?)
      || (b.Dsh? && wire.Text? && !(wire.parsed.Some? && WellFormed(wire.parsed.value)))
    ensures Read(b, wire).Message? ==> wire.Text? || wire.Binary?
    ensures Read(b, wire).Message? && b.Dsh? ==> Some(Read(b, wire).msg) == wire.parsed
    ensures Read(b, wire).Message? && b.Codex? ==> CodexReads(wire.parsed, wire.text, Read(b, wire).msg)
  {
  }

  /** The envelope dsh accepts: a request or notification, or a response with exactly one of result and error. */
  predicate WellFormed(msg: Value) {
    && msg.Obj? && msg.Get("jsonrpc") == Some(Str("2.0"))
    && (msg.Get("id").Some? ==> msg.Get("id").value.Str?)
    && (msg.Get("method").Some? ==> msg.Get("method").value.Str?)
    && (msg.Get("method").None? ==> msg.Get("id").Some? && (msg.Get("result").Some? <==> msg.Get("error").None?))
  }

  /**
   * A dsh text is read if and only if it is a well-formed envelope; anything else stops the reader, so nobody waits for
   * it.
   */
  lemma DshReadsExactly(text: string, parsed: Option<Value>)
    ensures var reading := Read(Dsh, Text(text, parsed));
      if parsed.Some? && WellFormed(parsed.value) then reading == Message(parsed.value) else reading.Stop?
  {
  }

  /** A malformed dsh text leaves no request waiting: every registered call fails with the reason reading stopped. */
  lemma MalformedTextFailsWaiters(ms: seq<Move>, text: string, parsed: Option<Value>, n: nat)
    requires |ms| <= TWO_TO_THE_64 && !(parsed.Some? && WellFormed(parsed.value))
    requires var s := Run(ProtocolOf(Dsh), ms); n in s.registeredAt && n !in s.completed && !s.closed
    ensures var p, reading := ProtocolOf(Dsh), Read(Dsh, Text(text, parsed));
      && reading.Stop?
      && var after := Run(p, ms + [StopReading(reading.reason)]);
      && after.closed && after.pending == map[] && n in after.completed
        && after.completed[n] == DrainError(reading.reason)
  {
    BothProtocolsAreSound(Dsh);
    DshReadsExactly(text, parsed);
    StopLeavesNoneWaiting(ProtocolOf(Dsh), ms, Read(Dsh, Text(text, parsed)).reason, n);
  }

  lemma WaiterIsPending(p: Protocol, s: State, n: nat)
    requires CallsOk(p, s) && n in s.registeredAt && n !in s.completed
    ensures n in s.pending.Values
  {
    assert CallOk(p, s, n);
    assert s.pending[p.KeyOfCall(n)] in s.pending.Values;
  }

  // ---- calls made after the reader stopped ----

  /** Once the reader has stopped nothing completes any more. */
  lemma {:induction false} NothingCompletesAfterStop(p: Protocol, ms: seq<Move>, more: seq<Move>)
    requires Run(p, ms).closed
    ensures Run(p, ms + more).closed && Run(p, ms + more).completed == Run(p, ms).completed
  {
    if more == [] {
      assert ms + more == ms;
    } else {
      NothingCompletesAfterStop(p, ms, more[..|more| - 1]);
      RunSplit(p, ms, more);
      ClosedStep(p, Run(p, ms + more[..|more| - 1]), more[|more| - 1]);
    }
  }

  lemma ClosedStep(p: Protocol, s: State, m: Move)
    requires s.closed
    ensures Step(p, s, m).closed && Step(p, s, m).completed == s.completed
  {
  }

  /**
   * A registered call is completed in the end if and only if it registered before the reader stopped; one that
   * registers later, on a socket that still takes its frame, stays in the table and waits for ever.
   */
  lemma CompletedExactlyBeforeStop(p: Protocol, ms: seq<Move>, reason: string, more: seq<Move>, n: nat)
    requires p.Sound() && |ms| + 1 + |more| <= TWO_TO_THE_64 && !Run(p, ms).closed
    requires n in Run(p, ms + [StopReading(reason)] + more).registeredAt
    ensures n in Run(p, ms + [StopReading(reason)] + more).completed <==> n in Run(p, ms).registeredAt
    ensures n !in Run(p, ms).registeredAt ==>
      exists key :: key in Run(p, ms + [StopReading(reason)] + more).pending
                    && Run(p, ms + [StopReading(reason)] + more).pending[key] == n
  {
    var stopped := ms + [StopReading(reason)];
    RunAppend(p, ms, StopReading(reason));
    NothingCompletesAfterStop(p, stopped, more);
    RunKeeps(p, ms);
    if n in Run(p, ms).registeredAt {
      StopLeavesNoneWaiting(p, ms, reason, n);
    } else {
      assert n !in Run(p, stopped).completed;
      CallsSplit(p, stopped + more, n);
    }
  }

  /** A dsh server request that reaches the channel bears a string id. */
  lemma DshIdsAreStrings(text: string, parsed: Option<Value>)
    ensures match Decode(Dsh, text, parsed)
            case Ok(msg) =>
              (match EventOf(msg) case Some(ServerRequest(id, _, _)) => WireId(Dsh, id) case _ => true)
            case Err(_) => true
  {
  }

  // ---- the object ----

  class Connection {
    const protocol: Protocol
    var calls: nat
    var pending: map<string, nat>
    var completed: map<nat, Outcome>
    var events: seq<Event>
    var closed: bool
    ghost var silent: set<nat>
    ghost var wire: seq<Written>
    ghost var registeredAt: map<nat, nat>
    ghost var frames: seq<Value>
    ghost var sources: map<nat, Source>

    ghost function View(): State
      reads this
    {
      State(calls, silent, wire, pending, registeredAt, completed, sources, frames, events, closed)
    }

    constructor (protocol: Protocol)
      ensures this.protocol == protocol && View() == INITIAL
    {
      this.protocol := protocol;
      calls, pending, completed, events, closed := 0, map[], map[], [], false;
      silent, wire, registeredAt, frames, sources := {}, [], map[], [], map[];
    }

    /** Number a call and enter its waiter under the new id's key: the request is written afterwards. */
    method Register() returns (call: nat, id: Value)
      requires protocol.Sound()
      modifies this
      ensures call == old(calls) && id == protocol.allocate(call)
      ensures View() == Step(protocol, old(View()), Request)
    {
      call, id := calls, protocol.allocate(calls);
      calls := calls + 1;
      pending := pending[protocol.responseKey(id).value := call];
      registeredAt := registeredAt[call := |frames|];
    }

    method RegisterNoReply() returns (call: nat, id: Value)
      modifies this
      ensures call == old(calls) && id == protocol.allocate(call)
      ensures View() == Step(protocol, old(View()), RequestNoReply)
    {
      call, id := calls, protocol.allocate(calls);
      calls := calls + 1;
      silent := silent + {call};
    }

    /** Put a numbered call's request on the wire. */
    method Send(call: nat, id: Value)
      requires call < calls && id == protocol.allocate(call) && !WasWritten(wire, call)
      modifies this`wire
      ensures View() == Step(protocol, old(View()), Write(call))
    {
      wire := wire + [Written(call, id)];
    }

    method Receive(msg: Value)
      requires !closed
      modifies this
      ensures View() == Dispatch(protocol, old(View()), msg)
    {
      ghost var frame := |frames|;
      frames := frames + [msg];
      var id, name := msg.Get("id"), GetStr(msg, "method");
      if name.Some? {
        var params := GetOrNull(msg, "params");
        events := events + [
          if id.Some? then ServerRequest(id.value, name.value, params) else Notification(name.value, params)];
        return;
      }
      if id.None? {
        return;
      }
      var key := protocol.responseKey(id.value);
      if key.None? || key.value !in pending {
        return;
      }
      var waiter := pending[key.value];
      pending := pending - {key.value};
      completed := completed[waiter := OutcomeOf(msg)];
      sources := sources[waiter := Response(frame)];
    }

    /** Fail every waiter still in the table. */
    method FailWaiters(reason: string)
      modifies this`pending, this`completed, this`sources
      ensures pending == map[]
      ensures completed == FailAll(old(completed), old(pending).Values, reason)
      ensures sources == DrainAll(old(sources), old(pending).Values)
    {
      ghost var drained: set<nat> := {};
      ghost var before, waiters := completed, pending.Values;
      sources := DrainAll(sources, waiters);
      assert completed == FailAll(before, drained, reason);
      while pending.Keys != {}
        invariant drained + pending.Values == waiters && sources == DrainAll(old(sources), waiters)
        invariant completed == FailAll(before, drained, reason)
        decreases pending.Keys
      {
        var key :| key in pending;
        var waiter := pending[key];
        ValuesWithout(pending, key);
        FailOne(before, drained, reason, waiter);
        pending := pending - {key};
        completed := completed[waiter := DrainError(reason)];
        drained := drained + {waiter};
      }
      assert pending == map[] && drained == waiters;
    }

    /** The reader has stopped: fail every waiter, then announce the close. */
    method Stop(reason: string)
      requires !closed
      modifies this
      ensures View() == Step(protocol, old(View()), StopReading(reason))
    {
      FailWaiters(reason);
      events := events + [Closed(reason)];
      closed := true;
    }
  }

  lemma FailOne(completed: map<nat, Outcome>, drained: set<nat>, reason: string, waiter: nat)
    ensures FailAll(completed, drained, reason)[waiter := DrainError(reason)]
      == FailAll(completed, drained + {waiter}, reason)
  {
  }

  lemma ValuesWithout(m: map<string, nat>, key: string)
    requires key in m
    ensures m.Values == (m - {key}).Values + {m[key]}
  {
    forall v | v in m.Values ensures v in (m - {key}).Values + {m[key]} {
      var k :| k in m && m[k] == v;
      assert k == key || k in m - {key};
    }
  }
}
