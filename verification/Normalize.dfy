/** The two backends behind the CLI: how each turns wire events into the events the session consumes. */
module Normalize {
  import opened Wrappers
  import opened JsonValue
  import opened RequestIds
  import Decimal
  import SessionLog
  import Transport

  datatype Event =
    | Ignore
    | Closed(reason: string)
    | Request(id: Value, name: string, params: Value, thread: Option<string>)
    | Update(turnId: Option<string>, finalMessage: Option<string>, progress: bool, log: Option<Value>)
    | TurnCompleted(turnId: Option<string>, status: string, finalMessage: Option<string>, fields: Value)
    | RequestResolved(id: Value, note: Value)

  datatype Context = Context(threadId: string, turnId: Option<string>, replyPending: bool)

  datatype WaitPolicy = WaitPolicy(deadlinesFirst: bool, isolateSelectedRequest: bool, requestIsProgress: bool)

  function PolicyOf(b: Backend): WaitPolicy {
    match b
    case Dsh => WaitPolicy(true, true, false)
    case Codex => WaitPolicy(false, false, true)
  }

  /** Why a command fails: each names one error message of the source. */
  datatype Failure =
    | EndedBeforeRedelivery
    | NoTurnId
    | NoStatus
    | UnknownStatus(status: string)
    | AlreadyResolved
    | NoDecisionFor(name: string)
    | SocketClosed(reason: string)
    | StreamEnded
    | NotRedelivered(id: Value)
    | NothingRedelivered
    | SeveralRedelivered(count: nat)
    | SelectedResolved(id: Value)

  // ---- reading members ----

  function ThreadOf(b: Backend, params: Value): Option<string> {
    match b
    case Dsh => GetStr(params, "threadId")
    case Codex =>
      if GetStr(params, "threadId").Some? then GetStr(params, "threadId")
      else if GetStr(GetOrNull(params, "thread"), "id").Some? then GetStr(GetOrNull(params, "thread"), "id")
      else GetStr(GetOrNull(params, "item"), "threadId")
  }

  /** The string at a path of members, if there is one. */
  function StringAt(v: Value, path: seq<string>): Option<string> {
    if path == [] then (if v.Str? then Some(v.s) else None)
    else if v.Obj? && path[0] in v.fields then StringAt(v.fields[path[0]], path[1..])
    else None
  }

  /** The thread a message is about: for Codex its own, else its thread's, else its item's. */
  lemma ThreadIsFirstNamed(params: Value)
    ensures ThreadOf(Dsh, params) == StringAt(params, ["threadId"])
    ensures ThreadOf(Codex, params) ==
      var own, threads, items :=
        StringAt(params, ["threadId"]), StringAt(params, ["thread", "id"]), StringAt(params, ["item", "threadId"]);
      if own.Some? then own else if threads.Some? then threads else items
  {
    StringAtOne(params, "threadId");
    StringAtTwo(params, "thread", "id");
    StringAtTwo(params, "item", "threadId");
  }

  lemma StringAtOne(v: Value, key: string)
    ensures StringAt(v, [key]) == GetStr(v, key)
  {
    assert [key][1..] == [];
  }

  lemma StringAtTwo(v: Value, a: string, b: string)
    ensures StringAt(v, [a, b]) == GetStr(GetOrNull(v, a), b)
  {
    assert [a, b][1..] == [b];
    StringAtOne(GetOrNull(v, a), b);
  }

  /** The text of a turn id: strings as they are, integers in decimal. */
  function TurnIdOf(value: Option<Value>): Option<string> {
    match value
    case Some(Str(s)) => Some(s)
    case Some(Int(n)) => Some(Decimal.Print(n))
    case _ => None
  }

  /** What a turn id is sent back as: an integer when it reads as a 64-bit one. */
  function TurnIdWire(id: string): Value {
    match Decimal.ParseI64(id)
    case Some(n) => Int(n)
    case None => Str(id)
  }

  /** A turn id the plugin sends goes out and comes back as the same integer exactly when it fits 64 bits. */
  lemma TurnIdRoundTrip(n: int)
    ensures TurnIdOf(Some(Int(n))).Some?
    ensures TurnIdWire(TurnIdOf(Some(Int(n))).value) == Int(n) <==> Decimal.MIN_I64 <= n <= Decimal.MAX_I64
  {
    Decimal.ParseOfPrint(n);
  }

  /** The members of `v` among `keys` that are present and, when asked, not null. */
  function Members(v: Value, keys: seq<string>, dropNull: bool): map<string, Value> {
    map k | k in keys && Kept(v, k, dropNull) :: v.Get(k).value
  }

  predicate Kept(v: Value, key: string, dropNull: bool) {
    v.Get(key).Some? && (dropNull ==> v.Get(key).value != Null)
  }

  lemma MembersStep(v: Value, keys: seq<string>, key: string, dropNull: bool)
    ensures Members(v, keys + [key], dropNull)
         == if Kept(v, key, dropNull) then Members(v, keys, dropNull)[key := v.Get(key).value]
           else Members(v, keys, dropNull)
  {
  }

  method CopyMembers(v: Value, keys: seq<string>, dropNull: bool, start: map<string, Value>)
    returns (fields: map<string, Value>)
    ensures fields == start + Members(v, keys, dropNull)
  {
    fields := start;
    for i := 0 to |keys|
      invariant fields == start + Members(v, keys[..i], dropNull)
    {
      assert keys[..i + 1] == keys[..i] + [keys[i]];
      MembersStep(v, keys[..i], keys[i], dropNull);
      var value := v.Get(keys[i]);
      if value.Some? && (dropNull ==> value.value != Null) {
        fields := fields[keys[i] := value.value];
      }
    }
    assert keys[..|keys|] == keys;
  }

  function TerminalKeys(b: Backend): seq<string> {
    match b
    case Dsh => ["error", "durationMs", "reason"]
    case Codex => ["error", "durationMs"]
  }

  function TerminalFields(b: Backend, turn: Value): Value {
    Obj(Members(turn, TerminalKeys(b), true))
  }

  /** The terminal fields are exactly the error, the duration and, for dsh, the reason, where present and not null. */
  lemma TerminalFieldsExactly(b: Backend, turn: Value, key: string)
    ensures var wanted := key in ["error", "durationMs"] || (b.Dsh? && key == "reason");
      TerminalFields(b, turn).Get(key) ==
        if wanted && turn.Obj? && key in turn.fields && turn.fields[key] != Null then Some(turn.fields[key]) else None
  {
  }

  function ItemSummary(thread: string, params: Value, item: Value): Value {
    Obj(map["event" := Str("item"), "threadId" := Str(thread), "turnId" := GetOrNull(params, "turnId"),
            "itemType" := Str(GetStr(item, "type").GetOr("unknown"))]
        + Members(item, ["text", "command", "exitCode", "status", "kind", "agentThreadId", "changes"], false))
  }

  // ---- the text of a forwarded message ----

  /** The texts of the text blocks, in order, joined. */
  function TextOf(items: seq<Value>): string {
    if items == [] then ""
    else
      (if GetStr(items[0], "type") == Some("text") then GetStr(items[0], "text").GetOr("") else "") + TextOf(items[1..])
  }

  function Nonempty(text: string): Option<string> {
    if text == "" then None else Some(text)
  }

  /** The nested message when it is an object, otherwise the data itself. */
  function Body(data: Value): Value {
    if GetOrNull(data, "message").Obj? then GetOrNull(data, "message") else data
  }

  function EventMessage(data: Value): Option<string> {
    match Body(data).Get("content")
    case Some(Arr(items)) => Nonempty(TextOf(items))
    case _ => Nonempty(GetStr(Body(data), "text").GetOr(""))
  }

  lemma {:induction false} TextOfAppend(items: seq<Value>, block: Value)
    ensures TextOf(items + [block]) == TextOf(items) + TextOf([block])
  {
    if items == [] {
      assert items + [block] == [block];
    } else {
      TextOfAppend(items[1..], block);
      assert (items + [block])[1..] == items[1..] + [block];
    }
  }

  /** The CLI joins the same text the plugin does. */
  lemma {:induction false} TextOfIsJoined(items: seq<Value>)
    ensures TextOf(items) == SessionLog.Concat(SessionLog.TextParts(items))
  {
    if items != [] {
      var init, last := items[..|items| - 1], items[|items| - 1];
      TextOfIsJoined(init);
      TextOfAppend(init, last);
      assert items == init + [last];
    }
  }

  // ---- normalization ----

  function LogOnly(log: Value): Event { Update(None, None, false, Some(log)) }

  const NOTHING := Update(None, None, false, None)

  function NormalizeDsh(raw: Transport.Event, c: Context): Result<Event, Failure> {
    match raw
    case Closed(reason) => Ok(Closed(reason))
    case ServerRequest(id, name, params) =>
      if ThreadOf(Dsh, params) != Some(c.threadId) then Ok(Ignore)
      else Ok(Request(id, name, params, ThreadOf(Dsh, params)))
    case Notification(name, params) =>
      if ThreadOf(Dsh, params) != Some(c.threadId) then Ok(Ignore)
      else if name == "turn/started" && c.turnId.None?
        then Ok(Update(TurnIdOf(params.Get("turnId")), None, false, None))
      else if name == "thread/event" then Ok(DshItem(params, c))
      else if name == "turn/completed" then DshCompleted(params, c)
      else if name == "thread/status" then
        Ok(LogOnly(Obj(map["event" := Str("status"), "threadId" := Str(c.threadId),
          "status" := GetOrNull(params, "status")])))
      else if name == "request/resolved" then
        Ok(RequestResolved(GetOrNull(params, "requestId"),
             Obj(map["event" := Str("requestResolved"), "threadId" := Str(c.threadId),
                     "requestId" := GetOrNull(params, "requestId"), "resolvedBy" := GetOrNull(params, "resolvedBy")])))
      else Ok(Ignore)
  }

  function DshItem(params: Value, c: Context): Event {
    var text :=
      if GetStr(params, "type") == Some("assistant/message") && params.Get("data").Some?
      then EventMessage(params.Get("data").value) else None;
    Update(None, text, true,
      Some(Obj(map["event" := Str("item"), "threadId" := Str(c.threadId), "seq" := GetOrNull(params, "seq"),
                   "itemType" := GetOrNull(params, "type"), "data" := GetOrNull(params, "data")])))
  }

  function DshCompleted(params: Value, c: Context): Result<Event, Failure> {
    var turnId, status := TurnIdOf(params.Get("turnId")), GetStr(params, "status");
    if c.replyPending then Err(EndedBeforeRedelivery)
    else if turnId.None? then Err(NoTurnId)
    else if c.turnId.Some? && c.turnId != turnId then Ok(Ignore)
    else if status.None? then Err(NoStatus)
    else if status.value !in ["completed", "failed", "interrupted"] then Err(UnknownStatus(status.value))
    else Ok(TurnCompleted(turnId, status.value, GetStr(params, "finalMessage"), TerminalFields(Dsh, params)))
  }

  function NormalizeCodex(raw: Transport.Event, c: Context): Event {
    match raw
    case Closed(reason) => Closed(reason)
    case ServerRequest(id, name, params) => Request(id, name, params, ThreadOf(Codex, params))
    case Notification(name, params) =>
      if ThreadOf(Codex, params).Some? && ThreadOf(Codex, params) != Some(c.threadId) then Ignore
      else if name == "turn/started" then Update(GetStr(GetOrNull(params, "turn"), "id"), None, true, None)
      else if name == "item/completed" then CodexItem(params, c)
      else if name == "turn/completed" then CodexCompleted(GetOrNull(params, "turn"))
      else if name == "thread/status/changed" then
        LogOnly(Obj(map["event" := Str("status"), "threadId" := Str(c.threadId),
          "status" := GetOrNull(params, "status")]))
      else if name == "serverRequest/resolved" then
        LogOnly(Obj(map["event" := Str("requestResolved"), "threadId" := Str(c.threadId),
          "requestId" := GetOrNull(params, "requestId")]))
      else if name == "error" then
        LogOnly(Obj(map["event" := Str("serverError"), "threadId" := Str(c.threadId), "params" := params]))
      else NOTHING
  }

  function CodexItem(params: Value, c: Context): Event {
    var item := GetOrNull(params, "item");
    var text := if GetStr(item, "type") == Some("agentMessage") then GetStr(item, "text") else None;
    Update(None, text, true, Some(ItemSummary(c.threadId, params, item)))
  }

  function CodexCompleted(turn: Value): Event {
    var status := GetStr(turn, "status").GetOr("failed");
    if status == "inProgress" then Update(GetStr(turn, "id"), None, false, None)
    else TurnCompleted(GetStr(turn, "id"), status, None, TerminalFields(Codex, turn))
  }

  function Normalized(b: Backend, raw: Transport.Event, c: Context): Result<Event, Failure> {
    match b
    case Dsh => NormalizeDsh(raw, c)
    case Codex => Ok(NormalizeCodex(raw, c))
  }

  /** The thread Codex asks to be unsubscribed from while normalizing: a request that retains no response. */
  function Unsubscribes(b: Backend, raw: Transport.Event, c: Context): Option<string> {
    if b.Codex? && raw.Notification? && raw.name == "item/completed"
       && (ThreadOf(Codex, raw.params).None? || ThreadOf(Codex, raw.params) == Some(c.threadId))
    then
      var item := GetOrNull(raw.params, "item");
      if GetStr(item, "type") == Some("subAgentActivity") && GetStr(item, "kind") == Some("started")
      then GetStr(item, "agentThreadId") else None
    else None
  }

  /** Completions are set aside while a reply is being selected. */
  predicate DeferDuringSelection(raw: Transport.Event) {
    raw.Notification? && raw.name == "turn/completed"
  }

  /** Only what is set aside can complete a turn or fail to normalize. */
  lemma OnlyDeferredComplete(b: Backend, raw: Transport.Event, c: Context)
    requires !DeferDuringSelection(raw)
    ensures Normalized(b, raw, c).Ok? && !Normalized(b, raw, c).value.TurnCompleted?
  {
  }

  /** Requests come from requests, closings from closings, and only dsh reports a resolved request. */
  lemma KindsAgree(b: Backend, raw: Transport.Event, c: Context)
    requires Normalized(b, raw, c).Ok?
    ensures var event := Normalized(b, raw, c).value;
      && (event.Request? ==>
            && raw == Transport.ServerRequest(event.id, event.name, event.params)
            && event.thread == ThreadOf(b, event.params))
      && (raw.ServerRequest? ==> event.Request? || (b.Dsh? && event.Ignore?))
      && (event.Closed? <==> raw.Closed?)
      && (event.RequestResolved? ==> b.Dsh? && raw.Notification? && raw.name == "request/resolved")
      && (raw.Notification? && raw.name == "turn/completed" && event.Update? ==> b.Codex?)
  {
  }

  // ---- answering ----

  datatype Decision = Accept | AcceptForSession | Decline

  /** The body a bare decision stands for; nothing when the request needs a structured answer. */
  function DecisionResponse(b: Backend, name: string, d: Decision): Option<Value> {
    match b
    case Dsh =>
      if name == "approval/request" && !d.AcceptForSession?
      then Some(Obj(map["decision" := Str(if d.Accept? then "allowed-once" else "rejected")])) else None
    case Codex =>
      var text := match d case Accept => "accept" case AcceptForSession => "acceptForSession" case Decline => "decline";
      if name == "item/commandExecution/requestApproval" || name == "item/fileChange/requestApproval"
      then Some(Obj(map["decision" := Str(text)]))
      else if name == "mcpServer/elicitation/request" && !d.AcceptForSession? then Some(Obj(map["action" := Str(text)]))
      else None
  }
}
