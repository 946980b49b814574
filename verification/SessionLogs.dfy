/**
 * What the session log of a whole wait holds: every line printed, a note of every event worth one, and of every
 * response.
 */
module SessionLogs {
  import opened Wrappers
  import opened JsonValue
  import opened Normalize
  import opened Session
  import Classes
  import Selection
  import SelectionRuns
  import SessionRuns
  import StreamRuns
  import Transport

  // ---- reading a log ----

  /** The lines of a log that were printed too. */
  function Printed(log: seq<Entry>): seq<Line> {
    if log == [] then []
    else
      var e := log[|log| - 1];
      Printed(log[..|log| - 1]) + if e.line.Note? then [] else [e.line]
  }

  /** The notes of a log that are about responses, or the ones that are not. */
  function Notes(log: seq<Entry>, responses: bool): seq<Value> {
    if log == [] then []
    else
      var e := log[|log| - 1];
      Notes(log[..|log| - 1], responses)
      + if e.line.Note? && IsOfResponse(e.line.value) == responses then [e.line.value] else []
  }

  predicate IsOfResponse(note: Value) {
    GetStr(note, "event") == Some("replied") || GetStr(note, "event") == Some("autoDeclined")
  }

  lemma LogAppend(log: seq<Entry>, e: Entry, responses: bool)
    ensures Printed(log + [e]) == Printed(log) + if e.line.Note? then [] else [e.line]
    ensures Notes(log + [e], responses) ==
      Notes(log, responses) + if e.line.Note? && IsOfResponse(e.line.value) == responses then [e.line.value] else []
  {
    assert (log + [e])[..|log|] == log;
  }

  // ---- what an event is noted as ----

  /** The note a notification of this thread leaves. */
  function NoteFor(cfg: Config, raw: Transport.Event): Option<Value> {
    if !StreamRuns.About(cfg, raw) then None
    else
      match cfg.backend
      case Dsh => DshNote(cfg, raw.name, raw.params)
      case Codex => CodexNote(cfg, raw.name, raw.params)
  }

  function DshNote(cfg: Config, name: string, params: Value): Option<Value> {
    var thread := Str(cfg.threadId);
    if name == "thread/event" then
      Some(Obj(map["event" := Str("item"), "threadId" := thread, "seq" := GetOrNull(params, "seq"),
                   "itemType" := GetOrNull(params, "type"), "data" := GetOrNull(params, "data")]))
    else if name == "thread/status" then
      Some(Obj(map["event" := Str("status"), "threadId" := thread, "status" := GetOrNull(params, "status")]))
    else if name == "request/resolved" then
      Some(Obj(map["event" := Str("requestResolved"), "threadId" := thread,
                   "requestId" := GetOrNull(params, "requestId"), "resolvedBy" := GetOrNull(params, "resolvedBy")]))
    else None
  }

  function CodexNote(cfg: Config, name: string, params: Value): Option<Value> {
    var thread := Str(cfg.threadId);
    if name == "item/completed" then Some(ItemNote(cfg.threadId, params))
    else if name == "thread/status/changed" then
      Some(Obj(map["event" := Str("status"), "threadId" := thread, "status" := GetOrNull(params, "status")]))
    else if name == "serverRequest/resolved" then
      Some(Obj(map["event" := Str("requestResolved"), "threadId" := thread,
                   "requestId" := GetOrNull(params, "requestId")]))
    else if name == "error" then
      Some(Obj(map["event" := Str("serverError"), "threadId" := thread, "params" := params]))
    else None
  }

  /** An item's note: what and whose it is, and seven of its members where present. */
  function ItemNote(thread: string, params: Value): Value {
    var item := GetOrNull(params, "item");
    Obj(map["event" := Str("item"), "threadId" := Str(thread), "turnId" := GetOrNull(params, "turnId"),
            "itemType" := Str(GetStr(item, "type").GetOr("unknown"))]
        + map key | key in {"text", "command", "exitCode", "status", "kind", "agentThreadId", "changes"}
                    && item.Get(key).Some? :: item.Get(key).value)
  }

  /** The note a response leaves, once it has been sent. */
  function ResponseNote(cfg: Config, raw: Transport.Event, response: Response): Value
    requires raw.ServerRequest?
  {
    match response
    case Result(id, body) =>
      Obj(map["event" := Str("replied"), "threadId" := Str(cfg.threadId), "requestId" := id, "method" := Str(raw.name),
              "result" := body])
    case Refusal(id) =>
      Obj(map["event" := Str("autoDeclined"), "threadId" := Str(cfg.threadId), "requestId" := id,
              "method" := Str(raw.name), "message" := Str(UNATTENDED_MESSAGE)])
  }

  // ---- one event ----

  /** A session that writes every line to its log. */
  predicate Writes(cfg: Config, s: State) { cfg.hasLog && s.out.unlogged == 0 && !s.out.suppress }

  /** What was printed was logged, and exactly these notes were added. */
  ghost predicate Records(s: State, s': State, others: seq<Value>, responses: seq<Value>) {
    && s.out.stdout <= s'.out.stdout
    && Printed(s'.out.log) == Printed(s.out.log) + s'.out.stdout[|s.out.stdout|..]
    && Notes(s'.out.log, false) == Notes(s.out.log, false) + others
    && Notes(s'.out.log, true) == Notes(s.out.log, true) + responses
  }

  lemma EmittedLogs(cfg: Config, s: State, line: Line)
    requires Writes(cfg, s) && !line.Note?
    ensures Records(s, Emitted(cfg, s, line), [], []) && Writes(cfg, Emitted(cfg, s, line))
  {
    LogAppend(s.out.log, Entry(line, s.out.during), true);
    LogAppend(s.out.log, Entry(line, s.out.during), false);
  }

  lemma NoteLogs(cfg: Config, s: State, note: Value)
    requires Writes(cfg, s)
    ensures Writes(cfg, Logged(cfg, s, note))
    ensures if IsOfResponse(note) then Records(s, Logged(cfg, s, note), [], [note])
            else Records(s, Logged(cfg, s, note), [note], [])
  {
    LogAppend(s.out.log, Entry(Note(note), s.out.during), true);
    LogAppend(s.out.log, Entry(Note(note), s.out.during), false);
  }

  /** The notes of what was handled: an update's or a resolution's own, and the response's if one was sent. */
  function OwnNote(event: Event): seq<Value> {
    match event
    case Update(_, _, _, Some(note)) => [note]
    case RequestResolved(_, note) => [note]
    case _ => []
  }

  function NewResponse(cfg: Config, raw: Transport.Event, before: seq<Sent>, after: seq<Sent>): seq<Value> {
    if raw.ServerRequest? && |after| > |before| then [ResponseNote(cfg, raw, after[|before|].response)] else []
  }

  lemma RequestRecords(cfg: Config, s: State, id: Value, name: string, params: Value, now: nat)
    requires s.taken > 0 && Writes(cfg, s)
    ensures var s' := HandleRequest(cfg, s, id, name, params, now).0;
      && Writes(cfg, s')
      && Records(s, s', [], NewResponse(cfg, Transport.ServerRequest(id, name, params), s.sent, s'.sent))
  {
    if Awaits(cfg, s, id) {
      AnswerRecords(cfg, s, id, name, params, now);
    } else if s.reply.Some? && PolicyOf(cfg.backend).isolateSelectedRequest {
    } else if cfg.opts.autoDecline {
      DeclineRecords(cfg, s, id, name, params, now);
    } else {
      EmittedLogs(cfg, s, RequestLine(params.Get("threadId").GetOr(Str(cfg.threadId)), id, name, params));
    }
  }

  lemma DeclineRecords(cfg: Config, s: State, id: Value, name: string, params: Value, now: nat)
    requires s.taken > 0 && Writes(cfg, s) && !Awaits(cfg, s, id) && cfg.opts.autoDecline
    requires s.reply.None? || !PolicyOf(cfg.backend).isolateSelectedRequest
    ensures var s' := HandleRequest(cfg, s, id, name, params, now).0;
      && Writes(cfg, s')
      && Records(s, s', [], NewResponse(cfg, Transport.ServerRequest(id, name, params), s.sent, s'.sent))
  {
    var s1 := s.(sent := s.sent + [Sent(Refusal(id), s.taken - 1)]);
    NoteLogs(cfg, s1, DeclinedNote(cfg, id, name));
    assert HandleRequest(cfg, s, id, name, params, now).0
        == ProgressIf(Logged(cfg, s1, DeclinedNote(cfg, id, name)), PolicyOf(cfg.backend).requestIsProgress, now);
  }

  lemma AnswerRecords(cfg: Config, s: State, id: Value, name: string, params: Value, now: nat)
    requires s.taken > 0 && Writes(cfg, s) && Awaits(cfg, s, id)
    ensures var s' := HandleRequest(cfg, s, id, name, params, now).0;
      && Writes(cfg, s')
      && Records(s, s', [], NewResponse(cfg, Transport.ServerRequest(id, name, params), s.sent, s'.sent))
  {
    var body := BodyOf(cfg.backend, name, s.reply.value.payload);
    if body.Some? {
      AnsweredRecords(cfg, s.(reply := None), id, name, params, body.value, s.taken - 1);
      assert HandleRequest(cfg, s, id, name, params, now).0
          == ProgressIf(Answered(cfg, s.(reply := None), id, name, body.value, s.taken - 1),
                        PolicyOf(cfg.backend).requestIsProgress, now);
    }
  }

  lemma AnsweredRecords(cfg: Config, s: State, id: Value, name: string, params: Value, body: Value, frame: nat)
    requires Writes(cfg, s)
    ensures var s' := Answered(cfg, s, id, name, body, frame);
      && Writes(cfg, s')
      && Records(s, s', [], NewResponse(cfg, Transport.ServerRequest(id, name, params), s.sent, s'.sent))
  {
    NoteLogs(cfg, s.(sent := s.sent + [Sent(Result(id, body), frame)]), RepliedNote(cfg, id, name, body));
  }

  lemma EventRecords(cfg: Config, s: State, event: Event, raw: Transport.Event, now: nat)
    requires s.taken > 0 && Writes(cfg, s) && (forall note | note in OwnNote(event) :: !IsOfResponse(note))
    requires event.Request? ==> raw == Transport.ServerRequest(event.id, event.name, event.params)
    ensures var s' := HandleEvent(cfg, s, event, now).0;
      Writes(cfg, s') && Records(s, s', OwnNote(event), NewResponse(cfg, raw, s.sent, s'.sent))
  {
    match event
    case Ignore =>
    case Closed(reason) => EmittedLogs(cfg, s, ErrorLine(SocketClosed(reason)));
    case Update(turnId, text, progress, log) =>
      if log.Some? {
        NoteLogs(cfg, ProgressIf(Absorb(s, turnId, text), progress, now), log.value);
      }
    case TurnCompleted(turnId, status, text, fields) =>
      var s1 := Absorb(s, turnId, text);
      EmittedLogs(cfg, s1, TurnLineOf(cfg, s1, status, fields));
    case RequestResolved(_, note) => NoteLogs(cfg, s, note);
    case Request(id, name, params, _) => RequestRecords(cfg, s, id, name, params, now);
  }

  /** What normalization has noted is what the event is worth noting as. */
  lemma NormalizedNotes(cfg: Config, raw: Transport.Event, c: Context)
    requires c.threadId == cfg.threadId
    ensures var event := Normalized(cfg.backend, raw, c);
      && (event.Ok? ==> OwnNote(event.value) == (match NoteFor(cfg, raw) { case Some(note) => [note] case None => [] }))
      && (event.Err? ==> NoteFor(cfg, raw).None?)
      && (NoteFor(cfg, raw).Some? ==> !IsOfResponse(NoteFor(cfg, raw).value))
  {
    if cfg.backend.Dsh? {
      DshNotes(cfg, raw, c);
    } else {
      CodexNotes(cfg, raw, c);
    }
  }

  lemma DshNotes(cfg: Config, raw: Transport.Event, c: Context)
    requires c.threadId == cfg.threadId && cfg.backend.Dsh?
    ensures var event := NormalizeDsh(raw, c);
      && (event.Ok? ==> OwnNote(event.value) == (match NoteFor(cfg, raw) { case Some(note) => [note] case None => [] }))
      && (event.Err? ==> NoteFor(cfg, raw).None?)
      && (NoteFor(cfg, raw).Some? ==> !IsOfResponse(NoteFor(cfg, raw).value))
  {
  }

  lemma CodexNotes(cfg: Config, raw: Transport.Event, c: Context)
    requires c.threadId == cfg.threadId && cfg.backend.Codex?
    ensures OwnNote(NormalizeCodex(raw, c)) == (match NoteFor(cfg, raw) { case Some(note) => [note] case None => [] })
    ensures NoteFor(cfg, raw).Some? ==> !IsOfResponse(NoteFor(cfg, raw).value)
  {
    if raw.Notification? && raw.name == "item/completed" {
      ItemIsNoted(cfg.threadId, raw.params);
    }
  }

  lemma ItemIsNoted(thread: string, params: Value)
    ensures ItemSummary(thread, params, GetOrNull(params, "item")) == ItemNote(thread, params)
    ensures !IsOfResponse(ItemNote(thread, params))
  {
    var item := GetOrNull(params, "item");
    var keys := ["text", "command", "exitCode", "status", "kind", "agentThreadId", "changes"];
    assert Members(item, keys, false) ==
      map key | key in {"text", "command", "exitCode", "status", "kind", "agentThreadId", "changes"}
                && item.Get(key).Some? :: item.Get(key).value;
    assert GetStr(ItemNote(thread, params), "event") == Some("item");
  }

  lemma ProcessRecords(cfg: Config, s: State, raw: Transport.Event, now: nat)
    requires s.taken > 0 && Writes(cfg, s)
    ensures var s' := Process(cfg, s, raw, now).0;
      && Writes(cfg, s')
      && Records(s, s', match NoteFor(cfg, raw) { case Some(note) => [note] case None => [] },
                 NewResponse(cfg, raw, s.sent, s'.sent))
  {
    var event := Normalized(cfg.backend, raw, ContextOf(cfg, s));
    NormalizedNotes(cfg, raw, ContextOf(cfg, s));
    if event.Ok? {
      KindsAgree(cfg.backend, raw, ContextOf(cfg, s));
      HandleRecords(cfg, WithUnsubscribe(cfg, s, raw), event.value, raw, now);
    }
  }

  lemma HandleRecords(cfg: Config, s: State, event: Event, raw: Transport.Event, now: nat)
    requires s.taken > 0 && Writes(cfg, s) && (forall note | note in OwnNote(event) :: !IsOfResponse(note))
    requires event.Request? ==> raw == Transport.ServerRequest(event.id, event.name, event.params)
    ensures var s' := Handle(cfg, s, event, now).0;
      Writes(cfg, s') && Records(s, s', OwnNote(event), NewResponse(cfg, raw, s.sent, s'.sent))
  {
    EventRecords(cfg, Opening(s), event, raw, now);
  }

  // ---- whole waits ----

  /** The notes of the events between two positions of the stream. */
  function NotesOf(cfg: Config, feed: Feed, from: nat, to: nat): seq<Value>
    requires from <= to <= |feed.arrivals|
  {
    if from == to then []
    else
      NotesOf(cfg, feed, from, to - 1)
      + match NoteFor(cfg, feed.arrivals[to - 1].raw) { case Some(note) => [note] case None => [] }
  }

  /** The notes of responses, each by the request it answered. */
  function ResponseNotes(cfg: Config, feed: Feed, sent: seq<Sent>): seq<Value> {
    if sent == [] then []
    else
      var last := sent[|sent| - 1];
      ResponseNotes(cfg, feed, sent[..|sent| - 1])
      + if last.frame < |feed.arrivals| && feed.arrivals[last.frame].raw.ServerRequest?
        then [ResponseNote(cfg, feed.arrivals[last.frame].raw, last.response)] else []
  }

  ghost predicate LogIs(cfg: Config, feed: Feed, start: State, s: State) {
    && Writes(cfg, s) && start.taken <= s.taken <= |feed.arrivals| && start.sent <= s.sent
    && start.out.stdout <= s.out.stdout
    && Printed(s.out.log) == Printed(start.out.log) + s.out.stdout[|start.out.stdout|..]
    && Notes(s.out.log, false) == Notes(start.out.log, false) + NotesOf(cfg, feed, start.taken, s.taken)
    && Notes(s.out.log, true)
       == Notes(start.out.log, true) + ResponseNotes(cfg, feed, s.sent[|start.sent|..])
  }

  /** Recording what was added keeps the log complete. */
  lemma RecordingExtends(
      cfg: Config, feed: Feed, start: State, s: State, s': State, others: seq<Value>, responses: seq<Value>)
    requires LogIs(cfg, feed, start, s) && Writes(cfg, s') && Records(s, s', others, responses)
    requires s.taken <= s'.taken <= |feed.arrivals| && s.sent <= s'.sent
    requires NotesOf(cfg, feed, start.taken, s'.taken) == NotesOf(cfg, feed, start.taken, s.taken) + others
    requires ResponseNotes(cfg, feed, s'.sent[|start.sent|..])
          == ResponseNotes(cfg, feed, s.sent[|start.sent|..]) + responses
    ensures LogIs(cfg, feed, start, s')
  {
    SuffixGrows(start.out.stdout, s.out.stdout, s'.out.stdout);
    AddedLast(Printed(start.out.log), s.out.stdout[|start.out.stdout|..], s'.out.stdout[|s.out.stdout|..]);
    AddedLast(Notes(start.out.log, false), NotesOf(cfg, feed, start.taken, s.taken), others);
    AddedLast(Notes(start.out.log, true), ResponseNotes(cfg, feed, s.sent[|start.sent|..]), responses);
  }

  lemma AddedLast<T>(start: seq<T>, part: seq<T>, more: seq<T>)
    ensures start + part + more == start + (part + more)
  {
  }

  lemma SuffixGrows<T>(a: seq<T>, b: seq<T>, c: seq<T>)
    requires a <= b <= c
    ensures c[|a|..] == b[|a|..] + c[|b|..]
  {
  }

  lemma ResponseNotesNext(
      cfg: Config, feed: Feed, from: nat, before: seq<Sent>, after: seq<Sent>, raw: Transport.Event, frame: nat)
    requires from <= |before| && frame < |feed.arrivals| && feed.arrivals[frame].raw == raw
    requires SessionRuns.Responds(before, after, raw, frame)
    ensures before <= after
    ensures ResponseNotes(cfg, feed, after[from..])
         == ResponseNotes(cfg, feed, before[from..]) + NewResponse(cfg, raw, before, after)
  {
    if after != before {
      var added := after[|before|];
      assert after == before + [added] && after[from..] == before[from..] + [added];
      assert after[from..][..|after[from..]| - 1] == before[from..];
    }
  }

  lemma EventExtends(cfg: Config, feed: Feed, start: State, s: State, raw: Transport.Event, now: nat)
    requires LogIs(cfg, feed, start, s) && s.taken < |feed.arrivals| && feed.arrivals[s.taken].raw == raw
    ensures LogIs(cfg, feed, start, Process(cfg, s.(taken := s.taken + 1), raw, now).0)
  {
    var s1 := s.(taken := s.taken + 1);
    var s' := Process(cfg, s1, raw, now).0;
    ProcessRecords(cfg, s1, raw, now);
    SessionRuns.ProcessResponds(cfg, s1, raw, now);
    SessionRuns.ProcessCounts(cfg, s1, raw, now);
    ResponseNotesNext(cfg, feed, |start.sent|, s.sent, s'.sent, raw, s.taken);
    var others := match NoteFor(cfg, raw) { case Some(note) => [note] case None => [] };
    RecordingExtends(cfg, feed, start, s, s', others, NewResponse(cfg, raw, s.sent, s'.sent));
  }

  lemma WakeExtends(cfg: Config, feed: Feed, start: State, s: State, wake: Wake, t: nat, now: nat)
    requires LogIs(cfg, feed, start, s) && (wake.GotEvent? ==> Recv(feed, s.taken, t) == Some(wake))
    ensures LogIs(cfg, feed, start, React(cfg, s, wake, now).0)
  {
    if wake.GotEvent? {
      assert React(cfg, s, wake, now) == Process(cfg, s.(taken := s.taken + 1), wake.raw, now);
      EventExtends(cfg, feed, start, s, wake.raw, now);
    } else {
      DeadlineRecords(cfg, s, wake, now);
      RecordingExtends(cfg, feed, start, s, React(cfg, s, wake, now).0, [], []);
    }
  }

  lemma DeadlineRecords(cfg: Config, s: State, wake: Wake, now: nat)
    requires Writes(cfg, s) && !wake.GotEvent?
    ensures var s' := React(cfg, s, wake, now).0;
      Writes(cfg, s') && Records(s, s', [], []) && s'.taken == s.taken && s'.sent == s.sent
  {
    var line := match wake
      case StreamEnd => ErrorLine(StreamEnded)
      case ReplyDue => ErrorLine(NotRedelivered(if s.reply.Some? then s.reply.value.id else Null))
      case StallDue => StalledLine(cfg.threadId, s.turnId, cfg.opts.stallSecs, s.finalMessage)
      case TimeoutDue => TimeoutLine(cfg.threadId, s.turnId, cfg.opts.timeoutSecs, s.finalMessage);
    EmittedLogs(cfg, s, line);
  }

  /**
   * With a log and nothing to suppress, over every wait: the log has every line printed, in order; a note of every
   * event taken that is worth one, in order; and a note of every response sent, in order; and nothing else.
   */
  lemma {:induction false} LogHoldsWait(cfg: Config, feed: Feed, start: State, started: nat, ticks: seq<Tick>)
    requires Writes(cfg, start) && start.taken <= |feed.arrivals|
    ensures LogIs(cfg, feed, start, WaitRun(cfg, feed, Begin(start, started), ticks).s)
  {
    if ticks != [] {
      var init, tick := ticks[..|ticks| - 1], ticks[|ticks| - 1];
      LogHoldsWait(cfg, feed, start, started, init);
      var w := WaitRun(cfg, feed, Begin(start, started), init);
      var wake := WakeAt(cfg, feed, w, tick.poll);
      if w.end.None? && wake.Some? {
        WakeExtends(cfg, feed, start, w.s, wake.value, tick.poll, tick.now);
      }
    }
  }

  /** An implicit reply leaves the note of its response, by the request it chose, and nothing else. */
  lemma ChoiceIsRecorded(cfg: Config, feed: Feed, start: State, v: Selection.Window, payload: Payload)
    requires SelectionRuns.WindowOk(cfg, feed, start, v) && SelectionRuns.WireIds(cfg.backend, feed)
    requires Writes(cfg, v.s) && Selection.Choose(cfg, v, payload).1.Continue?
    ensures var s' := Selection.Choose(cfg, v, payload).0;
      && |s'.sent| == |v.s.sent| + 1
      && var last := s'.sent[|v.s.sent|];
      && last.frame < |feed.arrivals| && feed.arrivals[last.frame].raw.ServerRequest?
      && Records(v.s, s', [], [ResponseNote(cfg, feed.arrivals[last.frame].raw, last.response)])
  {
    SelectionRuns.RepliesExactlyToOnlyRequest(cfg, feed, start, v, payload);
    var cs := SelectionRuns.CandidatesIn(cfg, feed, start.taken, v.s.taken);
    SelectionRuns.CandidatesAreRequests(cfg, feed, start.taken, v.s.taken);
    SelectionRuns.SameIsEquivalentOn(cfg, feed, start.taken, v.s.taken);
    Classes.OneRepresentative(SelectionRuns.SameCandidate(cfg.backend), cs);
    var request := v.requests[0];
    assert request == cs[0] && request in cs;
    var raw := feed.arrivals[request.frame].raw;
    var body := BodyOf(cfg.backend, request.name, payload).value;
    AnsweredRecords(cfg, v.s, request.id, request.name, raw.params, body, request.frame);
  }

  // ---- threads a Codex session leaves ----

  /** The sub-agent thread that an item of this thread started. */
  function SubagentIn(cfg: Config, raw: Transport.Event): Option<string> {
    if cfg.backend.Codex? && StreamRuns.About(cfg, raw) && raw.name == "item/completed"
       && StringAt(raw.params, ["item", "type"]) == Some("subAgentActivity")
       && StringAt(raw.params, ["item", "kind"]) == Some("started")
    then StringAt(raw.params, ["item", "agentThreadId"])
    else None
  }

  function SubagentOf(cfg: Config, raw: Transport.Event): seq<string> {
    match SubagentIn(cfg, raw)
    case Some(sub) => [sub]
    case None => []
  }

  function SubagentsIn(cfg: Config, feed: Feed, from: nat, to: nat): seq<string>
    requires from <= to <= |feed.arrivals|
  {
    if from == to then [] else SubagentsIn(cfg, feed, from, to - 1) + SubagentOf(cfg, feed.arrivals[to - 1].raw)
  }

  lemma UnsubscribesSubagents(cfg: Config, raw: Transport.Event, c: Context)
    requires c.threadId == cfg.threadId
    ensures Unsubscribes(cfg.backend, raw, c) == SubagentIn(cfg, raw)
  {
    if raw.Notification? {
      StringAtTwo(raw.params, "item", "type");
      StringAtTwo(raw.params, "item", "kind");
      StringAtTwo(raw.params, "item", "agentThreadId");
    }
  }

  lemma ProcessUnsubscribes(cfg: Config, s: State, raw: Transport.Event, now: nat)
    requires s.taken > 0
    ensures Process(cfg, s, raw, now).0.unsubscribed == s.unsubscribed + SubagentOf(cfg, raw)
  {
    UnsubscribesSubagents(cfg, raw, ContextOf(cfg, s));
    var event := Normalized(cfg.backend, raw, ContextOf(cfg, s));
    if event.Ok? {
      HandlingUnsubscribesNothing(cfg, WithUnsubscribe(cfg, s, raw), event.value, now);
    }
  }

  lemma HandlingUnsubscribesNothing(cfg: Config, s: State, event: Event, now: nat)
    requires s.taken > 0
    ensures Handle(cfg, s, event, now).0.unsubscribed == s.unsubscribed
  {
  }

  ghost predicate Left(cfg: Config, feed: Feed, start: State, s: State) {
    && start.taken <= s.taken <= |feed.arrivals|
    && s.unsubscribed == start.unsubscribed + SubagentsIn(cfg, feed, start.taken, s.taken)
  }

  lemma EventLeaves(cfg: Config, feed: Feed, start: State, s: State, raw: Transport.Event, now: nat)
    requires Left(cfg, feed, start, s) && s.taken < |feed.arrivals| && feed.arrivals[s.taken].raw == raw
    ensures Left(cfg, feed, start, Process(cfg, s.(taken := s.taken + 1), raw, now).0)
  {
    ProcessUnsubscribes(cfg, s.(taken := s.taken + 1), raw, now);
    SessionRuns.ProcessCounts(cfg, s.(taken := s.taken + 1), raw, now);
    LeftNext(cfg, feed, start, s, Process(cfg, s.(taken := s.taken + 1), raw, now).0, raw);
  }

  lemma LeftNext(cfg: Config, feed: Feed, start: State, s: State, s': State, raw: Transport.Event)
    requires Left(cfg, feed, start, s) && s.taken < |feed.arrivals| && feed.arrivals[s.taken].raw == raw
    requires s'.taken == s.taken + 1 && s'.unsubscribed == s.unsubscribed + SubagentOf(cfg, raw)
    ensures Left(cfg, feed, start, s')
  {
    AddedLast(start.unsubscribed, SubagentsIn(cfg, feed, start.taken, s.taken), SubagentOf(cfg, raw));
  }

  lemma WakeLeaves(cfg: Config, feed: Feed, start: State, s: State, wake: Wake, t: nat, now: nat)
    requires Left(cfg, feed, start, s) && (wake.GotEvent? ==> Recv(feed, s.taken, t) == Some(wake))
    ensures Left(cfg, feed, start, React(cfg, s, wake, now).0)
  {
    if wake.GotEvent? {
      assert React(cfg, s, wake, now) == Process(cfg, s.(taken := s.taken + 1), wake.raw, now);
      EventLeaves(cfg, feed, start, s, wake.raw, now);
    }
  }

  /** A wait leaves exactly the sub-agent threads that its thread's items start, once each, in order. */
  lemma {:induction false} SubagentsAreLeft(cfg: Config, feed: Feed, start: State, started: nat, ticks: seq<Tick>)
    requires start.taken <= |feed.arrivals|
    ensures Left(cfg, feed, start, WaitRun(cfg, feed, Begin(start, started), ticks).s)
  {
    if ticks != [] {
      var init, tick := ticks[..|ticks| - 1], ticks[|ticks| - 1];
      SubagentsAreLeft(cfg, feed, start, started, init);
      var w := WaitRun(cfg, feed, Begin(start, started), init);
      var wake := WakeAt(cfg, feed, w, tick.poll);
      if w.end.None? && wake.Some? {
        WakeLeaves(cfg, feed, start, w.s, wake.value, tick.poll, tick.now);
      }
    }
  }
}
