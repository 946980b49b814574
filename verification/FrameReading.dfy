/** The wire form of the plugin's frames, by reading it back, and which events of a log are put on the wire at all. */
module FrameReading {
  import opened Wrappers
  import opened JsonValue
  import opened SessionLog
  import opened Protocol
  import opened ClientWire
  import ProtocolHeard
  import ProtocolTurns
  import Transport
  import Turns

  /** What a client makes of an event, by the members of its parameters. */
  datatype Seen =
    | Asked(id: string, kind: Kind, thread: string)
    | Resolved(id: string, thread: string, resolvedBy: ResolvedBy)
    | Started(thread: string, turn: int)
    | Ended(thread: string, summary: Turns.Summary)
    | Happened(thread: string, name: string, place: Value, data: Value)
    | Status(thread: string, status: string)

  function ReadRequest(id: Value, name: string, thread: string): Option<Seen> {
    if !id.Str? then None
    else if name == "approval/request" then Some(Asked(id.s, Approval, thread))
    else if name == "userQuestion/request" then Some(Asked(id.s, UserQuestion, thread))
    else None
  }

  function ReadEnd(thread: string, params: Value): Option<Seen> {
    match (params.Get("turnId"), GetStr(params, "status"), GetStr(params, "reason"))
    case (Some(Int(turn)), Some(status), Some(reason)) =>
      Some(Ended(thread, Turns.Summary(turn, status, reason, GetStr(params, "error"), GetStr(params, "finalMessage"))))
    case _ => None
  }

  function ReadNotification(name: string, params: Value, thread: string): Option<Seen> {
    if name == "request/resolved" then
      match (GetStr(params, "requestId"), GetStr(params, "resolvedBy"))
      case (Some(id), Some("client")) => Some(Resolved(id, thread, ByClient))
      case (Some(id), Some("cancelled")) => Some(Resolved(id, thread, ByCancellation))
      case _ => None
    else if name == "turn/started" then
      match params.Get("turnId") case Some(Int(turn)) => Some(Started(thread, turn)) case _ => None
    else if name == "turn/completed" then ReadEnd(thread, params)
    else if name == "thread/event" then
      match GetStr(params, "type")
      case Some(kind) => Some(Happened(thread, kind, GetOrNull(params, "seq"), GetOrNull(params, "data")))
      case None => None
    else if name == "thread/status" then
      match GetStr(params, "status") case Some(status) => Some(Status(thread, status)) case None => None
    else None
  }

  function ReadBack(raw: Transport.Event): Option<Seen> {
    match raw
    case ServerRequest(id, name, params) =>
      (match GetStr(params, "threadId") case Some(thread) => ReadRequest(id, name, thread) case None => None)
    case Notification(name, params) =>
      (match GetStr(params, "threadId") case Some(thread) => ReadNotification(name, params, thread) case None => None)
    case Closed(_) => None
  }

  /** Every frame is read back as what it says. */
  lemma FrameReadsBack(frame: Frame, detail: Detail)
    ensures ReadBack(EventOfFrame(frame, detail)) == Some(
      match frame
      case RequestFrame(id, kind, thread, _) => Asked(id, kind, thread)
      case ResolvedFrame(id, thread, resolvedBy) => Resolved(id, thread, resolvedBy)
      case StartedFrame(thread, turn) => Started(thread, turn)
      case CompletedFrame(thread, summary) => Ended(thread, summary)
      case EventFrame(thread, e) => Happened(thread, EventName(e), detail.place, detail.data)
      case StatusFrame(thread, status) => Status(thread, status))
  {
    match frame
    case CompletedFrame(thread, summary) => EndReadsBack(thread, summary);
    case _ =>
  }

  lemma EndReadsBack(thread: string, summary: Turns.Summary)
    ensures GetStr(SummaryParams(thread, summary), "threadId") == Some(thread)
    ensures ReadEnd(thread, SummaryParams(thread, summary)) == Some(Ended(thread, summary))
  {
  }

  /** A request also carries every other member of what was asked. */
  lemma RequestKeepsParams(id: ReqId, kind: Kind, thread: ThreadId, params: Value, detail: Detail, key: string)
    requires key !in ["threadId", "requestId"]
    ensures EventOfFrame(RequestFrame(id, kind, thread, params), detail).params.Get(key) == params.Get(key)
  {
  }

  /** An agent's error goes out as an event with its turn and text. */
  lemma ErrorReadsBack(t: ThreadId, turn: int, message: string, detail: Detail)
    requires ErrorFrame(t, turn, message).EventFrame? && DataFits(ErrorFrame(t, turn, message).event, detail.data)
    ensures ReadBack(EventOfFrame(ErrorFrame(t, turn, message), detail)) ==
      Some(Happened(t, "agent/error", detail.place, Obj(map["turn" := Int(turn), "error" := Str(message)])))
  {
    FrameReadsBack(ErrorFrame(t, turn, message), detail);
  }

  // ---- which events go out ----

  /** Events of their own kinds are not also called something else. */
  predicate WellNamed(e: SessionEvent) {
    e.OtherEvent? ==> e.kind !in ["turn/start", "turn/end", "assistant/message"]
  }

  /** A log event is sent to an open subscriber exactly when its type is one of nine. */
  lemma ForwardedExactly(s: State, t: ThreadId, e: SessionEvent, c: ConnId)
    requires ProtocolHeard.Listens(s, t, c) && WellNamed(e)
    ensures var m := TurnInput(t, Turns.Log(e));
      && c in Step(s, m).conns && s.conns[c].sent <= Step(s, m).conns[c].sent
      && (EventFrame(t, e) in Step(s, m).conns[c].sent[|s.conns[c].sent|..] <==>
            EventName(e) in ["user/message", "assistant/message", "tool/call", "tool/result", "step/start", "step/end",
                             "turn/start", "turn/end", "session/title"])
  {
    var m, input := TurnInput(t, Turns.Log(e)), Turns.Log(e);
    NamesForwarded(e);
    ProtocolHeard.MoveSends(s, m, c);
    ProtocolTurns.NotesReachSubscribers(s, t, input, c);
    var event := if Forwarded(e) then [EventFrame(t, e)] else [];
    var note := match Turns.NoteFor(s.threads[t].turn, input) { case Some(n) => [FrameOfNote(t, n)] case None => [] };
    assert Step(s, m).conns[c].sent == s.conns[c].sent + event + note;
    assert Step(s, m).conns[c].sent[|s.conns[c].sent|..] == event + note;
    assert EventFrame(t, e) !in note;
  }

  lemma NamesForwarded(e: SessionEvent)
    requires WellNamed(e)
    ensures Forwarded(e) <==>
      EventName(e) in ["user/message", "assistant/message", "tool/call", "tool/result", "step/start", "step/end",
                       "turn/start", "turn/end", "session/title"]
  {
  }
}
