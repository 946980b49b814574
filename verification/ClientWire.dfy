/** The plugin's frames as the events the dsh CLI reads, and what both sides together guarantee about request ids. */
module ClientWire {
  import opened Wrappers
  import opened JsonValue
  import opened SessionLog
  import opened Protocol
  import opened ProtocolInvariant
  import Machine = Session
  import ProtocolRuns
  import ReplyRuns
  import Selection
  import SessionRuns
  import Transport
  import Turns

  function KindName(kind: Kind): string {
    match kind
    case Approval => "approval/request"
    case UserQuestion => "userQuestion/request"
  }

  function EventName(e: SessionEvent): string {
    match e
    case TurnStart(_) => "turn/start"
    case AssistantMessage(_, _) => "assistant/message"
    case TurnEnd(_, _) => "turn/end"
    case OtherEvent(kind, _) => kind
  }

  /**
   * The data a log event carries on the wire: what the model knows of it is there, other members are free.
   * A missing message reads as null.
   */
  ghost predicate DataFits(e: SessionEvent, data: Value) {
    match e
    case TurnStart(turn) => data.Get("turn") == Some(Int(turn))
    case AssistantMessage(turn, message) => data.Get("turn") == Some(Int(turn)) && GetOrNull(data, "message") == message
    case TurnEnd(turn, reason) =>
      data.Get("turn") == Some(Int(turn)) && GetStr(GetOrNull(data, "reason"), "kind") == Some(reason.kind)
    case OtherEvent(_, known) => data == known
  }

  function Optional(key: string, text: Option<string>): map<string, Value> {
    if text.Some? then map[key := Str(text.value)] else map[]
  }

  function SummaryParams(t: ThreadId, summary: Turns.Summary): Value {
    Obj(map["threadId" := Str(t), "turnId" := Int(summary.turn), "status" := Str(summary.status),
      "reason" := Str(summary.reason)]
        + Optional("error", summary.error) + Optional("finalMessage", summary.finalMessage))
  }

  function ResolvedByName(resolvedBy: ResolvedBy): string {
    if resolvedBy.ByClient? then "client" else "cancelled"
  }

  /** What the wire adds to a forwarded event: its log position and its data. */
  datatype Detail = Detail(place: Value, data: Value)

  /** The event a frame becomes on the client. */
  function EventOfFrame(frame: Frame, detail: Detail): Transport.Event {
    match frame
    case RequestFrame(id, kind, thread, params) =>
      Transport.ServerRequest(Str(id), KindName(kind),
        Obj((if params.Obj? then params.fields else map[]) + map["threadId" := Str(thread), "requestId" := Str(id)]))
    case ResolvedFrame(id, thread, resolvedBy) =>
      Transport.Notification("request/resolved",
        Obj(map["threadId" := Str(thread), "requestId" := Str(id), "resolvedBy" := Str(ResolvedByName(resolvedBy))]))
    case StartedFrame(thread, turn) =>
      Transport.Notification("turn/started", Obj(map["threadId" := Str(thread), "turnId" := Int(turn)]))
    case CompletedFrame(thread, summary) => Transport.Notification("turn/completed", SummaryParams(thread, summary))
    case EventFrame(thread, e) =>
      Transport.Notification("thread/event",
        Obj(map["threadId" := Str(thread), "seq" := detail.place, "type" := Str(EventName(e)), "data" := detail.data]))
    case StatusFrame(thread, status) =>
      Transport.Notification("thread/status", Obj(map["threadId" := Str(thread), "status" := Str(status)]))
  }

  /** `raw` is `frame` as the client reads it. */
  ghost predicate Carries(frame: Frame, raw: Transport.Event) {
    exists detail :: raw == EventOfFrame(frame, detail) && (frame.EventFrame? ==> DataFits(frame.event, detail.data))
  }

  /** The CLI's event stream is what the plugin sent this connection so far, in order, and then perhaps the close. */
  ghost predicate Relays(sent: seq<Frame>, feed: Machine.Feed) {
    && |feed.arrivals| <= |sent| + 1
    && (forall i | 0 <= i < |feed.arrivals| ::
          (i == |feed.arrivals| - 1 && feed.arrivals[i].raw.Closed?)
          || (i < |sent| && Carries(sent[i], feed.arrivals[i].raw)))
  }

  /** Data for an event, with any further members. */
  function DataWith(e: SessionEvent, further: map<string, Value>): Value {
    match e
    case TurnStart(turn) => Obj(further + map["turn" := Int(turn)])
    case AssistantMessage(turn, message) => Obj(further + map["turn" := Int(turn), "message" := message])
    case TurnEnd(turn, reason) =>
      Obj(further + map["turn" := Int(turn), "reason" := Obj(further + map["kind" := Str(reason.kind)])])
    case OtherEvent(_, data) => data
  }

  lemma DataWithFits(e: SessionEvent, further: map<string, Value>)
    ensures DataFits(e, DataWith(e, further))
  {
    var data := DataWith(e, further);
    if e.TurnEnd? {
      assert data.Get("reason") == Some(Obj(further + map["kind" := Str(e.reason.kind)]));
    }
  }

  /** Whatever the plugin sends is relayed, whatever further members its events carry: an error in a reason, say. */
  lemma EverythingIsRelayed(sent: seq<Frame>, further: map<string, Value>)
    ensures (exists feed ::
               (Relays(sent, feed) && |feed.arrivals| == |sent|
                && (forall i | 0 <= i < |sent| && sent[i].EventFrame? ::
                      feed.arrivals[i].raw == EventOfFrame(sent[i], Detail(Int(i), DataWith(sent[i].event, further))))))
  {
    var arrivals := seq(|sent|, i requires 0 <= i < |sent| => Machine.Arrival(i, RawWith(sent[i], i, further)));
    var feed := Machine.Feed(arrivals, None);
    forall i | 0 <= i < |sent| ensures Carries(sent[i], feed.arrivals[i].raw) {
      if sent[i].EventFrame? {
        DataWithFits(sent[i].event, further);
      }
      assert feed.arrivals[i].raw == EventOfFrame(sent[i], DetailWith(sent[i], i, further));
    }
    assert Relays(sent, feed);
  }

  function DetailWith(f: Frame, i: nat, further: map<string, Value>): Detail {
    Detail(Int(i), if f.EventFrame? then DataWith(f.event, further) else Null)
  }

  function RawWith(f: Frame, i: nat, further: map<string, Value>): Transport.Event {
    EventOfFrame(f, DetailWith(f, i, further))
  }

  // ---- no id reaches a connection twice ----

  /** Where the i-th frame stands among those about its request. */
  lemma {:induction false} AboutAt(sent: seq<Frame>, r: ReqId, i: nat)
    requires i < |sent| && IsAbout(sent[i], r)
    ensures |About(sent[..i], r)| < |About(sent, r)| && About(sent, r)[|About(sent[..i], r)|] == sent[i]
    ensures About(sent[..i], r) <= About(sent, r)
  {
    var init := sent[..|sent| - 1];
    if i < |init| {
      AboutAt(init, r, i);
      assert init[..i] == sent[..i];
    }
  }

  lemma RequestedOnce(sent: seq<Frame>, r: ReqId, i: nat, j: nat)
    requires i < j < |sent| && IsAbout(sent[i], r) && IsAbout(sent[j], r)
    ensures var about := About(sent, r); exists p, q ::
      0 <= p < q < |about| && about[p] == sent[i] && about[q] == sent[j]
  {
    AboutAt(sent, r, i);
    AboutAt(sent, r, j);
    AboutAt(sent[..j], r, i);
    assert sent[..j][..i] == sent[..i];
    var about := About(sent, r);
    var p, q := |About(sent[..i], r)|, |About(sent[..j], r)|;
    assert 0 <= p < q < |about| && about[p] == sent[i] && about[q] == sent[j];
  }

  /** The plugin asks a connection about an id at most once. */
  lemma PluginAsksOnce(ms: seq<Move>, c: ConnId, i: nat, j: nat)
    requires Legal(ms) && c in Run(ms).conns
    requires i < j < |Run(ms).conns[c].sent| && Run(ms).conns[c].sent[i].RequestFrame?
      && Run(ms).conns[c].sent[j].RequestFrame?
    ensures Run(ms).conns[c].sent[i].id != Run(ms).conns[c].sent[j].id
  {
    var s := Run(ms);
    var sent, r := s.conns[c].sent, s.conns[c].sent[i].id;
    ProtocolRuns.RunKeeps(ms);
    assert ConnOk(s, c);
    assert PairOk(s, c, r);
    if sent[j].id == r {
      RequestedOnce(sent, r, i, j);
    }
  }

  lemma RelayedIdsDistinct(ms: seq<Move>, c: ConnId, feed: Machine.Feed)
    requires Legal(ms) && c in Run(ms).conns && Relays(Run(ms).conns[c].sent, feed)
    ensures SessionRuns.DistinctRequestIds(feed)
  {
    var sent := Run(ms).conns[c].sent;
    forall i, j | 0 <= i < j < |feed.arrivals| && feed.arrivals[i].raw.ServerRequest?
      && feed.arrivals[j].raw.ServerRequest?
      ensures feed.arrivals[i].raw.id != feed.arrivals[j].raw.id
    {
      assert Carries(sent[i], feed.arrivals[i].raw) && (j == |sent| || Carries(sent[j], feed.arrivals[j].raw));
      PluginAsksOnce(ms, c, i, j);
    }
  }

  /**
   * Both sides together: a waiting dsh command (explicit reply, auto-decline or follow) answers no request id twice.
   */
  lemma WaitAnswersOncePerId(ms: seq<Move>, c: ConnId, cfg: Machine.Config, feed: Machine.Feed, s: Machine.State,
                             started: nat, ticks: seq<Machine.Tick>, i: nat, j: nat)
    requires Legal(ms) && c in Run(ms).conns && Relays(Run(ms).conns[c].sent, feed)
    requires cfg.backend.Dsh? && s.taken <= |feed.arrivals|
    requires |s.sent| <= i < j < |Machine.WaitRun(cfg, feed, Machine.Begin(s, started), ticks).s.sent|
    ensures var sent := Machine.WaitRun(cfg, feed, Machine.Begin(s, started), ticks).s.sent;
      sent[i].response.id != sent[j].response.id
  {
    RelayedIdsDistinct(ms, c, feed);
    SessionRuns.OneResponsePerId(cfg, feed, s, started, ticks, i, j);
  }

  lemma RelayedIdsAreStrings(sent: seq<Frame>, feed: Machine.Feed)
    requires Relays(sent, feed)
    ensures forall i | 0 <= i < |feed.arrivals| && feed.arrivals[i].raw.ServerRequest? :: feed.arrivals[i].raw.id.Str?
  {
  }

  /** And so does an implicit reply, through its window, its answer and the wait after it. */
  lemma ReplyAnswersOncePerId(ms: seq<Move>, c: ConnId, cfg: Machine.Config, feed: Machine.Feed, s: Machine.State,
                              payload: Machine.Payload, started: nat, window: seq<Machine.Tick>, resumed: nat,
                              ticks: seq<Machine.Tick>, i: nat, j: nat)
    requires Legal(ms) && c in Run(ms).conns && Relays(Run(ms).conns[c].sent, feed)
    requires cfg.backend.Dsh? && s.taken <= |feed.arrivals| && Machine.Ordered(started, window)
    requires |s.sent| <= i < j < |Selection.ReplyRun(cfg, feed, s, payload, started, window, resumed, ticks).s.sent|
    ensures var sent := Selection.ReplyRun(cfg, feed, s, payload, started, window, resumed, ticks).s.sent;
      sent[i].response.id != sent[j].response.id
  {
    RelayedIdsDistinct(ms, c, feed);
    RelayedIdsAreStrings(Run(ms).conns[c].sent, feed);
    ReplyRuns.ReplyOncePerId(cfg, feed, s, payload, started, window, resumed, ticks, i, j);
  }
}
