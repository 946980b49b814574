/** The plugin's view of a dsh session log: message text, turn-end mapping and the folded turn list. */
module SessionLog {
  import opened Wrappers
  import opened JsonValue

  /** Why a turn ended. `error` is the JSON text of the reason's error, when it has one. */
  datatype Reason = Reason(kind: string, error: Option<string>)

  datatype SessionEvent =
    | TurnStart(turn: int)
    | AssistantMessage(turn: int, message: Value)
    | TurnEnd(turn: int, reason: Reason)
    | OtherEvent(kind: string, data: Value)

  datatype TurnRecord = TurnRecord(turnId: int, status: string, reason: Option<string>, finalMessage: Option<string>)

  // ---- message text ----

  /** A block's text when it is an object of type "text" with a string text. */
  function BlockText(block: Value): Option<string> {
    if GetStr(block, "type") == Some("text") then GetStr(block, "text") else None
  }

  function TextParts(items: seq<Value>): seq<string> {
    if items == [] then []
    else
      var rest := TextParts(items[..|items| - 1]);
      match BlockText(items[|items| - 1])
      case Some(text) => rest + [text]
      case None => rest
  }

  function Concat(parts: seq<string>): string {
    if parts == [] then "" else Concat(parts[..|parts| - 1]) + parts[|parts| - 1]
  }

  function JoinedText(content: Option<Value>): string {
    if content.Some? && content.value.Arr? then Concat(TextParts(content.value.items)) else ""
  }

  function MessageText(message: Value): string {
    JoinedText(message.Get("content"))
  }

  method JoinTextBlocks(content: Option<Value>) returns (text: string)
    ensures text == JoinedText(content)
  {
    if content.None? || !content.value.Arr? {
      return "";
    }
    var items := content.value.items;
    var parts: seq<string> := [];
    for i := 0 to |items|
      invariant parts == TextParts(items[..i])
    {
      assert items[..i + 1][..i] == items[..i];
      var part := BlockText(items[i]);
      if part.Some? {
        parts := parts + [part.value];
      }
    }
    assert items[..|items|] == items;
    text := "";
    for i := 0 to |parts|
      invariant text == Concat(parts[..i])
    {
      assert parts[..i + 1][..i] == parts[..i];
      text := text + parts[i];
    }
    assert parts[..|parts|] == parts;
  }

  // ---- turn end ----

  function MapTurnEnd(reason: Reason): (string, Option<string>) {
    if reason.kind == "completed" then ("completed", None)
    else if reason.kind == "aborted" || reason.kind == "interrupted" then ("interrupted", None)
    else ("failed", Some(reason.error.GetOr(reason.kind)))
  }

  /** The status and error an end is reported with: each kind of reason has one status, and only a failure an error. */
  predicate EndsAs(reason: Reason, status: string, error: Option<string>) {
    && (reason.kind == "completed" <==> status == "completed")
    && (reason.kind in ["aborted", "interrupted"] <==> status == "interrupted")
    && (reason.kind !in ["completed", "aborted", "interrupted"] <==> status == "failed")
    && error == (if status != "failed" then None
                 else if reason.error.Some? then reason.error
                 else Some(reason.kind))
  }

  /** A turn that has ended is recorded as it ended last; one that has not is running. */
  predicate RecordedAs(record: TurnRecord, end: Option<Reason>) {
    match end
    case None => record.status == "running" && record.reason == None
    case Some(reason) => EndsAs(reason, record.status, MapTurnEnd(reason).1) && record.reason == Some(reason.kind)
  }

  // ---- the last turn started ----

  function LastTurn(events: seq<SessionEvent>): Option<int> {
    if events == [] then None
    else if events[|events| - 1].TurnStart? then Some(events[|events| - 1].turn)
    else LastTurn(events[..|events| - 1])
  }

  method LastTurnOf(events: seq<SessionEvent>) returns (turn: Option<int>)
    ensures turn == LastTurn(events)
  {
    assert events[..|events|] == events;
    var index := |events|;
    while index > 0
      invariant 0 <= index <= |events|
      invariant LastTurn(events) == LastTurn(events[..index])
    {
      assert events[..index][..index - 1] == events[..index - 1];
      index := index - 1;
      if events[index].TurnStart? {
        return Some(events[index].turn);
      }
    }
    turn := None;
  }

  // ---- the folded turn list ----

  /** Position of the record of turn `k`, or the length when there is none. */
  function Find(records: seq<TurnRecord>, k: int): (i: nat)
    ensures i <= |records|
    ensures i < |records| ==> records[i].turnId == k
    ensures forall j | 0 <= j < i :: records[j].turnId != k
  {
    if records == [] then 0
    else if records[0].turnId == k then 0
    else 1 + Find(records[1..], k)
  }

  function RecordOf(records: seq<TurnRecord>, k: int): Option<TurnRecord> {
    var i := Find(records, k);
    if i < |records| then Some(records[i]) else None
  }

  /** An insertion-ordered map update: a known turn keeps its place. */
  function Put(records: seq<TurnRecord>, record: TurnRecord): seq<TurnRecord> {
    var i := Find(records, record.turnId);
    if i < |records| then records[i := record] else records + [record]
  }

  function Apply(records: seq<TurnRecord>, e: SessionEvent): seq<TurnRecord> {
    match e
    case TurnStart(k) => Put(records, TurnRecord(k, "running", None, None))
    case AssistantMessage(k, message) =>
      var record := RecordOf(records, k);
      if record.Some? && MessageText(message) != ""
      then Put(records, record.value.(finalMessage := Some(MessageText(message))))
      else records
    case TurnEnd(k, reason) =>
      var record := RecordOf(records, k);
      if record.Some?
      then Put(records, record.value.(status := MapTurnEnd(reason).0, reason := Some(reason.kind)))
      else records
    case OtherEvent(_, _) => records
  }

  function Fold(events: seq<SessionEvent>): seq<TurnRecord> {
    if events == [] then [] else Apply(Fold(events[..|events| - 1]), events[|events| - 1])
  }

  method FoldTurns(events: seq<SessionEvent>) returns (turns: seq<TurnRecord>)
    ensures turns == Fold(events)
  {
    turns := [];
    for n := 0 to |events|
      invariant turns == Fold(events[..n])
    {
      assert events[..n + 1][..n] == events[..n];
      var event := events[n];
      match event {
        case TurnStart(turn) =>
          turns := Put(turns, TurnRecord(turn, "running", None, None));
        case AssistantMessage(turn, message) =>
          var text := JoinTextBlocks(message.Get("content"));
          var record := RecordOf(turns, turn);
          if record.Some? && text != "" {
            turns := Put(turns, record.value.(finalMessage := Some(text)));
          }
        case TurnEnd(turn, reason) =>
          var record := RecordOf(turns, turn);
          if record.Some? {
            var (status, _) := MapTurnEnd(reason);
            turns := Put(turns, record.value.(status := status, reason := Some(reason.kind)));
          }
        case OtherEvent(_, _) =>
      }
    }
    assert events[..|events|] == events;
  }

  // ---- what the fold means, turn by turn ----

  /** The last end of turn `k` in `events`. */
  function LastEnd(events: seq<SessionEvent>, k: int): Option<Reason> {
    if events == [] then None
    else
      var e := events[|events| - 1];
      if e.TurnEnd? && e.turn == k then Some(e.reason) else LastEnd(events[..|events| - 1], k)
  }

  /** The last nonempty assistant text of turn `k` in `events`. */
  function LastText(events: seq<SessionEvent>, k: int): Option<string> {
    if events == [] then None
    else
      var e := events[|events| - 1];
      if e.AssistantMessage? && e.turn == k && MessageText(e.message) != "" then Some(MessageText(e.message))
      else LastText(events[..|events| - 1], k)
  }

  /** What the log after a turn's start says about it. */
  function RecordAfterStart(k: int, later: seq<SessionEvent>): TurnRecord {
    match LastEnd(later, k)
    case None => TurnRecord(k, "running", None, LastText(later, k))
    case Some(reason) => TurnRecord(k, MapTurnEnd(reason).0, Some(reason.kind), LastText(later, k))
  }

  lemma {:induction false} FindPut(records: seq<TurnRecord>, record: TurnRecord, k: int)
    ensures RecordOf(Put(records, record), k) == if record.turnId == k then Some(record) else RecordOf(records, k)
  {
    var after := Put(records, record);
    var p := Find(records, record.turnId);
    if record.turnId == k {
      FindIs(after, k, p);
    } else if Find(records, k) < |records| {
      FindIs(after, k, Find(records, k));
    } else {
      FindIs(after, k, |after|);
    }
  }

  lemma FindIs(records: seq<TurnRecord>, k: int, i: nat)
    requires i <= |records| && (i < |records| ==> records[i].turnId == k)
    requires forall j | 0 <= j < i :: records[j].turnId != k
    ensures Find(records, k) == i
  {
  }

  /** One event changes only the record of its own turn. */
  function ApplyToRecord(record: Option<TurnRecord>, e: SessionEvent, k: int): (after: Option<TurnRecord>)
    ensures record.Some? ==> after.Some?
  {
    match e
    case TurnStart(j) => if j == k then Some(TurnRecord(k, "running", None, None)) else record
    case AssistantMessage(j, message) =>
      if j == k && record.Some? && MessageText(message) != ""
      then Some(record.value.(finalMessage := Some(MessageText(message)))) else record
    case TurnEnd(j, reason) =>
      if j == k && record.Some?
      then Some(record.value.(status := MapTurnEnd(reason).0, reason := Some(reason.kind))) else record
    case OtherEvent(_, _) => record
  }

  lemma ApplyPerTurn(records: seq<TurnRecord>, e: SessionEvent, k: int)
    ensures RecordOf(Apply(records, e), k) == ApplyToRecord(RecordOf(records, k), e, k)
  {
    match e
    case TurnStart(j) => FindPut(records, TurnRecord(j, "running", None, None), k);
    case AssistantMessage(j, message) =>
      var record := RecordOf(records, j);
      if record.Some? {
        FindPut(records, record.value.(finalMessage := Some(MessageText(message))), k);
      }
    case TurnEnd(j, reason) =>
      var record := RecordOf(records, j);
      if record.Some? {
        FindPut(records, record.value.(status := MapTurnEnd(reason).0, reason := Some(reason.kind)), k);
      }
    case OtherEvent(_, _) =>
  }

  lemma RecordAfterStartStep(k: int, later: seq<SessionEvent>, e: SessionEvent)
    requires e != TurnStart(k)
    ensures RecordAfterStart(k, later + [e]) == ApplyToRecord(Some(RecordAfterStart(k, later)), e, k).value
  {
    var all := later + [e];
    assert all[..|all| - 1] == later && all[|all| - 1] == e;
  }

  /** The whole fold restricted to one turn: it depends only on the log after that turn's latest start. */
  lemma {:induction false} FoldIsLatestStart(events: seq<SessionEvent>, start: nat, k: int)
    requires start < |events| && events[start] == TurnStart(k)
    requires forall j | start < j < |events| :: events[j] != TurnStart(k)
    ensures RecordOf(Fold(events), k) == Some(RecordAfterStart(k, events[start + 1..]))
  {
    var n := |events| - 1;
    FoldNext(events, k);
    if start < n {
      FoldIsLatestStart(events[..n], start, k);
      var later := events[..n][start + 1..];
      assert events[start + 1..] == later + [events[n]];
      RecordAfterNext(RecordOf(Fold(events[..n]), k), RecordOf(Fold(events), k), k, later, events[n]);
    } else {
      assert events[start + 1..] == [];
    }
  }

  lemma RecordAfterNext(
      before: Option<TurnRecord>, after: Option<TurnRecord>, k: int, later: seq<SessionEvent>, e: SessionEvent)
    requires before == Some(RecordAfterStart(k, later)) && after == ApplyToRecord(before, e, k) && e != TurnStart(k)
    ensures after == Some(RecordAfterStart(k, later + [e]))
  {
    RecordAfterStartStep(k, later, e);
  }

  lemma FoldNext(events: seq<SessionEvent>, k: int)
    requires events != []
    ensures var n := |events| - 1;
      RecordOf(Fold(events), k) == ApplyToRecord(RecordOf(Fold(events[..n]), k), events[n], k)
  {
    ApplyPerTurn(Fold(events[..|events| - 1]), events[|events| - 1], k);
  }

  /** A started turn is recorded with its last end and last text since, as that end is reported. */
  lemma FoldedAsEnded(events: seq<SessionEvent>, start: nat, k: int)
    requires start < |events| && events[start] == TurnStart(k)
    requires forall j | start < j < |events| :: events[j] != TurnStart(k)
    ensures var record, later := RecordOf(Fold(events), k), events[start + 1..];
      && record.Some? && record.value.turnId == k
      && RecordedAs(record.value, LastEnd(later, k)) && record.value.finalMessage == LastText(later, k)
  {
    FoldIsLatestStart(events, start, k);
    RecordIsAsEnded(k, events[start + 1..]);
  }

  lemma RecordIsAsEnded(k: int, later: seq<SessionEvent>)
    ensures RecordedAs(RecordAfterStart(k, later), LastEnd(later, k))
  {
  }

  lemma {:induction false} FoldWithoutStart(events: seq<SessionEvent>, k: int)
    requires forall j | 0 <= j < |events| :: events[j] != TurnStart(k)
    ensures RecordOf(Fold(events), k) == None
  {
    if events != [] {
      var n := |events| - 1;
      FoldWithoutStart(events[..n], k);
      ApplyPerTurn(Fold(events[..n]), events[n], k);
    }
  }

  /** What the log said before a turn started does not matter to its record. */
  lemma FoldIgnoresEarlier(earlier: seq<SessionEvent>, events: seq<SessionEvent>, k: int)
    requires TurnStart(k) in events
    ensures RecordOf(Fold(earlier + events), k) == RecordOf(Fold(events), k)
  {
    var start := LatestStart(events, k);
    FoldIsLatestStart(events, start, k);
    FoldIsLatestStart(earlier + events, |earlier| + start, k);
    assert (earlier + events)[|earlier| + start + 1..] == events[start + 1..];
  }

  function LatestStart(events: seq<SessionEvent>, k: int): (i: nat)
    requires TurnStart(k) in events
    ensures i < |events| && events[i] == TurnStart(k) && forall j | i < j < |events| :: events[j] != TurnStart(k)
  {
    if events[|events| - 1] == TurnStart(k) then |events| - 1 else LatestStart(events[..|events| - 1], k)
  }

  ghost predicate UniqueStarts(events: seq<SessionEvent>) {
    forall i, j | 0 <= i < j < |events| && events[i].TurnStart? && events[j].TurnStart? ::
      events[i].turn != events[j].turn
  }

  function Starts(events: seq<SessionEvent>): seq<int> {
    if events == [] then []
    else Starts(events[..|events| - 1]) + if events[|events| - 1].TurnStart? then [events[|events| - 1].turn] else []
  }

  function TurnIds(records: seq<TurnRecord>): seq<int> {
    seq(|records|, i requires 0 <= i < |records| => records[i].turnId)
  }

  /** With unique starts the records are the started turns, in log order. */
  lemma {:induction false} FoldOrder(events: seq<SessionEvent>)
    requires UniqueStarts(events)
    ensures TurnIds(Fold(events)) == Starts(events)
  {
    if events != [] {
      var n := |events| - 1;
      FoldOrder(events[..n]);
      if events[n].TurnStart? {
        FoldWithoutStart(events[..n], events[n].turn);
      }
    }
  }

  lemma {:induction false} LastTurnIsLastStart(events: seq<SessionEvent>)
    ensures LastTurn(events) == if Starts(events) == [] then None else Some(Starts(events)[|Starts(events)| - 1])
  {
    if events != [] {
      LastTurnIsLastStart(events[..|events| - 1]);
    }
  }
}
