/** Facts that tie the plugin's session log to what the dsh CLI makes of it: message text and the active turn. */
module Compose {
  import opened Wrappers
  import opened JsonValue
  import opened RequestIds
  import opened SessionLog
  import opened Normalize
  import opened ClientWire
  import Decimal
  import Protocol
  import Turns

  // ---- one message ----

  /**
   * Array content, or no bare `text` to fall back on. When the message is not an object the CLI looks in the data
   * around it, where nothing may stand in its place.
   */
  predicate TextAgrees(data: Value) {
    var body := Body(data);
    if GetOrNull(data, "message").Obj? then GetOrNull(body, "content").Arr? || GetStr(body, "text").GetOr("") == ""
    else if GetOrNull(body, "content").Arr? then TextOf(GetOrNull(body, "content").items) == ""
    else GetStr(body, "text").GetOr("") == ""
  }

  /** The CLI and the plugin read the same text out of a message exactly when that holds. */
  lemma MessageTextAgreesExactly(turn: int, message: Value, data: Value)
    requires DataFits(AssistantMessage(turn, message), data)
    ensures EventMessage(data) == Nonempty(MessageText(message)) <==> TextAgrees(data)
  {
    if message.Obj? && GetOrNull(message, "content").Arr? {
      TextOfIsJoined(message.Get("content").value.items);
    }
  }

  /** A message with a bare text and no array content: the CLI shows the text, the plugin has none. */
  lemma BareTextDiffers()
    ensures var message := Obj(map["text" := Str("hi")]);
      var data := Obj(map["turn" := Int(1), "message" := message]);
      && DataFits(AssistantMessage(1, message), data)
      && EventMessage(data) == Some("hi") && MessageText(message) == ""
  {
    var message := Obj(map["text" := Str("hi")]);
    var data := Obj(map["turn" := Int(1), "message" := message]);
    assert data.Get("message") == Some(message) && data.Get("turn") == Some(Int(1));
    assert message.Get("content") == None && GetStr(message, "text") == Some("hi");
  }

  // ---- completions ----

  /**
   * The CLI accepts every completion the plugin broadcasts: none is missing a turn or a status, none has an unknown
   * one.
   */
  lemma CompletionsAreAccepted(ts: Turns.TurnState, input: Turns.Input, detail: Detail, c: Context)
    requires Turns.NoteFor(ts, input).Some? && Turns.NoteFor(ts, input).value.Completed? && !c.replyPending
    ensures var summary := Turns.NoteFor(ts, input).value.summary;
      var event := Normalized(Dsh, EventOfFrame(Protocol.CompletedFrame(c.threadId, summary), detail), c);
      && event.Ok?
      && (if c.turnId.None? || c.turnId == Some(Decimal.Print(summary.turn))
          then event.value.TurnCompleted? && event.value.turnId == Some(Decimal.Print(summary.turn))
               && event.value.status == summary.status && event.value.finalMessage == summary.finalMessage
          else event.value.Ignore?)
      && (summary.status == "failed" <==> summary.error.Some?)
  {
    SummaryReadsBack(c.threadId, Turns.NoteFor(ts, input).value.summary);
  }

  lemma SummaryReadsBack(t: string, summary: Turns.Summary)
    ensures var params := SummaryParams(t, summary);
      && GetStr(params, "threadId") == Some(t) && params.Get("turnId") == Some(Int(summary.turn))
      && GetStr(params, "status") == Some(summary.status) && GetStr(params, "finalMessage") == summary.finalMessage
  {
  }

  // ---- the active turn ----

  datatype ClientTurn = ClientTurn(id: Option<string>, running: bool)

  /** A folded record as `thread/read` returns it. */
  function RecordJson(record: TurnRecord): Value {
    Obj(map["turnId" := Int(record.turnId), "status" := Str(record.status)]
        + Optional("reason", record.reason) + Optional("finalMessage", record.finalMessage))
  }

  function ClientTurnOf(turn: Value): ClientTurn {
    ClientTurn(TurnIdOf(turn.Get("turnId")), GetStr(turn, "status") in [Some("running"), Some("inProgress")])
  }

  function ClientTurns(records: seq<TurnRecord>): seq<ClientTurn> {
    seq(|records|, i requires 0 <= i < |records| => ClientTurnOf(RecordJson(records[i])))
  }

  /** The id of the last running turn. */
  function ActiveTurn(turns: seq<ClientTurn>): Option<string> {
    if turns == [] then None
    else if turns[|turns| - 1].running then turns[|turns| - 1].id
    else ActiveTurn(turns[..|turns| - 1])
  }

  method FindActiveTurn(turns: seq<ClientTurn>) returns (id: Option<string>)
    ensures id == ActiveTurn(turns)
  {
    assert turns[..|turns|] == turns;
    var n := |turns|;
    while n > 0
      invariant 0 <= n <= |turns|
      invariant ActiveTurn(turns) == ActiveTurn(turns[..n])
    {
      assert turns[..n][..n - 1] == turns[..n - 1];
      n := n - 1;
      if turns[n].running {
        return turns[n].id;
      }
    }
    id := None;
  }

  lemma RecordReadsBack(record: TurnRecord)
    ensures ClientTurnOf(RecordJson(record))
      == ClientTurn(Some(Decimal.Print(record.turnId)), record.status in ["running", "inProgress"])
  {
    var json := RecordJson(record);
    assert json.Get("turnId") == Some(Int(record.turnId)) && json.Get("status") == Some(Str(record.status));
  }

  /** Only records with an earlier place are looked at when the last one is not running. */
  lemma {:induction false} ActiveIsRecorded(records: seq<TurnRecord>)
    ensures var id := ActiveTurn(ClientTurns(records));
      id.Some? ==> exists i :: 0 <= i < |records| && id.value == Decimal.Print(records[i].turnId)
                              && records[i].status in ["running", "inProgress"]
  {
    if records != [] {
      var init, last := records[..|records| - 1], records[|records| - 1];
      ActiveIsRecorded(init);
      RecordReadsBack(last);
      assert ClientTurns(records)[..|records| - 1] == ClientTurns(init);
      if last.status in ["running", "inProgress"] {
        assert records[|records| - 1] == last;
      } else {
        var id := ActiveTurn(ClientTurns(init));
        if id.Some? {
          var i :| 0 <= i < |init| && id.value == Decimal.Print(init[i].turnId)
            && init[i].status in ["running", "inProgress"];
          assert records[i] == init[i];
        }
      }
    }
  }

  /** Whether the log's last started turn has not ended since it started. */
  ghost predicate LastTurnRuns(log: seq<SessionEvent>) {
    LastTurn(log).Some? && LastRunning(log, LastTurn(log).value)
  }

  ghost predicate LastRunning(log: seq<SessionEvent>, k: int) {
    RecordOf(Fold(log), k).Some? && RecordOf(Fold(log), k).value.status == "running"
  }

  /** The record of a started turn is running exactly while the log after its start holds no end of it. */
  lemma RunningUntilItsEnd(log: seq<SessionEvent>, start: nat, k: int)
    requires start < |log| && log[start] == TurnStart(k) && forall j | start < j < |log| :: log[j] != TurnStart(k)
    ensures LastRunning(log, k) <==> LastEnd(log[start + 1..], k).None?
  {
    FoldIsLatestStart(log, start, k);
  }

  lemma UniqueIds(log: seq<SessionEvent>)
    requires UniqueStarts(log)
    ensures forall i, j | 0 <= i < j < |Fold(log)| :: Fold(log)[i].turnId != Fold(log)[j].turnId
  {
    FoldOrder(log);
    StartsDistinct(log);
    assert forall i | 0 <= i < |Fold(log)| :: Fold(log)[i].turnId == Starts(log)[i];
  }

  lemma {:induction false} StartsDistinct(log: seq<SessionEvent>)
    requires UniqueStarts(log)
    ensures forall i, j | 0 <= i < j < |Starts(log)| :: Starts(log)[i] != Starts(log)[j]
    ensures forall x | x in Starts(log) :: TurnStart(x) in log
  {
    if log != [] {
      StartsDistinct(log[..|log| - 1]);
    }
  }

  lemma ActiveIsLastRecord(records: seq<TurnRecord>)
    requires records != []
    requires forall i, j | 0 <= i < j < |records| :: records[i].turnId != records[j].turnId
    ensures var last := records[|records| - 1];
      ActiveTurn(ClientTurns(records)) == Some(Decimal.Print(last.turnId)) <==> last.status in ["running", "inProgress"]
  {
    var n := |records| - 1;
    RecordReadsBack(records[n]);
    ActiveIsRecorded(records);
    var active := ActiveTurn(ClientTurns(records));
    if active == Some(Decimal.Print(records[n].turnId)) {
      var i :| 0 <= i < |records| && active.value == Decimal.Print(records[i].turnId)
        && records[i].status in ["running", "inProgress"];
      Decimal.PrintInjective(records[i].turnId, records[n].turnId);
      assert i == n;
    }
  }

  lemma LastRecordIsLastTurn(log: seq<SessionEvent>)
    requires UniqueStarts(log)
    ensures Fold(log) == [] <==> LastTurn(log).None?
    ensures Fold(log) != [] ==>
      var last := Fold(log)[|Fold(log)| - 1];
      LastTurn(log) == Some(last.turnId) && RecordOf(Fold(log), last.turnId) == Some(last)
  {
    var records := Fold(log);
    FoldOrder(log);
    LastTurnIsLastStart(log);
    UniqueIds(log);
    assert |records| == |Starts(log)|;
    if records != [] {
      assert records[|records| - 1].turnId == Starts(log)[|records| - 1];
      FindIs(records, records[|records| - 1].turnId, |records| - 1);
    }
  }

  /**
   * The CLI's active turn over the plugin's folded log is the log's last turn exactly when that turn is
   * still running; a log without a turn has neither.
   */
  lemma ActiveTurnIsLastTurn(log: seq<SessionEvent>)
    requires UniqueStarts(log)
    ensures var active, last := ActiveTurn(ClientTurns(Fold(log))), LastTurn(log);
      && (last.None? ==> active.None?)
      && (last.Some? ==> (active == Some(Decimal.Print(last.value)) <==> LastTurnRuns(log)))
  {
    FoldIsTidy(log);
    ActiveMatches(Fold(log), LastTurn(log));
  }

  /** Distinct records, none in a foreign status, the last of them the record of the last turn. */
  ghost predicate Tidy(records: seq<TurnRecord>, last: Option<int>) {
    && (records == [] <==> last.None?)
    && (records != [] ==>
          && last == Some(records[|records| - 1].turnId)
          && RecordOf(records, records[|records| - 1].turnId) == Some(records[|records| - 1]))
    && (forall i, j | 0 <= i < j < |records| :: records[i].turnId != records[j].turnId)
    && (forall i | 0 <= i < |records| :: records[i].status != "inProgress")
  }

  lemma FoldIsTidy(log: seq<SessionEvent>)
    requires UniqueStarts(log)
    ensures Tidy(Fold(log), LastTurn(log))
  {
    LastRecordIsLastTurn(log);
    UniqueIds(log);
    FoldStatuses(log);
  }

  lemma ActiveMatches(records: seq<TurnRecord>, last: Option<int>)
    requires Tidy(records, last)
    ensures var active := ActiveTurn(ClientTurns(records));
      && (last.None? ==> active.None?)
      && (last.Some? ==>
            (active == Some(Decimal.Print(last.value))
             <==> RecordOf(records, last.value).Some? && RecordOf(records, last.value).value.status == "running"))
  {
    if records != [] {
      ActiveIsLastRecord(records);
    }
  }

  /** The fold never writes the status the CLI also accepts from other servers. */
  lemma {:induction false} FoldStatuses(log: seq<SessionEvent>)
    ensures forall i | 0 <= i < |Fold(log)| :: Fold(log)[i].status != "inProgress"
  {
    if log != [] {
      FoldStatuses(log[..|log| - 1]);
    }
  }

  /** A turn that has ended is still the log's last turn, and no turn is active. */
  lemma EndedTurnDiffers()
    ensures var log := [TurnStart(1), TurnEnd(1, Reason("completed", None))];
      UniqueStarts(log) && LastTurn(log) == Some(1) && ActiveTurn(ClientTurns(Fold(log))) == None
  {
    var log := [TurnStart(1), TurnEnd(1, Reason("completed", None))];
    var started, ended := TurnRecord(1, "running", None, None), TurnRecord(1, "completed", Some("completed"), None);
    assert log[..1] == [TurnStart(1)] && log[..1][..0] == [];
    assert Fold(log[..1]) == [started];
    assert Fold(log) == [ended];
    RecordReadsBack(ended);
    assert ClientTurns([ended])[..0] == [];
  }

  // ---- read, then steer or interrupt ----

  datatype Check = Accepted | NoActiveTurn | Mismatch(current: Option<int>)

  /** An integer parameter that may be missing; anything else is refused. */
  function OptionalNumber(value: Option<Value>): Result<Option<int>, string> {
    match value
    case None => Ok(None)
    case Some(Null) => Ok(None)
    case Some(Int(n)) => Ok(Some(n))
    case Some(Real(r)) => if r == r.Floor as real then Ok(Some(r.Floor)) else Err("must be an integer")
    case Some(_) => Err("must be an integer")
  }

  /** The turn the plugin takes to be current: the claimed bridge turn, otherwise the log's last. */
  function PluginTurn(claimed: Option<int>, log: seq<SessionEvent>): Option<int> {
    if claimed.Some? then claimed else LastTurn(log)
  }

  function SteerCheck(running: bool, claimed: Option<int>, log: seq<SessionEvent>, expected: Option<int>): Check {
    if !running then NoActiveTurn
    else if expected.Some? && PluginTurn(claimed, log) != expected then Mismatch(PluginTurn(claimed, log))
    else Accepted
  }

  function InterruptCheck(running: bool, inflight: bool, claimed: Option<int>, log: seq<SessionEvent>,
    expected: Option<int>): Check {
    var current := PluginTurn(claimed, log);
    if !inflight && !running then NoActiveTurn
    else if expected.Some? && current.Some? && current != expected then Mismatch(current)
    else Accepted
  }

  /** The named turn, if any, is the one the plugin takes to be current. */
  predicate NamesCurrent(claimed: Option<int>, log: seq<SessionEvent>, expected: Option<int>) {
    expected.None? || expected == (if claimed.Some? then claimed else LastTurn(log))
  }

  /**
   * Steering needs a running agent and the current turn, if a turn is named; interrupting accepts all that and, beyond
   * it, exactly a turn in flight on an agent that is not running, and any name while there is no turn at all.
   */
  lemma InterruptAcceptsMore(
      running: bool, inflight: bool, claimed: Option<int>, log: seq<SessionEvent>, expected: Option<int>)
    ensures var steered, interrupted :=
        SteerCheck(running, claimed, log, expected), InterruptCheck(running, inflight, claimed, log, expected);
      var named, none := NamesCurrent(claimed, log, expected), claimed.None? && LastTurn(log).None?;
      && (steered == Accepted <==> running && named)
      && (steered == NoActiveTurn <==> !running)
      && (interrupted == NoActiveTurn <==> !running && !inflight)
      && (interrupted == Accepted <==> steered == Accepted || ((running || inflight) && (named || none)))
  {
  }

  /**
   * Read, then steer or interrupt: while the log has not advanced, the id the CLI read and sends back is
   * accepted exactly when no bridge turn is claimed or the claimed one is that log turn.
   */
  lemma ReadThenSteer(log: seq<SessionEvent>, claimed: Option<int>, inflight: bool)
    requires UniqueStarts(log) && LastTurnRuns(log)
    requires Decimal.MIN_I64 <= LastTurn(log).value <= Decimal.MAX_I64
    ensures var id := ActiveTurn(ClientTurns(Fold(log)));
      && id.Some?
      && var sent := OptionalNumber(Some(TurnIdWire(id.value)));
      && sent == Ok(LastTurn(log))
      && (SteerCheck(true, claimed, log, sent.value) == Accepted <==> claimed.None? || claimed == LastTurn(log))
      && (InterruptCheck(true, inflight, claimed, log, sent.value) == Accepted <==>
        claimed.None? || claimed == LastTurn(log))
  {
    ActiveTurnIsLastTurn(log);
    TurnIdRoundTrip(LastTurn(log).value);
  }
}
