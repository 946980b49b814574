/**
 * One thread's bridge turn: submitted, claimed or timed out, then completed.
 * `trace` is the history of what was broadcast; `submitted`, `claimed` and `timedOut` are histories too.
 */
module Turns {
  import opened Wrappers
  import opened SessionLog

  datatype Inflight = Inflight(messageId: string, turnId: Option<int>, finalMessage: Option<string>,
    awaitingClaim: bool)

  datatype Summary = Summary(turn: int, status: string, reason: string, error: Option<string>,
    finalMessage: Option<string>)

  datatype Note = Started(messageId: string, turn: int) | Completed(summary: Summary)

  datatype TurnState = TurnState(
    inflight: Option<Inflight>,
    trace: seq<Note>,
    submitted: set<string>,
    claimed: set<string>,
    timedOut: set<string>)

  const IDLE := TurnState(None, [], {}, {}, {})

  datatype Input =
    | Submit(messageId: string)
    | Claim(messageId: string, turn: int)
    | Timeout(messageId: string)
    | Log(event: SessionEvent)

  /** The turn number this thread's bridge turn has been given, if any. */
  function CurrentTurn(ts: TurnState): Option<int> {
    if ts.inflight.Some? then ts.inflight.value.turnId else None
  }

  /** What an input broadcasts about turns. */
  function NoteFor(ts: TurnState, input: Input): Option<Note> {
    match input
    case Claim(m, turn) =>
      if ts.inflight.Some? && ts.inflight.value.messageId == m then Some(Started(m, turn)) else None
    case Log(TurnEnd(turn, reason)) =>
      if CurrentTurn(ts) == Some(turn)
      then Some(Completed(Summary(turn, MapTurnEnd(reason).0, reason.kind, MapTurnEnd(reason).1,
        ts.inflight.value.finalMessage)))
      else None
    case _ => None
  }

  function NextInflight(ts: TurnState, input: Input): Option<Inflight> {
    match input
    case Submit(m) => if ts.inflight.None? then Some(Inflight(m, None, None, true)) else ts.inflight
    case Claim(m, turn) =>
      if ts.inflight.Some? && ts.inflight.value.messageId == m
      then Some(ts.inflight.value.(turnId := Some(turn), awaitingClaim := false)) else ts.inflight
    case Timeout(m) =>
      if ts.inflight.Some? && ts.inflight.value.messageId == m && ts.inflight.value.awaitingClaim then None
      else ts.inflight
    case Log(AssistantMessage(turn, message)) =>
      if CurrentTurn(ts) == Some(turn) && MessageText(message) != ""
      then Some(ts.inflight.value.(finalMessage := Some(MessageText(message)))) else ts.inflight
    case Log(TurnEnd(turn, _)) => if CurrentTurn(ts) == Some(turn) then None else ts.inflight
    case Log(_) => ts.inflight
  }

  function Advance(ts: TurnState, input: Input): TurnState {
    var inflight := NextInflight(ts, input);
    TurnState(
      inflight,
      match NoteFor(ts, input) { case Some(note) => ts.trace + [note] case None => ts.trace },
      if input.Submit? && ts.inflight.None? then ts.submitted + {input.messageId} else ts.submitted,
      if input.Claim? then ts.claimed + {input.messageId} else ts.claimed,
      if input.Timeout? && inflight != ts.inflight then ts.timedOut + {input.messageId} else ts.timedOut)
  }

  /** What dsh promises: a message is claimed at most once and submitted message ids are fresh. */
  predicate Allowed(ts: TurnState, input: Input) {
    match input
    case Submit(m) => m !in ts.submitted
    case Claim(m, _) => m !in ts.claimed
    case _ => true
  }

  // ---- alternation ----

  ghost predicate Alternates(trace: seq<Note>, open: Option<int>) {
    && (forall i | 0 <= i < |trace| :: trace[i].Started? == (i % 2 == 0))
    && (forall i | 0 < i < |trace| && trace[i].Completed? ::
      trace[i - 1].Started? && trace[i].summary.turn == trace[i - 1].turn)
    && (open.Some? == (|trace| % 2 == 1))
    && (open.Some? ==> trace[|trace| - 1].Started? && trace[|trace| - 1].turn == open.value)
  }

  ghost predicate Announced(trace: seq<Note>, m: string) {
    exists i | 0 <= i < |trace| :: trace[i].Started? && trace[i].messageId == m
  }

  /** Holds of every thread's turn state in every run. */
  ghost predicate TurnInv(ts: TurnState) {
    && Alternates(ts.trace, CurrentTurn(ts))
    && (forall i | 0 <= i < |ts.trace| && ts.trace[i].Started? ::
      ts.trace[i].messageId in ts.claimed && ts.trace[i].messageId in ts.submitted)
    && (forall m | m in ts.timedOut :: m in ts.submitted && !Announced(ts.trace, m))
    && (ts.inflight.Some? ==>
          var i := ts.inflight.value;
          && i.messageId in ts.submitted && i.messageId !in ts.timedOut
          && (i.awaitingClaim == i.turnId.None?)
          && (i.awaitingClaim ==> i.finalMessage.None? && !Announced(ts.trace, i.messageId))
          && (!i.awaitingClaim ==> i.messageId in ts.claimed))
  }

  lemma AdvanceKeepsInv(ts: TurnState, input: Input)
    requires TurnInv(ts) && Allowed(ts, input)
    ensures TurnInv(Advance(ts, input))
  {
    var next := Advance(ts, input);
    if NoteFor(ts, input).Some? {
      assert forall i | 0 <= i < |ts.trace| :: next.trace[i] == ts.trace[i];
    }
  }

  /**
   * A turn in flight is dropped by exactly its own end and its own unclaimed timeout, and numbered by exactly its own
   * claim; a submission displaces nothing, and with nothing in flight it alone starts a turn.
   */
  lemma InflightChangesExactly(ts: TurnState, input: Input)
    ensures ts.inflight.None? ==>
      Advance(ts, input).inflight == if input.Submit? then Some(Inflight(input.messageId, None, None, true)) else None
    ensures ts.inflight.Some? ==>
      var turn, next := ts.inflight.value, Advance(ts, input).inflight;
      && (next.None? <==>
            || (input == Timeout(turn.messageId) && turn.awaitingClaim)
            || (input.Log? && input.event.TurnEnd? && turn.turnId == Some(input.event.turn)))
      && (next.Some? ==>
            var claimed := input.Claim? && input.messageId == turn.messageId;
            && next.value.messageId == turn.messageId
            && next.value.turnId == (if claimed then Some(input.turn) else turn.turnId)
            && next.value.awaitingClaim == (turn.awaitingClaim && !claimed))
  {
  }

  // ---- online summaries against the folded log ----

  function Run(inputs: seq<Input>): TurnState {
    if inputs == [] then IDLE else Advance(Run(inputs[..|inputs| - 1]), inputs[|inputs| - 1])
  }

  ghost predicate Legal(inputs: seq<Input>) {
    inputs == [] || (Legal(inputs[..|inputs| - 1]) && Allowed(Run(inputs[..|inputs| - 1]), inputs[|inputs| - 1]))
  }

  lemma RunAppend(inputs: seq<Input>, input: Input)
    requires Legal(inputs) && Allowed(Run(inputs), input)
    ensures Legal(inputs + [input]) && Run(inputs + [input]) == Advance(Run(inputs), input)
  {
    assert (inputs + [input])[..|inputs|] == inputs;
  }

  function LogOf(inputs: seq<Input>): seq<SessionEvent> {
    if inputs == [] then []
    else
      var last := inputs[|inputs| - 1];
      LogOf(inputs[..|inputs| - 1]) + if last.Log? then [last.event] else []
  }

  predicate IsText(input: Input, k: int) {
    input.Log? && input.event.AssistantMessage? && input.event.turn == k && MessageText(input.event.message) != ""
  }

  predicate IsOpening(input: Input, k: int) {
    (input.Claim? && input.turn == k) || input == Log(TurnStart(k))
  }

  /** Claim and turn/start come before the turn's messages. */
  ghost predicate TextsFollowOpening(inputs: seq<Input>, k: int) {
    forall i, j | 0 <= i < j < |inputs| && IsText(inputs[i], k) :: !IsOpening(inputs[j], k)
  }

  ghost predicate HasText(inputs: seq<Input>, k: int) {
    exists i | 0 <= i < |inputs| :: IsText(inputs[i], k)
  }

  lemma {:induction false} RunInv(inputs: seq<Input>)
    requires Legal(inputs)
    ensures TurnInv(Run(inputs))
  {
    if inputs != [] {
      RunInv(inputs[..|inputs| - 1]);
      AdvanceKeepsInv(Run(inputs[..|inputs| - 1]), inputs[|inputs| - 1]);
    }
  }

  /** The online text of turn `k` agrees with its folded record; before any text both are empty. */
  ghost predicate Tracks(record: Option<TurnRecord>, ts: TurnState, k: int, anyText: bool) {
    && (!anyText && record.Some? ==> record.value.finalMessage == None)
    && (CurrentTurn(ts) == Some(k) ==>
          && (!anyText ==> ts.inflight.value.finalMessage == None)
          && (record.Some? ==> record.value.finalMessage == ts.inflight.value.finalMessage))
  }

  lemma TracksStep(record: Option<TurnRecord>, ts: TurnState, k: int, anyText: bool, input: Input)
    requires TurnInv(ts) && Allowed(ts, input) && Tracks(record, ts, k, anyText)
    requires anyText ==> !IsOpening(input, k)
    ensures Tracks(if input.Log? then ApplyToRecord(record, input.event, k) else record,
                   Advance(ts, input), k, anyText || IsText(input, k))
  {
  }

  lemma {:induction false} OnlineTracksFold(inputs: seq<Input>, k: int)
    requires Legal(inputs) && TextsFollowOpening(inputs, k)
    ensures Tracks(RecordOf(Fold(LogOf(inputs)), k), Run(inputs), k, HasText(inputs, k))
  {
    if inputs != [] {
      var n := |inputs| - 1;
      var before, input := inputs[..n], inputs[n];
      OnlineTracksFold(before, k);
      RunInv(before);
      TextSoFar(inputs, k);
      LogStep(inputs, k);
      TracksStep(RecordOf(Fold(LogOf(before)), k), Run(before), k, HasText(before, k), input);
    }
  }

  lemma TextSoFar(inputs: seq<Input>, k: int)
    requires inputs != []
    ensures var n := |inputs| - 1;
      && HasText(inputs, k) == (HasText(inputs[..n], k) || IsText(inputs[n], k))
      && (TextsFollowOpening(inputs, k) && HasText(inputs[..n], k) ==> !IsOpening(inputs[n], k))
  {
    var n := |inputs| - 1;
    if i :| 0 <= i < n && IsText(inputs[..n][i], k) {
      assert IsText(inputs[i], k);
    }
    if i :| 0 <= i < |inputs| && IsText(inputs[i], k) {
      assert i == n || IsText(inputs[..n][i], k);
    }
  }

  lemma LogStep(inputs: seq<Input>, k: int)
    requires inputs != []
    ensures var n := |inputs| - 1;
      var record := RecordOf(Fold(LogOf(inputs[..n])), k);
      RecordOf(Fold(LogOf(inputs)), k) == if inputs[n].Log? then ApplyToRecord(record, inputs[n].event, k) else record
  {
    var n := |inputs| - 1;
    var log, before := LogOf(inputs), LogOf(inputs[..n]);
    if inputs[n].Log? {
      ApplyPerTurn(Fold(before), inputs[n].event, k);
      assert log[..|log| - 1] == before && log[|log| - 1] == inputs[n].event;
    } else {
      assert log == before;
    }
  }

  /**
   * The summary broadcast when turn `k` ends is the record `thread/read` would fold from the log
   * up to that very event.
   */
  lemma {:induction false} OnlineEqualsOffline(inputs: seq<Input>, k: int, reason: Reason)
    requires Legal(inputs + [Log(TurnEnd(k, reason))])
    requires TextsFollowOpening(inputs, k)
    requires TurnStart(k) in LogOf(inputs)
    requires CurrentTurn(Run(inputs)) == Some(k)
    ensures var note := NoteFor(Run(inputs), Log(TurnEnd(k, reason)));
      var record := RecordOf(Fold(LogOf(inputs) + [TurnEnd(k, reason)]), k);
      && note.Some? && note.value.Completed? && record.Some?
      && note.value.summary.turn == k
      && note.value.summary.status == record.value.status
      && Some(note.value.summary.reason) == record.value.reason
      && note.value.summary.finalMessage == record.value.finalMessage
      && EndsAs(reason, note.value.summary.status, note.value.summary.error)
  {
    var all := inputs + [Log(TurnEnd(k, reason))];
    assert all[..|inputs|] == inputs;
    OnlineTracksFold(inputs, k);
    var log := LogOf(inputs);
    StartedHasRecord(log, k);
    ApplyPerTurn(Fold(log), TurnEnd(k, reason), k);
    assert (log + [TurnEnd(k, reason)])[..|log|] == log;
  }

  lemma {:induction false} StartedHasRecord(log: seq<SessionEvent>, k: int)
    requires TurnStart(k) in log
    ensures RecordOf(Fold(log), k).Some?
  {
    var n := |log| - 1;
    ApplyPerTurn(Fold(log[..n]), log[n], k);
    if log[n] != TurnStart(k) {
      assert TurnStart(k) in log[..n];
      StartedHasRecord(log[..n], k);
    }
  }

  // ---- the in-flight turn's text is the log's last ----

  function LogText(inputs: seq<Input>, k: int): Option<string> {
    LastText(LogOf(inputs), k)
  }

  lemma LogTextStep(inputs: seq<Input>, k: int)
    requires inputs != []
    ensures var last := inputs[|inputs| - 1];
      LogText(inputs, k) == if IsText(last, k) then Some(MessageText(last.event.message))
        else LogText(inputs[..|inputs| - 1], k)
  {
    var before, last := LogOf(inputs[..|inputs| - 1]), inputs[|inputs| - 1];
    if last.Log? {
      assert LogOf(inputs)[..|before|] == before;
    } else {
      assert LogOf(inputs) == before;
    }
  }

  lemma {:induction false} LogTextIsSaid(inputs: seq<Input>, k: int)
    ensures LogText(inputs, k).Some? == HasText(inputs, k)
  {
    if inputs != [] {
      LogTextStep(inputs, k);
      LogTextIsSaid(inputs[..|inputs| - 1], k);
      TextSoFar(inputs, k);
    }
  }

  /** What the in-flight turn holds as its message, against the log's last text. */
  ghost predicate HoldsLast(ts: TurnState, k: int, text: Option<string>) {
    CurrentTurn(ts) == Some(k) ==> ts.inflight.value.finalMessage == text
  }

  lemma HoldsLastStep(ts: TurnState, k: int, text: Option<string>, input: Input)
    requires TurnInv(ts) && Allowed(ts, input) && HoldsLast(ts, k, text)
    requires IsOpening(input, k) ==> text.None?
    ensures HoldsLast(Advance(ts, input), k, if IsText(input, k) then Some(MessageText(input.event.message)) else text)
  {
  }

  /** The text kept for the claimed turn is the last the log holds of it. */
  lemma {:induction false} OnlineTextIsLast(inputs: seq<Input>, k: int)
    requires Legal(inputs) && TextsFollowOpening(inputs, k)
    ensures HoldsLast(Run(inputs), k, LogText(inputs, k))
  {
    if inputs != [] {
      var before, last := inputs[..|inputs| - 1], inputs[|inputs| - 1];
      TextSoFar(inputs, k);
      LogTextIsSaid(before, k);
      OnlineTextIsLast(before, k);
      RunInv(before);
      LogTextStep(inputs, k);
      HoldsLastStep(Run(before), k, LogText(before, k), last);
    }
  }
}
