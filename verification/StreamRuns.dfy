/**
 * Whole waits in the stream's own terms: which events fold into the session's turn and text, which one ends the
 * wait, and what every request of the stream got.
 */
module StreamRuns {
  import opened Wrappers
  import opened JsonValue
  import opened RequestIds
  import opened Normalize
  import opened Session
  import SessionRuns
  import Transport

  // ---- what an event is ----

  /** Notifications the backend takes to be about this thread. */
  predicate About(cfg: Config, raw: Transport.Event) {
    raw.Notification? && AboutThread(cfg, raw.params)
  }

  predicate AboutThread(cfg: Config, params: Value) {
    match cfg.backend
    case Dsh => ThreadOf(Dsh, params) == Some(cfg.threadId)
    case Codex => ThreadOf(Codex, params).None? || ThreadOf(Codex, params) == Some(cfg.threadId)
  }

  /** The text an event leaves as the session's. */
  function TextIn(cfg: Config, raw: Transport.Event): Option<string> {
    if !About(cfg, raw) then None
    else
      match cfg.backend
      case Dsh =>
        if raw.name == "thread/event" && GetStr(raw.params, "type") == Some("assistant/message")
          && raw.params.Get("data").Some?
        then EventMessage(raw.params.Get("data").value) else None
      case Codex =>
        var item := GetOrNull(raw.params, "item");
        if raw.name == "item/completed" && GetStr(item, "type") == Some("agentMessage") then GetStr(item, "text")
        else None
  }

  /** The id of the turn an event names: dsh listens to a start only while it knows no turn. */
  function TurnIn(cfg: Config, raw: Transport.Event, turn: Option<string>): Option<string> {
    if !About(cfg, raw) then None
    else
      match cfg.backend
      case Dsh => if raw.name == "turn/started" && turn.None? then TurnIdOf(raw.params.Get("turnId")) else None
      case Codex =>
        if raw.name == "turn/started" || raw.name == "turn/completed" then GetStr(GetOrNull(raw.params, "turn"), "id")
        else None
  }

  function Either(a: Option<string>, b: Option<string>): Option<string> { if a.Some? then a else b }

  /** The session's turn and text after the events between two positions of the stream. */
  function TurnAfter(cfg: Config, feed: Feed, from: nat, to: nat, turn: Option<string>): Option<string>
    requires from <= to <= |feed.arrivals|
  {
    if from == to then turn
    else
      var before := TurnAfter(cfg, feed, from, to - 1, turn);
      Either(TurnIn(cfg, feed.arrivals[to - 1].raw, before), before)
  }

  function TextAfter(cfg: Config, feed: Feed, from: nat, to: nat, text: string): string
    requires from <= to <= |feed.arrivals|
  {
    if from == to then text
    else TextIn(cfg, feed.arrivals[to - 1].raw).GetOr(TextAfter(cfg, feed, from, to - 1, text))
  }

  /** How a turn ended, as a completion that names the session's turn reports it. */
  datatype Done = Done(turn: Option<string>, status: string, text: Option<string>, fields: Value)

  /** What an event may do to a wait other than go on: end its turn, break it, or close the stream. */
  datatype Ending = GoesOn | Ends(done: Done) | Breaks(failure: Failure) | Closes(reason: string)

  function EndingOf(cfg: Config, raw: Transport.Event, turn: Option<string>): Ending {
    if raw.Closed? then Closes(raw.reason)
    else if !About(cfg, raw) || raw.name != "turn/completed" then GoesOn
    else
      match cfg.backend
      case Dsh => DshEnding(raw.params, turn)
      case Codex =>
        var done := GetOrNull(raw.params, "turn");
        if GetStr(done, "status") == Some("inProgress") then GoesOn
        else Ends(Done(Either(GetStr(done, "id"), turn), GetStr(done, "status").GetOr("failed"), None,
          TerminalFields(Codex, done)))
  }

  function DshEnding(params: Value, turn: Option<string>): Ending {
    var id, status := TurnIdOf(params.Get("turnId")), GetStr(params, "status");
    if id.None? then Breaks(NoTurnId)
    else if turn.Some? && turn != id then GoesOn
    else if status.None? then Breaks(NoStatus)
    else if status.value !in ["completed", "failed", "interrupted"] then Breaks(UnknownStatus(status.value))
    else Ends(Done(id, status.value, GetStr(params, "finalMessage"), TerminalFields(Dsh, params)))
  }

  /** A request this backend handles: all of them for Codex, the thread's own for dsh. */
  predicate Asks(cfg: Config, raw: Transport.Event) {
    raw.ServerRequest? && (cfg.backend.Dsh? ==> ThreadOf(Dsh, raw.params) == Some(cfg.threadId))
  }

  function LineFor(cfg: Config, raw: Transport.Event): Line
    requires raw.ServerRequest?
  {
    RequestLine(raw.params.Get("threadId").GetOr(Str(cfg.threadId)), raw.id, raw.name, raw.params)
  }

  // ---- one event, no reply pending ----

  /** What one event does to the session when no reply is pending. */
  ghost predicate Handles(cfg: Config, s: State, raw: Transport.Event, now: nat, s': State, step: Step)
    requires s.taken > 0
  {
    var asked := Asks(cfg, raw);
    && s'.reply.None? && s'.taken == s.taken
    && s'.sent == s.sent + (if asked && cfg.opts.autoDecline then [Sent(Refusal(raw.id), s.taken - 1)] else [])
    && match EndingOf(cfg, raw, s.turnId)
       case Ends(done) =>
         && step == Exit(TurnOutcome(done.status))
         && s'.out.stdout == s.out.stdout
            + [TurnLine(done.status, cfg.threadId, done.turn, done.text.GetOr(s.finalMessage), done.fields)]
       case Breaks(failure) => step == Fail(failure) && s'.out.stdout == s.out.stdout
       case Closes(reason) => step == Exit(EXIT_ERROR)
         && s'.out.stdout == s.out.stdout + [ErrorLine(SocketClosed(reason))]
       case GoesOn =>
         && s'.turnId == Either(TurnIn(cfg, raw, s.turnId), s.turnId)
         && s'.finalMessage == TextIn(cfg, raw).GetOr(s.finalMessage)
         && s'.out.stdout == s.out.stdout + (if asked && !cfg.opts.autoDecline then [LineFor(cfg, raw)] else [])
         && step == if asked && !cfg.opts.autoDecline && !cfg.opts.follow then Exit(EXIT_REQUEST_PENDING) else Continue
  }

  lemma RequestHandled(cfg: Config, s: State, raw: Transport.Event, now: nat)
    requires s.taken > 0 && s.reply.None? && raw.ServerRequest?
    ensures var (s', step) := Process(cfg, s, raw, now); Handles(cfg, s, raw, now, s', step)
  {
  }

  /** A notification that neither ends, breaks nor closes, in terms of the event it normalizes to. */
  predicate NormalizesAs(cfg: Config, raw: Transport.Event, turn: Option<string>, event: Event) {
    match event
    case Ignore => TurnIn(cfg, raw, turn).None? && TextIn(cfg, raw).None?
    case Update(turnId, text, _, _) => Either(turnId, turn) == Either(TurnIn(cfg, raw, turn), turn)
      && text == TextIn(cfg, raw)
    case RequestResolved(_, _) => TurnIn(cfg, raw, turn).None? && TextIn(cfg, raw).None?
    case _ => false
  }

  /** What normalization makes of a notification, ending by ending. */
  ghost predicate Normalizes(cfg: Config, raw: Transport.Event, c: Context) {
    var event := Normalized(cfg.backend, raw, c);
    match EndingOf(cfg, raw, c.turnId)
    case GoesOn => event.Ok? && NormalizesAs(cfg, raw, c.turnId, event.value)
    case Breaks(failure) => event == Err(failure)
    case Ends(done) =>
      && event.Ok? && event.value.TurnCompleted? && Either(event.value.turnId, c.turnId) == done.turn
      && event.value.status == done.status && event.value.finalMessage == done.text && event.value.fields == done.fields
    case Closes(_) => false
  }

  lemma DshNormalizes(cfg: Config, raw: Transport.Event, c: Context)
    requires raw.Notification? && cfg.backend.Dsh? && c.threadId == cfg.threadId && !c.replyPending
    ensures Normalizes(cfg, raw, c)
  {
  }

  lemma CodexNormalizes(cfg: Config, raw: Transport.Event, c: Context)
    requires raw.Notification? && cfg.backend.Codex? && c.threadId == cfg.threadId
    ensures Normalizes(cfg, raw, c)
  {
  }

  lemma OngoingHandled(cfg: Config, s: State, raw: Transport.Event, now: nat)
    requires s.taken > 0 && s.reply.None? && raw.Notification? && Normalizes(cfg, raw, ContextOf(cfg, s))
    requires EndingOf(cfg, raw, s.turnId).GoesOn?
    ensures var (s', step) := Process(cfg, s, raw, now); Handles(cfg, s, raw, now, s', step)
  {
    var event := Normalized(cfg.backend, raw, ContextOf(cfg, s)).value;
    assert Process(cfg, s, raw, now) == Handle(cfg, WithUnsubscribe(cfg, s, raw), event, now);
    QuietEvent(cfg, WithUnsubscribe(cfg, s, raw), event, now);
  }

  lemma QuietEvent(cfg: Config, s: State, event: Event, now: nat)
    requires s.taken > 0 && s.reply.None? && (event.Ignore? || event.Update? || event.RequestResolved?)
    ensures var (s', step) := Handle(cfg, s, event, now);
      && step == Continue && s'.reply.None? && s'.taken == s.taken && s'.sent == s.sent && s'.out.stdout == s.out.stdout
      && s'.turnId == (if event.Update? then Either(event.turnId, s.turnId) else s.turnId)
      && s'.finalMessage == (if event.Update? then event.finalMessage.GetOr(s.finalMessage) else s.finalMessage)
  {
  }

  lemma EndingHandled(cfg: Config, s: State, raw: Transport.Event, now: nat)
    requires s.taken > 0 && s.reply.None? && raw.Notification? && Normalizes(cfg, raw, ContextOf(cfg, s))
    requires !EndingOf(cfg, raw, s.turnId).GoesOn?
    ensures var (s', step) := Process(cfg, s, raw, now); Handles(cfg, s, raw, now, s', step)
  {
  }

  lemma EventHandled(cfg: Config, s: State, raw: Transport.Event, now: nat)
    requires s.taken > 0 && s.reply.None?
    ensures var (s', step) := Process(cfg, s, raw, now); Handles(cfg, s, raw, now, s', step)
  {
    match raw
    case ServerRequest(_, _, _) => RequestHandled(cfg, s, raw, now);
    case Notification(_, _) =>
      if cfg.backend.Dsh? {
        DshNormalizes(cfg, raw, ContextOf(cfg, s));
      } else {
        CodexNormalizes(cfg, raw, ContextOf(cfg, s));
      }
      if EndingOf(cfg, raw, s.turnId).GoesOn? {
        OngoingHandled(cfg, s, raw, now);
      } else {
        EndingHandled(cfg, s, raw, now);
      }
    case Closed(_) =>
  }

  // ---- whole waits, no reply pending ----

  /** The refusals of the requests between two positions: one each, in order, under --auto-decline. */
  function Refusals(cfg: Config, feed: Feed, from: nat, to: nat): seq<Sent>
    requires from <= to <= |feed.arrivals|
  {
    if from == to then []
    else
      var raw := feed.arrivals[to - 1].raw;
      Refusals(cfg, feed, from, to - 1) +
        if Asks(cfg, raw) && cfg.opts.autoDecline then [Sent(Refusal(raw.id), to - 1)] else []
  }

  /** The lines of the requests between two positions: one each, in order, without --auto-decline. */
  function AskedLines(cfg: Config, feed: Feed, from: nat, to: nat): seq<Line>
    requires from <= to <= |feed.arrivals|
  {
    if from == to then []
    else
      var raw := feed.arrivals[to - 1].raw;
      AskedLines(cfg, feed, from, to - 1) + if Asks(cfg, raw) && !cfg.opts.autoDecline then [LineFor(cfg, raw)] else []
  }

  function RequestLines(lines: seq<Line>): seq<Line> {
    if lines == [] then []
    else RequestLines(lines[..|lines| - 1]) + if lines[|lines| - 1].RequestLine? then [lines[|lines| - 1]] else []
  }

  lemma RequestLinesAppend(lines: seq<Line>, line: Line)
    ensures RequestLines(lines + [line]) == RequestLines(lines) + if line.RequestLine? then [line] else []
  {
    assert (lines + [line])[..|lines|] == lines;
  }

  /** Each request taken got exactly its refusal, or exactly its line. */
  ghost predicate RequestsServed(cfg: Config, feed: Feed, start: State, s: State) {
    && start.taken <= s.taken <= |feed.arrivals|
    && s.sent == start.sent + Refusals(cfg, feed, start.taken, s.taken)
    && RequestLines(s.out.stdout) == RequestLines(start.out.stdout) + AskedLines(cfg, feed, start.taken, s.taken)
  }

  /** What the event at `j` would do to a wait that began in `start`. */
  function EndingAt(cfg: Config, feed: Feed, start: State, j: nat): Ending
    requires start.taken <= j < |feed.arrivals|
  {
    EndingOf(cfg, feed.arrivals[j].raw, TurnAfter(cfg, feed, start.taken, j, start.turnId))
  }

  /** The line a completion prints: the text it brings, otherwise the text folded so far. */
  function LineOfDone(cfg: Config, done: Done, folded: string): Line {
    TurnLine(done.status, cfg.threadId, done.turn, done.text.GetOr(folded), done.fields)
  }

  predicate LastIsTurn(lines: seq<Line>) { lines != [] && lines[|lines| - 1].TurnLine? }

  /** The session is the fold of what it took, and only the last event taken can have ended the wait. */
  ghost predicate Follows(cfg: Config, feed: Feed, start: State, s: State, end: Option<End>) {
    var from, to := start.taken, s.taken;
    && from <= to <= |feed.arrivals| && s.reply.None?
    && (forall j | from <= j < to :: EndingAt(cfg, feed, start, j).GoesOn? || (j == to - 1 && end.Some?))
    && (end.None? ==>
          && s.turnId == TurnAfter(cfg, feed, from, to, start.turnId)
          && s.finalMessage == TextAfter(cfg, feed, from, to, start.finalMessage))
  }

  /**
   * A wait printed a turn line if and only if the last event it took completes the session's turn, and it printed that.
   */
  ghost predicate EndsWithCompletion(cfg: Config, feed: Feed, start: State, s: State, end: Option<End>) {
    var from, to := start.taken, s.taken;
    && from <= to <= |feed.arrivals|
    && start.out.stdout <= s.out.stdout
    && (end.None? ==> !LastIsTurn(s.out.stdout[|start.out.stdout|..]))
    && (LastIsTurn(s.out.stdout[|start.out.stdout|..]) <==> from < to && EndingAt(cfg, feed, start, to - 1).Ends?)
    && (from < to && EndingAt(cfg, feed, start, to - 1).Ends? ==>
          var done := EndingAt(cfg, feed, start, to - 1).done;
          && end == Some(Exited(TurnOutcome(done.status)))
          && s.out.stdout[|s.out.stdout| - 1]
             == LineOfDone(cfg, done, TextAfter(cfg, feed, from, to - 1, start.finalMessage)))
  }

  lemma ServedStep(cfg: Config, feed: Feed, start: State, s: State, wake: Wake, t: nat, now: nat)
    requires RequestsServed(cfg, feed, start, s) && s.reply.None?
    requires wake.GotEvent? ==> Recv(feed, s.taken, t) == Some(wake)
    ensures RequestsServed(cfg, feed, start, React(cfg, s, wake, now).0)
  {
    if wake.GotEvent? {
      var s1 := s.(taken := s.taken + 1);
      var (s', step) := Process(cfg, s1, wake.raw, now);
      assert React(cfg, s, wake, now) == (s', step);
      EventHandled(cfg, s1, wake.raw, now);
      ServedByEvent(cfg, feed, start, s, s', wake.raw, now, step);
    } else {
      DeadlineAppends(cfg, s, wake, now);
    }
  }

  lemma ServedByEvent(cfg: Config, feed: Feed, start: State, s: State, s': State, raw: Transport.Event, now: nat,
    step: Step)
    requires RequestsServed(cfg, feed, start, s) && s.taken < |feed.arrivals| && feed.arrivals[s.taken].raw == raw
    requires Handles(cfg, s.(taken := s.taken + 1), raw, now, s', step)
    ensures RequestsServed(cfg, feed, start, s')
  {
    if s'.out.stdout != s.out.stdout {
      RequestLinesAppend(s.out.stdout, s'.out.stdout[|s.out.stdout|]);
    }
  }

  /** A deadline or the end of the stream prints one line, of neither a request nor a turn. */
  lemma DeadlineAppends(cfg: Config, s: State, wake: Wake, now: nat)
    requires !wake.GotEvent?
    ensures var s' := React(cfg, s, wake, now).0;
      && s'.sent == s.sent && s'.taken == s.taken && s'.reply == s.reply && s'.turnId == s.turnId
        && s'.finalMessage == s.finalMessage
      && |s'.out.stdout| == |s.out.stdout| + 1 && s'.out.stdout[..|s.out.stdout|] == s.out.stdout
      && !s'.out.stdout[|s.out.stdout|].TurnLine?
      && RequestLines(s'.out.stdout) == RequestLines(s.out.stdout)
  {
    var line := match wake
      case StreamEnd => ErrorLine(StreamEnded)
      case ReplyDue => ErrorLine(NotRedelivered(if s.reply.Some? then s.reply.value.id else Null))
      case StallDue => StalledLine(cfg.threadId, s.turnId, cfg.opts.stallSecs, s.finalMessage)
      case TimeoutDue => TimeoutLine(cfg.threadId, s.turnId, cfg.opts.timeoutSecs, s.finalMessage);
    RequestLinesAppend(s.out.stdout, line);
    SessionRuns.EmittedAppends(cfg, s, line);
  }

  lemma FollowsStep(cfg: Config, feed: Feed, start: State, s: State, wake: Wake, t: nat, now: nat)
    requires Follows(cfg, feed, start, s, None)
    requires wake.GotEvent? ==> Recv(feed, s.taken, t) == Some(wake)
    ensures var (s', step) := React(cfg, s, wake, now); Follows(cfg, feed, start, s', EndOf(step))
  {
    if wake.GotEvent? {
      EventHandled(cfg, s.(taken := s.taken + 1), wake.raw, now);
      var (s', step) := React(cfg, s, wake, now);
      FollowsEvent(cfg, feed, start, s, s', wake.raw, now, step);
    } else {
      DeadlineAppends(cfg, s, wake, now);
    }
  }

  lemma FollowsEvent(cfg: Config, feed: Feed, start: State, s: State, s': State, raw: Transport.Event, now: nat,
    step: Step)
    requires Follows(cfg, feed, start, s, None) && s.taken < |feed.arrivals| && feed.arrivals[s.taken].raw == raw
    requires Handles(cfg, s.(taken := s.taken + 1), raw, now, s', step)
    ensures Follows(cfg, feed, start, s', EndOf(step))
  {
  }

  lemma CompletionStep(cfg: Config, feed: Feed, start: State, s: State, wake: Wake, t: nat, now: nat)
    requires Follows(cfg, feed, start, s, None) && EndsWithCompletion(cfg, feed, start, s, None)
    requires wake.GotEvent? ==> Recv(feed, s.taken, t) == Some(wake)
    ensures var (s', step) := React(cfg, s, wake, now); EndsWithCompletion(cfg, feed, start, s', EndOf(step))
  {
    var (s', step) := React(cfg, s, wake, now);
    if wake.GotEvent? {
      EventHandled(cfg, s.(taken := s.taken + 1), wake.raw, now);
      CompletionByEvent(cfg, feed, start, s, s', wake.raw, now, step);
    } else {
      DeadlineAppends(cfg, s, wake, now);
    }
  }

  lemma CompletionByEvent(cfg: Config, feed: Feed, start: State, s: State, s': State, raw: Transport.Event, now: nat,
    step: Step)
    requires Follows(cfg, feed, start, s, None) && EndsWithCompletion(cfg, feed, start, s, None)
    requires s.taken < |feed.arrivals| && feed.arrivals[s.taken].raw == raw
    requires Handles(cfg, s.(taken := s.taken + 1), raw, now, s', step)
    ensures EndsWithCompletion(cfg, feed, start, s', EndOf(step))
  {
  }

  /**
   * A wait with no reply pending gives every request it takes exactly one refusal or exactly one line, in stream
   * order; it ends with a turn line if and only if the last event it took is a completion of the session's turn,
   * which is then the first ending of the stream, and prints that completion with the text folded before it.
   */
  lemma {:induction false} WaitFollowsStream(cfg: Config, feed: Feed, start: State, started: nat, ticks: seq<Tick>)
    requires start.reply.None? && start.taken <= |feed.arrivals|
    ensures var w := WaitRun(cfg, feed, Begin(start, started), ticks);
      && RequestsServed(cfg, feed, start, w.s)
      && Follows(cfg, feed, start, w.s, w.end)
      && EndsWithCompletion(cfg, feed, start, w.s, w.end)
  {
    if ticks != [] {
      var init, tick := ticks[..|ticks| - 1], ticks[|ticks| - 1];
      WaitFollowsStream(cfg, feed, start, started, init);
      var w := WaitRun(cfg, feed, Begin(start, started), init);
      var wake := WakeAt(cfg, feed, w, tick.poll);
      if w.end.None? && wake.Some? {
        ServedStep(cfg, feed, start, w.s, wake.value, tick.poll, tick.now);
        FollowsStep(cfg, feed, start, w.s, wake.value, tick.poll, tick.now);
        CompletionStep(cfg, feed, start, w.s, wake.value, tick.poll, tick.now);
      }
    }
  }
}
