/** What holds of every run of the wait loop: output, log, timing, order and responses. */
module SessionRuns {
  import opened Wrappers
  import opened JsonValue
  import opened RequestIds
  import opened Normalize
  import opened Session
  import Transport

  // ---- output grammar ----

  /** Lines that end a run: without --follow a request or a stall ends it too. */
  predicate Terminal(follow: bool, line: Line) {
    line.TurnLine? || line.TimeoutLine? || line.ErrorLine? || (!follow && (line.RequestLine? || line.StalledLine?))
  }

  /** Lines that do not end a run: only --follow prints any. */
  predicate Passing(follow: bool, line: Line) {
    follow && (line.RequestLine? || line.StalledLine?)
  }

  /** The exit code each last line stands for. */
  function CodeOf(line: Line): int {
    match line
    case RequestLine(_, _, _, _) => 2
    case StalledLine(_, _, _, _) => 3
    case TimeoutLine(_, _, _, _) => 3
    case TurnLine(status, _, _, _, _) => if status == "completed" then 0 else 1
    case ErrorLine(_) => 4
    case Note(_) => 4
  }

  ghost predicate AllPassing(follow: bool, lines: seq<Line>) {
    forall i | 0 <= i < |lines| :: Passing(follow, lines[i])
  }

  /** What one reaction adds to standard output. */
  ghost predicate Printed(follow: bool, before: seq<Line>, after: seq<Line>, step: Step) {
    match step
    case Continue => after == before
      || (after != [] && after[..|after| - 1] == before && Passing(follow, after[|after| - 1]))
    case Exit(code) =>
      after != [] && after[..|after| - 1] == before && Terminal(follow, after[|after| - 1])
        && code == CodeOf(after[|after| - 1])
    case Fail(_) => after == before
  }

  lemma RequestPrints(cfg: Config, s: State, id: Value, name: string, params: Value, now: nat)
    requires s.taken > 0
    ensures var (s', step) := HandleRequest(cfg, s, id, name, params, now);
      Printed(cfg.opts.follow, s.out.stdout, s'.out.stdout, step)
  {
  }

  lemma EventPrints(cfg: Config, s: State, event: Event, now: nat)
    requires s.taken > 0
    ensures var (s', step) := HandleEvent(cfg, s, event, now);
      Printed(cfg.opts.follow, s.out.stdout, s'.out.stdout, step)
  {
    match event
    case Ignore =>
    case Closed(reason) => EmittedAppends(cfg, s, ErrorLine(SocketClosed(reason)));
    case Update(turnId, text, progress, log) =>
      LoggedPrintsNothing(cfg, ProgressIf(Absorb(s, turnId, text), progress, now), log.GetOr(Null));
    case TurnCompleted(turnId, status, text, fields) =>
      var s1 := Absorb(s, turnId, text);
      EmittedAppends(cfg, s1, TurnLineOf(cfg, s1, status, fields));
    case RequestResolved(_, note) => LoggedPrintsNothing(cfg, s, note);
    case Request(id, name, params, _) => RequestPrints(cfg, s, id, name, params, now);
  }

  lemma LoggedPrintsNothing(cfg: Config, s: State, value: Value)
    ensures Logged(cfg, s, value).out.stdout == s.out.stdout
  {
  }

  lemma HandlePrints(cfg: Config, s: State, event: Event, now: nat)
    requires s.taken > 0
    ensures var (s', step) := Handle(cfg, s, event, now); Printed(cfg.opts.follow, s.out.stdout, s'.out.stdout, step)
  {
    EventPrints(cfg, Opening(s), event, now);
  }

  lemma ProcessPrints(cfg: Config, s: State, raw: Transport.Event, now: nat)
    requires s.taken > 0
    ensures var (s', step) := Process(cfg, s, raw, now); Printed(cfg.opts.follow, s.out.stdout, s'.out.stdout, step)
  {
    var event := Normalized(cfg.backend, raw, ContextOf(cfg, s));
    if event.Ok? {
      HandlePrints(cfg, WithUnsubscribe(cfg, s, raw), event.value, now);
    }
  }

  lemma ReactPrints(cfg: Config, s: State, wake: Wake, now: nat)
    ensures var (s', step) := React(cfg, s, wake, now); Printed(cfg.opts.follow, s.out.stdout, s'.out.stdout, step)
  {
    if wake.GotEvent? {
      ProcessPrints(cfg, s.(taken := s.taken + 1), wake.raw, now);
    } else {
      DeadlinePrints(cfg, s, wake, now);
    }
  }

  lemma DeadlinePrints(cfg: Config, s: State, wake: Wake, now: nat)
    requires !wake.GotEvent?
    ensures var (s', step) := React(cfg, s, wake, now); Printed(cfg.opts.follow, s.out.stdout, s'.out.stdout, step)
  {
    match wake
    case StreamEnd => EmittedAppends(cfg, s, ErrorLine(StreamEnded));
    case ReplyDue => EmittedAppends(cfg, s,
      ErrorLine(NotRedelivered(if s.reply.Some? then s.reply.value.id else Null)));
    case StallDue => EmittedAppends(cfg, s, StalledLine(cfg.threadId, s.turnId, cfg.opts.stallSecs, s.finalMessage));
    case TimeoutDue => EmittedAppends(cfg, s,
      TimeoutLine(cfg.threadId, s.turnId, cfg.opts.timeoutSecs, s.finalMessage));
  }

  lemma EmittedAppends(cfg: Config, s: State, line: Line)
    ensures var out := Emitted(cfg, s, line).out.stdout;
      out == s.out.stdout + [line] && out[..|out| - 1] == s.out.stdout
  {
  }

  /** Passing lines while the run goes on; then exactly one terminal line, which decides the exit code. */
  ghost predicate Grammar(follow: bool, lines: seq<Line>, end: Option<End>) {
    match end
    case None => AllPassing(follow, lines)
    case Some(e) =>
      && lines != [] && AllPassing(follow, lines[..|lines| - 1])
      && Terminal(follow, lines[|lines| - 1]) && ExitCodeOf(e) == CodeOf(lines[|lines| - 1])
  }

  lemma GrammarStep(follow: bool, before: seq<Line>, lines: seq<Line>, after: seq<Line>, step: Step)
    requires AllPassing(follow, lines) && Printed(follow, before + lines, after, step)
    ensures var end := EndOf(step);
      var all := after + if step.Fail? then [ErrorLine(step.failure)] else [];
      |before| <= |all| && all[..|before|] == before && Grammar(follow, all[|before|..], end)
  {
    var all := after + if step.Fail? then [ErrorLine(step.failure)] else [];
    if all == before + lines {
      assert all[|before|..] == lines;
    } else {
      assert all[..|all| - 1] == before + lines;
      assert all[|before|..] == lines + [all[|all| - 1]];
      assert all[..|before|] == before;
    }
  }

  /** The output grammar of every run of the wait loop, on both backends. */
  lemma {:induction false} OutputGrammar(cfg: Config, feed: Feed, s: State, started: nat, ticks: seq<Tick>)
    ensures var w := WaitRun(cfg, feed, Begin(s, started), ticks);
      && |s.out.stdout| <= |OutputOf(w)| && OutputOf(w)[..|s.out.stdout|] == s.out.stdout
      && Grammar(cfg.opts.follow, OutputOf(w)[|s.out.stdout|..], w.end)
  {
    if ticks != [] {
      var init, tick := ticks[..|ticks| - 1], ticks[|ticks| - 1];
      OutputGrammar(cfg, feed, s, started, init);
      var w := WaitRun(cfg, feed, Begin(s, started), init);
      var wake := WakeAt(cfg, feed, w, tick.poll);
      if w.end.None? && wake.Some? {
        ReactPrints(cfg, w.s, wake.value, tick.now);
        var base, lines := s.out.stdout, OutputOf(w)[|s.out.stdout|..];
        assert w.s.out.stdout == base + lines;
        var (s', step) := React(cfg, w.s, wake.value, tick.now);
        GrammarStep(cfg.opts.follow, base, lines, s'.out.stdout, step);
      }
    }
  }

  // ---- log suppression ----

  /** Without the lines written while handling the first `k` events. */
  function Visible(log: seq<Entry>, k: nat): seq<Entry> {
    if log == [] then []
    else
      var e := log[|log| - 1];
      Visible(log[..|log| - 1], k) + if e.tag == 0 || e.tag > k then [e] else []
  }

  /** How the same moment looks when the first `k` events are unlogged. */
  function Hidden(s: State, k: nat): State {
    s.(out := s.out.(log := Visible(s.out.log, k),
                     unlogged := if k > s.out.handled then k - s.out.handled else 0,
                     suppress := s.out.during != 0 && s.out.during <= k))
  }

  predicate Unsuppressed(s: State) { s.out.unlogged == 0 && !s.out.suppress }

  lemma VisibleAppend(log: seq<Entry>, e: Entry, k: nat)
    ensures Visible(log + [e], k) == Visible(log, k) + if e.tag == 0 || e.tag > k then [e] else []
  {
    assert (log + [e])[..|log|] == log;
  }

  lemma WriteHides(cfg: Config, s: State, line: Line, k: nat)
    requires Unsuppressed(s)
    ensures Hidden(s.(out := WriteLog(cfg.hasLog, s.out, line)), k)
      == Hidden(s, k).(out := WriteLog(cfg.hasLog, Hidden(s, k).out, line))
    ensures Hidden(s.(out := Emit(cfg.hasLog, s.out, line)), k)
      == Hidden(s, k).(out := Emit(cfg.hasLog, Hidden(s, k).out, line))
  {
    VisibleAppend(s.out.log, Entry(line, s.out.during), k);
  }

  lemma AnswerHides(cfg: Config, s: State, id: Value, name: string, body: Value, frame: nat, k: nat)
    requires Unsuppressed(s)
    ensures Hidden(Answered(cfg, s, id, name, body, frame), k) == Answered(cfg, Hidden(s, k), id, name, body, frame)
    ensures Unsuppressed(Answered(cfg, s, id, name, body, frame))
  {
    WriteHides(cfg, s.(sent := s.sent + [Sent(Result(id, body), frame)]), Note(RepliedNote(cfg, id, name, body)), k);
  }

  lemma DeclineHides(cfg: Config, s: State, id: Value, name: string, frame: nat, k: nat)
    requires Unsuppressed(s)
    ensures var note := DeclinedNote(cfg, id, name);
      var s1 := s.(sent := s.sent + [Sent(Refusal(id), frame)]);
      && Hidden(Logged(cfg, s1, note), k) == Logged(cfg, Hidden(s, k).(sent := s1.sent), note)
      && Unsuppressed(Logged(cfg, s1, note))
  {
    var note := DeclinedNote(cfg, id, name);
    WriteHides(cfg, s.(sent := s.sent + [Sent(Refusal(id), frame)]), Note(note), k);
  }

  lemma RequestHides(cfg: Config, s: State, id: Value, name: string, params: Value, now: nat, k: nat)
    requires s.taken > 0 && Unsuppressed(s)
    ensures var (s', step) := HandleRequest(cfg, s, id, name, params, now);
      HandleRequest(cfg, Hidden(s, k), id, name, params, now) == (Hidden(s', k), step) && Unsuppressed(s')
  {
    if Awaits(cfg, s, id) {
      SelectedHides(cfg, s, id, name, params, now, k);
    } else if s.reply.Some? && PolicyOf(cfg.backend).isolateSelectedRequest {
    } else {
      UnselectedHides(cfg, s, id, name, params, now, k);
    }
  }

  lemma SelectedHides(cfg: Config, s: State, id: Value, name: string, params: Value, now: nat, k: nat)
    requires s.taken > 0 && Unsuppressed(s) && Awaits(cfg, s, id)
    ensures var (s', step) := HandleRequest(cfg, s, id, name, params, now);
      HandleRequest(cfg, Hidden(s, k), id, name, params, now) == (Hidden(s', k), step) && Unsuppressed(s')
  {
    var body := BodyOf(cfg.backend, name, s.reply.value.payload);
    assert Hidden(s.(reply := None), k) == Hidden(s, k).(reply := None);
    if body.Some? {
      AnswerHides(cfg, s.(reply := None), id, name, body.value, s.taken - 1, k);
    }
  }

  lemma UnselectedHides(cfg: Config, s: State, id: Value, name: string, params: Value, now: nat, k: nat)
    requires s.taken > 0 && Unsuppressed(s) && !Awaits(cfg, s, id)
    requires !(s.reply.Some? && PolicyOf(cfg.backend).isolateSelectedRequest)
    ensures var (s', step) := HandleRequest(cfg, s, id, name, params, now);
      HandleRequest(cfg, Hidden(s, k), id, name, params, now) == (Hidden(s', k), step) && Unsuppressed(s')
  {
    if cfg.opts.autoDecline {
      DeclineHides(cfg, s, id, name, s.taken - 1, k);
    } else {
      EmittedHides(cfg, s, RequestLine(params.Get("threadId").GetOr(Str(cfg.threadId)), id, name, params), k);
    }
  }

  lemma EmittedHides(cfg: Config, s: State, line: Line, k: nat)
    requires Unsuppressed(s)
    ensures Hidden(Emitted(cfg, s, line), k) == Emitted(cfg, Hidden(s, k), line)
    ensures Unsuppressed(Emitted(cfg, s, line)) && Emitted(cfg, s, line).out.during == s.out.during
  {
    WriteHides(cfg, s, line, k);
  }

  lemma UpdateHides(cfg: Config, s: State, turnId: Option<string>, text: Option<string>, progress: bool, log: Value,
    now: nat, k: nat)
    requires Unsuppressed(s)
    ensures var s1 := ProgressIf(Absorb(s, turnId, text), progress, now);
      && Hidden(s1, k) == ProgressIf(Absorb(Hidden(s, k), turnId, text), progress, now)
      && Hidden(Logged(cfg, s1, log), k) == Logged(cfg, Hidden(s1, k), log) && Unsuppressed(Logged(cfg, s1, log))
  {
    WriteHides(cfg, ProgressIf(Absorb(s, turnId, text), progress, now), Note(log), k);
  }

  lemma CompletionHides(cfg: Config, s: State, turnId: Option<string>, text: Option<string>, status: string,
    fields: Value, k: nat)
    requires Unsuppressed(s)
    ensures var s1 := Absorb(s, turnId, text);
      var line := TurnLineOf(cfg, s1, status, fields);
      && Hidden(s1, k) == Absorb(Hidden(s, k), turnId, text) && line == TurnLineOf(cfg, Hidden(s1, k), status, fields)
      && Hidden(Emitted(cfg, s1, line), k) == Emitted(cfg, Hidden(s1, k), line) && Unsuppressed(Emitted(cfg, s1, line))
  {
    var s1 := Absorb(s, turnId, text);
    WriteHides(cfg, s1, TurnLineOf(cfg, s1, status, fields), k);
  }

  lemma EventHides(cfg: Config, s: State, event: Event, now: nat, k: nat)
    requires s.taken > 0 && Unsuppressed(s)
    ensures var (s', step) := HandleEvent(cfg, s, event, now);
      HandleEvent(cfg, Hidden(s, k), event, now) == (Hidden(s', k), step) && Unsuppressed(s')
  {
    match event
    case Ignore =>
    case Closed(reason) => EmittedHides(cfg, s, ErrorLine(SocketClosed(reason)), k);
    case Update(turnId, text, progress, log) =>
      UpdateHides(cfg, s, turnId, text, progress, log.GetOr(Null), now, k);
    case TurnCompleted(turnId, status, text, fields) => CompletionHides(cfg, s, turnId, text, status, fields, k);
    case RequestResolved(id, note) => WriteHides(cfg, s, Note(note), k);
    case Request(id, name, params, _) => RequestHides(cfg, s, id, name, params, now, k);
  }

  ghost predicate Outside(s: State) { Unsuppressed(s) && s.out.during == 0 }

  lemma HandleHides(cfg: Config, s: State, event: Event, now: nat, k: nat)
    requires s.taken > 0 && Outside(s)
    ensures var (s', step) := Handle(cfg, s, event, now);
      Handle(cfg, Hidden(s, k), event, now) == (Hidden(s', k), step) && Outside(s')
  {
    assert Opening(Hidden(s, k)) == Hidden(Opening(s), k);
    EventHides(cfg, Opening(s), event, now, k);
    var s1 := HandleEvent(cfg, Opening(s), event, now).0;
    assert Closing(Hidden(s1, k)) == Hidden(Closing(s1), k);
  }

  lemma ProcessHides(cfg: Config, s: State, raw: Transport.Event, now: nat, k: nat)
    requires s.taken > 0 && Outside(s)
    ensures var (s', step) := Process(cfg, s, raw, now);
      Process(cfg, Hidden(s, k), raw, now) == (Hidden(s', k), step) && Outside(s')
  {
    assert ContextOf(cfg, Hidden(s, k)) == ContextOf(cfg, s);
    var event := Normalized(cfg.backend, raw, ContextOf(cfg, s));
    var s1 := WithUnsubscribe(cfg, s, raw);
    assert WithUnsubscribe(cfg, Hidden(s, k), raw) == Hidden(s1, k);
    if event.Ok? { HandleHides(cfg, s1, event.value, now, k); }
  }

  lemma ReactHides(cfg: Config, s: State, wake: Wake, now: nat, k: nat)
    requires Outside(s)
    ensures var (s', step) := React(cfg, s, wake, now);
      React(cfg, Hidden(s, k), wake, now) == (Hidden(s', k), step) && Outside(s')
  {
    if wake.GotEvent? {
      assert Hidden(s.(taken := s.taken + 1), k) == Hidden(s, k).(taken := s.taken + 1);
      ProcessHides(cfg, s.(taken := s.taken + 1), wake.raw, now, k);
    } else {
      DeadlineHides(cfg, s, wake, now, k);
    }
  }

  lemma DeadlineHides(cfg: Config, s: State, wake: Wake, now: nat, k: nat)
    requires Outside(s) && !wake.GotEvent?
    ensures var (s', step) := React(cfg, s, wake, now);
      React(cfg, Hidden(s, k), wake, now) == (Hidden(s', k), step) && Outside(s')
  {
    match wake
    case StreamEnd => EmittedHides(cfg, s, ErrorLine(StreamEnded), k);
    case ReplyDue => EmittedHides(cfg, s, ErrorLine(NotRedelivered(if s.reply.Some? then s.reply.value.id else Null)),
      k);
    case StallDue => EmittedHides(cfg, s, StalledLine(cfg.threadId, s.turnId, cfg.opts.stallSecs, s.finalMessage), k);
    case TimeoutDue => EmittedHides(cfg, s, TimeoutLine(cfg.threadId, s.turnId, cfg.opts.timeoutSecs, s.finalMessage),
      k);
  }

  lemma {:induction false} RunHides(cfg: Config, feed: Feed, w: Wait, ticks: seq<Tick>, k: nat)
    requires Outside(w.s)
    ensures var w' := WaitRun(cfg, feed, w, ticks);
      WaitRun(cfg, feed, w.(s := Hidden(w.s, k)), ticks) == w'.(s := Hidden(w'.s, k)) && Outside(w'.s)
  {
    if ticks != [] {
      var init, tick := ticks[..|ticks| - 1], ticks[|ticks| - 1];
      RunHides(cfg, feed, w, init, k);
      var w1 := WaitRun(cfg, feed, w, init);
      var wake := WakeAt(cfg, feed, w1, tick.poll);
      assert WakeAt(cfg, feed, w1.(s := Hidden(w1.s, k)), tick.poll) == wake;
      if wake.Some? {
        ReactHides(cfg, w1.s, wake.value, tick.now, k);
      }
    }
  }

  /** A session whose log has just been opened: nothing handled, every log line so far written outside handling. */
  ghost predicate JustOpened(s: State) {
    && s.out.handled == 0 && s.out.during == 0 && !s.out.suppress
    && (forall i | 0 <= i < |s.out.log| :: s.out.log[i].tag == 0)
  }

  lemma {:induction false} AllVisible(log: seq<Entry>, k: nat)
    requires forall i | 0 <= i < |log| :: log[i].tag == 0
    ensures Visible(log, k) == log
  {
    if log != [] {
      AllVisible(log[..|log| - 1], k);
      assert log == log[..|log| - 1] + [log[|log| - 1]];
    }
  }

  /**
   * With `k` events queued when the log was opened, the log is the full log without what the first `k`
   * handled events wrote, and nothing else depends on `k`: not the output, the responses, the exit, or what woke
   * the loop.
   */
  lemma LogSuppressionIsExact(cfg: Config, feed: Feed, s: State, started: nat, ticks: seq<Tick>, k: nat)
    requires JustOpened(s) && s.out.unlogged == 0
    ensures var w0 := WaitRun(cfg, feed, Begin(s, started), ticks);
      var wk := WaitRun(cfg, feed, Begin(s.(out := s.out.(unlogged := k)), started), ticks);
      && wk.s.out.log == Visible(w0.s.out.log, k)
      && OutputOf(wk) == OutputOf(w0) && wk.end == w0.end && wk.trace == w0.trace
      && wk.s.sent == w0.s.sent && wk.s.taken == w0.s.taken
  {
    OpenedHidden(s, started, k);
    RunHides(cfg, feed, Begin(s, started), ticks, k);
  }

  lemma OpenedHidden(s: State, started: nat, k: nat)
    requires JustOpened(s) && s.out.unlogged == 0
    ensures var w := Begin(s, started);
      Outside(w.s) && Begin(s.(out := s.out.(unlogged := k)), started) == w.(s := Hidden(w.s, k))
  {
    AllVisible(s.out.log, k);
  }

  // ---- events in order, each once ----

  /** The events the loop took, in the order it took them. */
  function EventsTaken(trace: seq<Happening>): seq<Transport.Event> {
    if trace == [] then []
    else
      EventsTaken(trace[..|trace| - 1])
      + match trace[|trace| - 1].wake { case GotEvent(raw) => [raw] case _ => [] }
  }

  function Raws(feed: Feed, from: nat, to: nat): seq<Transport.Event>
    requires from <= to <= |feed.arrivals|
  {
    seq(to - from, i requires 0 <= i < to - from => feed.arrivals[from + i].raw)
  }

  lemma EventCounts(cfg: Config, s: State, event: Event, now: nat)
    requires s.taken > 0
    ensures var s' := HandleEvent(cfg, s, event, now).0; s'.taken == s.taken && s'.out.handled == s.out.handled
  {
  }

  lemma ProcessCounts(cfg: Config, s: State, raw: Transport.Event, now: nat)
    requires s.taken > 0
    ensures var (s', step) := Process(cfg, s, raw, now);
      && s'.taken == s.taken && s.out.handled <= s'.out.handled <= s.out.handled + 1
      && (!step.Fail? ==> s'.out.handled == s.out.handled + 1)
  {
    var event := Normalized(cfg.backend, raw, ContextOf(cfg, s));
    if event.Ok? {
      EventCounts(cfg, Opening(WithUnsubscribe(cfg, s, raw)), event.value, now);
    }
  }

  lemma ReactCounts(cfg: Config, s: State, wake: Wake, now: nat)
    ensures var (s', step) := React(cfg, s, wake, now);
      var n := if wake.GotEvent? then 1 else 0;
      s'.taken == s.taken + n && (step.Continue? ==> s'.out.handled == s.out.handled + n)
  {
    if wake.GotEvent? {
      ProcessCounts(cfg, s.(taken := s.taken + 1), wake.raw, now);
    }
  }

  /** The events taken are the arrivals in order, and each handled one is counted. */
  ghost predicate InOrder(feed: Feed, start: State, s: State, trace: seq<Happening>, end: Option<End>) {
    && start.taken <= s.taken <= |feed.arrivals|
    && EventsTaken(trace) == Raws(feed, start.taken, s.taken)
    && (end.None? ==> s.taken - start.taken == s.out.handled - start.out.handled)
  }

  lemma InOrderWake(cfg: Config, feed: Feed, start: State, s: State, trace: seq<Happening>, h: Happening)
    requires InOrder(feed, start, s, trace, None) && h.taken == s.taken
    requires h.wake.GotEvent? ==> Recv(feed, s.taken, h.poll) == Some(h.wake)
    ensures var (s', step) := React(cfg, s, h.wake, h.now); InOrder(feed, start, s', trace + [h], EndOf(step))
  {
    ReactCounts(cfg, s, h.wake, h.now);
    TakenStep(feed, start.taken, trace, h);
  }

  /**
   * The events taken are the arrivals in order, and while the run goes on the n-th one handled is the
   * n-th one taken: the tag of a log line names the arrival that caused it.
   */
  lemma {:induction false} EventsInOrder(cfg: Config, feed: Feed, s: State, started: nat, ticks: seq<Tick>)
    requires s.taken <= |feed.arrivals|
    ensures var w := WaitRun(cfg, feed, Begin(s, started), ticks); InOrder(feed, s, w.s, w.trace, w.end)
  {
    if ticks != [] {
      var init, tick := ticks[..|ticks| - 1], ticks[|ticks| - 1];
      EventsInOrder(cfg, feed, s, started, init);
      var w := WaitRun(cfg, feed, Begin(s, started), init);
      var wake := WakeAt(cfg, feed, w, tick.poll);
      if w.end.None? && wake.Some? {
        InOrderWake(cfg, feed, s, w.s, w.trace, HappeningOf(cfg, w, wake.value, tick));
      }
    }
  }

  lemma TakenStep(feed: Feed, start: nat, trace: seq<Happening>, h: Happening)
    requires start <= h.taken <= |feed.arrivals| && EventsTaken(trace) == Raws(feed, start, h.taken)
    requires h.wake.GotEvent? ==> Recv(feed, h.taken, h.poll) == Some(h.wake)
    ensures h.wake.GotEvent? ==> h.taken < |feed.arrivals|
    ensures EventsTaken(trace + [h]) == Raws(feed, start, if h.wake.GotEvent? then h.taken + 1 else h.taken)
  {
    assert (trace + [h])[..|trace|] == trace;
    if h.wake.GotEvent? {
      assert Raws(feed, start, h.taken + 1) == Raws(feed, start, h.taken) + [h.wake.raw];
    }
  }

  // ---- responses ----

  /** Responses `from` on answer distinct requests of the stream, in stream order, each under its request's own id. */
  ghost predicate Attributed(feed: Feed, sent: seq<Sent>, from: nat, taken: nat) {
    && from <= |sent| && taken <= |feed.arrivals|
    && (forall i | from <= i < |sent| ::
          && sent[i].frame < taken
          && feed.arrivals[sent[i].frame].raw.ServerRequest?
          && feed.arrivals[sent[i].frame].raw.id == sent[i].response.id)
    && (forall i, j | from <= i < j < |sent| :: sent[i].frame < sent[j].frame)
  }

  /** What one event may add to the responses: at most one, under the event's own id. */
  ghost predicate Responds(before: seq<Sent>, after: seq<Sent>, raw: Transport.Event, frame: nat) {
    after == before
    || (raw.ServerRequest? && after != [] && after[..|after| - 1] == before
        && after[|after| - 1].frame == frame && after[|after| - 1].response.id == raw.id)
  }

  lemma ProcessResponds(cfg: Config, s: State, raw: Transport.Event, now: nat)
    requires s.taken > 0
    ensures Responds(s.sent, Process(cfg, s, raw, now).0.sent, raw, s.taken - 1)
  {
    var event := Normalized(cfg.backend, raw, ContextOf(cfg, s));
    if event.Ok? {
      KindsAgree(cfg.backend, raw, ContextOf(cfg, s));
    }
  }

  /** With no reply pending, handling an event starts none. */
  lemma ReplyStaysNone(cfg: Config, s: State, raw: Transport.Event, now: nat)
    requires s.taken > 0 && s.reply.None?
    ensures Process(cfg, s, raw, now).0.reply.None?
  {
  }

  lemma AttributedStep(feed: Feed, before: seq<Sent>, after: seq<Sent>, from: nat, raw: Transport.Event, frame: nat)
    requires Attributed(feed, before, from, frame) && frame < |feed.arrivals| && feed.arrivals[frame].raw == raw
    requires Responds(before, after, raw, frame)
    ensures |before| <= |after| && after[..|before|] == before && Attributed(feed, after, from, frame + 1)
    ensures forall i | |before| <= i < |after| :: after[i].frame == frame
  {
  }

  /** From `start` on, every response belongs to a request taken since. */
  ghost predicate Accounted(feed: Feed, start: State, s: State) {
    && |start.sent| <= |s.sent| && s.sent[..|start.sent|] == start.sent
    && start.taken <= s.taken && Attributed(feed, s.sent, |start.sent|, s.taken)
    && (forall i | |start.sent| <= i < |s.sent| :: start.taken <= s.sent[i].frame)
  }

  lemma AccountedStep(feed: Feed, start: State, s: State, s': State, raw: Transport.Event)
    requires Accounted(feed, start, s) && s.taken < |feed.arrivals| && feed.arrivals[s.taken].raw == raw
    requires Responds(s.sent, s'.sent, raw, s.taken) && s'.taken == s.taken + 1
    ensures Accounted(feed, start, s')
  {
    AttributedStep(feed, s.sent, s'.sent, |start.sent|, raw, s.taken);
  }

  lemma AccountedWake(cfg: Config, feed: Feed, start: State, s: State, wake: Wake, t: nat, now: nat)
    requires Accounted(feed, start, s) && (wake.GotEvent? ==> Recv(feed, s.taken, t) == Some(wake))
    ensures Accounted(feed, start, React(cfg, s, wake, now).0)
  {
    ReactCounts(cfg, s, wake, now);
    if wake.GotEvent? {
      ProcessResponds(cfg, s.(taken := s.taken + 1), wake.raw, now);
      AccountedStep(feed, start, s, React(cfg, s, wake, now).0, wake.raw);
    }
  }

  lemma {:induction false} ResponsesAttributed(cfg: Config, feed: Feed, s: State, started: nat, ticks: seq<Tick>)
    requires s.taken <= |feed.arrivals|
    ensures Accounted(feed, s, WaitRun(cfg, feed, Begin(s, started), ticks).s)
  {
    if ticks != [] {
      var init, tick := ticks[..|ticks| - 1], ticks[|ticks| - 1];
      ResponsesAttributed(cfg, feed, s, started, init);
      var w := WaitRun(cfg, feed, Begin(s, started), init);
      var wake := WakeAt(cfg, feed, w, tick.poll);
      if w.end.None? && wake.Some? {
        AccountedWake(cfg, feed, s, w.s, wake.value, tick.poll, tick.now);
      }
    }
  }

  ghost predicate DistinctRequestIds(feed: Feed) {
    forall i, j | 0 <= i < j < |feed.arrivals| && feed.arrivals[i].raw.ServerRequest?
      && feed.arrivals[j].raw.ServerRequest? ::
      feed.arrivals[i].raw.id != feed.arrivals[j].raw.id
  }

  /** When the stream repeats no request id, no id is answered twice. */
  lemma OneResponsePerId(cfg: Config, feed: Feed, s: State, started: nat, ticks: seq<Tick>, i: nat, j: nat)
    requires s.taken <= |feed.arrivals| && DistinctRequestIds(feed)
    requires |s.sent| <= i < j < |WaitRun(cfg, feed, Begin(s, started), ticks).s.sent|
    ensures var sent := WaitRun(cfg, feed, Begin(s, started), ticks).s.sent; sent[i].response.id != sent[j].response.id
  {
    ResponsesAttributed(cfg, feed, s, started, ticks);
  }

  // ---- a selected reply on dsh ----

  /** The response `sent` gives the request at its frame what the payload stands for. */
  ghost predicate Replies(cfg: Config, feed: Feed, sent: Sent, r: PendingReply) {
    && sent.frame < |feed.arrivals| && feed.arrivals[sent.frame].raw.ServerRequest?
    && sent.response.Result? && sent.response.id == r.id
    && BodyOf(cfg.backend, feed.arrivals[sent.frame].raw.name, r.payload) == Some(sent.response.body)
  }

  /** Until the awaited request comes nothing is answered or shown; the first response is to it, with the payload. */
  ghost predicate Selected(cfg: Config, feed: Feed, start: State, r: PendingReply, s: State, end: Option<End>) {
    if s.reply.Some? then
      s.reply == Some(r) && s.sent == start.sent
        && (forall i | |start.out.stdout| <= i < |s.out.stdout| :: !s.out.stdout[i].RequestLine?)
    else
      || (end.Some? && end.value.Failed? && end.value.failure.NoDecisionFor? && s.sent == start.sent)
      || (|s.sent| > |start.sent| && Replies(cfg, feed, s.sent[|start.sent|], r))
  }

  lemma SelectedEvent(cfg: Config, feed: Feed, start: State, r: PendingReply, s: State, event: Event, now: nat)
    requires cfg.backend.Dsh? && Selected(cfg, feed, start, r, s, None) && |start.out.stdout| <= |s.out.stdout|
    requires |start.sent| <= |s.sent| && s.sent[..|start.sent|] == start.sent
    requires 0 < s.taken <= |feed.arrivals|
    requires event.Request? ==>
      feed.arrivals[s.taken - 1].raw == Transport.ServerRequest(event.id, event.name, event.params)
    ensures var (s', step) := HandleEvent(cfg, s, event, now); Selected(cfg, feed, start, r, s', EndOf(step))
  {
  }

  lemma SelectedStep(cfg: Config, feed: Feed, start: State, r: PendingReply, s: State, wake: Wake, t: nat, now: nat)
    requires cfg.backend.Dsh? && Selected(cfg, feed, start, r, s, None) && |start.out.stdout| <= |s.out.stdout|
    requires |start.sent| <= |s.sent| && s.sent[..|start.sent|] == start.sent
    requires wake.GotEvent? ==> Recv(feed, s.taken, t) == Some(wake)
    ensures var (s', step) := React(cfg, s, wake, now); Selected(cfg, feed, start, r, s', EndOf(step))
  {
    if wake.GotEvent? {
      var s1 := s.(taken := s.taken + 1);
      var event := Normalized(cfg.backend, wake.raw, ContextOf(cfg, s1));
      KindsAgreeIfOk(cfg.backend, wake.raw, ContextOf(cfg, s1));
      if event.Ok? {
        SelectedEvent(cfg, feed, start, r, Opening(WithUnsubscribe(cfg, s1, wake.raw)), event.value, now);
      }
    }
  }

  lemma KindsAgreeIfOk(b: Backend, raw: Transport.Event, c: Context)
    ensures var event := Normalized(b, raw, c);
      event.Ok? && event.value.Request? ==>
        raw == Transport.ServerRequest(event.value.id, event.value.name, event.value.params)
  {
  }

  /** An explicit dsh reply: nothing else is answered before it, and it answers exactly the awaited id. */
  lemma {:induction false} ReplyGoesToSelected(cfg: Config, feed: Feed, start: State, r: PendingReply, started: nat,
    ticks: seq<Tick>)
    requires cfg.backend.Dsh? && start.reply == Some(r) && start.taken <= |feed.arrivals|
    ensures var w := WaitRun(cfg, feed, Begin(start, started), ticks); Selected(cfg, feed, start, r, w.s, w.end)
  {
    if ticks != [] {
      var init, tick := ticks[..|ticks| - 1], ticks[|ticks| - 1];
      ReplyGoesToSelected(cfg, feed, start, r, started, init);
      var w := WaitRun(cfg, feed, Begin(start, started), init);
      var wake := WakeAt(cfg, feed, w, tick.poll);
      if w.end.None? && wake.Some? {
        ResponsesAttributed(cfg, feed, start, started, init);
        OutputGrammar(cfg, feed, start, started, init);
        SelectedStep(cfg, feed, start, r, w.s, wake.value, tick.poll, tick.now);
      }
    }
  }
}
