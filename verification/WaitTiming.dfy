/** When the wait loop wakes: deadlines before events for dsh, events before deadlines for Codex. */
module WaitTiming {
  import opened Wrappers
  import opened JsonValue
  import opened RequestIds
  import opened Normalize
  import opened Session
  import SessionRuns
  import Transport

  /** Wire events that always count as progress of this thread. */
  predicate IsProgress(cfg: Config, raw: Transport.Event) {
    && raw.Notification?
    && match cfg.backend
       case Dsh => ThreadOf(Dsh, raw.params) == Some(cfg.threadId) && raw.name == "thread/event"
       case Codex =>
         && (ThreadOf(Codex, raw.params).None? || ThreadOf(Codex, raw.params) == Some(cfg.threadId))
         && raw.name in ["turn/started", "item/completed"]
  }

  /**
   * The stall clock restarts: a stall was reported, progress was handled, or a Codex request was answered or refused.
   */
  predicate Restarts(cfg: Config, h: Happening) {
    h.wake.StallDue? || (h.wake.GotEvent? && (IsProgress(cfg, h.wake.raw) || (cfg.backend.Codex? && h.responded)))
  }

  /** When the stall clock last restarted. */
  function StallClock(cfg: Config, trace: seq<Happening>, started: nat): nat {
    if trace == [] then started
    else if Restarts(cfg, trace[|trace| - 1]) then trace[|trace| - 1].now
    else StallClock(cfg, trace[..|trace| - 1], started)
  }

  function Clock(start: nat, ticks: seq<Tick>): nat {
    if ticks == [] then start else ticks[|ticks| - 1].now
  }

  function Stalls(trace: seq<Happening>): nat {
    if trace == [] then 0 else Stalls(trace[..|trace| - 1]) + if trace[|trace| - 1].wake.StallDue? then 1 else 0
  }

  /** A happening waited `stallSecs` after the loop's start and after every earlier restart. */
  ghost predicate Silent(cfg: Config, started: nat, trace: seq<Happening>, i: nat)
    requires i < |trace|
  {
    && started + cfg.opts.stallSecs * 1000 <= trace[i].poll
    && (forall j | 0 <= j < i && Restarts(cfg, trace[j]) :: trace[j].now + cfg.opts.stallSecs * 1000 <= trace[i].poll)
  }

  /** How the stall clock relates to the happenings so far. */
  ghost predicate Timed(cfg: Config, started: nat, w: Wait, clock: nat) {
    && w.started == started <= w.s.lastItem <= clock && started <= w.round <= clock
    && (forall j | 0 <= j < |w.trace| :: w.trace[j].poll <= w.trace[j].now)
    && (w.end.None? ==> w.s.lastItem == StallClock(cfg, w.trace, started))
    && (forall j | 0 <= j < |w.trace| && Restarts(cfg, w.trace[j]) && w.end.None? :: w.trace[j].now <= w.s.lastItem)
    && (cfg.opts.stallSecs > 0 ==> forall i | 0 <= i < |w.trace| && w.trace[i].wake.StallDue? ::
      Silent(cfg, started, w.trace, i))
  }

  lemma EventClock(cfg: Config, s: State, event: Event, now: nat)
    requires s.taken > 0
    ensures var s' := HandleEvent(cfg, s, event, now).0;
      s'.lastItem == if (event.Update? && event.progress) || (cfg.backend.Codex? && |s'.sent| > |s.sent|) then now
        else s.lastItem
  {
  }

  lemma ProgressIsUpdate(cfg: Config, raw: Transport.Event, c: Context)
    requires c.threadId == cfg.threadId
    ensures var event := Normalized(cfg.backend, raw, c);
      IsProgress(cfg, raw) == (event.Ok? && event.value.Update? && event.value.progress)
  {
  }

  lemma ProcessClock(cfg: Config, s: State, raw: Transport.Event, now: nat)
    requires s.taken > 0
    ensures var s' := Process(cfg, s, raw, now).0;
      s'.lastItem == if IsProgress(cfg, raw) || (cfg.backend.Codex? && |s'.sent| > |s.sent|) then now else s.lastItem
  {
    var event := Normalized(cfg.backend, raw, ContextOf(cfg, s));
    ProgressIsUpdate(cfg, raw, ContextOf(cfg, s));
    if event.Ok? {
      EventClock(cfg, Opening(WithUnsubscribe(cfg, s, raw)), event.value, now);
    }
  }

  lemma ReactClock(cfg: Config, w: Wait, wake: Wake, tick: Tick)
    ensures var (s', step) := React(cfg, w.s, wake, tick.now);
      && (s'.lastItem == w.s.lastItem || s'.lastItem == tick.now)
      && (step.Continue? ==>
            s'.lastItem == if Restarts(cfg, HappeningOf(cfg, w, wake, tick)) then tick.now else w.s.lastItem)
  {
    if wake.GotEvent? {
      var s1 := w.s.(taken := w.s.taken + 1);
      assert React(cfg, w.s, wake, tick.now) == Process(cfg, s1, wake.raw, tick.now);
      ProcessClock(cfg, s1, wake.raw, tick.now);
    }
  }

  lemma TimedStep(cfg: Config, feed: Feed, started: nat, w: Wait, wake: Wake, tick: Tick, clock: nat)
    requires Timed(cfg, started, w, clock) && w.end.None? && clock <= tick.poll <= tick.now
    requires WakeAt(cfg, feed, w, tick.poll) == Some(wake)
    ensures Timed(cfg, started, Woken(cfg, w, wake, tick), tick.now)
  {
    ReactClock(cfg, w, wake, tick);
    var trace := w.trace + [HappeningOf(cfg, w, wake, tick)];
    assert trace[..|w.trace|] == w.trace;
    forall i | 0 <= i < |trace| && trace[i].wake.StallDue? && cfg.opts.stallSecs > 0
      ensures Silent(cfg, started, trace, i)
    {
      if i < |w.trace| {
        assert Silent(cfg, started, w.trace, i);
      }
    }
  }

  lemma {:induction false} RunTimed(cfg: Config, feed: Feed, s: State, started: nat, ticks: seq<Tick>)
    requires Ordered(started, ticks)
    ensures Timed(cfg, started, WaitRun(cfg, feed, Begin(s, started), ticks), Clock(started, ticks))
  {
    if ticks != [] {
      var init, tick := ticks[..|ticks| - 1], ticks[|ticks| - 1];
      RunTimed(cfg, feed, s, started, init);
      var w := WaitRun(cfg, feed, Begin(s, started), init);
      var wake := WakeAt(cfg, feed, w, tick.poll);
      assert Clock(started, init) <= tick.poll;
      if w.end.None? && wake.Some? {
        TimedStep(cfg, feed, started, w, wake.value, tick, Clock(started, init));
      }
    }
  }

  /**
   * While a wait goes on, its stall clock is exactly the last restart: for Codex answers and refusals count, for dsh
   * they do not.
   */
  lemma StallClockIsLastRestart(cfg: Config, feed: Feed, s: State, started: nat, ticks: seq<Tick>)
    requires Ordered(started, ticks)
    ensures var w := WaitRun(cfg, feed, Begin(s, started), ticks);
      w.end.None? ==> w.s.lastItem == StallClock(cfg, w.trace, started)
  {
    RunTimed(cfg, feed, s, started, ticks);
  }

  /** Every reported stall comes after `stallSecs` without a restart of the stall clock. */
  lemma StallsFollowSilence(cfg: Config, feed: Feed, s: State, started: nat, ticks: seq<Tick>, i: nat)
    requires Ordered(started, ticks) && cfg.opts.stallSecs > 0
    requires i < |WaitRun(cfg, feed, Begin(s, started), ticks).trace|
    requires WaitRun(cfg, feed, Begin(s, started), ticks).trace[i].wake.StallDue?
    ensures Silent(cfg, started, WaitRun(cfg, feed, Begin(s, started), ticks).trace, i)
  {
    RunTimed(cfg, feed, s, started, ticks);
  }

  /** With a timeout, dsh takes no event at or after it: whatever else wakes the loop does so strictly earlier. */
  lemma {:induction false} NothingAfterTimeout(cfg: Config, feed: Feed, s: State, started: nat, ticks: seq<Tick>,
    i: nat)
    requires cfg.backend.Dsh? && cfg.opts.timeoutSecs > 0
    requires i < |WaitRun(cfg, feed, Begin(s, started), ticks).trace|
    ensures var h := WaitRun(cfg, feed, Begin(s, started), ticks).trace[i];
      if h.wake.TimeoutDue? then started + cfg.opts.timeoutSecs * 1000 <= h.poll
      else h.poll < started + cfg.opts.timeoutSecs * 1000
  {
    var init, tick := ticks[..|ticks| - 1], ticks[|ticks| - 1];
    var w := WaitRun(cfg, feed, Begin(s, started), init);
    StartedKept(cfg, feed, s, started, init);
    if i < |w.trace| {
      NothingAfterTimeout(cfg, feed, s, started, init, i);
    }
  }

  lemma {:induction false} StartedKept(cfg: Config, feed: Feed, s: State, started: nat, ticks: seq<Tick>)
    ensures WaitRun(cfg, feed, Begin(s, started), ticks).started == started
  {
    if ticks != [] {
      StartedKept(cfg, feed, s, started, ticks[..|ticks| - 1]);
    }
  }

  /** Each stall lies a whole stall period after the one before. */
  lemma {:induction false} StallsTakeTime(cfg: Config, started: nat, trace: seq<Happening>, last: nat)
    requires cfg.opts.stallSecs > 0 && last < |trace| && trace[last].wake.StallDue?
    requires forall i | 0 <= i < |trace| && trace[i].wake.StallDue? :: Silent(cfg, started, trace, i)
    requires forall i | 0 <= i < |trace| :: trace[i].poll <= trace[i].now
    ensures started + Stalls(trace[..last + 1]) * (cfg.opts.stallSecs * 1000) <= trace[last].poll
  {
    var period, n := cfg.opts.stallSecs * 1000, Stalls(trace[..last]);
    assert Stalls(trace[..last + 1]) == n + 1 by { assert trace[..last + 1][..last] == trace[..last]; }
    assert (n + 1) * period == n * period + period;
    assert Silent(cfg, started, trace, last);
    if n > 0 {
      var earlier := LastStall(trace[..last]);
      assert trace[..last][..earlier + 1] == trace[..earlier + 1];
      StallsTakeTime(cfg, started, trace, earlier);
      assert Restarts(cfg, trace[earlier]);
    }
  }

  /** The last stall of a trace that has one. */
  function LastStall(trace: seq<Happening>): (i: nat)
    requires Stalls(trace) > 0
    ensures i < |trace| && trace[i].wake.StallDue? && Stalls(trace[..i + 1]) == Stalls(trace)
  {
    if trace[|trace| - 1].wake.StallDue? then
      assert trace[..|trace|] == trace;
      |trace| - 1
    else
      var i := LastStall(trace[..|trace| - 1]);
      assert trace[..|trace| - 1][..i + 1] == trace[..i + 1];
      i
  }

  function StalledLines(lines: seq<Line>): nat {
    if lines == [] then 0 else StalledLines(lines[..|lines| - 1]) + if lines[|lines| - 1].StalledLine? then 1 else 0
  }

  lemma StalledAppend(lines: seq<Line>, line: Line)
    ensures StalledLines(lines + [line]) == StalledLines(lines) + if line.StalledLine? then 1 else 0
  {
    assert (lines + [line])[..|lines|] == lines;
  }

  lemma EventPrintsNoStall(cfg: Config, s: State, event: Event, now: nat)
    requires s.taken > 0
    ensures var s' := HandleEvent(cfg, s, event, now).0; StalledLines(s'.out.stdout) == StalledLines(s.out.stdout)
  {
    var s' := HandleEvent(cfg, s, event, now).0;
    if s'.out.stdout != s.out.stdout {
      StalledAppend(s.out.stdout, s'.out.stdout[|s.out.stdout|]);
    }
  }

  lemma ProcessPrintsNoStall(cfg: Config, s: State, raw: Transport.Event, now: nat)
    requires s.taken > 0
    ensures StalledLines(Process(cfg, s, raw, now).0.out.stdout) == StalledLines(s.out.stdout)
  {
    var event := Normalized(cfg.backend, raw, ContextOf(cfg, s));
    if event.Ok? {
      EventPrintsNoStall(cfg, Opening(WithUnsubscribe(cfg, s, raw)), event.value, now);
    }
  }

  lemma ReactPrintsStall(cfg: Config, s: State, wake: Wake, now: nat)
    ensures StalledLines(React(cfg, s, wake, now).0.out.stdout) == StalledLines(s.out.stdout) +
      if wake.StallDue? then 1 else 0
  {
    if wake.GotEvent? {
      var s1 := s.(taken := s.taken + 1);
      assert React(cfg, s, wake, now) == Process(cfg, s1, wake.raw, now) && s1.out.stdout == s.out.stdout;
      ProcessPrintsNoStall(cfg, s1, wake.raw, now);
    } else {
      DeadlinePrintsStall(cfg, s, wake, now);
    }
  }

  lemma DeadlinePrintsStall(cfg: Config, s: State, wake: Wake, now: nat)
    requires !wake.GotEvent?
    ensures StalledLines(React(cfg, s, wake, now).0.out.stdout) == StalledLines(s.out.stdout) +
      if wake.StallDue? then 1 else 0
  {
    var line := match wake
      case StreamEnd => ErrorLine(StreamEnded)
      case ReplyDue => ErrorLine(NotRedelivered(if s.reply.Some? then s.reply.value.id else Null))
      case StallDue => StalledLine(cfg.threadId, s.turnId, cfg.opts.stallSecs, s.finalMessage)
      case TimeoutDue => TimeoutLine(cfg.threadId, s.turnId, cfg.opts.timeoutSecs, s.finalMessage);
    StalledAppend(s.out.stdout, line);
    SessionRuns.EmittedAppends(cfg, s, line);
  }

  /** Each stall that wakes the loop prints one stalled line, and nothing else does. */
  lemma {:induction false} StallsArePrinted(cfg: Config, feed: Feed, s: State, started: nat, ticks: seq<Tick>)
    ensures var w := WaitRun(cfg, feed, Begin(s, started), ticks);
      StalledLines(w.s.out.stdout) == StalledLines(s.out.stdout) + Stalls(w.trace)
  {
    if ticks != [] {
      var init, tick := ticks[..|ticks| - 1], ticks[|ticks| - 1];
      StallsArePrinted(cfg, feed, s, started, init);
      var w := WaitRun(cfg, feed, Begin(s, started), init);
      var wake := WakeAt(cfg, feed, w, tick.poll);
      if w.end.None? && wake.Some? {
        ReactPrintsStall(cfg, w.s, wake.value, tick.now);
        StallsAppend(w.trace, HappeningOf(cfg, w, wake.value, tick));
      }
    }
  }

  lemma StallsAppend(trace: seq<Happening>, h: Happening)
    ensures Stalls(trace + [h]) == Stalls(trace) + if h.wake.StallDue? then 1 else 0
  {
    assert (trace + [h])[..|trace|] == trace;
  }

  /** With timeout T and stall s, dsh prints at most (T - 1) / s stalled lines. */
  lemma StallsAreBounded(cfg: Config, feed: Feed, s: State, started: nat, ticks: seq<Tick>)
    requires cfg.backend.Dsh? && cfg.opts.timeoutSecs > 0 && cfg.opts.stallSecs > 0 && Ordered(started, ticks)
    ensures var w := WaitRun(cfg, feed, Begin(s, started), ticks);
      StalledLines(w.s.out.stdout) - StalledLines(s.out.stdout) <= (cfg.opts.timeoutSecs - 1) / cfg.opts.stallSecs
  {
    StallsArePrinted(cfg, feed, s, started, ticks);
    RunTimed(cfg, feed, s, started, ticks);
    var w := WaitRun(cfg, feed, Begin(s, started), ticks);
    forall i | 0 <= i < |w.trace| && w.trace[i].wake.StallDue?
      ensures w.trace[i].poll < started + cfg.opts.timeoutSecs * 1000
    {
      NothingAfterTimeout(cfg, feed, s, started, ticks, i);
    }
    StallCountFits(cfg, started, w, Clock(started, ticks));
  }

  lemma StallCountFits(cfg: Config, started: nat, w: Wait, clock: nat)
    requires cfg.opts.timeoutSecs > 0 && cfg.opts.stallSecs > 0 && Timed(cfg, started, w, clock)
    requires forall i | 0 <= i < |w.trace| && w.trace[i].wake.StallDue? ::
      w.trace[i].poll < started + cfg.opts.timeoutSecs * 1000
    ensures Stalls(w.trace) <= (cfg.opts.timeoutSecs - 1) / cfg.opts.stallSecs
  {
    if Stalls(w.trace) > 0 {
      StallsFit(cfg, started, w, clock, LastStall(w.trace));
    }
  }

  lemma StallsFit(cfg: Config, started: nat, w: Wait, clock: nat, last: nat)
    requires cfg.opts.timeoutSecs > 0 && cfg.opts.stallSecs > 0 && Timed(cfg, started, w, clock)
    requires last < |w.trace| && w.trace[last].wake.StallDue? && Stalls(w.trace[..last + 1]) == Stalls(w.trace)
    requires w.trace[last].poll < started + cfg.opts.timeoutSecs * 1000
    ensures Stalls(w.trace) <= (cfg.opts.timeoutSecs - 1) / cfg.opts.stallSecs
  {
    var trace := w.trace;
    var n := Stalls(trace[..last + 1]);
    assert started + n * (cfg.opts.stallSecs * 1000) <= trace[last].poll by {
      StallsTakeTime(cfg, started, trace, last);
    }
    PeriodsFit(started, n, cfg.opts.stallSecs, cfg.opts.timeoutSecs, trace[last].poll);
  }

  lemma PeriodsFit(start: nat, n: nat, period: nat, total: nat, poll: nat)
    requires period > 0 && total > 0 && start + n * (period * 1000) <= poll < start + total * 1000
    ensures n <= (total - 1) / period
  {
    assert n * period * 1000 == n * (period * 1000);
    assert n * period <= total - 1;
    QuotientBound(n, period, total - 1);
  }

  lemma QuotientBound(n: nat, period: nat, total: nat)
    requires period > 0 && n * period <= total
    ensures n <= total / period
  {
    var q := total / period;
    assert total < (q + 1) * period;
    ProductsOrdered(q + 1, n, period);
  }

  lemma ProductsOrdered(a: nat, b: nat, factor: nat)
    ensures a <= b ==> a * factor <= b * factor
  {
    if a <= b {
      assert b * factor == a * factor + (b - a) * factor;
    }
  }

  /** Codex reports no stall, timeout or missing reply while an event is queued. */
  lemma {:induction false} EventsBeforeDeadlines(cfg: Config, feed: Feed, s: State, started: nat, ticks: seq<Tick>,
    i: nat)
    requires cfg.backend.Codex?
    requires i < |WaitRun(cfg, feed, Begin(s, started), ticks).trace|
    ensures var h := WaitRun(cfg, feed, Begin(s, started), ticks).trace[i];
      ((h.wake.StallDue? || h.wake.TimeoutDue? || h.wake.ReplyDue?) && h.taken < |feed.arrivals| ==>
        h.poll < feed.arrivals[h.taken].at)
  {
    var init, tick := ticks[..|ticks| - 1], ticks[|ticks| - 1];
    var w := WaitRun(cfg, feed, Begin(s, started), init);
    if i < |w.trace| {
      EventsBeforeDeadlines(cfg, feed, s, started, init, i);
    }
  }
}
