/** When each wake of the wait loop happens, on a clock of its own: what is due at a poll, and what is then reported. */
module WaitSchedule {
  import opened Wrappers
  import opened JsonValue
  import opened Normalize
  import opened Session
  import opened WaitTiming
  import SessionRuns

  /** What a limit of 0 seconds, or no awaited reply, amounts to: 365 days from the loop's last wake. */
  const YEAR_MS: nat := 31_536_000_000

  /** When the loop last woke; at first, when it started. */
  function LastWake(trace: seq<Happening>, started: nat): nat {
    if trace == [] then started else trace[|trace| - 1].now
  }

  predicate StallIsDue(cfg: Config, w: Wait, started: nat, t: nat) {
    if cfg.opts.stallSecs > 0 then StallClock(cfg, w.trace, started) + cfg.opts.stallSecs * 1000 <= t
    else LastWake(w.trace, started) + YEAR_MS <= t
  }

  predicate TimeoutIsDue(cfg: Config, w: Wait, started: nat, t: nat) {
    if cfg.opts.timeoutSecs > 0 then started + cfg.opts.timeoutSecs * 1000 <= t
    else LastWake(w.trace, started) + YEAR_MS <= t
  }

  predicate ReplyIsDue(w: Wait, started: nat, t: nat) {
    if w.s.reply.Some? then w.s.reply.value.deadline <= t else LastWake(w.trace, started) + YEAR_MS <= t
  }

  predicate EventIsQueued(feed: Feed, w: Wait, t: nat) {
    w.s.taken < |feed.arrivals| && feed.arrivals[w.s.taken].at <= t
  }

  predicate StreamHasEnded(feed: Feed, w: Wait, t: nat) {
    w.s.taken >= |feed.arrivals| && feed.endAt.Some? && feed.endAt.value <= t
  }

  /** The poll woke the loop with `wake`. */
  ghost predicate WokeWith(w: Wait, w': Wait, wake: Wake) {
    |w'.trace| == |w.trace| + 1 && w'.trace[..|w.trace|] == w.trace && w'.trace[|w.trace|].wake == wake
  }

  /** dsh: timeout, reply, stall, and only then what the channel holds. */
  ghost predicate DshSchedule(cfg: Config, feed: Feed, w: Wait, w': Wait, started: nat, t: nat) {
    var timeout, reply, stall :=
      TimeoutIsDue(cfg, w, started, t), ReplyIsDue(w, started, t), StallIsDue(cfg, w, started, t);
    var event, over := EventIsQueued(feed, w, t), StreamHasEnded(feed, w, t);
    && (WokeWith(w, w', TimeoutDue) <==> timeout)
    && (WokeWith(w, w', ReplyDue) <==> !timeout && reply)
    && (WokeWith(w, w', StallDue) <==> !timeout && !reply && stall)
    && (event ==> (WokeWith(w, w', GotEvent(feed.arrivals[w.s.taken].raw)) <==> !timeout && !reply && !stall))
    && (WokeWith(w, w', StreamEnd) <==> !timeout && !reply && !stall && over)
    && (w' == w <==> !timeout && !reply && !stall && !event && !over)
  }

  /** Codex: what the channel holds, then reply, stall and timeout. */
  ghost predicate CodexSchedule(cfg: Config, feed: Feed, w: Wait, w': Wait, started: nat, t: nat) {
    var timeout, reply, stall :=
      TimeoutIsDue(cfg, w, started, t), ReplyIsDue(w, started, t), StallIsDue(cfg, w, started, t);
    var event, over := EventIsQueued(feed, w, t), StreamHasEnded(feed, w, t);
    && (event ==> WokeWith(w, w', GotEvent(feed.arrivals[w.s.taken].raw)))
    && (WokeWith(w, w', StreamEnd) <==> over)
    && (WokeWith(w, w', ReplyDue) <==> !event && !over && reply)
    && (WokeWith(w, w', StallDue) <==> !event && !over && !reply && stall)
    && (WokeWith(w, w', TimeoutDue) <==> !event && !over && !reply && !stall && timeout)
    && (w' == w <==> !timeout && !reply && !stall && !event && !over)
  }

  lemma {:induction false} RoundIsLastWake(cfg: Config, feed: Feed, s: State, started: nat, ticks: seq<Tick>)
    ensures var w := WaitRun(cfg, feed, Begin(s, started), ticks);
      w.started == started && w.round == LastWake(w.trace, started)
  {
    if ticks != [] {
      RoundIsLastWake(cfg, feed, s, started, ticks[..|ticks| - 1]);
    }
  }

  /** The clocks of a wait, in its own terms. */
  ghost predicate Clocked(cfg: Config, w: Wait, started: nat) {
    w.started == started && w.round == LastWake(w.trace, started) && w.s.lastItem == StallClock(cfg, w.trace, started)
  }

  lemma DshStepSchedule(cfg: Config, feed: Feed, w: Wait, started: nat, tick: Tick)
    requires cfg.backend.Dsh? && w.end.None? && Clocked(cfg, w, started)
    ensures DshSchedule(cfg, feed, w, WaitStep(cfg, feed, w, tick), started, tick.poll)
  {
  }

  lemma CodexStepSchedule(cfg: Config, feed: Feed, w: Wait, started: nat, tick: Tick)
    requires cfg.backend.Codex? && w.end.None? && Clocked(cfg, w, started)
    ensures CodexSchedule(cfg, feed, w, WaitStep(cfg, feed, w, tick), started, tick.poll)
  {
  }

  /** A wait that still runs wakes at a poll exactly when something is due, with exactly the first that is due. */
  lemma WakesExactlyWhenDue(cfg: Config, feed: Feed, s: State, started: nat, ticks: seq<Tick>, tick: Tick)
    requires Ordered(started, ticks + [tick]) && WaitRun(cfg, feed, Begin(s, started), ticks).end.None?
    ensures var w := WaitRun(cfg, feed, Begin(s, started), ticks);
      var w' := WaitRun(cfg, feed, Begin(s, started), ticks + [tick]);
      if cfg.backend.Dsh? then DshSchedule(cfg, feed, w, w', started, tick.poll)
      else CodexSchedule(cfg, feed, w, w', started, tick.poll)
  {
    assert (ticks + [tick])[..|ticks|] == ticks;
    assert Ordered(started, ticks) by {
      assert forall i | 0 <= i < |ticks| :: ticks[i] == (ticks + [tick])[i];
    }
    RoundIsLastWake(cfg, feed, s, started, ticks);
    StallClockIsLastRestart(cfg, feed, s, started, ticks);
    var w := WaitRun(cfg, feed, Begin(s, started), ticks);
    if cfg.backend.Dsh? {
      DshStepSchedule(cfg, feed, w, started, tick);
    } else {
      CodexStepSchedule(cfg, feed, w, started, tick);
    }
  }

  // ---- what a wake reports ----

  /** Every wake but an event prints its own line; without --follow a stall ends the command, the others always do. */
  ghost predicate Reports(cfg: Config, s: State, wake: Wake, s': State, end: Option<End>) {
    match wake
    case TimeoutDue =>
      && s'.out.stdout == s.out.stdout + [TimeoutLine(cfg.threadId, s.turnId, cfg.opts.timeoutSecs, s.finalMessage)]
      && end == Some(Exited(3))
    case StallDue =>
      && s'.out.stdout == s.out.stdout + [StalledLine(cfg.threadId, s.turnId, cfg.opts.stallSecs, s.finalMessage)]
      && end == (if cfg.opts.follow then None else Some(Exited(3)))
    case ReplyDue =>
      && s'.out.stdout
         == s.out.stdout + [ErrorLine(NotRedelivered(match s.reply { case Some(r) => r.id case None => Null }))]
      && end == Some(Exited(4))
    case StreamEnd => s'.out.stdout == s.out.stdout + [ErrorLine(StreamEnded)] && end == Some(Exited(4))
    case GotEvent(_) => s'.taken == s.taken + 1
  }

  lemma WakeReports(cfg: Config, s: State, wake: Wake, now: nat)
    ensures var (s', step) := React(cfg, s, wake, now); Reports(cfg, s, wake, s', EndOf(step))
  {
    if wake.GotEvent? {
      SessionRuns.ReactCounts(cfg, s, wake, now);
    }
  }

  /** What a wake of a running wait prints and whether it ends the command. */
  lemma WakesReport(cfg: Config, feed: Feed, s: State, started: nat, ticks: seq<Tick>, tick: Tick, wake: Wake)
    requires WaitRun(cfg, feed, Begin(s, started), ticks).end.None?
    requires WokeWith(WaitRun(cfg, feed, Begin(s, started), ticks),
                      WaitRun(cfg, feed, Begin(s, started), ticks + [tick]), wake)
    ensures var w' := WaitRun(cfg, feed, Begin(s, started), ticks + [tick]);
      Reports(cfg, WaitRun(cfg, feed, Begin(s, started), ticks).s, wake, w'.s, w'.end)
  {
    assert (ticks + [tick])[..|ticks|] == ticks;
    WakeReports(cfg, WaitRun(cfg, feed, Begin(s, started), ticks).s, wake, tick.now);
  }

  // ---- limits of 0 seconds, and no awaited reply ----

  /** Nothing that is switched off ever wakes a wait whose polls lie less than a year apart. */
  ghost predicate OffStaysOff(cfg: Config, h: Happening, noReply: bool) {
    && (cfg.opts.stallSecs == 0 ==> !h.wake.StallDue?)
    && (cfg.opts.timeoutSecs == 0 ==> !h.wake.TimeoutDue?)
    && (noReply ==> !h.wake.ReplyDue?)
  }

  lemma {:induction false} ZeroMeansNever(cfg: Config, feed: Feed, s: State, started: nat, ticks: seq<Tick>, i: nat)
    requires Ordered(started, ticks) && forall j | 0 <= j < |ticks| :: ticks[j].poll < started + YEAR_MS
    requires i < |WaitRun(cfg, feed, Begin(s, started), ticks).trace|
    ensures OffStaysOff(cfg, WaitRun(cfg, feed, Begin(s, started), ticks).trace[i], s.reply.None?)
  {
    var init, tick := ticks[..|ticks| - 1], ticks[|ticks| - 1];
    var w := WaitRun(cfg, feed, Begin(s, started), init);
    if i < |w.trace| {
      ZeroMeansNever(cfg, feed, s, started, init, i);
    } else {
      RunTimed(cfg, feed, s, started, init);
      NoReplyStays(cfg, feed, s, started, init);
      OffStepStaysOff(cfg, feed, w, started, tick, s.reply.None?);
    }
  }

  lemma OffStepStaysOff(cfg: Config, feed: Feed, w: Wait, started: nat, tick: Tick, noReply: bool)
    requires started <= w.round && tick.poll < started + YEAR_MS && (noReply ==> w.s.reply.None?)
    requires |WaitStep(cfg, feed, w, tick).trace| > |w.trace|
    ensures OffStaysOff(cfg, WaitStep(cfg, feed, w, tick).trace[|w.trace|], noReply)
  {
  }

  lemma {:induction false} NoReplyStays(cfg: Config, feed: Feed, s: State, started: nat, ticks: seq<Tick>)
    ensures s.reply.None? ==> WaitRun(cfg, feed, Begin(s, started), ticks).s.reply.None?
  {
    if ticks != [] {
      var init, tick := ticks[..|ticks| - 1], ticks[|ticks| - 1];
      NoReplyStays(cfg, feed, s, started, init);
      var w := WaitRun(cfg, feed, Begin(s, started), init);
      var wake := WakeAt(cfg, feed, w, tick.poll);
      if wake.Some? {
        ReactStartsNoReply(cfg, w.s, wake.value, tick.now);
      }
    }
  }

  lemma ReactStartsNoReply(cfg: Config, s: State, wake: Wake, now: nat)
    ensures s.reply.None? ==> React(cfg, s, wake, now).0.reply.None?
  {
    if wake.GotEvent? && s.reply.None? {
      SessionRuns.ReplyStaysNone(cfg, s.(taken := s.taken + 1), wake.raw, now);
    }
  }
}
