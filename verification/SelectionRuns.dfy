/** What the selection window examines, when it answers, and that it loses nothing. */
module SelectionRuns {
  import opened Wrappers
  import opened JsonValue
  import opened RequestIds
  import opened Normalize
  import opened Session
  import opened Selection
  import Classes
  import Transport

  // ---- what the window is about, in terms of the stream ----

  /** A request of this thread. */
  predicate IsCandidate(cfg: Config, raw: Transport.Event) {
    && raw.ServerRequest?
    && match cfg.backend
       case Dsh => ThreadOf(Dsh, raw.params) == Some(cfg.threadId)
       case Codex => ThreadOf(Codex, raw.params).None? || ThreadOf(Codex, raw.params) == Some(cfg.threadId)
  }

  /** The id a resolution notice of this thread names: dsh only. */
  function ResolutionOf(cfg: Config, raw: Transport.Event): Option<Value> {
    if cfg.backend.Dsh? && raw.Notification? && raw.name == "request/resolved"
      && ThreadOf(Dsh, raw.params) == Some(cfg.threadId)
    then Some(GetOrNull(raw.params, "requestId")) else None
  }

  ghost predicate WireIds(b: Backend, feed: Feed) {
    forall i | 0 <= i < |feed.arrivals| && feed.arrivals[i].raw.ServerRequest? :: WireId(b, feed.arrivals[i].raw.id)
  }

  ghost predicate Sorted(feed: Feed) {
    forall i, j | 0 <= i < j < |feed.arrivals| :: feed.arrivals[i].at <= feed.arrivals[j].at
  }

  function DeferredIn(feed: Feed, from: nat, to: nat): seq<Transport.Event>
    requires from <= to <= |feed.arrivals|
  {
    if from == to then []
    else
      var raw := feed.arrivals[to - 1].raw;
      DeferredIn(feed, from, to - 1) + if DeferDuringSelection(raw) then [raw] else []
  }

  /** The requests of this thread between two positions of the stream. */
  function CandidatesIn(cfg: Config, feed: Feed, from: nat, to: nat): seq<Candidate>
    requires from <= to <= |feed.arrivals|
  {
    if from == to then []
    else
      var raw := feed.arrivals[to - 1].raw;
      CandidatesIn(cfg, feed, from, to - 1) +
        if IsCandidate(cfg, raw) then [Candidate(raw.id, raw.name, to - 1)] else []
  }

  /** The ids resolved between two positions of the stream. */
  function ResolvedIn(cfg: Config, feed: Feed, from: nat, to: nat): seq<Value>
    requires from <= to <= |feed.arrivals|
  {
    if from == to then []
    else
      var id := ResolutionOf(cfg, feed.arrivals[to - 1].raw);
      ResolvedIn(cfg, feed, from, to - 1) + if id.Some? then [id.value] else []
  }

  function SameCandidate(b: Backend): (Candidate, Candidate) -> bool {
    (x: Candidate, y: Candidate) => SameRequestId(b, x.id, y.id)
  }

  // ---- one examined event ----

  /** The step the window discards is always Continue. */
  lemma DiscardedStepIsContinue(cfg: Config, s: State, raw: Transport.Event, now: nat)
    requires s.taken > 0 && s.reply.None? && !DeferDuringSelection(raw)
    requires !raw.ServerRequest? && !raw.Closed?
    ensures var event := Normalized(cfg.backend, raw, ContextOf(cfg, s));
      && event.Ok?
      && var (s', step) := Handle(cfg, WithUnsubscribe(cfg, s, raw), event.value, now);
         step == Continue && s'.sent == s.sent && s'.out.stdout == s.out.stdout && s'.reply.None?
  {
    OnlyDeferredComplete(cfg.backend, raw, ContextOf(cfg, s));
    KindsAgree(cfg.backend, raw, ContextOf(cfg, s));
  }

  lemma ResolvesExactly(cfg: Config, s: State, raw: Transport.Event)
    requires !DeferDuringSelection(raw)
    ensures var event := Normalized(cfg.backend, raw, ContextOf(cfg, s));
      && event.Ok? && event.value.RequestResolved? == ResolutionOf(cfg, raw).Some?
      && (event.value.RequestResolved? ==> ResolutionOf(cfg, raw) == Some(event.value.id))
  {
    OnlyDeferredComplete(cfg.backend, raw, ContextOf(cfg, s));
  }

  lemma ExamineNotification(cfg: Config, v: Window, raw: Transport.Event, now: nat)
    requires v.failure.None? && v.s.reply.None? && raw.Notification?
    ensures var v' := Examine(cfg, v, raw, now);
      && v'.s.sent == v.s.sent && v'.s.out.stdout == v.s.out.stdout && v'.s.reply.None?
      && v' == v.(s := v'.s, deferred := v'.deferred, resolved := v'.resolved)
      && v'.deferred == v.deferred + (if DeferDuringSelection(raw) then [raw] else [])
      && v'.resolved == v.resolved + (if ResolutionOf(cfg, raw).Some? then [ResolutionOf(cfg, raw).value] else [])
  {
    if !DeferDuringSelection(raw) {
      var s := v.s.(taken := v.s.taken + 1);
      DiscardedStepIsContinue(cfg, s, raw, now);
      ResolvesExactly(cfg, s, raw);
      KindsAgree(cfg.backend, raw, ContextOf(cfg, s));
    }
  }

  lemma ExamineRequest(cfg: Config, v: Window, raw: Transport.Event, now: nat)
    requires v.failure.None? && raw.ServerRequest?
    ensures var v' := Examine(cfg, v, raw, now);
      && v'.s.sent == v.s.sent && v'.s.out.stdout == v.s.out.stdout && v'.s.reply == v.s.reply
      && v' == v.(s := v'.s, requests := v'.requests)
      && v'.requests == v.requests + (if IsCandidate(cfg, raw) && !Known(cfg.backend, v.requests, raw.id)
                                      then [Candidate(raw.id, raw.name, v.s.taken)] else [])
  {
  }

  // ---- the window's invariant ----

  ghost predicate WindowOk(cfg: Config, feed: Feed, start: State, v: Window) {
    var from, to := start.taken, v.s.taken;
    && from <= to <= |feed.arrivals|
    && v.s.sent == start.sent && v.s.out.stdout == start.out.stdout && v.s.reply.None?
    && v.deferred == DeferredIn(feed, from, to)
    && v.requests == Classes.Representatives(SameCandidate(cfg.backend), CandidatesIn(cfg, feed, from, to))
    && v.resolved == ResolvedIn(cfg, feed, from, to)
  }

  lemma CandidatesMore(cfg: Config, feed: Feed, from: nat, to: nat)
    requires from <= to < |feed.arrivals|
    ensures var raw := feed.arrivals[to].raw;
      var same, kept := SameCandidate(cfg.backend),
        Classes.Representatives(SameCandidate(cfg.backend), CandidatesIn(cfg, feed, from, to));
      Classes.Representatives(same, CandidatesIn(cfg, feed, from, to + 1))
      == kept + (if IsCandidate(cfg, raw) && !Known(cfg.backend, kept, raw.id) then [Candidate(raw.id, raw.name, to)]
        else [])
  {
    var raw := feed.arrivals[to].raw;
    var before, after := CandidatesIn(cfg, feed, from, to), CandidatesIn(cfg, feed, from, to + 1);
    if IsCandidate(cfg, raw) {
      var c := Candidate(raw.id, raw.name, to);
      assert after == before + [c] && after[..|before|] == before;
      var same, kept := SameCandidate(cfg.backend), Classes.Representatives(SameCandidate(cfg.backend), before);
      assert forall i | 0 <= i < |kept| :: same(kept[i], c) == SameRequestId(cfg.backend, kept[i].id, raw.id);
    } else {
      assert after == before;
    }
  }

  /** Everything examining `raw` does to the window, in the stream's terms. */
  ghost predicate Grows(cfg: Config, v: Window, v': Window, raw: Transport.Event) {
    && v'.s.taken == v.s.taken + 1
    && v'.s.sent == v.s.sent && v'.s.out.stdout == v.s.out.stdout && v'.s.reply == v.s.reply
    && v'.deferred == v.deferred + (if DeferDuringSelection(raw) then [raw] else [])
    && v'.resolved == v.resolved + (if ResolutionOf(cfg, raw).Some? then [ResolutionOf(cfg, raw).value] else [])
    && v'.requests == v.requests + (if IsCandidate(cfg, raw) && !Known(cfg.backend, v.requests, raw.id)
                                    then [Candidate(raw.id, raw.name, v.s.taken)] else [])
    && v'.remaining == v.remaining && v'.deadline == v.deadline
    && v'.failure == if raw.Closed? then Some(SocketClosed(raw.reason)) else None
  }

  lemma ExamineGrows(cfg: Config, v: Window, raw: Transport.Event, now: nat)
    requires v.failure.None? && v.s.reply.None?
    ensures Grows(cfg, v, Examine(cfg, v, raw, now), raw)
  {
    match raw
    case Notification(_, _) => ExamineNotification(cfg, v, raw, now);
    case ServerRequest(_, _, _) => ExamineRequest(cfg, v, raw, now);
    case Closed(_) =>
  }

  lemma ExamineKeeps(cfg: Config, feed: Feed, start: State, v: Window, v': Window)
    requires WindowOk(cfg, feed, start, v) && v.s.taken < |feed.arrivals|
      && Grows(cfg, v, v', feed.arrivals[v.s.taken].raw)
    ensures WindowOk(cfg, feed, start, v')
  {
    CandidatesMore(cfg, feed, start.taken, v.s.taken);
  }

  /** While collecting, everything examined was queued by now; while draining, exactly what the snapshot saw is left. */
  ghost predicate DrainOk(feed: Feed, from: nat, until: nat, v: Window, clock: nat) {
    && (forall i | from <= i < v.s.taken && i < |feed.arrivals| :: feed.arrivals[i].at <= v.deadline.GetOr(clock))
    && v.deadline.Some? == v.remaining.Some?
    && (v.deadline.Some? ==>
          && until <= v.deadline.value <= clock
          && v.s.taken + v.remaining.value == QueuedUpTo(feed, v.s.taken, v.deadline.value))
  }

  lemma {:induction false} QueuedIsPrefix(feed: Feed, taken: nat, t: nat)
    ensures var n := QueuedUpTo(feed, taken, t);
      && (forall i | taken <= i < n :: i < |feed.arrivals| && feed.arrivals[i].at <= t)
      && (taken <= n < |feed.arrivals| ==> t < feed.arrivals[n].at)
    decreases |feed.arrivals| - taken
  {
    if taken < |feed.arrivals| && feed.arrivals[taken].at <= t {
      QueuedIsPrefix(feed, taken + 1, t);
    }
  }

  /** The window's books and its drain stay right; while draining the stream cannot end. */
  ghost predicate StepOk(cfg: Config, feed: Feed, start: State, until: nat, v: Window, v': Window, clock: nat) {
    && WindowOk(cfg, feed, start, v')
    && (v'.failure.None? ==> DrainOk(feed, start.taken, until, v', clock))
    && (v.failure.None? && v'.failure.Some? ==>
      v'.failure.value.SocketClosed? || (v'.failure.value.StreamEnded? && v.remaining.None?))
  }

  lemma DrainStepKeeps(cfg: Config, feed: Feed, start: State, until: nat, v: Window, tick: Tick, clock: nat)
    requires WindowOk(cfg, feed, start, v) && clock <= tick.poll && !Finished(v) && v.remaining.Some?
    requires DrainOk(feed, start.taken, until, v, clock)
    ensures StepOk(cfg, feed, start, until, v, WindowStep(cfg, feed, until, v, tick), tick.poll)
  {
    QueuedIsPrefix(feed, v.s.taken, v.deadline.value);
    DrainStepExamines(cfg, feed, until, v, tick);
    DrainKeeps(cfg, feed, start, until, v, WindowStep(cfg, feed, until, v, tick), clock, tick.poll);
  }

  /** A drain step examines the next event, which the snapshot saw, and counts it. */
  lemma DrainStepExamines(cfg: Config, feed: Feed, until: nat, v: Window, tick: Tick)
    requires !Finished(v) && v.remaining.Some? && v.s.taken < |feed.arrivals| && v.s.reply.None?
    ensures Grows(cfg, v.(remaining := Some(v.remaining.value - 1)), WindowStep(cfg, feed, until, v, tick),
                  feed.arrivals[v.s.taken].raw)
  {
    ExamineGrows(cfg, v.(remaining := Some(v.remaining.value - 1)), feed.arrivals[v.s.taken].raw, tick.now);
  }

  lemma DrainKeeps(
      cfg: Config, feed: Feed, start: State, until: nat, v: Window, v': Window, clock: nat, t: nat)
    requires WindowOk(cfg, feed, start, v) && DrainOk(feed, start.taken, until, v, clock) && clock <= t && !Finished(v)
    requires v.remaining.Some? && v.s.taken < |feed.arrivals|
    requires Grows(cfg, v.(remaining := Some(v.remaining.value - 1)), v', feed.arrivals[v.s.taken].raw)
    ensures StepOk(cfg, feed, start, until, v, v', t)
  {
    ExamineKeeps(cfg, feed, start, v.(remaining := Some(v.remaining.value - 1)), v');
    DrainGoesOn(cfg, feed, start.taken, until, v, v', clock, t);
  }

  lemma DrainGoesOn(cfg: Config, feed: Feed, from: nat, until: nat, v: Window, v': Window, clock: nat, t: nat)
    requires DrainOk(feed, from, until, v, clock) && clock <= t && from <= v.s.taken < |feed.arrivals|
    requires v.remaining.Some? && v.remaining.value > 0
    requires Grows(cfg, v.(remaining := Some(v.remaining.value - 1)), v', feed.arrivals[v.s.taken].raw)
    ensures DrainOk(feed, from, until, v', t)
  {
    QueuedIsPrefix(feed, v.s.taken, v.deadline.value);
  }

  lemma CollectStepKeeps(cfg: Config, feed: Feed, start: State, until: nat, v: Window, tick: Tick, clock: nat)
    requires WindowOk(cfg, feed, start, v) && clock <= tick.poll && !Finished(v) && v.remaining.None?
    requires DrainOk(feed, start.taken, until, v, clock)
    ensures StepOk(cfg, feed, start, until, v, WindowStep(cfg, feed, until, v, tick), tick.poll)
  {
    var wake := Recv(feed, v.s.taken, tick.poll);
    if until <= tick.poll {
      QueuedIsPrefix(feed, v.s.taken, tick.poll);
    } else if wake.Some? && wake.value.GotEvent? {
      ExamineGrows(cfg, v, feed.arrivals[v.s.taken].raw, tick.now);
      ExamineKeeps(cfg, feed, start, v, WindowStep(cfg, feed, until, v, tick));
    }
  }

  lemma WindowStepKeeps(cfg: Config, feed: Feed, start: State, until: nat, v: Window, tick: Tick, clock: nat)
    requires WindowOk(cfg, feed, start, v) && clock <= tick.poll
    requires v.failure.None? ==> DrainOk(feed, start.taken, until, v, clock)
    ensures StepOk(cfg, feed, start, until, v, WindowStep(cfg, feed, until, v, tick), tick.poll)
  {
    if !Finished(v) {
      if v.remaining.Some? {
        DrainStepKeeps(cfg, feed, start, until, v, tick, clock);
      } else {
        CollectStepKeeps(cfg, feed, start, until, v, tick, clock);
      }
    }
  }

  function LastPoll(started: nat, ticks: seq<Tick>): nat {
    if ticks == [] then started else ticks[|ticks| - 1].poll
  }

  lemma {:induction false} WindowKeeps(cfg: Config, feed: Feed, s: State, started: nat, ticks: seq<Tick>)
    requires s.taken <= |feed.arrivals| && Ordered(started, ticks)
    ensures var v := WindowRun(cfg, feed, s, started, ticks);
      && WindowOk(cfg, feed, s, v)
      && (v.failure.None? ==> DrainOk(feed, s.taken, started + REPLY_REDELIVERY_MS, v, LastPoll(started, ticks)))
      && (v.failure.Some? ==> v.failure.value.SocketClosed? || v.failure.value.StreamEnded?)
  {
    if ticks != [] {
      var init, tick := ticks[..|ticks| - 1], ticks[|ticks| - 1];
      WindowKeeps(cfg, feed, s, started, init);
      WindowStepKeeps(cfg, feed, s, started + REPLY_REDELIVERY_MS,
                      WindowRun(cfg, feed, s, started, init), tick, LastPoll(started, init));
    }
  }

  // ---- the window loses nothing ----

  /** What a closed window has examined: exactly what was queued at its deadline poll. */
  ghost predicate ExaminedExactly(feed: Feed, start: State, until: nat, v: Window) {
    && v.deadline.Some? && until <= v.deadline.value
    && start.taken <= v.s.taken <= |feed.arrivals|
    && (forall i | start.taken <= i < |feed.arrivals| :: i < v.s.taken <==> feed.arrivals[i].at <= v.deadline.value)
    && v.deferred == DeferredIn(feed, start.taken, v.s.taken)
    && v.s.sent == start.sent && v.s.out.stdout == start.out.stdout
  }

  lemma ClosedWindow(cfg: Config, feed: Feed, start: State, until: nat, v: Window, clock: nat)
    requires WindowOk(cfg, feed, start, v) && DrainOk(feed, start.taken, until, v, clock) && Sorted(feed)
      && v.remaining == Some(0)
    ensures ExaminedExactly(feed, start, until, v)
  {
    QueuedIsPrefix(feed, v.s.taken, v.deadline.value);
  }

  /** The first poll at or after `t`. */
  function FirstPoll(ticks: seq<Tick>, t: nat): Option<nat> {
    if ticks == [] then None
    else
      var earlier := FirstPoll(ticks[..|ticks| - 1], t);
      if earlier.Some? then earlier
      else if t <= ticks[|ticks| - 1].poll then Some(ticks[|ticks| - 1].poll)
      else None
  }

  lemma StepBeginsDrain(cfg: Config, feed: Feed, until: nat, v: Window, tick: Tick)
    requires v.deadline.Some? == v.remaining.Some? && !Finished(v)
    ensures var v' := WindowStep(cfg, feed, until, v, tick);
      && v'.deadline.Some? == v'.remaining.Some?
      && v'.deadline ==
         if v.deadline.Some? then v.deadline else if until <= tick.poll then Some(tick.poll) else None
  {
  }

  /** The drain begins at the first poll at or after ten seconds from the start. */
  lemma {:induction false} DrainBeginsOnTime(cfg: Config, feed: Feed, s: State, started: nat, ticks: seq<Tick>)
    ensures var v := WindowRun(cfg, feed, s, started, ticks);
      && v.deadline.Some? == v.remaining.Some?
      && (v.failure.None? ==> v.deadline == FirstPoll(ticks, started + 10_000))
  {
    if ticks != [] {
      var init, tick := ticks[..|ticks| - 1], ticks[|ticks| - 1];
      DrainBeginsOnTime(cfg, feed, s, started, init);
      var v := WindowRun(cfg, feed, s, started, init);
      if !Finished(v) {
        StepBeginsDrain(cfg, feed, started + REPLY_REDELIVERY_MS, v, tick);
      }
    }
  }

  /**
   * A window that closes has examined every event queued at the first poll from ten seconds on and none after;
   * it has sent and printed nothing, and set aside exactly the completions among them, in order.
   */
  lemma WindowExaminesExactly(cfg: Config, feed: Feed, s: State, started: nat, ticks: seq<Tick>)
    requires s.taken <= |feed.arrivals| && Ordered(started, ticks) && Sorted(feed)
    requires var v := WindowRun(cfg, feed, s, started, ticks); v.failure.None? && v.remaining == Some(0)
    ensures ExaminedExactly(feed, s, started + 10_000, WindowRun(cfg, feed, s, started, ticks))
    ensures WindowRun(cfg, feed, s, started, ticks).deadline == FirstPoll(ticks, started + 10_000)
  {
    WindowKeeps(cfg, feed, s, started, ticks);
    DrainBeginsOnTime(cfg, feed, s, started, ticks);
    ClosedWindow(cfg, feed, s, started + REPLY_REDELIVERY_MS,
                 WindowRun(cfg, feed, s, started, ticks), LastPoll(started, ticks));
  }

  lemma DrainCounts(cfg: Config, feed: Feed, until: nat, v: Window, tick: Tick)
    requires v.remaining.Some?
    ensures var v' := WindowStep(cfg, feed, until, v, tick);
      v'.remaining == Some(if Finished(v) then v.remaining.value else v.remaining.value - 1)
  {
  }

  /** The drain ends after as many turns as its snapshot counted, whatever arrives meanwhile. */
  lemma {:induction false} DrainTerminates(cfg: Config, feed: Feed, s: State, started: nat, ticks: seq<Tick>,
    more: seq<Tick>)
    requires WindowRun(cfg, feed, s, started, ticks).remaining.Some?
    ensures var v, v' := WindowRun(cfg, feed, s, started, ticks), WindowRun(cfg, feed, s, started, ticks + more);
      && v'.remaining.Some?
      && (Finished(v') || v'.remaining.value + |more| == v.remaining.value)
  {
    if more == [] {
      assert ticks + more == ticks;
    } else {
      var init, tick := more[..|more| - 1], more[|more| - 1];
      DrainTerminates(cfg, feed, s, started, ticks, init);
      assert (ticks + more)[..|ticks + more| - 1] == ticks + init;
      DrainCounts(cfg, feed, started + REPLY_REDELIVERY_MS, WindowRun(cfg, feed, s, started, ticks + init), tick);
    }
  }

  // ---- when a reply is sent ----

  lemma CandidatesAreRequests(cfg: Config, feed: Feed, from: nat, to: nat)
    requires from <= to <= |feed.arrivals|
    ensures forall c | c in CandidatesIn(cfg, feed, from, to) ::
      && from <= c.frame < to && feed.arrivals[c.frame].raw.ServerRequest?
      && feed.arrivals[c.frame].raw.id == c.id && feed.arrivals[c.frame].raw.name == c.name
  {
  }

  /** Why grouping by `same_request_id` makes sense: on ids from the wire it is an equivalence. */
  lemma SameIsEquivalentOn(cfg: Config, feed: Feed, from: nat, to: nat)
    requires from <= to <= |feed.arrivals| && WireIds(cfg.backend, feed)
    ensures Classes.EquivalentOn(SameCandidate(cfg.backend), CandidatesIn(cfg, feed, from, to))
  {
    CandidatesAreRequests(cfg, feed, from, to);
    var cs, same := CandidatesIn(cfg, feed, from, to), SameCandidate(cfg.backend);
    forall x, y, z | x in cs && y in cs && z in cs
      ensures same(x, x) && same(x, y) == same(y, x) && (same(x, y) && same(y, z) ==> same(x, z))
    {
      SameIsEquivalence(cfg.backend, x.id, y.id, z.id);
    }
  }

  /**
   * After the window a reply is sent if and only if the examined frames hold requests of this thread, all
   * under one id, not resolved among them, that the payload can answer; it answers the first of them.
   */
  lemma RepliesExactlyToOnlyRequest(cfg: Config, feed: Feed, start: State, v: Window, payload: Payload)
    requires WindowOk(cfg, feed, start, v) && WireIds(cfg.backend, feed)
    ensures var cs, ids := CandidatesIn(cfg, feed, start.taken, v.s.taken),
      ResolvedIn(cfg, feed, start.taken, v.s.taken);
      var (s', step) := Choose(cfg, v, payload);
      && (step.Continue? <==>
            && cs != [] && Classes.AllSame(SameCandidate(cfg.backend), cs)
            && !AmongIds(cfg.backend, ids, cs[0].id) && BodyOf(cfg.backend, cs[0].name, payload).Some?)
      && (step.Continue? ==>
            s'.sent == v.s.sent + [Sent(Result(cs[0].id, BodyOf(cfg.backend, cs[0].name, payload).value), cs[0].frame)])
      && (!step.Continue? ==> step.Fail? && s' == v.s)
  {
    SameIsEquivalentOn(cfg, feed, start.taken, v.s.taken);
    Classes.OneRepresentative(SameCandidate(cfg.backend), CandidatesIn(cfg, feed, start.taken, v.s.taken));
  }

  /** Why no reply is sent: nothing to answer, several, one resolved meanwhile, or one the payload has no answer for. */
  lemma RefusesExactly(cfg: Config, feed: Feed, start: State, v: Window, payload: Payload)
    requires WindowOk(cfg, feed, start, v) && WireIds(cfg.backend, feed) && Choose(cfg, v, payload).1.Fail?
    ensures var cs, ids := CandidatesIn(cfg, feed, start.taken, v.s.taken),
        ResolvedIn(cfg, feed, start.taken, v.s.taken);
      var failure := Choose(cfg, v, payload).1.failure;
      && (failure == NothingRedelivered <==> cs == [])
      && (failure.SeveralRedelivered? <==> cs != [] && !Classes.AllSame(SameCandidate(cfg.backend), cs))
      && (failure.SeveralRedelivered? ==> 1 < failure.count <= |cs|)
      && (failure.SelectedResolved? ==> AmongIds(cfg.backend, ids, cs[0].id) && failure.id == cs[0].id)
      && (failure.NoDecisionFor? ==>
            !AmongIds(cfg.backend, ids, cs[0].id) && failure.name == cs[0].name
            && BodyOf(cfg.backend, cs[0].name, payload).None?)
  {
    SameIsEquivalentOn(cfg, feed, start.taken, v.s.taken);
    Classes.OneRepresentative(SameCandidate(cfg.backend), CandidatesIn(cfg, feed, start.taken, v.s.taken));
    Classes.RepresentativesAreFewer(SameCandidate(cfg.backend), CandidatesIn(cfg, feed, start.taken, v.s.taken));
  }
}
