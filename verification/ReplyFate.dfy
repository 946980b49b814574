/**
 * What becomes of an explicit dsh reply: the first of its request, its resolution, a completion, the close and the
 * deadline decides.
 */
module ReplyFate {
  import opened Wrappers
  import opened JsonValue
  import opened RequestIds
  import opened Normalize
  import opened Session
  import SessionRuns
  import Transport

  /** What an event means for a reply that is still waiting. */
  datatype Verdict = Undecided | Asked(name: string) | Elsewhere | Over | Lost

  function VerdictOf(cfg: Config, r: PendingReply, raw: Transport.Event): Verdict {
    match raw
    case Closed(_) => Lost
    case ServerRequest(id, name, params) =>
      if ThreadOf(Dsh, params) == Some(cfg.threadId) && SameRequestId(Dsh, r.id, id) then Asked(name) else Undecided
    case Notification(name, params) =>
      if ThreadOf(Dsh, params) != Some(cfg.threadId) then Undecided
      else if name == "turn/completed" then Over
      else if name == "request/resolved" && SameRequestId(Dsh, r.id, GetOrNull(params, "requestId")) then Elsewhere
      else Undecided
  }

  /** The first deciding event between two positions of the stream. */
  function FirstDeciding(cfg: Config, r: PendingReply, feed: Feed, from: nat, to: nat): (j: Option<nat>)
    requires from <= to <= |feed.arrivals|
    ensures j.Some? ==> from <= j.value < to && !VerdictOf(cfg, r, feed.arrivals[j.value].raw).Undecided?
    ensures forall i | from <= i < j.GetOr(to) :: VerdictOf(cfg, r, feed.arrivals[i].raw).Undecided?
  {
    if from == to then None
    else
      var earlier := FirstDeciding(cfg, r, feed, from, to - 1);
      if earlier.Some? then earlier
      else if VerdictOf(cfg, r, feed.arrivals[to - 1].raw).Undecided? then None
      else Some(to - 1)
  }

  // ---- one event ----

  ghost predicate Decides(cfg: Config, s: State, r: PendingReply, raw: Transport.Event, s': State, step: Step)
    requires s.taken > 0
  {
    && s'.taken == s.taken
    && match VerdictOf(cfg, r, raw)
       case Undecided => step == Continue && s'.reply == Some(r) && s'.sent == s.sent
       case Asked(name) =>
         && s'.reply.None?
         && (match BodyOf(Dsh, name, r.payload)
             case Some(body) => step == Continue && s'.sent == s.sent + [Sent(Result(r.id, body), s.taken - 1)]
             case None => step == Fail(NoDecisionFor(name)) && s'.sent == s.sent)
       case Elsewhere => step == Fail(AlreadyResolved) && s'.reply == Some(r) && s'.sent == s.sent
       case Over => step == Fail(EndedBeforeRedelivery) && s'.reply == Some(r) && s'.sent == s.sent
       case Lost => step == Exit(EXIT_ERROR) && s'.reply == Some(r) && s'.sent == s.sent
  }

  lemma RequestDecides(cfg: Config, s: State, r: PendingReply, raw: Transport.Event, now: nat)
    requires cfg.backend.Dsh? && s.taken > 0 && s.reply == Some(r) && raw.ServerRequest?
    ensures var (s', step) := Process(cfg, s, raw, now); Decides(cfg, s, r, raw, s', step)
  {
  }

  lemma NotificationDecides(cfg: Config, s: State, r: PendingReply, raw: Transport.Event, now: nat)
    requires cfg.backend.Dsh? && s.taken > 0 && s.reply == Some(r) && raw.Notification?
    ensures var (s', step) := Process(cfg, s, raw, now); Decides(cfg, s, r, raw, s', step)
  {
    PendingNormalizes(cfg, s, r, raw);
  }

  /** While a reply is pending every dsh notification but three kinds is quiet. */
  lemma PendingNormalizes(cfg: Config, s: State, r: PendingReply, raw: Transport.Event)
    requires cfg.backend.Dsh? && s.reply == Some(r) && raw.Notification?
    ensures var event := Normalized(Dsh, raw, ContextOf(cfg, s));
      match VerdictOf(cfg, r, raw)
      case Over => event == Err(EndedBeforeRedelivery)
      case Elsewhere => event.Ok? && event.value.RequestResolved? && SameRequestId(Dsh, r.id, event.value.id)
      case _ => event.Ok? && (event.value.Ignore? || event.value.Update?
                              || (event.value.RequestResolved? && !SameRequestId(Dsh, r.id, event.value.id)))
  {
  }

  lemma EventDecides(cfg: Config, s: State, r: PendingReply, raw: Transport.Event, now: nat)
    requires cfg.backend.Dsh? && s.taken > 0 && s.reply == Some(r)
    ensures var (s', step) := Process(cfg, s, raw, now); Decides(cfg, s, r, raw, s', step)
  {
    match raw
    case ServerRequest(_, _, _) => RequestDecides(cfg, s, r, raw, now);
    case Notification(_, _) => NotificationDecides(cfg, s, r, raw, now);
    case Closed(_) =>
  }

  // ---- the whole wait ----

  /** Where the reply stands, by the first deciding event taken; `end` is how the wait ended, if it has. */
  ghost predicate Fate(cfg: Config, feed: Feed, start: State, r: PendingReply, s: State, end: Option<End>) {
    && start.taken <= s.taken <= |feed.arrivals| && start.sent <= s.sent
    && match FirstDeciding(cfg, r, feed, start.taken, s.taken)
       case None => s.reply == Some(r) && s.sent == start.sent && (end.Some? ==> end.value.Exited?)
       case Some(j) =>
         match VerdictOf(cfg, r, feed.arrivals[j].raw)
         case Asked(name) =>
           && s.reply.None?
           && (match BodyOf(Dsh, name, r.payload)
               case Some(body) => |s.sent| > |start.sent| && s.sent[|start.sent|] == Sent(Result(r.id, body), j)
               case None => Stops(s, end, j, Failed(NoDecisionFor(name))) && s.sent == start.sent)
         case Elsewhere => Stops(s, end, j, Failed(AlreadyResolved)) && s.sent == start.sent
         case Over => Stops(s, end, j, Failed(EndedBeforeRedelivery)) && s.sent == start.sent
         case _ => Stops(s, end, j, Exited(EXIT_ERROR)) && s.sent == start.sent
  }

  /** The event at `j` was the last taken and ended the wait this way. */
  predicate Stops(s: State, end: Option<End>, j: nat, how: End) { s.taken == j + 1 && end == Some(how) }

  lemma FateByEvent(cfg: Config, feed: Feed, start: State, r: PendingReply, s: State, s': State, raw: Transport.Event,
    step: Step)
    requires Fate(cfg, feed, start, r, s, None) && s.reply == Some(r)
    requires s.taken < |feed.arrivals| && feed.arrivals[s.taken].raw == raw
    requires Decides(cfg, s.(taken := s.taken + 1), r, raw, s', step)
    ensures Fate(cfg, feed, start, r, s', EndOf(step))
  {
  }

  /** Once answered, a reply stays answered. */
  lemma FateAfterAnswer(cfg: Config, feed: Feed, start: State, r: PendingReply, s: State, s': State, end: Option<End>)
    requires Fate(cfg, feed, start, r, s, None) && s.reply.None?
    requires s.sent <= s'.sent && s.taken <= s'.taken <= s.taken + 1 && s'.taken <= |feed.arrivals| && s'.reply.None?
    ensures Fate(cfg, feed, start, r, s', end)
  {
  }

  lemma DeadlineKeeps(cfg: Config, s: State, wake: Wake, now: nat)
    requires !wake.GotEvent?
    ensures var (s', step) := React(cfg, s, wake, now);
      s'.sent == s.sent && s'.taken == s.taken && s'.reply == s.reply && !step.Fail?
  {
  }

  lemma AnsweredStays(cfg: Config, s: State, raw: Transport.Event, now: nat)
    requires s.taken > 0 && s.reply.None?
    ensures var s' := Process(cfg, s, raw, now).0; s'.reply.None? && s.sent <= s'.sent && s'.taken == s.taken
  {
    SessionRuns.ProcessResponds(cfg, s, raw, now);
    SessionRuns.ProcessCounts(cfg, s, raw, now);
  }

  lemma FateStep(cfg: Config, feed: Feed, start: State, r: PendingReply, s: State, wake: Wake, t: nat, now: nat)
    requires cfg.backend.Dsh? && Fate(cfg, feed, start, r, s, None)
    requires wake.GotEvent? ==> Recv(feed, s.taken, t) == Some(wake)
    ensures var (s', step) := React(cfg, s, wake, now); Fate(cfg, feed, start, r, s', EndOf(step))
  {
    var (s', step) := React(cfg, s, wake, now);
    if !wake.GotEvent? {
      DeadlineKeeps(cfg, s, wake, now);
    } else {
      var s1 := s.(taken := s.taken + 1);
      assert React(cfg, s, wake, now) == Process(cfg, s1, wake.raw, now);
      if s.reply.Some? {
        EventDecides(cfg, s1, r, wake.raw, now);
        FateByEvent(cfg, feed, start, r, s, s', wake.raw, step);
      } else {
        AnsweredStays(cfg, s1, wake.raw, now);
        FateAfterAnswer(cfg, feed, start, r, s, s', EndOf(step));
      }
    }
  }

  /** Before its deadline the reply is not given up; from the deadline on nothing else happens to it. */
  ghost predicate InTime(cfg: Config, feed: Feed, start: State, r: PendingReply, w: Wait) {
    && start.taken <= w.s.taken <= |feed.arrivals|
    && (forall i | 0 <= i < |w.trace| ::
      start.taken <= w.trace[i].taken <= w.s.taken && OnTime(cfg, feed, start, r, w.trace[i]))
  }

  predicate OnTime(cfg: Config, feed: Feed, start: State, r: PendingReply, h: Happening) {
    var waiting := start.taken <= h.taken <= |feed.arrivals| && FirstDeciding(cfg, r, feed, start.taken, h.taken).None?;
    waiting ==>
      && (h.wake.ReplyDue? ==> r.deadline <= h.poll)
      && (r.deadline <= h.poll ==> h.wake.ReplyDue? || h.wake.TimeoutDue?)
  }

  lemma InTimeStep(cfg: Config, feed: Feed, start: State, r: PendingReply, w: Wait, wake: Wake, tick: Tick)
    requires cfg.backend.Dsh? && InTime(cfg, feed, start, r, w) && Fate(cfg, feed, start, r, w.s, None) && w.end.None?
    requires WakeAt(cfg, feed, w, tick.poll) == Some(wake)
    ensures InTime(cfg, feed, start, r, Woken(cfg, w, wake, tick))
  {
    SessionRuns.ReactCounts(cfg, w.s, wake, tick.now);
    var h := HappeningOf(cfg, w, wake, tick);
    assert OnTime(cfg, feed, start, r, h);
  }

  /**
   * The fate of an explicit dsh reply, in every wait: the first event that is its request, its resolution, a completion
   * of the thread or the close decides it, provided it is taken before the deadline; until then nothing is sent.
   */
  lemma {:induction false} FirstEventDecides(cfg: Config, feed: Feed, start: State, r: PendingReply, started: nat,
    ticks: seq<Tick>)
    requires cfg.backend.Dsh? && start.reply == Some(r) && start.taken <= |feed.arrivals|
    ensures var w := WaitRun(cfg, feed, Begin(start, started), ticks);
      Fate(cfg, feed, start, r, w.s, w.end) && InTime(cfg, feed, start, r, w)
  {
    if ticks != [] {
      var init, tick := ticks[..|ticks| - 1], ticks[|ticks| - 1];
      FirstEventDecides(cfg, feed, start, r, started, init);
      var w := WaitRun(cfg, feed, Begin(start, started), init);
      var wake := WakeAt(cfg, feed, w, tick.poll);
      if w.end.None? && wake.Some? {
        FateStep(cfg, feed, start, r, w.s, wake.value, tick.poll, tick.now);
        InTimeStep(cfg, feed, start, r, w, wake.value, tick);
      }
    }
  }
}
