/**
 * The implicit reply in the stream's own terms: what its window leaves of turn and text, and how the deferred
 * completions end the command or let it go on to wait.
 */
module ReplyStream {
  import opened Wrappers
  import opened Normalize
  import opened Session
  import opened Selection
  import opened SelectionRuns
  import ReplyRuns
  import StreamRuns
  import Transport

  // ---- the window ----

  /** The session's turn and text after the events between two positions, completions left out. */
  function TurnUntil(cfg: Config, feed: Feed, from: nat, to: nat, turn: Option<string>): Option<string>
    requires from <= to <= |feed.arrivals|
  {
    if from == to then turn
    else
      var before, raw := TurnUntil(cfg, feed, from, to - 1, turn), feed.arrivals[to - 1].raw;
      if DeferDuringSelection(raw) then before else StreamRuns.Either(StreamRuns.TurnIn(cfg, raw, before), before)
  }

  function TextUntil(cfg: Config, feed: Feed, from: nat, to: nat, text: string): string
    requires from <= to <= |feed.arrivals|
  {
    if from == to then text
    else
      var before, raw := TextUntil(cfg, feed, from, to - 1, text), feed.arrivals[to - 1].raw;
      if DeferDuringSelection(raw) then before else StreamRuns.TextIn(cfg, raw).GetOr(before)
  }

  ghost predicate Folded(cfg: Config, feed: Feed, start: State, s: State) {
    && start.taken <= s.taken <= |feed.arrivals|
    && s.turnId == TurnUntil(cfg, feed, start.taken, s.taken, start.turnId)
    && s.finalMessage == TextUntil(cfg, feed, start.taken, s.taken, start.finalMessage)
  }

  /** One event examined in the window folds into turn and text, unless it is set aside. */
  lemma ExamineFolds(cfg: Config, v: Window, raw: Transport.Event, now: nat)
    requires v.failure.None? && v.s.reply.None?
    ensures var s, s' := v.s, Examine(cfg, v, raw, now).s;
      && s'.turnId == (if DeferDuringSelection(raw) then s.turnId
                       else StreamRuns.Either(StreamRuns.TurnIn(cfg, raw, s.turnId), s.turnId))
      && s'.finalMessage == (if DeferDuringSelection(raw) then s.finalMessage
                             else StreamRuns.TextIn(cfg, raw).GetOr(s.finalMessage))
  {
    var s := v.s.(taken := v.s.taken + 1);
    if raw.Notification? && !DeferDuringSelection(raw) {
      NotificationFolds(cfg, v, raw, now);
    }
  }

  lemma NotificationFolds(cfg: Config, v: Window, raw: Transport.Event, now: nat)
    requires v.failure.None? && v.s.reply.None? && raw.Notification? && !DeferDuringSelection(raw)
    ensures var s, s' := v.s, Examine(cfg, v, raw, now).s;
      && s'.turnId == StreamRuns.Either(StreamRuns.TurnIn(cfg, raw, s.turnId), s.turnId)
      && s'.finalMessage == StreamRuns.TextIn(cfg, raw).GetOr(s.finalMessage)
  {
    var s := v.s.(taken := v.s.taken + 1);
    OnlyDeferredComplete(cfg.backend, raw, ContextOf(cfg, s));
    KindsAgree(cfg.backend, raw, ContextOf(cfg, s));
    var event := Normalized(cfg.backend, raw, ContextOf(cfg, s)).value;
    StreamRuns.EventHandled(cfg, s, raw, now);
    assert Examine(cfg, v, raw, now).s == Process(cfg, s, raw, now).0;
  }

  lemma WindowStepFolds(cfg: Config, feed: Feed, until: nat, start: State, v: Window, tick: Tick)
    requires v.s.reply.None? && Folded(cfg, feed, start, v.s)
    ensures Folded(cfg, feed, start, WindowStep(cfg, feed, until, v, tick).s)
  {
    if !Finished(v) && v.s.taken < |feed.arrivals| {
      var raw := feed.arrivals[v.s.taken].raw;
      ExamineFolds(cfg, v, raw, tick.now);
      if v.remaining.Some? {
        ExamineFolds(cfg, v.(remaining := Some(v.remaining.value - 1)), raw, tick.now);
      }
    }
  }

  /** What the window leaves is the fold of what it examined, completions left out. */
  lemma {:induction false} WindowFolds(cfg: Config, feed: Feed, s: State, started: nat, window: seq<Tick>)
    requires s.taken <= |feed.arrivals| && Ordered(started, window)
    ensures Folded(cfg, feed, s, WindowRun(cfg, feed, s, started, window).s)
  {
    if window != [] {
      var init, tick := window[..|window| - 1], window[|window| - 1];
      WindowFolds(cfg, feed, s, started, init);
      WindowKeeps(cfg, feed, s, started, init);
      WindowStepFolds(cfg, feed, started + REPLY_REDELIVERY_MS, s, WindowRun(cfg, feed, s, started, init), tick);
    }
  }

  // ---- the replay ----

  /** The session's turn after the completions replayed so far. */
  function TurnReplayed(cfg: Config, deferred: seq<Transport.Event>, turn: Option<string>): Option<string> {
    if deferred == [] then turn
    else
      var before := TurnReplayed(cfg, deferred[..|deferred| - 1], turn);
      StreamRuns.Either(StreamRuns.TurnIn(cfg, deferred[|deferred| - 1], before), before)
  }

  /** What the k-th completion would do to the command. */
  function EndingAt(cfg: Config, deferred: seq<Transport.Event>, turn: Option<string>, k: nat): StreamRuns.Ending
    requires k < |deferred|
  {
    StreamRuns.EndingOf(cfg, deferred[k], TurnReplayed(cfg, deferred[..k], turn))
  }

  /** The first completion that does not let the command go on. */
  function FirstEnding(cfg: Config, deferred: seq<Transport.Event>, turn: Option<string>): (k: Option<nat>)
    ensures k.Some? ==> k.value < |deferred| && !EndingAt(cfg, deferred, turn, k.value).GoesOn?
    ensures forall i | 0 <= i < k.GetOr(|deferred|) :: EndingAt(cfg, deferred, turn, i).GoesOn?
  {
    if deferred == [] then None
    else
      var n := |deferred| - 1;
      var earlier := FirstEnding(cfg, deferred[..n], turn);
      assert forall i | 0 <= i < n :: deferred[..n][..i] == deferred[..i];
      assert forall i | 0 <= i < n :: EndingAt(cfg, deferred[..n], turn, i) == EndingAt(cfg, deferred, turn, i);
      if earlier.Some? then earlier
      else if EndingAt(cfg, deferred, turn, n).GoesOn? then None
      else Some(n)
  }

  /** How an ending leaves the command: a turn line and its code, or a failure. */
  ghost predicate EndsBy(cfg: Config, ending: StreamRuns.Ending, s: State, s': State, step: Step) {
    match ending
    case Ends(done) =>
      && step == Exit(if done.status == "completed" then 0 else 1)
      && s'.out.stdout == s.out.stdout
         + [TurnLine(done.status, cfg.threadId, done.turn, done.text.GetOr(s.finalMessage), done.fields)]
    case Breaks(failure) => step == Fail(failure) && s'.out.stdout == s.out.stdout
    case _ => false
  }

  /** The replay follows its completions: to the first that ends the command, or through all of them. */
  ghost predicate Follows(cfg: Config, deferred: seq<Transport.Event>, s: State, s': State, step: Step) {
    match FirstEnding(cfg, deferred, s.turnId)
    case Some(k) => EndsBy(cfg, EndingAt(cfg, deferred, s.turnId, k), s, s', step)
    case None =>
      && step.Continue? && s'.reply.None? && s'.out.stdout == s.out.stdout && s'.finalMessage == s.finalMessage
      && s'.turnId == TurnReplayed(cfg, deferred, s.turnId)
  }

  lemma CompletionFollows(cfg: Config, s: State, raw: Transport.Event, now: nat)
    requires s.taken > 0 && s.reply.None? && DeferDuringSelection(raw)
    ensures var (s', step) := Process(cfg, s, raw, now);
      var ending := StreamRuns.EndingOf(cfg, raw, s.turnId);
      && s'.reply.None?
      && if !ending.GoesOn? then EndsBy(cfg, ending, s, s', step)
         else
           && step.Continue? && s'.out.stdout == s.out.stdout && s'.finalMessage == s.finalMessage
           && s'.turnId == StreamRuns.Either(StreamRuns.TurnIn(cfg, raw, s.turnId), s.turnId)
  {
    StreamRuns.EventHandled(cfg, s, raw, now);
    assert StreamRuns.TextIn(cfg, raw) == None;
  }

  lemma {:induction false} ReplayFollows(cfg: Config, s: State, deferred: seq<Transport.Event>, now: nat)
    requires (deferred != [] ==> s.taken > 0) && s.reply.None? && ReplyRuns.AllDeferrable(deferred)
    ensures var (s', step) := Replay(cfg, s, deferred, now);
      s'.reply.None? && s'.taken == s.taken && Follows(cfg, deferred, s, s', step)
  {
    if deferred != [] {
      var n := |deferred| - 1;
      ReplayFollows(cfg, s, deferred[..n], now);
      var (s1, step1) := Replay(cfg, s, deferred[..n], now);
      assert forall i | 0 <= i < n :: deferred[..n][..i] == deferred[..i];
      if step1.Continue? {
        CompletionFollows(cfg, s1, deferred[n], now);
      }
    }
  }

  // ---- the whole command ----

  /** After a reply has been sent, the deferred completions end the command, or it waits on with what they left. */
  ghost predicate EndsWithDeferred(
      cfg: Config, feed: Feed, s: State, v: Window, w: Wait, resumed: nat, ticks: seq<Tick>)
    requires s.taken <= v.s.taken <= |feed.arrivals|
  {
    var deferred := DeferredIn(feed, s.taken, v.s.taken);
    var turn := TurnUntil(cfg, feed, s.taken, v.s.taken, s.turnId);
    var text := TextUntil(cfg, feed, s.taken, v.s.taken, s.finalMessage);
    match FirstEnding(cfg, deferred, turn)
    case Some(k) =>
      (match EndingAt(cfg, deferred, turn, k)
       case Ends(done) =>
         && w.end == Some(Exited(if done.status == "completed" then 0 else 1))
         && w.s.out.stdout == s.out.stdout
            + [TurnLine(done.status, cfg.threadId, done.turn, done.text.GetOr(text), done.fields)]
       case Breaks(failure) => w.end == Some(Failed(failure)) && w.s.out.stdout == s.out.stdout
       case _ => false)
    case None =>
      exists s1: State ::
        && s1.taken == v.s.taken && s1.reply.None? && s1.out.stdout == s.out.stdout
        && s1.turnId == TurnReplayed(cfg, deferred, turn) && s1.finalMessage == text
        && w == WaitRun(cfg, feed, Begin(s1, resumed), ticks)
  }

  /**
   * An implicit reply that has been sent goes on with the completions set aside: the first of them that completes the
   * session's turn ends the command and is printed, one that cannot be read fails it; otherwise it waits from there.
   */
  lemma ReplyEndsExactly(cfg: Config, feed: Feed, s: State, payload: Payload,
                         started: nat, window: seq<Tick>, resumed: nat, ticks: seq<Tick>)
    requires s.taken <= |feed.arrivals| && Ordered(started, window)
    requires var v := WindowRun(cfg, feed, s, started, window);
      v.failure.None? && v.remaining == Some(0) && Choose(cfg, v, payload).1.Continue?
    ensures var v := WindowRun(cfg, feed, s, started, window);
      && s.taken <= v.s.taken <= |feed.arrivals|
      && EndsWithDeferred(cfg, feed, s, v, ReplyRun(cfg, feed, s, payload, started, window, resumed, ticks),
                          resumed, ticks)
  {
    WindowFolds(cfg, feed, s, started, window);
    ReplyRuns.WindowDeferrable(cfg, feed, s, started, window);
    AnsweredEnds(cfg, feed, s, WindowRun(cfg, feed, s, started, window), payload, resumed, ticks,
                 ReplyRun(cfg, feed, s, payload, started, window, resumed, ticks));
  }

  lemma AnsweredEnds(cfg: Config, feed: Feed, s: State, v: Window, payload: Payload, resumed: nat, ticks: seq<Tick>,
    w: Wait)
    requires Folded(cfg, feed, s, v.s) && WindowOk(cfg, feed, s, v) && ReplyRuns.AllDeferrable(v.deferred)
    requires (v.deferred != [] ==> v.s.taken > 0) && Choose(cfg, v, payload).1.Continue?
    requires var (s1, step) := AnswerAndReplay(cfg, v, payload, resumed);
      if step.Continue? then w == WaitRun(cfg, feed, Begin(s1, resumed), ticks)
      else w.s == s1 && w.end == EndOf(step)
    ensures EndsWithDeferred(cfg, feed, s, v, w, resumed, ticks)
  {
    var s1 := Choose(cfg, v, payload).0;
    assert s1.turnId == v.s.turnId && s1.finalMessage == v.s.finalMessage && s1.taken == v.s.taken;
    assert s1.out.stdout == s.out.stdout && s1.reply.None?;
    ReplayFollows(cfg, s1, v.deferred, resumed);
    var (s2, step) := Replay(cfg, s1, v.deferred, resumed);
    assert AnswerAndReplay(cfg, v, payload, resumed) == (s2, step);
  }
}
