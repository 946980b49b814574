/** The whole implicit-reply command: its output, its responses, and the replay of deferred completions. */
module ReplyRuns {
  import opened Wrappers
  import opened Normalize
  import opened Session
  import opened Selection
  import opened SelectionRuns
  import SessionRuns
  import Transport

  ghost predicate AllDeferrable(deferred: seq<Transport.Event>) {
    forall i | 0 <= i < |deferred| :: DeferDuringSelection(deferred[i])
  }

  lemma {:induction false} DeferredAreDeferrable(feed: Feed, from: nat, to: nat)
    requires from <= to <= |feed.arrivals|
    ensures AllDeferrable(DeferredIn(feed, from, to))
  {
    if from < to {
      DeferredAreDeferrable(feed, from, to - 1);
    }
  }

  /** A replayed completion answers nothing, and prints only the line it ends the command with. */
  lemma CompletionProcessed(cfg: Config, s: State, raw: Transport.Event, now: nat)
    requires s.taken > 0 && DeferDuringSelection(raw)
    ensures var (s', step) := Process(cfg, s, raw, now);
      && s'.sent == s.sent && s'.taken == s.taken
      && (!step.Exit? ==> s'.out.stdout == s.out.stdout)
      && (step.Exit? ==>
            && s'.out.stdout != [] && s'.out.stdout[..|s'.out.stdout| - 1] == s.out.stdout
            && s'.out.stdout[|s'.out.stdout| - 1].TurnLine?
            && step.code == SessionRuns.CodeOf(s'.out.stdout[|s'.out.stdout| - 1]))
  {
    SessionRuns.ProcessCounts(cfg, s, raw, now);
  }

  /** The replay got through `k` completions, and the next one, if any, ended the command. */
  ghost predicate EndsAt(cfg: Config, s: State, deferred: seq<Transport.Event>, now: nat, k: nat)
    requires s.taken > 0 && k <= |deferred|
  {
    var before, all := Replay(cfg, s, deferred[..k], now), Replay(cfg, s, deferred, now);
    && before.1.Continue?
    && (if k == |deferred| then all == before else !all.1.Continue? && all == Process(cfg, before.0, deferred[k], now))
  }

  /** The deferred completions are handled in order, up to the first that does not continue. */
  lemma {:induction false} ReplayStopsAtFirstEnd(cfg: Config, s: State, deferred: seq<Transport.Event>, now: nat)
    returns (k: nat)
    requires s.taken > 0
    ensures k <= |deferred| && EndsAt(cfg, s, deferred, now, k)
  {
    if deferred == [] || Replay(cfg, s, deferred, now).1.Continue? {
      k := |deferred|;
      assert deferred[..|deferred|] == deferred;
    } else {
      var init := deferred[..|deferred| - 1];
      k := ReplayStopsAtFirstEnd(cfg, s, init, now);
      assert init[..k] == deferred[..k];
    }
  }

  lemma {:induction false} ReplayPrints(cfg: Config, s: State, deferred: seq<Transport.Event>, now: nat)
    requires s.taken > 0 && AllDeferrable(deferred)
    ensures var (s', step) := Replay(cfg, s, deferred, now);
      && s'.sent == s.sent && s'.taken == s.taken
      && (!step.Exit? ==> s'.out.stdout == s.out.stdout)
      && (step.Exit? ==>
            && s'.out.stdout != [] && s'.out.stdout[..|s'.out.stdout| - 1] == s.out.stdout
            && s'.out.stdout[|s'.out.stdout| - 1].TurnLine?
            && step.code == SessionRuns.CodeOf(s'.out.stdout[|s'.out.stdout| - 1]))
  {
    if deferred != [] {
      var init, last := deferred[..|deferred| - 1], deferred[|deferred| - 1];
      ReplayPrints(cfg, s, init, now);
      var (s1, step) := Replay(cfg, s, init, now);
      if step.Continue? {
        CompletionProcessed(cfg, s1, last, now);
      }
    }
  }

  // ---- output ----

  lemma AnswerPrints(cfg: Config, v: Window, payload: Payload, now: nat)
    requires AllDeferrable(v.deferred) && (v.deferred != [] ==> v.s.taken > 0)
    ensures var (s', step) := AnswerAndReplay(cfg, v, payload, now);
      && s'.taken == v.s.taken
      && (!step.Exit? ==> s'.out.stdout == v.s.out.stdout)
      && (step.Exit? ==>
            && s'.out.stdout != [] && s'.out.stdout[..|s'.out.stdout| - 1] == v.s.out.stdout
            && s'.out.stdout[|s'.out.stdout| - 1].TurnLine?
            && step.code == SessionRuns.CodeOf(s'.out.stdout[|s'.out.stdout| - 1]))
  {
    var s1 := Choose(cfg, v, payload).0;
    if v.deferred != [] {
      ReplayPrints(cfg, s1, v.deferred, now);
    }
  }

  lemma WindowDeferrable(cfg: Config, feed: Feed, s: State, started: nat, window: seq<Tick>)
    requires s.taken <= |feed.arrivals| && Ordered(started, window)
    ensures var v := WindowRun(cfg, feed, s, started, window);
      && WindowOk(cfg, feed, s, v) && AllDeferrable(v.deferred)
  {
    WindowKeeps(cfg, feed, s, started, window);
    DeferredAreDeferrable(feed, s.taken, WindowRun(cfg, feed, s, started, window).s.taken);
  }

  /** The implicit reply keeps the output grammar of the wait loop. */
  lemma ReplyOutputGrammar(cfg: Config, feed: Feed, s: State, payload: Payload,
                           started: nat, window: seq<Tick>, resumed: nat, ticks: seq<Tick>)
    requires s.taken <= |feed.arrivals| && Ordered(started, window)
    ensures var w := ReplyRun(cfg, feed, s, payload, started, window, resumed, ticks);
      && |s.out.stdout| <= |OutputOf(w)| && OutputOf(w)[..|s.out.stdout|] == s.out.stdout
      && SessionRuns.Grammar(cfg.opts.follow, OutputOf(w)[|s.out.stdout|..], w.end)
  {
    WindowDeferrable(cfg, feed, s, started, window);
    var v := WindowRun(cfg, feed, s, started, window);
    if v.failure.None? && v.remaining == Some(0) {
      AnswerPrints(cfg, v, payload, resumed);
      SessionRuns.OutputGrammar(cfg, feed, AnswerAndReplay(cfg, v, payload, resumed).0, resumed, ticks);
    }
  }

  // ---- responses ----

  lemma AnswerResponds(cfg: Config, feed: Feed, s: State, v: Window, payload: Payload, now: nat)
    requires WindowOk(cfg, feed, s, v) && AllDeferrable(v.deferred) && WireIds(cfg.backend, feed)
    requires v.deferred != [] ==> v.s.taken > 0
    ensures var s' := AnswerAndReplay(cfg, v, payload, now).0;
      && s'.taken == v.s.taken
      && |s.sent| <= |s'.sent| && s'.sent[..|s.sent|] == s.sent
      && SessionRuns.Attributed(feed, s'.sent, |s.sent|, s'.taken)
  {
    RepliesExactlyToOnlyRequest(cfg, feed, s, v, payload);
    CandidatesAreRequests(cfg, feed, s.taken, v.s.taken);
    AnswerPrints(cfg, v, payload, now);
    var s1 := Choose(cfg, v, payload).0;
    assert SessionRuns.Attributed(feed, s1.sent, |s.sent|, v.s.taken);
    if v.deferred != [] {
      ReplayPrints(cfg, s1, v.deferred, now);
    }
  }

  /** What the command has answered: nothing, or the selected request and then later requests of the stream. */
  lemma ReplyResponses(cfg: Config, feed: Feed, s: State, payload: Payload,
                       started: nat, window: seq<Tick>, resumed: nat, ticks: seq<Tick>)
    requires s.taken <= |feed.arrivals| && Ordered(started, window) && WireIds(cfg.backend, feed)
    ensures var w := ReplyRun(cfg, feed, s, payload, started, window, resumed, ticks);
      && |s.sent| <= |w.s.sent| && w.s.sent[..|s.sent|] == s.sent
      && SessionRuns.Attributed(feed, w.s.sent, |s.sent|, w.s.taken)
  {
    WindowDeferrable(cfg, feed, s, started, window);
    var v := WindowRun(cfg, feed, s, started, window);
    if v.failure.None? && v.remaining == Some(0) {
      AnswerResponds(cfg, feed, s, v, payload, resumed);
      var s1 := AnswerAndReplay(cfg, v, payload, resumed).0;
      SessionRuns.ResponsesAttributed(cfg, feed, s1, resumed, ticks);
      Extended(feed, s, s1, WaitRun(cfg, feed, Begin(s1, resumed), ticks).s);
    }
  }

  lemma Extended(feed: Feed, start: State, s: State, s': State)
    requires |start.sent| <= |s.sent| && s.sent[..|start.sent|] == start.sent
    requires SessionRuns.Attributed(feed, s.sent, |start.sent|, s.taken) && SessionRuns.Accounted(feed, s, s')
    ensures |start.sent| <= |s'.sent| && s'.sent[..|start.sent|] == start.sent
    ensures SessionRuns.Attributed(feed, s'.sent, |start.sent|, s'.taken)
  {
    forall i | 0 <= i < |s.sent| ensures s'.sent[i] == s.sent[i] {
      assert s'.sent[..|s.sent|][i] == s'.sent[i];
    }
  }

  /** When the stream repeats no request id, an implicit reply answers no id twice. */
  lemma ReplyOncePerId(cfg: Config, feed: Feed, s: State, payload: Payload,
                       started: nat, window: seq<Tick>, resumed: nat, ticks: seq<Tick>, i: nat, j: nat)
    requires s.taken <= |feed.arrivals| && Ordered(started, window)
    requires WireIds(cfg.backend, feed) && SessionRuns.DistinctRequestIds(feed)
    requires |s.sent| <= i < j < |ReplyRun(cfg, feed, s, payload, started, window, resumed, ticks).s.sent|
    ensures var sent := ReplyRun(cfg, feed, s, payload, started, window, resumed, ticks).s.sent;
      sent[i].response.id != sent[j].response.id
  {
    ReplyResponses(cfg, feed, s, payload, started, window, resumed, ticks);
  }
}
