/** What holds of every run of the reverse-request protocol, under the environment's promises. */
module ProtocolRuns {
  import opened Wrappers
  import opened JsonValue
  import opened Protocol
  import opened ProtocolInvariant
  import Decimal
  import Turns

  // ---- every move keeps the invariant ----

  /** What is in the job queue does not matter to a settlement: it only adds its withdrawals. */
  lemma ResolveIgnoresJobs(s: State, jobs: seq<Job>, r: ReqId, resolvedBy: ResolvedBy, winner: Option<ConnId>,
    outcome: Outcome)
    requires r in s.requests && s.requests[r].thread in s.threads
    ensures Resolve(s.(jobs := jobs), r, resolvedBy, winner, outcome)
         == Resolve(s, r, resolvedBy, winner, outcome).(
              jobs := jobs + Withdrawals(s.conns, r, winner, SubscribersOf(s, r)))
  {
    var s1 := s.(jobs := jobs);
    assert forall c :: Hears(s1, r, winner, c) == Hears(s, r, winner, c);
    var a, a1 := Announce(s, r, resolvedBy, winner), Announce(s1, r, resolvedBy, winner);
    assert a1.conns == a.conns;
    SettleIgnoresJobs(a, a1.jobs, r, resolvedBy, winner, outcome);
  }

  lemma SettleIgnoresJobs(s: State, jobs: seq<Job>, r: ReqId, resolvedBy: ResolvedBy, winner: Option<ConnId>,
    outcome: Outcome)
    requires r in s.requests && s.requests[r].thread in s.threads
    ensures Settle(s.(jobs := jobs), r, resolvedBy, winner, outcome)
      == Settle(s, r, resolvedBy, winner, outcome).(jobs := jobs)
  {
    var s1 := s.(jobs := jobs);
    assert forall c :: Hears(s1, r, winner, c) == Hears(s, r, winner, c);
    assert Told(s1, r, winner) == Told(s, r, winner);
  }

  /** Taking the job off the queue and settling commute. */
  lemma PopThenResolve(s: State, r: ReqId, resolvedBy: ResolvedBy, winner: Option<ConnId>, outcome: Outcome)
    requires CanResolve(s, r, winner) && s.jobs != []
    ensures var s2 := Resolve(s, r, resolvedBy, winner, outcome);
      && s2.jobs != [] && s2.jobs[0] == s.jobs[0]
      && Resolve(s.(jobs := s.jobs[1..]), r, resolvedBy, winner, outcome) == s2.(jobs := s2.jobs[1..])
  {
    var w := Withdrawals(s.conns, r, winner, SubscribersOf(s, r));
    ResolveIgnoresJobs(s, s.jobs[1..], r, resolvedBy, winner, outcome);
    ResolveIgnoresJobs(s, s.jobs, r, resolvedBy, winner, outcome);
    assert s.(jobs := s.jobs) == s;
    assert (s.jobs + w)[1..] == s.jobs[1..] + w;
  }

  lemma HeadJobDecides(s: State)
    requires RequestsOk(s) && JobsOk(s) && s.jobs != []
    ensures var job := s.jobs[0];
      && job.id in s.requests && s.requests[job.id].thread in s.threads
      && (!s.requests[job.id].settled ==> CanResolve(s, job.id, Some(job.conn)))
  {
    assert JobOk(s, s.jobs[0]);
    assert RequestOk(s, s.jobs[0].id);
  }

  lemma RunJobKeeps(s: State)
    requires Inv(s) && s.jobs != []
    ensures Inv(RunJobStep(s))
  {
    var job := s.jobs[0];
    HeadJobDecides(s);
    if job.reply.Abandoned? || s.requests[job.id].settled {
      PopKeeps(s);
    } else {
      ResolveKeeps(s, job.id, ByClient, Some(job.conn), OutcomeOf(job.reply));
      ResolveFields(s, job.id, ByClient, Some(job.conn), OutcomeOf(job.reply));
      PopThenResolve(s, job.id, ByClient, Some(job.conn), OutcomeOf(job.reply));
      PopKeeps(Resolve(s, job.id, ByClient, Some(job.conn), OutcomeOf(job.reply)));
    }
  }

  lemma NewCanResolve(s: State, t: ThreadId, kind: Kind, params: Value, signal: Signal)
    requires t in s.threads
    ensures CanResolve(WithRequest(s, t, kind, params, signal), RequestName(s.seqNo + 1), None)
  {
  }

  lemma AfterRegisteringKeeps(s: State, r: ReqId, signal: Signal, subscribers: seq<ConnId>)
    requires Inv(s) && CanResolve(s, r, None)
    ensures Inv(AfterRegistering(s, r, signal, subscribers))
  {
    if signal.AbortedSignal? {
      ResolveKeeps(s, r, ByCancellation, None, Cancelled);
    } else {
      FanOutKeeps(s, r, subscribers);
    }
  }

  lemma AskKeeps(s: State, t: ThreadId, kind: Kind, params: Value, signal: Signal)
    requires Inv(s) && Owned(s, t)
    ensures Inv(AskStep(s, t, kind, params, signal))
  {
    assert Inv(WithRequest(s, t, kind, params, signal)) by { WithRequestKeeps(s, t, kind, params, signal); }
    NewCanResolve(s, t, kind, params, signal);
    AfterRegisteringKeeps(WithRequest(s, t, kind, params, signal), RequestName(s.seqNo + 1), signal,
      s.threads[t].subscribers);
    AskRegisters(s, t, kind, params, signal);
  }

  lemma AskRegisters(s: State, t: ThreadId, kind: Kind, params: Value, signal: Signal)
    requires Owned(s, t)
    ensures var s1, r := WithRequest(s, t, kind, params, signal), RequestName(s.seqNo + 1);
      && r in s1.requests && s1.requests[r].thread in s1.threads
      && AskStep(s, t, kind, params, signal) == AfterRegistering(s1, r, signal, s.threads[t].subscribers)
  {
  }

  lemma AbortKeeps(s: State, r: ReqId)
    requires Inv(s)
    ensures Inv(AbortStep(s, r))
  {
    if r in s.requests && s.requests[r].listening && s.requests[r].thread in s.threads {
      ListenersAreUnsettled(s, r);
      ResolveKeeps(s, r, ByCancellation, None, Cancelled);
    }
  }

  /** Why the unguarded abort listener is safe: settling detached it. */
  lemma ListenersAreUnsettled(s: State, r: ReqId)
    requires Inv(s) && r in s.requests && s.requests[r].listening
    ensures !s.requests[r].settled
  {
    assert RequestOk(s, r);
  }

  lemma TimersOnlyKeeps(s: State, timers: seq<(ConnId, ThreadId)>)
    requires Inv(s)
    ensures Inv(s.(timers := timers))
  {
    var s' := s.(timers := timers);
    SubscribersChangedBy(s, s');
    CosmeticKeeps(s, s');
  }

  lemma SubscribersChangedBy(s: State, s': State)
    requires ThreadsOk(s) && s'.threads == s.threads && s'.conns == s.conns && s'.requests == s.requests
    ensures ThreadsOk(s')
  {
    forall t | t in s'.threads ensures ThreadOk(s', t) {
      assert ThreadOk(s, t);
    }
  }

  lemma StepKeeps(s: State, m: Move)
    requires Inv(s) && Enabled(s, m)
    ensures Inv(Step(s, m))
  {
    match m
    case Connect(c) => if c !in s.conns { ConnectKeeps(s, c); }
    case StartThread(c, t) =>
      if c in s.conns {
        NewThreadKeeps(s, t);
        SubscribedKeeps(s.(threads := s.threads[t := NewThread()]), c, t);
      }
    case Adopt(t) => if t !in s.threads { NewThreadKeeps(s, t); }
    case Resume(c, t) =>
      if c in s.conns && t in s.threads {
        SubscribedKeeps(s, c, t);
        TimersOnlyKeeps(Subscribed(s, c, t), s.timers + [(c, t)]);
      }
    case FireTimer =>
      if s.timers != [] {
        TimersOnlyKeeps(s, s.timers[1..]);
        var (c, t) := s.timers[0];
        if t in s.threads { RedeliverAllKeeps(s.(timers := s.timers[1..]), c, s.threads[t].pending); }
      }
    case Touch(c, t) => if c in s.conns && t in s.threads { SubscribedKeeps(s, c, t); }
    case Unsubscribe(c, t) => if c in s.conns { UnsubscribeKeeps(s, c, t); }
    case Close(c) => if c in s.conns { CloseKeeps(s, c); }
    case Ask(t, kind, params, signal) => if Owned(s, t) { AskKeeps(s, t, kind, params, signal); }
    case Answer(c, rpcId, answer) =>
      if c in s.conns && rpcId.Some? && !answer.Abandoned? { AnswerKeeps(s, c, KeyOf(rpcId.value), answer); }
    case RunJob => if s.jobs != [] { RunJobKeeps(s); }
    case Abort(r) => AbortKeeps(s, r);
    case SubmitTurn(c, t, messageId, textOk, agentRunning, agentLive) =>
      if c in s.conns && t in s.threads {
        SubscribedKeeps(s, c, t);
        if Accepts(s, t, textOk, agentRunning, agentLive) {
          TurnStepKeeps(Subscribed(s, c, t), t, Turns.Submit(messageId));
        }
      }
    case TurnInput(t, input) => if t in s.threads && !input.Submit? { TurnStepKeeps(s, t, input); }
    case AgentStatus(t, status) => if t in s.threads { BroadcastKeeps(s, t, StatusFrame(t, status)); }
    case AgentError(t, turn, message) => if t in s.threads { BroadcastKeeps(s, t, ErrorFrame(t, turn, message)); }
  }

  lemma {:induction false} RunKeeps(ms: seq<Move>)
    requires Legal(ms)
    ensures Inv(Run(ms))
  {
    if ms != [] {
      RunKeeps(ms[..|ms| - 1]);
      StepKeeps(Run(ms[..|ms| - 1]), ms[|ms| - 1]);
    }
  }

  // ---- frames about a request ----

  /**
   * What a connection has been sent about a request is nothing, the request, the notice, or the
   * request then the notice, each at most once; the winner never gets the notice, and the notice
   * means the request is settled.
   */
  lemma FramesPerRequest(ms: seq<Move>, c: ConnId, r: ReqId)
    requires Legal(ms) && c in Run(ms).conns && r in Run(ms).requests
    ensures var s := Run(ms);
      var sent, request := About(s.conns[c].sent, r), RequestFrameOf(s, r);
      && (sent == [] || sent == [request]
          || (s.requests[r].settled && r in s.history && s.history[r].winner != Some(c)
              && var notice := ResolvedFrame(r, s.requests[r].thread, s.history[r].resolvedBy);
                 sent == [notice] || sent == [request, notice]))
      && ((sent != [] && sent[0] == request) <==> c in s.requests[r].delivered)
      && ((r in s.history && c in s.history[r].told) <==> sent != [] && sent[|sent| - 1].ResolvedFrame?)
  {
    RunKeeps(ms);
    assert PairOk(Run(ms), c, r) && RequestOk(Run(ms), r);
    assert About(Run(ms).conns[c].sent, r) == Expected(Run(ms), c, r);
  }

  // ---- no answer is lost ----

  lemma NoAnswerLost(ms: seq<Move>, c: ConnId, r: ReqId)
    requires Legal(ms)
    requires IsOpen(Run(ms), c) && r in Run(ms).requests
    requires c in Run(ms).requests[r].delivered && !Run(ms).requests[r].settled
    ensures r in Run(ms).conns[c].outbound || Queued(Run(ms), c, r)
  {
    RunKeeps(ms);
    assert PairOk(Run(ms), c, r);
  }

  lemma PendingIsUnsettled(ms: seq<Move>, t: ThreadId, r: ReqId)
    requires Legal(ms) && t in Run(ms).threads
    ensures var s := Run(ms);
      && (r in s.threads[t].pending <==> r in s.requests && s.requests[r].thread == t && !s.requests[r].settled)
      && Distinct(s.threads[t].pending)
  {
    RunKeeps(ms);
    assert ThreadOk(Run(ms), t);
    assert r in Run(ms).requests ==> RequestOk(Run(ms), r);
  }

  /**
   * Whom a move delivers `r` to: the open subscribers at its creation, an open connection redelivered while it is
   * unsettled.
   */
  function RecipientsStep(s: State, m: Move, r: ReqId, earlier: set<ConnId>): set<ConnId> {
    match m
    case Ask(t, _, _, signal) =>
      if Owned(s, t) && r == RequestName(s.seqNo + 1) && !signal.AbortedSignal?
      then set c | c in s.threads[t].subscribers && IsOpen(s, c)
      else earlier
    case FireTimer =>
      if s.timers != [] && r in s.requests && s.timers[0].1 == s.requests[r].thread
         && !s.requests[r].settled && IsOpen(s, s.timers[0].0)
      then earlier + {s.timers[0].0}
      else earlier
    case _ => earlier
  }

  function Recipients(ms: seq<Move>, r: ReqId): set<ConnId> {
    if ms == [] then {}
    else RecipientsStep(Run(ms[..|ms| - 1]), ms[|ms| - 1], r, Recipients(ms[..|ms| - 1], r))
  }

  lemma {:induction false} FanOutDelivers(s: State, r: ReqId, cs: seq<ConnId>, q: ReqId, d: ConnId)
    requires r in s.requests && q in s.requests
    ensures d in FanOut(s, r, cs).requests[q].delivered <==>
      d in s.requests[q].delivered || (q == r && !s.requests[r].settled && d in cs && IsOpen(s, d))
  {
    if cs != [] {
      FanOutDelivers(s, r, cs[..|cs| - 1], q, d);
      DeliverAdds(FanOut(s, r, cs[..|cs| - 1]), r, cs[|cs| - 1], q, d);
      assert cs == cs[..|cs| - 1] + [cs[|cs| - 1]];
    }
  }

  lemma {:induction false} RedeliverAllDelivers(s: State, c: ConnId, rs: seq<ReqId>, q: ReqId, d: ConnId)
    requires q in s.requests
    ensures d in RedeliverAll(s, c, rs).requests[q].delivered <==>
      d in s.requests[q].delivered || (q in rs && !s.requests[q].settled && d == c && IsOpen(s, c))
  {
    if rs != [] {
      RedeliverAllDelivers(s, c, rs[..|rs| - 1], q, d);
      DeliverAdds(RedeliverAll(s, c, rs[..|rs| - 1]), rs[|rs| - 1], c, q, d);
      assert rs == rs[..|rs| - 1] + [rs[|rs| - 1]];
    }
  }

  lemma DeliverAdds(s: State, r: ReqId, c: ConnId, q: ReqId, d: ConnId)
    requires q in s.requests
    ensures d in Deliver(s, r, c).requests[q].delivered <==>
      d in s.requests[q].delivered || (q == r && d == c && !s.requests[r].settled && IsOpen(s, c))
  {
  }

  /** The moves that leave requests, outcomes and the job queue alone. */
  predicate Quiet(m: Move) {
    !m.FireTimer? && !m.Close? && !m.Ask? && !m.Answer? && !m.RunJob? && !m.Abort?
  }

  /** Bookkeeping that turn inputs and subscriptions never touch. */
  ghost predicate SameRecords(s: State, s': State) {
    && s'.requests == s.requests && s'.seqNo == s.seqNo && s'.jobs == s.jobs
    && s'.outcomes == s.outcomes && s'.history == s.history && s.conns.Keys <= s'.conns.Keys
  }

  lemma TurnStepQuiet(s: State, t: ThreadId, input: Turns.Input)
    requires t in s.threads
    ensures SameRecords(s, TurnStep(s, t, input))
  {
  }

  lemma QuietMove(s: State, m: Move)
    requires Quiet(m)
    ensures SameRecords(s, Step(s, m))
  {
    if m.TurnInput? {
      if m.thread in s.threads { TurnStepQuiet(s, m.thread, m.input); }
    } else if m.SubmitTurn? {
      if m.conn in s.conns && m.thread in s.threads {
        TurnStepQuiet(Subscribed(s, m.conn, m.thread), m.thread, Turns.Submit(m.messageId));
      }
    } else {
      SubscribingIsQuiet(s, m);
    }
  }

  lemma SubscribingIsQuiet(s: State, m: Move)
    requires Quiet(m) && !m.TurnInput? && !m.SubmitTurn?
    ensures SameRecords(s, Step(s, m))
  {
  }

  /** dsh asks about a registered thread that has a bridge turn in flight. */
  predicate AsksNow(s: State, m: Move) {
    m.Ask? && m.thread in s.threads && s.threads[m.thread].turn.inflight.Some?
  }

  /** Requests are created only by an ask on a thread with a bridge turn in flight, under the next number. */
  lemma RequestsAreAsked(s: State, m: Move)
    ensures Step(s, m).requests.Keys == s.requests.Keys + if AsksNow(s, m) then {RequestName(s.seqNo + 1)} else {}
  {
    if Quiet(m) {
      QuietMove(s, m);
    } else if m.Ask? {
      AskKeys(s, m.thread, m.kind, m.params, m.signal);
    } else if m.RunJob? || m.Abort? {
      DecidingAddsNothing(s, m);
    }
  }

  /** A new request is the one that was asked, under a fresh name. */
  lemma NewRequestIsAsked(s: State, m: Move, s': State)
    requires RequestsOk(s) && AsksNow(s, m) && s' == Step(s, m)
    ensures var r := RequestName(s.seqNo + 1);
      && r !in s.requests && r in s'.requests
      && RequestFrameOf(s', r) == RequestFrame(r, m.kind, m.thread, m.params)
  {
    FreshName(s);
    AskedAs(s, m.thread, m.kind, m.params, m.signal);
  }

  lemma AskedAs(s: State, t: ThreadId, kind: Kind, params: Value, signal: Signal)
    requires Owned(s, t)
    ensures var r, s' := RequestName(s.seqNo + 1), AskStep(s, t, kind, params, signal);
      r in s'.requests && RequestFrameOf(s', r) == RequestFrame(r, kind, t, params)
  {
    AskRegisters(s, t, kind, params, signal);
    var s1, r := WithRequest(s, t, kind, params, signal), RequestName(s.seqNo + 1);
    if signal.AbortedSignal? {
      ResolveKeepsFrames(s1, r, ByCancellation, None, Cancelled);
    }
  }

  lemma ResolveKeepsFrames(s: State, r: ReqId, resolvedBy: ResolvedBy, winner: Option<ConnId>, outcome: Outcome)
    requires r in s.requests && s.requests[r].thread in s.threads
    ensures r in Resolve(s, r, resolvedBy, winner, outcome).requests
    ensures RequestFrameOf(Resolve(s, r, resolvedBy, winner, outcome), r) == RequestFrameOf(s, r)
  {
  }

  lemma AskKeys(s: State, t: ThreadId, kind: Kind, params: Value, signal: Signal)
    ensures Owned(s, t) ==>
      AskStep(s, t, kind, params, signal).requests.Keys == s.requests.Keys + {RequestName(s.seqNo + 1)}
  {
    if Owned(s, t) {
      var s1, name := WithRequest(s, t, kind, params, signal), RequestName(s.seqNo + 1);
      ResolveDeliversNothing(s1, name, ByCancellation, None, Cancelled, name);
    }
  }

  lemma DecidingAddsNothing(s: State, m: Move)
    requires m.RunJob? || m.Abort?
    ensures Step(s, m).requests.Keys == s.requests.Keys
  {
    if m.RunJob? && s.jobs != [] {
      var job := s.jobs[0];
      if job.id in s.requests && s.requests[job.id].thread in s.threads {
        ResolveDeliversNothing(s.(jobs := s.jobs[1..]), job.id, ByClient, Some(job.conn), OutcomeOf(job.reply), job.id);
      }
    } else if m.Abort? && m.id in s.requests && s.requests[m.id].thread in s.threads {
      ResolveDeliversNothing(s, m.id, ByCancellation, None, Cancelled, m.id);
    }
  }

  lemma FireTimerDelivers(s: State, r: ReqId, d: ConnId)
    requires ThreadsOk(s) && RequestsOk(s) && r in s.requests && s.timers != []
    ensures d in FireTimerStep(s).requests[r].delivered <==>
      d in s.requests[r].delivered
      || (s.timers[0].1 == s.requests[r].thread && !s.requests[r].settled && d == s.timers[0].0 && IsOpen(s, d))
  {
    var (c, t) := s.timers[0];
    assert RequestOk(s, r);
    if t in s.threads {
      assert ThreadOk(s, t);
      RedeliverAllDelivers(s.(timers := s.timers[1..]), c, s.threads[t].pending, r, d);
    }
  }

  lemma AskDelivers(s: State, t: ThreadId, kind: Kind, params: Value, signal: Signal, r: ReqId, d: ConnId)
    requires RequestsOk(s) && Owned(s, t) && (r in s.requests || r == RequestName(s.seqNo + 1))
    ensures d in AskStep(s, t, kind, params, signal).requests[r].delivered <==>
      if r in s.requests then d in s.requests[r].delivered
      else !signal.AbortedSignal? && d in s.threads[t].subscribers && IsOpen(s, d)
  {
    FreshName(s);
    var s1, name := WithRequest(s, t, kind, params, signal), RequestName(s.seqNo + 1);
    assert s1.requests[r].delivered == if r in s.requests then s.requests[r].delivered else {};
    if signal.AbortedSignal? {
      ResolveDeliversNothing(s1, name, ByCancellation, None, Cancelled, r);
    } else {
      FanOutDelivers(s1, name, s.threads[t].subscribers, r, d);
    }
  }

  lemma ResolveDeliversNothing(s: State, r: ReqId, resolvedBy: ResolvedBy, winner: Option<ConnId>, outcome: Outcome,
    q: ReqId)
    requires r in s.requests && s.requests[r].thread in s.threads && q in s.requests
    ensures Resolve(s, r, resolvedBy, winner, outcome).requests.Keys == s.requests.Keys
    ensures Resolve(s, r, resolvedBy, winner, outcome).requests[q].delivered == s.requests[q].delivered
  {
  }

  lemma FireTimerRecipients(s: State, r: ReqId)
    requires ThreadsOk(s) && RequestsOk(s) && r in s.requests && s.timers != []
    ensures r in FireTimerStep(s).requests
    ensures FireTimerStep(s).requests[r].delivered == RecipientsStep(s, FireTimer, r, s.requests[r].delivered)
  {
    var delivered := FireTimerStep(s).requests[r].delivered;
    forall d
      ensures d in delivered <==>
        d in s.requests[r].delivered
        || (s.timers[0].1 == s.requests[r].thread && !s.requests[r].settled && d == s.timers[0].0 && IsOpen(s, d))
    {
      FireTimerDelivers(s, r, d);
    }
    TimerRecipients(s, r, delivered);
  }

  lemma TimerRecipients(s: State, r: ReqId, delivered: set<ConnId>)
    requires r in s.requests && s.timers != []
    requires forall d :: d in delivered <==>
      d in s.requests[r].delivered
      || (s.timers[0].1 == s.requests[r].thread && !s.requests[r].settled && d == s.timers[0].0 && IsOpen(s, d))
    ensures delivered == RecipientsStep(s, FireTimer, r, s.requests[r].delivered)
  {
  }

  lemma AskRecipients(s: State, t: ThreadId, kind: Kind, params: Value, signal: Signal, r: ReqId)
    requires RequestsOk(s) && Owned(s, t) && (r in s.requests || r == RequestName(s.seqNo + 1))
    ensures r in AskStep(s, t, kind, params, signal).requests
    ensures AskStep(s, t, kind, params, signal).requests[r].delivered ==
      RecipientsStep(s, Ask(t, kind, params, signal), r, if r in s.requests then s.requests[r].delivered else {})
  {
    FreshName(s);
    AskKeys(s, t, kind, params, signal);
    var delivered := AskStep(s, t, kind, params, signal).requests[r].delivered;
    forall d
      ensures d in delivered <==>
        if r in s.requests then d in s.requests[r].delivered
        else !signal.AbortedSignal? && d in s.threads[t].subscribers && IsOpen(s, d)
    {
      AskDelivers(s, t, kind, params, signal, r, d);
    }
    NewRecipients(s, t, kind, params, signal, r, delivered);
  }

  lemma NewRecipients(
      s: State, t: ThreadId, kind: Kind, params: Value, signal: Signal, r: ReqId, delivered: set<ConnId>)
    requires Owned(s, t) && (r in s.requests <==> r != RequestName(s.seqNo + 1))
    requires forall d :: d in delivered <==>
      if r in s.requests then d in s.requests[r].delivered
      else !signal.AbortedSignal? && d in s.threads[t].subscribers && IsOpen(s, d)
    ensures delivered ==
      RecipientsStep(s, Ask(t, kind, params, signal), r, if r in s.requests then s.requests[r].delivered else {})
  {
  }

  lemma DeliveredStep(s: State, m: Move, r: ReqId)
    requires ThreadsOk(s) && RequestsOk(s) && r in Step(s, m).requests
    ensures Step(s, m).requests[r].delivered ==
      RecipientsStep(s, m, r, if r in s.requests then s.requests[r].delivered else {})
  {
    RequestsAreAsked(s, m);
    if m.FireTimer? {
      if s.timers != [] { FireTimerRecipients(s, r); }
    } else if m.Ask? {
      if Owned(s, m.thread) { AskRecipients(s, m.thread, m.kind, m.params, m.signal, r); }
    } else {
      OthersDeliverNothing(s, m, r);
    }
  }

  lemma OthersDeliverNothing(s: State, m: Move, r: ReqId)
    requires !m.FireTimer? && !m.Ask? && r in s.requests
    ensures r in Step(s, m).requests && Step(s, m).requests[r].delivered == s.requests[r].delivered
  {
    if Quiet(m) {
      QuietMove(s, m);
    }
  }

  lemma {:induction false} DeliveredExactly(ms: seq<Move>, r: ReqId)
    requires Legal(ms)
    ensures Recipients(ms, r) == if r in Run(ms).requests then Run(ms).requests[r].delivered else {}
  {
    if ms != [] {
      var s, m := Run(ms[..|ms| - 1]), ms[|ms| - 1];
      RunKeeps(ms[..|ms| - 1]);
      DeliveredExactly(ms[..|ms| - 1], r);
      RecipientsNext(s, m, r);
    }
  }

  lemma RecipientsNext(s: State, m: Move, r: ReqId)
    requires ThreadsOk(s) && RequestsOk(s)
    ensures RecipientsStep(s, m, r, if r in s.requests then s.requests[r].delivered else {})
         == if r in Step(s, m).requests then Step(s, m).requests[r].delivered else {}
  {
    RequestsAreAsked(s, m);
    if r in Step(s, m).requests {
      DeliveredStep(s, m, r);
    }
  }

  // ---- what no move undoes ----

  /** Connections and requests stay, a request keeps its identity, and a settlement is never rewritten. */
  ghost predicate Evolves(s: State, s': State) {
    && s.conns.Keys <= s'.conns.Keys
    && s.requests.Keys <= s'.requests.Keys
    && (forall r | r in s.requests :: RequestFrameOf(s', r) == RequestFrameOf(s, r))
    && (forall r | r in s.history :: r in s'.history && s'.history[r] == s.history[r])
  }

  lemma ResolveEvolves(s: State, r: ReqId, resolvedBy: ResolvedBy, winner: Option<ConnId>, outcome: Outcome)
    requires CanResolve(s, r, winner) && r !in s.history
    ensures Evolves(s, Resolve(s, r, resolvedBy, winner, outcome))
  {
    ResolveFields(s, r, resolvedBy, winner, outcome);
  }

  lemma RunJobEvolves(s: State)
    requires RequestsOk(s) && JobsOk(s) && s.jobs != []
    ensures Evolves(s, RunJobStep(s))
  {
    var job := s.jobs[0];
    HeadJobDecides(s);
    assert RequestOk(s, job.id);
    if !job.reply.Abandoned? && !s.requests[job.id].settled {
      ResolveEvolves(s.(jobs := s.jobs[1..]), job.id, ByClient, Some(job.conn), OutcomeOf(job.reply));
    }
  }

  lemma AskEvolves(s: State, t: ThreadId, kind: Kind, params: Value, signal: Signal)
    requires RequestsOk(s) && Owned(s, t)
    ensures Evolves(s, AskStep(s, t, kind, params, signal))
  {
    var s1, r := WithRequest(s, t, kind, params, signal), RequestName(s.seqNo + 1);
    RequestEvolves(s, t, kind, params, signal);
    if signal.AbortedSignal? {
      ResolveEvolves(s1, r, ByCancellation, None, Cancelled);
    } else {
      SameBooksEvolves(s1, FanOut(s1, r, s.threads[t].subscribers));
    }
  }

  lemma RequestEvolves(s: State, t: ThreadId, kind: Kind, params: Value, signal: Signal)
    requires RequestsOk(s) && t in s.threads
    ensures Evolves(s, WithRequest(s, t, kind, params, signal)) && RequestName(s.seqNo + 1) !in s.history
  {
    FreshName(s);
    var s' := WithRequest(s, t, kind, params, signal);
    forall r | r in s.requests ensures r in s'.requests && RequestFrameOf(s', r) == RequestFrameOf(s, r) {
      assert s'.requests[r] == s.requests[r];
    }
  }

  lemma SameBooksEvolves(s: State, s': State)
    requires SameBooks(s, s')
    ensures Evolves(s, s')
  {
  }

  lemma AbortEvolves(s: State, r: ReqId)
    requires RequestsOk(s)
    ensures Evolves(s, AbortStep(s, r))
  {
    assert r in s.requests ==> RequestOk(s, r);
    if r in s.requests && s.requests[r].listening {
      ResolveEvolves(s, r, ByCancellation, None, Cancelled);
    }
  }

  lemma StepEvolves(s: State, m: Move)
    requires RequestsOk(s) && JobsOk(s)
    ensures Evolves(s, Step(s, m))
  {
    if m.RunJob? && s.jobs != [] {
      RunJobEvolves(s);
      assert Step(s, m) == RunJobStep(s);
    } else if m.Abort? {
      AbortEvolves(s, m.id);
      assert Step(s, m) == AbortStep(s, m.id);
    } else if m.Ask? && Owned(s, m.thread) {
      AskEvolves(s, m.thread, m.kind, m.params, m.signal);
      assert Step(s, m) == AskStep(s, m.thread, m.kind, m.params, m.signal);
    } else if m.RunJob? || m.Ask? {
      assert Step(s, m) == s;
    } else {
      OthersEvolve(s, m);
    }
  }

  lemma EvolvesOn(s: State, s1: State, s2: State)
    requires Evolves(s, s1) && Evolves(s1, s2)
    ensures Evolves(s, s2)
  {
  }

  /** Over a whole run connections and requests stay, requests keep their identity, and no settlement is rewritten. */
  lemma {:induction false} RunEvolves(ms: seq<Move>, n: nat)
    requires Legal(ms) && n <= |ms|
    ensures Evolves(Run(ms[..n]), Run(ms))
  {
    if n == |ms| {
      assert ms[..n] == ms;
    } else {
      var init := ms[..|ms| - 1];
      assert init[..n] == ms[..n];
      RunEvolves(init, n);
      RunKeeps(init);
      StepEvolves(Run(init), ms[|ms| - 1]);
      EvolvesOn(Run(ms[..n]), Run(init), Run(ms));
    }
  }

  lemma OthersEvolve(s: State, m: Move)
    requires !m.RunJob? && !m.Abort? && !m.Ask?
    ensures Evolves(s, Step(s, m))
  {
    if Quiet(m) {
      QuietMove(s, m);
    } else if m.FireTimer? && s.timers != [] {
      FireTimerEvolves(s);
    }
  }

  lemma FireTimerEvolves(s: State)
    requires s.timers != []
    ensures Evolves(s, FireTimerStep(s))
  {
    var (c, t) := s.timers[0];
    if t in s.threads {
      var s1 := s.(timers := s.timers[1..]);
      SameBooksEvolves(s1, RedeliverAll(s1, c, s.threads[t].pending));
    }
  }

  // ---- who decides a request ----

  /** What a move decides about `r`, whether or not `r` is already settled. */
  function Decision(s: State, m: Move, r: ReqId): Option<Outcome> {
    match m
    case RunJob =>
      if s.jobs != [] && s.jobs[0].id == r && !s.jobs[0].reply.Abandoned? then Some(OutcomeOf(s.jobs[0].reply))
      else None
    case Abort(q) => if q == r && r in s.requests && s.requests[r].signal.LiveSignal? then Some(Cancelled) else None
    case Ask(t, _, _, signal) =>
      if Owned(s, t) && r == RequestName(s.seqNo + 1) && signal.AbortedSignal? then Some(Cancelled) else None
    case _ => None
  }

  function FirstDecision(ms: seq<Move>, r: ReqId): Option<Outcome> {
    if ms == [] then None
    else
      var earlier := FirstDecision(ms[..|ms| - 1], r);
      if earlier.Some? then earlier else Decision(Run(ms[..|ms| - 1]), ms[|ms| - 1], r)
  }

  function OutcomeIn(s: State, r: ReqId): Option<Outcome> {
    if r in s.outcomes then Some(s.outcomes[r]) else None
  }

  lemma RunJobOutcome(s: State, r: ReqId)
    requires RequestsOk(s) && JobsOk(s) && s.jobs != []
    ensures OutcomeIn(RunJobStep(s), r) == if r in s.outcomes then OutcomeIn(s, r) else Decision(s, RunJob, r)
  {
    HeadJobDecides(s);
    assert RequestOk(s, s.jobs[0].id);
  }

  lemma AbortOutcome(s: State, q: ReqId, r: ReqId)
    requires RequestsOk(s)
    ensures OutcomeIn(AbortStep(s, q), r) == if r in s.outcomes then OutcomeIn(s, r) else Decision(s, Abort(q), r)
  {
    assert q in s.requests ==> RequestOk(s, q);
  }

  lemma AskOutcome(s: State, t: ThreadId, kind: Kind, params: Value, signal: Signal, r: ReqId)
    requires RequestsOk(s) && Owned(s, t)
    ensures OutcomeIn(AskStep(s, t, kind, params, signal), r) ==
      if r in s.outcomes then OutcomeIn(s, r) else Decision(s, Ask(t, kind, params, signal), r)
  {
    AskOutcomes(s, t, kind, params, signal);
    FreshName(s);
  }

  lemma AskOutcomes(s: State, t: ThreadId, kind: Kind, params: Value, signal: Signal)
    requires RequestsOk(s) && Owned(s, t)
    ensures AskStep(s, t, kind, params, signal).outcomes ==
      if signal.AbortedSignal? then s.outcomes[RequestName(s.seqNo + 1) := Cancelled] else s.outcomes
  {
    var s1, name := WithRequest(s, t, kind, params, signal), RequestName(s.seqNo + 1);
    ResolveSetsOutcome(s1, name, ByCancellation, None, Cancelled);
  }

  lemma ResolveSetsOutcome(s: State, r: ReqId, resolvedBy: ResolvedBy, winner: Option<ConnId>, outcome: Outcome)
    requires r in s.requests && s.requests[r].thread in s.threads && !s.requests[r].settled
    ensures Resolve(s, r, resolvedBy, winner, outcome).outcomes == s.outcomes[r := outcome]
  {
  }

  lemma OthersDecideNothing(s: State, m: Move)
    requires !m.RunJob? && !m.Abort? && !m.Ask?
    ensures Step(s, m).outcomes == s.outcomes
  {
    if Quiet(m) {
      QuietMove(s, m);
    }
  }

  lemma OutcomeStep(s: State, m: Move, r: ReqId)
    requires RequestsOk(s) && JobsOk(s)
    ensures OutcomeIn(Step(s, m), r) == if r in s.outcomes then OutcomeIn(s, r) else Decision(s, m, r)
  {
    if m.RunJob? {
      if s.jobs != [] { RunJobOutcome(s, r); }
    } else if m.Abort? {
      AbortOutcome(s, m.id, r);
    } else if m.Ask? {
      if Owned(s, m.thread) { AskOutcome(s, m.thread, m.kind, m.params, m.signal, r); }
    } else {
      OthersDecideNothing(s, m);
    }
  }

  /**
   * The outcome of a reverse request is what the first abort or answer continuation to run decided.
   * In particular no close, unsubscribe, resume or turn end ever settles one.
   */
  lemma {:induction false} OutcomeIsFirstDecision(ms: seq<Move>, r: ReqId)
    requires Legal(ms)
    ensures OutcomeIn(Run(ms), r) == FirstDecision(ms, r)
  {
    if ms != [] {
      RunKeeps(ms[..|ms| - 1]);
      OutcomeIsFirstDecision(ms[..|ms| - 1], r);
      OutcomeStep(Run(ms[..|ms| - 1]), ms[|ms| - 1], r);
    }
  }

  // ---- answers come from clients ----

  /** Move `i` was `c` answering `r`, which it then held, with `reply`. */
  ghost predicate AnsweredAt(ms: seq<Move>, i: nat, c: ConnId, r: ReqId, reply: Reply) {
    && i < |ms| && ms[i].Answer? && ms[i].conn == c && ms[i].answer == reply
    && ms[i].rpcId.Some? && KeyOf(ms[i].rpcId.value) == r
    && c in Run(ms[..i]).conns && r in Run(ms[..i]).conns[c].outbound
  }

  lemma NewJobs(s: State, m: Move, job: Job)
    requires job in Step(s, m).jobs && job !in s.jobs && !job.reply.Abandoned?
    ensures m.Answer? && m.conn == job.conn && m.answer == job.reply && m.rpcId.Some? && KeyOf(m.rpcId.value) == job.id
    ensures job.conn in s.conns && job.id in s.conns[job.conn].outbound
  {
    if Quiet(m) {
      QuietMove(s, m);
    } else if m.RunJob? || m.Abort? || m.Ask? {
      SettlingQueuesOnlyWithdrawals(s, m, job);
    }
  }

  lemma SettlingQueuesOnlyWithdrawals(s: State, m: Move, job: Job)
    requires m.RunJob? || m.Abort? || m.Ask?
    requires job in Step(s, m).jobs && job !in s.jobs
    ensures job.reply.Abandoned?
  {
    match m
    case RunJob =>
      var s1, head := s.(jobs := s.jobs[1..]), s.jobs[0];
      if head.id in s.requests && s.requests[head.id].thread in s.threads {
        ResolveQueues(s1, head.id, ByClient, Some(head.conn), OutcomeOf(head.reply), job);
      }
    case Abort(r) =>
      if r in s.requests && s.requests[r].thread in s.threads {
        ResolveQueues(s, r, ByCancellation, None, Cancelled, job);
      }
    case Ask(t, kind, params, signal) => AskQueues(s, t, kind, params, signal, job);
  }

  lemma ResolveQueues(
      s: State, r: ReqId, resolvedBy: ResolvedBy, winner: Option<ConnId>, outcome: Outcome, job: Job)
    requires r in s.requests && s.requests[r].thread in s.threads
    ensures job in Resolve(s, r, resolvedBy, winner, outcome).jobs && job !in s.jobs ==> job.reply.Abandoned?
  {
    WithdrawalsAre(s.conns, r, winner, SubscribersOf(s, r));
  }

  lemma AskQueues(s: State, t: ThreadId, kind: Kind, params: Value, signal: Signal, job: Job)
    ensures Owned(s, t) && job in AskStep(s, t, kind, params, signal).jobs && job !in s.jobs ==> job.reply.Abandoned?
  {
    if Owned(s, t) {
      ResolveQueues(WithRequest(s, t, kind, params, signal), RequestName(s.seqNo + 1), ByCancellation, None, Cancelled,
        job);
    }
  }

  lemma {:induction false} JobsAreAnswers(ms: seq<Move>, job: Job)
    requires job in Run(ms).jobs && !job.reply.Abandoned?
    ensures exists i: nat :: AnsweredAt(ms, i, job.conn, job.id, job.reply)
  {
    var n := |ms| - 1;
    if job in Run(ms[..n]).jobs {
      JobsAreAnswers(ms[..n], job);
      var i: nat :| AnsweredAt(ms[..n], i, job.conn, job.id, job.reply);
      assert ms[..n][..i] == ms[..i];
      assert AnsweredAt(ms, i, job.conn, job.id, job.reply);
    } else {
      NewJobs(Run(ms[..n]), ms[n], job);
      assert AnsweredAt(ms, n, job.conn, job.id, job.reply);
    }
  }

  /** Some earlier answer by `c` to `r`, outstanding when it arrived, gave this outcome. */
  ghost predicate AnsweredBy(ms: seq<Move>, c: ConnId, r: ReqId, outcome: Outcome) {
    exists i: nat, reply: Reply :: AnsweredAt(ms, i, c, r, reply) && OutcomeOf(reply) == outcome
  }

  lemma AnsweredByExtends(ms: seq<Move>, m: Move, c: ConnId, r: ReqId, outcome: Outcome)
    requires AnsweredBy(ms, c, r, outcome)
    ensures AnsweredBy(ms + [m], c, r, outcome)
  {
    var i: nat, reply: Reply :| AnsweredAt(ms, i, c, r, reply) && OutcomeOf(reply) == outcome;
    assert (ms + [m])[..i] == ms[..i];
    assert AnsweredAt(ms + [m], i, c, r, reply);
  }

  lemma NewWinnerAnswered(ms: seq<Move>, r: ReqId)
    requires Legal(ms) && Run(ms).jobs != [] && Run(ms).jobs[0].id == r && !Run(ms).jobs[0].reply.Abandoned?
    requires r !in Run(ms).outcomes
    ensures var job := Run(ms).jobs[0];
      && r in RunJobStep(Run(ms)).history && RunJobStep(Run(ms)).history[r].winner == Some(job.conn)
      && AnsweredBy(ms, job.conn, r, OutcomeOf(job.reply))
  {
    var job := Run(ms).jobs[0];
    JobsAreAnswers(ms, job);
    var i: nat :| AnsweredAt(ms, i, job.conn, r, job.reply);
    RunKeeps(ms);
    RunJobWinner(Run(ms));
  }

  /** Only a continuation decides anything but a cancellation. */
  lemma OnlyJobsAnswer(s: State, m: Move, r: ReqId)
    requires Decision(s, m, r).Some? && !Decision(s, m, r).value.Cancelled?
    ensures m.RunJob? && s.jobs != [] && s.jobs[0].id == r && !s.jobs[0].reply.Abandoned?
    ensures Decision(s, m, r) == Some(OutcomeOf(s.jobs[0].reply)) && Step(s, m) == RunJobStep(s)
  {
  }

  /** A given or rejected outcome is an answer the recorded winner sent while it held the request. */
  lemma {:induction false} WinnersAnswered(ms: seq<Move>, r: ReqId)
    requires Legal(ms) && r in Run(ms).outcomes && !Run(ms).outcomes[r].Cancelled?
    ensures r in Run(ms).history && Run(ms).history[r].winner.Some?
    ensures AnsweredBy(ms, Run(ms).history[r].winner.value, r, Run(ms).outcomes[r])
  {
    var before, m := ms[..|ms| - 1], ms[|ms| - 1];
    var s := Run(before);
    assert before + [m] == ms;
    assert RequestsOk(s) && JobsOk(s) by { RunKeeps(before); }
    OutcomeStep(s, m, r);
    if r in s.outcomes {
      WinnersAnswered(before, r);
      StepEvolves(s, m);
      AnsweredByExtends(before, m, s.history[r].winner.value, r, s.outcomes[r]);
    } else {
      OnlyJobsAnswer(s, m, r);
      NewWinnerAnswered(before, r);
      AnsweredByExtends(before, m, s.jobs[0].conn, r, OutcomeOf(s.jobs[0].reply));
    }
  }

  lemma RunJobWinner(s: State)
    requires RequestsOk(s) && JobsOk(s) && s.jobs != [] && !s.jobs[0].reply.Abandoned? && s.jobs[0].id !in s.outcomes
    ensures var job := s.jobs[0];
      job.id in RunJobStep(s).history && RunJobStep(s).history[job.id].winner == Some(job.conn)
  {
    HeadJobDecides(s);
    assert RequestOk(s, s.jobs[0].id);
  }

  /** The notice, the winner and the outcome agree: a client resolved it, or it was cancelled and nobody won. */
  ghost predicate Agreed(s: State, r: ReqId) {
    && r in s.history && r in s.outcomes
    && (s.history[r].resolvedBy.ByClient? <==> s.history[r].winner.Some?)
    && (s.history[r].resolvedBy.ByCancellation? <==> s.outcomes[r].Cancelled?)
  }

  lemma ResolveAgrees(s: State, r: ReqId, resolvedBy: ResolvedBy, winner: Option<ConnId>, outcome: Outcome)
    requires CanResolve(s, r, winner)
    requires (resolvedBy.ByClient? <==> winner.Some?) && (resolvedBy.ByCancellation? <==> outcome.Cancelled?)
    ensures Agreed(Resolve(s, r, resolvedBy, winner, outcome), r)
  {
  }

  lemma DecidingAgrees(s: State, m: Move, r: ReqId)
    requires RequestsOk(s) && JobsOk(s) && r !in s.outcomes && Decision(s, m, r).Some?
    ensures Agreed(Step(s, m), r)
  {
    match m
    case RunJob =>
      HeadJobDecides(s);
      assert RequestOk(s, r);
      ResolveAgrees(s.(jobs := s.jobs[1..]), r, ByClient, Some(s.jobs[0].conn), OutcomeOf(s.jobs[0].reply));
    case Abort(_) =>
      assert RequestOk(s, r);
      ResolveAgrees(s, r, ByCancellation, None, Cancelled);
    case Ask(t, kind, params, signal) =>
      ResolveAgrees(WithRequest(s, t, kind, params, signal), r, ByCancellation, None, Cancelled);
  }

  /** What the notice says resolved a request is what decided it, in every run. */
  lemma {:induction false} NoticeNamesDecision(ms: seq<Move>, r: ReqId)
    requires Legal(ms) && r in Run(ms).outcomes
    ensures Agreed(Run(ms), r)
  {
    var before, m := ms[..|ms| - 1], ms[|ms| - 1];
    var s := Run(before);
    assert RequestsOk(s) && JobsOk(s) by { RunKeeps(before); }
    OutcomeStep(s, m, r);
    if r in s.outcomes {
      NoticeNamesDecision(before, r);
      StepEvolves(s, m);
    } else {
      DecidingAgrees(s, m, r);
    }
  }

  // ---- a client's answer decides ----

  /** `c` has been asked about `r` and no longer holds it. */
  predicate AskedBefore(s: State, c: ConnId, r: ReqId) {
    && c in s.conns && r in s.requests && c in s.requests[r].delivered && r !in s.conns[c].outbound
  }

  lemma DeliverKeepsAsked(s: State, q: ReqId, d: ConnId, c: ConnId, r: ReqId)
    requires AskedBefore(s, c, r)
    ensures AskedBefore(Deliver(s, q, d), c, r)
  {
  }

  lemma {:induction false} FanOutKeepsAsked(s: State, q: ReqId, cs: seq<ConnId>, c: ConnId, r: ReqId)
    requires AskedBefore(s, c, r)
    ensures AskedBefore(FanOut(s, q, cs), c, r)
  {
    if cs != [] {
      FanOutKeepsAsked(s, q, cs[..|cs| - 1], c, r);
      DeliverKeepsAsked(FanOut(s, q, cs[..|cs| - 1]), q, cs[|cs| - 1], c, r);
    }
  }

  lemma {:induction false} RedeliverKeepsAsked(s: State, d: ConnId, rs: seq<ReqId>, c: ConnId, r: ReqId)
    requires AskedBefore(s, c, r)
    ensures AskedBefore(RedeliverAll(s, d, rs), c, r)
  {
    if rs != [] {
      RedeliverKeepsAsked(s, d, rs[..|rs| - 1], c, r);
      DeliverKeepsAsked(RedeliverAll(s, d, rs[..|rs| - 1]), rs[|rs| - 1], d, c, r);
    }
  }

  lemma ResolveKeepsAsked(
      s: State, q: ReqId, resolvedBy: ResolvedBy, winner: Option<ConnId>, outcome: Outcome, c: ConnId, r: ReqId)
    requires AskedBefore(s, c, r) && q in s.requests && s.requests[q].thread in s.threads
    ensures AskedBefore(Resolve(s, q, resolvedBy, winner, outcome), c, r)
  {
  }

  lemma AskKeepsAsked(s: State, t: ThreadId, kind: Kind, params: Value, signal: Signal, c: ConnId, r: ReqId)
    requires RequestsOk(s) && Owned(s, t) && AskedBefore(s, c, r)
    ensures AskedBefore(AskStep(s, t, kind, params, signal), c, r)
  {
    FreshName(s);
    AskRegisters(s, t, kind, params, signal);
    var s1, name := WithRequest(s, t, kind, params, signal), RequestName(s.seqNo + 1);
    assert AskedBefore(s1, c, r);
    if signal.AbortedSignal? {
      ResolveKeepsAsked(s1, name, ByCancellation, None, Cancelled, c, r);
    } else {
      FanOutKeepsAsked(s1, name, s.threads[t].subscribers, c, r);
    }
  }

  lemma StepKeepsAsked(s: State, m: Move, c: ConnId, r: ReqId)
    requires RequestsOk(s) && AskedBefore(s, c, r)
    ensures AskedBefore(Step(s, m), c, r)
  {
    if m.Ask? {
      if Owned(s, m.thread) { AskKeepsAsked(s, m.thread, m.kind, m.params, m.signal, c, r); }
    } else if m.RunJob? {
      if s.jobs != [] { JobKeepsAsked(s, c, r); }
    } else if m.Abort? {
      if m.id in s.requests && s.requests[m.id].thread in s.threads {
        ResolveKeepsAsked(s, m.id, ByCancellation, None, Cancelled, c, r);
      }
    } else if m.FireTimer? {
      if s.timers != [] && s.timers[0].1 in s.threads {
        RedeliverKeepsAsked(s.(timers := s.timers[1..]), s.timers[0].0, s.threads[s.timers[0].1].pending, c, r);
      }
    } else {
      OthersKeepAsked(s, m, c, r);
    }
  }

  lemma JobKeepsAsked(s: State, c: ConnId, r: ReqId)
    requires s.jobs != [] && AskedBefore(s, c, r)
    ensures AskedBefore(RunJobStep(s), c, r)
  {
    var s1, job := s.(jobs := s.jobs[1..]), s.jobs[0];
    assert AskedBefore(s1, c, r);
    if job.id in s.requests && s.requests[job.id].thread in s.threads {
      ResolveKeepsAsked(s1, job.id, ByClient, Some(job.conn), OutcomeOf(job.reply), c, r);
    }
  }

  lemma OthersKeepAsked(s: State, m: Move, c: ConnId, r: ReqId)
    requires !m.Ask? && !m.RunJob? && !m.Abort? && !m.FireTimer? && AskedBefore(s, c, r)
    ensures AskedBefore(Step(s, m), c, r)
  {
    if Quiet(m) {
      QuietMove(s, m);
      QuietKeepsTables(s, m, c);
    }
  }

  lemma QuietKeepsTables(s: State, m: Move, c: ConnId)
    requires Quiet(m) && c in s.conns
    ensures c in Step(s, m).conns && Step(s, m).conns[c].outbound == s.conns[c].outbound
  {
    if m.TurnInput? {
      if m.thread in s.threads { TurnKeepsTables(s, m.thread, m.input, c); }
    } else if m.SubmitTurn? {
      if m.conn in s.conns && m.thread in s.threads {
        TurnKeepsTables(Subscribed(s, m.conn, m.thread), m.thread, Turns.Submit(m.messageId), c);
      }
    }
  }

  lemma TurnKeepsTables(s: State, t: ThreadId, input: Turns.Input, c: ConnId)
    requires t in s.threads && c in s.conns
    ensures c in TurnStep(s, t, input).conns && TurnStep(s, t, input).conns[c].outbound == s.conns[c].outbound
  {
  }

  lemma {:induction false} ReleasedStays(ms: seq<Move>, n: nat, c: ConnId, r: ReqId)
    requires Legal(ms) && n <= |ms| && AskedBefore(Run(ms[..n]), c, r)
    ensures AskedBefore(Run(ms), c, r)
  {
    if n == |ms| {
      assert ms[..n] == ms;
    } else {
      var init := ms[..|ms| - 1];
      assert init[..n] == ms[..n];
      ReleasedStays(init, n, c, r);
      RunKeeps(init);
      StepKeepsAsked(Run(init), ms[|ms| - 1], c, r);
    }
  }

  lemma AnswerReleases(s: State, m: Move, c: ConnId, r: ReqId)
    requires Inv(s) && c in s.conns && r in s.conns[c].outbound
    requires m.Answer? && m.conn == c && !m.answer.Abandoned? && m.rpcId.Some? && KeyOf(m.rpcId.value) == r
    ensures AskedBefore(Step(s, m), c, r)
  {
    assert PairOk(s, c, r);
    assert Step(s, m) == AnswerStep(s, c, r, m.answer);
  }

  /** The step at which `c` answers leaves it without the request. */
  lemma AnsweringReleases(ms: seq<Move>, i: nat, c: ConnId, r: ReqId, reply: Reply)
    requires Legal(ms) && AnsweredAt(ms, i, c, r, reply) && !reply.Abandoned?
    ensures AskedBefore(Run(ms[..i + 1]), c, r)
  {
    LegalPrefix(ms, i);
    RunKeeps(ms[..i]);
    AnswerReleases(Run(ms[..i]), ms[i], c, r);
    assert ms[..i + 1][..i] == ms[..i] && ms[..i + 1][i] == ms[i];
  }

  lemma {:induction false} LegalPrefix(ms: seq<Move>, n: nat)
    requires Legal(ms) && n <= |ms|
    ensures Legal(ms[..n])
  {
    if n == |ms| {
      assert ms[..n] == ms;
    } else {
      LegalPrefix(ms[..|ms| - 1], n);
      assert ms[..|ms| - 1][..n] == ms[..n];
    }
  }

  /** A response takes from the table exactly the request whose name its string id is, and queues exactly its answer. */
  lemma AnswerTakesExactly(s: State, c: ConnId, rpcId: RpcId, reply: Reply, r: ReqId)
    requires Inv(s) && c in s.conns && r in s.conns[c].outbound && !reply.Abandoned?
    ensures var s' := Step(s, Answer(c, Some(rpcId), reply));
      && c in s'.conns && (r !in s'.conns[c].outbound <==> rpcId == IdStr(r))
      && (rpcId == IdStr(r) ==> s'.jobs == s.jobs + [Job(c, r, reply)])
      && (s' == s || exists q: ReqId :: rpcId == IdStr(q) && q in s.conns[c].outbound)
  {
    NumbersNameNothing(s, c, rpcId);
  }

  lemma NumbersNameNothing(s: State, c: ConnId, rpcId: RpcId)
    requires RequestsOk(s) && ConnsOk(s) && c in s.conns
    ensures rpcId.IdNum? ==> KeyOf(rpcId) !in s.conns[c].outbound
  {
    if rpcId.IdNum? {
      forall r | r in s.conns[c].outbound ensures r != KeyOf(rpcId) {
        assert RequestOk(s, r);
        var n: nat :| n <= s.seqNo && r == RequestName(n);
        NameIsNoNumber(n, rpcId.n);
      }
    }
  }

  lemma NameIsNoNumber(n: nat, number: int)
    ensures RequestName(n) != Decimal.Print(number)
  {
    assert RequestName(n)[0] == 'r';
    assert Decimal.Print(number)[0] == '-' || Decimal.IsDigit(Decimal.Print(number)[0]);
  }

  /** A connection answers a request at most once: it is never asked again. */
  lemma OneAnswerEach(ms: seq<Move>, i: nat, j: nat, c: ConnId, r: ReqId, first: Reply, second: Reply)
    requires Legal(ms) && AnsweredAt(ms, i, c, r, first) && AnsweredAt(ms, j, c, r, second)
    requires !first.Abandoned? && !second.Abandoned?
    ensures i == j && first == second
  {
    if i < j {
      NoSecondAnswer(ms, i, j, c, r, first);
    } else if j < i {
      NoSecondAnswer(ms, j, i, c, r, second);
    }
  }

  lemma NoSecondAnswer(ms: seq<Move>, i: nat, j: nat, c: ConnId, r: ReqId, reply: Reply)
    requires Legal(ms) && i < j < |ms| && AnsweredAt(ms, i, c, r, reply) && !reply.Abandoned?
    ensures c in Run(ms[..j]).conns && r !in Run(ms[..j]).conns[c].outbound
  {
    AnsweringReleases(ms, i, c, r, reply);
    LegalPrefix(ms, j);
    assert ms[..j][..i + 1] == ms[..i + 1];
    ReleasedStays(ms[..j], i + 1, c, r);
  }

  /** The recorded winner of `r` answered it with `reply`. */
  ghost predicate WonBy(ms: seq<Move>, r: ReqId, reply: Reply) {
    && r in Run(ms).history && Run(ms).history[r].winner.Some?
    && exists i: nat :: AnsweredAt(ms, i, Run(ms).history[r].winner.value, r, reply)
  }

  ghost predicate WonWith(ms: seq<Move>, r: ReqId, value: Value) { WonBy(ms, r, Accepted(value)) }

  /** A settled request has the outcome its winner's answer stands for, whichever answer that is. */
  lemma WinnerDecides(ms: seq<Move>, r: ReqId, answer: Reply)
    requires Legal(ms) && r in Run(ms).outcomes && WonBy(ms, r, answer) && !answer.Abandoned?
    ensures Run(ms).outcomes[r] == OutcomeOf(answer)
  {
    NoticeNamesDecision(ms, r);
    WinnersAnswered(ms, r);
    var c := Run(ms).history[r].winner.value;
    var i: nat, reply: Reply :| AnsweredAt(ms, i, c, r, reply) && OutcomeOf(reply) == Run(ms).outcomes[r];
    var j: nat :| AnsweredAt(ms, j, c, r, answer);
    OneAnswerEach(ms, i, j, c, r, reply, answer);
  }

  /** A request's outcome is a value, or an error, exactly when its winner answered with that value, or that error. */
  lemma GivenExactlyByWinner(ms: seq<Move>, r: ReqId, value: Value, message: string)
    requires Legal(ms) && r in Run(ms).outcomes
    ensures Run(ms).outcomes[r] == Given(value) <==> WonBy(ms, r, Accepted(value))
    ensures Run(ms).outcomes[r] == Rejected(message) <==> WonBy(ms, r, Refused(message))
  {
    if WonBy(ms, r, Accepted(value)) {
      WinnerDecides(ms, r, Accepted(value));
    }
    if WonBy(ms, r, Refused(message)) {
      WinnerDecides(ms, r, Refused(message));
    }
    if !Run(ms).outcomes[r].Cancelled? {
      WinnersAnswered(ms, r);
      var i: nat, reply: Reply :|
        AnsweredAt(ms, i, Run(ms).history[r].winner.value, r, reply) && OutcomeOf(reply) == Run(ms).outcomes[r];
      assert WonBy(ms, r, reply);
    }
  }

  /**
   * dsh is told a verdict other than `cancelled` exactly when a client won, and `allowed-once` exactly when it said so.
   */
  lemma AllowedExactlyByClient(ms: seq<Move>, r: ReqId)
    requires Legal(ms) && r in Run(ms).outcomes
    ensures r in Run(ms).history
    ensures ApprovalVerdict(Run(ms).outcomes[r]) == "allowed-once" <==>
      exists value :: WonWith(ms, r, value) && GetStr(value, "decision") == Some("allowed-once")
    ensures ApprovalVerdict(Run(ms).outcomes[r]) == "cancelled" <==> Run(ms).history[r].winner.None?
    ensures ApprovalVerdict(Run(ms).outcomes[r]) in ["allowed-once", "rejected", "cancelled"]
  {
    NoticeNamesDecision(ms, r);
    var outcome := Run(ms).outcomes[r];
    forall value | WonWith(ms, r, value) ensures outcome == Given(value) {
      GivenExactlyByWinner(ms, r, value, "");
    }
    if outcome.Given? {
      GivenExactlyByWinner(ms, r, outcome.value, "");
    }
  }

  /** A question gets answers exactly when the winning client's result holds an array of them, and exactly those. */
  lemma AnsweredExactlyByClient(ms: seq<Move>, r: ReqId, answers: seq<Value>)
    requires Legal(ms) && r in Run(ms).outcomes
    ensures QuestionAnswers(Run(ms).outcomes[r]) == Ok(answers) <==>
      exists value :: WonWith(ms, r, value) && value.Get("answers") == Some(Arr(answers))
  {
    var outcome := Run(ms).outcomes[r];
    forall value | WonWith(ms, r, value) ensures outcome == Given(value) {
      GivenExactlyByWinner(ms, r, value, "");
    }
    if outcome.Given? {
      GivenExactlyByWinner(ms, r, outcome.value, "");
    }
  }

  // ---- stale holders ----

  /** A settled request is still outstanding only on connections that were not subscribed when it settled. */
  lemma StaleHoldersWereUnsubscribed(ms: seq<Move>, c: ConnId, r: ReqId)
    requires Legal(ms) && c in Run(ms).conns && r in Run(ms).conns[c].outbound
    requires r in Run(ms).requests && Run(ms).requests[r].settled
    ensures r in Run(ms).history && c !in Run(ms).history[r].subscribed
  {
    RunKeeps(ms);
    assert PairOk(Run(ms), c, r);
  }

  /**
   * Right after `r` settled: the recorded subscribers are the current ones, and those told are the open ones but the
   * winner.
   */
  ghost predicate FreshlySettled(s': State, r: ReqId) {
    && r in s'.history && r in s'.requests
    && (forall c :: c in s'.history[r].subscribed <==> c in SubscribersOf(s', r))
    && (forall c :: c in s'.history[r].told <==>
      c in SubscribersOf(s', r) && IsOpen(s', c) && s'.history[r].winner != Some(c))
  }

  lemma ResolveSettles(s: State, r: ReqId, resolvedBy: ResolvedBy, winner: Option<ConnId>, outcome: Outcome)
    requires CanResolve(s, r, winner)
    ensures FreshlySettled(Resolve(s, r, resolvedBy, winner, outcome), r)
  {
    ResolveFields(s, r, resolvedBy, winner, outcome);
    var s' := Resolve(s, r, resolvedBy, winner, outcome);
    assert SubscribersOf(s', r) == SubscribersOf(s, r);
    assert forall c :: IsOpen(s', c) == IsOpen(s, c);
  }

  lemma SettlesFreshly(s: State, m: Move, r: ReqId)
    requires RequestsOk(s) && JobsOk(s) && r !in s.outcomes && Decision(s, m, r).Some?
    ensures FreshlySettled(Step(s, m), r)
  {
    match m
    case RunJob =>
      HeadJobDecides(s);
      assert RequestOk(s, r);
      ResolveSettles(s.(jobs := s.jobs[1..]), r, ByClient, Some(s.jobs[0].conn), OutcomeOf(s.jobs[0].reply));
    case Abort(_) =>
      assert RequestOk(s, r);
      ResolveSettles(s, r, ByCancellation, None, Cancelled);
    case Ask(t, kind, params, signal) =>
      ResolveSettles(WithRequest(s, t, kind, params, signal), r, ByCancellation, None, Cancelled);
  }

  /** The notice that a settled request is resolved. */
  ghost function NoticeOf(s: State, r: ReqId): Frame
    requires r in s.requests && r in s.history
  {
    ResolvedFrame(r, s.requests[r].thread, s.history[r].resolvedBy)
  }

  lemma SettlingStep(s: State, m: Move, r: ReqId, c: ConnId)
    requires Inv(s) && Enabled(s, m) && r !in s.outcomes && r in Step(s, m).outcomes && c in s.conns
    ensures var s' := Step(s, m);
      && r in s'.history && r in s'.requests && c in s'.conns
      && (c in SubscribersOf(s', r) ==> r !in s'.conns[c].outbound)
      && (c in SubscribersOf(s', r) && IsOpen(s', c) && s'.history[r].winner != Some(c)
          <==> About(s'.conns[c].sent, r) == About(s.conns[c].sent, r) + [NoticeOf(s', r)])
  {
    var s' := Step(s, m);
    StepKeeps(s, m);
    OutcomeStep(s, m, r);
    SettlesFreshly(s, m, r);
    DeliveredStep(s, m, r);
    assert RequestOk(s', r) && (r in s.requests ==> RequestOk(s, r));
    StepEvolves(s, m);
    SettledFrames(s, s', r, c);
  }

  /**
   * At the moment a request settles no subscriber holds it, and exactly the open subscribers but the winner are told.
   */
  lemma SettlingWithdraws(ms: seq<Move>, m: Move, r: ReqId, c: ConnId)
    requires Legal(ms + [m]) && r !in Run(ms).outcomes && r in Run(ms + [m]).outcomes
    requires c in Run(ms).conns
    ensures var s, s' := Run(ms), Run(ms + [m]);
      && r in s'.history && r in s'.requests && c in s'.conns
      && (c in SubscribersOf(s', r) ==> r !in s'.conns[c].outbound)
      && (c in SubscribersOf(s', r) && IsOpen(s', c) && s'.history[r].winner != Some(c)
          <==> About(s'.conns[c].sent, r) == About(s.conns[c].sent, r) + [NoticeOf(s', r)])
  {
    assert (ms + [m])[..|ms|] == ms && (ms + [m])[|ms|] == m;
    RunKeeps(ms);
    SettlingStep(Run(ms), m, r, c);
  }

  lemma SettledFrames(s: State, s': State, r: ReqId, c: ConnId)
    requires ConnsOk(s) && PairsOk(s) && PairsOk(s') && RequestsOk(s') && Evolves(s, s') && c in s.conns
    requires r !in s.history && FreshlySettled(s', r) && s'.requests[r].settled
    requires s'.requests[r].delivered == if r in s.requests then s.requests[r].delivered else {}
    ensures c in SubscribersOf(s', r) ==> r !in s'.conns[c].outbound
    ensures c in SubscribersOf(s', r) && IsOpen(s', c) && s'.history[r].winner != Some(c)
      <==> About(s'.conns[c].sent, r) == About(s.conns[c].sent, r) + [NoticeOf(s', r)]
  {
    assert PairOk(s', c, r) && ConnOk(s, c);
    if r in s.requests {
      assert PairOk(s, c, r);
    } else {
      AboutNone(s.conns[c].sent, r);
    }
  }
}
