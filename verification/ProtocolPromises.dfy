/** Every promise of `Connection.request` settles once: a conservation law over whole runs. */
module ProtocolPromises {
  import opened Wrappers
  import opened JsonValue
  import opened Protocol
  import opened ProtocolInvariant
  import opened ProtocolRuns
  import Subscriptions

  /** How many queued continuations are those of request `r` to connection `c`. */
  function Queue(jobs: seq<Job>, c: ConnId, r: ReqId): nat {
    if jobs == [] then 0
    else
      var last := jobs[|jobs| - 1];
      Queue(jobs[..|jobs| - 1], c, r) + if last.conn == c && last.id == r then 1 else 0
  }

  function Held(s: State, c: ConnId, r: ReqId): nat {
    if c in s.conns && r in s.conns[c].outbound then 1 else 0
  }

  function Asked(s: State, c: ConnId, r: ReqId): nat {
    if r in s.requests && c in s.requests[r].delivered then 1 else 0
  }

  /** Whether a move runs the continuation of `r` to `c`. */
  function RunsNow(s: State, m: Move, c: ConnId, r: ReqId): nat {
    if m.RunJob? && s.jobs != [] && s.jobs[0].conn == c && s.jobs[0].id == r then 1 else 0
  }

  /** How many continuations of `r` to `c` have run. */
  function Settled(ms: seq<Move>, c: ConnId, r: ReqId): nat {
    if ms == [] then 0
    else Settled(ms[..|ms| - 1], c, r) + RunsNow(Run(ms[..|ms| - 1]), ms[|ms| - 1], c, r)
  }

  // ---- counting ----

  lemma {:induction false} QueueJoins(a: seq<Job>, b: seq<Job>, c: ConnId, r: ReqId)
    ensures Queue(a + b, c, r) == Queue(a, c, r) + Queue(b, c, r)
  {
    if b == [] {
      assert a + b == a;
    } else {
      QueueJoins(a, b[..|b| - 1], c, r);
      assert (a + b)[..|a + b| - 1] == a + b[..|b| - 1];
    }
  }

  lemma QueueOne(job: Job, c: ConnId, r: ReqId)
    ensures Queue([job], c, r) == if job.conn == c && job.id == r then 1 else 0
  {
    assert [job][..0] == [];
  }

  lemma QueuePop(jobs: seq<Job>, c: ConnId, r: ReqId)
    requires jobs != []
    ensures Queue(jobs, c, r) == Queue(jobs[1..], c, r) + if jobs[0].conn == c && jobs[0].id == r then 1 else 0
  {
    assert jobs == [jobs[0]] + jobs[1..];
    QueueJoins([jobs[0]], jobs[1..], c, r);
    QueueOne(jobs[0], c, r);
  }

  lemma {:induction false} QueueAbandoned(d: ConnId, ids: seq<ReqId>, c: ConnId, r: ReqId)
    requires Distinct(ids)
    ensures Queue(AbandonAll(d, ids), c, r) == if d == c && r in ids then 1 else 0
  {
    if ids != [] {
      var init, last := ids[..|ids| - 1], ids[|ids| - 1];
      QueueAbandoned(d, init, c, r);
      assert AbandonAll(d, ids)[..|ids| - 1] == AbandonAll(d, init);
      assert last !in init && ids == init + [last];
    }
  }

  lemma {:induction false} QueueWithdrawn(
      conns: map<ConnId, Conn>, q: ReqId, winner: Option<ConnId>, cs: seq<ConnId>, c: ConnId, r: ReqId)
    requires Distinct(cs)
    ensures Queue(Withdrawals(conns, q, winner, cs), c, r) ==
      if q == r && c in cs && c in conns && !conns[c].closed && winner != Some(c) && q in conns[c].outbound
      then 1 else 0
  {
    if cs != [] {
      var init, last := cs[..|cs| - 1], cs[|cs| - 1];
      QueueWithdrawn(conns, q, winner, init, c, r);
      assert last !in init && cs == init + [last];
      var more :=
        if last in conns && !conns[last].closed && winner != Some(last) && q in conns[last].outbound
        then [Job(last, q, Abandoned)] else [];
      QueueJoins(Withdrawals(conns, q, winner, init), more, c, r);
      QueueOne(Job(last, q, Abandoned), c, r);
    }
  }

  // ---- what each step keeps ----

  /** Between two states: what is queued or held has grown by what was asked, and shrunk by what has run. */
  ghost predicate Balances(s: State, s': State, c: ConnId, r: ReqId, ran: nat) {
    Queue(s'.jobs, c, r) + Held(s', c, r) + ran + Asked(s, c, r)
    == Queue(s.jobs, c, r) + Held(s, c, r) + Asked(s', c, r)
  }

  lemma DeliverBalances(s: State, q: ReqId, d: ConnId, c: ConnId, r: ReqId)
    requires Inv(s)
    ensures Balances(s, Deliver(s, q, d), c, r, 0)
  {
    if Deliverable(s, q, d) {
      DeliverNeverOverwrites(s, q, d);
    }
  }

  lemma {:induction false} FanOutBalances(s: State, q: ReqId, cs: seq<ConnId>, c: ConnId, r: ReqId)
    requires Inv(s)
    ensures Balances(s, FanOut(s, q, cs), c, r, 0)
  {
    if cs != [] {
      FanOutBalances(s, q, cs[..|cs| - 1], c, r);
      FanOutKeeps(s, q, cs[..|cs| - 1]);
      DeliverBalances(FanOut(s, q, cs[..|cs| - 1]), q, cs[|cs| - 1], c, r);
    }
  }

  lemma {:induction false} RedeliverBalances(s: State, d: ConnId, rs: seq<ReqId>, c: ConnId, r: ReqId)
    requires Inv(s)
    ensures Balances(s, RedeliverAll(s, d, rs), c, r, 0)
  {
    if rs != [] {
      RedeliverBalances(s, d, rs[..|rs| - 1], c, r);
      RedeliverAllKeeps(s, d, rs[..|rs| - 1]);
      DeliverBalances(RedeliverAll(s, d, rs[..|rs| - 1]), rs[|rs| - 1], d, c, r);
    }
  }

  lemma ResolveBalances(
      s: State, q: ReqId, resolvedBy: ResolvedBy, winner: Option<ConnId>, outcome: Outcome, c: ConnId, r: ReqId)
    requires CanResolve(s, q, winner) && Distinct(SubscribersOf(s, q))
    ensures Balances(s, Resolve(s, q, resolvedBy, winner, outcome), c, r, 0)
  {
    ResolveFields(s, q, resolvedBy, winner, outcome);
    ResolvedBalances(s, Resolve(s, q, resolvedBy, winner, outcome), q, resolvedBy, winner, outcome, c, r);
  }

  lemma ResolvedBalances(
      s: State, s': State, q: ReqId, resolvedBy: ResolvedBy, winner: Option<ConnId>, outcome: Outcome,
      c: ConnId, r: ReqId)
    requires CanResolve(s, q, winner) && Distinct(SubscribersOf(s, q))
    requires ResolvedFrom(s, s', q, resolvedBy, winner, outcome)
    ensures Balances(s, s', c, r, 0)
  {
    ResolvedQueues(s, s', q, resolvedBy, winner, outcome, c, r);
    ResolvedHolds(s, s', q, resolvedBy, winner, outcome, c, r);
    ResolvedAsks(s, s', q, resolvedBy, winner, outcome, c, r);
    WithdrawalBalances(s, s', q == r && IsTold(s, q, winner, c), c, r);
  }

  predicate IsTold(s: State, q: ReqId, winner: Option<ConnId>, c: ConnId) {
    c in SubscribersOf(s, q) && c in s.conns && !s.conns[c].closed && winner != Some(c)
  }

  lemma WithdrawalBalances(s: State, s': State, told: bool, c: ConnId, r: ReqId)
    requires Queue(s'.jobs, c, r) == Queue(s.jobs, c, r) + if told then Held(s, c, r) else 0
    requires Held(s', c, r) == (if told then 0 else Held(s, c, r)) && Asked(s', c, r) == Asked(s, c, r)
    ensures Balances(s, s', c, r, 0)
  {
  }

  lemma ResolvedQueues(
      s: State, s': State, q: ReqId, resolvedBy: ResolvedBy, winner: Option<ConnId>, outcome: Outcome,
      c: ConnId, r: ReqId)
    requires CanResolve(s, q, winner) && Distinct(SubscribersOf(s, q))
    requires ResolvedFrom(s, s', q, resolvedBy, winner, outcome)
    ensures Queue(s'.jobs, c, r) ==
      Queue(s.jobs, c, r) + if q == r && IsTold(s, q, winner, c) then Held(s, c, r) else 0
  {
    QueueJoins(s.jobs, Withdrawals(s.conns, q, winner, SubscribersOf(s, q)), c, r);
    QueueWithdrawn(s.conns, q, winner, SubscribersOf(s, q), c, r);
  }

  lemma ResolvedAsks(
      s: State, s': State, q: ReqId, resolvedBy: ResolvedBy, winner: Option<ConnId>, outcome: Outcome,
      c: ConnId, r: ReqId)
    requires CanResolve(s, q, winner) && ResolvedFrom(s, s', q, resolvedBy, winner, outcome)
    ensures Asked(s', c, r) == Asked(s, c, r)
  {
    assert r in s.requests ==> s'.requests[r].delivered == s.requests[r].delivered;
  }

  /** Whoever is told lets go of the request, and of nothing else. */
  lemma ResolvedHolds(
      s: State, s': State, q: ReqId, resolvedBy: ResolvedBy, winner: Option<ConnId>, outcome: Outcome,
      c: ConnId, r: ReqId)
    requires CanResolve(s, q, winner) && ResolvedFrom(s, s', q, resolvedBy, winner, outcome)
    ensures Held(s', c, r) == if q == r && IsTold(s, q, winner, c) then 0 else Held(s, c, r)
  {
    assert c in Told(s, q, winner) <==>
      c in SubscribersOf(s, q) && c in s.conns && !s.conns[c].closed && winner != Some(c);
    if c in s.conns {
      assert s'.conns[c] == s.conns[c] || c in Told(s, q, winner);
    }
  }

  lemma CloseBalances(s: State, d: ConnId, c: ConnId, r: ReqId)
    requires Inv(s) && d in s.conns
    ensures Balances(s, CloseStep(s, d), c, r, 0)
  {
    assert ConnOk(s, d);
    QueueJoins(s.jobs, AbandonAll(d, s.conns[d].outbound), c, r);
    QueueAbandoned(d, s.conns[d].outbound, c, r);
  }

  lemma AnswerBalances(s: State, d: ConnId, key: ReqId, reply: Reply, c: ConnId, r: ReqId)
    requires d in s.conns
    ensures Balances(s, AnswerStep(s, d, key, reply), c, r, 0)
  {
    if key in s.conns[d].outbound {
      QueueJoins(s.jobs, [Job(d, key, reply)], c, r);
      QueueOne(Job(d, key, reply), c, r);
    }
  }

  lemma SubscribersDistinct(s: State, q: ReqId)
    requires ThreadsOk(s)
    ensures Distinct(SubscribersOf(s, q))
  {
    if q in s.requests && s.requests[q].thread in s.threads {
      assert ThreadOk(s, s.requests[q].thread);
    }
  }

  lemma PopBalances(s: State, c: ConnId, r: ReqId)
    requires s.jobs != []
    ensures Balances(s, s.(jobs := s.jobs[1..]), c, r, RunsNow(s, RunJob, c, r))
  {
    QueuePop(s.jobs, c, r);
  }

  lemma BalancesThen(s: State, s1: State, s2: State, c: ConnId, r: ReqId, ran: nat)
    requires Balances(s, s1, c, r, ran) && Balances(s1, s2, c, r, 0)
    ensures Balances(s, s2, c, r, ran)
  {
  }

  /** Running the head of the queue settles its promise and, when it decides, settles the request. */
  lemma RunJobBalances(s: State, c: ConnId, r: ReqId)
    requires ThreadsOk(s) && RequestsOk(s) && JobsOk(s) && s.jobs != []
    ensures Balances(s, RunJobStep(s), c, r, RunsNow(s, RunJob, c, r))
  {
    var job, s1 := s.jobs[0], s.(jobs := s.jobs[1..]);
    PopBalances(s, c, r);
    HeadJobDecides(s);
    if !job.reply.Abandoned? && !s.requests[job.id].settled {
      SubscribersDistinct(s, job.id);
      assert SubscribersOf(s1, job.id) == SubscribersOf(s, job.id);
      DecidingBalances(s1, job, c, r);
      BalancesThen(s, s1, RunJobStep(s), c, r, RunsNow(s, RunJob, c, r));
    }
  }

  lemma DecidingBalances(s: State, job: Job, c: ConnId, r: ReqId)
    requires CanResolve(s, job.id, Some(job.conn)) && Distinct(SubscribersOf(s, job.id))
    ensures Balances(s, Resolve(s, job.id, ByClient, Some(job.conn), OutcomeOf(job.reply)), c, r, 0)
  {
    ResolveBalances(s, job.id, ByClient, Some(job.conn), OutcomeOf(job.reply), c, r);
  }

  lemma AbortBalances(s: State, q: ReqId, c: ConnId, r: ReqId)
    requires Inv(s)
    ensures Balances(s, AbortStep(s, q), c, r, 0)
  {
    if q in s.requests && s.requests[q].listening && s.requests[q].thread in s.threads {
      ListenersAreUnsettled(s, q);
      SubscribersDistinct(s, q);
      ResolveBalances(s, q, ByCancellation, None, Cancelled, c, r);
    }
  }

  lemma AskBalances(s: State, t: ThreadId, kind: Kind, params: Value, signal: Signal, c: ConnId, r: ReqId)
    requires Inv(s) && Owned(s, t)
    ensures Balances(s, AskStep(s, t, kind, params, signal), c, r, 0)
  {
    AskRegisters(s, t, kind, params, signal);
    var s1, q := WithRequest(s, t, kind, params, signal), RequestName(s.seqNo + 1);
    RegisteringBalances(s, t, kind, params, signal, c, r);
    WithRequestKeeps(s, t, kind, params, signal);
    if signal.AbortedSignal? {
      NewCanResolve(s, t, kind, params, signal);
      SubscribersDistinct(s1, q);
      ResolveBalances(s1, q, ByCancellation, None, Cancelled, c, r);
    } else {
      FanOutBalances(s1, q, s.threads[t].subscribers, c, r);
    }
  }

  lemma RegisteringBalances(s: State, t: ThreadId, kind: Kind, params: Value, signal: Signal, c: ConnId, r: ReqId)
    requires RequestsOk(s) && t in s.threads
    ensures Balances(s, WithRequest(s, t, kind, params, signal), c, r, 0)
  {
    FreshName(s);
  }

  lemma ConnectBalances(s: State, d: ConnId, c: ConnId, r: ReqId)
    requires RequestsOk(s) && d !in s.conns
    ensures Balances(s, s.(conns := s.conns[d := Conn(false, {}, [], [])]), c, r, 0)
  {
    assert r in s.requests ==> RequestOk(s, r);
  }

  lemma QuietBalances(s: State, m: Move, c: ConnId, r: ReqId)
    requires Quiet(m) && !m.Connect?
    ensures Balances(s, Step(s, m), c, r, 0)
  {
    QuietMove(s, m);
    if c in s.conns {
      QuietKeepsTables(s, m, c);
    } else {
      assert c !in Step(s, m).conns by { Subscriptions.ConnsNext(s, m, c); }
    }
  }

  lemma TimerBalances(s: State, c: ConnId, r: ReqId)
    requires Inv(s) && s.timers != []
    ensures Balances(s, FireTimerStep(s), c, r, 0)
  {
    TimersOnlyKeeps(s, s.timers[1..]);
    var (d, t) := s.timers[0];
    if t in s.threads {
      RedeliverBalances(s.(timers := s.timers[1..]), d, s.threads[t].pending, c, r);
    }
  }

  lemma StepBalances(s: State, m: Move, c: ConnId, r: ReqId)
    requires Inv(s)
    ensures Balances(s, Step(s, m), c, r, RunsNow(s, m, c, r))
  {
    if m.RunJob? {
      if s.jobs != [] { RunJobBalances(s, c, r); }
    } else if m.Ask? {
      if Owned(s, m.thread) { AskBalances(s, m.thread, m.kind, m.params, m.signal, c, r); }
    } else if m.Abort? {
      AbortBalances(s, m.id, c, r);
    } else if m.FireTimer? {
      if s.timers != [] { TimerBalances(s, c, r); }
    } else {
      OtherBalances(s, m, c, r);
    }
  }

  lemma OtherBalances(s: State, m: Move, c: ConnId, r: ReqId)
    requires Inv(s) && !m.RunJob? && !m.Ask? && !m.Abort? && !m.FireTimer?
    ensures Balances(s, Step(s, m), c, r, 0)
  {
    match m
    case Connect(d) => if d !in s.conns { ConnectBalances(s, d, c, r); }
    case Close(d) => if d in s.conns { CloseBalances(s, d, c, r); }
    case Answer(d, rpcId, answer) =>
      if d in s.conns && rpcId.Some? && !answer.Abandoned? { AnswerBalances(s, d, KeyOf(rpcId.value), answer, c, r); }
    case _ => QuietBalances(s, m, c, r);
  }

  // ---- over whole runs ----

  /** What has been asked is what has run, waits, or is still held. */
  ghost predicate Conserved(s: State, c: ConnId, r: ReqId, ran: nat) {
    ran + Queue(s.jobs, c, r) + Held(s, c, r) == Asked(s, c, r)
  }

  lemma ConservedNext(s: State, m: Move, c: ConnId, r: ReqId, ran: nat)
    requires Inv(s) && Conserved(s, c, r, ran)
    ensures Conserved(Step(s, m), c, r, ran + RunsNow(s, m, c, r))
  {
    StepBalances(s, m, c, r);
  }

  /**
   * In every run each request asked of a connection has exactly one promise, and it is in exactly one place: held, with
   * its continuation queued, or run. In particular none is lost and none settles twice.
   */
  lemma {:induction false} PromisesAreConserved(ms: seq<Move>, c: ConnId, r: ReqId)
    requires Legal(ms)
    ensures Conserved(Run(ms), c, r, Settled(ms, c, r))
  {
    if ms != [] {
      var init := ms[..|ms| - 1];
      PromisesAreConserved(init, c, r);
      RunKeeps(init);
      ConservedNext(Run(init), ms[|ms| - 1], c, r, Settled(init, c, r));
    }
  }
}
