/** Who is connected, which threads are registered and who is subscribed to them, read off the moves of a run. */
module Subscriptions {
  import opened Wrappers
  import opened JsonValue
  import opened Protocol
  import ProtocolHeard
  import ProtocolInvariant
  import ProtocolRuns
  import Turns

  // ---- connections, threads and subscriptions, in the moves' terms ----

  /** `c` has connected. */
  predicate HasConnected(ms: seq<Move>, c: ConnId) { Connect(c) in ms }

  /** `c` has connected and then closed. */
  predicate HasClosed(ms: seq<Move>, c: ConnId) {
    exists i :: 0 <= i < |ms| && ms[i] == Close(c) && HasConnected(ms[..i], c)
  }

  /** `t` has been started by a connected client, or adopted. */
  predicate IsRegistered(ms: seq<Move>, t: ThreadId) {
    exists i :: 0 <= i < |ms| && RegistersAt(ms, i, t)
  }

  predicate RegistersAt(ms: seq<Move>, i: nat, t: ThreadId)
    requires i < |ms|
  {
    ms[i] == Adopt(t) || (ms[i].StartThread? && ms[i].thread == t && HasConnected(ms[..i], ms[i].conn))
  }

  /**
   * Move `i` subscribed `c` to `t`: it started the thread, or named a registered one in a resume, steer, interrupt or
   * turn.
   */
  predicate SubscribesAt(ms: seq<Move>, i: nat, c: ConnId, t: ThreadId)
    requires i < |ms|
  {
    && HasConnected(ms[..i], c)
    && (ms[i] == StartThread(c, t) || (IsRegistered(ms[..i], t) && Names(ms[i], c, t)))
  }

  predicate Names(m: Move, c: ConnId, t: ThreadId) {
    m == Resume(c, t) || m == Touch(c, t) || (m.SubmitTurn? && m.conn == c && m.thread == t)
  }

  /** Some move subscribed `c` to `t` and it has neither unsubscribed nor closed since. */
  predicate IsSubscribed(ms: seq<Move>, c: ConnId, t: ThreadId) {
    exists i :: 0 <= i < |ms| && SubscribesAt(ms, i, c, t) && KeptSince(ms, i, c, t)
  }

  predicate KeptSince(ms: seq<Move>, i: nat, c: ConnId, t: ThreadId)
    requires i < |ms|
  {
    Unsubscribe(c, t) !in ms[i + 1..] && Close(c) !in ms[i + 1..]
  }

  predicate LetsGo(m: Move, c: ConnId, t: ThreadId) { m == Unsubscribe(c, t) || m == Close(c) }

  // ---- the last move ----

  lemma ConnectedNext(ms: seq<Move>, m: Move, c: ConnId)
    ensures HasConnected(ms + [m], c) <==> HasConnected(ms, c) || m == Connect(c)
  {
  }

  lemma ClosedNext(ms: seq<Move>, m: Move, c: ConnId)
    ensures HasClosed(ms + [m], c) <==> HasClosed(ms, c) || (m == Close(c) && HasConnected(ms, c))
  {
    var all := ms + [m];
    assert forall i | 0 <= i <= |ms| :: all[..i] == ms[..i];
    assert all[|ms|] == m && ms[..|ms|] == ms;
    assert forall i | 0 <= i < |ms| :: all[i] == ms[i];
  }

  lemma RegisteredNext(ms: seq<Move>, m: Move, t: ThreadId)
    ensures IsRegistered(ms + [m], t) <==>
      IsRegistered(ms, t) || m == Adopt(t) || (m.StartThread? && m.thread == t && HasConnected(ms, m.conn))
  {
    var all := ms + [m];
    assert all[..|ms|] == ms && all[|ms|] == m;
    forall i | 0 <= i < |ms| ensures RegistersAt(all, i, t) <==> RegistersAt(ms, i, t) {
      assert all[..i] == ms[..i] && all[i] == ms[i];
    }
    assert RegistersAt(all, |ms|, t) <==>
      m == Adopt(t) || (m.StartThread? && m.thread == t && HasConnected(ms, m.conn));
  }

  lemma SubscribedNext(ms: seq<Move>, m: Move, c: ConnId, t: ThreadId)
    ensures IsSubscribed(ms + [m], c, t) <==>
      || (HasConnected(ms, c) && (m == StartThread(c, t) || (IsRegistered(ms, t) && Names(m, c, t))))
      || (IsSubscribed(ms, c, t) && !LetsGo(m, c, t))
  {
    var all := ms + [m];
    assert all[..|ms|] == ms && all[|ms|] == m && all[|ms| + 1..] == [];
    forall i | 0 <= i < |ms| ensures SubscribesAt(all, i, c, t) <==> SubscribesAt(ms, i, c, t) {
      assert all[..i] == ms[..i] && all[i] == ms[i];
    }
    forall i | 0 <= i < |ms| ensures KeptSince(all, i, c, t) <==> KeptSince(ms, i, c, t) && !LetsGo(m, c, t) {
      assert all[i + 1..] == ms[i + 1..] + [m];
    }
    assert SubscribesAt(all, |ms|, c, t) <==>
      HasConnected(ms, c) && (m == StartThread(c, t) || (IsRegistered(ms, t) && Names(m, c, t)));
  }

  // ---- the same on states ----

  predicate InThread(s: State, c: ConnId, t: ThreadId) { t in s.threads && c in s.threads[t].subscribers }

  predicate InConn(s: State, c: ConnId, t: ThreadId) { c in s.conns && t in s.conns[c].subscriptions }

  /** Whether a move subscribes `c` to `t` in state `s`. */
  predicate SubscribesNow(s: State, m: Move, c: ConnId, t: ThreadId) {
    c in s.conns && (m == StartThread(c, t) || (t in s.threads && Names(m, c, t)))
  }

  lemma ConnsNext(s: State, m: Move, c: ConnId)
    ensures c in Step(s, m).conns <==> c in s.conns || m == Connect(c)
  {
    if c in s.conns {
      ProtocolHeard.MoveSends(s, m, c);
    } else {
      ProtocolHeard.NewcomerHeardNothing(s, m, "", c);
    }
  }

  /** Connections, threads and subscriptions are the same, but that a thread may have dropped closed connections. */
  ghost predicate KeepsSubscriptions(s: State, s': State) {
    && s'.conns.Keys == s.conns.Keys && s'.threads.Keys == s.threads.Keys
    && (forall c | c in s.conns ::
          s'.conns[c].closed == s.conns[c].closed && s'.conns[c].subscriptions == s.conns[c].subscriptions)
    && (forall c, t | IsOpen(s, c) :: InThread(s', c, t) <==> InThread(s, c, t))
    && (forall c, t | InThread(s', c, t) :: InThread(s, c, t))
  }

  lemma ResolveKeeps(s: State, r: ReqId, resolvedBy: ResolvedBy, winner: Option<ConnId>, outcome: Outcome)
    requires r in s.requests && s.requests[r].thread in s.threads
    ensures KeepsSubscriptions(s, Resolve(s, r, resolvedBy, winner, outcome))
  {
  }

  lemma BroadcastKeeps(s: State, t: ThreadId, frame: Frame)
    requires t in s.threads
    ensures KeepsSubscriptions(s, Broadcast(s, t, frame))
  {
    ProtocolInvariant.OpenOnlyIs(s, s.threads[t].subscribers);
  }

  lemma TurnKeeps(s: State, t: ThreadId, input: Turns.Input)
    requires t in s.threads
    ensures KeepsSubscriptions(s, TurnStep(s, t, input))
  {
    var s1 := if input.Log? && Forwarded(input.event) then Broadcast(s, t, EventFrame(t, input.event)) else s;
    if input.Log? && Forwarded(input.event) {
      BroadcastKeeps(s, t, EventFrame(t, input.event));
    }
    var s2 := s1.(threads := s1.threads[t := s1.threads[t].(turn := Turns.Advance(s.threads[t].turn, input))]);
    KeepsTwice(s, s1, s2);
    var note := Turns.NoteFor(s.threads[t].turn, input);
    if note.Some? {
      BroadcastKeeps(s2, t, FrameOfNote(t, note.value));
      KeepsTwice(s, s2, TurnStep(s, t, input));
    }
  }

  lemma KeepsTwice(s: State, s1: State, s2: State)
    requires KeepsSubscriptions(s, s1) && KeepsSubscriptions(s1, s2)
    ensures KeepsSubscriptions(s, s2)
  {
    forall c | IsOpen(s, c) ensures IsOpen(s1, c) {
    }
  }

  lemma AskKeeps(s: State, t: ThreadId, kind: Kind, params: Value, signal: Signal)
    requires Owned(s, t)
    ensures KeepsSubscriptions(s, AskStep(s, t, kind, params, signal))
  {
    ProtocolRuns.AskRegisters(s, t, kind, params, signal);
    var s1, r := WithRequest(s, t, kind, params, signal), RequestName(s.seqNo + 1);
    RegisteringKeeps(s, t, kind, params, signal);
    AfterRegisteringKeeps(s1, r, signal, s.threads[t].subscribers);
    KeepsTwice(s, s1, AskStep(s, t, kind, params, signal));
  }

  lemma RegisteringKeeps(s: State, t: ThreadId, kind: Kind, params: Value, signal: Signal)
    requires t in s.threads
    ensures KeepsSubscriptions(s, WithRequest(s, t, kind, params, signal))
  {
  }

  lemma AfterRegisteringKeeps(s: State, r: ReqId, signal: Signal, subscribers: seq<ConnId>)
    requires r in s.requests && s.requests[r].thread in s.threads
    ensures KeepsSubscriptions(s, AfterRegistering(s, r, signal, subscribers))
  {
    if signal.AbortedSignal? {
      ResolveKeeps(s, r, ByCancellation, None, Cancelled);
    }
  }

  lemma JobKeeps(s: State)
    requires s.jobs != []
    ensures KeepsSubscriptions(s, RunJobStep(s))
  {
    var s1, job := s.(jobs := s.jobs[1..]), s.jobs[0];
    if job.id in s.requests && s.requests[job.id].thread in s.threads {
      ResolveKeeps(s1, job.id, ByClient, Some(job.conn), OutcomeOf(job.reply));
      KeepsTwice(s, s1, Resolve(s1, job.id, ByClient, Some(job.conn), OutcomeOf(job.reply)));
    }
  }

  /** The moves that are about requests, turns or the agent, not about who is connected or subscribed. */
  predicate Unrelated(m: Move) {
    m.Ask? || m.Answer? || m.RunJob? || m.Abort? || m.FireTimer? || m.TurnInput? || m.AgentStatus? || m.AgentError?
  }

  lemma UnrelatedKeeps(s: State, m: Move)
    requires Unrelated(m)
    ensures KeepsSubscriptions(s, Step(s, m))
  {
    match m
    case Ask(t, kind, params, signal) => if Owned(s, t) { AskKeeps(s, t, kind, params, signal); }
    case RunJob => if s.jobs != [] { JobKeeps(s); }
    case Abort(r) =>
      if r in s.requests && s.requests[r].thread in s.threads { ResolveKeeps(s, r, ByCancellation, None, Cancelled); }
    case TurnInput(t, input) => if t in s.threads && !input.Submit? { TurnKeeps(s, t, input); }
    case AgentStatus(t, status) => if t in s.threads { BroadcastKeeps(s, t, StatusFrame(t, status)); }
    case AgentError(t, turn, message) => if t in s.threads { BroadcastKeeps(s, t, ErrorFrame(t, turn, message)); }
    case FireTimer => if s.timers != [] { TimerKeeps(s); }
    case Answer(c, rpcId, answer) =>
      if c in s.conns && rpcId.Some? && !answer.Abandoned? { AnswerKeeps(s, c, KeyOf(rpcId.value), answer); }
  }

  lemma TimerKeeps(s: State)
    requires s.timers != []
    ensures KeepsSubscriptions(s, FireTimerStep(s))
  {
  }

  lemma AnswerKeeps(s: State, c: ConnId, key: ReqId, reply: Reply)
    requires c in s.conns
    ensures KeepsSubscriptions(s, AnswerStep(s, c, key, reply))
  {
  }

  lemma SubmitKeeps(s: State, m: Move)
    requires m.SubmitTurn? && m.conn in s.conns && m.thread in s.threads
    ensures KeepsSubscriptions(Subscribed(s, m.conn, m.thread), Step(s, m))
  {
    TurnKeeps(Subscribed(s, m.conn, m.thread), m.thread, Turns.Submit(m.messageId));
  }

  lemma ThreadsNext(s: State, m: Move, t: ThreadId)
    ensures t in Step(s, m).threads <==>
      t in s.threads || m == Adopt(t) || (m.StartThread? && m.thread == t && m.conn in s.conns)
  {
    if Unrelated(m) {
      UnrelatedKeeps(s, m);
    } else if m.SubmitTurn? && m.conn in s.conns && m.thread in s.threads {
      SubmitKeeps(s, m);
    }
  }

  lemma OpenNext(s: State, m: Move, c: ConnId)
    requires c in s.conns
    ensures c in Step(s, m).conns && (Step(s, m).conns[c].closed <==> s.conns[c].closed || m == Close(c))
  {
    if Unrelated(m) {
      UnrelatedKeeps(s, m);
    } else if m.SubmitTurn? && m.conn in s.conns && m.thread in s.threads {
      SubmitKeeps(s, m);
    }
  }

  /** What a move does to the subscriptions of a connection. */
  ghost predicate SubscriptionsMove(s: State, m: Move, s': State, c: ConnId, t: ThreadId) {
    && (InConn(s', c, t) <==> SubscribesNow(s, m, c, t) || (InConn(s, c, t) && !LetsGo(m, c, t)))
    && (InThread(s', c, t) ==> SubscribesNow(s, m, c, t) || (InThread(s, c, t) && !LetsGo(m, c, t)))
    && (IsOpen(s', c) && (SubscribesNow(s, m, c, t) || (InThread(s, c, t) && !LetsGo(m, c, t))) ==> InThread(s', c, t))
  }

  lemma SubscriptionsNext(s: State, m: Move, c: ConnId, t: ThreadId)
    requires Enabled(s, m) && c in s.conns
    ensures SubscriptionsMove(s, m, Step(s, m), c, t)
  {
    OpenNext(s, m, c);
    if Unrelated(m) {
      UnrelatedKeeps(s, m);
      UnrelatedMove(s, m, Step(s, m), c, t);
    } else if m.SubmitTurn? {
      SubmitMove(s, m, c, t);
    } else if m.Connect? || m.Adopt? || m.Unsubscribe? || m.Close? {
      TableMove(s, m, c, t);
    } else {
      SubscribeMove(s, m, c, t);
    }
  }

  lemma UnrelatedMove(s: State, m: Move, s': State, c: ConnId, t: ThreadId)
    requires Unrelated(m) && KeepsSubscriptions(s, s') && c in s.conns && (IsOpen(s', c) ==> IsOpen(s, c))
    ensures SubscriptionsMove(s, m, s', c, t)
  {
    UnrelatedNamesNobody(s, m, c, t);
    assert InConn(s', c, t) <==> InConn(s, c, t);
    assert InThread(s', c, t) ==> InThread(s, c, t);
  }

  lemma UnrelatedNamesNobody(s: State, m: Move, c: ConnId, t: ThreadId)
    requires Unrelated(m)
    ensures !SubscribesNow(s, m, c, t) && !LetsGo(m, c, t)
  {
  }

  lemma SubscribedEffect(s: State, d: ConnId, u: ThreadId, c: ConnId, t: ThreadId)
    requires d in s.conns && u in s.threads && c in s.conns
    ensures InThread(Subscribed(s, d, u), c, t) <==> InThread(s, c, t) || (c == d && t == u)
    ensures InConn(Subscribed(s, d, u), c, t) <==> InConn(s, c, t) || (c == d && t == u)
  {
  }

  lemma SubmitMove(s: State, m: Move, c: ConnId, t: ThreadId)
    requires m.SubmitTurn? && c in s.conns
    ensures SubscriptionsMove(s, m, Step(s, m), c, t)
  {
    if m.conn in s.conns && m.thread in s.threads {
      SubmitKeeps(s, m);
      SubscribedEffect(s, m.conn, m.thread, c, t);
      SubmittedMove(s, m, Subscribed(s, m.conn, m.thread), Step(s, m), c, t);
    }
  }

  lemma SubmittedMove(s: State, m: Move, s1: State, s': State, c: ConnId, t: ThreadId)
    requires m.SubmitTurn? && m.conn in s.conns && m.thread in s.threads && c in s.conns && c in s1.conns
    requires KeepsSubscriptions(s1, s')
    requires InThread(s1, c, t) <==> InThread(s, c, t) || (c == m.conn && t == m.thread)
    requires InConn(s1, c, t) <==> InConn(s, c, t) || (c == m.conn && t == m.thread)
    ensures SubscriptionsMove(s, m, s', c, t)
  {
    assert InConn(s', c, t) <==> InConn(s1, c, t);
    assert InThread(s', c, t) ==> InThread(s1, c, t);
    assert IsOpen(s', c) ==> IsOpen(s1, c);
  }

  lemma SubscribeMove(s: State, m: Move, c: ConnId, t: ThreadId)
    requires (m.StartThread? || m.Resume? || m.Touch?) && Enabled(s, m) && c in s.conns
    ensures SubscriptionsMove(s, m, Step(s, m), c, t)
  {
    if m.StartThread? {
      if m.conn in s.conns {
        SubscribedEffect(s.(threads := s.threads[m.thread := NewThread()]), m.conn, m.thread, c, t);
      }
    } else if m.conn in s.conns && m.thread in s.threads {
      SubscribedEffect(s, m.conn, m.thread, c, t);
    }
  }

  lemma TableMove(s: State, m: Move, c: ConnId, t: ThreadId)
    requires (m.Connect? || m.Adopt? || m.Unsubscribe? || m.Close?) && c in s.conns
    ensures SubscriptionsMove(s, m, Step(s, m), c, t)
  {
    if m.Unsubscribe? && m.conn in s.conns {
      UnsubscribedEffect(s, m.conn, m.thread, c, t);
    } else if m.Close? && m.conn in s.conns {
      ClosedEffect(s, m.conn, c, t);
    }
  }

  lemma UnsubscribedEffect(s: State, d: ConnId, u: ThreadId, c: ConnId, t: ThreadId)
    requires d in s.conns && c in s.conns
    ensures InThread(UnsubscribeStep(s, d, u), c, t) <==> InThread(s, c, t) && !(c == d && t == u)
    ensures InConn(UnsubscribeStep(s, d, u), c, t) <==> InConn(s, c, t) && !(c == d && t == u)
  {
  }

  lemma ClosedEffect(s: State, d: ConnId, c: ConnId, t: ThreadId)
    requires d in s.conns && c in s.conns
    ensures InThread(CloseStep(s, d), c, t) <==> InThread(s, c, t) && c != d
    ensures InConn(CloseStep(s, d), c, t) <==> InConn(s, c, t) && c != d
  {
  }

  // ---- over whole runs ----

  lemma {:induction false} ConnectedExactly(ms: seq<Move>, c: ConnId)
    ensures c in Run(ms).conns <==> HasConnected(ms, c)
    ensures c in Run(ms).conns ==> (Run(ms).conns[c].closed <==> HasClosed(ms, c))
  {
    if ms != [] {
      var init, m := ms[..|ms| - 1], ms[|ms| - 1];
      assert ms == init + [m];
      ConnectedExactly(init, c);
      ConnsNext(Run(init), m, c);
      ConnectedNext(init, m, c);
      ClosedNext(init, m, c);
      if c in Run(init).conns {
        OpenNext(Run(init), m, c);
      } else {
        NeverClosed(init, c);
      }
    }
  }

  lemma NeverClosed(ms: seq<Move>, c: ConnId)
    requires !HasConnected(ms, c)
    ensures !HasClosed(ms, c)
  {
  }

  lemma {:induction false} RegisteredExactly(ms: seq<Move>, t: ThreadId)
    ensures t in Run(ms).threads <==> IsRegistered(ms, t)
  {
    if ms != [] {
      var init, m := ms[..|ms| - 1], ms[|ms| - 1];
      assert ms == init + [m];
      RegisteredExactly(init, t);
      ThreadsNext(Run(init), m, t);
      RegisteredNext(init, m, t);
      if m.StartThread? {
        ConnectedExactly(init, m.conn);
      }
    }
  }

  /**
   * Over every legal run a connection has a thread among its subscriptions exactly when some move subscribed it and it
   * has neither unsubscribed nor closed since; the thread's subscribers say the same of every open connection, and have
   * no closed one but those that subscribed after they closed.
   */
  lemma {:induction false} SubscribedExactly(ms: seq<Move>, c: ConnId, t: ThreadId)
    requires Legal(ms) && c in Run(ms).conns
    ensures InConn(Run(ms), c, t) <==> IsSubscribed(ms, c, t)
    ensures IsOpen(Run(ms), c) ==> (InThread(Run(ms), c, t) <==> IsSubscribed(ms, c, t))
    ensures InThread(Run(ms), c, t) ==> IsSubscribed(ms, c, t)
  {
    var init, m := ms[..|ms| - 1], ms[|ms| - 1];
    assert ms == init + [m];
    SubscribedNext(init, m, c, t);
    ConnectedExactly(init, c);
    RegisteredExactly(init, t);
    if c in Run(init).conns {
      OpenNext(Run(init), m, c);
      SubscribedExactly(init, c, t);
      SubscriptionsNext(Run(init), m, c, t);
    } else {
      NewcomerSubscribesNothing(init, m, c, t);
    }
  }

  lemma NewcomerSubscribesNothing(init: seq<Move>, m: Move, c: ConnId, t: ThreadId)
    requires Legal(init) && Enabled(Run(init), m) && c !in Run(init).conns
    ensures c in Step(Run(init), m).conns ==>
      && !InThread(Step(Run(init), m), c, t) && !InConn(Step(Run(init), m), c, t)
      && !IsSubscribed(init + [m], c, t)
  {
    var s := Run(init);
    ConnectedExactly(init, c);
    ProtocolHeard.NewcomerHeardNothing(s, m, "", c);
    ProtocolRuns.RunKeeps(init);
    assert t in s.threads ==> ProtocolInvariant.ThreadOk(s, t);
    SubscribedNext(init, m, c, t);
    assert !IsSubscribed(init, c, t) by {
      forall i | 0 <= i < |init| ensures !SubscribesAt(init, i, c, t) {
        assert Connect(c) !in init[..i];
      }
    }
  }

  // ---- redelivery timers ----

  /** The resumes that took effect, in order: each by a connected client and of a registered thread. */
  function ResumesOf(ms: seq<Move>): seq<(ConnId, ThreadId)> {
    if ms == [] then []
    else
      var init, m := ms[..|ms| - 1], ms[|ms| - 1];
      ResumesOf(init)
      + if m.Resume? && HasConnected(init, m.conn) && IsRegistered(init, m.thread) then [(m.conn, m.thread)] else []
  }

  /** How many timers have fired: each firing that finds one takes it. */
  function Fired(ms: seq<Move>): (n: nat)
    ensures n <= |ResumesOf(ms)|
  {
    if ms == [] then 0
    else
      var n := Fired(ms[..|ms| - 1]);
      if ms[|ms| - 1].FireTimer? && n < |ResumesOf(ms[..|ms| - 1])| then n + 1 else n
  }

  lemma TimersNext(s: State, m: Move)
    ensures Step(s, m).timers ==
      if m.Resume? && m.conn in s.conns && m.thread in s.threads then s.timers + [(m.conn, m.thread)]
      else if m.FireTimer? && s.timers != [] then s.timers[1..]
      else s.timers
  {
    if m.Ask? {
      if Owned(s, m.thread) { AskKeepsTimers(s, m.thread, m.kind, m.params, m.signal); }
    } else if m.RunJob? || m.Abort? {
      DecidingKeepsTimers(s, m);
    }
  }

  lemma AskKeepsTimers(s: State, t: ThreadId, kind: Kind, params: Value, signal: Signal)
    requires Owned(s, t)
    ensures AskStep(s, t, kind, params, signal).timers == s.timers
  {
    ProtocolRuns.AskRegisters(s, t, kind, params, signal);
  }

  lemma DecidingKeepsTimers(s: State, m: Move)
    requires m.RunJob? || m.Abort?
    ensures Step(s, m).timers == s.timers
  {
  }

  /** Every resume is redelivered to once, in order: the timers that wait are the resumes not yet fired. */
  lemma {:induction false} TimersAreResumes(ms: seq<Move>)
    ensures Run(ms).timers == ResumesOf(ms)[Fired(ms)..]
  {
    if ms != [] {
      var init, m := ms[..|ms| - 1], ms[|ms| - 1];
      TimersAreResumes(init);
      TimersNext(Run(init), m);
      if m.Resume? {
        ConnectedExactly(init, m.conn);
        RegisteredExactly(init, m.thread);
      }
    }
  }
}
