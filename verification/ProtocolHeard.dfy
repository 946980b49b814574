/**
 * What a connection hears about a thread over a whole run: exactly what was broadcast while it was an open subscriber.
 */
module ProtocolHeard {
  import opened Wrappers
  import opened JsonValue
  import opened Protocol
  import opened ProtocolTurns
  import ProtocolRuns
  import Turns

  // ---- frames of a thread ----

  /** Everything about thread `t` but requests and their notices. */
  predicate IsNews(f: Frame, t: ThreadId) {
    !f.RequestFrame? && !f.ResolvedFrame? && f.thread == t
  }

  function News(sent: seq<Frame>, t: ThreadId): seq<Frame> {
    if sent == [] then []
    else News(sent[..|sent| - 1], t) + if IsNews(sent[|sent| - 1], t) then [sent[|sent| - 1]] else []
  }

  lemma {:induction false} NewsAppend(a: seq<Frame>, b: seq<Frame>, t: ThreadId)
    ensures News(a + b, t) == News(a, t) + News(b, t)
  {
    if b == [] {
      assert a + b == a;
    } else {
      NewsAppend(a, b[..|b| - 1], t);
      assert (a + b)[..|a + b| - 1] == a + b[..|b| - 1];
    }
  }

  /** What a move broadcasts to the open subscribers of `t`. */
  function Broadcasts(s: State, m: Move, t: ThreadId): seq<Frame>
    requires t in s.threads
  {
    match m
    case TurnInput(u, input) => if u == t && !input.Submit? then TurnFrames(s, t, input) else []
    case AgentStatus(u, status) => if u == t then [StatusFrame(t, status)] else []
    case AgentError(u, turn, message) => if u == t then [ErrorFrame(t, turn, message)] else []
    case _ => []
  }

  /** A log event when it is forwarded, then the turn notification it causes. */
  function TurnFrames(s: State, t: ThreadId, input: Turns.Input): seq<Frame>
    requires t in s.threads
  {
    (if input.Log? && Forwarded(input.event) then [EventFrame(t, input.event)] else [])
    + match Turns.NoteFor(s.threads[t].turn, input) { case Some(note) => [FrameOfNote(t, note)] case None => [] }
  }

  predicate Listens(s: State, t: ThreadId, c: ConnId) {
    t in s.threads && c in s.threads[t].subscribers && IsOpen(s, c)
  }

  function HeardNow(s: State, m: Move, t: ThreadId, c: ConnId): seq<Frame> {
    if Listens(s, t, c) then Broadcasts(s, m, t) else []
  }

  function Heard(ms: seq<Move>, t: ThreadId, c: ConnId): seq<Frame> {
    if ms == [] then [] else Heard(ms[..|ms| - 1], t, c) + HeardNow(Run(ms[..|ms| - 1]), ms[|ms| - 1], t, c)
  }

  // ---- moves that send no news ----

  /** Connections gained at most frames about requests. */
  ghost predicate SameNews(s: State, s': State) {
    && s.conns.Keys <= s'.conns.Keys
    && (forall c, t | c in s.conns :: News(s'.conns[c].sent, t) == News(s.conns[c].sent, t))
    && (forall c | c in s.conns :: s.conns[c].sent <= s'.conns[c].sent)
  }

  lemma RequestsAreNoNews(s: State, s': State)
    requires s.conns.Keys <= s'.conns.Keys
    requires forall c | c in s.conns ::
      || s'.conns[c].sent == s.conns[c].sent
      || exists f: Frame :: (f.RequestFrame? || f.ResolvedFrame?) && s'.conns[c].sent == s.conns[c].sent + [f]
    ensures SameNews(s, s')
  {
    forall c, t | c in s.conns ensures News(s'.conns[c].sent, t) == News(s.conns[c].sent, t) {
      if s'.conns[c].sent != s.conns[c].sent {
        var f: Frame :| (f.RequestFrame? || f.ResolvedFrame?) && s'.conns[c].sent == s.conns[c].sent + [f];
        NewsAppend(s.conns[c].sent, [f], t);
      }
    }
  }

  lemma DeliverIsNoNews(s: State, r: ReqId, c: ConnId)
    ensures SameNews(s, Deliver(s, r, c))
  {
    RequestsAreNoNews(s, Deliver(s, r, c));
  }

  lemma {:induction false} FanOutIsNoNews(s: State, r: ReqId, cs: seq<ConnId>)
    ensures SameNews(s, FanOut(s, r, cs))
  {
    if cs != [] {
      FanOutIsNoNews(s, r, cs[..|cs| - 1]);
      DeliverIsNoNews(FanOut(s, r, cs[..|cs| - 1]), r, cs[|cs| - 1]);
    }
  }

  lemma {:induction false} RedeliverIsNoNews(s: State, c: ConnId, rs: seq<ReqId>)
    ensures SameNews(s, RedeliverAll(s, c, rs))
  {
    if rs != [] {
      RedeliverIsNoNews(s, c, rs[..|rs| - 1]);
      DeliverIsNoNews(RedeliverAll(s, c, rs[..|rs| - 1]), rs[|rs| - 1], c);
    }
  }

  lemma ResolveIsNoNews(s: State, r: ReqId, resolvedBy: ResolvedBy, winner: Option<ConnId>, outcome: Outcome)
    requires r in s.requests && s.requests[r].thread in s.threads
    ensures SameNews(s, Resolve(s, r, resolvedBy, winner, outcome))
  {
    RequestsAreNoNews(s, Announce(s, r, resolvedBy, winner));
  }

  /** Moves that are not broadcasts. */
  predicate Silent(m: Move) {
    !m.TurnInput? && !m.SubmitTurn? && !m.AgentStatus? && !m.AgentError?
  }

  lemma SilentIsNoNews(s: State, m: Move)
    requires Silent(m)
    ensures SameNews(s, Step(s, m))
  {
    if m.Ask? {
      if Owned(s, m.thread) { AskIsNoNews(s, m.thread, m.kind, m.params, m.signal); }
    } else if m.RunJob? {
      if s.jobs != [] { JobIsNoNews(s); }
    } else if m.Abort? {
      if m.id in s.requests && s.requests[m.id].thread in s.threads {
        ResolveIsNoNews(s, m.id, ByCancellation, None, Cancelled);
      }
    } else if m.FireTimer? {
      if s.timers != [] && s.timers[0].1 in s.threads {
        RedeliverIsNoNews(s.(timers := s.timers[1..]), s.timers[0].0, s.threads[s.timers[0].1].pending);
      }
    } else {
      OthersAreNoNews(s, m);
    }
  }

  lemma AskIsNoNews(s: State, t: ThreadId, kind: Kind, params: Value, signal: Signal)
    requires Owned(s, t)
    ensures SameNews(s, AskStep(s, t, kind, params, signal))
  {
    ProtocolRuns.AskRegisters(s, t, kind, params, signal);
    var s1, r := WithRequest(s, t, kind, params, signal), RequestName(s.seqNo + 1);
    AfterRegisteringIsNoNews(s1, r, signal, s.threads[t].subscribers);
    assert s1.conns == s.conns;
  }

  lemma AfterRegisteringIsNoNews(s: State, r: ReqId, signal: Signal, subscribers: seq<ConnId>)
    requires r in s.requests && s.requests[r].thread in s.threads
    ensures SameNews(s, AfterRegistering(s, r, signal, subscribers))
  {
    if signal.AbortedSignal? {
      ResolveIsNoNews(s, r, ByCancellation, None, Cancelled);
    } else {
      FanOutIsNoNews(s, r, subscribers);
    }
  }

  lemma JobIsNoNews(s: State)
    requires s.jobs != []
    ensures SameNews(s, RunJobStep(s))
  {
    var s1, job := s.(jobs := s.jobs[1..]), s.jobs[0];
    if job.id in s.requests && s.requests[job.id].thread in s.threads {
      ResolveIsNoNews(s1, job.id, ByClient, Some(job.conn), OutcomeOf(job.reply));
    }
  }

  lemma OthersAreNoNews(s: State, m: Move)
    requires Silent(m) && !m.Ask? && !m.RunJob? && !m.Abort? && !m.FireTimer?
    ensures SameNews(s, Step(s, m))
  {
    OthersSendNothing(s, m);
    NothingSentIsNoNews(s, Step(s, m));
  }

  ghost predicate SameSent(s: State, s': State) {
    s.conns.Keys <= s'.conns.Keys && forall c | c in s.conns :: s'.conns[c].sent == s.conns[c].sent
  }

  lemma OthersSendNothing(s: State, m: Move)
    requires Silent(m) && !m.Ask? && !m.RunJob? && !m.Abort? && !m.FireTimer?
    ensures SameSent(s, Step(s, m))
  {
  }

  lemma NothingSentIsNoNews(s: State, s': State)
    requires SameSent(s, s')
    ensures SameNews(s, s')
  {
  }

  // ---- broadcasts ----

  lemma BroadcastIsHeard(s: State, u: ThreadId, frame: Frame, t: ThreadId, c: ConnId)
    requires u in s.threads && c in s.conns && frame.thread == u && !frame.RequestFrame? && !frame.ResolvedFrame?
    ensures c in Broadcast(s, u, frame).conns && s.conns[c].sent <= Broadcast(s, u, frame).conns[c].sent
    ensures News(Broadcast(s, u, frame).conns[c].sent, t)
         == News(s.conns[c].sent, t) + if u == t && Listens(s, t, c) then [frame] else []
  {
    AddedNews(s.conns[c].sent, [frame], u, t);
  }

  /** Frames that are all news of `u` count for `u` and for no other thread. */
  lemma {:induction false} AllNews(frames: seq<Frame>, u: ThreadId, t: ThreadId)
    requires forall i | 0 <= i < |frames| :: IsNews(frames[i], u)
    ensures News(frames, t) == if u == t then frames else []
  {
    if frames != [] {
      AllNews(frames[..|frames| - 1], u, t);
      assert frames == frames[..|frames| - 1] + [frames[|frames| - 1]];
    }
  }

  lemma AddedNews(sent: seq<Frame>, frames: seq<Frame>, u: ThreadId, t: ThreadId)
    requires forall i | 0 <= i < |frames| :: IsNews(frames[i], u)
    ensures News(sent + frames, t) == News(sent, t) + if u == t then frames else []
  {
    NewsAppend(sent, frames, t);
    AllNews(frames, u, t);
  }

  lemma TurnIsHeard(s: State, u: ThreadId, input: Turns.Input, t: ThreadId, c: ConnId)
    requires u in s.threads && c in s.conns
    ensures c in TurnStep(s, u, input).conns && s.conns[c].sent <= TurnStep(s, u, input).conns[c].sent
    ensures News(TurnStep(s, u, input).conns[c].sent, t)
         == News(s.conns[c].sent, t) + if u == t && Listens(s, t, c) then TurnFrames(s, t, input) else []
  {
    TurnFramesReach(s, u, input, c);
    if Listens(s, u, c) {
      TurnFramesAreNews(s, u, input);
      AddedNews(s.conns[c].sent, TurnFrames(s, u, input), u, t);
    }
  }

  lemma TurnFramesReach(s: State, u: ThreadId, input: Turns.Input, c: ConnId)
    requires u in s.threads && c in s.conns
    ensures c in TurnStep(s, u, input).conns
    ensures TurnStep(s, u, input).conns[c].sent == s.conns[c].sent +
      if Listens(s, u, c) then TurnFrames(s, u, input) else []
  {
    NotesReachSubscribers(s, u, input, c);
  }

  lemma TurnFramesAreNews(s: State, u: ThreadId, input: Turns.Input)
    requires u in s.threads
    ensures forall i | 0 <= i < |TurnFrames(s, u, input)| :: IsNews(TurnFrames(s, u, input)[i], u)
  {
  }

  lemma MoveIsHeard(s: State, m: Move, t: ThreadId, c: ConnId)
    requires c in s.conns
    ensures c in Step(s, m).conns && s.conns[c].sent <= Step(s, m).conns[c].sent
    ensures News(Step(s, m).conns[c].sent, t) == News(s.conns[c].sent, t) + HeardNow(s, m, t, c)
  {
    if Silent(m) {
      SilentIsNoNews(s, m);
    } else if m.thread !in s.threads {
      assert Step(s, m) == s;
    } else if m.TurnInput? {
      if !m.input.Submit? { TurnIsHeard(s, m.thread, m.input, t, c); }
    } else if m.SubmitTurn? {
      SubmitIsNoNews(s, m, t, c);
    } else {
      StatusIsHeard(s, m, t, c);
    }
  }

  lemma SubmitIsNoNews(s: State, m: Move, t: ThreadId, c: ConnId)
    requires c in s.conns && m.SubmitTurn?
    ensures c in Step(s, m).conns && s.conns[c].sent <= Step(s, m).conns[c].sent
    ensures News(Step(s, m).conns[c].sent, t) == News(s.conns[c].sent, t)
  {
    if m.conn in s.conns && m.thread in s.threads {
      var s1 := Subscribed(s, m.conn, m.thread);
      assert s1.conns[c].sent == s.conns[c].sent;
      TurnIsHeard(s1, m.thread, Turns.Submit(m.messageId), t, c);
    }
  }

  lemma StatusIsHeard(s: State, m: Move, t: ThreadId, c: ConnId)
    requires c in s.conns && (m.AgentStatus? || m.AgentError?) && m.thread in s.threads
    ensures c in Step(s, m).conns && s.conns[c].sent <= Step(s, m).conns[c].sent
    ensures News(Step(s, m).conns[c].sent, t) == News(s.conns[c].sent, t) + HeardNow(s, m, t, c)
  {
    BroadcastIsHeard(s, m.thread, StatusOf(m), t, c);
  }

  function StatusOf(m: Move): Frame
    requires m.AgentStatus? || m.AgentError?
  {
    if m.AgentStatus? then StatusFrame(m.thread, m.status) else ErrorFrame(m.thread, m.turn, m.message)
  }

  lemma NewcomerHeardNothing(s: State, m: Move, t: ThreadId, c: ConnId)
    requires c !in s.conns
    ensures HeardNow(s, m, t, c) == []
    ensures c in Step(s, m).conns ==> m == Connect(c) && Step(s, m).conns[c].sent == []
  {
    if Silent(m) && m != Connect(c) {
      ConnectionsOnlyConnect(s, m, c);
    } else if !Silent(m) && m.thread in s.threads {
      BroadcastsConnectNobody(s, m, c);
    }
  }

  lemma BroadcastsConnectNobody(s: State, m: Move, c: ConnId)
    requires c !in s.conns && !Silent(m) && m.thread in s.threads
    ensures c !in Step(s, m).conns
  {
    if m.TurnInput? {
      TurnConnectsNobody(s, m.thread, m.input);
    } else if m.SubmitTurn? && m.conn in s.conns {
      TurnConnectsNobody(Subscribed(s, m.conn, m.thread), m.thread, Turns.Submit(m.messageId));
    }
  }

  lemma TurnConnectsNobody(s: State, t: ThreadId, input: Turns.Input)
    requires t in s.threads
    ensures TurnStep(s, t, input).conns.Keys == s.conns.Keys
  {
    if input.Log? && Forwarded(input.event) {
      BroadcastConnectsNobody(s, t, EventFrame(t, input.event));
    }
  }

  lemma BroadcastConnectsNobody(s: State, t: ThreadId, frame: Frame)
    requires t in s.threads
    ensures Protocol.Broadcast(s, t, frame).conns.Keys == s.conns.Keys
  {
  }

  lemma ConnectionsOnlyConnect(s: State, m: Move, c: ConnId)
    requires c !in s.conns && m != Connect(c) && Silent(m)
    ensures c !in Step(s, m).conns
  {
    if m.Ask? {
      if Owned(s, m.thread) {
        AskConnectsNobody(s, m.thread, m.kind, m.params, m.signal);
      }
    } else if m.RunJob? && s.jobs != [] {
      var s1, job := s.(jobs := s.jobs[1..]), s.jobs[0];
      if job.id in s.requests && s.requests[job.id].thread in s.threads {
        ResolveConnectsNobody(s1, job.id, ByClient, Some(job.conn), OutcomeOf(job.reply));
      }
    }
  }

  lemma AskConnectsNobody(s: State, t: ThreadId, kind: Kind, params: Value, signal: Signal)
    requires Owned(s, t)
    ensures AskStep(s, t, kind, params, signal).conns.Keys == s.conns.Keys
  {
    ResolveConnectsNobody(
      WithRequest(s, t, kind, params, signal), RequestName(s.seqNo + 1), ByCancellation, None, Cancelled);
  }

  lemma ResolveConnectsNobody(s: State, r: ReqId, resolvedBy: ResolvedBy, winner: Option<ConnId>, outcome: Outcome)
    requires r in s.requests && s.requests[r].thread in s.threads
    ensures Resolve(s, r, resolvedBy, winner, outcome).conns.Keys == s.conns.Keys
  {
  }

  ghost predicate HeardIs(s: State, t: ThreadId, c: ConnId, heard: seq<Frame>) {
    if c in s.conns then News(s.conns[c].sent, t) == heard else heard == []
  }

  /**
   * Over every run, what a connection was sent about a thread is what was broadcast while it was an open subscriber, in
   * order.
   */
  lemma {:induction false} HeardExactly(ms: seq<Move>, t: ThreadId, c: ConnId)
    ensures HeardIs(Run(ms), t, c, Heard(ms, t, c))
  {
    if ms != [] {
      var init, m := ms[..|ms| - 1], ms[|ms| - 1];
      HeardExactly(init, t, c);
      if c in Run(init).conns {
        MoveIsHeard(Run(init), m, t, c);
      } else {
        NewcomerHeardNothing(Run(init), m, t, c);
      }
    }
  }

  /** What `c` has been sent after a run. */
  function SentTo(ms: seq<Move>, c: ConnId): seq<Frame> {
    if c in Run(ms).conns then Run(ms).conns[c].sent else []
  }

  lemma MoveSends(s: State, m: Move, c: ConnId)
    requires c in s.conns
    ensures c in Step(s, m).conns && s.conns[c].sent <= Step(s, m).conns[c].sent
  {
    MoveIsHeard(s, m, "", c);
  }

  /** Connections stay, and what they were sent only grows. */
  lemma {:induction false} SentGrows(ms: seq<Move>, n: nat, c: ConnId)
    requires n <= |ms|
    ensures SentTo(ms[..n], c) <= SentTo(ms, c) && (c in Run(ms[..n]).conns ==> c in Run(ms).conns)
  {
    if n == |ms| {
      assert ms[..n] == ms;
    } else {
      var init, m := ms[..|ms| - 1], ms[|ms| - 1];
      assert init[..n] == ms[..n];
      SentGrows(init, n, c);
      if c in Run(init).conns {
        MoveSends(Run(init), m, c);
      }
    }
  }

  lemma HeardIsSent(ms: seq<Move>, t: ThreadId, c: ConnId)
    ensures News(SentTo(ms, c), t) == Heard(ms, t, c)
  {
    HeardExactly(ms, t, c);
  }

  // ---- a connection attached from some moment on ----

  /** From move `n` on, `c` is an open subscriber of `t` before every move. */
  ghost predicate Attached(ms: seq<Move>, n: nat, t: ThreadId, c: ConnId) {
    n <= |ms| && forall i | n <= i < |ms| :: ListensAt(ms, i, t, c)
  }

  predicate ListensAt(ms: seq<Move>, i: nat, t: ThreadId, c: ConnId) {
    i <= |ms| && Listens(Run(ms[..i]), t, c)
  }

  function BroadcastsNow(s: State, m: Move, t: ThreadId): seq<Frame> {
    if t in s.threads then Broadcasts(s, m, t) else []
  }

  /** Everything broadcast on `t` from move `n` on. */
  function BroadcastsFrom(ms: seq<Move>, n: nat, t: ThreadId): seq<Frame> {
    if |ms| <= n then []
    else BroadcastsFrom(ms[..|ms| - 1], n, t) + BroadcastsNow(Run(ms[..|ms| - 1]), ms[|ms| - 1], t)
  }

  lemma ListenersHear(s: State, m: Move, t: ThreadId, c: ConnId)
    requires Listens(s, t, c)
    ensures HeardNow(s, m, t, c) == BroadcastsNow(s, m, t)
  {
  }

  lemma HeardStep(ms: seq<Move>, t: ThreadId, c: ConnId)
    requires ms != [] && ListensAt(ms, |ms| - 1, t, c)
    ensures Heard(ms, t, c) == Heard(ms[..|ms| - 1], t, c) + BroadcastsNow(Run(ms[..|ms| - 1]), ms[|ms| - 1], t)
  {
    ListenersHear(Run(ms[..|ms| - 1]), ms[|ms| - 1], t, c);
  }

  lemma BroadcastsStep(ms: seq<Move>, n: nat, t: ThreadId)
    requires n < |ms|
    ensures BroadcastsFrom(ms, n, t)
      == BroadcastsFrom(ms[..|ms| - 1], n, t) + BroadcastsNow(Run(ms[..|ms| - 1]), ms[|ms| - 1], t)
  {
  }

  lemma {:induction false} AttachedHearsAll(ms: seq<Move>, n: nat, t: ThreadId, c: ConnId)
    requires Attached(ms, n, t, c)
    ensures Heard(ms, t, c) == Heard(ms[..n], t, c) + BroadcastsFrom(ms, n, t)
  {
    if n == |ms| {
      assert ms[..n] == ms;
    } else {
      var init := ms[..|ms| - 1];
      AttachedBefore(ms, |ms| - 1, n, t, c);
      AttachedHearsAll(init, n, t, c);
      assert init[..n] == ms[..n];
      assert ListensAt(ms, |ms| - 1, t, c);
      HeardStep(ms, t, c);
      BroadcastsStep(ms, n, t);
      JoinedAfter(Heard(ms[..n], t, c), BroadcastsFrom(init, n, t), BroadcastsNow(Run(init), ms[|ms| - 1], t));
    }
  }

  lemma JoinedAfter(a: seq<Frame>, b: seq<Frame>, c: seq<Frame>)
    ensures a + b + c == a + (b + c)
  {
  }

  lemma AttachedBefore(ms: seq<Move>, p: nat, n: nat, t: ThreadId, c: ConnId)
    requires Attached(ms, n, t, c) && n <= p <= |ms|
    ensures Attached(ms[..p], n, t, c)
  {
    forall i | n <= i < p ensures ListensAt(ms[..p], i, t, c) {
      assert ms[..p][..i] == ms[..i] && ListensAt(ms, i, t, c);
    }
  }

  lemma NewsSince(before: seq<Frame>, after: seq<Frame>, t: ThreadId, since: seq<Frame>)
    requires before <= after && News(after, t) == News(before, t) + since
    ensures News(after[|before|..], t) == since
  {
    assert after == before + after[|before|..];
    NewsAppend(before, after[|before|..], t);
    assert News(after, t)[|News(before, t)|..] == since;
  }

  /** What was sent to `c` from move `n` on. */
  function SentSince(ms: seq<Move>, n: nat, c: ConnId): seq<Frame>
    requires n <= |ms|
  {
    SentGrows(ms, n, c);
    SentTo(ms, c)[|SentTo(ms[..n], c)|..]
  }

  /** News sent since the attachment is everything broadcast since. */
  lemma AttachedNews(ms: seq<Move>, n: nat, t: ThreadId, c: ConnId)
    requires Attached(ms, n, t, c)
    ensures News(SentSince(ms, n, c), t) == BroadcastsFrom(ms, n, t)
  {
    SentGrows(ms, n, c);
    HeardIsSent(ms, t, c);
    HeardIsSent(ms[..n], t, c);
    AttachedHearsAll(ms, n, t, c);
    NewsSince(SentTo(ms[..n], c), SentTo(ms, c), t, BroadcastsFrom(ms, n, t));
  }

  // ---- turn notifications ----

  function TurnNews(frames: seq<Frame>): seq<Frame> {
    if frames == [] then []
    else
      var f := frames[|frames| - 1];
      TurnNews(frames[..|frames| - 1]) + if f.StartedFrame? || f.CompletedFrame? then [f] else []
  }

  function NoteFrames(t: ThreadId, notes: seq<Turns.Note>): seq<Frame> {
    seq(|notes|, i requires 0 <= i < |notes| => FrameOfNote(t, notes[i]))
  }

  lemma {:induction false} TurnNewsAppend(a: seq<Frame>, b: seq<Frame>)
    ensures TurnNews(a + b) == TurnNews(a) + TurnNews(b)
  {
    if b == [] {
      assert a + b == a;
    } else {
      TurnNewsAppend(a, b[..|b| - 1]);
      assert (a + b)[..|a + b| - 1] == a + b[..|b| - 1];
    }
  }

  lemma MoveNotes(s: State, m: Move, t: ThreadId)
    requires t in s.threads && Enabled(s, m)
    ensures t in Step(s, m).threads
    ensures var before, after := s.threads[t].turn.trace, Step(s, m).threads[t].turn.trace;
      before <= after && NoteFrames(t, after[|before|..]) == TurnNews(Broadcasts(s, m, t))
  {
    TurnsMove(s, m, t);
    if m.TurnInput? && m.thread == t && !m.input.Submit? {
      InputNotes(s, t, m.input);
    } else {
      OtherMovesNoteNothing(s, m, t);
    }
  }

  lemma OtherMovesNoteNothing(s: State, m: Move, t: ThreadId)
    requires t in s.threads && !(m.TurnInput? && m.thread == t && !m.input.Submit?)
    ensures TurnAfter(s, m, t).trace == s.threads[t].turn.trace && TurnNews(Broadcasts(s, m, t)) == []
  {
  }

  lemma InputNotes(s: State, t: ThreadId, input: Turns.Input)
    requires t in s.threads
    ensures var note := Turns.NoteFor(s.threads[t].turn, input);
      TurnNews(TurnFrames(s, t, input)) == match note { case Some(x) => [FrameOfNote(t, x)] case None => [] }
  {
    var forwarded := if input.Log? && Forwarded(input.event) then [EventFrame(t, input.event)] else [];
    var noted := match Turns.NoteFor(s.threads[t].turn, input) { case Some(x) => [FrameOfNote(t, x)] case None => [] };
    assert TurnFrames(s, t, input) == forwarded + noted;
    TurnNewsAppend(forwarded, noted);
    assert TurnNews(forwarded) == [];
    assert TurnNews(noted) == noted;
  }

  /** The trace of a thread's turns after a run; empty when it is not registered. */
  function TraceOf(ms: seq<Move>, t: ThreadId): seq<Turns.Note> {
    if t in Run(ms).threads then Run(ms).threads[t].turn.trace else []
  }

  lemma TraceStep(s: State, m: Move, t: ThreadId)
    requires Enabled(s, m)
    ensures t in s.threads ==> t in Step(s, m).threads
    ensures t !in s.threads && t in Step(s, m).threads ==> Step(s, m).threads[t].turn.trace == []
    ensures t in s.threads ==>
      var before, after := s.threads[t].turn.trace, Step(s, m).threads[t].turn.trace;
      before <= after && NoteFrames(t, after[|before|..]) == TurnNews(BroadcastsNow(s, m, t))
  {
    if t in s.threads {
      MoveNotes(s, m, t);
    } else if t in Step(s, m).threads {
      ThreadsStartIdle(s, m, t);
    }
  }

  lemma TraceGrowsByBroadcast(init: seq<Move>, m: Move, t: ThreadId)
    requires Legal(init + [m])
    ensures var before, after := TraceOf(init, t), TraceOf(init + [m], t);
      before <= after && NoteFrames(t, after[|before|..]) == TurnNews(BroadcastsNow(Run(init), m, t))
  {
    var ms := init + [m];
    assert ms[..|ms| - 1] == init && ms[|ms| - 1] == m;
    TraceStep(Run(init), m, t);
  }

  lemma NoteFramesJoin(t: ThreadId, a: seq<Turns.Note>, b: seq<Turns.Note>, c: seq<Turns.Note>)
    requires a <= b <= c
    ensures NoteFrames(t, c[|a|..]) == NoteFrames(t, b[|a|..]) + NoteFrames(t, c[|b|..])
  {
  }

  /** What is broadcast about turns is the thread's trace. */
  lemma {:induction false} BroadcastsFollowTrace(ms: seq<Move>, n: nat, t: ThreadId)
    requires Legal(ms) && n <= |ms|
    ensures var before, after := TraceOf(ms[..n], t), TraceOf(ms, t);
      before <= after && TurnNews(BroadcastsFrom(ms, n, t)) == NoteFrames(t, after[|before|..])
  {
    if n == |ms| {
      assert ms[..n] == ms;
    } else {
      var init, m := ms[..|ms| - 1], ms[|ms| - 1];
      assert init[..n] == ms[..n] && ms == init + [m];
      BroadcastsFollowTrace(init, n, t);
      TraceGrowsByBroadcast(init, m, t);
      TurnNewsAppend(BroadcastsFrom(init, n, t), BroadcastsNow(Run(init), m, t));
      NoteFramesJoin(t, TraceOf(ms[..n], t), TraceOf(init, t), TraceOf(ms, t));
    }
  }

  /** The turn notifications sent to `c` from move `n` on. */
  function TurnNewsSince(ms: seq<Move>, n: nat, t: ThreadId, c: ConnId): seq<Frame>
    requires n <= |ms|
  {
    TurnNews(News(SentSince(ms, n, c), t))
  }

  /**
   * An attached connection is sent exactly the turn notifications of the thread's trace since then, in order, once
   * each.
   */
  lemma AttachedHearsTrace(ms: seq<Move>, n: nat, t: ThreadId, c: ConnId)
    requires Legal(ms) && Attached(ms, n, t, c)
    ensures var before, after := TraceOf(ms[..n], t), TraceOf(ms, t);
      before <= after && TurnNewsSince(ms, n, t, c) == NoteFrames(t, after[|before|..])
  {
    AttachedNews(ms, n, t, c);
    BroadcastsFollowTrace(ms, n, t);
  }

  /** Starts and completions alternate, and a completion names the turn started just before it. */
  ghost predicate AlternatingFrames(frames: seq<Frame>) {
    forall i | 0 < i < |frames| ::
      && frames[i - 1].StartedFrame? == frames[i].CompletedFrame?
      && (frames[i - 1].StartedFrame? && frames[i].CompletedFrame? ==> frames[i].summary.turn == frames[i - 1].turn)
  }

  lemma NotesAlternate(t: ThreadId, trace: seq<Turns.Note>, open: Option<int>, skip: nat)
    requires Turns.Alternates(trace, open) && skip <= |trace|
    ensures AlternatingFrames(NoteFrames(t, trace[skip..]))
  {
    var notes := trace[skip..];
    forall i | 0 < i < |notes|
      ensures notes[i - 1].Started? == notes[i].Completed?
      ensures notes[i].Completed? ==> notes[i - 1].Started? && notes[i].summary.turn == notes[i - 1].turn
    {
      assert notes[i] == trace[skip + i] && notes[i - 1] == trace[skip + i - 1];
    }
  }

  /** What an attached connection is sent about turns alternates. */
  lemma AttachedHearsAlternation(ms: seq<Move>, n: nat, t: ThreadId, c: ConnId)
    requires Legal(ms) && Attached(ms, n, t, c)
    ensures AlternatingFrames(TurnNewsSince(ms, n, t, c))
  {
    AttachedHearsTrace(ms, n, t, c);
    var skip := |TraceOf(ms[..n], t)|;
    if t in Run(ms).threads {
      TurnNotesAlternate(ms, t);
      NotesAlternate(t, TraceOf(ms, t), Turns.CurrentTurn(Run(ms).threads[t].turn), skip);
    }
  }
}
