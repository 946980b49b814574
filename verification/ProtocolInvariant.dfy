/** The inductive invariant of the reverse-request protocol and its preservation by every move. */
module ProtocolInvariant {
  import opened Wrappers
  import opened JsonValue
  import opened Protocol
  import Decimal
  import Turns

  predicate IsAbout(f: Frame, r: ReqId) {
    (f.RequestFrame? || f.ResolvedFrame?) && f.id == r
  }

  /** The frames about request `r`, in the order they were sent. */
  function About(sent: seq<Frame>, r: ReqId): seq<Frame> {
    if sent == [] then []
    else About(sent[..|sent| - 1], r) + if IsAbout(sent[|sent| - 1], r) then [sent[|sent| - 1]] else []
  }

  lemma AboutAppend(sent: seq<Frame>, f: Frame, r: ReqId)
    ensures About(sent + [f], r) == About(sent, r) + if IsAbout(f, r) then [f] else []
  {
    assert (sent + [f])[..|sent|] == sent;
  }

  lemma {:induction false} AboutNone(sent: seq<Frame>, r: ReqId)
    requires forall i | 0 <= i < |sent| :: !IsAbout(sent[i], r)
    ensures About(sent, r) == []
  {
    if sent != [] {
      AboutNone(sent[..|sent| - 1], r);
    }
  }

  /** Everything a connection has been sent about a request: the request if delivered, then the notice if told. */
  function Expected(s: State, c: ConnId, r: ReqId): seq<Frame>
    requires r in s.requests
  {
    (if c in s.requests[r].delivered then [RequestFrameOf(s, r)] else [])
    + (if r in s.history && c in s.history[r].told
       then [ResolvedFrame(r, s.requests[r].thread, s.history[r].resolvedBy)] else [])
  }

  /** A real answer of `c` to `r` is waiting in the job queue. */
  ghost predicate Queued(s: State, c: ConnId, r: ReqId) {
    exists i | 0 <= i < |s.jobs| :: s.jobs[i].conn == c && s.jobs[i].id == r && !s.jobs[i].reply.Abandoned?
  }

  ghost predicate ThreadOk(s: State, t: ThreadId)
    requires t in s.threads
  {
    var thread := s.threads[t];
    && Distinct(thread.subscribers)
    && (forall c | c in thread.subscribers :: c in s.conns)
    && Distinct(thread.pending)
    && (forall r | r in thread.pending :: r in s.requests && s.requests[r].thread == t && !s.requests[r].settled)
  }

  ghost predicate RequestOk(s: State, r: ReqId)
    requires r in s.requests
  {
    var pending := s.requests[r];
    && pending.thread in s.threads
    && (!pending.settled ==> r in s.threads[pending.thread].pending)
    && pending.settled == (r in s.outcomes)
    && pending.settled == (r in s.history)
    && pending.listening == (!pending.settled && pending.signal.LiveSignal?)
    && (forall c | c in pending.delivered :: c in s.conns)
    && (exists n: nat :: n <= s.seqNo && r == RequestName(n))
    && (r in s.history ==>
          && s.history[r].told <= s.history[r].subscribed <= s.conns.Keys
          && (s.history[r].winner.Some? ==> s.history[r].winner.value !in s.history[r].told))
  }

  ghost predicate ConnOk(s: State, c: ConnId)
    requires c in s.conns
  {
    var conn := s.conns[c];
    && (conn.closed ==> conn.outbound == [])
    && Distinct(conn.outbound)
    && (forall i | 0 <= i < |conn.sent| && (conn.sent[i].RequestFrame? || conn.sent[i].ResolvedFrame?) ::
      conn.sent[i].id in s.requests)
  }

  ghost predicate PairOk(s: State, c: ConnId, r: ReqId)
    requires c in s.conns && r in s.requests
  {
    && (r in s.conns[c].outbound ==> c in s.requests[r].delivered)
    && (r in s.conns[c].outbound && s.requests[r].settled ==> r in s.history && c !in s.history[r].subscribed)
    && (!s.requests[r].settled && c in s.requests[r].delivered && !s.conns[c].closed ==>
      r in s.conns[c].outbound || Queued(s, c, r))
    && About(s.conns[c].sent, r) == Expected(s, c, r)
  }

  ghost predicate JobOk(s: State, job: Job) {
    && job.conn in s.conns && job.id in s.requests
    && job.conn in s.requests[job.id].delivered
    && job.id !in s.conns[job.conn].outbound
  }

  /** Each promise settles once: a request is outstanding or has one job on a connection, never both. */
  ghost predicate JobsOk(s: State) {
    && (forall i | 0 <= i < |s.jobs| :: JobOk(s, s.jobs[i]))
    && OnePerRequest(s.jobs)
  }

  ghost predicate OnePerRequest(jobs: seq<Job>) {
    forall i, j | 0 <= i < j < |jobs| :: jobs[i].conn != jobs[j].conn || jobs[i].id != jobs[j].id
  }

  ghost predicate ThreadsOk(s: State) { forall t | t in s.threads :: ThreadOk(s, t) }

  ghost predicate RequestsOk(s: State) {
    && (forall r | r in s.requests :: RequestOk(s, r))
    && s.outcomes.Keys <= s.requests.Keys && s.history.Keys <= s.requests.Keys
  }

  ghost predicate ConnsOk(s: State) {
    && (forall c | c in s.conns :: ConnOk(s, c))
    && (forall c, r | c in s.conns && r in s.conns[c].outbound :: r in s.requests)
  }

  ghost predicate PairsOk(s: State) { forall c, r | c in s.conns && r in s.requests :: PairOk(s, c, r) }

  ghost predicate Inv(s: State) {
    ThreadsOk(s) && RequestsOk(s) && ConnsOk(s) && PairsOk(s) && JobsOk(s)
  }

  // ---- subscriptions, connections, broadcasts ----

  ghost predicate SameNotices(before: seq<Frame>, after: seq<Frame>) {
    && before <= after && |after| <= |before| + 1
    && (|after| > |before| ==> !after[|before|].RequestFrame? && !after[|before|].ResolvedFrame?)
  }

  /** Connections changed only by bookkeeping and by frames that are not about requests. */
  ghost predicate Cosmetic(s: State, s': State) {
    && s'.conns.Keys == s.conns.Keys && s'.threads.Keys >= s.threads.Keys
    && s'.requests == s.requests && s'.seqNo == s.seqNo && s'.jobs == s.jobs
    && s'.outcomes == s.outcomes && s'.history == s.history
    && (forall c | c in s.conns ::
          && s'.conns[c].closed == s.conns[c].closed && s'.conns[c].outbound == s.conns[c].outbound
          && SameNotices(s.conns[c].sent, s'.conns[c].sent))
    && (forall t | t in s.threads :: s'.threads[t].pending == s.threads[t].pending)
  }

  lemma CosmeticKeeps(s: State, s': State)
    requires Inv(s) && Cosmetic(s, s') && ThreadsOk(s')
    ensures Inv(s')
  {
    CosmeticTables(s, s');
    CosmeticPairs(s, s');
  }

  lemma CosmeticTables(s: State, s': State)
    requires RequestsOk(s) && ConnsOk(s) && JobsOk(s) && Cosmetic(s, s')
    ensures RequestsOk(s') && ConnsOk(s') && JobsOk(s')
  {
    forall r | r in s'.requests ensures RequestOk(s', r) {
      assert RequestOk(s, r);
    }
    forall c | c in s'.conns ensures ConnOk(s', c) {
      assert ConnOk(s, c);
      assert forall i | 0 <= i < |s.conns[c].sent| :: s'.conns[c].sent[i] == s.conns[c].sent[i];
    }
    assert forall i | 0 <= i < |s.jobs| :: JobOk(s, s.jobs[i]) ==> JobOk(s', s.jobs[i]);
  }

  lemma CosmeticPairs(s: State, s': State)
    requires PairsOk(s) && Cosmetic(s, s')
    ensures PairsOk(s')
  {
    forall c, r | c in s'.conns && r in s'.requests ensures PairOk(s', c, r) {
      CosmeticPair(s, s', c, r);
    }
  }

  lemma CosmeticPair(s: State, s': State, c: ConnId, r: ReqId)
    requires c in s.conns && r in s.requests && PairOk(s, c, r) && Cosmetic(s, s')
    ensures PairOk(s', c, r)
  {
    var before, after := s.conns[c].sent, s'.conns[c].sent;
    if |after| > |before| {
      assert after == before + [after[|before|]];
      AboutAppend(before, after[|before|], r);
    } else {
      assert after == before;
    }
    assert Queued(s, c, r) ==> Queued(s', c, r);
  }

  /** Only subscriber lists and turns changed, and the lists name known connections once each. */
  lemma SubscribersChanged(s: State, s': State)
    requires ThreadsOk(s) && s'.conns.Keys == s.conns.Keys && s'.requests == s.requests
    requires s'.threads.Keys == s.threads.Keys
    requires forall t | t in s.threads ::
      && s'.threads[t].pending == s.threads[t].pending
      && Distinct(s'.threads[t].subscribers)
      && forall c | c in s'.threads[t].subscribers :: c in s.conns
    ensures ThreadsOk(s')
  {
    forall t | t in s'.threads ensures ThreadOk(s', t) {
      assert ThreadOk(s, t);
    }
  }

  lemma SubscribedCosmetic(s: State, c: ConnId, t: ThreadId)
    requires ThreadsOk(s) && c in s.conns && t in s.threads
    ensures Cosmetic(s, Subscribed(s, c, t)) && ThreadsOk(Subscribed(s, c, t))
  {
    assert forall u | u in s.threads :: ThreadOk(s, u);
    SubscribersChanged(s, Subscribed(s, c, t));
  }

  lemma SubscribedKeeps(s: State, c: ConnId, t: ThreadId)
    requires Inv(s) && c in s.conns && t in s.threads
    ensures Inv(Subscribed(s, c, t))
  {
    SubscribedCosmetic(s, c, t);
    CosmeticKeeps(s, Subscribed(s, c, t));
  }

  lemma UnsubscribeCosmetic(s: State, c: ConnId, t: ThreadId)
    requires ThreadsOk(s) && c in s.conns
    ensures Cosmetic(s, UnsubscribeStep(s, c, t)) && ThreadsOk(UnsubscribeStep(s, c, t))
  {
    assert forall u | u in s.threads :: ThreadOk(s, u);
    SubscribersChanged(s, UnsubscribeStep(s, c, t));
  }

  lemma UnsubscribeKeeps(s: State, c: ConnId, t: ThreadId)
    requires Inv(s) && c in s.conns
    ensures Inv(UnsubscribeStep(s, c, t))
  {
    UnsubscribeCosmetic(s, c, t);
    CosmeticKeeps(s, UnsubscribeStep(s, c, t));
  }

  lemma {:induction false} OpenOnlyIs(s: State, cs: seq<ConnId>)
    ensures forall c :: c in OpenOnly(s, cs) <==> c in cs && IsOpen(s, c)
    ensures Distinct(cs) ==> Distinct(OpenOnly(s, cs))
  {
    if cs != [] {
      var init, last := cs[..|cs| - 1], cs[|cs| - 1];
      OpenOnlyIs(s, init);
      assert Distinct(cs) ==> Distinct(init) && last !in init;
    }
  }

  lemma BroadcastThreads(s: State, t: ThreadId, frame: Frame)
    requires ThreadsOk(s) && t in s.threads
    ensures ThreadsOk(Broadcast(s, t, frame))
  {
    OpenOnlyIs(s, s.threads[t].subscribers);
    assert forall u | u in s.threads :: ThreadOk(s, u);
    SubscribersChanged(s, Broadcast(s, t, frame));
  }

  lemma BroadcastCosmetic(s: State, t: ThreadId, frame: Frame)
    requires t in s.threads && !frame.RequestFrame? && !frame.ResolvedFrame?
    ensures Cosmetic(s, Broadcast(s, t, frame))
  {
    forall c | c in s.conns ensures SameNotices(s.conns[c].sent, Broadcast(s, t, frame).conns[c].sent) {
      assert s.conns[c].sent <= s.conns[c].sent + [frame];
    }
  }

  lemma BroadcastKeeps(s: State, t: ThreadId, frame: Frame)
    requires Inv(s) && t in s.threads && !frame.RequestFrame? && !frame.ResolvedFrame?
    ensures Inv(Broadcast(s, t, frame))
  {
    BroadcastThreads(s, t, frame);
    BroadcastCosmetic(s, t, frame);
    CosmeticKeeps(s, Broadcast(s, t, frame));
  }

  lemma TurnOnlyCosmetic(s: State, t: ThreadId, turn: Turns.TurnState)
    requires ThreadsOk(s) && t in s.threads
    ensures Cosmetic(s, s.(threads := s.threads[t := s.threads[t].(turn := turn)]))
      && ThreadsOk(s.(threads := s.threads[t := s.threads[t].(turn := turn)]))
  {
    assert forall u | u in s.threads :: ThreadOk(s, u);
    SubscribersChanged(s, s.(threads := s.threads[t := s.threads[t].(turn := turn)]));
  }

  lemma TurnOnlyKeeps(s: State, t: ThreadId, turn: Turns.TurnState)
    requires Inv(s) && t in s.threads
    ensures Inv(s.(threads := s.threads[t := s.threads[t].(turn := turn)]))
  {
    TurnOnlyCosmetic(s, t, turn);
    CosmeticKeeps(s, s.(threads := s.threads[t := s.threads[t].(turn := turn)]));
  }

  lemma TurnStepKeeps(s: State, t: ThreadId, input: Turns.Input)
    requires Inv(s) && t in s.threads
    ensures Inv(TurnStep(s, t, input))
  {
    var s1 := if input.Log? && Forwarded(input.event) then Broadcast(s, t, EventFrame(t, input.event)) else s;
    if input.Log? && Forwarded(input.event) {
      BroadcastKeeps(s, t, EventFrame(t, input.event));
    }
    TurnOnlyKeeps(s1, t, Turns.Advance(s.threads[t].turn, input));
    var s2 := s1.(threads := s1.threads[t := s1.threads[t].(turn := Turns.Advance(s.threads[t].turn, input))]);
    var note := Turns.NoteFor(s.threads[t].turn, input);
    if note.Some? {
      BroadcastKeeps(s2, t, FrameOfNote(t, note.value));
    }
  }

  /** Threads keep their lists, settled requests stay as they were, connections and deliveries may be added. */
  ghost predicate Grows(s: State, s': State) {
    && s'.conns.Keys >= s.conns.Keys
    && s'.threads == s.threads && s'.outcomes == s.outcomes && s'.history == s.history && s'.seqNo == s.seqNo
    && s'.requests.Keys == s.requests.Keys
    && (forall r | r in s.requests ::
          && s'.requests[r] == s.requests[r].(delivered := s'.requests[r].delivered)
          && s.requests[r].delivered <= s'.requests[r].delivered
          && s'.requests[r].delivered - s.requests[r].delivered <= s'.conns.Keys)
  }

  lemma GrowsKeepsTables(s: State, s': State)
    requires ThreadsOk(s) && RequestsOk(s) && Grows(s, s')
    ensures ThreadsOk(s') && RequestsOk(s')
  {
    forall u | u in s'.threads ensures ThreadOk(s', u) {
      assert ThreadOk(s, u);
    }
    forall r | r in s'.requests ensures RequestOk(s', r) {
      assert RequestOk(s, r);
    }
  }

  lemma ConnectKeeps(s: State, c: ConnId)
    requires Inv(s) && c !in s.conns
    ensures Inv(s.(conns := s.conns[c := Conn(false, {}, [], [])]))
  {
    var s' := s.(conns := s.conns[c := Conn(false, {}, [], [])]);
    GrowsKeepsTables(s, s');
    ConnectConnsJobs(s, c);
    ConnectPairs(s, c);
  }

  lemma ConnectConnsJobs(s: State, c: ConnId)
    requires ConnsOk(s) && JobsOk(s) && c !in s.conns
    ensures ConnsOk(s.(conns := s.conns[c := Conn(false, {}, [], [])]))
    ensures JobsOk(s.(conns := s.conns[c := Conn(false, {}, [], [])]))
  {
    var s' := s.(conns := s.conns[c := Conn(false, {}, [], [])]);
    forall d | d in s'.conns ensures ConnOk(s', d) {
      assert d != c ==> ConnOk(s, d);
    }
    assert forall i | 0 <= i < |s.jobs| :: JobOk(s, s.jobs[i]) ==> JobOk(s', s.jobs[i]);
  }

  lemma ConnectPairs(s: State, c: ConnId)
    requires RequestsOk(s) && PairsOk(s) && c !in s.conns
    ensures PairsOk(s.(conns := s.conns[c := Conn(false, {}, [], [])]))
  {
    var s' := s.(conns := s.conns[c := Conn(false, {}, [], [])]);
    forall d, r | d in s'.conns && r in s'.requests ensures PairOk(s', d, r) {
      if d == c {
        assert RequestOk(s, r);
        NewcomerPair(s, c, r);
      } else {
        assert PairOk(s, d, r);
        assert Queued(s, d, r) ==> Queued(s', d, r);
      }
    }
  }

  lemma NewcomerPair(s: State, c: ConnId, r: ReqId)
    requires r in s.requests && RequestOk(s, r) && c !in s.conns
    ensures PairOk(s.(conns := s.conns[c := Conn(false, {}, [], [])]), c, r)
  {
    assert c !in s.requests[r].delivered;
  }

  lemma NewThreadKeeps(s: State, t: ThreadId)
    requires Inv(s) && t !in s.threads
    ensures Inv(s.(threads := s.threads[t := NewThread()]))
  {
    var s' := s.(threads := s.threads[t := NewThread()]);
    assert ThreadsOk(s') by {
      forall u | u in s'.threads ensures ThreadOk(s', u) { assert u != t ==> ThreadOk(s, u); }
    }
    CosmeticKeeps(s, s');
  }

  // ---- requests ----

  /** A request id is new while its number has not been used. */
  lemma FreshName(s: State)
    requires RequestsOk(s)
    ensures RequestName(s.seqNo + 1) !in s.requests
  {
    var r := RequestName(s.seqNo + 1);
    if r in s.requests {
      assert RequestOk(s, r);
      var n: nat :| n <= s.seqNo && r == RequestName(n);
      Decimal.PrefixedPrintInjective("req-", n, s.seqNo + 1);
    }
  }

  /** A pending request nobody has been sent yet. */
  lemma WithRequestKeeps(s: State, t: ThreadId, kind: Kind, params: Value, signal: Signal)
    requires Inv(s) && t in s.threads
    ensures Inv(WithRequest(s, t, kind, params, signal))
  {
    FreshName(s);
    WithRequestTables(s, t, kind, params, signal);
    WithRequestPairs(s, t, kind, params, signal);
    WithRequestConnsJobs(s, t, kind, params, signal);
  }

  lemma WithRequestConnsJobs(s: State, t: ThreadId, kind: Kind, params: Value, signal: Signal)
    requires ConnsOk(s) && JobsOk(s) && t in s.threads && RequestName(s.seqNo + 1) !in s.requests
    ensures ConnsOk(WithRequest(s, t, kind, params, signal)) && JobsOk(WithRequest(s, t, kind, params, signal))
  {
    var s' := WithRequest(s, t, kind, params, signal);
    forall c | c in s'.conns ensures ConnOk(s', c) {
      assert ConnOk(s, c);
    }
    assert forall i | 0 <= i < |s.jobs| :: JobOk(s, s.jobs[i]) ==> JobOk(s', s.jobs[i]);
  }

  lemma WithRequestTables(s: State, t: ThreadId, kind: Kind, params: Value, signal: Signal)
    requires ThreadsOk(s) && RequestsOk(s) && t in s.threads
    ensures ThreadsOk(WithRequest(s, t, kind, params, signal)) && RequestsOk(WithRequest(s, t, kind, params, signal))
  {
    FreshName(s);
    WithRequestThreads(s, t, kind, params, signal);
    var r, s' := RequestName(s.seqNo + 1), WithRequest(s, t, kind, params, signal);
    forall q | q in s'.requests ensures RequestOk(s', q) {
      if q == r {
        assert r == RequestName(s'.seqNo);
      } else {
        assert RequestOk(s, q);
        OtherRequestStays(s, t, kind, params, signal, q);
      }
    }
  }

  lemma WithRequestThreads(s: State, t: ThreadId, kind: Kind, params: Value, signal: Signal)
    requires ThreadsOk(s) && t in s.threads && RequestName(s.seqNo + 1) !in s.requests
    ensures ThreadsOk(WithRequest(s, t, kind, params, signal))
  {
    var s' := WithRequest(s, t, kind, params, signal);
    forall u | u in s'.threads ensures ThreadOk(s', u) {
      assert ThreadOk(s, u);
    }
  }

  lemma OtherRequestStays(s: State, t: ThreadId, kind: Kind, params: Value, signal: Signal, q: ReqId)
    requires t in s.threads && q in s.requests && q != RequestName(s.seqNo + 1) && RequestOk(s, q)
    ensures RequestOk(WithRequest(s, t, kind, params, signal), q)
  {
  }

  lemma WithRequestPairs(s: State, t: ThreadId, kind: Kind, params: Value, signal: Signal)
    requires RequestsOk(s) && ConnsOk(s) && PairsOk(s) && t in s.threads
    ensures PairsOk(WithRequest(s, t, kind, params, signal))
  {
    FreshName(s);
    var r, s' := RequestName(s.seqNo + 1), WithRequest(s, t, kind, params, signal);
    forall c, q | c in s'.conns && q in s'.requests ensures PairOk(s', c, q) {
      if q == r {
        assert ConnOk(s, c);
        AboutNone(s.conns[c].sent, r);
      } else {
        assert PairOk(s, c, q);
        assert Queued(s, c, q) ==> Queued(s', c, q);
      }
    }
  }

  /** No outstanding entry is ever overwritten: a connection about to be sent `r` does not hold it. */
  lemma DeliverNeverOverwrites(s: State, r: ReqId, c: ConnId)
    requires Inv(s) && Deliverable(s, r, c)
    ensures r !in s.conns[c].outbound
    ensures Deliver(s, r, c).conns[c].outbound == s.conns[c].outbound + [r]
  {
    assert PairOk(s, c, r);
  }

  lemma DeliverKeeps(s: State, r: ReqId, c: ConnId)
    requires Inv(s)
    ensures Inv(Deliver(s, r, c))
  {
    if Deliverable(s, r, c) {
      DeliverGrows(s, r, c);
      GrowsKeepsTables(s, Deliver(s, r, c));
      DeliverConnsJobs(s, r, c);
      DeliverPairs(s, r, c);
    }
  }

  lemma DeliverGrows(s: State, r: ReqId, c: ConnId)
    requires Deliverable(s, r, c)
    ensures Grows(s, Deliver(s, r, c))
  {
  }

  lemma DeliverPairs(s: State, r: ReqId, c: ConnId)
    requires RequestsOk(s) && PairsOk(s) && Deliverable(s, r, c)
    ensures PairsOk(Deliver(s, r, c))
  {
    forall d, q | d in s.conns && q in s.requests ensures PairOk(Deliver(s, r, c), d, q) {
      DeliverPair(s, r, c, d, q);
    }
  }

  lemma DeliverConnsJobs(s: State, r: ReqId, c: ConnId)
    requires ConnsOk(s) && JobsOk(s) && Deliverable(s, r, c)
    ensures ConnsOk(Deliver(s, r, c)) && JobsOk(Deliver(s, r, c))
  {
    var s' := Deliver(s, r, c);
    forall d | d in s'.conns ensures ConnOk(s', d) {
      assert ConnOk(s, d);
    }
    assert forall i | 0 <= i < |s.jobs| :: JobOk(s, s.jobs[i]) ==> JobOk(s', s.jobs[i]);
  }

  lemma DeliverPair(s: State, r: ReqId, c: ConnId, d: ConnId, q: ReqId)
    requires Deliverable(s, r, c) && d in s.conns && q in s.requests
    requires PairOk(s, d, q) && RequestOk(s, q)
    ensures PairOk(Deliver(s, r, c), d, q)
  {
    var s' := Deliver(s, r, c);
    var frame := RequestFrameOf(s, r);
    assert RequestFrameOf(s', q) == RequestFrameOf(s, q);
    if d == c {
      AboutAppend(s.conns[c].sent, frame, q);
      assert s'.conns[c].sent == s.conns[c].sent + [frame];
      assert q == r ==> r !in s.history;
    }
    assert Queued(s, d, q) ==> Queued(s', d, q);
  }

  lemma {:induction false} FanOutKeeps(s: State, r: ReqId, cs: seq<ConnId>)
    requires Inv(s)
    ensures Inv(FanOut(s, r, cs))
  {
    if cs != [] {
      FanOutKeeps(s, r, cs[..|cs| - 1]);
      DeliverKeeps(FanOut(s, r, cs[..|cs| - 1]), r, cs[|cs| - 1]);
    }
  }

  lemma {:induction false} RedeliverAllKeeps(s: State, c: ConnId, rs: seq<ReqId>)
    requires Inv(s)
    ensures Inv(RedeliverAll(s, c, rs))
  {
    if rs != [] {
      RedeliverAllKeeps(s, c, rs[..|rs| - 1]);
      DeliverKeeps(RedeliverAll(s, c, rs[..|rs| - 1]), rs[|rs| - 1], c);
    }
  }

  // ---- closing and answering ----

  lemma CloseKeeps(s: State, c: ConnId)
    requires Inv(s) && c in s.conns
    ensures Inv(CloseStep(s, c))
  {
    CloseTables(s, c);
    ClosePairs(s, c);
    CloseJobs(s, c);
  }

  lemma CloseTables(s: State, c: ConnId)
    requires ThreadsOk(s) && RequestsOk(s) && ConnsOk(s) && c in s.conns
    ensures ThreadsOk(CloseStep(s, c)) && RequestsOk(CloseStep(s, c)) && ConnsOk(CloseStep(s, c))
  {
    var s' := CloseStep(s, c);
    assert forall u | u in s.threads :: ThreadOk(s, u);
    SubscribersChanged(s, s');
    forall r | r in s'.requests ensures RequestOk(s', r) {
      assert RequestOk(s, r);
    }
    forall d | d in s'.conns ensures ConnOk(s', d) {
      assert ConnOk(s, d);
    }
  }

  lemma ClosePairs(s: State, c: ConnId)
    requires PairsOk(s) && c in s.conns
    ensures PairsOk(CloseStep(s, c))
  {
    var s' := CloseStep(s, c);
    forall d, r | d in s'.conns && r in s'.requests ensures PairOk(s', d, r) {
      assert PairOk(s, d, r);
      QueuedGrows(s, s', d, r);
    }
  }

  lemma QueuedGrows(s: State, s': State, c: ConnId, r: ReqId)
    requires s.jobs <= s'.jobs
    ensures Queued(s, c, r) ==> Queued(s', c, r)
  {
    if i :| 0 <= i < |s.jobs| && s.jobs[i].conn == c && s.jobs[i].id == r && !s.jobs[i].reply.Abandoned? {
      assert s'.jobs[i] == s.jobs[i];
    }
  }

  /** An outstanding request of `c` has no job yet. */
  lemma NoJobWhileOutstanding(s: State, c: ConnId, r: ReqId)
    requires JobsOk(s) && c in s.conns && r in s.conns[c].outbound
    ensures forall i | 0 <= i < |s.jobs| :: s.jobs[i].conn != c || s.jobs[i].id != r
  {
    forall i | 0 <= i < |s.jobs| ensures s.jobs[i].conn != c || s.jobs[i].id != r {
      assert JobOk(s, s.jobs[i]);
    }
  }

  lemma CloseJobs(s: State, c: ConnId)
    requires ConnsOk(s) && PairsOk(s) && JobsOk(s) && c in s.conns
    ensures JobsOk(CloseStep(s, c))
  {
    var s', out := CloseStep(s, c), s.conns[c].outbound;
    forall i | 0 <= i < |s'.jobs| ensures JobOk(s', s'.jobs[i]) {
      if i < |s.jobs| {
        assert JobOk(s, s.jobs[i]);
      } else {
        assert s'.jobs[i] == Job(c, out[i - |s.jobs|], Abandoned);
        assert PairOk(s, c, out[i - |s.jobs|]);
      }
    }
    CloseJobsOnce(s, c);
  }

  lemma CloseJobsOnce(s: State, c: ConnId)
    requires ConnsOk(s) && JobsOk(s) && c in s.conns
    ensures OnePerRequest(CloseStep(s, c).jobs)
  {
    var jobs, out := CloseStep(s, c).jobs, s.conns[c].outbound;
    assert ConnOk(s, c);
    forall i, j | 0 <= i < j < |jobs| ensures jobs[i].conn != jobs[j].conn || jobs[i].id != jobs[j].id {
      if j >= |s.jobs| {
        NoJobWhileOutstanding(s, c, out[j - |s.jobs|]);
      }
    }
  }

  lemma AnswerKeeps(s: State, c: ConnId, key: ReqId, reply: Reply)
    requires Inv(s) && c in s.conns && !reply.Abandoned?
    ensures Inv(AnswerStep(s, c, key, reply))
  {
    if key in s.conns[c].outbound {
      GrowsKeepsTables(s, AnswerStep(s, c, key, reply));
      AnswerPairs(s, c, key, reply);
      AnswerConnsJobs(s, c, key, reply);
    }
  }

  lemma AnswerPairs(s: State, c: ConnId, key: ReqId, reply: Reply)
    requires PairsOk(s) && c in s.conns && !reply.Abandoned? && key in s.conns[c].outbound
    ensures PairsOk(AnswerStep(s, c, key, reply))
  {
    var s' := AnswerStep(s, c, key, reply);
    forall d, r | d in s'.conns && r in s'.requests ensures PairOk(s', d, r) {
      assert PairOk(s, d, r);
      QueuedGrows(s, s', d, r);
      assert s'.jobs[|s.jobs|] == Job(c, key, reply);
    }
  }

  lemma AnswerConnsJobs(s: State, c: ConnId, key: ReqId, reply: Reply)
    requires ConnsOk(s) && PairsOk(s) && JobsOk(s) && c in s.conns && key in s.conns[c].outbound
    ensures ConnsOk(AnswerStep(s, c, key, reply)) && JobsOk(AnswerStep(s, c, key, reply))
  {
    var s' := AnswerStep(s, c, key, reply);
    forall d | d in s'.conns ensures ConnOk(s', d) {
      assert ConnOk(s, d);
    }
    NoJobWhileOutstanding(s, c, key);
    assert PairOk(s, c, key);
    forall i | 0 <= i < |s'.jobs| ensures JobOk(s', s'.jobs[i]) {
      assert i < |s.jobs| ==> JobOk(s, s.jobs[i]);
    }
  }

  /** Dropping a job that decides nothing. */
  lemma PopKeeps(s: State)
    requires Inv(s) && s.jobs != []
    requires s.jobs[0].reply.Abandoned? || s.requests[s.jobs[0].id].settled
    ensures Inv(s.(jobs := s.jobs[1..]))
  {
    var s' := s.(jobs := s.jobs[1..]);
    GrowsKeepsTables(s, s');
    PopPairs(s);
    PopConns(s);
    PopJobs(s);
  }

  lemma PopConns(s: State)
    requires ConnsOk(s) && s.jobs != []
    ensures ConnsOk(s.(jobs := s.jobs[1..]))
  {
    var s' := s.(jobs := s.jobs[1..]);
    forall c | c in s'.conns ensures ConnOk(s', c) {
      assert ConnOk(s, c);
    }
  }

  lemma PopJobs(s: State)
    requires JobsOk(s) && s.jobs != []
    ensures JobsOk(s.(jobs := s.jobs[1..]))
  {
    var s' := s.(jobs := s.jobs[1..]);
    forall i | 0 <= i < |s'.jobs| ensures JobOk(s', s'.jobs[i]) {
      assert JobOk(s, s.jobs[i + 1]);
    }
  }

  lemma PopPairs(s: State)
    requires PairsOk(s) && s.jobs != [] && s.jobs[0].id in s.requests
    requires s.jobs[0].reply.Abandoned? || s.requests[s.jobs[0].id].settled
    ensures PairsOk(s.(jobs := s.jobs[1..]))
  {
    var s' := s.(jobs := s.jobs[1..]);
    forall c, r | c in s'.conns && r in s'.requests ensures PairOk(s', c, r) {
      assert PairOk(s, c, r);
      if !s.requests[r].settled && Queued(s, c, r) {
        var i :| 0 <= i < |s.jobs| && s.jobs[i].conn == c && s.jobs[i].id == r && !s.jobs[i].reply.Abandoned?;
        assert s'.jobs[i - 1] == s.jobs[i];
      }
    }
  }

  // ---- settling ----

  ghost predicate CanResolve(s: State, r: ReqId, winner: Option<ConnId>) {
    && r in s.requests && !s.requests[r].settled && s.requests[r].thread in s.threads
    && (winner.Some? ==> winner.value in s.conns && r !in s.conns[winner.value].outbound)
  }

  lemma {:induction false} WithdrawalsAre(conns: map<ConnId, Conn>, r: ReqId, winner: Option<ConnId>, cs: seq<ConnId>)
    ensures forall job | job in Withdrawals(conns, r, winner, cs) ::
      && job.conn in cs && job.conn in conns && r in conns[job.conn].outbound && !conns[job.conn].closed
      && winner != Some(job.conn) && job == Job(job.conn, r, Abandoned)
    ensures Distinct(cs) ==>
      forall i, j | 0 <= i < j < |Withdrawals(conns, r, winner, cs)| ::
        Withdrawals(conns, r, winner, cs)[i].conn != Withdrawals(conns, r, winner, cs)[j].conn
  {
    if cs != [] {
      var init, c := cs[..|cs| - 1], cs[|cs| - 1];
      WithdrawalsAre(conns, r, winner, init);
      assert Distinct(cs) ==> Distinct(init) && c !in init;
      var rest := Withdrawals(conns, r, winner, init);
      assert forall i | 0 <= i < |rest| :: rest[i] in rest;
    }
  }

  /** `s'` is `s` with `r` settled: who is told, what is withdrawn, and that `r` leaves its thread's list. */
  ghost predicate ResolvedFrom(s: State, s': State, r: ReqId, resolvedBy: ResolvedBy, winner: Option<ConnId>,
    outcome: Outcome)
    requires r in s.requests && s.requests[r].thread in s.threads
  {
    && ConnsResolved(s, s', r, resolvedBy, winner)
    && TablesResolved(s, s', r)
    && s'.jobs == s.jobs + Withdrawals(s.conns, r, winner, SubscribersOf(s, r))
    && s'.outcomes == s.outcomes[r := outcome]
    && s'.history == s.history[r := SettlementOf(s, r, resolvedBy, winner)]
  }

  ghost predicate ConnsResolved(s: State, s': State, r: ReqId, resolvedBy: ResolvedBy, winner: Option<ConnId>)
    requires r in s.requests
  {
    var told, frame := Told(s, r, winner), ResolvedFrame(r, s.requests[r].thread, resolvedBy);
    && s'.conns.Keys == s.conns.Keys
    && (forall c | c in s.conns ::
          s'.conns[c] ==
          if c in told
          then s.conns[c].(outbound := Without(s.conns[c].outbound, r), sent := s.conns[c].sent + [frame])
          else s.conns[c])
  }

  ghost predicate TablesResolved(s: State, s': State, r: ReqId)
    requires r in s.requests && s.requests[r].thread in s.threads
  {
    var t := s.requests[r].thread;
    && s'.requests == s.requests[r := s.requests[r].(settled := true, listening := false)]
    && s'.threads == s.threads[t := s.threads[t].(pending := Without(s.threads[t].pending, r))]
    && s'.seqNo == s.seqNo && s'.timers == s.timers
  }

  lemma ResolveFields(s: State, r: ReqId, resolvedBy: ResolvedBy, winner: Option<ConnId>, outcome: Outcome)
    requires CanResolve(s, r, winner)
    ensures ResolvedFrom(s, Resolve(s, r, resolvedBy, winner, outcome), r, resolvedBy, winner, outcome)
  {
    var a := Announce(s, r, resolvedBy, winner);
    AnnounceTells(s, r, resolvedBy, winner);
    AnnounceSettles(s, r, resolvedBy, winner);
    assert Settle(a, r, resolvedBy, winner, outcome).conns == a.conns;
  }

  lemma AnnounceTells(s: State, r: ReqId, resolvedBy: ResolvedBy, winner: Option<ConnId>)
    requires CanResolve(s, r, winner)
    ensures ConnsResolved(s, Announce(s, r, resolvedBy, winner), r, resolvedBy, winner)
  {
  }

  /** Announcing changes nothing the settlement records. */
  lemma AnnounceSettles(s: State, r: ReqId, resolvedBy: ResolvedBy, winner: Option<ConnId>)
    requires CanResolve(s, r, winner)
    ensures SettlementOf(Announce(s, r, resolvedBy, winner), r, resolvedBy, winner)
      == SettlementOf(s, r, resolvedBy, winner)
  {
    var a := Announce(s, r, resolvedBy, winner);
    assert SubscribersOf(a, r) == SubscribersOf(s, r);
    assert forall c :: Hears(a, r, winner, c) == Hears(s, r, winner, c);
  }

  lemma ResolveKeeps(s: State, r: ReqId, resolvedBy: ResolvedBy, winner: Option<ConnId>, outcome: Outcome)
    requires Inv(s) && CanResolve(s, r, winner)
    ensures Inv(Resolve(s, r, resolvedBy, winner, outcome))
  {
    ResolveTables(s, r, resolvedBy, winner, outcome);
    ResolvePairs(s, r, resolvedBy, winner, outcome);
    ResolveJobs(s, r, resolvedBy, winner, outcome);
  }

  lemma ResolveTables(s: State, r: ReqId, resolvedBy: ResolvedBy, winner: Option<ConnId>, outcome: Outcome)
    requires ThreadsOk(s) && RequestsOk(s) && ConnsOk(s) && CanResolve(s, r, winner)
    ensures var s' := Resolve(s, r, resolvedBy, winner, outcome); ThreadsOk(s') && RequestsOk(s') && ConnsOk(s')
  {
    ResolveFields(s, r, resolvedBy, winner, outcome);
    var s' := Resolve(s, r, resolvedBy, winner, outcome);
    ResolvedThreads(s, s', r, resolvedBy, winner, outcome);
    ResolvedRequests(s, s', r, resolvedBy, winner, outcome);
    ResolvedConns(s, s', r, resolvedBy, winner, outcome);
  }

  lemma ResolvedThreads(s: State, s': State, r: ReqId, resolvedBy: ResolvedBy, winner: Option<ConnId>, outcome: Outcome)
    requires ThreadsOk(s) && CanResolve(s, r, winner) && ResolvedFrom(s, s', r, resolvedBy, winner, outcome)
    ensures ThreadsOk(s')
  {
    forall u | u in s'.threads ensures ThreadOk(s', u) {
      assert ThreadOk(s, u);
    }
  }

  lemma ResolvedRequests(s: State, s': State, r: ReqId, resolvedBy: ResolvedBy, winner: Option<ConnId>,
    outcome: Outcome)
    requires ThreadsOk(s) && RequestsOk(s) && CanResolve(s, r, winner)
      && ResolvedFrom(s, s', r, resolvedBy, winner, outcome)
    ensures RequestsOk(s')
  {
    assert ThreadOk(s, s.requests[r].thread);
    forall q | q in s'.requests ensures RequestOk(s', q) {
      assert RequestOk(s, q);
      if q == r {
        ResolvedRequest(s, s', r, resolvedBy, winner, outcome);
      } else {
        OtherRequest(s, s', r, resolvedBy, winner, outcome, q);
      }
    }
  }

  lemma ResolvedRequest(s: State, s': State, r: ReqId, resolvedBy: ResolvedBy, winner: Option<ConnId>, outcome: Outcome)
    requires CanResolve(s, r, winner) && ResolvedFrom(s, s', r, resolvedBy, winner, outcome)
    requires RequestOk(s, r) && ThreadOk(s, s.requests[r].thread)
    ensures RequestOk(s', r)
  {
    assert s'.history[r] == SettlementOf(s, r, resolvedBy, winner);
  }

  lemma OtherRequest(
      s: State, s': State, r: ReqId, resolvedBy: ResolvedBy, winner: Option<ConnId>, outcome: Outcome, q: ReqId)
    requires CanResolve(s, r, winner) && ResolvedFrom(s, s', r, resolvedBy, winner, outcome)
    requires q in s.requests && q != r && RequestOk(s, q)
    ensures RequestOk(s', q)
  {
    assert s'.requests[q] == s.requests[q];
  }

  lemma ResolvedConns(s: State, s': State, r: ReqId, resolvedBy: ResolvedBy, winner: Option<ConnId>, outcome: Outcome)
    requires ConnsOk(s) && CanResolve(s, r, winner) && ResolvedFrom(s, s', r, resolvedBy, winner, outcome)
    ensures ConnsOk(s')
  {
    forall c | c in s'.conns ensures ConnOk(s', c) {
      assert ConnOk(s, c);
    }
  }

  lemma ResolvePairs(s: State, r: ReqId, resolvedBy: ResolvedBy, winner: Option<ConnId>, outcome: Outcome)
    requires RequestsOk(s) && ConnsOk(s) && PairsOk(s) && CanResolve(s, r, winner)
    ensures PairsOk(Resolve(s, r, resolvedBy, winner, outcome))
  {
    var s' := Resolve(s, r, resolvedBy, winner, outcome);
    ResolveFields(s, r, resolvedBy, winner, outcome);
    forall c, q | c in s'.conns && q in s'.requests ensures PairOk(s', c, q) {
      assert PairOk(s, c, q) && ConnOk(s, c) && RequestOk(s, q);
      ResolvePair(s, s', r, resolvedBy, winner, outcome, c, q);
    }
  }

  lemma ResolvePair(
      s: State, s': State, r: ReqId, resolvedBy: ResolvedBy, winner: Option<ConnId>, outcome: Outcome, c: ConnId,
        q: ReqId)
    requires CanResolve(s, r, winner) && ResolvedFrom(s, s', r, resolvedBy, winner, outcome)
    requires c in s.conns && q in s.requests && PairOk(s, c, q) && ConnOk(s, c) && RequestOk(s, q)
    ensures PairOk(s', c, q)
  {
    QueuedGrows(s, s', c, q);
    ResolvedAbout(s, s', r, resolvedBy, winner, outcome, c, q);
    if q == r {
      assert s'.history[r] == SettlementOf(s, r, resolvedBy, winner);
    } else {
      assert q in s'.conns[c].outbound <==> q in s.conns[c].outbound;
    }
  }

  /** The frames about a request after one is resolved: those told of it have one more. */
  lemma ResolvedAbout(
      s: State, s': State, r: ReqId, resolvedBy: ResolvedBy, winner: Option<ConnId>, outcome: Outcome, c: ConnId,
        q: ReqId)
    requires CanResolve(s, r, winner) && ResolvedFrom(s, s', r, resolvedBy, winner, outcome)
    requires c in s.conns && q in s.requests && RequestOk(s, q) && About(s.conns[c].sent, q) == Expected(s, c, q)
    ensures About(s'.conns[c].sent, q) == Expected(s', c, q)
  {
    AboutAppend(s.conns[c].sent, ResolvedFrame(r, s.requests[r].thread, resolvedBy), q);
    assert RequestFrameOf(s', q) == RequestFrameOf(s, q);
    if q == r {
      ResolvedExpected(s, s', r, resolvedBy, winner, outcome, c);
    } else {
      assert Expected(s', c, q) == Expected(s, c, q);
    }
  }

  /** The connections told are expected to have the notice last. */
  lemma ResolvedExpected(
      s: State, s': State, r: ReqId, resolvedBy: ResolvedBy, winner: Option<ConnId>, outcome: Outcome, c: ConnId)
    requires CanResolve(s, r, winner) && ResolvedFrom(s, s', r, resolvedBy, winner, outcome) && r !in s.history
    ensures var notice := ResolvedFrame(r, s.requests[r].thread, resolvedBy);
      Expected(s', c, r) == Expected(s, c, r) + if c in Told(s, r, winner) then [notice] else []
  {
    assert s'.history[r] == SettlementOf(s, r, resolvedBy, winner);
    assert s'.requests[r].delivered == s.requests[r].delivered;
    assert RequestFrameOf(s', r) == RequestFrameOf(s, r);
  }

  lemma ResolveJobs(s: State, r: ReqId, resolvedBy: ResolvedBy, winner: Option<ConnId>, outcome: Outcome)
    requires ThreadsOk(s) && PairsOk(s) && JobsOk(s) && CanResolve(s, r, winner)
    ensures JobsOk(Resolve(s, r, resolvedBy, winner, outcome))
  {
    ResolveFields(s, r, resolvedBy, winner, outcome);
    assert ThreadOk(s, s.requests[r].thread);
    ResolvedJobs(s, Resolve(s, r, resolvedBy, winner, outcome), r, resolvedBy, winner, outcome);
  }

  lemma ResolvedJobs(s: State, s': State, r: ReqId, resolvedBy: ResolvedBy, winner: Option<ConnId>, outcome: Outcome)
    requires PairsOk(s) && JobsOk(s) && CanResolve(s, r, winner) && Distinct(SubscribersOf(s, r))
    requires ResolvedFrom(s, s', r, resolvedBy, winner, outcome)
    ensures JobsOk(s')
  {
    forall i | 0 <= i < |s'.jobs| ensures JobOk(s', s'.jobs[i]) {
      ResolvedJob(s, s', r, resolvedBy, winner, outcome, i);
    }
    ResolvedJobsOnce(s, r, winner);
  }

  lemma ResolvedJob(
      s: State, s': State, r: ReqId, resolvedBy: ResolvedBy, winner: Option<ConnId>, outcome: Outcome, i: nat)
    requires PairsOk(s) && JobsOk(s) && CanResolve(s, r, winner)
    requires ResolvedFrom(s, s', r, resolvedBy, winner, outcome) && i < |s'.jobs|
    ensures JobOk(s', s'.jobs[i])
  {
    if i < |s.jobs| {
      assert JobOk(s, s.jobs[i]);
    } else {
      WithdrawalsAre(s.conns, r, winner, SubscribersOf(s, r));
      var job := s'.jobs[i];
      assert job in Withdrawals(s.conns, r, winner, SubscribersOf(s, r));
      assert PairOk(s, job.conn, r);
    }
  }

  lemma ResolvedJobsOnce(s: State, r: ReqId, winner: Option<ConnId>)
    requires JobsOk(s) && CanResolve(s, r, winner) && Distinct(SubscribersOf(s, r))
    ensures OnePerRequest(s.jobs + Withdrawals(s.conns, r, winner, SubscribersOf(s, r)))
  {
    var w := Withdrawals(s.conns, r, winner, SubscribersOf(s, r));
    var jobs := s.jobs + w;
    WithdrawalsAre(s.conns, r, winner, SubscribersOf(s, r));
    forall i, j | 0 <= i < j < |jobs| ensures jobs[i].conn != jobs[j].conn || jobs[i].id != jobs[j].id {
      if j >= |s.jobs| {
        assert jobs[j] in w;
        NoJobWhileOutstanding(s, jobs[j].conn, r);
      }
    }
  }
}
