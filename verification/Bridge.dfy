/**
 * The plugin's objects: connections with their outbound tables, the event loop's queues, and the bridge.
 * An entry method is one atomic piece of the program and is proved to make exactly one move of `Protocol`, which it
 * adds to `moves`. So the objects are always where the run `moves` leads (`Reached`), and what `ProtocolRuns` and
 * `ProtocolTurns` prove about runs holds of them; the other methods are parts of such pieces.
 */
module BridgeObjects {
  import opened Wrappers
  import opened JsonValue
  import opened SessionLog
  import opened Protocol
  import ProtocolInvariant
  import ProtocolRuns
  import Turns

  /** The microtask queue and the zero-delay redelivery timers. */
  class EventLoop {
    var jobs: seq<Job>
    var timers: seq<(ConnId, ThreadId)>

    constructor ()
      ensures jobs == [] && timers == []
    {
      jobs, timers := [], [];
    }
  }

  class Connection {
    const id: ConnId
    const loop: EventLoop
    var closed: bool
    var subscriptions: set<ThreadId>
    var outbound: seq<ReqId>
    ghost var sent: seq<Frame>

    constructor (id: ConnId, loop: EventLoop)
      ensures this.id == id && this.loop == loop && View() == Conn(false, {}, [], [])
    {
      this.id, this.loop := id, loop;
      closed, subscriptions, outbound, sent := false, {}, [], [];
    }

    ghost function View(): Conn
      reads this
    {
      Conn(closed, subscriptions, outbound, sent)
    }

    predicate HasRequest(id: ReqId)
      reads this
    {
      id in outbound
    }

    method Notify(frame: Frame)
      modifies this`sent
      ensures View() == Written(old(View()), frame)
    {
      if !closed {
        sent := sent + [frame];
      }
    }

    method Request(frame: Frame)
      requires frame.RequestFrame?
      modifies this, loop`jobs
      ensures old(closed) ==> View() == old(View()) && loop.jobs == old(loop.jobs) + [Job(id, frame.id, Abandoned)]
      ensures !old(closed) ==> View() == Requested(old(View()), frame) && loop.jobs == old(loop.jobs)
    {
      if closed {
        loop.jobs := loop.jobs + [Job(id, frame.id, Abandoned)];
        return;
      }
      outbound := Including(outbound, frame.id);
      Notify(frame);
    }

    method CancelRequest(r: ReqId)
      modifies this`outbound, loop`jobs
      ensures View() == old(View()).(outbound :=
        if r in old(outbound) then Without(old(outbound), r) else old(outbound))
      ensures loop.jobs == old(loop.jobs) + if r in old(outbound) then [Job(id, r, Abandoned)] else []
    {
      if r in outbound {
        outbound := Without(outbound, r);
        loop.jobs := loop.jobs + [Job(id, r, Abandoned)];
      }
    }

    method OnClose()
      modifies this, loop`jobs
      ensures View() == old(View()).(closed := true, outbound := [], subscriptions := {})
      ensures loop.jobs == old(loop.jobs) + AbandonAll(id, old(outbound))
    {
      closed := true;
      var ids := outbound;
      for i := 0 to |ids|
        invariant View() == old(View()).(closed := true, outbound := ids[i..])
        invariant loop.jobs == old(loop.jobs) + AbandonAll(id, ids[..i])
      {
        outbound := outbound[1..];
        loop.jobs := loop.jobs + [Job(id, ids[i], Abandoned)];
        assert AbandonAll(id, ids[..i + 1]) == AbandonAll(id, ids[..i]) + [Job(id, ids[i], Abandoned)];
      }
      assert ids[..|ids|] == ids;
      subscriptions := {};
    }

    /** A frame without a method: the response to a request this side sent. */
    method OnResponse(rpcId: Option<RpcId>, answer: Reply)
      requires !answer.Abandoned?
      modifies this`outbound, loop`jobs
      ensures if rpcId.Some? && KeyOf(rpcId.value) in old(outbound)
              then View() == old(View()).(outbound := Without(old(outbound), KeyOf(rpcId.value)))
                   && loop.jobs == old(loop.jobs) + [Job(id, KeyOf(rpcId.value), answer)]
              else View() == old(View()) && loop.jobs == old(loop.jobs)
    {
      if rpcId.None? {
        return;
      }
      var key := KeyOf(rpcId.value);
      if key !in outbound {
        return;
      }
      outbound := Without(outbound, key);
      loop.jobs := loop.jobs + [Job(id, key, answer)];
    }
  }

  class Bridge {
    const loop: EventLoop
    var connections: map<ConnId, Connection>
    var threads: map<ThreadId, Thread>
    var requests: map<ReqId, Pending>
    var requestSeq: nat
    var outcomes: map<ReqId, Outcome>
    ghost var history: map<ReqId, Settlement>
    ghost var moves: seq<Move>

    ghost predicate Valid()
      reads this
    {
      && (forall c | c in connections :: connections[c].id == c && connections[c].loop == loop)
      && (forall t | t in threads :: Distinct(threads[t].subscribers))
    }

    ghost function ConnViews(): map<ConnId, Conn>
      reads this`connections, connections.Values
    {
      map c | c in connections :: connections[c].View()
    }

    ghost function View(): State
      reads this, loop, connections.Values
    {
      State(ConnViews(), threads, requests, requestSeq, loop.jobs, loop.timers, outcomes, history)
    }

    /** The objects are where a legal run of the protocol leads: the run made of the moves so far. */
    ghost predicate Reached()
      reads this, loop, connections.Values
    {
      Valid() && Legal(moves) && View() == Run(moves)
    }

    constructor ()
      ensures Reached() && moves == [] && View() == INITIAL && fresh(loop)
    {
      loop := new EventLoop();
      connections, threads, requests, requestSeq, outcomes, history := map[], map[], map[], 0, map[], map[];
      moves := [];
    }

    /** The objects have just made move `m`. */
    ghost method Record(m: Move, before: State)
      requires Valid() && Legal(moves) && before == Run(moves) && Enabled(before, m) && View() == Step(before, m)
      modifies this`moves
      ensures Reached() && moves == old(moves) + [m] && View() == old(View())
    {
      RunGoesOn(moves, m);
      moves := moves + [m];
    }

    // ---- what the run theorems say of these objects ----

    /** A connection was sent, about a request, nothing, the request, the notice, or the request then the notice. */
    lemma SentAboutRequest(c: ConnId, r: ReqId)
      requires Reached() && c in connections && r in requests
      ensures var about, request := ProtocolInvariant.About(connections[c].sent, r), RequestFrameOf(View(), r);
        || about == [] || about == [request]
        || (requests[r].settled && r in history && history[r].winner != Some(c)
            && var notice := ResolvedFrame(r, requests[r].thread, history[r].resolvedBy);
               about == [notice] || about == [request, notice])
    {
      assert View().conns[c] == connections[c].View();
      ProtocolRuns.FramesPerRequest(moves, c, r);
    }

    /** An open connection asked about an unsettled request still holds it, or its answer is queued. */
    lemma HoldsOrQueued(c: ConnId, r: ReqId)
      requires Reached() && c in connections && r in requests
      requires !connections[c].closed && !requests[r].settled && c in requests[r].delivered
      ensures r in connections[c].outbound
           || (exists i | 0 <= i < |loop.jobs| ::
                 loop.jobs[i].conn == c && loop.jobs[i].id == r && !loop.jobs[i].reply.Abandoned?)
    {
      assert View().conns[c] == connections[c].View();
      ProtocolRuns.NoAnswerLost(moves, c, r);
    }

    /** A settled request has the outcome its first decision gave it. */
    lemma OutcomeIsDecided(r: ReqId)
      requires Reached()
      ensures ProtocolRuns.OutcomeIn(View(), r) == ProtocolRuns.FirstDecision(moves, r)
    {
      ProtocolRuns.OutcomeIsFirstDecision(moves, r);
    }

    method Subscribe(c: ConnId, t: ThreadId)
      requires Valid() && c in connections && t in threads
      modifies this`threads, connections.Values
      ensures Valid() && connections == old(connections)
      ensures View() == Subscribed(old(View()), c, t)
    {
      var conn := connections[c];
      conn.subscriptions := conn.subscriptions + {t};
      threads := threads[t := threads[t].(subscribers := Including(threads[t].subscribers, c))];
      assert ConnViews() == Subscribed(old(View()), c, t).conns;
    }

    method Deliver(r: ReqId, c: ConnId)
      requires Valid()
      modifies this`requests, connections.Values, loop`jobs
      ensures Valid() && connections == old(connections)
      ensures View() == Protocol.Deliver(old(View()), r, c)
    {
      if r !in requests || c !in connections {
        return;
      }
      var pending, conn := requests[r], connections[c];
      if pending.settled || conn.closed || c in pending.delivered {
        return;
      }
      requests := requests[r := pending.(delivered := pending.delivered + {c})];
      conn.Request(RequestFrame(r, pending.kind, pending.thread, pending.params));
      assert ConnViews() == old(ConnViews())[c := conn.View()];
    }

    /** Notify one connection if it is open. */
    method NotifyOpen(c: ConnId, frame: Frame) returns (open: bool)
      requires Valid()
      modifies connections.Values
      ensures Valid()
      ensures open == (c in connections && !old(connections[c].closed))
      ensures forall d | d in connections :: (connections[d].View() ==
        if d == c then Written(old(connections[d].View()), frame) else old(connections[d].View()))
    {
      open := c in connections && !connections[c].closed;
      if open {
        connections[c].Notify(frame);
      }
    }

    /** Notify the open ones of `subscribers`, and say which they were. */
    method NotifyAll(subscribers: seq<ConnId>, frame: Frame) returns (kept: seq<ConnId>)
      requires Valid() && Distinct(subscribers)
      modifies connections.Values
      ensures Valid()
      ensures kept == OpenOnly(old(View()), subscribers) && Distinct(kept)
      ensures forall c | c in connections :: (connections[c].View() ==
        if c in subscribers then Written(old(connections[c].View()), frame) else old(connections[c].View()))
    {
      kept := [];
      for i := 0 to |subscribers|
        invariant kept == OpenOnly(old(View()), subscribers[..i])
        invariant forall c | c in connections :: (connections[c].View() ==
          if c in subscribers[..i] then Written(old(connections[c].View()), frame) else old(connections[c].View()))
      {
        assert subscribers[..i + 1][..i] == subscribers[..i];
        assert subscribers[i] !in subscribers[..i];
        var open := NotifyOpen(subscribers[i], frame);
        if open {
          kept := kept + [subscribers[i]];
        }
      }
      assert subscribers[..|subscribers|] == subscribers;
      ProtocolInvariant.OpenOnlyIs(old(View()), subscribers);
    }

    method Broadcast(t: ThreadId, frame: Frame)
      requires Valid() && t in threads
      modifies this`threads, connections.Values
      ensures Valid()
      ensures View() == Protocol.Broadcast(old(View()), t, frame)
    {
      ghost var s := View();
      var kept := NotifyAll(threads[t].subscribers, frame);
      BroadcastReaches(s, t, frame, ConnViews());
      threads := threads[t := threads[t].(subscribers := kept)];
      assert ConnViews() == Protocol.Broadcast(s, t, frame).conns;
    }

    method OnAgentStatus(t: ThreadId, status: string)
      requires Reached()
      modifies this`moves, this`threads, connections.Values
      ensures Valid() && View() == Step(old(View()), AgentStatus(t, status))
      ensures Reached() && moves == old(moves) + [AgentStatus(t, status)]
    {
      if t in threads {
        Broadcast(t, StatusFrame(t, status));
      }
      Record(AgentStatus(t, status), old(View()));
    }

    method OnAgentError(t: ThreadId, turn: int, message: string)
      requires Reached()
      modifies this`moves, this`threads, connections.Values
      ensures Valid() && View() == Step(old(View()), AgentError(t, turn, message))
      ensures Reached() && moves == old(moves) + [AgentError(t, turn, message)]
    {
      if t in threads {
        Broadcast(t, ErrorFrame(t, turn, message));
      }
      Record(AgentError(t, turn, message), old(View()));
    }

    /** Withdraw `r` from one connection if it is outstanding there, and tell it, unless it is closed or the winner. */
    method TellResolved(c: ConnId, r: ReqId, frame: Frame, winner: Option<ConnId>)
      requires Valid() && frame.ResolvedFrame? && frame.id == r
      modifies connections.Values, loop`jobs
      ensures Valid()
      ensures var told := c in connections && winner != Some(c) && !old(connections[c].closed);
        && loop.jobs == old(loop.jobs)
          + (if told && r in old(connections[c].outbound) then [Job(c, r, Abandoned)] else [])
        && forall d | d in connections :: (connections[d].View() ==
             if d == c && told then ToldResolved(old(connections[d].View()), frame) else old(connections[d].View()))
    {
      if c in connections && winner != Some(c) && !connections[c].closed {
        var conn := connections[c];
        if conn.HasRequest(r) {
          conn.CancelRequest(r);
        } else {
          WithoutAbsent(conn.outbound, r);
        }
        conn.Notify(frame);
      }
    }

    /** Where `announceResolved` stands after the first `i` subscribers; `conns` and `jobs` are from before it. */
    ghost predicate ToldUpTo(conns: map<ConnId, Conn>, jobs: seq<Job>, subscribers: seq<ConnId>, i: nat, r: ReqId,
      frame: Frame, winner: Option<ConnId>)
      requires i <= |subscribers| && frame.ResolvedFrame?
      reads this, connections.Values, loop
    {
      && ConnViews() == ToldViews(conns, subscribers[..i], frame, winner)
      && loop.jobs == jobs + Withdrawals(conns, r, winner, subscribers[..i])
    }

    method TellNth(subscribers: seq<ConnId>, i: nat, r: ReqId, frame: Frame, winner: Option<ConnId>,
      ghost conns: map<ConnId, Conn>, ghost jobs: seq<Job>)
      requires Valid() && i < |subscribers| && Distinct(subscribers) && frame.ResolvedFrame? && frame.id == r
      requires ToldUpTo(conns, jobs, subscribers, i, r, frame, winner)
      modifies connections.Values, loop`jobs
      ensures Valid() && ToldUpTo(conns, jobs, subscribers, i + 1, r, frame, winner)
    {
      ghost var before := ConnViews();
      WithdrawalsNext(conns, r, winner, subscribers, i);
      TellResolved(subscribers[i], r, frame, winner);
      ToldNext(conns, subscribers, i, frame, winner, before, ConnViews());
    }

    /** The loop of `announceResolved`. */
    method TellAll(subscribers: seq<ConnId>, r: ReqId, frame: Frame, winner: Option<ConnId>)
      requires Valid() && Distinct(subscribers) && frame.ResolvedFrame? && frame.id == r
      modifies connections.Values, loop`jobs
      ensures Valid()
      ensures ToldUpTo(old(ConnViews()), old(loop.jobs), subscribers, |subscribers|, r, frame, winner)
    {
      ghost var conns, jobs := ConnViews(), loop.jobs;
      assert ConnViews() == ToldViews(conns, subscribers[..0], frame, winner);
      for i := 0 to |subscribers|
        invariant ToldUpTo(conns, jobs, subscribers, i, r, frame, winner)
      {
        TellNth(subscribers, i, r, frame, winner, conns, jobs);
      }
    }

    method AnnounceResolved(r: ReqId, resolvedBy: ResolvedBy, winner: Option<ConnId>)
      requires Valid() && r in requests && requests[r].thread in threads
      modifies connections.Values, loop`jobs
      ensures Valid()
      ensures View() == Announce(old(View()), r, resolvedBy, winner)
    {
      var t := requests[r].thread;
      var subscribers := threads[t].subscribers;
      TellAll(subscribers, r, ResolvedFrame(r, t, resolvedBy), winner);
      assert subscribers[..|subscribers|] == subscribers;
      assert ConnViews() == Announce(old(View()), r, resolvedBy, winner).conns;
    }

    /** `pending.settle`: once only, and it detaches the abort listener. */
    method Settle(r: ReqId, outcome: Outcome, ghost resolvedBy: ResolvedBy, ghost winner: Option<ConnId>)
      requires Valid() && r in requests && requests[r].thread in threads
      modifies this`requests, this`threads, this`outcomes, this`history
      ensures Valid()
      ensures View() == Protocol.Settle(old(View()), r, resolvedBy, winner, outcome)
    {
      var pending := requests[r];
      if pending.settled {
        return;
      }
      var thread := threads[pending.thread];
      ghost var settlement := SettlementOf(View(), r, resolvedBy, winner);
      ghost var conns := ConnViews();
      requests, threads, outcomes, history :=
        requests[r := pending.(settled := true, listening := false)],
        threads[pending.thread := thread.(pending := Without(thread.pending, r))],
        outcomes[r := outcome],
        history[r := settlement];
      assert ConnViews() == conns;
    }

    method AnnounceAndSettle(r: ReqId, resolvedBy: ResolvedBy, winner: Option<ConnId>, outcome: Outcome)
      requires Valid() && r in requests && requests[r].thread in threads
      modifies this`requests, this`threads, this`outcomes, this`history, connections.Values, loop`jobs
      ensures Valid()
      ensures View() == Resolve(old(View()), r, resolvedBy, winner, outcome)
    {
      AnnounceResolved(r, resolvedBy, winner);
      Settle(r, outcome, resolvedBy, winner);
    }

    // ---- connections ----

    method AddConnection(c: ConnId)
      requires Reached() && c !in connections
      modifies this`moves, this`connections
      ensures Valid() && View() == Step(old(View()), Connect(c))
      ensures Reached() && moves == old(moves) + [Connect(c)]
    {
      var conn := new Connection(c, loop);
      connections := connections[c := conn];
      assert ConnViews() == Step(old(View()), Connect(c)).conns;
      Record(Connect(c), old(View()));
    }

    /** The two `close` listeners: the connection empties its table, then the bridge unsubscribes it everywhere. */
    method CloseConnection(c: ConnId)
      requires Valid() && c in connections
      modifies this`threads, connections.Values, loop`jobs
      ensures Valid() && View() == CloseStep(old(View()), c)
    {
      connections[c].OnClose();
      assert ConnViews() == old(ConnViews())[c := connections[c].View()];
      threads := Unsubscribed(threads, c);
    }

    method RemoveConnection(c: ConnId)
      requires Reached() && c in connections
      modifies this`moves, this`threads, connections.Values, loop`jobs
      ensures Reached() && moves == old(moves) + [Close(c)]
      ensures View() == CloseStep(old(View()), c)
    {
      CloseConnection(c);
      Record(Close(c), old(View()));
    }

    method OnResponse(c: ConnId, rpcId: Option<RpcId>, answer: Reply)
      requires Reached() && c in connections && !answer.Abandoned?
      modifies this`moves, connections.Values, loop`jobs
      ensures Valid() && View() == Step(old(View()), Answer(c, rpcId, answer))
      ensures Reached() && moves == old(moves) + [Answer(c, rpcId, answer)]
    {
      connections[c].OnResponse(rpcId, answer);
      assert ConnViews() == Step(old(View()), Answer(c, rpcId, answer)).conns;
      Record(Answer(c, rpcId, answer), old(View()));
    }

    // ---- threads ----

    method RegisterThread(c: ConnId, t: ThreadId)
      requires Reached() && t !in threads && c in connections
      modifies this`moves, this`threads, connections.Values
      ensures Valid() && View() == Step(old(View()), StartThread(c, t))
      ensures Reached() && moves == old(moves) + [StartThread(c, t)]
    {
      threads := threads[t := NewThread()];
      Subscribe(c, t);
      Record(StartThread(c, t), old(View()));
    }

    method AdoptThread(t: ThreadId)
      requires Reached()
      modifies this`moves, this`threads
      ensures Valid() && View() == Step(old(View()), Adopt(t))
      ensures Reached() && moves == old(moves) + [Adopt(t)]
    {
      if t !in threads {
        threads := threads[t := NewThread()];
      }
      Record(Adopt(t), old(View()));
    }

    /** `thread/resume` on a known thread, with its redelivery timer. */
    method ResumeThread(c: ConnId, t: ThreadId)
      requires Reached() && c in connections && t in threads
      modifies this`moves, this`threads, connections.Values, loop`timers
      ensures Valid() && View() == Step(old(View()), Resume(c, t))
      ensures Reached() && moves == old(moves) + [Resume(c, t)]
    {
      Subscribe(c, t);
      loop.timers := loop.timers + [(c, t)];
      Record(Resume(c, t), old(View()));
    }

    /** `turn/steer` and `turn/interrupt` subscribe their caller to a known thread, whatever they answer. */
    method TouchThread(c: ConnId, t: ThreadId) returns (known: bool)
      requires Reached() && c in connections
      modifies this`moves, this`threads, connections.Values
      ensures Reached() && moves == old(moves) + [Touch(c, t)] && known == (t in old(threads))
      ensures View() == if known then Subscribed(old(View()), c, t) else old(View())
    {
      known := t in threads;
      if known {
        Subscribe(c, t);
      }
      Record(Touch(c, t), old(View()));
    }

    method Unsubscribe(c: ConnId, t: ThreadId)
      requires Valid() && c in connections
      modifies this`threads, connections.Values
      ensures Valid() && View() == UnsubscribeStep(old(View()), c, t)
    {
      var conn := connections[c];
      conn.subscriptions := conn.subscriptions - {t};
      if t in threads {
        threads := threads[t := threads[t].(subscribers := Without(threads[t].subscribers, c))];
      }
      assert ConnViews() == UnsubscribeStep(old(View()), c, t).conns;
    }

    method UnsubscribeThread(c: ConnId, t: ThreadId)
      requires Reached() && c in connections
      modifies this`moves, this`threads, connections.Values
      ensures Reached() && moves == old(moves) + [Move.Unsubscribe(c, t)]
      ensures View() == UnsubscribeStep(old(View()), c, t)
    {
      Unsubscribe(c, t);
      Record(Move.Unsubscribe(c, t), old(View()));
    }

    /** Every pending request of the thread, to one connection. */
    method RedeliverThread(c: ConnId, t: ThreadId)
      requires Valid() && t in threads
      modifies this`requests, connections.Values, loop`jobs
      ensures Valid() && View() == RedeliverAll(old(View()), c, old(threads[t].pending))
    {
      var pending := threads[t].pending;
      for i := 0 to |pending|
        invariant View() == RedeliverAll(old(View()), c, pending[..i])
        invariant connections == old(connections) && threads == old(threads)
      {
        assert pending[..i + 1][..i] == pending[..i];
        Deliver(pending[i], c);
      }
      assert pending[..|pending|] == pending;
    }

    /** The redelivery timer of a resume. */
    method RedeliverPending()
      requires Reached() && loop.timers != []
      modifies this`moves, this`requests, connections.Values, loop
      ensures Reached() && moves == old(moves) + [FireTimer]
      ensures View() == FireTimerStep(old(View()))
    {
      var (c, t) := loop.timers[0];
      loop.timers := loop.timers[1..];
      assert View() == old(View()).(timers := old(View()).timers[1..]);
      if t in threads {
        RedeliverThread(c, t);
      }
      Record(FireTimer, old(View()));
    }

    // ---- reverse requests ----

    method DeliverToAll(r: ReqId, subscribers: seq<ConnId>)
      requires Valid()
      modifies this`requests, connections.Values, loop`jobs
      ensures Valid() && View() == FanOut(old(View()), r, subscribers)
    {
      for i := 0 to |subscribers|
        invariant View() == FanOut(old(View()), r, subscribers[..i])
      {
        assert subscribers[..i + 1][..i] == subscribers[..i];
        Deliver(r, subscribers[i]);
      }
      assert subscribers[..|subscribers|] == subscribers;
    }

    /** Register a pending request, then cancel it at once or fan it out. */
    method RegisterRequest(t: ThreadId, kind: Kind, params: Value, signal: Signal)
      requires Valid() && Owned(View(), t)
      modifies this`requestSeq, this`requests, this`threads, this`outcomes, this`history, connections.Values, loop`jobs
      ensures Valid() && View() == AskStep(old(View()), t, kind, params, signal)
    {
      requestSeq := requestSeq + 1;
      var r := RequestName(requestSeq);
      requests := requests[r := Pending(t, kind, params, signal, {}, false, signal.LiveSignal?)];
      threads := threads[t := threads[t].(pending := Including(threads[t].pending, r))];
      assert View() == WithRequest(old(View()), t, kind, params, signal);
      if signal.AbortedSignal? {
        AnnounceAndSettle(r, ByCancellation, None, Cancelled);
      } else {
        DeliverToAll(r, threads[t].subscribers);
      }
    }

    /** An approval or a question from dsh; `owned` is false when it is passed on to the browser. */
    method AwaitReverse(t: ThreadId, kind: Kind, params: Value, signal: Signal) returns (owned: bool)
      requires Reached()
      modifies this`moves, this`requestSeq, this`requests, this`threads, this`outcomes, this`history,
        connections.Values, loop`jobs
      ensures Reached() && moves == old(moves) + [Ask(t, kind, params, signal)]
      ensures owned == (t in old(threads) && old(threads)[t].turn.inflight.Some?)
      ensures View() == if owned then AskStep(old(View()), t, kind, params, signal) else old(View())
    {
      owned := t in threads && threads[t].turn.inflight.Some?;
      if owned {
        RegisterRequest(t, kind, params, signal);
      }
      Record(Ask(t, kind, params, signal), old(View()));
    }

    method RunHeadJob()
      requires Valid() && loop.jobs != []
      requires loop.jobs[0].id in requests ==> requests[loop.jobs[0].id].thread in threads
      modifies this`requests, this`threads, this`outcomes, this`history, connections.Values, loop`jobs
      ensures Valid() && View() == RunJobStep(old(View()))
    {
      var job := loop.jobs[0];
      loop.jobs := loop.jobs[1..];
      if job.id !in requests || requests[job.id].settled {
        return;
      }
      match job.reply {
        case Accepted(value) => AnnounceAndSettle(job.id, ByClient, Some(job.conn), Given(value));
        case Refused(message) => AnnounceAndSettle(job.id, ByClient, Some(job.conn), Rejected(message));
        case Abandoned =>
      }
    }

    /** The head of the microtask queue: a `then` callback of some `Connection.request`. */
    method RunNextJob()
      requires Reached() && loop.jobs != []
      modifies this`moves, this`requests, this`threads, this`outcomes, this`history, connections.Values, loop`jobs
      ensures Reached() && moves == old(moves) + [RunJob]
      ensures View() == RunJobStep(old(View()))
    {
      HeadHasThread(moves);
      RunHeadJob();
      Record(RunJob, old(View()));
    }

    /** The abort listener. It does not look at `settled`: being attached is what makes it safe. */
    method OnAbort(r: ReqId)
      requires Reached() && r in requests
      modifies this`moves, this`requests, this`threads, this`outcomes, this`history, connections.Values, loop`jobs
      ensures Reached() && moves == old(moves) + [Abort(r)]
      ensures View() == AbortStep(old(View()), r)
    {
      RequestHasThread(moves, r);
      if requests[r].listening {
        AnnounceAndSettle(r, ByCancellation, None, Cancelled);
      }
      Record(Abort(r), old(View()));
    }

    // ---- turns ----

    method TrySubmit(c: ConnId, t: ThreadId, messageId: string, textOk: bool, agentRunning: bool, agentLive: bool)
      returns (error: Option<string>)
      requires Valid() && c in connections && t in threads
      modifies this`threads, connections.Values
      ensures Valid() && View() == SubmitStep(old(View()), c, t, messageId, error.None?)
      ensures RefusalIs(error, old(threads)[t].turn.inflight.Some? || agentRunning, textOk, agentLive)
    {
      Subscribe(c, t);
      if !textOk {
        return Some("invalid_params");
      }
      var turn := threads[t].turn;
      if turn.inflight.Some? || agentRunning {
        return Some("thread_busy");
      }
      if !agentLive {
        return Some("thread_not_found");
      }
      turn := turn.(
        inflight := Some(Turns.Inflight(messageId, None, None, true)),
        submitted := turn.submitted + {messageId});
      threads := threads[t := threads[t].(turn := turn)];
      error := None;
    }

    /** `turn/start`: subscribes even when it then refuses. */
    method StartTurn(c: ConnId, t: ThreadId, messageId: string, textOk: bool, agentRunning: bool, agentLive: bool)
      returns (error: Option<string>)
      requires Reached() && c in connections
      requires Enabled(View(), SubmitTurn(c, t, messageId, textOk, agentRunning, agentLive))
      modifies this`moves, this`threads, connections.Values
      ensures Reached() && moves == old(moves) + [SubmitTurn(c, t, messageId, textOk, agentRunning, agentLive)]
      ensures View() == Step(old(View()), SubmitTurn(c, t, messageId, textOk, agentRunning, agentLive))
      ensures t !in old(threads) ==> error == Some("thread_not_found")
      ensures t in old(threads) ==>
        RefusalIs(error, old(threads)[t].turn.inflight.Some? || agentRunning, textOk, agentLive)
    {
      if t !in threads {
        error := Some("thread_not_found");
      } else {
        error := TrySubmit(c, t, messageId, textOk, agentRunning, agentLive);
      }
      Record(SubmitTurn(c, t, messageId, textOk, agentRunning, agentLive), old(View()));
    }

    /** Only the submitted message is claimed; the start is then announced. */
    method ClaimTurn(t: ThreadId, messageId: string, turnId: int)
      requires Valid() && t in threads
      modifies this`threads, connections.Values
      ensures Valid() && View() == TurnStep(old(View()), t, Turns.Claim(messageId, turnId))
    {
      var turn := threads[t].turn;
      turn := turn.(claimed := turn.claimed + {messageId});
      if turn.inflight.None? || turn.inflight.value.messageId != messageId {
        threads := threads[t := threads[t].(turn := turn)];
        return;
      }
      var inflight := turn.inflight.value.(turnId := Some(turnId), awaitingClaim := false);
      turn := turn.(inflight := Some(inflight), trace := turn.trace + [Turns.Started(messageId, turnId)]);
      threads := threads[t := threads[t].(turn := turn)];
      Broadcast(t, StartedFrame(t, turnId));
    }

    method OnInboxClaimed(t: ThreadId, messageId: string, turnId: int)
      requires Reached() && Enabled(View(), TurnInput(t, Turns.Claim(messageId, turnId)))
      modifies this`moves, this`threads, connections.Values
      ensures Reached() && moves == old(moves) + [TurnInput(t, Turns.Claim(messageId, turnId))]
      ensures View() == if t in old(threads) then TurnStep(old(View()), t, Turns.Claim(messageId, turnId))
        else old(View())
    {
      if t in threads {
        ClaimTurn(t, messageId, turnId);
      }
      Record(TurnInput(t, Turns.Claim(messageId, turnId)), old(View()));
    }

    /** Thirty seconds after `turn/start`: has an effect only while the claim is still awaited. */
    method OnClaimTimeout(t: ThreadId, messageId: string)
      requires Reached() && t in threads
      modifies this`moves, this`threads
      ensures Reached() && moves == old(moves) + [TurnInput(t, Turns.Timeout(messageId))]
      ensures View() == TurnStep(old(View()), t, Turns.Timeout(messageId))
    {
      var turn := threads[t].turn;
      if turn.inflight.Some? && turn.inflight.value.messageId == messageId && turn.inflight.value.awaitingClaim {
        turn := turn.(inflight := None, timedOut := turn.timedOut + {messageId});
        threads := threads[t := threads[t].(turn := turn)];
      }
      Record(TurnInput(t, Turns.Timeout(messageId)), old(View()));
    }

    /** The completion half of `onSessionEvent`: only the bridge's own turn is reported and cleared. */
    method EndTurn(t: ThreadId, turnId: int, reason: Reason)
      requires Valid() && t in threads
      modifies this`threads, connections.Values
      ensures Valid()
      ensures var input := Turns.Log(TurnEnd(turnId, reason));
        var s := old(View());
        var s2 := s.(threads := s.threads[t := s.threads[t].(turn := Turns.Advance(s.threads[t].turn, input))]);
        View() == match Turns.NoteFor(s.threads[t].turn, input)
                  case Some(note) => Protocol.Broadcast(s2, t, FrameOfNote(t, note))
                  case None => s2
    {
      var turn := threads[t].turn;
      if turn.inflight.None? || turn.inflight.value.turnId != Some(turnId) {
        assert threads == threads[t := threads[t].(turn := turn)];
        return;
      }
      var (status, error) := MapTurnEnd(reason);
      var summary := Turns.Summary(turnId, status, reason.kind, error, turn.inflight.value.finalMessage);
      turn := turn.(inflight := None, trace := turn.trace + [Turns.Completed(summary)]);
      threads := threads[t := threads[t].(turn := turn)];
      Broadcast(t, CompletedFrame(t, summary));
    }

    /** The message half of `onSessionEvent`: the last nonempty text of the bridge's own turn. */
    method NoteText(t: ThreadId, event: SessionEvent)
      requires Valid() && t in threads
      modifies this`threads
      ensures Valid()
      ensures View() == WithInflight(old(View()), t, event)
    {
      var turn := threads[t].turn;
      if event.AssistantMessage? {
        var text := JoinTextBlocks(event.message.Get("content"));
        if text != "" && turn.inflight.Some? && turn.inflight.value.turnId == Some(event.turn) {
          turn := turn.(inflight := Some(turn.inflight.value.(finalMessage := Some(text))));
          threads := threads[t := threads[t].(turn := turn)];
          return;
        }
      }
      assert threads == threads[t := threads[t].(turn := turn)];
    }

    /** Note the text, forward the event, complete the turn. */
    method HandleSessionEvent(t: ThreadId, event: SessionEvent)
      requires Valid() && t in threads
      modifies this`threads, connections.Values
      ensures Valid() && View() == TurnStep(old(View()), t, Turns.Log(event))
    {
      NoteText(t, event);
      if Forwarded(event) {
        Broadcast(t, EventFrame(t, event));
      }
      if event.TurnEnd? {
        EndTurn(t, event.turn, event.reason);
      }
      SessionEventIsTurnStep(old(View()), t, event);
    }

    method OnSessionEvent(t: ThreadId, event: SessionEvent)
      requires Reached()
      modifies this`moves, this`threads, connections.Values
      ensures Reached() && moves == old(moves) + [TurnInput(t, Turns.Log(event))]
      ensures View() == if t in old(threads) then TurnStep(old(View()), t, Turns.Log(event)) else old(View())
    {
      if t in threads {
        HandleSessionEvent(t, event);
      }
      Record(TurnInput(t, Turns.Log(event)), old(View()));
    }
  }

  /**
   * Why `turn/start` is refused on a known thread: no text, then a turn in flight or a busy agent, then no live agent.
   */
  predicate RefusalIs(error: Option<string>, busy: bool, textOk: bool, agentLive: bool) {
    && (error == Some("invalid_params") <==> !textOk)
    && (error == Some("thread_busy") <==> textOk && busy)
    && (error == Some("thread_not_found") <==> textOk && !busy && !agentLive)
    && (error == None <==> textOk && !busy && agentLive)
  }

  lemma RunGoesOn(moves: seq<Move>, m: Move)
    requires Legal(moves) && Enabled(Run(moves), m)
    ensures Legal(moves + [m]) && Run(moves + [m]) == Step(Run(moves), m)
  {
    assert (moves + [m])[..|moves|] == moves;
  }

  /** Requests name registered threads, so a continuation or an abort finds its thread. */
  lemma RequestHasThread(moves: seq<Move>, r: ReqId)
    requires Legal(moves) && r in Run(moves).requests
    ensures Run(moves).requests[r].thread in Run(moves).threads
  {
    ProtocolRuns.RunKeeps(moves);
    assert ProtocolInvariant.RequestOk(Run(moves), r);
  }

  lemma HeadHasThread(moves: seq<Move>)
    requires Legal(moves) && Run(moves).jobs != []
    ensures var s := Run(moves); s.jobs[0].id in s.requests ==> s.requests[s.jobs[0].id].thread in s.threads
  {
    if Run(moves).jobs[0].id in Run(moves).requests {
      RequestHasThread(moves, Run(moves).jobs[0].id);
    }
  }

  /** The effect of an event on the in-flight turn before it is forwarded. */
  function WithInflight(s: State, t: ThreadId, event: SessionEvent): State
    requires t in s.threads
  {
    var turn := s.threads[t].turn;
    s.(threads := s.threads[t := s.threads[t].(
         turn := if event.AssistantMessage? then turn.(inflight := Turns.NextInflight(turn, Turns.Log(event)))
           else turn)])
  }

  /** Noting the text before forwarding the event is the same as after. */
  lemma SessionEventIsTurnStep(s: State, t: ThreadId, event: SessionEvent)
    requires t in s.threads
    ensures var s1 := WithInflight(s, t, event);
      var s2 := if Forwarded(event) then Protocol.Broadcast(s1, t, EventFrame(t, event)) else s1;
      if event.TurnEnd? then s1 == s else s2 == TurnStep(s, t, Turns.Log(event))
  {
    var s1 := WithInflight(s, t, event);
    if event.TurnEnd? {
      assert s1.threads == s.threads;
    } else if Forwarded(event) {
      NotedBeforeBroadcast(s, t, event);
    } else {
      assert s1.threads == TurnStep(s, t, Turns.Log(event)).threads;
    }
  }

  lemma NotedBeforeBroadcast(s: State, t: ThreadId, event: SessionEvent)
    requires t in s.threads && Forwarded(event) && !event.TurnEnd?
    ensures Protocol.Broadcast(WithInflight(s, t, event), t, EventFrame(t, event)) == TurnStep(s, t, Turns.Log(event))
  {
    var s1, s2 := WithInflight(s, t, event), TurnStep(s, t, Turns.Log(event));
    var b1 := Protocol.Broadcast(s1, t, EventFrame(t, event));
    OpenOnlySame(s, s1, s.threads[t].subscribers);
    assert b1.conns == s2.conns;
    assert b1.threads == s2.threads;
  }

  lemma {:induction false} OpenOnlySame(s: State, s1: State, cs: seq<ConnId>)
    requires s1.conns == s.conns
    ensures OpenOnly(s1, cs) == OpenOnly(s, cs)
  {
    if cs != [] {
      OpenOnlySame(s, s1, cs[..|cs| - 1]);
    }
  }

  lemma {:induction false} WithoutAbsent(ids: seq<ReqId>, r: ReqId)
    requires r !in ids
    ensures Without(ids, r) == ids
  {
    if ids != [] {
      WithoutAbsent(ids[..|ids| - 1], r);
    }
  }

  lemma BroadcastReaches(s: State, t: ThreadId, frame: Frame, conns: map<ConnId, Conn>)
    requires t in s.threads && conns.Keys == s.conns.Keys
    requires forall c | c in s.conns ::
      conns[c] == if c in s.threads[t].subscribers then Written(s.conns[c], frame) else s.conns[c]
    ensures conns == Protocol.Broadcast(s, t, frame).conns
  {
  }

  /** The threads once `c` has been dropped from every subscriber list. */
  function Unsubscribed(threads: map<ThreadId, Thread>, c: ConnId): map<ThreadId, Thread> {
    map t | t in threads :: threads[t].(subscribers := Without(threads[t].subscribers, c))
  }

  /** The rejection queued when `r` is withdrawn from `c`. */
  function Withdrawal(conns: map<ConnId, Conn>, r: ReqId, winner: Option<ConnId>, c: ConnId): seq<Job> {
    if c in conns && !conns[c].closed && winner != Some(c) && r in conns[c].outbound then [Job(c, r, Abandoned)] else []
  }

  lemma WithdrawalsNext(conns: map<ConnId, Conn>, r: ReqId, winner: Option<ConnId>, cs: seq<ConnId>, i: nat)
    requires i < |cs|
    ensures Withdrawals(conns, r, winner, cs[..i + 1])
      == Withdrawals(conns, r, winner, cs[..i]) + Withdrawal(conns, r, winner, cs[i])
  {
    assert cs[..i + 1][..i] == cs[..i];
  }

  /** The connections `conns`, where those in `cs` that are open and not the winner have been told. */
  ghost function ToldViews(conns: map<ConnId, Conn>, cs: seq<ConnId>, frame: Frame, winner: Option<ConnId>)
    : map<ConnId, Conn>
    requires frame.ResolvedFrame?
  {
    map c | c in conns :: if c in cs && !conns[c].closed && winner != Some(c) then ToldResolved(conns[c], frame)
      else conns[c]
  }

  lemma ToldNext(conns: map<ConnId, Conn>, cs: seq<ConnId>, i: nat, frame: Frame, winner: Option<ConnId>,
                 before: map<ConnId, Conn>, after: map<ConnId, Conn>)
    requires i < |cs| && Distinct(cs) && frame.ResolvedFrame? && before == ToldViews(conns, cs[..i], frame, winner)
    requires after.Keys == before.Keys
    requires forall d | d in before :: (after[d] ==
      if d == cs[i] && winner != Some(d) && !before[d].closed then ToldResolved(before[d], frame) else before[d])
    ensures after == ToldViews(conns, cs[..i + 1], frame, winner)
    ensures before.Keys == conns.Keys && (cs[i] in conns ==> before[cs[i]] == conns[cs[i]])
  {
    NextOf(cs, i);
    assert before.Keys == conns.Keys;
  }

  lemma NextOf(xs: seq<ConnId>, i: nat)
    requires i < |xs| && Distinct(xs)
    ensures xs[..i + 1][..i] == xs[..i] && xs[i] !in xs[..i]
    ensures forall x :: x in xs[..i + 1] <==> x in xs[..i] || x == xs[i]
  {
    assert xs[..i + 1] == xs[..i] + [xs[i]];
  }
}
