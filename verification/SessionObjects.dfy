/**
 * The emitter and the session as objects that update their fields, each method equal to its step of the wait machine.
 */
module SessionObjects {
  import opened Wrappers
  import opened JsonValue
  import opened RequestIds
  import opened Normalize
  import opened Machine = Session
  import opened Selection
  import SessionRuns
  import Transport

  class Emitter {
    const hasLog: bool
    var stdout: seq<Line>
    var log: seq<Entry>
    var unlogged: nat
    var suppress: bool
    var handled: nat
    var during: nat

    ghost function View(): Out
      reads this
    {
      Out(stdout, log, unlogged, suppress, handled, during)
    }

    constructor (hasLog: bool, unlogged: nat)
      ensures this.hasLog == hasLog && View() == Out([], [], unlogged, false, 0, 0)
    {
      this.hasLog := hasLog;
      stdout, log, this.unlogged, suppress, handled, during := [], [], unlogged, false, 0, 0;
    }

    method AppendToLog(line: Line)
      modifies this`log
      ensures View() == WriteLog(hasLog, old(View()), line)
    {
      if suppress {
        return;
      }
      if hasLog {
        log := log + [Entry(line, during)];
      }
    }

    method EmitLine(line: Line)
      modifies this`stdout, this`log
      ensures View() == Emit(hasLog, old(View()), line)
    {
      stdout := stdout + [line];
      AppendToLog(line);
    }

    /** Silence the log while unlogged events remain. */
    method OpenEvent()
      modifies this`suppress, this`unlogged, this`handled, this`during
      ensures View() == old(View()).(suppress := old(unlogged) > 0,
                                     unlogged := if old(unlogged) > 0 then old(unlogged) - 1 else 0,
                                     handled := old(handled) + 1, during := old(handled) + 1)
    {
      suppress := unlogged > 0;
      unlogged := if unlogged > 0 then unlogged - 1 else 0;
      handled, during := handled + 1, handled + 1;
    }

    method CloseEvent()
      modifies this`suppress, this`during
      ensures View() == old(View()).(suppress := false, during := 0)
    {
      suppress, during := false, 0;
    }

    method Log(value: Value)
      modifies this`log
      ensures View() == WriteLog(hasLog, old(View()), Note(value))
    {
      AppendToLog(Note(value));
    }
  }

  class Session {
    const cfg: Config
    const feed: Feed
    const out: Emitter
    var turnId: Option<string>
    var finalMessage: string
    var sent: seq<Sent>
    var unsubscribed: seq<string>
    var taken: nat

    ghost predicate Valid()
      reads this
    {
      out.hasLog == cfg.hasLog
    }

    /** The session's state together with the locals its loops pass around. */
    ghost function View(reply: Option<PendingReply>, lastItem: nat): State
      reads this, out
    {
      State(turnId, finalMessage, out.View(), sent, unsubscribed, taken, reply, lastItem)
    }

    constructor (cfg: Config, feed: Feed, out: Emitter)
      requires out.hasLog == cfg.hasLog
      ensures Valid() && this.cfg == cfg && this.feed == feed && this.out == out
      ensures turnId == None && finalMessage == "" && sent == [] && unsubscribed == [] && taken == 0
    {
      this.cfg, this.feed, this.out := cfg, feed, out;
      turnId, finalMessage, sent, unsubscribed, taken := None, "", [], [], 0;
    }

    // ---- handling ----

    method EmitTurn(status: string, fields: Value) returns (code: int)
      requires Valid()
      modifies out
      ensures out.View() == Emit(cfg.hasLog, old(out.View()),
        TurnLine(status, cfg.threadId, turnId, finalMessage, fields))
      ensures code == TurnOutcome(status)
    {
      out.EmitLine(TurnLine(status, cfg.threadId, turnId, finalMessage, fields));
      code := if status == "completed" then EXIT_COMPLETED else EXIT_TURN_NOT_COMPLETED;
    }

    /** Answer the request found at `frame`; fails, having sent nothing, when the payload has no body for it. */
    method AnswerRequest(id: Value, name: string, payload: Payload, frame: nat, ghost lastItem: nat)
      returns (failure: Option<Failure>)
      requires Valid()
      modifies this`sent, out
      ensures var body := BodyOf(cfg.backend, name, payload);
        if body.None? then failure == Some(NoDecisionFor(name)) && View(None, lastItem) == old(View(None, lastItem))
        else
          && failure == None
          && View(None, lastItem) == Answered(cfg, old(View(None, lastItem)), id, name, body.value, frame)
    {
      var body: Value;
      match payload {
        case ResultJson(value) => body := value;
        case Decided(decision) =>
          var response := DecisionResponse(cfg.backend, name, decision);
          if response.None? {
            return Some(NoDecisionFor(name));
          }
          body := response.value;
      }
      sent := sent + [Sent(Result(id, body), frame)];
      out.Log(RepliedNote(cfg, id, name, body));
      failure := None;
    }

    method HandleRequestEvent(id: Value, name: string, params: Value, reply: Option<PendingReply>, lastItem: nat,
      now: nat)
      returns (reply': Option<PendingReply>, lastItem': nat, step: Step)
      requires Valid() && taken > 0
      modifies this`sent, out
      ensures (View(reply', lastItem'), step) == HandleRequest(cfg, old(View(reply, lastItem)), id, name, params, now)
    {
      var policy := PolicyOf(cfg.backend);
      reply', lastItem', step := reply, lastItem, Continue;
      if reply.Some? && SameRequestId(cfg.backend, reply.value.id, id) {
        reply' := None;
        var failure := AnswerRequest(id, name, reply.value.payload, taken - 1, lastItem);
        if failure.Some? {
          step := Fail(failure.value);
          return;
        }
        if policy.requestIsProgress {
          lastItem' := now;
        }
        return;
      }
      if reply.Some? && policy.isolateSelectedRequest {
        return;
      }
      if cfg.opts.autoDecline {
        sent := sent + [Sent(Refusal(id), taken - 1)];
        out.Log(DeclinedNote(cfg, id, name));
        if policy.requestIsProgress {
          lastItem' := now;
        }
        return;
      }
      out.EmitLine(RequestLine(params.Get("threadId").GetOr(Str(cfg.threadId)), id, name, params));
      if !cfg.opts.follow {
        step := Exit(EXIT_REQUEST_PENDING);
      }
    }

    method HandleOneEvent(event: Event, reply: Option<PendingReply>, lastItem: nat, now: nat)
      returns (reply': Option<PendingReply>, lastItem': nat, step: Step)
      requires Valid() && taken > 0
      modifies this`turnId, this`finalMessage, this`sent, out
      ensures (View(reply', lastItem'), step) == HandleEvent(cfg, old(View(reply, lastItem)), event, now)
    {
      reply', lastItem', step := reply, lastItem, Continue;
      match event {
        case Ignore =>
        case Closed(reason) =>
          out.EmitLine(ErrorLine(SocketClosed(reason)));
          step := Exit(EXIT_ERROR);
        case Update(turn, text, progress, log) =>
          if turn.Some? {
            turnId := turn;
          }
          if text.Some? {
            finalMessage := text.value;
          }
          if progress {
            lastItem' := now;
          }
          if log.Some? {
            out.Log(log.value);
          }
        case TurnCompleted(turn, status, text, fields) =>
          if turn.Some? {
            turnId := turn;
          }
          if text.Some? {
            finalMessage := text.value;
          }
          var code := EmitTurn(status, fields);
          step := Exit(code);
        case RequestResolved(id, note) =>
          out.Log(note);
          if reply.Some? && SameRequestId(cfg.backend, reply.value.id, id) {
            step := Fail(AlreadyResolved);
          }
        case Request(id, name, params, _) =>
          reply', lastItem', step := HandleRequestEvent(id, name, params, reply, lastItem, now);
      }
    }

    /** Handle an event, with the log silenced while unlogged events remain. */
    method HandleLogged(event: Event, reply: Option<PendingReply>, lastItem: nat, now: nat)
      returns (reply': Option<PendingReply>, lastItem': nat, step: Step)
      requires Valid() && taken > 0
      modifies this`turnId, this`finalMessage, this`sent, out
      ensures (View(reply', lastItem'), step) == Handle(cfg, old(View(reply, lastItem)), event, now)
    {
      out.OpenEvent();
      reply', lastItem', step := HandleOneEvent(event, reply, lastItem, now);
      out.CloseEvent();
    }

    /** Normalize, then handle; normalizing may send Codex an unsubscribe request. */
    method ProcessEvent(raw: Transport.Event, reply: Option<PendingReply>, lastItem: nat, now: nat)
      returns (reply': Option<PendingReply>, lastItem': nat, step: Step)
      requires Valid() && taken > 0
      modifies this`turnId, this`finalMessage, this`sent, this`unsubscribed, out
      ensures (View(reply', lastItem'), step) == Process(cfg, old(View(reply, lastItem)), raw, now)
    {
      var context := Context(cfg.threadId, turnId, reply.Some?);
      var sub := Unsubscribes(cfg.backend, raw, context);
      if sub.Some? {
        unsubscribed := unsubscribed + [sub.value];
      }
      var event := Normalized(cfg.backend, raw, context);
      if event.Err? {
        return reply, lastItem, Fail(event.error);
      }
      reply', lastItem', step := HandleLogged(event.value, reply, lastItem, now);
    }

    method ReactTo(wake: Wake, reply: Option<PendingReply>, lastItem: nat, now: nat)
      returns (reply': Option<PendingReply>, lastItem': nat, step: Step)
      requires Valid()
      modifies this, out
      ensures (View(reply', lastItem'), step) == React(cfg, old(View(reply, lastItem)), wake, now)
    {
      reply', lastItem' := reply, lastItem;
      match wake {
        case GotEvent(raw) =>
          taken := taken + 1;
          reply', lastItem', step := ProcessEvent(raw, reply, lastItem, now);
        case StreamEnd =>
          out.EmitLine(ErrorLine(StreamEnded));
          step := Exit(EXIT_ERROR);
        case ReplyDue =>
          out.EmitLine(ErrorLine(NotRedelivered(if reply.Some? then reply.value.id else Null)));
          step := Exit(EXIT_ERROR);
        case StallDue =>
          out.EmitLine(StalledLine(cfg.threadId, turnId, cfg.opts.stallSecs, finalMessage));
          if cfg.opts.follow {
            lastItem' := now;
            step := Continue;
          } else {
            step := Exit(EXIT_STALLED);
          }
        case TimeoutDue =>
          out.EmitLine(TimeoutLine(cfg.threadId, turnId, cfg.opts.timeoutSecs, finalMessage));
          step := Exit(EXIT_STALLED);
      }
    }

    // ---- the wait loop ----

    /** One poll of the select, and the handling of what it yields. */
    method PollOnce(tick: Tick, reply: Option<PendingReply>, lastItem: nat, started: nat, round: nat,
      ghost trace: seq<Happening>)
      returns (end: Option<End>, reply': Option<PendingReply>, lastItem': nat, round': nat,
        ghost trace': seq<Happening>)
      requires Valid()
      modifies this, out
      ensures WaitStep(cfg, feed, old(Wait(View(reply, lastItem), started, round, None, trace)), tick)
           == Wait(View(reply', lastItem'), started, round', end, trace')
    {
      end, reply', lastItem', round', trace' := None, reply, lastItem, round, trace;
      var wake := NextWake(
        PolicyOf(cfg.backend).deadlinesFirst,
        Deadline(lastItem, cfg.opts.stallSecs, round),
        Deadline(started, cfg.opts.timeoutSecs, round),
        if reply.Some? then reply.value.deadline else round + NEVER,
        tick.poll,
        Recv(feed, taken, tick.poll));
      if wake.Some? {
        ghost var before, sentBefore := taken, |sent|;
        var step: Step;
        reply', lastItem', step := ReactTo(wake.value, reply, lastItem, tick.now);
        trace' := trace + [Happening(tick.poll, tick.now, wake.value, before, |sent| > sentBefore)];
        end, round' := EndOf(step), tick.now;
      }
    }

    /** `end` stays empty when the polls run out before the loop exits. */
    method WaitLoop(pending: Option<PendingReply>, started: nat, ticks: seq<Tick>)
      returns (end: Option<End>, reply: Option<PendingReply>, lastItem: nat, ghost trace: seq<Happening>)
      requires Valid()
      modifies this, out
      ensures var w := WaitRun(cfg, feed, Begin(old(View(pending, 0)), started), ticks);
        View(reply, lastItem) == w.s && end == w.end && trace == w.trace
    {
      ghost var start := Begin(View(pending, 0), started);
      end, reply, lastItem, trace := None, pending, started, [];
      var round: nat, n: nat := started, 0;
      while n < |ticks| && end.None?
        invariant n <= |ticks|
        invariant WaitRun(cfg, feed, start, ticks[..n]) == Wait(View(reply, lastItem), started, round, end, trace)
      {
        assert ticks[..n + 1][..n] == ticks[..n];
        end, reply, lastItem, round, trace := PollOnce(ticks[n], reply, lastItem, started, round, trace);
        n := n + 1;
      }
      StaysEnded(cfg, feed, start, ticks, n);
    }

    // ---- the implicit reply ----

    /** Whether a request of the same id has been seen. */
    method IsKnown(requests: seq<Candidate>, id: Value) returns (known: bool)
      ensures known == Known(cfg.backend, requests, id)
    {
      for i := 0 to |requests|
        invariant forall j | 0 <= j < i :: !SameRequestId(cfg.backend, requests[j].id, id)
      {
        if SameRequestId(cfg.backend, requests[i].id, id) {
          return true;
        }
      }
      known := false;
    }

    /** An event of the selection window that is neither set aside nor collected is handled at once. */
    method HandleInWindow(raw: Transport.Event, ghost v: Window, lastItem: nat, now: nat)
      returns (resolution: Option<Value>, failure: Option<Failure>, lastItem': nat)
      requires Valid() && v.s == View(None, lastItem) && v.failure.None? && !DeferDuringSelection(raw)
      requires var event := Normalized(cfg.backend, raw, Context(cfg.threadId, turnId, false));
        event.Ok? ==> !event.value.Request? && !event.value.Closed?
      modifies this, out
      ensures Examine(cfg, v, raw, now)
           == v.(s := View(None, lastItem'), failure := failure,
                 resolved := if resolution.Some? then v.resolved + [resolution.value] else v.resolved)
    {
      ExamineHandled(cfg, v, raw, now);
      SessionRuns.ReplyStaysNone(cfg, v.s.(taken := v.s.taken + 1), raw, now);
      taken := taken + 1;
      assert View(None, lastItem) == v.s.(taken := v.s.taken + 1);
      var event := Normalized(cfg.backend, raw, Context(cfg.threadId, turnId, false));
      resolution := if event.Ok? && event.value.RequestResolved? then Some(event.value.id) else None;
      var reply, step;
      reply, lastItem', step := ProcessEvent(raw, None, lastItem, now);
      failure := if step.Fail? then Some(step.failure) else None;
    }

    /** Look at one event of the selection window: set it aside, collect it, or handle it. */
    method ExamineEvent(
      raw: Transport.Event, requests: seq<Candidate>, deferred: seq<Transport.Event>, resolved: seq<Value>,
      ghost remaining: Option<nat>, ghost deadline: Option<nat>, lastItem: nat, now: nat)
      returns (requests': seq<Candidate>, deferred': seq<Transport.Event>, resolved': seq<Value>,
               failure: Option<Failure>, lastItem': nat)
      requires Valid()
      modifies this, out
      ensures
        Window(View(None, lastItem'), requests', deferred', resolved', remaining, deadline, failure)
        == Examine(cfg, old(Window(View(None, lastItem), requests, deferred, resolved, remaining, deadline, None)),
                   raw, now)
    {
      requests', deferred', resolved', failure, lastItem' := requests, deferred, resolved, None, lastItem;
      ghost var v := Window(View(None, lastItem), requests, deferred, resolved, remaining, deadline, None);
      if DeferDuringSelection(raw) {
        taken := taken + 1;
        deferred' := deferred + [raw];
        return;
      }
      var event := Normalized(cfg.backend, raw, Context(cfg.threadId, turnId, false));
      if event.Ok? && event.value.Request? {
        ExamineCollects(cfg, v, raw, now);
        taken := taken + 1;
        var Request(id, name, _, thread) := event.value;
        var known := IsKnown(requests, id);
        if !(thread.Some? && thread.value != cfg.threadId) && !known {
          requests' := requests + [Candidate(id, name, taken - 1)];
        }
      } else if event.Ok? && event.value.Closed? {
        taken := taken + 1;
        failure := Some(SocketClosed(event.value.reason));
      } else {
        var resolution;
        resolution, failure, lastItem' := HandleInWindow(raw, v, lastItem, now);
        resolved' := if resolution.Some? then resolved + [resolution.value] else resolved;
      }
    }

    /** One turn of the collecting loop: what to look at next, if anything, and then looking at it. */
    method CollectOnce(
      until: nat, tick: Tick, requests: seq<Candidate>, deferred: seq<Transport.Event>, resolved: seq<Value>,
      remaining: Option<nat>, ghost deadline: Option<nat>, lastItem: nat)
      returns (requests': seq<Candidate>, deferred': seq<Transport.Event>, resolved': seq<Value>,
               remaining': Option<nat>, ghost deadline': Option<nat>, failure: Option<Failure>, lastItem': nat)
      requires Valid() && remaining != Some(0)
      modifies this, out
      ensures
        Window(View(None, lastItem'), requests', deferred', resolved', remaining', deadline', failure)
        == WindowStep(cfg, feed, until,
                      old(Window(View(None, lastItem), requests, deferred, resolved, remaining, deadline, None)), tick)
    {
      requests', deferred', resolved', remaining', deadline', failure, lastItem' :=
        requests, deferred, resolved, remaining, deadline, None, lastItem;
      var wake: Option<Wake> := None;
      if remaining.Some? {
        remaining' := Some(remaining.value - 1);
        wake := if taken < |feed.arrivals| then Some(GotEvent(feed.arrivals[taken].raw)) else Some(StreamEnd);
      } else if until <= tick.poll {
        remaining', deadline' := Some(QueuedUpTo(feed, taken, tick.poll) - taken), Some(tick.poll);
      } else {
        wake := Recv(feed, taken, tick.poll);
      }
      if wake.Some? && wake.value.GotEvent? {
        requests', deferred', resolved', failure, lastItem' :=
          ExamineEvent(wake.value.raw, requests, deferred, resolved, remaining', deadline', lastItem, tick.now);
      } else if wake.Some? {
        failure := Some(StreamEnded);
      }
    }

    /** The collecting loop: the ten-second deadline first, then a drain of exactly what was queued at it. */
    method CollectRequests(started: nat, window: seq<Tick>)
      returns (requests: seq<Candidate>, deferred: seq<Transport.Event>, resolved: seq<Value>, remaining: Option<nat>,
               ghost deadline: Option<nat>, failure: Option<Failure>, lastItem: nat)
      requires Valid()
      modifies this, out
      ensures WindowRun(cfg, feed, old(View(None, 0)), started, window)
           == Window(View(None, lastItem), requests, deferred, resolved, remaining, deadline, failure)
    {
      ghost var start := View(None, 0);
      requests, deferred, resolved, remaining, deadline, failure, lastItem := [], [], [], None, None, None, started;
      for n := 0 to |window|
        invariant WindowRun(cfg, feed, start, started, window[..n])
               == Window(View(None, lastItem), requests, deferred, resolved, remaining, deadline, failure)
      {
        assert window[..n + 1][..n] == window[..n];
        if failure.None? && remaining != Some(0) {
          requests, deferred, resolved, remaining, deadline, failure, lastItem :=
            CollectOnce(started + REPLY_REDELIVERY_MS, window[n], requests, deferred, resolved, remaining, deadline,
              lastItem);
        }
      }
      assert window[..|window|] == window;
    }

    /** Normalize and handle the deferred completions in order, up to the first that ends the command. */
    method ReplayDeferred(deferred: seq<Transport.Event>, lastItem: nat, now: nat) returns (lastItem': nat, step: Step)
      requires Valid() && (deferred != [] ==> taken > 0)
      modifies this, out
      ensures (View(None, lastItem'), step) == Replay(cfg, old(View(None, lastItem)), deferred, now)
    {
      ghost var start := View(None, lastItem);
      lastItem', step := lastItem, Continue;
      var n := 0;
      while n < |deferred| && step.Continue?
        invariant n <= |deferred|
        invariant (View(None, lastItem'), step) == Replay(cfg, start, deferred[..n], now)
      {
        assert deferred[..n + 1][..n] == deferred[..n];
        SessionRuns.ReplyStaysNone(cfg, View(None, lastItem'), deferred[n], now);
        var reply;
        reply, lastItem', step := ProcessEvent(deferred[n], None, lastItem', now);
        n := n + 1;
      }
      ReplayStays(cfg, start, deferred, now, n);
    }

    /** The implicit reply after subscribing: collect, answer the only request, replay, then wait. */
    method ReplyToOnlyRequest(payload: Payload, started: nat, window: seq<Tick>, resumed: nat, ticks: seq<Tick>)
      returns (end: Option<End>, ghost reply: Option<PendingReply>, ghost lastItem: nat)
      requires Valid()
      modifies this, out
      ensures var w := ReplyRun(cfg, feed, old(View(None, 0)), payload, started, window, resumed, ticks);
        w.end == end && w.s == View(reply, lastItem)
    {
      var requests, deferred, resolved, remaining, failure, collectedAt;
      ghost var deadline;
      requests, deferred, resolved, remaining, deadline, failure, collectedAt := CollectRequests(started, window);
      ghost var v := Window(View(None, collectedAt), requests, deferred, resolved, remaining, deadline, failure);
      end, reply, lastItem := None, None, collectedAt;
      if failure.Some? {
        end := Some(Failed(failure.value));
        return;
      }
      if remaining != Some(0) {
        return;
      }
      if |requests| == 0 {
        end := Some(Failed(NothingRedelivered));
        return;
      }
      if |requests| > 1 {
        end := Some(Failed(SeveralRedelivered(|requests|)));
        return;
      }
      var request := requests[0];
      if AmongIds(cfg.backend, resolved, request.id) {
        end := Some(Failed(SelectedResolved(request.id)));
        return;
      }
      failure := AnswerRequest(request.id, request.name, payload, request.frame, collectedAt);
      if failure.Some? {
        end := Some(Failed(failure.value));
        return;
      }
      var replayedAt, step := ReplayDeferred(deferred, collectedAt, resumed);
      if !step.Continue? {
        end, lastItem := EndOf(step), replayedAt;
        return;
      }
      var pending, itemAt;
      ghost var trace;
      end, pending, itemAt, trace := WaitLoop(None, resumed, ticks);
      reply, lastItem := pending, itemAt;
    }
  }

  /** A request in the window is collected when it is of this thread and not known yet. */
  lemma ExamineCollects(cfg: Config, v: Window, raw: Transport.Event, now: nat)
    requires !DeferDuringSelection(raw)
    requires var event := Normalized(cfg.backend, raw, ContextOf(cfg, v.s.(taken := v.s.taken + 1)));
      event.Ok? && event.value.Request?
    ensures var s := v.s.(taken := v.s.taken + 1);
      var event := Normalized(cfg.backend, raw, ContextOf(cfg, s)).value;
      var other := event.thread.Some? && event.thread.value != cfg.threadId;
      Examine(cfg, v, raw, now) ==
        if other || Known(cfg.backend, v.requests, event.id) then v.(s := s)
        else v.(s := s, requests := v.requests + [Candidate(event.id, event.name, v.s.taken)])
  {
  }

  /** What is neither set aside nor normalized to a request or a closing is processed as in the wait loop. */
  lemma ExamineHandled(cfg: Config, v: Window, raw: Transport.Event, now: nat)
    requires v.failure.None? && !DeferDuringSelection(raw)
    requires var event := Normalized(cfg.backend, raw, ContextOf(cfg, v.s.(taken := v.s.taken + 1)));
      event.Ok? ==> !event.value.Request? && !event.value.Closed?
    ensures var s := v.s.(taken := v.s.taken + 1);
      var event := Normalized(cfg.backend, raw, ContextOf(cfg, s));
      var (s1, step) := Process(cfg, s, raw, now);
      Examine(cfg, v, raw, now)
      == v.(s := s1, failure := if step.Fail? then Some(step.failure) else None,
            resolved := if event.Ok? && event.value.RequestResolved? then v.resolved + [event.value.id] else v.resolved)
  {
    var s := v.s.(taken := v.s.taken + 1);
    var event := Normalized(cfg.backend, raw, ContextOf(cfg, s));
    if event.Ok? {
      assert Process(cfg, s, raw, now) == Handle(cfg, WithUnsubscribe(cfg, s, raw), event.value, now);
    }
  }

  lemma {:induction false} ReplayStays(cfg: Config, s: State, deferred: seq<Transport.Event>, now: nat, n: nat)
    requires (deferred != [] ==> s.taken > 0) && n <= |deferred|
    requires n < |deferred| ==> !Replay(cfg, s, deferred[..n], now).1.Continue?
    ensures Replay(cfg, s, deferred, now) == Replay(cfg, s, deferred[..n], now)
  {
    if n < |deferred| {
      assert deferred[..|deferred| - 1][..n] == deferred[..n];
      ReplayStays(cfg, s, deferred[..|deferred| - 1], now, n);
    } else {
      assert deferred[..n] == deferred;
    }
  }

  lemma {:induction false} StaysEnded(cfg: Config, feed: Feed, w: Wait, ticks: seq<Tick>, n: nat)
    requires n <= |ticks| && (n < |ticks| ==> WaitRun(cfg, feed, w, ticks[..n]).end.Some?)
    ensures WaitRun(cfg, feed, w, ticks) == WaitRun(cfg, feed, w, ticks[..n])
  {
    if n < |ticks| {
      assert ticks[..|ticks| - 1][..n] == ticks[..n];
      StaysEnded(cfg, feed, w, ticks[..|ticks| - 1], n);
    } else {
      assert ticks[..n] == ticks;
    }
  }
}
