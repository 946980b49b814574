/** Turn notifications over whole runs of the bridge: alternation, and summaries equal to the folded log. */
module ProtocolTurns {
  import opened Wrappers
  import opened SessionLog
  import opened Protocol
  import JsonValue
  import ProtocolInvariant
  import Turns

  /** The turn input a move gives thread `t`. */
  function TurnMoved(s: State, m: Move, t: ThreadId): Option<Turns.Input> {
    match m
    case TurnInput(u, input) => if u == t && !input.Submit? then Some(input) else None
    case SubmitTurn(c, u, messageId, textOk, agentRunning, agentLive) =>
      if u == t && c in s.conns && Accepts(s, t, textOk, agentRunning, agentLive) then Some(Turns.Submit(messageId))
      else None
    case _ => None
  }

  function TurnAfter(s: State, m: Move, t: ThreadId): Turns.TurnState
    requires t in s.threads
  {
    match TurnMoved(s, m, t)
    case Some(input) => Turns.Advance(s.threads[t].turn, input)
    case None => s.threads[t].turn
  }

  /** The same threads with the same turns. */
  ghost predicate SameTurns(s: State, s': State) {
    s'.threads.Keys == s.threads.Keys && forall t | t in s.threads :: s'.threads[t].turn == s.threads[t].turn
  }

  lemma ResolveKeepsTurns(s: State, r: ReqId, resolvedBy: ResolvedBy, winner: Option<ConnId>, outcome: Outcome)
    requires r in s.requests && s.requests[r].thread in s.threads
    ensures SameTurns(s, Resolve(s, r, resolvedBy, winner, outcome))
  {
  }

  lemma DecidingKeepsTurns(s: State, m: Move)
    requires m.RunJob? || m.Abort? || m.Ask? || m.FireTimer? || m.Close?
    ensures SameTurns(s, Step(s, m))
  {
    if m.RunJob? && s.jobs != [] {
      var s1, job := s.(jobs := s.jobs[1..]), s.jobs[0];
      if job.id in s.requests && s.requests[job.id].thread in s.threads {
        ResolveKeepsTurns(s1, job.id, ByClient, Some(job.conn), OutcomeOf(job.reply));
      }
    } else if m.Abort? && m.id in s.requests && s.requests[m.id].thread in s.threads {
      ResolveKeepsTurns(s, m.id, ByCancellation, None, Cancelled);
    } else if m.Ask? && Owned(s, m.thread) {
      AskKeepsTurns(s, m.thread, m.kind, m.params, m.signal);
    } else if m.FireTimer? && s.timers != [] {
      TimerKeepsThreads(s);
    }
  }

  lemma TimerKeepsThreads(s: State)
    requires s.timers != []
    ensures FireTimerStep(s).threads == s.threads
  {
  }

  lemma AskKeepsTurns(s: State, t: ThreadId, kind: Kind, params: JsonValue.Value, signal: Signal)
    requires Owned(s, t)
    ensures SameTurns(s, AskStep(s, t, kind, params, signal))
  {
    var s1 := WithRequest(s, t, kind, params, signal);
    assert SameTurns(s, s1);
    ResolveKeepsTurns(s1, RequestName(s.seqNo + 1), ByCancellation, None, Cancelled);
  }

  lemma SubscribingKeepsTurns(s: State, m: Move, t: ThreadId)
    requires t in s.threads && Enabled(s, m)
    requires m.Connect? || m.StartThread? || m.Adopt? || m.Resume? || m.Touch? || m.Unsubscribe? || m.Answer?
             || m.AgentStatus? || m.AgentError?
    ensures t in Step(s, m).threads && Step(s, m).threads[t].turn == s.threads[t].turn
  {
  }

  lemma TurnMoves(s: State, m: Move, t: ThreadId)
    requires t in s.threads && (m.TurnInput? || m.SubmitTurn?)
    ensures t in Step(s, m).threads && Step(s, m).threads[t].turn == TurnAfter(s, m, t)
  {
    if m.thread in s.threads {
      if m.TurnInput? {
        TurnStepTurns(s, m.thread, m.input, t);
      } else if m.conn in s.conns {
        TurnStepTurns(Subscribed(s, m.conn, m.thread), m.thread, Turns.Submit(m.messageId), t);
      }
    }
  }

  lemma TurnStepTurns(s: State, u: ThreadId, input: Turns.Input, t: ThreadId)
    requires u in s.threads && t in s.threads
    ensures var s' := TurnStep(s, u, input);
      t in s'.threads && s'.threads[t].turn ==
        if u == t then Turns.Advance(s.threads[t].turn, input) else s.threads[t].turn
  {
  }

  lemma TurnsMove(s: State, m: Move, t: ThreadId)
    requires t in s.threads && Enabled(s, m)
    ensures t in Step(s, m).threads && Step(s, m).threads[t].turn == TurnAfter(s, m, t)
  {
    if m.TurnInput? || m.SubmitTurn? {
      TurnMoves(s, m, t);
    } else if m.RunJob? || m.Abort? || m.Ask? || m.FireTimer? || m.Close? {
      DecidingKeepsTurns(s, m);
    } else {
      SubscribingKeepsTurns(s, m, t);
    }
  }

  lemma ThreadsStartIdle(s: State, m: Move, t: ThreadId)
    requires t !in s.threads && t in Step(s, m).threads
    ensures Step(s, m).threads[t].turn == Turns.IDLE
  {
    if m.RunJob? || m.Abort? || m.Ask? || m.FireTimer? || m.Close? {
      DecidingKeepsTurns(s, m);
    } else if m.TurnInput? || m.SubmitTurn? {
      TurnsAddNoThread(s, m);
    }
  }

  lemma TurnsAddNoThread(s: State, m: Move)
    requires m.TurnInput? || m.SubmitTurn?
    ensures Step(s, m).threads.Keys == s.threads.Keys
  {
    if m.thread in s.threads {
      if m.TurnInput? {
        TurnStepThreads(s, m.thread, m.input);
      } else if m.conn in s.conns {
        TurnStepThreads(Subscribed(s, m.conn, m.thread), m.thread, Turns.Submit(m.messageId));
      }
    }
  }

  lemma TurnStepThreads(s: State, t: ThreadId, input: Turns.Input)
    requires t in s.threads
    ensures TurnStep(s, t, input).threads.Keys == s.threads.Keys
  {
  }

  function InputsStep(s: State, m: Move, t: ThreadId): seq<Turns.Input> {
    if t in s.threads
    then match TurnMoved(s, m, t) { case Some(input) => [input] case None => [] }
    else []
  }

  /** The turn inputs of thread `t` in a run. */
  function InputsOf(ms: seq<Move>, t: ThreadId): seq<Turns.Input> {
    if ms == [] then [] else InputsOf(ms[..|ms| - 1], t) + InputsStep(Run(ms[..|ms| - 1]), ms[|ms| - 1], t)
  }

  ghost predicate TurnIsRun(s: State, t: ThreadId, inputs: seq<Turns.Input>) {
    if t in s.threads then Turns.Legal(inputs) && s.threads[t].turn == Turns.Run(inputs) else inputs == []
  }

  lemma TurnIsRunStep(s: State, m: Move, t: ThreadId, inputs: seq<Turns.Input>)
    requires Enabled(s, m) && TurnIsRun(s, t, inputs)
    ensures TurnIsRun(Step(s, m), t, inputs + InputsStep(s, m, t))
  {
    if t in s.threads {
      TurnsMove(s, m, t);
      match TurnMoved(s, m, t)
      case Some(input) => Turns.RunAppend(inputs, input);
      case None => assert inputs + [] == inputs;
    } else if t in Step(s, m).threads {
      ThreadsStartIdle(s, m, t);
    }
  }

  /** A registered thread's turn state is the turn machine run on its inputs, and those inputs are legal. */
  lemma {:induction false} ThreadTurnIsRun(ms: seq<Move>, t: ThreadId)
    requires Legal(ms)
    ensures TurnIsRun(Run(ms), t, InputsOf(ms, t))
  {
    if ms != [] {
      ThreadTurnIsRun(ms[..|ms| - 1], t);
      TurnIsRunStep(Run(ms[..|ms| - 1]), ms[|ms| - 1], t, InputsOf(ms[..|ms| - 1], t));
    }
  }

  /** The turn notifications of a thread strictly alternate, and a start that timed out is never announced. */
  lemma TurnNotesAlternate(ms: seq<Move>, t: ThreadId)
    requires Legal(ms) && t in Run(ms).threads
    ensures var turn := Run(ms).threads[t].turn;
      && Turns.Alternates(turn.trace, Turns.CurrentTurn(turn))
      && forall m | m in turn.timedOut :: !Turns.Announced(turn.trace, m)
  {
    ThreadTurnIsRun(ms, t);
    Turns.RunInv(InputsOf(ms, t));
  }

  /**
   * A submission starts a turn exactly when its text is given, nothing is in flight, and the agent is idle and live.
   */
  lemma TurnStartsExactly(
      s: State, c: ConnId, t: ThreadId, messageId: string, textOk: bool, agentRunning: bool, agentLive: bool)
    requires c in s.conns && t in s.threads
    ensures var s' := Step(s, SubmitTurn(c, t, messageId, textOk, agentRunning, agentLive));
      && t in s'.threads
      && s'.threads[t].turn.inflight ==
         if textOk && !agentRunning && agentLive && s.threads[t].turn.inflight.None?
         then Some(Turns.Inflight(messageId, None, None, true)) else s.threads[t].turn.inflight
  {
    TurnMoves(s, SubmitTurn(c, t, messageId, textOk, agentRunning, agentLive), t);
  }

  /** Each note is sent, once and last, to exactly the thread's open subscribers. */
  lemma NotesReachSubscribers(s: State, t: ThreadId, input: Turns.Input, c: ConnId)
    requires t in s.threads && c in s.conns
    ensures var sent := s.conns[c].sent;
      var event := if input.Log? && Forwarded(input.event) then [EventFrame(t, input.event)] else [];
      var note := match Turns.NoteFor(s.threads[t].turn, input) { case Some(n) => [FrameOfNote(t, n)] case None => [] };
      TurnStep(s, t, input).conns[c].sent ==
        if c in s.threads[t].subscribers && IsOpen(s, c) then sent + event + note else sent
  {
    ProtocolInvariant.OpenOnlyIs(s, s.threads[t].subscribers);
  }

  lemma CompletionHeard(s: State, t: ThreadId, k: int, reason: Reason, c: ConnId)
    requires t in s.threads && Turns.CurrentTurn(s.threads[t].turn) == Some(k)
    requires c in s.conns && c in s.threads[t].subscribers && IsOpen(s, c)
    ensures var note := Turns.NoteFor(s.threads[t].turn, Turns.Log(TurnEnd(k, reason)));
      var s' := TurnStep(s, t, Turns.Log(TurnEnd(k, reason)));
      && note.Some? && note.value.Completed?
      && c in s'.conns && s'.conns[c].sent != []
      && s'.conns[c].sent[|s'.conns[c].sent| - 1] == CompletedFrame(t, note.value.summary)
  {
    NotesReachSubscribers(s, t, Turns.Log(TurnEnd(k, reason)), c);
  }

  /**
   * What every open subscriber hears when turn `k` ends is what `thread/read` folds from the log so far;
   * `earlier` is whatever the log held before the bridge registered the thread.
   */
  lemma CompletionMatchesLog(ms: seq<Move>, t: ThreadId, earlier: seq<SessionEvent>, k: int, reason: Reason, c: ConnId)
    requires var m := TurnInput(t, Turns.Log(TurnEnd(k, reason))); Legal(ms + [m])
    requires t in Run(ms).threads && Turns.CurrentTurn(Run(ms).threads[t].turn) == Some(k)
    requires Turns.TextsFollowOpening(InputsOf(ms, t), k) && TurnStart(k) in Turns.LogOf(InputsOf(ms, t))
    requires c in Run(ms).threads[t].subscribers && IsOpen(Run(ms), c)
    ensures var log := earlier + (Turns.LogOf(InputsOf(ms, t)) + [TurnEnd(k, reason)]);
      var s' := Run(ms + [TurnInput(t, Turns.Log(TurnEnd(k, reason)))]);
      && c in s'.conns && s'.conns[c].sent != []
      && var frame := s'.conns[c].sent[|s'.conns[c].sent| - 1];
      && frame.CompletedFrame? && frame.thread == t && frame.summary.turn == k
      && RecordOf(Fold(log), k)
        == Some(TurnRecord(k, frame.summary.status, Some(frame.summary.reason), frame.summary.finalMessage))
      && EndsAs(reason, frame.summary.status, frame.summary.error)
  {
    var m := TurnInput(t, Turns.Log(TurnEnd(k, reason)));
    RunTakesInput(ms, t, Turns.Log(TurnEnd(k, reason)));
    ThreadTurnIsRun(ms, t);
    CompletionTellsLog(Run(ms), t, InputsOf(ms, t), earlier, k, reason, c, Run(ms + [m]));
  }

  lemma RunTakesInput(ms: seq<Move>, t: ThreadId, input: Turns.Input)
    requires t in Run(ms).threads && !input.Submit? && Legal(ms + [TurnInput(t, input)])
    ensures Legal(ms) && Run(ms + [TurnInput(t, input)]) == TurnStep(Run(ms), t, input)
  {
    var m := TurnInput(t, input);
    assert (ms + [m])[..|ms|] == ms && (ms + [m])[|ms|] == m;
  }

  lemma CompletionTellsLog(
      s: State, t: ThreadId, inputs: seq<Turns.Input>, earlier: seq<SessionEvent>, k: int, reason: Reason, c: ConnId,
      s': State)
    requires t in s.threads && TurnIsRun(s, t, inputs) && Turns.CurrentTurn(s.threads[t].turn) == Some(k)
    requires Turns.TextsFollowOpening(inputs, k) && TurnStart(k) in Turns.LogOf(inputs)
    requires c in s.threads[t].subscribers && IsOpen(s, c) && s' == TurnStep(s, t, Turns.Log(TurnEnd(k, reason)))
    ensures var log := earlier + (Turns.LogOf(inputs) + [TurnEnd(k, reason)]);
      && c in s'.conns && s'.conns[c].sent != []
      && var frame := s'.conns[c].sent[|s'.conns[c].sent| - 1];
      && frame.CompletedFrame? && frame.thread == t && frame.summary.turn == k
      && RecordOf(Fold(log), k)
        == Some(TurnRecord(k, frame.summary.status, Some(frame.summary.reason), frame.summary.finalMessage))
      && EndsAs(reason, frame.summary.status, frame.summary.error)
  {
    SummaryMatchesLog(inputs, earlier, k, reason);
    CompletionHeard(s, t, k, reason, c);
  }

  lemma SummaryMatchesLog(inputs: seq<Turns.Input>, earlier: seq<SessionEvent>, k: int, reason: Reason)
    requires Turns.Legal(inputs) && Turns.CurrentTurn(Turns.Run(inputs)) == Some(k)
    requires Turns.TextsFollowOpening(inputs, k) && TurnStart(k) in Turns.LogOf(inputs)
    ensures var note := Turns.NoteFor(Turns.Run(inputs), Turns.Log(TurnEnd(k, reason)));
      && note.Some? && note.value.Completed? && note.value.summary.turn == k
      && RecordOf(Fold(earlier + (Turns.LogOf(inputs) + [TurnEnd(k, reason)])), k)
         == Some(TurnRecord(k, note.value.summary.status, Some(note.value.summary.reason),
           note.value.summary.finalMessage))
      && EndsAs(reason, note.value.summary.status, note.value.summary.error)
  {
    Turns.RunAppend(inputs, Turns.Log(TurnEnd(k, reason)));
    Turns.OnlineEqualsOffline(inputs, k, reason);
    FoldIgnoresEarlier(earlier, Turns.LogOf(inputs) + [TurnEnd(k, reason)], k);
  }
}
