/** How each restore task ends, read off the answers dsh gave it, and what every caller of it is told. */
module ResumeCourses {
  import opened Wrappers
  import opened Resumes

  /** What dsh has answered a task so far: the header and whether an agent is live, the preset, the resume. */
  datatype Course = Course(stat: Option<(Option<Header>, bool)>, preset: Option<bool>, agent: Option<bool>)

  const NOT_YET := Course(None, None, None)

  /** The header allows restoring: it is no subagent's and has a cwd. */
  predicate Restorable(c: Course) {
    c.stat.Some? && c.stat.value.0.Some? && !c.stat.value.0.value.subagent && c.stat.value.0.value.cwd.Some?
  }

  /** The agent has to be resumed: none was live. */
  predicate IsCold(c: Course) { Restorable(c) && !c.stat.value.1 }

  /** The next answer to a task: each question is asked once, and only when the one before allows it. */
  function Answered(c: Course, m: Move, k: nat): Course {
    match m
    case StatDone(j, header, live) => if j == k && c.stat.None? then c.(stat := Some((header, live))) else c
    case PresetDone(j, usable) =>
      if j == k && IsCold(c) && c.preset.None? then c.(preset := Some(usable)) else c
    case AgentDone(j, resumed) =>
      if j == k && c.preset == Some(true) && c.agent.None? then c.(agent := Some(resumed)) else c
    case _ => c
  }

  /** The answers given to task `k` since it was started. */
  function CourseOf(ms: seq<Move>, k: nat): Course {
    if ms == [] then NOT_YET
    else
      var init := ms[..|ms| - 1];
      if k < |Run(init).tasks| then Answered(CourseOf(init, k), ms[|ms| - 1], k) else NOT_YET
  }

  /** The task has succeeded: its thread was live, or the preset was usable and dsh resumed the agent. */
  predicate Succeeds(c: Course) {
    Restorable(c) && (c.stat.value.1 || (c.preset == Some(true) && c.agent == Some(true)))
  }

  /** Which error each refusal gives. */
  function Refusal(c: Course): Option<string> {
    if c.stat.Some? && c.stat.value.0.None? then Some("thread_not_found")
    else if c.stat.Some? && !Restorable(c) then Some("not_resumable")
    else if c.preset == Some(false) then Some("internal")
    else if c.agent == Some(false) then Some("not_resumable")
    else None
  }

  /** The error a stage is settled with. */
  function RefusedWith(stage: Stage): Option<string> {
    if stage.Settled? && stage.result.Err? then Some(stage.result.error) else None
  }

  /** Questions are asked in turn, and a preset and a resume only for a cold thread. */
  predicate InTurn(c: Course) {
    && (c.preset.Some? ==> IsCold(c))
    && (c.agent.Some? ==> c.preset == Some(true))
  }

  /** Where a task stands is what its answers say. */
  ghost predicate Stands(task: Task, c: Course) {
    && InTurn(c)
    && (task.stage.Settled? && task.stage.result.Ok? <==> Succeeds(c))
    && RefusedWith(task.stage) == Refusal(c)
    && (task.stage.AwaitStat? <==> c.stat.None?)
    && (task.stage.AwaitPreset? <==> IsCold(c) && c.preset.None?)
    && (task.stage.AwaitAgent? <==> c.preset == Some(true) && c.agent.None?)
  }

  /** Whether a move is an answer to task `k`. */
  predicate IsAnswerTo(m: Move, k: nat) {
    (m.StatDone? || m.PresetDone? || m.AgentDone?) && m.task == k
  }

  lemma OtherMovesKeep(s: State, m: Move, k: nat)
    requires k < |s.tasks| && !IsAnswerTo(m, k)
    ensures k < |Step(s, m).tasks|
    ensures Step(s, m).tasks[k].thread == s.tasks[k].thread && Step(s, m).tasks[k].stage == s.tasks[k].stage
    ensures s.tasks[k].cleaned ==> Step(s, m).tasks[k].cleaned
  {
  }

  lemma StatStands(s: State, k: nat, header: Option<Header>, live: bool, c: Course)
    requires k < |s.tasks| && Stands(s.tasks[k], c)
    ensures var s' := Step(s, StatDone(k, header, live));
      && k < |s'.tasks| && s'.tasks[k].thread == s.tasks[k].thread
      && Stands(s'.tasks[k], Answered(c, StatDone(k, header, live), k))
  {
    if At(s, k, AwaitStat) {
      var s' := StatStep(s, k, header, live);
      assert Step(s, StatDone(k, header, live)) == s';
      StatSettles(s.tasks[k], s'.tasks[k], header, live, c);
    }
  }

  /** The stage a stat leads to is the one its answer stands for. */
  lemma StatSettles(task: Task, task': Task, header: Option<Header>, live: bool, c: Course)
    requires Stands(task, c) && task.stage.AwaitStat?
    requires match header
      case None => task'.stage == Settled(Err("thread_not_found"))
      case Some(h) =>
        if h.subagent || h.cwd.None? then task'.stage == Settled(Err("not_resumable"))
        else if live then task'.stage.Settled? && task'.stage.result.Ok?
        else task'.stage == AwaitPreset
    ensures Stands(task', c.(stat := Some((header, live))))
  {
  }

  lemma PresetStands(s: State, k: nat, usable: bool, c: Course)
    requires k < |s.tasks| && Stands(s.tasks[k], c)
    ensures var s' := Step(s, PresetDone(k, usable));
      && k < |s'.tasks| && s'.tasks[k].thread == s.tasks[k].thread
      && Stands(s'.tasks[k], Answered(c, PresetDone(k, usable), k))
  {
  }

  lemma AgentStands(s: State, k: nat, resumed: bool, c: Course)
    requires k < |s.tasks| && Stands(s.tasks[k], c)
    ensures var s' := Step(s, AgentDone(k, resumed));
      && k < |s'.tasks| && s'.tasks[k].thread == s.tasks[k].thread
      && Stands(s'.tasks[k], Answered(c, AgentDone(k, resumed), k))
  {
  }

  lemma StandsNext(s: State, m: Move, k: nat, c: Course)
    requires k < |s.tasks| && Stands(s.tasks[k], c)
    ensures k < |Step(s, m).tasks| && Step(s, m).tasks[k].thread == s.tasks[k].thread
    ensures Stands(Step(s, m).tasks[k], Answered(c, m, k))
  {
    if !IsAnswerTo(m, k) {
      OtherMovesKeep(s, m, k);
      assert Answered(c, m, k) == c;
    } else if m.StatDone? {
      StatStands(s, k, m.header, m.live, c);
    } else if m.PresetDone? {
      PresetStands(s, k, m.usable, c);
    } else {
      AgentStands(s, k, m.resumed, c);
    }
  }

  lemma NewTaskStands(s: State, m: Move, k: nat)
    requires |s.tasks| <= k < |Step(s, m).tasks|
    ensures Step(s, m).tasks[k].stage == AwaitStat && Stands(Step(s, m).tasks[k], NOT_YET)
  {
    assert m.Call?;
  }

  lemma {:induction false} TasksStand(ms: seq<Move>, k: nat)
    requires k < |Run(ms).tasks|
    ensures Stands(Run(ms).tasks[k], CourseOf(ms, k))
  {
    var init, m := ms[..|ms| - 1], ms[|ms| - 1];
    if k < |Run(init).tasks| {
      TasksStand(init, k);
      StandsNext(Run(init), m, k, CourseOf(init, k));
    } else {
      NewTaskStands(Run(init), m, k);
    }
  }

  /**
   * A restore task is settled with the thread exactly when dsh found a header that is no subagent's and has a cwd, and
   * either an agent was live, or the preset was usable and the resume succeeded; each refusal gives its own error.
   */
  lemma TaskEndsExactly(ms: seq<Move>, k: nat)
    requires k < |Run(ms).tasks|
    ensures var stage, c := Run(ms).tasks[k].stage, CourseOf(ms, k);
      && (stage.Settled? && stage.result.Ok? <==> Succeeds(c))
      && RefusedWith(stage) == Refusal(c)
  {
    TasksStand(ms, k);
  }

  // ---- agents ----

  /** Task `k` of thread `t` had its agent resumed. */
  predicate ResumedAgent(ms: seq<Move>, k: nat, t: ThreadId) {
    k < |Run(ms).tasks| && Run(ms).tasks[k].thread == t && CourseOf(ms, k).agent == Some(true)
  }

  ghost predicate CountsResume(ms: seq<Move>, t: ThreadId) {
    ResumeCount(Run(ms), t) == 1 <==> exists k: nat :: ResumedAgent(ms, k, t)
  }

  lemma AgentCounts(s: State, k: nat, resumed: bool, t: ThreadId)
    requires k < |s.tasks|
    ensures ResumeCount(AgentStep(s, k, resumed), t)
         == ResumeCount(s, t) + if resumed && s.tasks[k].thread == t then 1 else 0
  {
  }

  lemma OthersCountNothing(s: State, m: Move)
    requires !m.AgentDone?
    ensures Step(s, m).agentResumes == s.agentResumes
  {
  }

  lemma CountNext(s: State, m: Move, t: ThreadId)
    ensures ResumeCount(Step(s, m), t) == ResumeCount(s, t)
      + if m.AgentDone? && m.resumed && At(s, m.task, AwaitAgent) && s.tasks[m.task].thread == t then 1 else 0
  {
    if !m.AgentDone? {
      OthersCountNothing(s, m);
    } else if At(s, m.task, AwaitAgent) {
      AgentCounts(s, m.task, m.resumed, t);
    }
  }

  lemma ResumedNext(ms: seq<Move>, m: Move, k: nat, t: ThreadId)
    ensures ResumedAgent(ms + [m], k, t) <==>
      || ResumedAgent(ms, k, t)
      || (m == AgentDone(k, true) && At(Run(ms), k, AwaitAgent) && Run(ms).tasks[k].thread == t)
  {
    assert (ms + [m])[..|ms|] == ms && (ms + [m])[|ms|] == m;
    if k < |Run(ms).tasks| {
      TasksStand(ms, k);
      StandsNext(Run(ms), m, k, CourseOf(ms, k));
    }
  }

  /**
   * dsh resumed an agent for a thread exactly when some task of it got that far: its stat found no live agent, its
   * preset was usable, and the resume succeeded.
   */
  lemma {:induction false} AgentsResumedExactly(ms: seq<Move>, t: ThreadId)
    requires Legal(ms)
    ensures ResumeCount(Run(ms), t) == 1 <==> exists k: nat :: ResumedAgent(ms, k, t)
    ensures forall k: nat | ResumedAgent(ms, k, t) :: IsCold(CourseOf(ms, k)) && CourseOf(ms, k).preset == Some(true)
  {
    forall k: nat | ResumedAgent(ms, k, t) ensures IsCold(CourseOf(ms, k)) && CourseOf(ms, k).preset == Some(true) {
      TasksStand(ms, k);
    }
    if ms != [] {
      var init, m := ms[..|ms| - 1], ms[|ms| - 1];
      assert ms == init + [m];
      AgentsResumedExactly(init, t);
      CountNext(Run(init), m, t);
      AtMostOneAgentResume(init, t);
      AtMostOneAgentResume(ms, t);
      forall k: nat
        ensures ResumedAgent(ms, k, t) <==>
          || ResumedAgent(init, k, t)
          || (m == AgentDone(k, true) && At(Run(init), k, AwaitAgent) && Run(init).tasks[k].thread == t)
      {
        ResumedNext(init, m, k, t);
      }
    }
  }

  // ---- the table ----

  /** Some restore of `t` has succeeded. */
  ghost predicate Restored(ms: seq<Move>, t: ThreadId) {
    exists k: nat :: RestoredBy(ms, k, t)
  }

  predicate RestoredBy(ms: seq<Move>, k: nat, t: ThreadId) {
    k < |Run(ms).tasks| && Run(ms).tasks[k].thread == t && Succeeds(CourseOf(ms, k))
  }

  /** A move puts a thread in the table when it registers it or settles a restore of it with an entry. */
  lemma TableNext(s: State, m: Move, t: ThreadId)
    ensures t in Step(s, m).table <==>
      || t in s.table || m == Register(t)
      || (exists k :: 0 <= k < |s.tasks| && s.tasks[k].thread == t && NewlySucceeds(s, m, k))
  {
    if m.StatDone? && At(s, m.task, AwaitStat) {
      StatTables(s, m.task, m.header, m.live, t);
    } else if m.AgentDone? && At(s, m.task, AwaitAgent) {
      AgentTables(s, m.task, m.resumed, t);
    }
  }

  predicate NewlySucceeds(s: State, m: Move, k: nat)
    requires k < |s.tasks|
  {
    || (m.StatDone? && m.task == k && s.tasks[k].stage.AwaitStat? && m.live
        && m.header.Some? && !m.header.value.subagent && m.header.value.cwd.Some?)
    || (m == AgentDone(k, true) && s.tasks[k].stage.AwaitAgent?)
  }

  lemma StatTables(s: State, k: nat, header: Option<Header>, live: bool, t: ThreadId)
    requires At(s, k, AwaitStat)
    ensures t in StatStep(s, k, header, live).table <==>
      t in s.table || (s.tasks[k].thread == t && NewlySucceeds(s, StatDone(k, header, live), k))
  {
  }

  lemma AgentTables(s: State, k: nat, resumed: bool, t: ThreadId)
    requires At(s, k, AwaitAgent)
    ensures t in AgentStep(s, k, resumed).table <==>
      t in s.table || (s.tasks[k].thread == t && NewlySucceeds(s, AgentDone(k, resumed), k))
  {
  }

  lemma RestoredNext(ms: seq<Move>, m: Move, k: nat, t: ThreadId)
    ensures RestoredBy(ms + [m], k, t) <==>
      || RestoredBy(ms, k, t)
      || (k < |Run(ms).tasks| && Run(ms).tasks[k].thread == t && NewlySucceeds(Run(ms), m, k))
  {
    assert (ms + [m])[..|ms|] == ms && (ms + [m])[|ms|] == m;
    if k < |Run(ms).tasks| {
      TasksStand(ms, k);
      StandsNext(Run(ms), m, k, CourseOf(ms, k));
    }
  }

  /** A thread is in the table exactly when it was registered there or some restore of it succeeded. */
  lemma {:induction false} TableExactly(ms: seq<Move>, t: ThreadId)
    ensures t in Run(ms).table <==> Register(t) in ms || Restored(ms, t)
  {
    if ms != [] {
      var init, m := ms[..|ms| - 1], ms[|ms| - 1];
      assert ms == init + [m];
      TableExactly(init, t);
      TableNext(Run(init), m, t);
      forall k: nat
        ensures RestoredBy(ms, k, t) <==>
          || RestoredBy(init, k, t)
          || (k < |Run(init).tasks| && Run(init).tasks[k].thread == t && NewlySucceeds(Run(init), m, k))
      {
        RestoredNext(init, m, k, t);
      }
    }
  }

  // ---- callers ----

  /** Move `i` was the call, of a thread not in the table, and it joined task `k` of that thread. */
  ghost predicate JoinedAt(ms: seq<Move>, i: nat, call: CallId, t: ThreadId, k: nat) {
    && i < |ms| && ms[i] == Call(call, t) && t !in Run(ms[..i]).table
    && call in Run(ms[..i + 1]).waiting && Run(ms[..i + 1]).waiting[call] == k
    && k < |Run(ms).tasks| && Run(ms).tasks[k].thread == t
  }

  /** Move `i` was the call, of a thread in the table. */
  ghost predicate FoundAt(ms: seq<Move>, i: nat, call: CallId, t: ThreadId, entry: nat) {
    && i < |ms| && ms[i] == Call(call, t) && t in Run(ms[..i]).table && Run(ms[..i]).table[t] == entry
  }

  /** A caller is told the entry it found, or how the task it joined ended. */
  ghost predicate Told(ms: seq<Move>, call: CallId, t: ThreadId, answer: Result<nat, string>) {
    || (answer.Ok? && exists i: nat :: FoundAt(ms, i, call, t, answer.value))
    || (exists i: nat, k: nat :: JoinedAt(ms, i, call, t, k) && Run(ms).tasks[k] == Task(t, Settled(answer), true))
  }

  ghost predicate Waits(ms: seq<Move>, call: CallId) {
    call in Run(ms).waiting && exists i: nat, t: ThreadId :: JoinedAt(ms, i, call, t, Run(ms).waiting[call])
  }

  lemma TaskNext(s: State, m: Move, k: nat)
    requires k < |s.tasks|
    ensures k < |Step(s, m).tasks| && Step(s, m).tasks[k].thread == s.tasks[k].thread
    ensures s.tasks[k].stage.Settled? && s.tasks[k].cleaned ==> Step(s, m).tasks[k] == s.tasks[k]
  {
    if IsAnswerTo(m, k) {
      AnswerKeepsThread(s, m, k);
    } else {
      OtherMovesKeep(s, m, k);
    }
  }

  lemma AnswerKeepsThread(s: State, m: Move, k: nat)
    requires k < |s.tasks| && IsAnswerTo(m, k)
    ensures k < |Step(s, m).tasks| && Step(s, m).tasks[k].thread == s.tasks[k].thread
    ensures s.tasks[k].stage.Settled? ==> Step(s, m) == s
  {
  }

  lemma RunNext(ms: seq<Move>, m: Move)
    ensures Run(ms + [m]) == Step(Run(ms), m)
    ensures forall i | 0 <= i <= |ms| :: (ms + [m])[..i] == ms[..i]
  {
    assert (ms + [m])[..|ms|] == ms && (ms + [m])[|ms|] == m;
  }

  lemma JoinedStays(ms: seq<Move>, m: Move, i: nat, call: CallId, t: ThreadId, k: nat)
    requires JoinedAt(ms, i, call, t, k)
    ensures JoinedAt(ms + [m], i, call, t, k)
  {
    RunNext(ms, m);
    TaskNext(Run(ms), m, k);
    assert (ms + [m])[i] == ms[i];
  }

  lemma ToldStays(ms: seq<Move>, m: Move, call: CallId, t: ThreadId, answer: Result<nat, string>)
    requires Told(ms, call, t, answer)
    ensures Told(ms + [m], call, t, answer)
  {
    RunNext(ms, m);
    if answer.Ok? && exists i: nat :: FoundAt(ms, i, call, t, answer.value) {
      var i: nat :| FoundAt(ms, i, call, t, answer.value);
      assert FoundAt(ms + [m], i, call, t, answer.value);
    } else {
      var i: nat, k: nat :| JoinedAt(ms, i, call, t, k) && Run(ms).tasks[k] == Task(t, Settled(answer), true);
      JoinedStays(ms, m, i, call, t, k);
      TaskNext(Run(ms), m, k);
    }
  }

  lemma CallStepWaits(s: State, call: CallId, t: ThreadId)
    requires TasksOk(s)
    ensures var s' := CallStep(s, call, t);
      if t in s.table then call in s'.answers && s'.answers[call] == (t, Ok(s.table[t]))
      else
        && call in s'.waiting && s'.waiting[call] < |s'.tasks|
        && s'.tasks[s'.waiting[call]].thread == t
  {
  }

  lemma CallWaits(ms: seq<Move>, call: CallId, t: ThreadId)
    requires Legal(ms)
    ensures var s := Step(Run(ms), Call(call, t));
      if t in Run(ms).table then call in s.answers && s.answers[call] == (t, Ok(Run(ms).table[t]))
      else call in s.waiting && JoinedAt(ms + [Call(call, t)], |ms|, call, t, s.waiting[call])
  {
    RunNext(ms, Call(call, t));
    RunKeeps(ms);
    CallStepWaits(Run(ms), call, t);
    assert Step(Run(ms), Call(call, t)) == CallStep(Run(ms), call, t);
    assert (ms + [Call(call, t)])[..|ms| + 1] == ms + [Call(call, t)];
  }

  /** Everyone who waits joined a task of the thread it asked for. */
  lemma {:induction false} WaitersJoined(ms: seq<Move>, call: CallId)
    requires Legal(ms) && call in Run(ms).waiting
    ensures Waits(ms, call)
  {
    var init, m := ms[..|ms| - 1], ms[|ms| - 1];
    assert ms == init + [m];
    if m.Call? && m.call == call {
      CallWaits(init, call, m.thread);
      assert JoinedAt(ms, |init|, call, m.thread, Run(ms).waiting[call]);
    } else {
      WaitersNext(Run(init), m, call);
      WaitersJoined(init, call);
      var i: nat, t: ThreadId :| JoinedAt(init, i, call, t, Run(init).waiting[call]);
      JoinedStays(init, m, i, call, t, Run(init).waiting[call]);
    }
  }

  lemma WaitersNext(s: State, m: Move, call: CallId)
    requires call in Step(s, m).waiting && !(m.Call? && m.call == call)
    ensures call in s.waiting && s.waiting[call] == Step(s, m).waiting[call]
  {
    if !m.Call? && !m.Deliver? {
      TaskMovesKeepCalls(s, m);
    }
  }

  lemma TaskMovesKeepCalls(s: State, m: Move)
    requires !m.Call? && !m.Deliver?
    ensures Step(s, m).waiting == s.waiting && Step(s, m).answers == s.answers
  {
  }

  lemma AnswersNext(s: State, m: Move, call: CallId)
    requires call in Step(s, m).answers && !(m.Call? && m.call == call)
    ensures (call in s.answers && s.answers[call] == Step(s, m).answers[call])
      || (m == Deliver(call) && call in s.waiting && Done(s, s.waiting[call]) && s.tasks[s.waiting[call]].cleaned
          && Step(s, m).answers[call] == (s.tasks[s.waiting[call]].thread, s.tasks[s.waiting[call]].stage.result))
  {
    if !m.Call? && !m.Deliver? {
      TaskMovesKeepCalls(s, m);
    }
  }

  /** Every caller is told either the entry its thread had when it called, or the end of the one task it joined. */
  lemma {:induction false} CallersAreTold(ms: seq<Move>, call: CallId)
    requires Legal(ms) && call in Run(ms).answers
    ensures Told(ms, call, Run(ms).answers[call].0, Run(ms).answers[call].1)
  {
    var init, m := ms[..|ms| - 1], ms[|ms| - 1];
    assert ms == init + [m];
    RunNext(init, m);
    var (t, answer) := Run(ms).answers[call];
    if m.Call? && m.call == call {
      CallWaits(init, call, m.thread);
      assert FoundAt(ms, |init|, call, m.thread, Run(init).table[m.thread]);
    } else {
      AnswersNext(Run(init), m, call);
      if call in Run(init).answers && Run(init).answers[call] == Run(ms).answers[call] {
        CallersAreTold(init, call);
        ToldStays(init, m, call, t, answer);
      } else {
        DeliveryTells(init, call);
      }
    }
  }

  lemma DeliveryTells(ms: seq<Move>, call: CallId)
    requires Legal(ms) && call in Run(ms).waiting
    requires Done(Run(ms), Run(ms).waiting[call]) && Run(ms).tasks[Run(ms).waiting[call]].cleaned
    ensures var task := Run(ms).tasks[Run(ms).waiting[call]];
      Told(ms + [Deliver(call)], call, task.thread, task.stage.result)
  {
    WaitersJoined(ms, call);
    var k := Run(ms).waiting[call];
    var i: nat, t: ThreadId :| JoinedAt(ms, i, call, t, k);
    RunNext(ms, Deliver(call));
    JoinedStays(ms, Deliver(call), i, call, t, k);
    TaskNext(Run(ms), Deliver(call), k);
  }
}
