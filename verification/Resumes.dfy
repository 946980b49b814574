/**
 * Concurrent `thread/resume` of unknown threads: the deduplication gate, the restore task's awaits, and adoption.
 * A thread is identified by the number of its table entry, so "the same Thread" is equality of numbers.
 */
module Resumes {
  import opened Wrappers

  type ThreadId = string
  type CallId = nat

  /** What persistence knows of a session. */
  datatype Header = Header(subagent: bool, cwd: Option<string>)

  /** Where a restore task is suspended. A settled task still occupies the gate until it is cleaned up. */
  datatype Stage =
    | AwaitStat
    | AwaitPreset
    | AwaitAgent
    | Settled(result: Result<nat, string>)

  /** `cleaned`: the `finally` callback has removed the gate's entry. */
  datatype Task = Task(thread: ThreadId, stage: Stage, cleaned: bool)

  datatype State = State(
    table: map<ThreadId, nat>,
    entries: nat,
    gate: map<ThreadId, nat>,
    tasks: seq<Task>,
    waiting: map<CallId, nat>,
    answers: map<CallId, (ThreadId, Result<nat, string>)>,
    agentResumes: map<ThreadId, nat>)

  const INITIAL := State(map[], 0, map[], [], map[], map[], map[])

  datatype Move =
    | Register(thread: ThreadId)
    | Call(call: CallId, thread: ThreadId)
    | StatDone(task: nat, header: Option<Header>, live: bool)
    | PresetDone(task: nat, usable: bool)
    | AgentDone(task: nat, resumed: bool)
    | Cleanup(task: nat)
    | Deliver(call: CallId)

  function Adopted(s: State, t: ThreadId): (State, nat) {
    if t in s.table then (s, s.table[t])
    else (s.(table := s.table[t := s.entries], entries := s.entries + 1), s.entries)
  }

  function WithStage(s: State, k: nat, stage: Stage): State
    requires k < |s.tasks|
  {
    s.(tasks := s.tasks[k := s.tasks[k].(stage := stage)])
  }

  ghost predicate EntriesKept(s: State, s': State) {
    forall t | t in s.table :: t in s'.table && s'.table[t] == s.table[t]
  }

  /** Of the tasks only `k` has moved on, and nobody has been told anything. */
  ghost predicate OnlyMoved(s: State, s': State, k: nat)
    requires k < |s.tasks|
  {
    && |s'.tasks| == |s.tasks|
    && s'.tasks[k] == s.tasks[k].(stage := s'.tasks[k].stage)
    && (forall j | 0 <= j < |s.tasks| && j != k :: s'.tasks[j] == s.tasks[j])
    && s'.gate == s.gate && s'.waiting == s.waiting && s'.answers == s.answers
  }

  /** Adopt the agent and settle the task with the resulting table entry. */
  function Finish(s: State, k: nat): (s': State)
    requires k < |s.tasks|
    ensures EntriesKept(s, s') && OnlyMoved(s, s', k) && s'.agentResumes == s.agentResumes
  {
    var (s1, entry) := Adopted(s, s.tasks[k].thread);
    WithStage(s1, k, Settled(Ok(entry)))
  }

  function CallStep(s: State, call: CallId, t: ThreadId): State {
    if t in s.table then s.(answers := s.answers[call := (t, Ok(s.table[t]))])
    else if t in s.gate then s.(waiting := s.waiting[call := s.gate[t]])
    else
      s.(tasks := s.tasks + [Task(t, AwaitStat, false)],
         gate := s.gate[t := |s.tasks|],
         waiting := s.waiting[call := |s.tasks|])
  }

  function StatStep(s: State, k: nat, header: Option<Header>, live: bool): (s': State)
    requires k < |s.tasks|
    ensures EntriesKept(s, s') && OnlyMoved(s, s', k) && s'.agentResumes == s.agentResumes
  {
    match header
    case None => WithStage(s, k, Settled(Err("thread_not_found")))
    case Some(h) =>
      if h.subagent || h.cwd.None? then WithStage(s, k, Settled(Err("not_resumable")))
      else if live then Finish(s, k)
      else WithStage(s, k, AwaitPreset)
  }

  function AgentStep(s: State, k: nat, resumed: bool): (s': State)
    requires k < |s.tasks|
    ensures EntriesKept(s, s') && OnlyMoved(s, s', k)
  {
    if !resumed then WithStage(s, k, Settled(Err("not_resumable")))
    else
      var t := s.tasks[k].thread;
      Finish(s.(agentResumes := s.agentResumes[t := ResumeCount(s, t) + 1]), k)
  }

  /** How many times dsh has successfully resumed an agent for `t`. */
  function ResumeCount(s: State, t: ThreadId): nat {
    if t in s.agentResumes then s.agentResumes[t] else 0
  }

  predicate At(s: State, k: nat, stage: Stage) { k < |s.tasks| && s.tasks[k].stage == stage }

  predicate Done(s: State, k: nat) { k < |s.tasks| && s.tasks[k].stage.Settled? }

  function Step(s: State, m: Move): State {
    match m
    case Register(t) => s.(table := s.table[t := s.entries], entries := s.entries + 1)
    case Call(call, t) => CallStep(s, call, t)
    case StatDone(k, header, live) => if At(s, k, AwaitStat) then StatStep(s, k, header, live) else s
    case PresetDone(k, usable) =>
      if At(s, k, AwaitPreset) then WithStage(s, k, if usable then AwaitAgent else Settled(Err("internal"))) else s
    case AgentDone(k, resumed) => if At(s, k, AwaitAgent) then AgentStep(s, k, resumed) else s
    case Cleanup(k) =>
      if Done(s, k) && !s.tasks[k].cleaned
      then s.(gate := s.gate - {s.tasks[k].thread}, tasks := s.tasks[k := s.tasks[k].(cleaned := true)])
      else s
    case Deliver(call) =>
      if call in s.waiting && Done(s, s.waiting[call]) && s.tasks[s.waiting[call]].cleaned then DeliverStep(s, call)
      else s
  }

  /** The caller's await returns, after the task's own cleanup. */
  function DeliverStep(s: State, call: CallId): State
    requires call in s.waiting && Done(s, s.waiting[call])
  {
    var task := s.tasks[s.waiting[call]];
    s.(answers := s.answers[call := (task.thread, task.stage.result)], waiting := s.waiting - {call})
  }

  /** A fresh `bridge-<uuid>` is neither known nor being resumed when it is registered; call numbers are used once. */
  predicate Enabled(s: State, m: Move) {
    match m
    case Register(t) => t !in s.table && forall k | 0 <= k < |s.tasks| :: s.tasks[k].thread != t
    case Call(call, _) => call !in s.waiting && call !in s.answers
    case _ => true
  }

  function Run(ms: seq<Move>): State {
    if ms == [] then INITIAL else Step(Run(ms[..|ms| - 1]), ms[|ms| - 1])
  }

  predicate Legal(ms: seq<Move>) {
    ms == [] || (Legal(ms[..|ms| - 1]) && Enabled(Run(ms[..|ms| - 1]), ms[|ms| - 1]))
  }

  // ---- the invariant ----

  ghost predicate TaskOk(s: State, k: nat)
    requires k < |s.tasks|
  {
    var task := s.tasks[k];
    && (!task.cleaned ==> task.thread in s.gate && s.gate[task.thread] == k)
    && (!task.stage.Settled? ==> !task.cleaned && task.thread !in s.table)
    && (task.stage.Settled? && task.stage.result.Ok? ==>
          task.thread in s.table && s.table[task.thread] == task.stage.result.value)
  }

  ghost predicate TasksOk(s: State) {
    && (forall k: nat | k < |s.tasks| :: TaskOk(s, k))
    && (forall t | t in s.gate ::
      s.gate[t] < |s.tasks| && s.tasks[s.gate[t]].thread == t && !s.tasks[s.gate[t]].cleaned)
    && (forall call | call in s.waiting :: s.waiting[call] < |s.tasks|)
  }

  ghost predicate TableOk(s: State) {
    && (forall t | t in s.table :: s.table[t] < s.entries)
    && (forall t, u | t in s.table && u in s.table && t != u :: s.table[t] != s.table[u])
    && (forall t | t in s.agentResumes :: s.agentResumes[t] <= 1 && (s.agentResumes[t] == 1 ==> t in s.table))
    && (forall call | call in s.answers && s.answers[call].1.Ok? ::
          s.answers[call].0 in s.table && s.table[s.answers[call].0] == s.answers[call].1.value)
  }

  ghost predicate Inv(s: State) { TasksOk(s) && TableOk(s) }

  lemma FinishKeeps(s: State, k: nat)
    requires Inv(s) && k < |s.tasks| && !s.tasks[k].stage.Settled?
    ensures Inv(Finish(s, k))
  {
    var s' := Finish(s, k);
    assert TaskOk(s, k);
    forall j: nat | j < |s'.tasks| ensures TaskOk(s', j) {
      assert TaskOk(s, j);
    }
  }

  lemma StageKeeps(s: State, k: nat, stage: Stage)
    requires Inv(s) && k < |s.tasks| && !s.tasks[k].stage.Settled?
    requires stage.Settled? ==> stage.result.Err?
    ensures Inv(WithStage(s, k, stage))
  {
    var s' := WithStage(s, k, stage);
    forall j: nat | j < |s'.tasks| ensures TaskOk(s', j) {
      assert TaskOk(s, j) && TaskOk(s, k);
    }
  }

  lemma StatKeeps(s: State, k: nat, header: Option<Header>, live: bool)
    requires Inv(s) && At(s, k, AwaitStat)
    ensures Inv(StatStep(s, k, header, live))
  {
    if header.None? {
      StageKeeps(s, k, Settled(Err("thread_not_found")));
    } else if header.value.subagent || header.value.cwd.None? {
      StageKeeps(s, k, Settled(Err("not_resumable")));
    } else if live {
      FinishKeeps(s, k);
    } else {
      StageKeeps(s, k, AwaitPreset);
    }
  }

  lemma AgentKeeps(s: State, k: nat, resumed: bool)
    requires Inv(s) && At(s, k, AwaitAgent)
    ensures Inv(AgentStep(s, k, resumed))
  {
    if resumed {
      assert TaskOk(s, k);
      var s' := AgentStep(s, k, true);
      forall j: nat | j < |s'.tasks| ensures TaskOk(s', j) {
        assert TaskOk(s, j);
      }
    } else {
      StageKeeps(s, k, Settled(Err("not_resumable")));
    }
  }

  lemma NewTaskKeeps(s: State, call: CallId, t: ThreadId)
    requires TasksOk(s) && t !in s.table && t !in s.gate
    ensures TasksOk(CallStep(s, call, t))
  {
    var s' := CallStep(s, call, t);
    forall j: nat | j < |s'.tasks| ensures TaskOk(s', j) {
      assert j < |s.tasks| ==> TaskOk(s, j);
    }
  }

  lemma CallKeeps(s: State, call: CallId, t: ThreadId)
    requires Inv(s) && Enabled(s, Call(call, t))
    ensures Inv(CallStep(s, call, t))
  {
    if t !in s.table && t !in s.gate {
      NewTaskKeeps(s, call, t);
    } else {
      var s' := CallStep(s, call, t);
      forall j: nat | j < |s'.tasks| ensures TaskOk(s', j) {
        assert TaskOk(s, j);
      }
    }
  }

  lemma RegisterKeeps(s: State, t: ThreadId)
    requires Inv(s) && Enabled(s, Register(t))
    ensures Inv(Step(s, Register(t)))
  {
    var s' := Step(s, Register(t));
    forall j: nat | j < |s'.tasks| ensures TaskOk(s', j) {
      assert TaskOk(s, j);
    }
  }

  lemma CleanupKeeps(s: State, k: nat)
    requires Inv(s)
    ensures Inv(Step(s, Cleanup(k)))
  {
    var s' := Step(s, Cleanup(k));
    forall j: nat | j < |s'.tasks| ensures TaskOk(s', j) {
      assert TaskOk(s, j);
      assert k < |s.tasks| ==> TaskOk(s, k);
    }
  }

  lemma DeliverKeeps(s: State, call: CallId)
    requires Inv(s)
    ensures Inv(Step(s, Deliver(call)))
  {
    var s' := Step(s, Deliver(call));
    if call in s.waiting {
      assert TaskOk(s, s.waiting[call]);
    }
    forall j: nat | j < |s'.tasks| ensures TaskOk(s', j) {
      assert TaskOk(s, j);
    }
  }

  lemma StepKeeps(s: State, m: Move)
    requires Inv(s) && Enabled(s, m)
    ensures Inv(Step(s, m))
  {
    match m
    case Register(t) => RegisterKeeps(s, t);
    case Call(call, t) => CallKeeps(s, call, t);
    case StatDone(k, header, live) => if At(s, k, AwaitStat) { StatKeeps(s, k, header, live); }
    case PresetDone(k, usable) =>
      if At(s, k, AwaitPreset) { StageKeeps(s, k, if usable then AwaitAgent else Settled(Err("internal"))); }
    case AgentDone(k, resumed) => if At(s, k, AwaitAgent) { AgentKeeps(s, k, resumed); }
    case Cleanup(k) => CleanupKeeps(s, k);
    case Deliver(call) => DeliverKeeps(s, call);
  }

  lemma {:induction false} RunKeeps(ms: seq<Move>)
    requires Legal(ms)
    ensures Inv(Run(ms))
  {
    if ms != [] {
      RunKeeps(ms[..|ms| - 1]);
      StepKeeps(Run(ms[..|ms| - 1]), ms[|ms| - 1]);
    }
  }

  // ---- what holds of every run ----

  /** At most one restore task runs at a time for a thread, and never once the thread is in the table. */
  lemma OneRestoreAtATime(ms: seq<Move>, j: nat, k: nat)
    requires Legal(ms) && j < |Run(ms).tasks| && k < |Run(ms).tasks|
    requires Run(ms).tasks[j].thread == Run(ms).tasks[k].thread
    requires !Run(ms).tasks[j].stage.Settled? && !Run(ms).tasks[k].stage.Settled?
    ensures j == k && Run(ms).tasks[j].thread !in Run(ms).table
  {
    RunKeeps(ms);
    assert TaskOk(Run(ms), j) && TaskOk(Run(ms), k);
  }

  /** dsh resumes an agent for a thread at most once. */
  lemma AtMostOneAgentResume(ms: seq<Move>, t: ThreadId)
    requires Legal(ms)
    ensures ResumeCount(Run(ms), t) <= 1
    ensures ResumeCount(Run(ms), t) == 1 ==> t in Run(ms).table
  {
    RunKeeps(ms);
  }

  lemma EntryKept(s: State, m: Move, t: ThreadId)
    requires Enabled(s, m) && t in s.table
    ensures t in Step(s, m).table && Step(s, m).table[t] == s.table[t]
  {
  }

  /** A table entry is never replaced. */
  lemma {:induction false} EntryNeverReplaced(ms: seq<Move>, more: seq<Move>, t: ThreadId)
    requires Legal(ms + more) && t in Run(ms).table
    ensures t in Run(ms + more).table && Run(ms + more).table[t] == Run(ms).table[t]
  {
    if more == [] {
      assert ms + more == ms;
    } else {
      var n := |more| - 1;
      assert (ms + more)[..|ms| + n] == ms + more[..n] && (ms + more)[|ms| + n] == more[n];
      EntryNeverReplaced(ms, more[..n], t);
      RunKeeps(ms + more[..n]);
      EntryKept(Run(ms + more[..n]), more[n], t);
    }
  }

  /**
   * All successful callers for a thread get the same Thread, which is the table's entry; different threads get
   * different ones.
   */
  lemma CallersAgree(ms: seq<Move>, a: CallId, b: CallId)
    requires Legal(ms) && a in Run(ms).answers && b in Run(ms).answers
    requires Run(ms).answers[a].1.Ok? && Run(ms).answers[b].1.Ok?
    ensures var (t, x) := Run(ms).answers[a];
      var (u, y) := Run(ms).answers[b];
      && (t == u <==> x.value == y.value)
      && t in Run(ms).table && Run(ms).table[t] == x.value
  {
    RunKeeps(ms);
  }

  // ---- the gate as the bridge keeps it ----

  /** The bridge's thread table and `resumes` gate; each method is one piece between two awaits. */
  class ResumeGate {
    var table: map<ThreadId, nat>
    var entries: nat
    var gate: map<ThreadId, nat>
    var tasks: seq<Task>
    var waiting: map<CallId, nat>
    var answers: map<CallId, (ThreadId, Result<nat, string>)>
    ghost var agentResumes: map<ThreadId, nat>

    ghost function View(): State
      reads this
    {
      State(table, entries, gate, tasks, waiting, answers, agentResumes)
    }

    constructor ()
      ensures View() == INITIAL
    {
      table, entries, gate, tasks, waiting, answers, agentResumes := map[], 0, map[], [], map[], map[], map[];
    }

    method ResumeThread(call: CallId, t: ThreadId)
      modifies this
      ensures View() == Step(old(View()), Call(call, t))
    {
      if t in table {
        answers := answers[call := (t, Ok(table[t]))];
        return;
      }
      if t !in gate {
        tasks := tasks + [Task(t, AwaitStat, false)];
        gate := gate[t := |tasks| - 1];
      }
      waiting := waiting[call := gate[t]];
    }

    method AdoptInto(k: nat)
      requires k < |tasks|
      modifies this`table, this`entries, this`tasks
      ensures View() == Finish(old(View()), k)
    {
      var t := tasks[k].thread;
      if t !in table {
        table := table[t := entries];
        entries := entries + 1;
      }
      tasks := tasks[k := tasks[k].(stage := Settled(Ok(table[t])))];
    }

    method OnStat(k: nat, header: Option<Header>, live: bool)
      requires At(View(), k, AwaitStat)
      modifies this
      ensures View() == Step(old(View()), StatDone(k, header, live))
    {
      if header.None? {
        tasks := tasks[k := tasks[k].(stage := Settled(Err("thread_not_found")))];
      } else if header.value.subagent || header.value.cwd.None? {
        tasks := tasks[k := tasks[k].(stage := Settled(Err("not_resumable")))];
      } else if live {
        AdoptInto(k);
      } else {
        tasks := tasks[k := tasks[k].(stage := AwaitPreset)];
      }
    }

    method OnPreset(k: nat, usable: bool)
      requires At(View(), k, AwaitPreset)
      modifies this
      ensures View() == Step(old(View()), PresetDone(k, usable))
    {
      tasks := tasks[k := tasks[k].(stage := if usable then AwaitAgent else Settled(Err("internal")))];
    }

    method OnAgent(k: nat, resumed: bool)
      requires At(View(), k, AwaitAgent)
      modifies this
      ensures View() == Step(old(View()), AgentDone(k, resumed))
    {
      if !resumed {
        tasks := tasks[k := tasks[k].(stage := Settled(Err("not_resumable")))];
        return;
      }
      agentResumes := agentResumes[tasks[k].thread := ResumeCount(View(), tasks[k].thread) + 1];
      AdoptInto(k);
    }

    /** The task's `finally`: it clears the gate without looking at whose entry it is. */
    method OnFinally(k: nat)
      requires Done(View(), k) && !tasks[k].cleaned
      modifies this
      ensures View() == Step(old(View()), Cleanup(k))
    {
      gate := gate - {tasks[k].thread};
      tasks := tasks[k := tasks[k].(cleaned := true)];
    }
  }
}
