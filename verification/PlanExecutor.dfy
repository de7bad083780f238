/** Dispatching a batch of ready tasks: the parallel fan-out, its merge in task order, and the rollback
    of the dispatch when the session changed meanwhile. */
module PlanExecutor {
  import opened Options
  import opened Text
  import opened Lease
  import opened Graph
  import opened GraphHistory
  import B = Batch
  import P = Plan
  import Z = Serializability

  // ---------------------------------------------------------------------------
  // Merge
  // ---------------------------------------------------------------------------

  /** What a detached task left behind: its own copy of the transcript when it ended. */
  datatype Detached = Detached(taskID: string, transcript: seq<Message>, requiresSerial: bool)

  datatype TaskResult = TaskResult(taskID: string, messages: seq<Message>, requiresSerial: bool)

  /** The messages the task's copy gained over the common base. */
  function Capture(base: seq<Message>, d: Detached): TaskResult {
    TaskResult(d.taskID, if |base| < |d.transcript| then d.transcript[|base|..] else [], d.requiresSerial)
  }

  function Tag(messages: seq<Message>, taskID: string): seq<Message> {
    seq(|messages|, i requires 0 <= i < |messages| => messages[i].(taskID := taskID))
  }

  function Contribution(r: TaskResult): seq<Message> {
    if r.requiresSerial then [] else Tag(r.messages, r.taskID)
  }

  /** What the batch adds to the session, in task order. */
  function Merged(results: seq<TaskResult>): seq<Message> {
    if results == [] then [] else Merged(results[..|results| - 1]) + Contribution(results[|results| - 1])
  }

  function CaptureAll(base: seq<Message>, tasks: seq<Detached>): seq<TaskResult> {
    seq(|tasks|, i requires 0 <= i < |tasks| => Capture(base, tasks[i]))
  }

  /** The result slots after the tasks numbered in `arrivals` have finished, in that order. */
  function Filled(base: seq<Message>, tasks: seq<Detached>, arrivals: seq<nat>): (slots: seq<TaskResult>)
    requires forall i :: 0 <= i < |arrivals| ==> arrivals[i] < |tasks|
    ensures |slots| == |tasks|
  {
    if arrivals == [] then seq(|tasks|, _ => TaskResult("", [], false))
    else
      var last := arrivals[|arrivals| - 1];
      Filled(base, tasks, arrivals[..|arrivals| - 1])[last := Capture(base, tasks[last])]
  }

  lemma {:induction false} FilledAt(base: seq<Message>, tasks: seq<Detached>, arrivals: seq<nat>, i: nat)
    requires forall a :: 0 <= a < |arrivals| ==> arrivals[a] < |tasks|
    requires i in arrivals
    ensures i < |tasks| && Filled(base, tasks, arrivals)[i] == Capture(base, tasks[i])
  {
    var init, last := arrivals[..|arrivals| - 1], arrivals[|arrivals| - 1];
    assert arrivals == init + [last];
    if i != last { FilledAt(base, tasks, init, i); }
  }

  /** The slots do not show in which order the tasks finished. */
  lemma ArrivalOrderIsInvisible(base: seq<Message>, tasks: seq<Detached>, arrivals: seq<nat>)
    requires Z.IsPermutation(arrivals, |tasks|)
    ensures Filled(base, tasks, arrivals) == CaptureAll(base, tasks)
  {
    forall i | 0 <= i < |tasks| ensures Filled(base, tasks, arrivals)[i] == Capture(base, tasks[i]) {
      FilledAt(base, tasks, arrivals, i);
    }
  }

  /** Fills the result slots as the tasks finish. */
  method Collect(base: seq<Message>, tasks: seq<Detached>, arrivals: seq<nat>) returns (results: seq<TaskResult>)
    requires Z.IsPermutation(arrivals, |tasks|)
    ensures results == Filled(base, tasks, arrivals) == CaptureAll(base, tasks)
  {
    var slots := new TaskResult[|tasks|](_ => TaskResult("", [], false));
    for a := 0 to |arrivals|
      invariant slots[..] == Filled(base, tasks, arrivals[..a])
    {
      var index := arrivals[a];
      assert arrivals[..a + 1][..a] == arrivals[..a];
      slots[index] := Capture(base, tasks[index]);
    }
    assert arrivals[..|arrivals|] == arrivals;
    results := slots[..];
    ArrivalOrderIsInvisible(base, tasks, arrivals);
  }

  /** Appends the results to the session found when the lease is taken again, unless it changed. */
  method MergeInTaskOrder(base: Session, results: seq<TaskResult>, current: Session)
    returns (session: Session, retry: bool)
    ensures retry <==> current.revision != base.revision
    ensures retry ==> session == current
    ensures !retry ==>
              session == if Merged(results) == [] then current else Saved(current, Append(current, Merged(results)))
  {
    retry := current.revision != base.revision;
    session := current;
    if retry { return; }
    var merged := false;
    for i := 0 to |results|
      invariant session == Append(current, Merged(results[..i]))
      invariant merged <==> Merged(results[..i]) != []
    {
      assert results[..i + 1][..i] == results[..i];
      if results[i].requiresSerial || results[i].messages == [] { continue; }
      session := session.(messages := session.messages + Tag(results[i].messages, results[i].taskID));
      merged := true;
    }
    assert results[..|results|] == results;
    if merged {
      session := Saved(current, session);
    }
  }

  /** Detached tasks that only appended: each copy is the base and what the task produced. */
  ghost predicate OnlyAppended(base: seq<Message>, tasks: seq<Detached>, produced: seq<seq<Message>>) {
    && |produced| == |tasks|
    && forall i :: 0 <= i < |tasks| ==> tasks[i].transcript == base + produced[i]
  }

  /** What the tasks produced, one after another and marked with the task; a task that must be repeated serially
      adds nothing. */
  ghost function InTaskOrder(tasks: seq<Detached>, produced: seq<seq<Message>>): seq<Message>
    requires |produced| == |tasks|
  {
    if tasks == [] then []
    else
      var n := |tasks| - 1;
      InTaskOrder(tasks[..n], produced[..n]) +
      if tasks[n].requiresSerial then [] else Marked(produced[n], tasks[n].taskID)
  }

  ghost function Marked(messages: seq<Message>, taskID: string): seq<Message> {
    if messages == [] then []
    else
      var n := |messages| - 1;
      var m := messages[n];
      Marked(messages[..n], taskID) + [Message(m.role, m.content, m.toolCalls, m.runID, taskID)]
  }

  lemma {:induction false} TagMarks(messages: seq<Message>, taskID: string)
    ensures Tag(messages, taskID) == Marked(messages, taskID)
  {
    if messages != [] {
      var n := |messages| - 1;
      TagMarks(messages[..n], taskID);
      assert Tag(messages, taskID) == Tag(messages[..n], taskID) + [messages[n].(taskID := taskID)];
    }
  }

  /** When detached tasks only append, the batch adds each task's messages, marked with the task, in task
      order, but for the tasks that need a serial retry. */
  lemma {:induction false} MergeIsInTaskOrder(base: seq<Message>, tasks: seq<Detached>, produced: seq<seq<Message>>)
    requires OnlyAppended(base, tasks, produced)
    ensures Merged(CaptureAll(base, tasks)) == InTaskOrder(tasks, produced)
  {
    if tasks != [] {
      var n := |tasks| - 1;
      MergeIsInTaskOrder(base, tasks[..n], produced[..n]);
      assert CaptureAll(base, tasks)[..n] == CaptureAll(base, tasks[..n]);
      OneContribution(base, tasks[n], produced[n]);
    }
  }

  lemma OneContribution(base: seq<Message>, task: Detached, produced: seq<Message>)
    requires task.transcript == base + produced
    ensures Contribution(Capture(base, task)) == if task.requiresSerial then [] else Marked(produced, task.taskID)
  {
    assert (base + produced)[|base|..] == produced;
    TagMarks(produced, task.taskID);
    assert Capture(base, task).messages == produced;
  }

  // ---------------------------------------------------------------------------
  // Rollback
  // ---------------------------------------------------------------------------

  ghost predicate Aligned(r: Run) {
    && P.GoodIds(r.plan.tasks) && GoodGraph(r.graph) && |r.graph| == |r.plan.tasks|
    && forall i :: 0 <= i < |r.graph| ==> r.graph[i].meta.id == r.plan.tasks[i].id
  }

  function Dispatched(r: Run, ids: seq<string>): Run {
    Run(P.MarkRunning(r.plan, ids), MarkAll(r.graph, ids))
  }

  function RolledBack(r: Run, ids: seq<string>): Run {
    Run(RequeuePlan(r.plan, ids), RequeueAll(r.graph, ids))
  }

  lemma {:induction false} RequeueEffect(graph: seq<ExecTask>, ids: seq<string>, i: nat)
    requires GoodGraph(graph) && i < |graph|
    ensures |RequeueAll(graph, ids)| == |graph| && GoodGraph(RequeueAll(graph, ids))
    ensures RequeueAll(graph, ids)[i] ==
            if graph[i].meta.id in ids && graph[i].status.Running? then graph[i].(status := P.Queued) else graph[i]
  {
    if ids != [] {
      var init, id := ids[..|ids| - 1], ids[|ids| - 1];
      assert ids == init + [id];
      var g := RequeueAll(graph, init);
      RequeueEffect(graph, init, i);
      FindExecGood(g, i);
      forall k | 0 <= k < |g| ensures !g[k].status.Unset? { assert NormalTask(g[k]) == g[k]; }
      GoodGraphIds(g, RequeueOne(g, id));
    }
  }

  /** After dispatch and rollback a graph task named in the batch is queued with one more attempt for each
      time it was named; a plan task that was queued or running is queued; nothing else changed status. */
  lemma RollbackEffect(r: Run, ids: seq<string>, i: nat)
    requires Aligned(r) && i < |r.graph|
    ensures
      var after := RolledBack(Dispatched(r, ids), ids);
      var named := r.plan.tasks[i].id in ids;
      && |after.graph| == |r.graph| && |after.plan.tasks| == |r.plan.tasks|
      && after.graph[i].status == (if named then P.Queued else r.graph[i].status)
      && after.graph[i].attemptCount == r.graph[i].attemptCount + multiset(ids)[r.plan.tasks[i].id]
      && after.plan.tasks[i].status ==
         (if named && r.plan.tasks[i].status.Running? then P.Queued else r.plan.tasks[i].status)
      && after.plan.tasks[i].error ==
         (if named && (r.plan.tasks[i].status.Running? || r.plan.tasks[i].status.Queued?) then ""
          else r.plan.tasks[i].error)
  {
    MarkEffect(r.graph, ids, i);
    RequeueEffect(MarkAll(r.graph, ids), ids, i);
    P.MarkEachEffect(r.plan, ids, i);
  }

  ghost predicate SameStatuses(r: Run, s: Run) {
    && |s.graph| == |r.graph| && |s.plan.tasks| == |r.plan.tasks|
    && (forall i :: 0 <= i < |r.graph| ==> s.graph[i].status == r.graph[i].status)
    && (forall i :: 0 <= i < |r.plan.tasks| ==> s.plan.tasks[i].status == r.plan.tasks[i].status)
  }

  /** On a revision conflict the statuses of plan and graph return to what they were before the dispatch
      if and only if every task of the batch was queued then; a resumed, already running task is not
      restored but requeued. */
  lemma RollbackRestoresFreshBatches(r: Run, ids: seq<string>)
    requires Aligned(r) && StatusesMatch(r)
    ensures SameStatuses(r, RolledBack(Dispatched(r, ids), ids)) <==>
            forall i :: 0 <= i < |r.plan.tasks| && r.plan.tasks[i].id in ids ==> r.plan.tasks[i].status.Queued?
  {
    var after := RolledBack(Dispatched(r, ids), ids);
    MarkKeepsLength(r.graph, ids);
    RequeueKeepsMemory(MarkAll(r.graph, ids), ids);
    MarkKeepsShape(r.plan, ids);
    forall i | 0 <= i < |r.graph|
      ensures after.graph[i].status == (if r.plan.tasks[i].id in ids then P.Queued else r.graph[i].status)
      ensures r.plan.tasks[i].status.Queued? ==> after.plan.tasks[i].status.Queued?
      ensures r.plan.tasks[i].id !in ids ==> after.plan.tasks[i].status == r.plan.tasks[i].status
    {
      RollbackEffect(r, ids, i);
    }
    if SameStatuses(r, after) {
      forall i | 0 <= i < |r.plan.tasks| && r.plan.tasks[i].id in ids ensures r.plan.tasks[i].status.Queued? {
        assert after.graph[i].status == r.graph[i].status;
      }
    }
  }

  /** A plan whose record of running tasks is exactly the running tasks, in task order. */
  ghost predicate Tidy(p: P.Plan) {
    p.runningTasks == RunningIDs(p.tasks) && p.activeTask == FirstOrNone(p.runningTasks)
  }

  /** For a tidy plan and a freshly queued, error-free batch the rollback restores the plan entirely. */
  lemma RollbackRestoresThePlan(r: Run, ids: seq<string>)
    requires Aligned(r) && Tidy(r.plan)
    requires forall i :: 0 <= i < |r.plan.tasks| && r.plan.tasks[i].id in ids ==>
               r.plan.tasks[i].status.Queued? && r.plan.tasks[i].error == ""
    ensures ids != [] ==> RolledBack(Dispatched(r, ids), ids).plan == r.plan
  {
    var after := RolledBack(Dispatched(r, ids), ids).plan;
    MarkKeepsShape(r.plan, ids);
    forall i | 0 <= i < |r.plan.tasks|
      ensures RequeuedTask(P.MarkRunning(r.plan, ids).tasks[i], ids) == r.plan.tasks[i]
    {
      P.MarkEachEffect(r.plan, ids, i);
    }
    assert RequeuedTasks(P.MarkRunning(r.plan, ids).tasks, ids) == r.plan.tasks;
  }

  /** A resumed batch is not restored: this one held a task that was already running. */
  lemma RollbackRequeuesARunningTask() returns (r: Run, ids: seq<string>)
    ensures Aligned(r) && StatusesMatch(r) && !SameStatuses(r, RolledBack(Dispatched(r, ids), ids))
  {
    var t := P.Task("t", "", P.Write, "", [], [], [], [], P.Running, "");
    var plan := P.Plan(P.Serial, [t], "t", "t", ["t"]);
    assert Trim("t") == "t";
    r := Run(plan, [ExecTask(B.Meta("t", [], B.Workspace, B.TaskOrder), "", P.Running, 1, None)]);
    ids := ["t"];
    assert NormalTask(r.graph[0]) == r.graph[0];
    assert r.plan.tasks[0].id in ids;
    RollbackRestoresFreshBatches(r, ids);
  }

  // ---------------------------------------------------------------------------
  // A whole batch
  // ---------------------------------------------------------------------------

  /** A batch of detached tasks dispatched by client `c` at step `i` and merged at step `k`. */
  ghost predicate IsBatch(states: seq<State>, events: seq<Event>, c: nat, i: nat, k: nat) {
    && Lease.IsRun(states, events) && i < k < |events|
    && Begins(events[i], c) && (forall m :: i < m < k ==> !Begins(events[m], c))
    && events[k].Client? && events[k].c == c && events[k].action.MergeBatch?
  }

  /** For every arrival order of the tasks and every interleaving of other clients: if nobody wrote meanwhile
      the transcript is the dispatched one and each task's messages in task order; otherwise the store is left
      as it is and the statuses of a freshly queued batch are restored. */
  lemma BatchMergesOrRollsBack(states: seq<State>, events: seq<Event>, c: nat, i: nat, k: nat,
                               tasks: seq<Detached>, produced: seq<seq<Message>>, arrivals: seq<nat>,
                               r: Run, ids: seq<string>)
    requires IsBatch(states, events, c, i, k)
    requires OnlyAppended(states[i + 1].stored.messages, tasks, produced) && Z.IsPermutation(arrivals, |tasks|)
    requires events[k].action.messages == Merged(Filled(states[i + 1].stored.messages, tasks, arrivals))
    requires Aligned(r) && StatusesMatch(r)
    requires forall n :: 0 <= n < |r.plan.tasks| && r.plan.tasks[n].id in ids ==> r.plan.tasks[n].status.Queued?
    ensures
      if Undisturbed(states, i + 1, k) then
        states[k + 1].stored.messages == states[i + 1].stored.messages + InTaskOrder(tasks, produced)
      else
        states[k + 1].stored == states[k].stored && SameStatuses(r, RolledBack(Dispatched(r, ids), ids))
  {
    var base := states[i + 1].stored.messages;
    ArrivalOrderIsInvisible(base, tasks, arrivals);
    MergeIsInTaskOrder(base, tasks, produced);
    BatchLandsIffUndisturbed(states, events, c, i, k);
    RollbackRestoresFreshBatches(r, ids);
  }

  // ---------------------------------------------------------------------------
  // The run object
  // ---------------------------------------------------------------------------

  method IndexByID(graph: seq<ExecTask>) returns (existing: map<string, ExecTask>)
    ensures existing == ByID(graph)
  {
    existing := map[];
    for i := 0 to |graph|
      invariant existing == ByID(graph[..i])
    {
      assert graph[..i + 1][..i] == graph[..i];
      if Trim(graph[i].meta.id) != "" {
        existing := existing[Trim(graph[i].meta.id) := NormalTask(graph[i])];
      }
    }
    assert graph[..|graph|] == graph;
  }

  method BuildTask(digest: Digest, t: P.Task, existing: map<string, ExecTask>) returns (task: ExecTask)
    ensures task == RebuiltTask(digest, t, existing)
  {
    task := Derive(digest, t);
    if task.meta.id in existing { task := Carry(task, existing[task.meta.id]); }
  }

  method BuildExecutionGraph(digest: Digest, planTasks: seq<P.Task>, graph: seq<ExecTask>)
    returns (tasks: seq<ExecTask>)
    ensures tasks == Rebuild(digest, planTasks, graph)
  {
    var existing := IndexByID(graph);
    tasks := [];
    for i := 0 to |planTasks|
      invariant |tasks| == i
      invariant forall k :: 0 <= k < i ==> tasks[k] == RebuiltTask(digest, planTasks[k], existing)
    {
      var task := BuildTask(digest, planTasks[i], existing);
      tasks := tasks + [task];
    }
  }

  method SyncTask(t: ExecTask, planTask: P.Task) returns (task: ExecTask)
    ensures task == SyncedTask(t, planTask)
  {
    task := t.(status := planTask.status);
    if !planTask.status.Skipped? && !planTask.status.Cancelled? { return; }
    if task.lastOutcome.None? {
      task := task.(lastOutcome := Some(Outcome(planTask.status, Trim(planTask.error), "")));
    }
    if Trim(planTask.error) != "" && task.lastOutcome.value.error == "" {
      task := task.(lastOutcome := Some(task.lastOutcome.value.(error := Trim(planTask.error))));
    }
  }

  method SyncGraph(before: seq<ExecTask>, planTasks: seq<P.Task>) returns (graph: seq<ExecTask>)
    ensures graph == SyncAll(before, planTasks)
  {
    graph := before;
    for n := 0 to |planTasks|
      invariant graph == SyncAll(before, planTasks[..n])
    {
      assert planTasks[..n + 1][..n] == planTasks[..n];
      var i := FindExec(graph, planTasks[n].id);
      if i < 0 { continue; }
      var task := SyncTask(graph[i], planTasks[n]);
      graph := graph[i := task];
    }
    assert planTasks[..|planTasks|] == planTasks;
  }

  method RequeueTasks(before: seq<P.Task>, ids: seq<string>) returns (tasks: seq<P.Task>)
    ensures tasks == RequeuedTasks(before, ids)
  {
    tasks := before;
    for i := 0 to |tasks|
      invariant |tasks| == |before|
      invariant forall k :: 0 <= k < |tasks| ==> tasks[k] == if k < i then RequeuedTask(before[k], ids) else before[k]
    {
      if tasks[i].id in ids && tasks[i].status.Running? {
        tasks := tasks[i := tasks[i].(status := P.Queued, error := "")];
      }
    }
  }

  method CollectRunning(tasks: seq<P.Task>) returns (running: seq<string>)
    ensures running == RunningIDs(tasks)
  {
    running := [];
    for i := 0 to |tasks|
      invariant running == RunningIDs(tasks[..i])
    {
      assert tasks[..i + 1][..i] == tasks[..i];
      if tasks[i].status.Running? { running := running + [tasks[i].id]; }
    }
    assert tasks[..|tasks|] == tasks;
  }

  class ExecutionRun {
    const digest: Digest
    var plan: P.Plan
    var graph: seq<ExecTask>

    constructor (digest: Digest, plan: P.Plan)
      ensures this.digest == digest && this.plan == plan && graph == []
    {
      this.digest := digest;
      this.plan := plan;
      graph := [];
    }

    ghost function View(): Run
      reads this
    {
      Run(plan, graph)
    }

    method EnsureExecutionGraph()
      modifies this
      ensures View() == GraphHistory.Apply(digest, old(View()), RebuildOp)
    {
      plan := P.Normalize(plan);
      graph := BuildExecutionGraph(digest, plan.tasks, graph);
    }

    method MarkExecutionTasksRunning(ids: seq<string>)
      modifies this`graph
      ensures graph == MarkAll(old(graph), ids)
    {
      for n := 0 to |ids|
        invariant graph == MarkAll(old(graph), ids[..n])
      {
        assert ids[..n + 1][..n] == ids[..n];
        var i := FindExec(graph, ids[n]);
        if i < 0 { continue; }
        var task := graph[i];
        task := task.(status := P.Running);
        task := task.(attemptCount := task.attemptCount + 1);
        graph := graph[i := task];
      }
      assert ids[..|ids|] == ids;
    }

    method Dispatch(ids: seq<string>)
      modifies this
      ensures View() == GraphHistory.Apply(digest, old(View()), DispatchOp(ids))
    {
      EnsureExecutionGraph();
      plan := P.MarkRunning(plan, ids);
      MarkExecutionTasksRunning(ids);
    }

    method RequeueExecutionTasks(ids: seq<string>)
      modifies this`graph
      ensures graph == RequeueAll(old(graph), ids)
    {
      for n := 0 to |ids|
        invariant graph == RequeueAll(old(graph), ids[..n])
      {
        assert ids[..n + 1][..n] == ids[..n];
        var i := FindExec(graph, ids[n]);
        if i >= 0 && graph[i].status.Running? {
          graph := graph[i := graph[i].(status := P.Queued)];
        }
      }
      assert ids[..|ids|] == ids;
    }

    method RequeueBatchTasksForRetry(ids: seq<string>)
      modifies this
      ensures View() == GraphHistory.Apply(digest, old(View()), RequeueOp(ids))
    {
      if ids == [] { return; }
      RequeueExecutionTasks(ids);
      var tasks := RequeueTasks(plan.tasks, ids);
      var running := CollectRunning(tasks);
      plan := plan.(tasks := tasks, runningTasks := running, activeTask := "");
      if |running| > 0 {
        plan := plan.(activeTask := running[0]);
      }
    }

    method ApplyTaskResult(result: Result)
      modifies this`graph
      ensures View() == GraphHistory.Apply(digest, old(View()), ApplyOp(result))
    {
      var i := FindExec(graph, result.taskID);
      if i < 0 { return; }
      var task := graph[i].(status := result.status);
      if result.outcome.Some? {
        task := task.(lastOutcome := result.outcome);
      } else if Ended(result.status) {
        var outcome := Outcome(result.status, Trim(result.summary), "");
        if result.error != "" && !result.status.Completed? {
          outcome := outcome.(error := Trim(result.error));
        }
        task := task.(lastOutcome := Some(outcome));
      }
      graph := graph[i := task];
    }

    method SyncExecutionGraphWithPlan()
      modifies this
      ensures View() == GraphHistory.Apply(digest, old(View()), SyncOp)
    {
      EnsureExecutionGraph();
      graph := SyncGraph(graph, plan.tasks);
    }
  }
}
