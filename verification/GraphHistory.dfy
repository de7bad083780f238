/** What the execution graph keeps over any sequence of rebuild, dispatch, requeue, apply and sync. */
module GraphHistory {
  import opened Options
  import opened Text
  import opened Batch
  import opened Graph
  import P = Plan

  type Digest = (string, P.Kind, string) -> string

  datatype Run = Run(plan: P.Plan, graph: seq<ExecTask>)

  /** A finished task's report; `outcome` is None when the runner gave no structured outcome. */
  datatype Result = Result(taskID: string, status: P.Status, summary: string, error: string, outcome: Option<Outcome>)

  /** executionGraphTask: the index of the first graph task with this id, or -1. */
  function FindExec(graph: seq<ExecTask>, id: string): (i: int)
    ensures -1 <= i < |graph|
    ensures i >= 0 ==> graph[i].meta.id == id
    ensures i < 0 ==> Trim(id) == "" || forall k :: 0 <= k < |graph| ==> graph[k].meta.id != id
  {
    if graph == [] || Trim(id) == "" then -1
    else
      var i := FindExec(graph[..|graph| - 1], id);
      if i >= 0 then i else if graph[|graph| - 1].meta.id == id then |graph| - 1 else -1
  }

  lemma FindExecGood(graph: seq<ExecTask>, i: nat)
    requires GoodGraph(graph) && i < |graph|
    ensures FindExec(graph, graph[i].meta.id) == i
  {
    assert NormalTask(graph[i]) == graph[i];
  }

  function MarkOne(graph: seq<ExecTask>, id: string): seq<ExecTask> {
    var i := FindExec(graph, id);
    if i < 0 then graph
    else graph[i := graph[i].(status := P.Running, attemptCount := graph[i].attemptCount + 1)]
  }

  /** markExecutionTasksRunning. */
  function MarkAll(graph: seq<ExecTask>, ids: seq<string>): seq<ExecTask> {
    if ids == [] then graph else MarkOne(MarkAll(graph, ids[..|ids| - 1]), ids[|ids| - 1])
  }

  function RequeueOne(graph: seq<ExecTask>, id: string): seq<ExecTask> {
    var i := FindExec(graph, id);
    if i < 0 || !graph[i].status.Running? then graph else graph[i := graph[i].(status := P.Queued)]
  }

  /** requeueExecutionTasksForRetry. */
  function RequeueAll(graph: seq<ExecTask>, ids: seq<string>): seq<ExecTask> {
    if ids == [] then graph else RequeueOne(RequeueAll(graph, ids[..|ids| - 1]), ids[|ids| - 1])
  }

  predicate Ended(s: P.Status) {
    s.Completed? || s.Failed? || s.Skipped? || s.Cancelled?
  }

  /** applyTaskResultToExecutionGraph. */
  function ApplyResult(graph: seq<ExecTask>, r: Result): seq<ExecTask> {
    var i := FindExec(graph, r.taskID);
    if i < 0 then graph
    else if r.outcome.Some? then graph[i := graph[i].(status := r.status, lastOutcome := r.outcome)]
    else if Ended(r.status) then
      var outcome := Outcome(r.status, Trim(r.summary), if r.status.Completed? then "" else Trim(r.error));
      graph[i := graph[i].(status := r.status, lastOutcome := Some(outcome))]
    else graph[i := graph[i].(status := r.status)]
  }

  function SyncedTask(t: ExecTask, planTask: P.Task): ExecTask {
    var outcome :=
      if !planTask.status.Skipped? && !planTask.status.Cancelled? then t.lastOutcome
      else
        var o :=
          if t.lastOutcome.Some? then t.lastOutcome.value else Outcome(planTask.status, Trim(planTask.error), "");
        Some(if o.error == "" then o.(error := Trim(planTask.error)) else o);
    t.(status := planTask.status, lastOutcome := outcome)
  }

  function SyncOne(graph: seq<ExecTask>, planTask: P.Task): seq<ExecTask> {
    var i := FindExec(graph, planTask.id);
    if i < 0 then graph else graph[i := SyncedTask(graph[i], planTask)]
  }

  function SyncAll(graph: seq<ExecTask>, tasks: seq<P.Task>): seq<ExecTask> {
    if tasks == [] then graph else SyncOne(SyncAll(graph, tasks[..|tasks| - 1]), tasks[|tasks| - 1])
  }

  // ---------------------------------------------------------------------------
  // Requeueing the plan's side of a batch
  // ---------------------------------------------------------------------------

  function RequeuedTask(t: P.Task, ids: seq<string>): P.Task {
    if t.id in ids && t.status.Running? then t.(status := P.Queued, error := "") else t
  }

  function RequeuedTasks(tasks: seq<P.Task>, ids: seq<string>): seq<P.Task> {
    seq(|tasks|, i requires 0 <= i < |tasks| => RequeuedTask(tasks[i], ids))
  }

  function RunningIDs(tasks: seq<P.Task>): seq<string> {
    if tasks == [] then []
    else
      var t := tasks[|tasks| - 1];
      RunningIDs(tasks[..|tasks| - 1]) + if t.status.Running? then [t.id] else []
  }

  function FirstOrNone(ids: seq<string>): string {
    if ids == [] then "" else ids[0]
  }

  /** The plan half of requeueBatchTasksForRetry. */
  function RequeuePlan(p: P.Plan, ids: seq<string>): P.Plan {
    if ids == [] then p
    else
      var tasks := RequeuedTasks(p.tasks, ids);
      p.(tasks := tasks, runningTasks := RunningIDs(tasks), activeTask := FirstOrNone(RunningIDs(tasks)))
  }

  // ---------------------------------------------------------------------------
  // Histories
  // ---------------------------------------------------------------------------

  /** ChangeOp is any status change made on the plan alone by the planner's other operations. */
  datatype Op =
    | RebuildOp
    | DispatchOp(ids: seq<string>)
    | RequeueOp(ids: seq<string>)
    | ApplyOp(result: Result)
    | ChangeOp(statuses: map<string, P.Status>, errors: map<string, string>)
    | SyncOp

  function Ensure(digest: Digest, r: Run): Run {
    var p := P.Normalize(r.plan);
    Run(p, Rebuild(digest, p.tasks, r.graph))
  }

  function ChangedTask(t: P.Task, statuses: map<string, P.Status>, errors: map<string, string>): P.Task {
    t.(
      status := if t.id in statuses then statuses[t.id] else t.status,
      error := if t.id in errors then errors[t.id] else t.error)
  }

  function Apply(digest: Digest, r: Run, op: Op): Run {
    match op
    case RebuildOp => Ensure(digest, r)
    case DispatchOp(ids) =>
      var e := Ensure(digest, r);
      Run(P.MarkRunning(e.plan, ids), MarkAll(e.graph, ids))
    case RequeueOp(ids) => Run(RequeuePlan(r.plan, ids), RequeueAll(r.graph, ids))
    case ApplyOp(result) => r.(graph := ApplyResult(r.graph, result))
    case ChangeOp(statuses, errors) =>
      var n := |r.plan.tasks|;
      var tasks := seq(n, i requires 0 <= i < n => ChangedTask(r.plan.tasks[i], statuses, errors));
      r.(plan := r.plan.(tasks := tasks))
    case SyncOp =>
      var e := Ensure(digest, r);
      e.(graph := SyncAll(e.graph, e.plan.tasks))
  }

  function ApplyAll(digest: Digest, r: Run, ops: seq<Op>): Run {
    if ops == [] then r else Apply(digest, ApplyAll(digest, r, ops[..|ops| - 1]), ops[|ops| - 1])
  }

  /** How often a task was dispatched. */
  ghost function Dispatches(ops: seq<Op>, id: string): nat {
    if ops == [] then 0
    else
      var last := ops[|ops| - 1];
      Dispatches(ops[..|ops| - 1], id) + if last.DispatchOp? then multiset(last.ids)[id] else 0
  }

  // ---------------------------------------------------------------------------
  // What every operation keeps
  // ---------------------------------------------------------------------------

  /** Equal but for statuses and outcomes. */
  ghost predicate SameMemory(g: seq<ExecTask>, h: seq<ExecTask>) {
    |g| == |h| && forall i :: 0 <= i < |g| ==> h[i] == g[i].(status := h[i].status, lastOutcome := h[i].lastOutcome)
  }

  lemma {:induction false} RequeueKeepsMemory(graph: seq<ExecTask>, ids: seq<string>)
    ensures SameMemory(graph, RequeueAll(graph, ids))
  {
    if ids != [] { RequeueKeepsMemory(graph, ids[..|ids| - 1]); }
  }

  lemma {:induction false} SyncKeepsMemory(graph: seq<ExecTask>, tasks: seq<P.Task>)
    ensures SameMemory(graph, SyncAll(graph, tasks))
  {
    if tasks != [] { SyncKeepsMemory(graph, tasks[..|tasks| - 1]); }
  }

  lemma ApplyResultKeepsMemory(graph: seq<ExecTask>, r: Result)
    ensures SameMemory(graph, ApplyResult(graph, r))
  {
  }

  lemma GoodGraphHasGoodKeys(graph: seq<ExecTask>)
    requires GoodGraph(graph)
    ensures GoodKeys(graph)
  {
    forall k | 0 <= k < |graph| ensures Trimmed(graph[k].meta.id) { assert NormalTask(graph[k]) == graph[k]; }
  }

  lemma GoodGraphIds(g: seq<ExecTask>, h: seq<ExecTask>)
    requires GoodGraph(g) && |h| == |g|
    requires forall i :: 0 <= i < |g| ==>
             h[i].meta == g[i].meta && h[i].idempotencyKey == g[i].idempotencyKey && !h[i].status.Unset?
    ensures GoodGraph(h)
  {
    forall i | 0 <= i < |h| ensures NormalTask(h[i]) == h[i] { assert NormalTask(g[i]) == g[i]; }
  }

  lemma {:induction false} MarkEffect(graph: seq<ExecTask>, ids: seq<string>, i: nat)
    requires GoodGraph(graph) && i < |graph|
    ensures |MarkAll(graph, ids)| == |graph| && GoodGraph(MarkAll(graph, ids))
    ensures MarkAll(graph, ids)[i] == graph[i].(
            status := if graph[i].meta.id in ids then P.Running else graph[i].status,
            attemptCount := graph[i].attemptCount + multiset(ids)[graph[i].meta.id])
  {
    if ids != [] {
      var init, id := ids[..|ids| - 1], ids[|ids| - 1];
      assert ids == init + [id];
      var g := MarkAll(graph, init);
      MarkEffect(graph, init, i);
      FindExecGood(g, i);
      var k := FindExec(g, id);
      if k >= 0 {
        assert NormalTask(g[k]) == g[k];
        GoodGraphIds(g, MarkOne(g, id));
      }
    }
  }

  /** The graph follows the plan: same tasks in the same order, the conflict metadata and idempotency key
      that the plan's tasks had at the start, and the given attempt counts. */
  ghost predicate Follows(digest: Digest, tasks: seq<P.Task>, graph: seq<ExecTask>, count: string -> nat) {
    && |graph| == |tasks|
    && forall i :: 0 <= i < |tasks| ==>
         && graph[i].meta == Derive(digest, tasks[i]).meta
         && graph[i].idempotencyKey == Derive(digest, tasks[i]).idempotencyKey
         && graph[i].attemptCount == count(tasks[i].id)
  }

  ghost predicate HistoryOk(digest: Digest, start: P.Plan, r: Run, count: string -> nat) {
    && P.GoodIds(start.tasks) && P.SameShape(start, r.plan)
    && (|| Follows(digest, start.tasks, r.graph, count)
        || (r.graph == [] && forall i :: 0 <= i < |start.tasks| ==> count(start.tasks[i].id) == 0))
  }

  lemma DerivedFromShape(digest: Digest, t: P.Task, u: P.Task)
    requires u == t.(status := u.status, error := u.error)
    ensures Derive(digest, u).meta == Derive(digest, t).meta
    ensures Derive(digest, u).idempotencyKey == Derive(digest, t).idempotencyKey
  {
  }

  lemma NormalizeKeepsShape(p: P.Plan)
    ensures P.SameShape(p, P.Normalize(p))
    ensures forall i :: 0 <= i < |p.tasks| ==> !P.Normalize(p).tasks[i].status.Unset?
  {
  }

  lemma ByIDCarries(digest: Digest, tasks: seq<P.Task>, graph: seq<ExecTask>, count: string -> nat, i: nat)
    requires P.GoodIds(tasks) && Follows(digest, tasks, graph, count) && i < |tasks|
    ensures tasks[i].id in ByID(graph)
    ensures ByID(graph)[tasks[i].id] == graph[i].(status := ByID(graph)[tasks[i].id].status)
  {
    assert forall k :: 0 <= k < |graph| ==> graph[k].meta.id == tasks[k].id;
    assert GoodKeys(graph);
    ByIDFinds(graph, i);
    DerivedIsNormal(digest, tasks[i]);
  }

  lemma RebuiltFollows(digest: Digest, tasks: seq<P.Task>, now: P.Task, graph: seq<ExecTask>, count: string -> nat,
                       i: nat)
    requires P.GoodIds(tasks) && i < |tasks| && now == tasks[i].(status := now.status, error := now.error)
    requires Follows(digest, tasks, graph, count) || (graph == [] && count(tasks[i].id) == 0)
    ensures var t := RebuiltTask(digest, now, ByID(graph));
            && t.meta == Derive(digest, tasks[i]).meta && t.idempotencyKey == Derive(digest, tasks[i]).idempotencyKey
            && t.attemptCount == count(tasks[i].id)
            && (graph != [] ==> t.lastOutcome == graph[i].lastOutcome)
  {
    DerivedFromShape(digest, tasks[i], now);
    if Follows(digest, tasks, graph, count) {
      ByIDCarries(digest, tasks, graph, count, i);
    }
  }

  /** Rebuilding gives a graph that follows the plan; if there was one, nothing of it is lost. */
  lemma EnsureFollows(digest: Digest, start: P.Plan, r: Run, count: string -> nat)
    requires HistoryOk(digest, start, r, count)
    ensures var e := Ensure(digest, r);
            && HistoryOk(digest, start, e, count)
            && Follows(digest, start.tasks, e.graph, count)
            && GoodGraph(e.graph)
            && P.GoodIds(e.plan.tasks)
            && (forall i :: 0 <= i < |e.graph| ==>
                e.graph[i].meta.id == e.plan.tasks[i].id && e.graph[i].status == e.plan.tasks[i].status)
            && (r.graph != [] ==> forall i :: 0 <= i < |e.graph| ==> e.graph[i].lastOutcome == r.graph[i].lastOutcome)
  {
    var e := Ensure(digest, r);
    NormalizeKeepsShape(r.plan);
    assert P.GoodIds(e.plan.tasks);
    RebuiltIsGood(digest, e.plan.tasks, r.graph);
    forall i | 0 <= i < |e.graph|
      ensures e.graph[i].meta == Derive(digest, start.tasks[i]).meta
      ensures e.graph[i].idempotencyKey == Derive(digest, start.tasks[i]).idempotencyKey
      ensures e.graph[i].attemptCount == count(start.tasks[i].id)
      ensures r.graph != [] ==> e.graph[i].lastOutcome == r.graph[i].lastOutcome
    {
      RebuiltFollows(digest, start.tasks, e.plan.tasks[i], r.graph, count, i);
    }
  }

  lemma MemoryKeepsFollows(digest: Digest, tasks: seq<P.Task>, g: seq<ExecTask>, h: seq<ExecTask>, count: string -> nat)
    requires Follows(digest, tasks, g, count) && SameMemory(g, h)
    ensures Follows(digest, tasks, h, count)
  {
  }

  ghost predicate CountsOn(op: Op, count: string -> nat, next: string -> nat) {
    forall id :: next(id) == count(id) + if op.DispatchOp? then multiset(op.ids)[id] else 0
  }

  lemma DispatchKeepsHistory(digest: Digest, start: P.Plan, r: Run, ids: seq<string>, count: string -> nat,
                             next: string -> nat)
    requires HistoryOk(digest, start, r, count) && CountsOn(DispatchOp(ids), count, next)
    ensures HistoryOk(digest, start, Apply(digest, r, DispatchOp(ids)), next)
  {
    var e := Ensure(digest, r);
    EnsureFollows(digest, start, r, count);
    MarkKeepsShape(e.plan, ids);
    MarkCounts(digest, start.tasks, e.graph, ids, count, next);
  }

  lemma MarkKeepsShape(p: P.Plan, ids: seq<string>)
    requires P.GoodIds(p.tasks)
    ensures P.SameShape(p, P.MarkRunning(p, ids))
  {
    if p.tasks == [] { MarkEmpty(p, ids); } else { P.MarkEachEffect(p, ids, 0); }
  }

  lemma MarkCounts(digest: Digest, tasks: seq<P.Task>, graph: seq<ExecTask>, ids: seq<string>, count: string -> nat,
                   next: string -> nat)
    requires P.GoodIds(tasks) && Follows(digest, tasks, graph, count) && GoodGraph(graph)
             && CountsOn(DispatchOp(ids), count, next)
    ensures Follows(digest, tasks, MarkAll(graph, ids), next)
  {
    forall i | 0 <= i < |tasks|
      ensures |MarkAll(graph, ids)| == |tasks|
      ensures var marked := MarkAll(graph, ids)[i];
              marked == graph[i].(status := marked.status, attemptCount := next(tasks[i].id))
    {
      MarkEffect(graph, ids, i);
    }
    MarkKeepsLength(graph, ids);
  }

  lemma {:induction false} MarkEmpty(p: P.Plan, ids: seq<string>)
    requires p.tasks == []
    ensures P.MarkEach(p, ids) == p
  {
    if ids != [] { MarkEmpty(p, ids[..|ids| - 1]); }
  }

  lemma {:induction false} MarkKeepsLength(graph: seq<ExecTask>, ids: seq<string>)
    ensures |MarkAll(graph, ids)| == |graph|
  {
    if ids != [] { MarkKeepsLength(graph, ids[..|ids| - 1]); }
  }

  lemma RequeueKeepsHistory(digest: Digest, start: P.Plan, r: Run, ids: seq<string>, count: string -> nat)
    requires HistoryOk(digest, start, r, count)
    ensures HistoryOk(digest, start, Apply(digest, r, RequeueOp(ids)), count)
  {
    RequeueKeepsMemory(r.graph, ids);
    if Follows(digest, start.tasks, r.graph, count) {
      MemoryKeepsFollows(digest, start.tasks, r.graph, RequeueAll(r.graph, ids), count);
    }
  }

  lemma ApplyResultKeepsHistory(digest: Digest, start: P.Plan, r: Run, result: Result, count: string -> nat)
    requires HistoryOk(digest, start, r, count)
    ensures HistoryOk(digest, start, Apply(digest, r, ApplyOp(result)), count)
  {
    ApplyResultKeepsMemory(r.graph, result);
    if Follows(digest, start.tasks, r.graph, count) {
      MemoryKeepsFollows(digest, start.tasks, r.graph, ApplyResult(r.graph, result), count);
    }
  }

  lemma SyncKeepsHistory(digest: Digest, start: P.Plan, r: Run, count: string -> nat)
    requires HistoryOk(digest, start, r, count)
    ensures HistoryOk(digest, start, Apply(digest, r, SyncOp), count)
  {
    var e := Ensure(digest, r);
    assert P.SameShape(start, e.plan) && Follows(digest, start.tasks, e.graph, count) by {
      EnsureFollows(digest, start, r, count);
    }
    SyncKeepsMemory(e.graph, e.plan.tasks);
    MemoryKeepsFollows(digest, start.tasks, e.graph, SyncAll(e.graph, e.plan.tasks), count);
  }

  lemma ChangeKeepsHistory(digest: Digest, start: P.Plan, r: Run, op: Op, count: string -> nat)
    requires HistoryOk(digest, start, r, count) && op.ChangeOp?
    ensures HistoryOk(digest, start, Apply(digest, r, op), count)
  {
  }

  lemma CountsAgree(digest: Digest, start: P.Plan, r: Run, count: string -> nat, next: string -> nat)
    requires HistoryOk(digest, start, r, count) && forall id :: next(id) == count(id)
    ensures HistoryOk(digest, start, r, next)
  {
  }

  lemma ApplyKeepsHistory(digest: Digest, start: P.Plan, r: Run, op: Op, count: string -> nat, next: string -> nat)
    requires HistoryOk(digest, start, r, count) && CountsOn(op, count, next)
    ensures HistoryOk(digest, start, Apply(digest, r, op), next)
  {
    match op {
      case DispatchOp(ids) =>
        DispatchKeepsHistory(digest, start, r, ids, count, next);
        return;
      case RequeueOp(ids) => RequeueKeepsHistory(digest, start, r, ids, count);
      case ApplyOp(result) => ApplyResultKeepsHistory(digest, start, r, result, count);
      case SyncOp => SyncKeepsHistory(digest, start, r, count);
      case RebuildOp => EnsureFollows(digest, start, r, count);
      case ChangeOp(_, _) => ChangeKeepsHistory(digest, start, r, op, count);
    }
    CountsAgree(digest, start, Apply(digest, r, op), count, next);
  }

  /** Over any history of one plan that starts without a graph: the plan keeps its shape, and once the
      graph is built every task's attempt count is its number of dispatches and its conflict metadata and
      idempotency key are those of the first build. */
  lemma {:induction false} GraphRemembersEverything(digest: Digest, start: P.Plan, ops: seq<Op>)
    requires P.GoodIds(start.tasks)
    ensures HistoryOk(digest, start, ApplyAll(digest, Run(start, []), ops), id => Dispatches(ops, id))
  {
    if ops != [] {
      var init, last := ops[..|ops| - 1], ops[|ops| - 1];
      GraphRemembersEverything(digest, start, init);
      ApplyKeepsHistory(digest, start, ApplyAll(digest, Run(start, []), init), last,
                        id => Dispatches(init, id), id => Dispatches(ops, id));
    }
  }

  /** The last entries for a task win; with distinct ids each graph task gets its own plan task's status. */
  lemma {:induction false} SyncEffect(graph: seq<ExecTask>, tasks: seq<P.Task>, i: nat)
    requires GoodKeys(graph) && |tasks| <= |graph| && i < |graph|
    requires forall k :: 0 <= k < |tasks| ==> tasks[k].id == graph[k].meta.id
    ensures |SyncAll(graph, tasks)| == |graph|
    ensures SyncAll(graph, tasks)[i] == if i < |tasks| then SyncedTask(graph[i], tasks[i]) else graph[i]
  {
    SyncKeepsMemory(graph, tasks);
    if tasks != [] {
      var n := |tasks| - 1;
      SyncEffect(graph, tasks[..n], i);
      var g := SyncAll(graph, tasks[..n]);
      SyncKeepsMemory(graph, tasks[..n]);
      assert g[n].meta.id == tasks[n].id && Trim(tasks[n].id) != "";
      var k := FindExec(g, tasks[n].id);
      assert g[k].meta.id == graph[k].meta.id;
      assert k == n;
    }
  }

  lemma SyncMatches(graph: seq<ExecTask>, tasks: seq<P.Task>)
    requires GoodKeys(graph) && |tasks| == |graph|
    requires forall k :: 0 <= k < |tasks| ==> tasks[k].id == graph[k].meta.id
    ensures |SyncAll(graph, tasks)| == |tasks|
    ensures forall i :: 0 <= i < |tasks| ==> SyncAll(graph, tasks)[i].status == tasks[i].status
  {
    SyncKeepsMemory(graph, tasks);
    forall i | 0 <= i < |tasks| ensures SyncAll(graph, tasks)[i].status == tasks[i].status {
      SyncEffect(graph, tasks, i);
    }
  }

  ghost predicate StatusesMatch(r: Run) {
    |r.graph| == |r.plan.tasks| && forall i :: 0 <= i < |r.graph| ==> r.graph[i].status == r.plan.tasks[i].status
  }

  lemma SyncedMatches(e: Run)
    requires GoodKeys(e.graph) && SameIds(e)
    ensures StatusesMatch(Run(e.plan, SyncAll(e.graph, e.plan.tasks)))
  {
    SyncMatches(e.graph, e.plan.tasks);
  }

  lemma SyncMakesStatusesMatch(digest: Digest, start: P.Plan, r: Run, count: string -> nat)
    requires HistoryOk(digest, start, r, count)
    ensures StatusesMatch(Apply(digest, r, SyncOp))
  {
    Aligned(digest, start, r, count);
    AlignedSyncMatches(digest, r, Ensure(digest, r));
  }

  lemma AlignedSyncMatches(digest: Digest, r: Run, e: Run)
    requires e == Ensure(digest, r) && GoodKeys(e.graph) && SameIds(e)
    ensures StatusesMatch(Apply(digest, r, SyncOp))
  {
    SyncedMatches(e);
    assert Apply(digest, r, SyncOp) == Run(e.plan, SyncAll(e.graph, e.plan.tasks));
  }

  ghost predicate SameIds(r: Run) {
    |r.graph| == |r.plan.tasks| && forall k :: 0 <= k < |r.graph| ==> r.plan.tasks[k].id == r.graph[k].meta.id
  }

  lemma Aligned(digest: Digest, start: P.Plan, r: Run, count: string -> nat)
    requires HistoryOk(digest, start, r, count)
    ensures var e := Ensure(digest, r);
            GoodKeys(e.graph) && SameIds(e)
  {
    EnsureFollows(digest, start, r, count);
    GoodGraphHasGoodKeys(Ensure(digest, r).graph);
  }

  /** After a sync every graph status is the plan's status. */
  lemma SyncedStatuses(digest: Digest, start: P.Plan, ops: seq<Op>)
    requires P.GoodIds(start.tasks) && ops != [] && ops[|ops| - 1].SyncOp?
    ensures StatusesMatch(ApplyAll(digest, Run(start, []), ops))
  {
    var init := ops[..|ops| - 1];
    GraphRemembersEverything(digest, start, init);
    SyncMakesStatusesMatch(digest, start, ApplyAll(digest, Run(start, []), init), id => Dispatches(init, id));
  }

  // ---------------------------------------------------------------------------
  // Statuses and outcomes
  // ---------------------------------------------------------------------------

  /** A result sets the status, and the last outcome unless it is no outcome at all: the runner's own outcome if
      it gave one, else the summary of a task that ended, with its error unless it completed. */
  predicate RecordsResult(before: Option<Outcome>, after: ExecTask, r: Result) {
    && after.status == r.status
    && (r.outcome.Some? ==> after.lastOutcome == r.outcome)
    && (r.outcome.None? ==>
          match r.status
          case Completed => after.lastOutcome == Some(Outcome(P.Completed, Trim(r.summary), ""))
          case Failed => after.lastOutcome == Some(Outcome(P.Failed, Trim(r.summary), Trim(r.error)))
          case Skipped => after.lastOutcome == Some(Outcome(P.Skipped, Trim(r.summary), Trim(r.error)))
          case Cancelled => after.lastOutcome == Some(Outcome(P.Cancelled, Trim(r.summary), Trim(r.error)))
          case _ => after.lastOutcome == before)
  }

  /** A sync takes the plan's status over. A task the plan skipped or cancelled has an outcome afterwards: the one
      it had, or the plan's error as its summary; and the plan's error, if the outcome has none of its own. */
  predicate RecordsPlan(before: Option<Outcome>, after: ExecTask, t: P.Task) {
    && after.status == t.status
    && (!t.status.Skipped? && !t.status.Cancelled? ==> after.lastOutcome == before)
    && (t.status.Skipped? || t.status.Cancelled? ==>
          && after.lastOutcome.Some?
          && var o := after.lastOutcome.value;
             match before
             case None => o == Outcome(t.status, Trim(t.error), Trim(t.error))
             case Some(last) =>
               && o.status == last.status && o.summary == last.summary
               && o.error == if last.error != "" then last.error else Trim(t.error))
  }

  lemma ResultEffect(graph: seq<ExecTask>, r: Result, i: nat)
    requires GoodKeys(graph) && i < |graph|
    ensures |ApplyResult(graph, r)| == |graph|
    ensures if graph[i].meta.id == r.taskID then RecordsResult(graph[i].lastOutcome, ApplyResult(graph, r)[i], r)
            else ApplyResult(graph, r)[i] == graph[i]
  {
    var k := FindExec(graph, r.taskID);
    if graph[i].meta.id == r.taskID { assert k == i; }
  }

  lemma {:induction false} RequeueKeepsOutcomes(graph: seq<ExecTask>, ids: seq<string>, i: nat)
    requires i < |graph|
    ensures |RequeueAll(graph, ids)| == |graph|
    ensures RequeueAll(graph, ids)[i].lastOutcome == graph[i].lastOutcome
  {
    if ids != [] { RequeueKeepsOutcomes(graph, ids[..|ids| - 1], i); }
  }

  /** The last outcome of the task at `i`; none before the graph is built. */
  function OutcomeAt(r: Run, i: nat): Option<Outcome> {
    if i < |r.graph| then r.graph[i].lastOutcome else None
  }

  lemma FollowsGoodKeys(digest: Digest, tasks: seq<P.Task>, graph: seq<ExecTask>, count: string -> nat)
    requires P.GoodIds(tasks) && Follows(digest, tasks, graph, count)
    ensures GoodKeys(graph) && |graph| == |tasks|
    ensures forall k :: 0 <= k < |graph| ==> graph[k].meta.id == tasks[k].id
  {
    forall k | 0 <= k < |graph| ensures graph[k].meta.id == tasks[k].id { }
  }

  /** Rebuilding, dispatching, requeueing and changes to the plan leave every outcome alone. */
  lemma OutcomesStay(digest: Digest, start: P.Plan, r: Run, op: Op, count: string -> nat, i: nat)
    requires HistoryOk(digest, start, r, count) && i < |start.tasks| && !op.ApplyOp? && !op.SyncOp?
    ensures OutcomeAt(Apply(digest, r, op), i) == OutcomeAt(r, i)
  {
    match op {
      case RebuildOp => EnsureKeepsOutcome(digest, start, r, count, i);
      case DispatchOp(ids) =>
        EnsureKeepsOutcome(digest, start, r, count, i);
        MarkEffect(Ensure(digest, r).graph, ids, i);
      case RequeueOp(ids) =>
        RequeueKeepsMemory(r.graph, ids);
        if i < |r.graph| { RequeueKeepsOutcomes(r.graph, ids, i); }
      case ChangeOp(_, _) =>
    }
  }

  lemma EnsureKeepsOutcome(digest: Digest, start: P.Plan, r: Run, count: string -> nat, i: nat)
    requires HistoryOk(digest, start, r, count) && i < |start.tasks|
    ensures var e := Ensure(digest, r);
            && |e.graph| == |start.tasks| == |e.plan.tasks| && GoodGraph(e.graph)
            && OutcomeAt(e, i) == OutcomeAt(r, i)
  {
    EnsureFollows(digest, start, r, count);
    assert r.graph == [] ==> Ensure(digest, r).graph[i].lastOutcome == None;
  }

  /** What the operation does to the outcome kept for the task at `i`, which goes by the given id. */
  ghost predicate OutcomeStep(r: Run, r': Run, op: Op, id: string, i: nat) {
    match op
    case ApplyOp(result) =>
      if r.graph == [] || result.taskID != id then OutcomeAt(r', i) == OutcomeAt(r, i)
      else i < |r.graph| == |r'.graph| && RecordsResult(r.graph[i].lastOutcome, r'.graph[i], result)
    case SyncOp =>
      && i < |r'.graph| == |r'.plan.tasks|
      && RecordsPlan(OutcomeAt(r, i), r'.graph[i], r'.plan.tasks[i])
    case _ => OutcomeAt(r', i) == OutcomeAt(r, i)
  }

  lemma ResultOutcome(digest: Digest, start: P.Plan, r: Run, result: Result, count: string -> nat, i: nat)
    requires HistoryOk(digest, start, r, count) && i < |start.tasks|
    ensures OutcomeStep(r, Apply(digest, r, ApplyOp(result)), ApplyOp(result), start.tasks[i].id, i)
  {
    if r.graph != [] {
      FollowsGoodKeys(digest, start.tasks, r.graph, count);
      ResultEffect(r.graph, result, i);
    }
  }

  lemma SyncOutcome(digest: Digest, start: P.Plan, r: Run, count: string -> nat, i: nat)
    requires HistoryOk(digest, start, r, count) && i < |start.tasks|
    ensures OutcomeStep(r, Apply(digest, r, SyncOp), SyncOp, start.tasks[i].id, i)
  {
    var e := Ensure(digest, r);
    assert OutcomeAt(e, i) == OutcomeAt(r, i) && |e.plan.tasks| == |start.tasks| by {
      EnsureKeepsOutcome(digest, start, r, count, i);
    }
    Aligned(digest, start, r, count);
    SyncEffect(e.graph, e.plan.tasks, i);
  }

  /** After any history, the outcome kept for a task changes only when a result for it is applied, and is then
      that result's, or by a sync, and is then the plan's word on a task it skipped or cancelled. */
  lemma OutcomeHistory(digest: Digest, start: P.Plan, ops: seq<Op>, op: Op, i: nat)
    requires P.GoodIds(start.tasks) && i < |start.tasks|
    ensures var r := ApplyAll(digest, Run(start, []), ops);
            OutcomeStep(r, Apply(digest, r, op), op, start.tasks[i].id, i)
  {
    var r := ApplyAll(digest, Run(start, []), ops);
    var count := id => Dispatches(ops, id);
    GraphRemembersEverything(digest, start, ops);
    if op.ApplyOp? {
      ResultOutcome(digest, start, r, op.result, count, i);
    } else if op.SyncOp? {
      SyncOutcome(digest, start, r, count, i);
    } else {
      OutcomesStay(digest, start, r, op, count, i);
    }
  }
}
