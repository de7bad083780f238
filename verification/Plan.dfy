/** Execution plans: tasks, their statuses and the planner's operations on them. */
module Plan {
  import opened Sequences
  import opened Text

  datatype Kind = Unspecified | Research | Translate | Transform | Write | Execute | Review | Deliver

  datatype Status = Unset | Queued | Running | Completed | Failed | Cancelled | Skipped

  datatype Strategy = Serial | Parallel | Mixed

  datatype Task = Task(
    id: string, title: string, kind: Kind, goal: string,
    dependsOn: seq<string>, outputs: seq<string>,
    requiredCapabilities: seq<string>, verificationHints: seq<string>,
    status: Status, error: string)

  datatype Plan = Plan(
    strategy: Strategy, tasks: seq<Task>, finalTask: string,
    activeTask: string, runningTasks: seq<string>)

  ghost predicate GoodIds(tasks: seq<Task>) {
    && (forall i :: 0 <= i < |tasks| ==> tasks[i].id != "" && Trimmed(tasks[i].id))
    && (forall i, j :: 0 <= i < j < |tasks| ==> tasks[i].id != tasks[j].id)
  }

  /** FindTask: the index of the first task with this id, or -1. */
  function Find(tasks: seq<Task>, id: string): (i: int)
    ensures -1 <= i < |tasks|
    ensures i >= 0 ==> tasks[i].id == id && Trim(id) != ""
    ensures i < 0 ==> Trim(id) == "" || forall k :: 0 <= k < |tasks| ==> tasks[k].id != id
  {
    if tasks == [] || Trim(id) == "" then -1
    else
      var i := Find(tasks[..|tasks| - 1], id);
      if i >= 0 then i else if tasks[|tasks| - 1].id == id then |tasks| - 1 else -1
  }

  lemma FindGood(tasks: seq<Task>, i: nat)
    requires GoodIds(tasks) && i < |tasks|
    ensures Find(tasks, tasks[i].id) == i
  {
  }

  predicate IsRunning(tasks: seq<Task>, id: string) {
    var i := Find(tasks, id);
    i >= 0 && tasks[i].status.Running?
  }

  function KeepRunning(tasks: seq<Task>, ids: seq<string>): seq<string> {
    if ids == [] then []
    else
      var rest := KeepRunning(tasks, ids[..|ids| - 1]);
      if IsRunning(tasks, ids[|ids| - 1]) then rest + [ids[|ids| - 1]] else rest
  }

  function NormalTask(t: Task): Task {
    t.(status := if t.status.Unset? then Queued else t.status, error := Trim(t.error))
  }

  /** NormalizeExecution. */
  function Normalize(p: Plan): Plan {
    var tasks := seq(|p.tasks|, i requires 0 <= i < |p.tasks| => NormalTask(p.tasks[i]));
    p.(
      tasks := tasks,
      activeTask := if IsRunning(tasks, Trim(p.activeTask)) then Trim(p.activeTask) else "",
      runningTasks := KeepRunning(tasks, p.runningTasks))
  }

  function MarkOne(p: Plan, id: string): Plan {
    var i := Find(p.tasks, id);
    if i < 0 || !p.tasks[i].status.Queued? then p
    else p.(tasks := p.tasks[i := p.tasks[i].(status := Running, error := "")],
            runningTasks := if id in p.runningTasks then p.runningTasks else p.runningTasks + [id])
  }

  function MarkEach(p: Plan, ids: seq<string>): Plan {
    if ids == [] then p else MarkOne(MarkEach(p, ids[..|ids| - 1]), ids[|ids| - 1])
  }

  /** MarkRunning. */
  function MarkRunning(p: Plan, ids: seq<string>): Plan {
    var q := MarkEach(p, ids);
    if q.activeTask == "" && q.runningTasks != [] then q.(activeTask := q.runningTasks[0]) else q
  }

  /** Equal but for statuses, errors and the record of what is running. */
  ghost predicate SameShape(p: Plan, q: Plan) {
    && p.strategy == q.strategy && p.finalTask == q.finalTask
    && |p.tasks| == |q.tasks|
    && forall i :: 0 <= i < |p.tasks| ==>
         q.tasks[i] == p.tasks[i].(status := q.tasks[i].status, error := q.tasks[i].error)
  }

  /** Marking runs exactly the queued tasks named, and clears their errors. */
  lemma {:induction false} MarkEachEffect(p: Plan, ids: seq<string>, i: nat)
    requires GoodIds(p.tasks) && i < |p.tasks|
    ensures SameShape(p, MarkEach(p, ids))
    ensures MarkEach(p, ids).tasks[i] ==
            if p.tasks[i].id in ids && p.tasks[i].status.Queued? then p.tasks[i].(status := Running, error := "")
            else p.tasks[i]
    ensures MarkEach(p, ids).activeTask == p.activeTask
  {
    if ids != [] {
      var init, id := ids[..|ids| - 1], ids[|ids| - 1];
      assert ids == init + [id];
      var q := MarkEach(p, init);
      forall j | 0 <= j < |p.tasks| ensures SameShape(p, q) && q.tasks[j].id == p.tasks[j].id {
        MarkEachEffect(p, init, j);
      }
      MarkEachEffect(p, init, i);
      assert GoodIds(q.tasks);
      FindGood(q.tasks, i);
    }
  }

  // ---------------------------------------------------------------------------
  // The record of what is running
  // ---------------------------------------------------------------------------

  ghost predicate RunsIn(tasks: seq<Task>, id: string) {
    exists i :: 0 <= i < |tasks| && tasks[i].id == id && tasks[i].status.Running?
  }

  lemma IsRunningIff(tasks: seq<Task>, id: string)
    requires GoodIds(tasks)
    ensures IsRunning(tasks, id) <==> RunsIn(tasks, id)
  {
    if i :| 0 <= i < |tasks| && tasks[i].id == id && tasks[i].status.Running? { FindGood(tasks, i); }
  }

  lemma {:induction false} KeepRunningMembers(tasks: seq<Task>, ids: seq<string>, id: string)
    requires GoodIds(tasks)
    ensures id in KeepRunning(tasks, ids) <==> id in ids && RunsIn(tasks, id)
    ensures IsSubsequence(KeepRunning(tasks, ids), ids)
  {
    if ids != [] {
      var init, last := ids[..|ids| - 1], ids[|ids| - 1];
      assert ids == init + [last];
      KeepRunningMembers(tasks, init, id);
      IsRunningIff(tasks, last);
      SubsequenceSnoc(KeepRunning(tasks, init), init, last);
    }
  }

  /** Normalizing queues the tasks without a status and changes no other; of the record of what is running it
      keeps, in order, exactly what does run. */
  lemma NormalizeEffect(p: Plan)
    requires GoodIds(p.tasks)
    ensures
      var r := Normalize(p);
      && SameShape(p, r) && GoodIds(r.tasks)
      && (forall i :: 0 <= i < |p.tasks| ==>
            && r.tasks[i].error == Trim(p.tasks[i].error)
            && (p.tasks[i].status == Unset ==> r.tasks[i].status == Queued)
            && (p.tasks[i].status != Unset ==> r.tasks[i].status == p.tasks[i].status))
      && (forall id :: id in r.runningTasks <==> id in p.runningTasks && RunsIn(p.tasks, id))
      && IsSubsequence(r.runningTasks, p.runningTasks)
      && r.activeTask == if RunsIn(p.tasks, Trim(p.activeTask)) then Trim(p.activeTask) else ""
  {
    var r := Normalize(p);
    assert forall i :: 0 <= i < |p.tasks| ==> r.tasks[i].id == p.tasks[i].id;
    forall id ensures RunsIn(r.tasks, id) <==> RunsIn(p.tasks, id) { RunsInNormal(p, id); }
    forall id ensures id in r.runningTasks <==> id in p.runningTasks && RunsIn(p.tasks, id) {
      KeepRunningMembers(r.tasks, p.runningTasks, id);
    }
    KeepRunningMembers(r.tasks, p.runningTasks, "");
    IsRunningIff(r.tasks, Trim(p.activeTask));
  }

  lemma RunsInNormal(p: Plan, id: string)
    ensures RunsIn(Normalize(p).tasks, id) <==> RunsIn(p.tasks, id)
  {
    var tasks := Normalize(p).tasks;
    if i :| 0 <= i < |p.tasks| && p.tasks[i].id == id && p.tasks[i].status.Running? {
      assert tasks[i].id == id && tasks[i].status.Running?;
    }
    if i :| 0 <= i < |tasks| && tasks[i].id == id && tasks[i].status.Running? {
      assert p.tasks[i].id == id && p.tasks[i].status.Running?;
    }
  }

  /** Whoever is queued in the plan. */
  ghost predicate QueuedIn(tasks: seq<Task>, id: string) {
    exists i :: 0 <= i < |tasks| && tasks[i].id == id && tasks[i].status.Queued?
  }

  /** Marking adds to the record of what is running exactly the queued tasks named, behind what it held. */
  lemma {:induction false} MarkEachRecords(p: Plan, ids: seq<string>)
    requires GoodIds(p.tasks)
    ensures p.runningTasks <= MarkEach(p, ids).runningTasks
    ensures forall id :: id in MarkEach(p, ids).runningTasks <==>
              id in p.runningTasks || (id in ids && QueuedIn(p.tasks, id))
  {
    if ids != [] {
      var init, last := ids[..|ids| - 1], ids[|ids| - 1];
      assert ids == init + [last];
      MarkEachRecords(p, init);
      MarkOneRecords(p, init, last);
    }
  }

  /** Marking names an active task if there was none: the first of those recorded as running. */
  lemma MarkRunningRecords(p: Plan, ids: seq<string>)
    requires GoodIds(p.tasks)
    ensures
      var r := MarkRunning(p, ids);
      && p.runningTasks <= r.runningTasks
      && (forall id :: id in r.runningTasks <==> id in p.runningTasks || (id in ids && QueuedIn(p.tasks, id)))
      && (p.activeTask != "" ==> r.activeTask == p.activeTask)
      && (p.activeTask == "" ==> r.activeTask == if r.runningTasks == [] then "" else r.runningTasks[0])
  {
    MarkEachRecords(p, ids);
    MarkEachActive(p, ids);
  }

  lemma {:induction false} MarkEachActive(p: Plan, ids: seq<string>)
    ensures MarkEach(p, ids).activeTask == p.activeTask
  {
    if ids != [] { MarkEachActive(p, ids[..|ids| - 1]); }
  }

  lemma {:induction false} MarkEachLength(p: Plan, ids: seq<string>)
    ensures |MarkEach(p, ids).tasks| == |p.tasks|
  {
    if ids != [] { MarkEachLength(p, ids[..|ids| - 1]); }
  }

  lemma QueuedAfterMarks(p: Plan, init: seq<string>, last: string)
    requires GoodIds(p.tasks)
    ensures var q := MarkEach(p, init);
            var i := Find(q.tasks, last);
            i >= 0 && q.tasks[i].status.Queued? <==> QueuedIn(p.tasks, last) && last !in init
  {
    var q := MarkEach(p, init);
    MarkEachLength(p, init);
    var i := Find(q.tasks, last);
    if i >= 0 { MarkEachEffect(p, init, i); }
    if k :| 0 <= k < |p.tasks| && p.tasks[k].id == last && p.tasks[k].status.Queued? {
      MarkEachEffect(p, init, k);
      assert q.tasks[k].id == last && Trim(last) != "";
      assert i == k;
    }
  }

  lemma MarkOneRecords(p: Plan, init: seq<string>, last: string)
    requires GoodIds(p.tasks)
    requires forall id :: id in MarkEach(p, init).runningTasks <==>
               id in p.runningTasks || (id in init && QueuedIn(p.tasks, id))
    ensures MarkEach(p, init).runningTasks <= MarkOne(MarkEach(p, init), last).runningTasks
    ensures forall id :: id in MarkOne(MarkEach(p, init), last).runningTasks <==>
              id in MarkEach(p, init).runningTasks || (id == last && QueuedIn(p.tasks, last))
  {
    QueuedAfterMarks(p, init, last);
  }
}
