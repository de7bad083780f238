/** Plan compaction: a final task that only wraps its single predecessor is folded into it, again and
    again, and the dependencies are rewritten around it. */
module Compaction {
  import opened Options
  import opened Text
  import opened Plan

  // ---------------------------------------------------------------------------
  // String lists
  // ---------------------------------------------------------------------------

  predicate Contains(items: seq<string>, target: string) {
    exists i :: 0 <= i < |items| && Trim(items[i]) == Trim(target)
  }

  /** appendUniqueStrings. */
  function AppendUnique(dst: seq<string>, items: seq<string>): seq<string> {
    if items == [] then dst
    else
      var before, item := AppendUnique(dst, items[..|items| - 1]), Trim(items[|items| - 1]);
      if item == "" || Contains(before, item) then before else before + [item]
  }

  /** The distinct non-blank entries of a list, trimmed. */
  ghost function Labels(items: seq<string>): set<string> {
    (set i | 0 <= i < |items| :: Trim(items[i])) - {""}
  }

  lemma LabelsSnoc(items: seq<string>, x: string)
    ensures Labels(items + [x]) == Labels(items) + ({Trim(x)} - {""})
  {
    var more := items + [x];
    forall i | 0 <= i < |items| ensures Trim(items[i]) == Trim(more[i]) { }
    assert Trim(more[|items|]) == Trim(x);
    forall l | l in Labels(more) ensures l in Labels(items) + ({Trim(x)} - {""}) {
      var i :| 0 <= i < |more| && Trim(more[i]) == l;
      if i < |items| { assert Trim(items[i]) == l; }
    }
    forall l | l in Labels(items) ensures l in Labels(more) {
      var i :| 0 <= i < |items| && Trim(items[i]) == l;
      assert Trim(more[i]) == l;
    }
  }

  lemma ContainsIsLabel(items: seq<string>, x: string)
    ensures Trim(x) != "" ==> (Contains(items, x) <==> Trim(x) in Labels(items))
  {
  }

  lemma {:induction false} AppendUniqueLabels(dst: seq<string>, items: seq<string>)
    ensures Labels(AppendUnique(dst, items)) == Labels(dst) + Labels(items)
  {
    if items == [] {
      assert Labels(items) == {};
    } else {
      var init, x := items[..|items| - 1], items[|items| - 1];
      var before := AppendUnique(dst, init);
      AppendUniqueLabels(dst, init);
      LabelsSnoc(init, x);
      assert init + [x] == items;
      TrimIdempotent(x);
      ContainsIsLabel(before, Trim(x));
      LabelsSnoc(before, Trim(x));
    }
  }

  lemma {:induction false} AppendCovered(dst: seq<string>, items: seq<string>)
    requires forall i :: 0 <= i < |items| ==> Contains(dst, items[i])
    ensures AppendUnique(dst, items) == dst
  {
    if items != [] {
      var n := |items| - 1;
      AppendCovered(dst, items[..n]);
      TrimIdempotent(items[n]);
      assert Contains(dst, items[n]);
    }
  }

  /** One dependency list with `from` replaced by `to`, without blanks or repetitions. */
  function ReplaceDeps(deps: seq<string>, from: string, to: string): seq<string> {
    if deps == [] then []
    else
      var before, last := ReplaceDeps(deps[..|deps| - 1], from, to), deps[|deps| - 1];
      var dep := if Trim(last) == from then to else last;
      if dep == "" || Contains(before, dep) then before else before + [dep]
  }

  ghost predicate AllTrimmed(items: seq<string>) {
    forall d :: d in items ==> d != "" && Trimmed(d)
  }

  lemma {:induction false} ReplaceDepsMembers(deps: seq<string>, from: string, to: string)
    requires AllTrimmed(deps) && to != "" && Trimmed(to)
    ensures AllTrimmed(ReplaceDeps(deps, from, to))
    ensures forall d :: d in ReplaceDeps(deps, from, to) <==> (d in deps && d != from) || (d == to && from in deps)
  {
    if deps != [] {
      var init, last := deps[..|deps| - 1], deps[|deps| - 1];
      var before := ReplaceDeps(init, from, to);
      assert deps == init + [last] && last in deps;
      assert AllTrimmed(init) by { assert forall d :: d in init ==> d in deps; }
      ReplaceDepsMembers(init, from, to);
      var dep := if last == from then to else last;
      if Contains(before, dep) {
        var i :| 0 <= i < |before| && Trim(before[i]) == Trim(dep);
        assert before[i] in before;
        assert dep in before;
      }
    }
  }

  // ---------------------------------------------------------------------------
  // One pass
  // ---------------------------------------------------------------------------

  predicate IsCandidate(t: Task) {
    (t.kind.Deliver? || t.kind.Unspecified?) && Trim(t.title) == "" && Trim(t.goal) == ""
  }

  predicate HasDistinctBoundary(t: Task, parent: Task) {
    t.requiredCapabilities != [] ||
    exists i :: 0 <= i < |t.outputs| && !Contains(parent.outputs, t.outputs[i])
  }

  function Absorb(parent: Task, t: Task): Task {
    parent.(
      outputs := AppendUnique(parent.outputs, t.outputs),
      requiredCapabilities := AppendUnique(parent.requiredCapabilities, t.requiredCapabilities),
      verificationHints := AppendUnique(parent.verificationHints, t.verificationHints))
  }

  function ReplacedTask(t: Task, from: string, to: string): Task {
    if from == "" || to == "" || from == to || t.id == from then t
    else t.(dependsOn := ReplaceDeps(t.dependsOn, from, to))
  }

  function ReplaceAll(tasks: seq<Task>, from: string, to: string): seq<Task> {
    seq(|tasks|, i requires 0 <= i < |tasks| => ReplacedTask(tasks[i], from, to))
  }

  function Remove(tasks: seq<Task>, id: string): (r: seq<Task>)
    ensures |r| <= |tasks|
    ensures (exists i :: 0 <= i < |tasks| && tasks[i].id == id) ==> |r| < |tasks|
  {
    if tasks == [] then []
    else
      var rest := Remove(tasks[..|tasks| - 1], id);
      if tasks[|tasks| - 1].id == id then rest else rest + [tasks[|tasks| - 1]]
  }

  /** The final wrapper and the task that will absorb it, as indices, if there is something to fold. */
  function Fold(p: Plan): (r: Option<(nat, nat)>)
    ensures r.Some? ==> r.value.0 < |p.tasks| && r.value.1 < |p.tasks|
  {
    var f := Find(p.tasks, Trim(p.finalTask));
    if |p.tasks| < 2 || f < 0 || !IsCandidate(p.tasks[f]) || |p.tasks[f].dependsOn| != 1 then None
    else
      var q := Find(p.tasks, p.tasks[f].dependsOn[0]);
      if q < 0 || HasDistinctBoundary(p.tasks[f], p.tasks[q]) then None else Some((f, q))
  }

  function Folded(p: Plan, f: nat, q: nat): Plan
    requires f < |p.tasks| && q < |p.tasks|
  {
    var from, to := p.tasks[f].id, p.tasks[q].id;
    var tasks := Remove(ReplaceAll(p.tasks[q := Absorb(p.tasks[q], p.tasks[f])], from, to), from);
    p.(tasks := tasks, finalTask := to, strategy := if |tasks| == 1 then Serial else p.strategy)
  }

  /** compactFinalDeliverWrapper; None when nothing changed. */
  function Pass(p: Plan): Option<Plan> {
    var r := Fold(p);
    if r.None? then None else Some(Folded(p, r.value.0, r.value.1))
  }

  /** A task that does nothing of its own: no purpose is stated and nothing is required to run it. */
  predicate EmptyWrapper(t: Task) {
    && (t.kind.Deliver? || t.kind.Unspecified?)
    && Trim(t.title) == "" && Trim(t.goal) == ""
    && t.requiredCapabilities == []
  }

  /** Every output of `t` is one of `u`'s, up to the space around it. */
  predicate OutputsCovered(t: Task, u: Task) {
    forall i :: 0 <= i < |t.outputs| ==> OutputCovered(t, u, i)
  }

  predicate OutputCovered(t: Task, u: Task, i: nat)
    requires i < |t.outputs|
  {
    exists j :: 0 <= j < |u.outputs| && Trim(u.outputs[j]) == Trim(t.outputs[i])
  }

  /** The final task is an empty wrapper around the single task it depends on. */
  ghost predicate CanFold(p: Plan, f: nat, q: nat) {
    && |p.tasks| >= 2 && f < |p.tasks| && q < |p.tasks|
    && p.tasks[f].id == Trim(p.finalTask)
    && EmptyWrapper(p.tasks[f])
    && p.tasks[f].dependsOn == [p.tasks[q].id]
    && OutputsCovered(p.tasks[f], p.tasks[q])
  }

  lemma BoundaryIff(t: Task, parent: Task)
    ensures !HasDistinctBoundary(t, parent) <==> t.requiredCapabilities == [] && OutputsCovered(t, parent)
  {
    forall i | 0 <= i < |t.outputs|
      ensures Contains(parent.outputs, t.outputs[i]) <==> OutputCovered(t, parent, i)
    {
    }
  }

  /** What a pass folds: exactly the final tasks that are empty wrappers. */
  lemma FoldIff(p: Plan, f: nat, q: nat)
    requires GoodIds(p.tasks)
    ensures Fold(p) == Some((f, q)) <==> CanFold(p, f, q)
  {
    if f < |p.tasks| && q < |p.tasks| {
      FindGood(p.tasks, f);
      FindGood(p.tasks, q);
      BoundaryIff(p.tasks[f], p.tasks[q]);
    }
  }

  lemma FoldsIff(p: Plan)
    requires GoodIds(p.tasks)
    ensures Fold(p).Some? <==> exists f: nat, q: nat :: CanFold(p, f, q)
  {
    if Fold(p).Some? { FoldIff(p, Fold(p).value.0, Fold(p).value.1); }
    if f: nat, q: nat :| CanFold(p, f, q) { FoldIff(p, f, q); }
  }

  // ---------------------------------------------------------------------------
  // Dependency relations
  // ---------------------------------------------------------------------------

  type Relation = (string, string) -> bool

  ghost predicate Reach(e: Relation, a: string, b: string, n: nat)
    decreases n
  {
    if n == 0 then false
    else if n == 1 then e(a, b)
    else exists c :: e(a, c) && Reach(e, c, b, n - 1)
  }

  /** `a` transitively depends on `b`. */
  ghost predicate Connected(e: Relation, a: string, b: string) {
    exists n: nat :: Reach(e, a, b, n)
  }

  /** `after` is `before` with the node `f`, whose only successor is `q`, taken out. */
  ghost predicate Bypasses(before: Relation, after: Relation, f: string, q: string) {
    && f != q
    && (forall b :: before(f, b) <==> b == q)
    && (forall a, b :: after(a, b) <==> a != f && ((before(a, b) && b != f) || (b == q && before(a, f))))
  }

  lemma ReachStep(e: Relation, a: string, c: string, b: string, n: nat)
    requires e(a, c) && Reach(e, c, b, n)
    ensures Reach(e, a, b, n + 1)
  {
  }

  lemma {:induction false} BypassKeepsReach(before: Relation, after: Relation, f: string, q: string, a: string,
                                            b: string, n: nat)
    requires Bypasses(before, after, f, q) && a != f && b != f
    requires Reach(before, a, b, n)
    ensures Connected(after, a, b)
    decreases n
  {
    if n == 1 {
      assert Reach(after, a, b, 1);
    } else {
      var c :| before(a, c) && Reach(before, c, b, n - 1);
      if c != f {
        BypassKeepsReach(before, after, f, q, c, b, n - 1);
        var m: nat :| Reach(after, c, b, m);
        ReachStep(after, a, c, b, m);
      } else if n == 2 {
        assert Reach(after, a, b, 1);
      } else {
        var d :| before(f, d) && Reach(before, d, b, n - 2);
        BypassKeepsReach(before, after, f, q, q, b, n - 2);
        var m: nat :| Reach(after, q, b, m);
        ReachStep(after, a, q, b, m);
      }
    }
  }

  lemma {:induction false} BypassAddsNoReach(before: Relation, after: Relation, f: string, q: string, a: string,
                                             b: string, n: nat)
    requires Bypasses(before, after, f, q)
    requires Reach(after, a, b, n)
    ensures Connected(before, a, b)
    decreases n
  {
    if n == 1 {
      if before(a, b) { assert Reach(before, a, b, 1); }
      else {
        assert Reach(before, f, b, 1);
        ReachStep(before, a, f, b, 1);
      }
    } else {
      var c :| after(a, c) && Reach(after, c, b, n - 1);
      BypassAddsNoReach(before, after, f, q, c, b, n - 1);
      var m: nat :| Reach(before, c, b, m);
      if before(a, c) {
        ReachStep(before, a, c, b, m);
      } else {
        ReachStep(before, f, c, b, m);
        ReachStep(before, a, f, b, m + 1);
      }
    }
  }

  lemma BypassKeepsConnections(before: Relation, after: Relation, f: string, q: string, a: string, b: string)
    requires Bypasses(before, after, f, q) && a != f && b != f
    ensures Connected(before, a, b) <==> Connected(after, a, b)
  {
    if Connected(before, a, b) {
      var n: nat :| Reach(before, a, b, n);
      BypassKeepsReach(before, after, f, q, a, b, n);
    }
    if Connected(after, a, b) {
      var n: nat :| Reach(after, a, b, n);
      BypassAddsNoReach(before, after, f, q, a, b, n);
    }
  }

  // ---------------------------------------------------------------------------
  // Dependencies between tasks
  // ---------------------------------------------------------------------------

  ghost predicate HasTask(tasks: seq<Task>, id: string) {
    exists i :: 0 <= i < |tasks| && tasks[i].id == id
  }

  ghost predicate Edge(tasks: seq<Task>, a: string, b: string) {
    exists i :: 0 <= i < |tasks| && tasks[i].id == a && b in tasks[i].dependsOn
  }

  ghost function Depends(tasks: seq<Task>): Relation {
    (a, b) => Edge(tasks, a, b)
  }

  ghost predicate Acyclic(tasks: seq<Task>) {
    forall a :: !Connected(Depends(tasks), a, a)
  }

  /** Distinct, trimmed, non-empty ids and no dangling dependency. */
  ghost predicate WellFormed(tasks: seq<Task>) {
    && GoodIds(tasks)
    && forall i, d :: 0 <= i < |tasks| && d in tasks[i].dependsOn ==> HasTask(tasks, d)
  }

  lemma DepsAreTrimmed(tasks: seq<Task>, i: nat)
    requires WellFormed(tasks) && i < |tasks|
    ensures AllTrimmed(tasks[i].dependsOn)
  {
    forall d | d in tasks[i].dependsOn ensures d != "" && Trimmed(d) {
      assert HasTask(tasks, d);
    }
  }

  lemma {:induction false} RemoveAt(tasks: seq<Task>, f: nat)
    requires GoodIds(tasks) && f < |tasks|
    ensures Remove(tasks, tasks[f].id) == tasks[..f] + tasks[f + 1..]
  {
    var n, id := |tasks| - 1, tasks[f].id;
    if f < n {
      RemoveAt(tasks[..n], f);
      assert tasks[..n][..f] + tasks[..n][f + 1..] + [tasks[n]] == tasks[..f] + tasks[f + 1..];
    } else {
      RemoveNothing(tasks[..n], id);
    }
  }

  lemma {:induction false} RemoveNothing(tasks: seq<Task>, id: string)
    requires forall i :: 0 <= i < |tasks| ==> tasks[i].id != id
    ensures Remove(tasks, id) == tasks
  {
    if tasks != [] { RemoveNothing(tasks[..|tasks| - 1], id); }
  }

  // ---------------------------------------------------------------------------
  // One pass, as a relation between task lists
  // ---------------------------------------------------------------------------

  /** Where the task now at `j` was before the task at `f` was removed. */
  function OldIndex(f: nat, j: nat): nat {
    if j < f then j else j + 1
  }

  /** `t` after a dependency on `from` became one on `to`; at most its verification hints changed besides. */
  ghost predicate Rewired(t: Task, r: Task, from: string, to: string) {
    && r == t.(dependsOn := r.dependsOn, verificationHints := r.verificationHints)
    && forall d :: d in r.dependsOn <==> (d in t.dependsOn && d != from) || (d == to && from in t.dependsOn)
  }

  /** `after` is `before` without the task at `f`, whose only dependency was the task at `q`. */
  ghost predicate FoldOf(before: seq<Task>, after: seq<Task>, f: nat, q: nat) {
    && WellFormed(before)
    && f < |before| && q < |before| && f != q
    && before[f].dependsOn == [before[q].id]
    && |after| == |before| - 1
    && forall j {:trigger after[j]} :: 0 <= j < |after| ==>
        Rewired(before[OldIndex(f, j)], after[j], before[f].id, before[q].id)
  }

  lemma SurvivorOf(before: seq<Task>, after: seq<Task>, f: nat, q: nat, i: nat) returns (j: nat)
    requires FoldOf(before, after, f, q) && i < |before| && i != f
    ensures j < |after| && OldIndex(f, j) == i
    ensures Rewired(before[i], after[j], before[f].id, before[q].id)
  {
    j := if i < f then i else i - 1;
    assert after[j] == after[j];
  }

  lemma FoldBypasses(before: seq<Task>, after: seq<Task>, f: nat, q: nat)
    requires FoldOf(before, after, f, q)
    ensures Bypasses(Depends(before), Depends(after), before[f].id, before[q].id)
  {
    var from, to := before[f].id, before[q].id;
    forall b ensures Edge(before, from, b) <==> b == to {
      if b == to { assert to in before[f].dependsOn; }
    }
    forall a, b
      ensures Edge(after, a, b) <==>
              a != from && ((Edge(before, a, b) && b != from) || (b == to && Edge(before, a, from)))
    {
      EdgeAfter(before, after, f, q, a, b);
    }
  }

  lemma EdgeAfter(before: seq<Task>, after: seq<Task>, f: nat, q: nat, a: string, b: string)
    requires FoldOf(before, after, f, q)
    ensures var from, to := before[f].id, before[q].id;
            Edge(after, a, b) <==>
              a != from && ((Edge(before, a, b) && b != from) || (b == to && Edge(before, a, from)))
  {
    var from, to := before[f].id, before[q].id;
    if Edge(after, a, b) {
      var j :| 0 <= j < |after| && after[j].id == a && b in after[j].dependsOn;
      var i := OldIndex(f, j);
      assert before[i].id == a && i != f;
    }
    if a != from && ((Edge(before, a, b) && b != from) || (b == to && Edge(before, a, from))) {
      var i :| 0 <= i < |before| && before[i].id == a
        && ((b in before[i].dependsOn && b != from) || (b == to && from in before[i].dependsOn));
      var j := SurvivorOf(before, after, f, q, i);
    }
  }

  lemma FoldKeepsTasks(before: seq<Task>, after: seq<Task>, f: nat, q: nat, id: string)
    requires FoldOf(before, after, f, q)
    ensures HasTask(after, id) <==> HasTask(before, id) && id != before[f].id
  {
    if HasTask(after, id) {
      var j :| 0 <= j < |after| && after[j].id == id;
      assert before[OldIndex(f, j)].id == id;
    }
    if HasTask(before, id) && id != before[f].id {
      var i :| 0 <= i < |before| && before[i].id == id;
      var j := SurvivorOf(before, after, f, q, i);
    }
  }

  lemma FoldKeepsIds(before: seq<Task>, after: seq<Task>, f: nat, q: nat)
    requires FoldOf(before, after, f, q)
    ensures GoodIds(after)
  {
    forall j, k | 0 <= j < k < |after| ensures after[j].id != after[k].id {
      assert before[OldIndex(f, j)].id != before[OldIndex(f, k)].id;
    }
  }

  lemma FoldKeepsWellFormed(before: seq<Task>, after: seq<Task>, f: nat, q: nat)
    requires FoldOf(before, after, f, q)
    ensures WellFormed(after)
  {
    FoldKeepsIds(before, after, f, q);
    forall j, d | 0 <= j < |after| && d in after[j].dependsOn ensures HasTask(after, d) {
      var i := OldIndex(f, j);
      assert d in before[i].dependsOn || d == before[q].id;
      assert HasTask(before, d);
      FoldKeepsTasks(before, after, f, q, d);
    }
  }

  /** Removing a wrapper keeps the transitive dependencies among the other tasks, and adds no cycle. */
  lemma FoldKeepsConnections(before: seq<Task>, after: seq<Task>, f: nat, q: nat)
    requires FoldOf(before, after, f, q)
    ensures forall a, b :: a != before[f].id && b != before[f].id ==>
              (Connected(Depends(before), a, b) <==> Connected(Depends(after), a, b))
    ensures Acyclic(before) ==> Acyclic(after)
  {
    FoldBypasses(before, after, f, q);
    var from, to := before[f].id, before[q].id;
    forall a, b | a != from && b != from ensures Connected(Depends(before), a, b) <==> Connected(Depends(after), a, b) {
      BypassKeepsConnections(Depends(before), Depends(after), from, to, a, b);
    }
    if Acyclic(before) {
      forall a ensures !Connected(Depends(after), a, a) {
        if a == from { NoWayOut(Depends(before), Depends(after), from, to); }
      }
    }
  }

  lemma NoWayOut(before: Relation, after: Relation, f: string, q: string)
    requires Bypasses(before, after, f, q)
    ensures !Connected(after, f, f)
  {
    forall n: nat ensures !Reach(after, f, f, n) { }
  }

  // ---------------------------------------------------------------------------
  // One pass of the code
  // ---------------------------------------------------------------------------

  /** What becomes of the task at `i`, if it is not the one folded away. */
  ghost function Survivor(tasks: seq<Task>, f: nat, q: nat, i: nat): Task
    requires f < |tasks| && q < |tasks| && i < |tasks|
  {
    ReplacedTask(if i == q then Absorb(tasks[q], tasks[f]) else tasks[i], tasks[f].id, tasks[q].id)
  }

  lemma FoldedTasks(p: Plan, f: nat, q: nat)
    requires GoodIds(p.tasks) && f < |p.tasks| && q < |p.tasks|
    ensures |Folded(p, f, q).tasks| == |p.tasks| - 1
    ensures forall j {:trigger Folded(p, f, q).tasks[j]} :: 0 <= j < |p.tasks| - 1 ==>
              Folded(p, f, q).tasks[j] == Survivor(p.tasks, f, q, OldIndex(f, j))
  {
    var from, to := p.tasks[f].id, p.tasks[q].id;
    var all := ReplaceAll(p.tasks[q := Absorb(p.tasks[q], p.tasks[f])], from, to);
    forall i | 0 <= i < |all| ensures all[i] == Survivor(p.tasks, f, q, i) && all[i].id == p.tasks[i].id { }
    RemoveAt(all, f);
  }

  /** A pass on an acyclic plan, or any pass that does not fold the final task into itself. */
  lemma PassFolds(p: Plan)
    requires WellFormed(p.tasks) && Fold(p).Some? && (Acyclic(p.tasks) || Fold(p).value.0 != Fold(p).value.1)
    ensures FoldOf(p.tasks, Pass(p).value.tasks, Fold(p).value.0, Fold(p).value.1)
  {
    var (f, q) := Fold(p).value;
    var from, to := p.tasks[f].id, p.tasks[q].id;
    if f == q {
      SelfLoopIsCycle(p.tasks, f);
    } else {
      FoldedTasks(p, f, q);
      var after := Folded(p, f, q).tasks;
      assert !HasDistinctBoundary(p.tasks[f], p.tasks[q]);
      forall j | 0 <= j < |after| ensures Rewired(p.tasks[OldIndex(f, j)], after[j], from, to) {
        SurvivorIsRewired(p.tasks, f, q, OldIndex(f, j));
      }
    }
  }

  lemma SurvivorIsRewired(tasks: seq<Task>, f: nat, q: nat, i: nat)
    requires WellFormed(tasks) && f < |tasks| && q < |tasks| && i < |tasks| && f != q && i != f
    requires !HasDistinctBoundary(tasks[f], tasks[q])
    ensures Rewired(tasks[i], Survivor(tasks, f, q, i), tasks[f].id, tasks[q].id)
  {
    AppendCovered(tasks[q].outputs, tasks[f].outputs);
    DepsAreTrimmed(tasks, i);
    ReplaceDepsMembers(tasks[i].dependsOn, tasks[f].id, tasks[q].id);
  }

  lemma SelfLoopIsCycle(tasks: seq<Task>, f: nat)
    requires f < |tasks| && tasks[f].id in tasks[f].dependsOn
    ensures !Acyclic(tasks)
  {
    assert Reach(Depends(tasks), tasks[f].id, tasks[f].id, 1);
    assert Connected(Depends(tasks), tasks[f].id, tasks[f].id);
  }

  /** The code does not check for self-dependency: the plan keeps its final task exactly when it has none. */
  lemma PassKeepsFinalTask(p: Plan)
    requires GoodIds(p.tasks) && Fold(p).Some?
    ensures HasTask(Pass(p).value.tasks, Pass(p).value.finalTask) <==>
            p.tasks[Fold(p).value.0].dependsOn != [Trim(p.finalTask)]
  {
    var (f, q) := Fold(p).value;
    FoldedTasks(p, f, q);
    var after := Folded(p, f, q).tasks;
    if f == q {
      forall j | 0 <= j < |after| ensures after[j].id != p.tasks[f].id { }
    } else {
      var j := if q < f then q else q - 1;
      assert after[j].id == p.tasks[q].id;
    }
  }

  /** This plan loses its final task: the wrapper "f" depends on itself. */
  lemma SelfDependentFinalTaskIsLost() returns (p: Plan)
    ensures GoodIds(p.tasks) && Fold(p).Some? && !HasTask(Pass(p).value.tasks, Pass(p).value.finalTask)
  {
    var a := Task("a", "", Write, "", [], [], [], [], Queued, "");
    var f := Task("f", "", Deliver, "", ["f"], [], [], [], Queued, "");
    p := Plan(Serial, [a, f], "f", "", []);
    assert Trim("a") == "a" && Trim("f") == "f";
    assert p.tasks[0].id == "a" && p.tasks[1].id == "f";
    FindGood(p.tasks, 1);
    assert Fold(p) == Some((1, 1));
    PassKeepsFinalTask(p);
  }

  // ---------------------------------------------------------------------------
  // Declared outputs, capabilities and hints
  // ---------------------------------------------------------------------------

  datatype Field = Outputs | RequiredCapabilities | VerificationHints

  function Listed(t: Task, field: Field): seq<string> {
    match field
    case Outputs => t.outputs
    case RequiredCapabilities => t.requiredCapabilities
    case VerificationHints => t.verificationHints
  }

  /** Some task of the plan lists this non-blank entry. */
  ghost predicate Declares(tasks: seq<Task>, field: Field, l: string) {
    exists i :: 0 <= i < |tasks| && l in Labels(Listed(tasks[i], field))
  }

  lemma SurvivorLabels(tasks: seq<Task>, f: nat, q: nat, i: nat, field: Field)
    requires f < |tasks| && q < |tasks| && i < |tasks|
    ensures Labels(Listed(Survivor(tasks, f, q, i), field)) ==
            Labels(Listed(tasks[i], field)) + (if i == q then Labels(Listed(tasks[f], field)) else {})
  {
    AppendUniqueLabels(Listed(tasks[q], field), Listed(tasks[f], field));
  }

  ghost function LabelsOf(tasks: seq<Task>, field: Field): seq<set<string>> {
    seq(|tasks|, i requires 0 <= i < |tasks| => Labels(Listed(tasks[i], field)))
  }

  lemma LabelsAfter(p: Plan, f: nat, q: nat, field: Field)
    requires GoodIds(p.tasks) && f < |p.tasks| && q < |p.tasks|
    ensures var before, after := LabelsOf(p.tasks, field), LabelsOf(Folded(p, f, q).tasks, field);
            && |after| == |before| - 1
            && forall j :: 0 <= j < |after| ==>
                 after[j] == before[OldIndex(f, j)] + (if OldIndex(f, j) == q then before[f] else {})
  {
    FoldedTasks(p, f, q);
    var tasks := Folded(p, f, q).tasks;
    forall j | 0 <= j < |tasks|
      ensures Labels(Listed(tasks[j], field)) == Labels(Listed(p.tasks[OldIndex(f, j)], field))
              + (if OldIndex(f, j) == q then Labels(Listed(p.tasks[f], field)) else {})
    {
      SurvivorLabels(p.tasks, f, q, OldIndex(f, j), field);
    }
  }

  lemma UnionKept(before: seq<set<string>>, after: seq<set<string>>, f: nat, q: nat, l: string)
    requires f < |before| && q < |before| && f != q && |after| == |before| - 1
    requires forall j :: 0 <= j < |after| ==>
               after[j] == before[OldIndex(f, j)] + (if OldIndex(f, j) == q then before[f] else {})
    ensures (exists i :: 0 <= i < |before| && l in before[i]) <==> (exists j :: 0 <= j < |after| && l in after[j])
  {
    if i :| 0 <= i < |before| && l in before[i] {
      var i' := if i == f then q else i;
      var j := if i' < f then i' else i' - 1;
      assert OldIndex(f, j) == i' && l in after[j];
    }
  }

  lemma PassKeepsLabels(p: Plan, field: Field, l: string)
    requires GoodIds(p.tasks) && Fold(p).Some? && Fold(p).value.0 != Fold(p).value.1
    ensures Declares(p.tasks, field, l) <==> Declares(Pass(p).value.tasks, field, l)
  {
    var (f, q) := Fold(p).value;
    LabelsAfter(p, f, q, field);
    UnionKept(LabelsOf(p.tasks, field), LabelsOf(Folded(p, f, q).tasks, field), f, q, l);
    DeclaresLabels(p.tasks, field, l);
    DeclaresLabels(Folded(p, f, q).tasks, field, l);
  }

  lemma DeclaresLabels(tasks: seq<Task>, field: Field, l: string)
    ensures Declares(tasks, field, l) <==> exists i :: 0 <= i < |tasks| && l in LabelsOf(tasks, field)[i]
  {
    if Declares(tasks, field, l) {
      var i :| 0 <= i < |tasks| && l in Labels(Listed(tasks[i], field));
      assert l in LabelsOf(tasks, field)[i];
    }
  }

  // ---------------------------------------------------------------------------
  // The whole compaction
  // ---------------------------------------------------------------------------

  lemma PassShrinks(p: Plan)
    requires Fold(p).Some?
    ensures |Pass(p).value.tasks| < |p.tasks|
  {
    var (f, q) := Fold(p).value;
    var all := ReplaceAll(p.tasks[q := Absorb(p.tasks[q], p.tasks[f])], p.tasks[f].id, p.tasks[q].id);
    assert all[f].id == p.tasks[f].id;
  }

  function Passes(p: Plan): Plan
    decreases |p.tasks|
  {
    if Fold(p).None? then p else PassShrinks(p); Passes(Pass(p).value)
  }

  /** compactPlanForExecution. */
  function Compact(p: Plan): Plan {
    if p.tasks == [] then p else Normalize(Passes(p))
  }

  /** `r` means what `p` meant, with some empty wrappers gone. */
  ghost predicate SameMeaning(p: Plan, r: Plan) {
    && WellFormed(r.tasks) && Acyclic(r.tasks)
    && (p.tasks != [] ==> r.tasks != [])
    && (HasTask(p.tasks, Trim(p.finalTask)) ==> HasTask(r.tasks, Trim(r.finalTask)))
    && (forall t :: t in r.tasks ==> Kept(t, p.tasks))
    && (forall t :: t in p.tasks ==> HasTask(r.tasks, t.id) || EmptyWrapper(t))
    && SameConnections(p.tasks, r.tasks)
    && (forall field, l :: Declares(p.tasks, field, l) <==> Declares(r.tasks, field, l))
  }

  /** `t` was there before, with the same identity, purpose, outputs and capabilities. */
  ghost predicate Kept(t: Task, tasks: seq<Task>) {
    exists i :: 0 <= i < |tasks| && SameTask(tasks[i], t)
  }

  predicate SameTask(t: Task, u: Task) {
    && t.id == u.id && t.title == u.title && t.kind == u.kind && t.goal == u.goal
    && t.outputs == u.outputs && t.requiredCapabilities == u.requiredCapabilities
  }

  /** The tasks of `after` transitively depend on one another exactly as they did in `before`. */
  ghost predicate SameConnections(before: seq<Task>, after: seq<Task>) {
    forall a, b :: HasTask(after, a) && HasTask(after, b) ==>
      (Connected(Depends(before), a, b) <==> Connected(Depends(after), a, b))
  }

  lemma PassKeepsConnections(p: Plan)
    requires WellFormed(p.tasks) && Acyclic(p.tasks) && Fold(p).Some?
    ensures WellFormed(Pass(p).value.tasks) && Acyclic(Pass(p).value.tasks)
    ensures SameConnections(p.tasks, Pass(p).value.tasks)
  {
    PassFolds(p);
    var (f, q) := Fold(p).value;
    var after := Pass(p).value.tasks;
    FoldKeepsWellFormed(p.tasks, after, f, q);
    FoldKeepsConnections(p.tasks, after, f, q);
    forall a | HasTask(after, a) ensures a != p.tasks[f].id { FoldKeepsTasks(p.tasks, after, f, q, a); }
  }

  lemma PassKeepsTasks(p: Plan)
    requires WellFormed(p.tasks) && Acyclic(p.tasks) && Fold(p).Some?
    ensures var r := Pass(p).value;
            && r.tasks != [] && HasTask(r.tasks, Trim(r.finalTask))
            && (forall t :: t in r.tasks ==> Kept(t, p.tasks))
            && (forall t :: t in p.tasks ==> HasTask(r.tasks, t.id) || EmptyWrapper(t))
  {
    PassFolds(p);
    var (f, q) := Fold(p).value;
    var r := Pass(p).value;
    forall t | t in r.tasks ensures Kept(t, p.tasks) {
      var j :| 0 <= j < |r.tasks| && r.tasks[j] == t;
      var i := OldIndex(f, j);
      assert Rewired(p.tasks[i], r.tasks[j], p.tasks[f].id, p.tasks[q].id);
      assert SameTask(p.tasks[i], t);
    }
    forall t | t in p.tasks ensures HasTask(r.tasks, t.id) || EmptyWrapper(t) {
      var i :| 0 <= i < |p.tasks| && p.tasks[i] == t;
      assert HasTask(p.tasks, t.id);
      FoldKeepsTasks(p.tasks, r.tasks, f, q, t.id);
      FoldIff(p, f, q);
    }
    assert HasTask(p.tasks, p.tasks[q].id);
    FoldKeepsTasks(p.tasks, r.tasks, f, q, p.tasks[q].id);
  }

  lemma PassKeepsMeaning(p: Plan)
    requires WellFormed(p.tasks) && Acyclic(p.tasks) && Fold(p).Some?
    ensures SameMeaning(p, Pass(p).value)
  {
    PassKeepsConnections(p);
    PassKeepsTasks(p);
    var (f, q) := Fold(p).value;
    if f == q { SelfLoopIsCycle(p.tasks, f); }
    forall field, l ensures Declares(p.tasks, field, l) <==> Declares(Pass(p).value.tasks, field, l) {
      PassKeepsLabels(p, field, l);
    }
  }

  lemma MeaningTransitive(p: Plan, r: Plan, s: Plan)
    requires GoodIds(p.tasks) && SameMeaning(p, r) && SameMeaning(r, s)
    ensures SameMeaning(p, s)
  {
    forall id | HasTask(s.tasks, id) ensures HasTask(r.tasks, id) {
      var i :| 0 <= i < |s.tasks| && s.tasks[i].id == id;
      assert s.tasks[i] in s.tasks;
    }
    forall t | t in s.tasks ensures Kept(t, p.tasks) {
      assert Kept(t, r.tasks);
      var i :| 0 <= i < |r.tasks| && SameTask(r.tasks[i], t);
      assert r.tasks[i] in r.tasks;
      assert Kept(r.tasks[i], p.tasks);
    }
    forall t | t in p.tasks ensures HasTask(s.tasks, t.id) || EmptyWrapper(t) {
      GoneIsWrapper(p, r, s, t);
    }
    assert SameConnections(p.tasks, s.tasks);
  }

  lemma GoneIsWrapper(p: Plan, r: Plan, s: Plan, t: Task)
    requires SameMeaning(p, r) && SameMeaning(r, s) && t in p.tasks && GoodIds(p.tasks)
    ensures HasTask(s.tasks, t.id) || EmptyWrapper(t)
  {
    if HasTask(r.tasks, t.id) {
      var i :| 0 <= i < |r.tasks| && r.tasks[i].id == t.id;
      assert r.tasks[i] in r.tasks && Kept(r.tasks[i], p.tasks);
      assert SameTask(t, r.tasks[i]);
    }
  }

  lemma {:induction false} PassesKeepMeaning(p: Plan)
    requires WellFormed(p.tasks) && Acyclic(p.tasks)
    ensures SameMeaning(p, Passes(p)) && Fold(Passes(p)).None?
    decreases |p.tasks|
  {
    if Fold(p).None? {
      EverythingKept(p);
    } else {
      PassShrinks(p);
      PassKeepsMeaning(p);
      PassesKeepMeaning(Pass(p).value);
      MeaningTransitive(p, Pass(p).value, Passes(p));
    }
  }

  lemma EverythingKept(p: Plan)
    requires WellFormed(p.tasks) && Acyclic(p.tasks)
    ensures SameMeaning(p, p)
  {
    forall t | t in p.tasks ensures Kept(t, p.tasks) && HasTask(p.tasks, t.id) {
      var i :| 0 <= i < |p.tasks| && p.tasks[i] == t;
      assert SameTask(p.tasks[i], t);
    }
  }

  lemma {:induction false} ReachCongruent(e: Relation, g: Relation, a: string, b: string, n: nat)
    requires forall x, y :: e(x, y) <==> g(x, y)
    requires Reach(e, a, b, n)
    ensures Reach(g, a, b, n)
    decreases n
  {
    if n > 1 {
      var c :| e(a, c) && Reach(e, c, b, n - 1);
      ReachCongruent(e, g, c, b, n - 1);
    }
  }

  lemma ConnectedCongruent(e: Relation, g: Relation, a: string, b: string)
    requires forall x, y :: e(x, y) <==> g(x, y)
    ensures Connected(e, a, b) <==> Connected(g, a, b)
  {
    forall n: nat ensures Reach(e, a, b, n) <==> Reach(g, a, b, n) {
      if Reach(e, a, b, n) { ReachCongruent(e, g, a, b, n); }
      if Reach(g, a, b, n) { ReachCongruent(g, e, a, b, n); }
    }
  }

  lemma NormalKeepsGraph(p: Plan)
    requires WellFormed(p.tasks) && Acyclic(p.tasks)
    ensures WellFormed(Normalize(p).tasks) && Acyclic(Normalize(p).tasks)
    ensures SameConnections(p.tasks, Normalize(p).tasks)
  {
    var r := Normalize(p);
    assert forall i :: 0 <= i < |p.tasks| ==>
           r.tasks[i].id == p.tasks[i].id && r.tasks[i].dependsOn == p.tasks[i].dependsOn;
    forall a, b ensures Edge(p.tasks, a, b) <==> Edge(r.tasks, a, b) {
      SameEdge(p.tasks, r.tasks, a, b);
    }
    forall i, d | 0 <= i < |r.tasks| && d in r.tasks[i].dependsOn ensures HasTask(r.tasks, d) {
      assert HasTask(p.tasks, d);
      var k :| 0 <= k < |p.tasks| && p.tasks[k].id == d;
      assert r.tasks[k].id == d;
    }
    forall a, b ensures Connected(Depends(p.tasks), a, b) <==> Connected(Depends(r.tasks), a, b) {
      ConnectedCongruent(Depends(p.tasks), Depends(r.tasks), a, b);
    }
  }

  lemma SameEdge(tasks: seq<Task>, others: seq<Task>, a: string, b: string)
    requires |tasks| == |others|
    requires forall i :: 0 <= i < |tasks| ==> others[i].id == tasks[i].id && others[i].dependsOn == tasks[i].dependsOn
    ensures Edge(tasks, a, b) <==> Edge(others, a, b)
  {
    if i :| 0 <= i < |tasks| && tasks[i].id == a && b in tasks[i].dependsOn {
      assert others[i].id == a;
    }
    if i :| 0 <= i < |others| && others[i].id == a && b in others[i].dependsOn {
      assert tasks[i].id == a;
    }
  }

  lemma NormalKeepsTasks(p: Plan)
    ensures forall t :: t in Normalize(p).tasks ==> Kept(t, p.tasks)
    ensures forall t :: t in p.tasks ==> HasTask(Normalize(p).tasks, t.id)
    ensures forall id :: HasTask(p.tasks, id) ==> HasTask(Normalize(p).tasks, id)
    ensures forall field, l :: Declares(p.tasks, field, l) <==> Declares(Normalize(p).tasks, field, l)
  {
    var r := Normalize(p);
    forall t | t in r.tasks ensures Kept(t, p.tasks) {
      var i :| 0 <= i < |r.tasks| && r.tasks[i] == t;
      assert SameTask(p.tasks[i], t);
    }
    forall id | HasTask(p.tasks, id) ensures HasTask(r.tasks, id) {
      var i :| 0 <= i < |p.tasks| && p.tasks[i].id == id;
      assert r.tasks[i].id == id;
    }
    forall t | t in p.tasks ensures HasTask(r.tasks, t.id) {
      assert HasTask(p.tasks, t.id);
    }
    forall field, l ensures Declares(p.tasks, field, l) <==> Declares(r.tasks, field, l) {
      assert LabelsOf(p.tasks, field) == LabelsOf(r.tasks, field);
      DeclaresLabels(p.tasks, field, l);
      DeclaresLabels(r.tasks, field, l);
    }
  }

  // ---------------------------------------------------------------------------
  // What disappears, and what is left
  // ---------------------------------------------------------------------------

  /** `t` was an empty wrapper around `u`: it depends on `u` alone and adds no output to it. */
  ghost predicate Wraps(t: Task, u: Task) {
    && EmptyWrapper(t)
    && u.id in t.dependsOn && (forall d :: d in t.dependsOn ==> d == u.id)
    && OutputsCovered(t, u)
  }

  /** The final task, or one it transitively depends on. */
  ghost predicate BehindFinal(p: Plan, id: string) {
    id == Trim(p.finalTask) || Connected(Depends(p.tasks), Trim(p.finalTask), id)
  }

  /** Every task that `r` lacks wrapped another task of `p` and stood behind the final one. */
  ghost predicate OnlyWrappersGone(p: Plan, r: Plan) {
    forall i :: 0 <= i < |p.tasks| && !HasTask(r.tasks, p.tasks[i].id) ==> GoneWrapper(p, i)
  }

  ghost predicate GoneWrapper(p: Plan, i: nat)
    requires i < |p.tasks|
  {
    && (exists k :: 0 <= k < |p.tasks| && Wraps(p.tasks[i], p.tasks[k]))
    && BehindFinal(p, p.tasks[i].id)
  }

  lemma FoldedIsWrapper(p: Plan, f: nat, q: nat)
    requires WellFormed(p.tasks) && Fold(p) == Some((f, q))
    ensures GoneWrapper(p, f)
  {
    FoldIff(p, f, q);
    assert Wraps(p.tasks[f], p.tasks[q]);
  }

  /** What stood behind the absorbing task stood behind the final one. */
  lemma StillBehindFinal(p: Plan, f: nat, q: nat, id: string)
    requires WellFormed(p.tasks) && Acyclic(p.tasks) && Fold(p) == Some((f, q))
    requires id != p.tasks[f].id && BehindFinal(Pass(p).value, id)
    ensures Edge(p.tasks, p.tasks[f].id, p.tasks[q].id)
    ensures id == p.tasks[q].id || Connected(Depends(p.tasks), p.tasks[q].id, id)
    ensures BehindFinal(p, id)
  {
    PassFolds(p);
    FoldIff(p, f, q);
    FoldKeepsConnections(p.tasks, Pass(p).value.tasks, f, q);
    var from, to := p.tasks[f].id, p.tasks[q].id;
    assert to in p.tasks[f].dependsOn;
    if id == to {
      assert Reach(Depends(p.tasks), from, to, 1);
    } else {
      assert Connected(Depends(p.tasks), to, id);
      var n: nat :| Reach(Depends(p.tasks), to, id, n);
      ReachStep(Depends(p.tasks), from, to, id, n);
    }
  }

  lemma CycleThrough(e: Relation, a: string, b: string, c: string)
    requires e(a, b) && e(b, c) && (c == a || Connected(e, c, a))
    ensures Connected(e, a, a)
  {
    if c == a {
      assert Reach(e, b, a, 1);
      ReachStep(e, a, b, a, 1);
    } else {
      var n: nat :| Reach(e, c, a, n);
      ReachStep(e, b, c, a, n);
      ReachStep(e, a, b, a, n + 1);
    }
  }

  /** In an acyclic plan nothing behind the absorbing task depends on the wrapper. */
  lemma NoWayBack(p: Plan, f: nat, q: nat, i: nat)
    requires WellFormed(p.tasks) && Acyclic(p.tasks) && Fold(p) == Some((f, q)) && i < |p.tasks| && i != f
    requires BehindFinal(Pass(p).value, p.tasks[i].id)
    ensures p.tasks[f].id !in p.tasks[i].dependsOn
  {
    var from, to, id := p.tasks[f].id, p.tasks[q].id, p.tasks[i].id;
    StillBehindFinal(p, f, q, id);
    if from in p.tasks[i].dependsOn {
      assert Edge(p.tasks, id, from);
      CycleThrough(Depends(p.tasks), id, from, to);
    }
  }

  lemma GoneLater(p: Plan, f: nat, q: nat, i: nat, j: nat)
    requires WellFormed(p.tasks) && Acyclic(p.tasks) && Fold(p) == Some((f, q))
    requires i < |p.tasks| && i != f && j < |Pass(p).value.tasks| && OldIndex(f, j) == i
    requires GoneWrapper(Pass(p).value, j)
    ensures GoneWrapper(p, i)
  {
    var after := Pass(p).value.tasks;
    assert FoldOf(p.tasks, after, f, q) by { PassFolds(p); }
    assert Rewired(p.tasks[i], after[j], p.tasks[f].id, p.tasks[q].id);
    assert p.tasks[f].id !in p.tasks[i].dependsOn by { NoWayBack(p, f, q, i); }
    assert BehindFinal(p, p.tasks[i].id) by { StillBehindFinal(p, f, q, p.tasks[i].id); }
    WrapperBefore(p.tasks, after, f, q, i, j);
  }

  lemma WrapperBefore(before: seq<Task>, after: seq<Task>, f: nat, q: nat, i: nat, j: nat)
    requires FoldOf(before, after, f, q) && i < |before| && i != f && j < |after| && OldIndex(f, j) == i
    requires before[f].id !in before[i].dependsOn
    requires exists k :: 0 <= k < |after| && Wraps(after[j], after[k])
    ensures exists k :: 0 <= k < |before| && Wraps(before[i], before[k])
  {
    var k :| 0 <= k < |after| && Wraps(after[j], after[k]);
    assert Rewired(before[i], after[j], before[f].id, before[q].id);
    assert Rewired(before[OldIndex(f, k)], after[k], before[f].id, before[q].id);
    WrappedBefore(before[i], after[j], before[OldIndex(f, k)], after[k], before[f].id, before[q].id);
  }

  lemma WrappedBefore(t: Task, t': Task, u: Task, u': Task, from: string, to: string)
    requires Rewired(t, t', from, to) && Rewired(u, u', from, to) && from !in t.dependsOn
    requires Wraps(t', u')
    ensures Wraps(t, u)
  {
    forall i | 0 <= i < |t.outputs| ensures OutputCovered(t, u, i) { assert OutputCovered(t', u', i); }
  }

  lemma {:induction false} PassesRemoveWrappers(p: Plan)
    requires WellFormed(p.tasks) && Acyclic(p.tasks)
    ensures OnlyWrappersGone(p, Passes(p))
    decreases |p.tasks|
  {
    if Fold(p).Some? {
      var (f, q) := Fold(p).value;
      PassShrinks(p);
      PassKeepsConnections(p);
      PassesRemoveWrappers(Pass(p).value);
      PassFolds(p);
      forall i | 0 <= i < |p.tasks| && !HasTask(Passes(p).tasks, p.tasks[i].id) ensures GoneWrapper(p, i) {
        if i == f {
          FoldedIsWrapper(p, f, q);
        } else {
          var j := SurvivorOf(p.tasks, Pass(p).value.tasks, f, q, i);
          GoneLater(p, f, q, i, j);
        }
      }
    } else {
      forall i | 0 <= i < |p.tasks| ensures HasTask(p.tasks, p.tasks[i].id) { }
    }
  }

  /** The final task moved only backwards along dependencies, and a plan that shrank to one task is serial. */
  ghost predicate SameHead(p: Plan, r: Plan) {
    && (HasTask(p.tasks, Trim(p.finalTask)) ==> BehindFinal(p, Trim(r.finalTask)))
    && r.strategy == if |r.tasks| == 1 < |p.tasks| then Serial else p.strategy
  }

  lemma {:induction false} PassesKeepHead(p: Plan)
    requires WellFormed(p.tasks) && Acyclic(p.tasks)
    ensures SameHead(p, Passes(p))
    ensures |Passes(p).tasks| <= |p.tasks|
    decreases |p.tasks|
  {
    if Fold(p).Some? {
      var (f, q) := Fold(p).value;
      var r := Pass(p).value;
      PassShrinks(p);
      PassKeepsConnections(p);
      PassKeepsTasks(p);
      PassesKeepHead(r);
      PassesKeepMeaning(r);
      FoldIff(p, f, q);
      FoldKeepsTasksOf(p, f, q, Trim(Passes(p).finalTask));
      StillBehindFinal(p, f, q, Trim(Passes(p).finalTask));
      assert |r.tasks| == 1 ==> r.strategy == Serial;
    }
  }

  lemma FoldKeepsTasksOf(p: Plan, f: nat, q: nat, id: string)
    requires WellFormed(p.tasks) && Acyclic(p.tasks) && Fold(p) == Some((f, q))
    requires HasTask(Passes(Pass(p).value).tasks, id)
    ensures id != p.tasks[f].id
  {
    PassFolds(p);
    PassKeepsConnections(p);
    PassesKeepMeaning(Pass(p).value);
    var last := Passes(Pass(p).value).tasks;
    var i :| 0 <= i < |last| && last[i].id == id;
    assert last[i] in last && Kept(last[i], Pass(p).value.tasks);
    FoldKeepsTasks(p.tasks, Pass(p).value.tasks, f, q, id);
  }

  /** No final task is left that could be folded. */
  ghost predicate FullyCompacted(p: Plan) {
    forall f: nat, q: nat :: !CanFold(p, f, q)
  }

  lemma NothingLeft(p: Plan)
    requires GoodIds(p.tasks) && Fold(p).None?
    ensures FullyCompacted(p)
  {
    forall f: nat, q: nat ensures !CanFold(p, f, q) { FoldIff(p, f, q); }
  }

  lemma NormalKeepsFolding(p: Plan)
    requires FullyCompacted(p)
    ensures FullyCompacted(Normalize(p))
  {
    forall f: nat, q: nat ensures !CanFold(Normalize(p), f, q) {
      if CanFold(Normalize(p), f, q) { FoldsBeforeNormal(p, f, q); }
    }
  }

  lemma FoldsBeforeNormal(p: Plan, f: nat, q: nat)
    requires CanFold(Normalize(p), f, q)
    ensures CanFold(p, f, q)
  {
    forall i | 0 <= i < |p.tasks[f].outputs| ensures OutputCovered(p.tasks[f], p.tasks[q], i) {
      assert OutputCovered(Normalize(p).tasks[f], Normalize(p).tasks[q], i);
    }
  }

  /** Compaction preserves what the plan means, takes away nothing but empty wrappers, and leaves no
      empty wrapper as the final task. */
  lemma CompactionPreservesMeaning(p: Plan)
    requires WellFormed(p.tasks) && Acyclic(p.tasks)
    ensures SameMeaning(p, Compact(p)) && SameHead(p, Compact(p))
    ensures OnlyWrappersGone(p, Compact(p)) && FullyCompacted(Compact(p))
  {
    if p.tasks == [] {
      EverythingKept(p);
    } else {
      PassesKeepMeaning(p);
      PassesKeepHead(p);
      PassesRemoveWrappers(p);
      NothingLeft(Passes(p));
      NormalKeepsGraph(Passes(p));
      NormalKeepsTasks(Passes(p));
      NormalKeepsFolding(Passes(p));
      MeaningTransitive(p, Passes(p), Compact(p));
    }
  }

  // ---------------------------------------------------------------------------
  // The plan object
  // ---------------------------------------------------------------------------

  method ContainsString(items: seq<string>, target: string) returns (found: bool)
    ensures found <==> Contains(items, target)
  {
    for i := 0 to |items|
      invariant forall k :: 0 <= k < i ==> Trim(items[k]) != Trim(target)
    {
      if Trim(items[i]) == Trim(target) { return true; }
    }
    return false;
  }

  method AppendUniqueStrings(dst: seq<string>, items: seq<string>) returns (out: seq<string>)
    ensures out == AppendUnique(dst, items)
    ensures Labels(out) == Labels(dst) + Labels(items)
  {
    out := dst;
    for i := 0 to |items|
      invariant out == AppendUnique(dst, items[..i])
    {
      assert items[..i + 1][..i] == items[..i];
      var item := Trim(items[i]);
      var found := ContainsString(out, item);
      if item != "" && !found { out := out + [item]; }
    }
    assert items[..|items|] == items;
    AppendUniqueLabels(dst, items);
  }

  method ReplaceDependency(deps: seq<string>, from: string, to: string) returns (updated: seq<string>)
    ensures updated == ReplaceDeps(deps, from, to)
  {
    updated := [];
    for i := 0 to |deps|
      invariant updated == ReplaceDeps(deps[..i], from, to)
    {
      assert deps[..i + 1][..i] == deps[..i];
      var dep := if Trim(deps[i]) == from then to else deps[i];
      var found := ContainsString(updated, dep);
      if dep != "" && !found { updated := updated + [dep]; }
    }
    assert deps[..|deps|] == deps;
  }

  method RemovePlanTask(tasks: seq<Task>, id: string) returns (out: seq<Task>)
    ensures out == Remove(tasks, id)
  {
    out := [];
    for i := 0 to |tasks|
      invariant out == Remove(tasks[..i], id)
    {
      assert tasks[..i + 1][..i] == tasks[..i];
      if tasks[i].id != id { out := out + [tasks[i]]; }
    }
    assert tasks[..|tasks|] == tasks;
  }

  method DistinctBoundary(t: Task, parent: Task) returns (distinct: bool)
    ensures distinct <==> HasDistinctBoundary(t, parent)
  {
    if t.requiredCapabilities != [] { return true; }
    for i := 0 to |t.outputs|
      invariant forall k :: 0 <= k < i ==> Contains(parent.outputs, t.outputs[k])
    {
      var found := ContainsString(parent.outputs, t.outputs[i]);
      if !found { return true; }
    }
    return false;
  }

  /** A plan that the passes rewrite in place. */
  class PlanObject {
    var plan: Plan

    constructor (p: Plan)
      ensures plan == p
    {
      plan := p;
    }

    method ReplaceTaskDependency(from: string, to: string)
      modifies this
      ensures plan == old(plan).(tasks := ReplaceAll(old(plan).tasks, from, to))
    {
      ghost var tasks := plan.tasks;
      if from == "" || to == "" || from == to {
        assert ReplaceAll(tasks, from, to) == tasks;
        return;
      }
      for i := 0 to |plan.tasks|
        invariant |plan.tasks| == |tasks| && plan == old(plan).(tasks := plan.tasks)
        invariant forall k :: 0 <= k < |tasks| ==>
                  plan.tasks[k] == if k < i then ReplacedTask(tasks[k], from, to) else tasks[k]
      {
        var task := plan.tasks[i];
        if task.id != from {
          var updated := ReplaceDependency(task.dependsOn, from, to);
          plan := plan.(tasks := plan.tasks[i := task.(dependsOn := updated)]);
        }
      }
      assert plan.tasks == ReplaceAll(tasks, from, to);
    }

    method CompactFinalDeliverWrapper() returns (changed: bool)
      modifies this
      ensures changed <==> Fold(old(plan)).Some?
      ensures plan == if changed then Pass(old(plan)).value else old(plan)
      ensures GoodIds(old(plan).tasks) ==> (changed <==> exists f: nat, q: nat :: CanFold(old(plan), f, q))
    {
      if GoodIds(plan.tasks) { FoldsIff(plan); }
      if |plan.tasks| < 2 { return false; }
      var f := Find(plan.tasks, Trim(plan.finalTask));
      if f < 0 || !IsCandidate(plan.tasks[f]) || |plan.tasks[f].dependsOn| != 1 { return false; }
      var wrapper := plan.tasks[f];
      var q := Find(plan.tasks, wrapper.dependsOn[0]);
      if q < 0 { return false; }
      var parent := plan.tasks[q];
      var distinct := DistinctBoundary(wrapper, parent);
      if distinct { return false; }
      var outputs := AppendUniqueStrings(parent.outputs, wrapper.outputs);
      var capabilities := AppendUniqueStrings(parent.requiredCapabilities, wrapper.requiredCapabilities);
      var hints := AppendUniqueStrings(parent.verificationHints, wrapper.verificationHints);
      var absorbed := parent.(outputs := outputs, requiredCapabilities := capabilities, verificationHints := hints);
      plan := plan.(tasks := plan.tasks[q := absorbed]);
      ReplaceTaskDependency(wrapper.id, parent.id);
      var tasks := RemovePlanTask(plan.tasks, wrapper.id);
      plan := plan.(finalTask := parent.id, tasks := tasks);
      if |plan.tasks| == 1 { plan := plan.(strategy := Serial); }
      return true;
    }

    /** The loop stops on every plan; on an acyclic one it preserves the plan's meaning. */
    method CompactPlanForExecution()
      modifies this
      ensures plan == Compact(old(plan))
      ensures WellFormed(old(plan).tasks) && Acyclic(old(plan).tasks) ==>
                && SameMeaning(old(plan), plan) && SameHead(old(plan), plan)
                && OnlyWrappersGone(old(plan), plan) && FullyCompacted(plan)
    {
      if plan.tasks == [] {
        if WellFormed(plan.tasks) && Acyclic(plan.tasks) { CompactionPreservesMeaning(plan); }
        return;
      }
      var changed := true;
      while changed
        invariant Passes(plan) == Passes(old(plan))
        invariant !changed ==> Fold(plan).None?
        decreases |plan.tasks|, changed
      {
        if Fold(plan).Some? { PassShrinks(plan); }
        changed := CompactFinalDeliverWrapper();
      }
      plan := Normalize(plan);
      if WellFormed(old(plan).tasks) && Acyclic(old(plan).tasks) { CompactionPreservesMeaning(old(plan)); }
    }
  }
}
