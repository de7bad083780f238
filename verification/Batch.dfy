/** Choosing which ready plan tasks run together, and why running them together is safe. */
module Batch {
  import opened Sequences
  import opened Text

  datatype Scope = ReadOnly | Workspace | SessionAll

  datatype Merge = TaskOrder | SerialOnly

  /** The part of an execution task that decides conflicts. */
  datatype Meta = Meta(id: string, resourceKeys: seq<string>, scope: Scope, merge: Merge)

  ghost predicate SharesKey(left: seq<string>, right: seq<string>) {
    exists i, j :: 0 <= i < |left| && 0 <= j < |right| && Trim(left[i]) == Trim(right[j])
  }

  predicate UnknownMutableScope(t: Meta) {
    !t.scope.ReadOnly? && t.resourceKeys == []
  }

  ghost predicate Conflict(a: Meta, b: Meta) {
    && a.id != "" && b.id != "" && a.id != b.id
    && (|| a.merge.SerialOnly? || b.merge.SerialOnly?
        || a.scope.SessionAll? || b.scope.SessionAll?
        || UnknownMutableScope(a) || UnknownMutableScope(b)
        || (SharesKey(a.resourceKeys, b.resourceKeys) && (!a.scope.ReadOnly? || !b.scope.ReadOnly?)))
  }

  method TasksShareKey(left: seq<string>, right: seq<string>) returns (shared: bool)
    ensures shared <==> SharesKey(left, right)
  {
    if left == [] || right == [] { return false; }
    var seen: set<string> := {};
    for i := 0 to |left|
      invariant forall k :: k in seen <==> exists j :: 0 <= j < i && Trim(left[j]) == k
    {
      seen := seen + {Trim(left[i])};
    }
    for i := 0 to |right|
      invariant forall j :: 0 <= j < i ==> Trim(right[j]) !in seen
    {
      if Trim(right[i]) in seen { return true; }
    }
    return false;
  }

  method TasksConflict(a: Meta, b: Meta) returns (conflict: bool)
    ensures conflict <==> Conflict(a, b)
  {
    if a.id == "" || b.id == "" || a.id == b.id { return false; }
    if a.merge.SerialOnly? || b.merge.SerialOnly? { return true; }
    if a.scope.SessionAll? || b.scope.SessionAll? { return true; }
    if UnknownMutableScope(a) || UnknownMutableScope(b) { return true; }
    var shared := TasksShareKey(a.resourceKeys, b.resourceKeys);
    return shared && (!a.scope.ReadOnly? || !b.scope.ReadOnly?);
  }

  // ---------------------------------------------------------------------------
  // Greedy choice
  // ---------------------------------------------------------------------------

  ghost predicate ConflictsWithOne(t: Meta, chosen: seq<Meta>) {
    exists c :: c in chosen && Conflict(t, c)
  }

  ghost function SelectFrom(ready: seq<Meta>, chosen: seq<Meta>): seq<Meta> {
    if ready == [] then chosen
    else if ConflictsWithOne(ready[0], chosen) then SelectFrom(ready[1..], chosen)
    else if ready[0].merge.SerialOnly? then chosen + [ready[0]]
    else SelectFrom(ready[1..], chosen + [ready[0]])
  }

  /** A plan with the serial strategy hands back all its ready tasks, to be run one after another. */
  ghost function SelectBatch(serialPlan: bool, ready: seq<Meta>): seq<Meta> {
    if |ready| <= 1 || serialPlan then ready else SelectFrom(ready, [])
  }

  method SelectExecutionBatch(serialPlan: bool, ready: seq<Meta>) returns (batch: seq<Meta>)
    ensures batch == SelectBatch(serialPlan, ready)
  {
    if |ready| <= 1 || serialPlan { return ready; }
    batch := [];
    var i := 0;
    while i < |ready|
      invariant i <= |ready|
      invariant SelectFrom(ready, []) == SelectFrom(ready[i..], batch)
    {
      var task := ready[i];
      assert ready[i..][1..] == ready[i + 1..];
      var conflict := false;
      var j := 0;
      while j < |batch| && !conflict
        invariant j <= |batch|
        invariant conflict ==> ConflictsWithOne(task, batch)
        invariant !conflict ==> forall c :: c in batch[..j] ==> !Conflict(task, c)
      {
        conflict := TasksConflict(task, batch[j]);
        assert batch[..j + 1] == batch[..j] + [batch[j]];
        j := j + 1;
      }
      assert !conflict ==> batch[..j] == batch;
      if !conflict {
        batch := batch + [task];
        if task.merge.SerialOnly? { return; }
      }
      i := i + 1;
    }
  }

  ghost predicate DistinctIds(tasks: seq<Meta>) {
    && (forall i :: 0 <= i < |tasks| ==> tasks[i].id != "")
    && (forall i, j :: 0 <= i < j < |tasks| ==> tasks[i].id != tasks[j].id)
  }

  ghost predicate ConflictFree(tasks: seq<Meta>) {
    forall i, j :: 0 <= i < |tasks| && 0 <= j < |tasks| ==> !Conflict(tasks[i], tasks[j])
  }

  lemma ConflictSymmetric(a: Meta, b: Meta)
    requires Conflict(a, b)
    ensures Conflict(b, a)
  {
    if SharesKey(a.resourceKeys, b.resourceKeys) {
      var i, j :| 0 <= i < |a.resourceKeys| && 0 <= j < |b.resourceKeys|
          && Trim(a.resourceKeys[i]) == Trim(b.resourceKeys[j]);
      assert Trim(b.resourceKeys[j]) == Trim(a.resourceKeys[i]);
    }
  }

  lemma ConflictFreeSnoc(tasks: seq<Meta>, t: Meta)
    requires ConflictFree(tasks) && !ConflictsWithOne(t, tasks)
    ensures ConflictFree(tasks + [t])
  {
    forall i, j | 0 <= i <= |tasks| && 0 <= j <= |tasks| ensures !Conflict((tasks + [t])[i], (tasks + [t])[j]) {
      if Conflict((tasks + [t])[i], (tasks + [t])[j]) {
        ConflictSymmetric((tasks + [t])[i], (tasks + [t])[j]);
        assert false;
      }
    }
  }

  lemma {:induction false} SelectedAreConflictFree(ready: seq<Meta>, chosen: seq<Meta>)
    requires ConflictFree(chosen)
    ensures ConflictFree(SelectFrom(ready, chosen))
  {
    if ready != [] {
      if ConflictsWithOne(ready[0], chosen) {
        SelectedAreConflictFree(ready[1..], chosen);
      } else {
        ConflictFreeSnoc(chosen, ready[0]);
        SelectedAreConflictFree(ready[1..], chosen + [ready[0]]);
      }
    }
  }

  lemma {:induction false} SelectedKeepOrder(before: seq<Meta>, ready: seq<Meta>, chosen: seq<Meta>)
    requires IsSubsequence(chosen, before)
    ensures IsSubsequence(SelectFrom(ready, chosen), before + ready)
    ensures chosen <= SelectFrom(ready, chosen)
    decreases ready
  {
    if ready == [] {
      assert before + ready == before;
    } else {
      SubsequenceSnoc(chosen, before, ready[0]);
      assert before + [ready[0]] + ready[1..] == before + ready;
      if ConflictsWithOne(ready[0], chosen) {
        SelectedKeepOrder(before + [ready[0]], ready[1..], chosen);
      } else if ready[0].merge.SerialOnly? {
        SubsequenceExtends(chosen + [ready[0]], before + [ready[0]], ready[1..]);
      } else {
        SelectedKeepOrder(before + [ready[0]], ready[1..], chosen + [ready[0]]);
      }
    }
  }

  lemma {:induction false} SubsequenceExtends<T>(a: seq<T>, b: seq<T>, c: seq<T>)
    requires IsSubsequence(a, b)
    ensures IsSubsequence(a, b + c)
  {
    if c == [] {
      assert b + c == b;
    } else {
      SubsequenceExtends(a, b, c[..|c| - 1]);
      SubsequenceSnoc(a, b + c[..|c| - 1], c[|c| - 1]);
      assert b + c[..|c| - 1] + [c[|c| - 1]] == b + c;
    }
  }

  /** Whatever is passed over conflicts with something chosen. */
  lemma {:induction false} SelectedAreMaximal(ready: seq<Meta>, chosen: seq<Meta>, t: Meta)
    requires t in ready && DistinctIds(ready)
    requires forall c :: c in chosen ==> c.id != "" && forall i :: 0 <= i < |ready| ==> c.id != ready[i].id
    ensures t in SelectFrom(ready, chosen) || ConflictsWithOne(t, SelectFrom(ready, chosen))
  {
    SelectedKeepOrder([], ready, []);
    var head, rest := ready[0], ready[1..];
    if t != head { InTail(ready, t); }
    if ConflictsWithOne(head, chosen) {
      ChosenStay(rest, chosen);
      if t == head {
        var c :| c in chosen && Conflict(head, c);
        assert c in SelectFrom(rest, chosen);
      } else {
        SelectedAreMaximal(rest, chosen, t);
      }
    } else if head.merge.SerialOnly? {
      assert head in chosen + [head];
      if t != head {
        var i :| 0 <= i < |ready| && ready[i] == t;
        assert Conflict(t, head);
      }
    } else {
      ChosenStay(rest, chosen + [head]);
      assert head in chosen + [head];
      if t != head { SelectedAreMaximal(rest, chosen + [head], t); }
    }
  }

  lemma {:induction false} ChosenStay(ready: seq<Meta>, chosen: seq<Meta>)
    ensures forall c :: c in chosen ==> c in SelectFrom(ready, chosen)
    ensures chosen <= SelectFrom(ready, chosen)
  {
    if ready != [] && !ready[0].merge.SerialOnly? && !ConflictsWithOne(ready[0], chosen) {
      ChosenStay(ready[1..], chosen + [ready[0]]);
    } else if ready != [] && ConflictsWithOne(ready[0], chosen) {
      ChosenStay(ready[1..], chosen);
    }
  }

  predicate RunsAlone(t: Meta) {
    t.merge.SerialOnly? || t.scope.SessionAll? || UnknownMutableScope(t)
  }

  lemma FirstIsChosen(ready: seq<Meta>)
    requires |ready| > 1
    ensures var batch := SelectBatch(false, ready); batch != [] && batch[0] == ready[0]
  {
    assert !ConflictsWithOne(ready[0], []);
    assert [] + [ready[0]] == [ready[0]];
    if !ready[0].merge.SerialOnly? { ChosenStay(ready[1..], [ready[0]]); }
  }

  /** The batch is a maximal conflict-free selection of the ready tasks, in their order, that starts
      with the first one; serial-only, session-exclusive and unknown-scope tasks run alone. */
  lemma BatchIsMaximalConflictFree(ready: seq<Meta>)
    requires DistinctIds(ready) && ready != []
    ensures
      var batch := SelectBatch(false, ready);
      && IsSubsequence(batch, ready)
      && ConflictFree(batch)
      && batch != [] && batch[0] == ready[0]
      && (forall t :: t in ready ==> t in batch || ConflictsWithOne(t, batch))
      && (forall t :: t in batch && RunsAlone(t) ==> batch == [t])
  {
    var batch := SelectBatch(false, ready);
    if |ready| == 1 {
      SubsequenceReflexive(ready);
      return;
    }
    SelectedKeepOrder([], ready, []);
    assert [] + ready == ready;
    SelectedAreConflictFree(ready, []);
    FirstIsChosen(ready);
    forall t | t in ready ensures t in batch || ConflictsWithOne(t, batch) {
      SelectedAreMaximal(ready, [], t);
    }
    forall t | t in batch && RunsAlone(t) ensures batch == [t] {
      SubsequenceDistinctIds(batch, ready);
      AloneInBatch(batch, t);
    }
  }

  lemma AloneInBatch(batch: seq<Meta>, t: Meta)
    requires ConflictFree(batch) && DistinctIds(batch) && t in batch && RunsAlone(t)
    ensures batch == [t]
  {
    var i :| 0 <= i < |batch| && batch[i] == t;
    if |batch| > 1 {
      var j := if i == 0 then 1 else 0;
      assert Conflict(batch[i], batch[j]);
      assert false;
    }
  }

  lemma {:induction false} SubsequenceMembers<T>(a: seq<T>, b: seq<T>, x: T)
    requires IsSubsequence(a, b) && x in a
    ensures x in b
  {
    var b' := b[..|b| - 1];
    if a[|a| - 1] == b[|b| - 1] && IsSubsequence(a[..|a| - 1], b') {
      if x != b[|b| - 1] { SubsequenceMembers(a[..|a| - 1], b', x); }
    } else {
      SubsequenceMembers(a, b', x);
    }
  }

  lemma {:induction false} SubsequenceDistinctIds(a: seq<Meta>, b: seq<Meta>)
    requires IsSubsequence(a, b) && DistinctIds(b)
    ensures DistinctIds(a)
  {
    if a != [] {
      var a', b', last := a[..|a| - 1], b[..|b| - 1], b[|b| - 1];
      if a[|a| - 1] == last && IsSubsequence(a', b') {
        SubsequenceDistinctIds(a', b');
        forall i | 0 <= i < |a'| ensures a[i].id != last.id {
          assert a'[i] in a';
          SubsequenceMembers(a', b', a'[i]);
        }
      } else {
        SubsequenceDistinctIds(a, b');
      }
    }
  }

  // ---------------------------------------------------------------------------
  // Repeated selection
  // ---------------------------------------------------------------------------

  ghost function Leftover(ready: seq<Meta>, batch: seq<Meta>): seq<Meta> {
    if ready == [] then []
    else
      var rest := Leftover(ready[..|ready| - 1], batch);
      if ready[|ready| - 1] in batch then rest else rest + [ready[|ready| - 1]]
  }

  lemma {:induction false} LeftoverIsSubsequence(ready: seq<Meta>, batch: seq<Meta>)
    ensures IsSubsequence(Leftover(ready, batch), ready)
    ensures |Leftover(ready, batch)| <= |ready|
    ensures (exists t :: t in ready && t in batch) ==> |Leftover(ready, batch)| < |ready|
  {
    if ready != [] {
      var init, last := ready[..|ready| - 1], ready[|ready| - 1];
      LeftoverIsSubsequence(init, batch);
      SubsequenceSnoc(Leftover(init, batch), init, last);
      assert init + [last] == ready;
    }
  }

  ghost function Schedule(ready: seq<Meta>): seq<seq<Meta>>
    requires DistinctIds(ready)
    decreases |ready|
  {
    if ready == [] then []
    else
      var batch := SelectBatch(false, ready);
      BatchIsMaximalConflictFree(ready);
      LeftoverIsSubsequence(ready, batch);
      SubsequenceDistinctIds(Leftover(ready, batch), ready);
      assert ready[0] in ready && ready[0] in batch;
      [batch] + Schedule(Leftover(ready, batch))
  }

  ghost function Flatten<T>(batches: seq<seq<T>>): seq<T> {
    if batches == [] then [] else batches[0] + Flatten(batches[1..])
  }

  lemma LastIsNew(tasks: seq<Meta>)
    requires DistinctIds(tasks) && tasks != []
    ensures tasks[|tasks| - 1] !in tasks[..|tasks| - 1] && DistinctIds(tasks[..|tasks| - 1])
  {
  }

  lemma {:induction false} BatchAndLeftover(ready: seq<Meta>, batch: seq<Meta>)
    requires IsSubsequence(batch, ready) && DistinctIds(ready)
    ensures multiset(batch) + multiset(Leftover(ready, batch)) == multiset(ready)
  {
    if ready != [] {
      var ready', last := ready[..|ready| - 1], ready[|ready| - 1];
      assert multiset(ready) == multiset(ready') + multiset{last} by { assert ready == ready' + [last]; }
      LastIsNew(ready);
      if batch != [] && batch[|batch| - 1] == last && IsSubsequence(batch[..|batch| - 1], ready') {
        var batch' := batch[..|batch| - 1];
        assert batch == batch' + [last];
        assert multiset(batch) == multiset(batch') + multiset{last};
        BatchAndLeftover(ready', batch');
        LeftoverIgnores(ready', batch', last);
        assert Leftover(ready, batch) == Leftover(ready', batch);
      } else {
        BatchAndLeftover(ready', batch);
        assert last !in batch by {
          if last in batch { SubsequenceMembers(batch, ready', last); }
        }
        assert Leftover(ready, batch) == Leftover(ready', batch) + [last];
      }
    }
  }

  lemma {:induction false} LeftoverIgnores(ready: seq<Meta>, batch: seq<Meta>, extra: Meta)
    requires extra !in ready
    ensures Leftover(ready, batch + [extra]) == Leftover(ready, batch)
  {
    if ready != [] {
      assert ready[|ready| - 1] in ready;
      LeftoverIgnores(ready[..|ready| - 1], batch, extra);
    }
  }

  lemma OneRound(ready: seq<Meta>)
    requires DistinctIds(ready) && ready != []
    ensures var batch := SelectBatch(false, ready);
            var left := Leftover(ready, batch);
            && batch != [] && ConflictFree(batch) && DistinctIds(left) && |left| < |ready|
            && multiset(batch) + multiset(left) == multiset(ready)
  {
    var batch := SelectBatch(false, ready);
    BatchIsMaximalConflictFree(ready);
    LeftoverIsSubsequence(ready, batch);
    SubsequenceDistinctIds(Leftover(ready, batch), ready);
    assert ready[0] in ready && ready[0] in batch;
    BatchAndLeftover(ready, batch);
  }

  /** Selecting again from what is left runs every ready task exactly once, in at most as many
      conflict-free batches as there are tasks. */
  lemma {:induction false} ScheduleRunsEveryTask(ready: seq<Meta>)
    requires DistinctIds(ready)
    ensures |Schedule(ready)| <= |ready|
    ensures multiset(Flatten(Schedule(ready))) == multiset(ready)
    ensures forall b :: b in Schedule(ready) ==> b != [] && ConflictFree(b)
    decreases |ready|
  {
    if ready != [] {
      OneRound(ready);
      ScheduleRunsEveryTask(Leftover(ready, SelectBatch(false, ready)));
    }
  }

  lemma SecondIsSkipped(a: Meta, b: Meta, c: Meta)
    requires Conflict(b, a) && !Conflict(c, a) && !a.merge.SerialOnly? && !c.merge.SerialOnly?
    ensures SelectFrom([a, b, c], []) == [a, c]
  {
    assert SelectFrom([a, b, c], []) == SelectFrom([b, c], [a]) by {
      assert !ConflictsWithOne(a, []) && [a, b, c][1..] == [b, c] && [] + [a] == [a];
    }
    assert SelectFrom([b, c], [a]) == SelectFrom([c], [a]) by {
      assert a in [a] && ConflictsWithOne(b, [a]);
      assert [b, c][1..] == [c];
    }
    assert SelectFrom([c], [a]) == SelectFrom([], [a] + [c]) by {
      assert !ConflictsWithOne(c, [a]);
      assert [c][1..] == [];
    }
  }

  /** Only the choice inside a batch follows task order: a later task can run before an earlier ready
      task it conflicts with. Here "c" joins "a" although it conflicts with "b", which must wait. */
  lemma ScheduleCanReorderConflictingTasks() returns (ready: seq<Meta>)
    ensures |ready| == 3 && DistinctIds(ready)
    ensures Conflict(ready[1], ready[2]) && SelectBatch(false, ready) == [ready[0], ready[2]]
  {
    var a := Meta("a", ["x"], Workspace, TaskOrder);
    var b := Meta("b", ["x", "y"], Workspace, TaskOrder);
    var c := Meta("c", ["y"], Workspace, TaskOrder);
    ready := [a, b, c];
    assert Conflict(b, a) by { assert Trim(b.resourceKeys[0]) == Trim(a.resourceKeys[0]); }
    assert Conflict(b, c) by { assert Trim(b.resourceKeys[1]) == Trim(c.resourceKeys[0]); }
    SecondIsSkipped(a, b, c);
  }
}
