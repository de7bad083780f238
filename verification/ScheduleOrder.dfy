/** When repeated batch selection keeps the task order of conflicting tasks, and what that is worth. */
module ScheduleOrder {
  import opened Sequences
  import opened Batch
  import opened Serializability

  // ---------------------------------------------------------------------------
  // One round
  // ---------------------------------------------------------------------------

  /** Selection decides each task by what was selected before it. */
  lemma {:induction false} SelectSnoc(ready: seq<Meta>, t: Meta, chosen: seq<Meta>)
    requires DistinctIds(ready) && t.id != "" && forall x :: x in ready ==> x.id != t.id
    ensures var before := SelectFrom(ready, chosen);
            SelectFrom(ready + [t], chosen) == if ConflictsWithOne(t, before) then before else before + [t]
  {
    var all := ready + [t];
    if ready == [] {
      assert all == [t] && [t][1..] == [];
    } else {
      var head, rest := ready[0], ready[1..];
      assert all[0] == head && all[1..] == rest + [t] && head in ready;
      if ConflictsWithOne(head, chosen) {
        SelectSnoc(rest, t, chosen);
      } else if head.merge.SerialOnly? {
        assert head in chosen + [head] && Conflict(t, head);
      } else {
        SelectSnoc(rest, t, chosen + [head]);
      }
    }
  }

  /** A task is chosen exactly when it conflicts with nothing chosen from the tasks before it. */
  lemma {:induction false} ChosenIff(ready: seq<Meta>, k: nat)
    requires DistinctIds(ready) && k < |ready|
    ensures ready[k] in SelectFrom(ready, []) <==> !ConflictsWithOne(ready[k], SelectFrom(ready[..k], []))
  {
    var n := |ready| - 1;
    var init, last := ready[..n], ready[n];
    assert ready == init + [last];
    SelectSnoc(init, last, []);
    if k < n {
      ChosenIff(init, k);
      assert init[..k] == ready[..k] && ready[k] != last;
    } else {
      assert last !in SelectFrom(init, []) by { OnlyReadyAreSelected(init, last); }
    }
  }

  lemma OnlyReadyAreSelected(ready: seq<Meta>, t: Meta)
    requires t !in ready
    ensures t !in SelectFrom(ready, [])
  {
    SelectedKeepOrder([], ready, []);
    assert [] + ready == ready;
    if t in SelectFrom(ready, []) { SubsequenceMembers(SelectFrom(ready, []), ready, t); }
  }

  /** The later of two conflicting tasks passes the selection, the earlier one is skipped by it. */
  ghost predicate Overtakes(ready: seq<Meta>, i: nat, j: nat)
    requires i < j < |ready|
  {
    && Conflict(ready[i], ready[j])
    && ConflictsWithOne(ready[i], SelectFrom(ready[..i], []))
    && !ConflictsWithOne(ready[j], SelectFrom(ready[..j], []))
  }

  /** The guards of the selection say exactly which pairs one batch reverses. */
  lemma OvertakesIff(ready: seq<Meta>, i: nat, j: nat)
    requires DistinctIds(ready) && i < j < |ready| && Conflict(ready[i], ready[j])
    ensures var batch := SelectBatch(false, ready);
            Overtakes(ready, i, j) <==> ready[j] in batch && ready[i] !in batch
  {
    ChosenIff(ready, i);
    ChosenIff(ready, j);
  }

  ghost predicate RoundKeepsOrder(ready: seq<Meta>) {
    forall i, j :: 0 <= i < j < |ready| ==> !Overtakes(ready, i, j)
  }

  // ---------------------------------------------------------------------------
  // All rounds
  // ---------------------------------------------------------------------------

  ghost function NextReady(ready: seq<Meta>): (left: seq<Meta>)
    requires DistinctIds(ready) && ready != []
    ensures DistinctIds(left) && |left| < |ready|
  {
    OneRound(ready);
    Leftover(ready, SelectBatch(false, ready))
  }

  /** No round of the schedule lets a task overtake one it conflicts with. */
  ghost predicate NoRoundOvertakes(ready: seq<Meta>)
    requires DistinctIds(ready)
    decreases |ready|
  {
    ready == [] || (RoundKeepsOrder(ready) && NoRoundOvertakes(NextReady(ready)))
  }

  ghost predicate Before(tasks: seq<Meta>, x: Meta, y: Meta) {
    exists p, q :: 0 <= p < q < |tasks| && tasks[p] == x && tasks[q] == y
  }

  /** Conflicting tasks run in task order. */
  ghost predicate OrderKept(ready: seq<Meta>, run: seq<Meta>) {
    forall x, y :: Before(ready, x, y) && Conflict(x, y) ==> Before(run, x, y)
  }

  lemma BeforeSnoc(tasks: seq<Meta>, t: Meta, x: Meta, y: Meta)
    ensures Before(tasks + [t], x, y) <==> Before(tasks, x, y) || (x in tasks && y == t)
  {
    var all := tasks + [t];
    if p, q :| 0 <= p < q < |all| && all[p] == x && all[q] == y {
      if q < |tasks| { assert tasks[p] == x && tasks[q] == y; } else { assert tasks[p] == x; }
    }
    if p, q :| 0 <= p < q < |tasks| && tasks[p] == x && tasks[q] == y { assert all[p] == x && all[q] == y; }
    if x in tasks && y == t {
      var p :| 0 <= p < |tasks| && tasks[p] == x;
      assert all[p] == x && all[|tasks|] == y;
    }
  }

  lemma {:induction false} LeftoverMembers(ready: seq<Meta>, batch: seq<Meta>, x: Meta)
    ensures x in Leftover(ready, batch) <==> x in ready && x !in batch
  {
    if ready != [] {
      LeftoverMembers(ready[..|ready| - 1], batch, x);
      assert ready == ready[..|ready| - 1] + [ready[|ready| - 1]];
    }
  }

  lemma {:induction false} LeftoverBefore(ready: seq<Meta>, batch: seq<Meta>, x: Meta, y: Meta)
    ensures Before(Leftover(ready, batch), x, y) <==> Before(ready, x, y) && x !in batch && y !in batch
  {
    if ready != [] {
      var init, last := ready[..|ready| - 1], ready[|ready| - 1];
      LeftoverBefore(init, batch, x, y);
      LeftoverMembers(init, batch, x);
      assert ready == init + [last];
      BeforeSnoc(init, last, x, y);
      BeforeSnoc(Leftover(init, batch), last, x, y);
    }
  }

  /** Before, within two parts that have nothing in common. */
  lemma BeforeInParts(a: seq<Meta>, b: seq<Meta>, x: Meta, y: Meta)
    ensures x in a && y in b ==> Before(a + b, x, y)
    ensures Before(b, x, y) ==> Before(a + b, x, y)
    ensures Before(a + b, x, y) && x !in a ==> Before(b, x, y)
  {
    var all := a + b;
    if x in a && y in b {
      var p :| 0 <= p < |a| && a[p] == x;
      var q :| 0 <= q < |b| && b[q] == y;
      assert all[p] == x && all[|a| + q] == y;
    }
    if p, q :| 0 <= p < q < |b| && b[p] == x && b[q] == y { assert all[|a| + p] == x && all[|a| + q] == y; }
    if x !in a {
      if p, q :| 0 <= p < q < |all| && all[p] == x && all[q] == y { assert b[p - |a|] == x && b[q - |a|] == y; }
    }
  }

  lemma RoundKeepsOrderIff(ready: seq<Meta>)
    requires DistinctIds(ready) && ready != []
    ensures var batch := SelectBatch(false, ready);
            RoundKeepsOrder(ready) <==>
              forall x, y :: Before(ready, x, y) && Conflict(x, y) && y in batch ==> x in batch
  {
    var batch := SelectBatch(false, ready);
    if RoundKeepsOrder(ready) {
      forall x, y | Before(ready, x, y) && Conflict(x, y) && y in batch ensures x in batch {
        var p, q :| 0 <= p < q < |ready| && ready[p] == x && ready[q] == y;
        OvertakesIff(ready, p, q);
      }
    } else {
      var i, j :| 0 <= i < j < |ready| && Overtakes(ready, i, j);
      OvertakesIff(ready, i, j);
      assert Before(ready, ready[i], ready[j]);
    }
  }

  lemma ScheduleMembers(ready: seq<Meta>, x: Meta)
    requires DistinctIds(ready)
    ensures x in Flatten(Schedule(ready)) <==> x in ready
  {
    ScheduleRunsEveryTask(ready);
    assert x in Flatten(Schedule(ready)) <==> x in multiset(Flatten(Schedule(ready)));
    assert x in ready <==> x in multiset(ready);
  }

  lemma ScheduleUnfolds(ready: seq<Meta>)
    requires DistinctIds(ready) && ready != []
    ensures Flatten(Schedule(ready)) == SelectBatch(false, ready) + Flatten(Schedule(NextReady(ready)))
  {
    assert Schedule(ready)[1..] == Schedule(NextReady(ready));
  }

  lemma ApartInBatch(ready: seq<Meta>, x: Meta, y: Meta)
    requires DistinctIds(ready) && ready != [] && Conflict(x, y)
    ensures var batch := SelectBatch(false, ready); !(x in batch && y in batch)
  {
    OneRound(ready);
  }

  /** A schedule runs conflicting tasks in task order if and only if none of its rounds overtakes. */
  lemma {:induction false} OrderKeptIff(ready: seq<Meta>)
    requires DistinctIds(ready)
    ensures OrderKept(ready, Flatten(Schedule(ready))) <==> NoRoundOvertakes(ready)
    decreases |ready|
  {
    if ready != [] {
      var left := NextReady(ready);
      OrderKeptIff(left);
      RoundKeepsOrderIff(ready);
      ScheduleUnfolds(ready);
      if NoRoundOvertakes(ready) { RoundsKeepOrder(ready); }
      if OrderKept(ready, Flatten(Schedule(ready))) { KeptOrderMeansRounds(ready); }
    }
  }

  /** Both sides of the condition occur: this schedule does reorder two conflicting tasks. */
  lemma SomeScheduleReorders() returns (ready: seq<Meta>)
    ensures DistinctIds(ready) && !OrderKept(ready, Flatten(Schedule(ready)))
  {
    ready := ScheduleCanReorderConflictingTasks();
    assert ready[1] != ready[0] && ready[1] != ready[2];
    OvertakesIff(ready, 1, 2);
    OrderKeptIff(ready);
  }

  lemma RoundsKeepOrder(ready: seq<Meta>)
    requires DistinctIds(ready) && ready != []
    requires var batch := SelectBatch(false, ready);
             forall x, y :: Before(ready, x, y) && Conflict(x, y) && y in batch ==> x in batch
    requires OrderKept(NextReady(ready), Flatten(Schedule(NextReady(ready))))
    ensures OrderKept(ready, SelectBatch(false, ready) + Flatten(Schedule(NextReady(ready))))
  {
    var batch, left := SelectBatch(false, ready), NextReady(ready);
    var later := Flatten(Schedule(left));
    forall x, y | Before(ready, x, y) && Conflict(x, y) ensures Before(batch + later, x, y) {
      ApartInBatch(ready, x, y);
      LeftoverMembers(ready, batch, y);
      ScheduleMembers(left, y);
      LeftoverBefore(ready, batch, x, y);
      BeforeInParts(batch, later, x, y);
    }
  }

  lemma KeptOrderMeansRounds(ready: seq<Meta>)
    requires DistinctIds(ready) && ready != []
    requires OrderKept(ready, SelectBatch(false, ready) + Flatten(Schedule(NextReady(ready))))
    ensures var batch := SelectBatch(false, ready);
            forall x, y :: Before(ready, x, y) && Conflict(x, y) && y in batch ==> x in batch
    ensures OrderKept(NextReady(ready), Flatten(Schedule(NextReady(ready))))
  {
    var batch, left := SelectBatch(false, ready), NextReady(ready);
    var later := Flatten(Schedule(left));
    forall x, y | Before(ready, x, y) && Conflict(x, y) && x !in batch ensures Before(later, x, y) && y !in batch {
      BeforeInParts(batch, later, x, y);
      var p, q :| 0 <= p < q < |later| && later[p] == x && later[q] == y;
      ScheduleMembers(left, y);
      LeftoverMembers(ready, batch, y);
    }
    forall x, y | Before(left, x, y) && Conflict(x, y) ensures Before(later, x, y) {
      LeftoverBefore(ready, batch, x, y);
    }
  }

  // ---------------------------------------------------------------------------
  // What the order is worth
  // ---------------------------------------------------------------------------

  /** Running tasks one after another; `does` gives what each task does to the resources. */
  ghost function Performed<V>(does: Meta -> Job<V>, tasks: seq<Meta>, s: Resources<V>): Resources<V> {
    if tasks == [] then s
    else Perform(does(tasks[|tasks| - 1]), Performed(does, tasks[..|tasks| - 1], s))
  }

  ghost predicate Describes<V>(does: Meta -> Job<V>, tasks: seq<Meta>) {
    forall t :: t in tasks ==> does(t).meta == t
  }

  lemma {:induction false} PerformedConcat<V>(does: Meta -> Job<V>, a: seq<Meta>, b: seq<Meta>, s: Resources<V>)
    ensures Performed(does, a + b, s) == Performed(does, b, Performed(does, a, s))
  {
    if b == [] {
      assert a + b == a;
    } else {
      PerformedConcat(does, a, b[..|b| - 1], s);
      assert (a + b)[..|a + b| - 1] == a + b[..|b| - 1];
    }
  }

  lemma Commute<V>(a: Job<V>, b: Job<V>, s: Resources<V>)
    requires a.meta.id != "" && b.meta.id != "" && a.meta.id != b.meta.id && !Conflict(a.meta, b.meta)
    ensures Perform(a, Perform(b, s)) == Perform(b, Perform(a, s))
  {
    var jobs := [a, b];
    assert Metas(jobs) == [a.meta, b.meta];
    assert ConflictFree(Metas(jobs)) by {
      if Conflict(b.meta, a.meta) { ConflictSymmetric(b.meta, a.meta); }
    }
    var p: seq<nat>, q: seq<nat> := [0, 1], [1, 0];
    assert p[0] == 0 && p[1] == 1 && q[0] == 1 && q[1] == 0;
    OrdersAgree(jobs, p, q, s);
    TwoInOrder(jobs, 0, 1, s);
    TwoInOrder(jobs, 1, 0, s);
  }

  lemma TwoInOrder<V>(jobs: seq<Job<V>>, i: nat, j: nat, s: Resources<V>)
    requires i < |jobs| && j < |jobs|
    ensures var order: seq<nat> := [i, j]; PerformAll(jobs, order, s) == Perform(jobs[j], Perform(jobs[i], s))
  {
    var order: seq<nat>, first: seq<nat> := [i, j], [i];
    assert order[..1] == first && first[..0] == [];
    assert PerformAll(jobs, first, s) == Perform(jobs[i], s);
  }

  lemma PerformedSnoc<V>(does: Meta -> Job<V>, tasks: seq<Meta>, t: Meta, s: Resources<V>)
    ensures Performed(does, tasks + [t], s) == Perform(does(t), Performed(does, tasks, s))
  {
    assert (tasks + [t])[..|tasks|] == tasks;
  }

  ghost predicate Independent(t: Meta, rest: seq<Meta>) {
    t.id != "" && forall x :: x in rest ==> x.id != "" && x.id != t.id && !Conflict(x, t)
  }

  lemma {:induction false} MoveBack<V>(does: Meta -> Job<V>, t: Meta, rest: seq<Meta>, s: Resources<V>)
    requires does(t).meta == t && Describes(does, rest) && Independent(t, rest)
    ensures Performed(does, [t] + rest, s) == Performed(does, rest + [t], s)
  {
    if rest == [] {
      assert [t] + rest == rest + [t];
    } else {
      var init, last := rest[..|rest| - 1], rest[|rest| - 1];
      assert rest == init + [last] && last in rest && forall x :: x in init ==> x in rest;
      MoveBack(does, t, init, s);
      assert [t] + rest == ([t] + init) + [last];
      PerformedSnoc(does, [t] + init, last, s);
      PerformedSnoc(does, init, t, s);
      PerformedSnoc(does, init, last, s);
      PerformedSnoc(does, rest, t, s);
      Commute(does(last), does(t), Performed(does, init, s));
    }
  }

  ghost function Chosen(ready: seq<Meta>, batch: seq<Meta>): seq<Meta> {
    if ready == [] then []
    else
      var rest := Chosen(ready[..|ready| - 1], batch);
      if ready[|ready| - 1] in batch then rest + [ready[|ready| - 1]] else rest
  }

  lemma {:induction false} ChosenIgnores(ready: seq<Meta>, batch: seq<Meta>, extra: Meta)
    requires extra !in ready
    ensures Chosen(ready, batch + [extra]) == Chosen(ready, batch)
  {
    if ready != [] {
      assert ready[|ready| - 1] in ready;
      ChosenIgnores(ready[..|ready| - 1], batch, extra);
    }
  }

  lemma {:induction false} ChosenIsBatch(ready: seq<Meta>, batch: seq<Meta>)
    requires IsSubsequence(batch, ready) && DistinctIds(ready)
    ensures Chosen(ready, batch) == batch
  {
    if ready != [] {
      var ready', last := ready[..|ready| - 1], ready[|ready| - 1];
      LastIsNew(ready);
      if batch != [] && batch[|batch| - 1] == last && IsSubsequence(batch[..|batch| - 1], ready') {
        var batch' := batch[..|batch| - 1];
        assert batch == batch' + [last];
        ChosenIsBatch(ready', batch');
        ChosenIgnores(ready', batch', last);
      } else {
        ChosenIsBatch(ready', batch);
        if last in batch { SubsequenceMembers(batch, ready', last); }
      }
    }
  }

  /** A round may be run first if no task of it conflicts with an earlier one that it leaves behind. */
  ghost predicate MayGoFirst(ready: seq<Meta>, batch: seq<Meta>) {
    forall x, y :: Before(ready, x, y) && y in batch && x !in batch ==> !Conflict(x, y)
  }

  lemma AllButLastMayGoFirst(ready: seq<Meta>, batch: seq<Meta>)
    requires ready != [] && DistinctIds(ready) && MayGoFirst(ready, batch)
    ensures var init := ready[..|ready| - 1]; DistinctIds(init) && MayGoFirst(init, batch)
  {
    var init, t := ready[..|ready| - 1], ready[|ready| - 1];
    assert ready == init + [t];
    forall x, y | Before(init, x, y) ensures Before(ready, x, y) { BeforeSnoc(init, t, x, y); }
  }

  lemma MoveIntoRound<V>(does: Meta -> Job<V>, front: seq<Meta>, back: seq<Meta>, t: Meta, s: Resources<V>)
    requires does(t).meta == t && Describes(does, back) && Independent(t, back)
    ensures Performed(does, front + [t] + back, s) == Performed(does, front + back + [t], s)
  {
    MoveBack(does, t, back, Performed(does, front, s));
    PerformedConcat(does, front, [t] + back, s);
    PerformedConcat(does, front, back + [t], s);
    assert front + (back + [t]) == front + back + [t] && front + ([t] + back) == front + [t] + back;
  }

  lemma DescribesLeftover<V>(does: Meta -> Job<V>, ready: seq<Meta>, batch: seq<Meta>)
    requires Describes(does, ready)
    ensures Describes(does, Leftover(ready, batch))
  {
    forall x | x in Leftover(ready, batch) ensures x in ready { LeftoverMembers(ready, batch, x); }
  }

  lemma {:induction false} RoundFirst<V>(does: Meta -> Job<V>, ready: seq<Meta>, batch: seq<Meta>, s: Resources<V>)
    requires DistinctIds(ready) && Describes(does, ready) && MayGoFirst(ready, batch)
    ensures Performed(does, Chosen(ready, batch) + Leftover(ready, batch), s) == Performed(does, ready, s)
  {
    if ready != [] {
      var init, t := ready[..|ready| - 1], ready[|ready| - 1];
      var front, back := Chosen(init, batch), Leftover(init, batch);
      assert t in ready && Describes(does, init) by { assert forall x :: x in init ==> x in ready; }
      AllButLastMayGoFirst(ready, batch);
      RoundFirst(does, init, batch, s);
      PerformedSnoc(does, front + back, t, s);
      if t in batch {
        LeftBehindIsIndependent(ready, batch);
        DescribesLeftover(does, init, batch);
        MoveIntoRound(does, front, back, t, s);
      } else {
        assert front + back + [t] == front + (back + [t]);
      }
    }
  }

  lemma LeftBehindIsIndependent(ready: seq<Meta>, batch: seq<Meta>)
    requires ready != [] && DistinctIds(ready) && MayGoFirst(ready, batch) && ready[|ready| - 1] in batch
    ensures Independent(ready[|ready| - 1], Leftover(ready[..|ready| - 1], batch))
  {
    var init, t := ready[..|ready| - 1], ready[|ready| - 1];
    assert ready == init + [t];
    forall x | x in Leftover(init, batch) ensures x.id != "" && x.id != t.id && !Conflict(x, t) {
      LeftoverMembers(init, batch, x);
      var p :| 0 <= p < |init| && init[p] == x;
      assert ready[p] == x;
      BeforeSnoc(init, t, x, t);
    }
  }

  /** If no round overtakes, the schedule leaves the resources as running the ready tasks one after another
      in task order does, whatever the tasks do within what they declare. */
  lemma {:induction false} ScheduleIsSerializable<V>(does: Meta -> Job<V>, ready: seq<Meta>, s: Resources<V>)
    requires DistinctIds(ready) && Describes(does, ready) && NoRoundOvertakes(ready)
    ensures Performed(does, Flatten(Schedule(ready)), s) == Performed(does, ready, s)
    decreases |ready|
  {
    if ready != [] {
      var batch, left := SelectBatch(false, ready), NextReady(ready);
      BatchIsMaximalConflictFree(ready);
      ChosenIsBatch(ready, batch);
      RoundKeepsOrderIff(ready);
      RoundFirst(does, ready, batch, s);
      ScheduleUnfolds(ready);
      DescribesLeftover(does, ready, batch);
      ScheduleIsSerializable(does, left, Performed(does, batch, s));
      PerformedConcat(does, batch, left, s);
      PerformedConcat(does, batch, Flatten(Schedule(left)), s);
    }
  }
}
