/** What the scheduler keeps apart, in the terms of the plan: the conflict metadata that plan tasks get, and
    which of them may therefore run together. */
module PlanConflicts {
  import opened Text
  import opened Batch
  import opened Graph
  import opened GraphHistory
  import P = Plan

  /** The task declares `o`, read without the space around it. */
  ghost predicate HasOutput(t: P.Task, o: string) {
    o != "" && exists i :: 0 <= i < |t.outputs| && Trim(t.outputs[i]) == o
  }

  ghost predicate HasSomeOutput(t: P.Task) {
    exists o :: HasOutput(t, o)
  }

  const MUTABLE_STATE := "session:mutable_state"

  /** The resource keys of a task: its outputs, or the session's state if it has none and may write. */
  ghost predicate IsResource(t: P.Task, k: string) {
    || (exists o :: HasOutput(t, o) && k == "output:" + o)
    || (k == MUTABLE_STATE && !HasSomeOutput(t)
        && !(t.kind.Research? || t.kind.Review? || t.kind.Translate?))
  }

  lemma SomeOutputKey(t: P.Task)
    ensures OutputKeys(t.outputs) != [] <==> HasSomeOutput(t)
  {
    if OutputKeys(t.outputs) != [] {
      OutputKeysMembers(t.outputs, OutputKeys(t.outputs)[0]);
      var i :| 0 <= i < |t.outputs| && Trim(t.outputs[i]) != "";
      assert HasOutput(t, Trim(t.outputs[i]));
    }
    if HasSomeOutput(t) {
      var o :| HasOutput(t, o);
      OutputKeysMembers(t.outputs, "output:" + o);
    }
  }

  lemma OutputKeyIsTrimmed(o: string)
    requires o != "" && Trimmed(o)
    ensures Trim("output:" + o) == "output:" + o
  {
    var s := "output:" + o;
    assert s[0] == 'o' && s[|s| - 1] == o[|o| - 1];
  }

  lemma MutableStateIsTrimmed()
    ensures Trim(MUTABLE_STATE) == MUTABLE_STATE
  {
    assert MUTABLE_STATE[0] == 's' && MUTABLE_STATE[|MUTABLE_STATE| - 1] == 'e';
  }

  lemma ResourceKeysAre(t: P.Task, k: string)
    ensures k in ResourceKeysOf(t) <==> IsResource(t, k)
  {
    var keys := OutputKeys(t.outputs);
    SomeOutputKey(t);
    MutableStateIsTrimmed();
    if keys == [] {
      NormalStringsMembers([MUTABLE_STATE], k);
      NormalStringsMembers([], k);
    } else {
      NormalStringsMembers(keys, k);
      if k in ResourceKeysOf(t) {
        var i :| 0 <= i < |keys| && Trim(keys[i]) == k;
        KeyOfOutput(t, keys[i]);
      }
      if IsResource(t, k) {
        var o :| HasOutput(t, o) && k == "output:" + o;
        OutputOfKey(t, o);
      }
    }
  }

  lemma KeyOfOutput(t: P.Task, k: string)
    requires k in OutputKeys(t.outputs)
    ensures Trim(k) == k && exists o :: HasOutput(t, o) && k == "output:" + o
  {
    OutputKeysMembers(t.outputs, k);
    var i :| 0 <= i < |t.outputs| && Trim(t.outputs[i]) != "" && k == "output:" + Trim(t.outputs[i]);
    TrimIdempotent(t.outputs[i]);
    OutputKeyIsTrimmed(Trim(t.outputs[i]));
    assert HasOutput(t, Trim(t.outputs[i]));
  }

  lemma OutputOfKey(t: P.Task, o: string)
    requires HasOutput(t, o)
    ensures Trim("output:" + o) == "output:" + o && "output:" + o in OutputKeys(t.outputs)
  {
    var i :| 0 <= i < |t.outputs| && Trim(t.outputs[i]) == o;
    TrimIdempotent(t.outputs[i]);
    OutputKeyIsTrimmed(o);
    OutputKeysMembers(t.outputs, "output:" + o);
  }

  /** The conflict metadata of a plan task, from its kind and its outputs. */
  lemma MetadataOfTask(digest: Digest, t: P.Task)
    ensures
      var meta := Derive(digest, t).meta;
      && meta.id == Trim(t.id)
      && (meta.scope == ReadOnly <==> t.kind.Research? || t.kind.Review? || t.kind.Translate?)
      && (meta.scope == Workspace <==> t.kind.Transform? || t.kind.Write? || t.kind.Execute?)
      && (meta.merge == SerialOnly <==> t.kind.Deliver?)
      && (forall k :: k in meta.resourceKeys <==> IsResource(t, k))
    ensures Derive(digest, t).idempotencyKey == Trim(digest(Trim(t.id), t.kind, Trim(t.goal)))
  {
    forall k ensures k in Derive(digest, t).meta.resourceKeys <==> IsResource(t, k) { ResourceKeysAre(t, k); }
  }

  // ---------------------------------------------------------------------------
  // Which tasks may run together
  // ---------------------------------------------------------------------------

  /** The kinds that have the session for themselves. */
  predicate RunsOnItsOwn(t: P.Task) {
    t.kind.Deliver? || t.kind.Unspecified?
  }

  predicate MayWrite(t: P.Task) {
    !t.kind.Research? && !t.kind.Review? && !t.kind.Translate?
  }

  /** A common output of which one task is a writer, or two writers that do not say what they write. */
  ghost predicate KeptApart(t: P.Task, u: P.Task) {
    || RunsOnItsOwn(t) || RunsOnItsOwn(u)
    || ((MayWrite(t) || MayWrite(u)) && exists o :: HasOutput(t, o) && HasOutput(u, o))
    || (MayWrite(t) && MayWrite(u) && !HasSomeOutput(t) && !HasSomeOutput(u))
  }

  lemma SharedResource(t: P.Task, u: P.Task)
    ensures SharesKey(ResourceKeysOf(t), ResourceKeysOf(u)) <==> exists k :: IsResource(t, k) && IsResource(u, k)
  {
    var left, right := ResourceKeysOf(t), ResourceKeysOf(u);
    NormalStringsAreNormal(if OutputKeys(t.outputs) == [] && !OnlyReads(t.kind) then [MUTABLE_STATE]
                           else OutputKeys(t.outputs));
    NormalStringsAreNormal(if OutputKeys(u.outputs) == [] && !OnlyReads(u.kind) then [MUTABLE_STATE]
                           else OutputKeys(u.outputs));
    if SharesKey(left, right) {
      var i, j :| 0 <= i < |left| && 0 <= j < |right| && Trim(left[i]) == Trim(right[j]);
      assert left[i] in left && right[j] in right;
      ResourceKeysAre(t, left[i]);
      ResourceKeysAre(u, left[i]);
    }
    if k :| IsResource(t, k) && IsResource(u, k) {
      ResourceKeysAre(t, k);
      ResourceKeysAre(u, k);
      var i, j :| 0 <= i < |left| && 0 <= j < |right| && left[i] == k == right[j];
      assert Trim(left[i]) == Trim(right[j]);
    }
  }

  lemma SharedResourceIff(t: P.Task, u: P.Task)
    ensures (exists k :: IsResource(t, k) && IsResource(u, k)) <==>
            || (exists o :: HasOutput(t, o) && HasOutput(u, o))
            || (MayWrite(t) && MayWrite(u) && !HasSomeOutput(t) && !HasSomeOutput(u))
  {
    if k :| IsResource(t, k) && IsResource(u, k) {
      if k != MUTABLE_STATE {
        var o, o' :| HasOutput(t, o) && k == "output:" + o && HasOutput(u, o') && k == "output:" + o';
        assert o == k[7..] && o' == k[7..];
      } else {
        forall o ensures "output:" + o != MUTABLE_STATE { assert ("output:" + o)[0] != MUTABLE_STATE[0]; }
      }
    }
    if o :| HasOutput(t, o) && HasOutput(u, o) {
      assert IsResource(t, "output:" + o) && IsResource(u, "output:" + o);
    }
    if MayWrite(t) && MayWrite(u) && !HasSomeOutput(t) && !HasSomeOutput(u) {
      assert IsResource(t, MUTABLE_STATE) && IsResource(u, MUTABLE_STATE);
    }
  }

  lemma WritersHaveKeys(t: P.Task)
    requires MayWrite(t)
    ensures ResourceKeysOf(t) != []
  {
    if o :| HasOutput(t, o) {
      ResourceKeysAre(t, "output:" + o);
    } else {
      ResourceKeysAre(t, MUTABLE_STATE);
    }
  }

  /** Two plan tasks conflict exactly when the plan says they must be kept apart. */
  lemma ConflictIffKeptApart(digest: Digest, t: P.Task, u: P.Task)
    requires Trim(t.id) != "" && Trim(u.id) != "" && Trim(t.id) != Trim(u.id)
    ensures Conflict(Derive(digest, t).meta, Derive(digest, u).meta) <==> KeptApart(t, u)
  {
    SharedResource(t, u);
    SharedResourceIff(t, u);
    if MayWrite(t) { WritersHaveKeys(t); }
    if MayWrite(u) { WritersHaveKeys(u); }
  }

  // ---------------------------------------------------------------------------
  // Batches of a plan
  // ---------------------------------------------------------------------------

  /** The ready tasks of a plan, by their places in it. */
  ghost predicate PlacesIn(tasks: seq<P.Task>, ready: seq<nat>) {
    && (forall n :: 0 <= n < |ready| ==> ready[n] < |tasks|)
    && (forall m, n :: 0 <= m < n < |ready| ==> ready[m] != ready[n])
  }

  function MetasAt(graph: seq<ExecTask>, ready: seq<nat>): seq<Meta>
    requires forall n :: 0 <= n < |ready| ==> ready[n] < |graph|
  {
    seq(|ready|, n requires 0 <= n < |ready| => graph[ready[n]].meta)
  }

  /** After any history of rebuilds, dispatches, results, requeues and syncs, the batch chosen from the ready
      tasks of a plan holds no two tasks that share an output one of them may write, no two writers that do not
      say what they write, and no company for a Deliver task; and a ready task is left out only if it must be
      kept apart from one that was chosen. */
  lemma PlanBatchesAreSafe(digest: Digest, start: P.Plan, ops: seq<Op>, ready: seq<nat>)
    requires P.GoodIds(start.tasks) && PlacesIn(start.tasks, ready) && ready != []
    requires ApplyAll(digest, Run(start, []), ops).graph != []
    ensures |ApplyAll(digest, Run(start, []), ops).graph| == |start.tasks|
    ensures
      var metas := MetasAt(ApplyAll(digest, Run(start, []), ops).graph, ready);
      var batch := SelectBatch(false, metas);
      && (forall m, n :: 0 <= m < n < |ready| && metas[m] in batch && metas[n] in batch ==>
            !KeptApart(start.tasks[ready[m]], start.tasks[ready[n]]))
      && (forall n :: 0 <= n < |ready| && metas[n] in batch && start.tasks[ready[n]].kind.Deliver? ==>
            batch == [metas[n]])
      && (forall n :: 0 <= n < |ready| && metas[n] !in batch ==>
            LeftOutFor(start.tasks, ready, metas, batch, n))
  {
    var run := ApplyAll(digest, Run(start, []), ops);
    GraphRemembersEverything(digest, start, ops);
    var metas := MetasAt(run.graph, ready);
    BatchOfMetas(digest, start.tasks, ready, metas);
  }

  ghost predicate LeftOutFor(tasks: seq<P.Task>, ready: seq<nat>, metas: seq<Meta>, batch: seq<Meta>, n: nat)
    requires PlacesIn(tasks, ready) && |metas| == |ready| && n < |ready|
  {
    exists m :: 0 <= m < |ready| && m != n && metas[m] in batch && KeptApart(tasks[ready[n]], tasks[ready[m]])
  }

  lemma BatchOfMetas(digest: Digest, tasks: seq<P.Task>, ready: seq<nat>, metas: seq<Meta>)
    requires P.GoodIds(tasks) && PlacesIn(tasks, ready) && ready != [] && |metas| == |ready|
    requires forall n :: 0 <= n < |ready| ==> metas[n] == Derive(digest, tasks[ready[n]]).meta
    ensures
      var batch := SelectBatch(false, metas);
      && (forall m, n :: 0 <= m < n < |ready| && metas[m] in batch && metas[n] in batch ==>
            !KeptApart(tasks[ready[m]], tasks[ready[n]]))
      && (forall n :: 0 <= n < |ready| && metas[n] in batch && tasks[ready[n]].kind.Deliver? ==>
            batch == [metas[n]])
      && (forall n :: 0 <= n < |ready| && metas[n] !in batch ==> LeftOutFor(tasks, ready, metas, batch, n))
  {
    var batch := SelectBatch(false, metas);
    IdsOfMetas(digest, tasks, ready, metas);
    BatchIsMaximalConflictFree(metas);
    forall m, n | 0 <= m < n < |ready| && metas[m] in batch && metas[n] in batch
      ensures !KeptApart(tasks[ready[m]], tasks[ready[n]])
    {
      ConflictIffKeptApart(digest, tasks[ready[m]], tasks[ready[n]]);
      var i, j :| 0 <= i < |batch| && 0 <= j < |batch| && batch[i] == metas[m] && batch[j] == metas[n];
      assert !Conflict(batch[i], batch[j]);
    }
    forall n | 0 <= n < |ready| && metas[n] !in batch ensures LeftOutFor(tasks, ready, metas, batch, n) {
      assert metas[n] in metas;
      var c :| c in batch && Conflict(metas[n], c);
      Batch.SubsequenceMembers(batch, metas, c);
      var m :| 0 <= m < |metas| && metas[m] == c;
      ConflictIffKeptApart(digest, tasks[ready[n]], tasks[ready[m]]);
    }
  }

  lemma IdsOfMetas(digest: Digest, tasks: seq<P.Task>, ready: seq<nat>, metas: seq<Meta>)
    requires P.GoodIds(tasks) && PlacesIn(tasks, ready) && |metas| == |ready|
    requires forall n :: 0 <= n < |ready| ==> metas[n] == Derive(digest, tasks[ready[n]]).meta
    ensures DistinctIds(metas)
    ensures forall n :: 0 <= n < |ready| ==> metas[n].id == tasks[ready[n]].id == Trim(tasks[ready[n]].id)
  {
    forall n | 0 <= n < |ready| ensures metas[n].id == tasks[ready[n]].id == Trim(tasks[ready[n]].id) { }
  }
}
