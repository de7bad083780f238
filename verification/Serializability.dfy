/** A conflict-free batch of tasks has the same effect in every order.

    A job is a task together with what it does to the session's resources. A read-only job changes
    nothing; a workspace job reads and writes only the resource keys it declares; a job without such
    limits (session-exclusive, serial-only or of unknown scope) may do anything. */
module Serializability {
  import opened Options
  import opened Text
  import opened Batch

  /** The resources by key; `V` is whatever a resource holds. */
  type Resources<V> = map<string, V>

  datatype Job<!V> = Job(meta: Meta, local: Resources<V> -> Resources<V>, whole: Resources<V> -> Resources<V>)

  ghost function Keys(t: Meta): set<string> {
    set i | 0 <= i < |t.resourceKeys| :: Trim(t.resourceKeys[i])
  }

  ghost function Restrict<V>(s: Resources<V>, keys: set<string>): Resources<V> {
    map k | k in s && k in keys :: s[k]
  }

  ghost function Perform<V>(j: Job<V>, s: Resources<V>): Resources<V> {
    if RunsAlone(j.meta) then j.whole(s)
    else if j.meta.scope.ReadOnly? then s
    else (s - Keys(j.meta)) + Restrict(j.local(Restrict(s, Keys(j.meta))), Keys(j.meta))
  }

  ghost function PerformAll<V>(jobs: seq<Job<V>>, order: seq<nat>, s: Resources<V>): Resources<V>
    requires forall i :: 0 <= i < |order| ==> order[i] < |jobs|
  {
    if order == [] then s
    else Perform(jobs[order[|order| - 1]], PerformAll(jobs, order[..|order| - 1], s))
  }

  ghost predicate IsOrder(order: seq<nat>, n: nat) {
    && (forall i :: 0 <= i < |order| ==> order[i] < n)
    && (forall i, j :: 0 <= i < j < |order| ==> order[i] != order[j])
  }

  /** An order of all n jobs. */
  ghost predicate IsPermutation(order: seq<nat>, n: nat) {
    IsOrder(order, n) && forall i :: 0 <= i < n ==> i in order
  }

  ghost function Metas<V>(jobs: seq<Job<V>>): seq<Meta> {
    seq(|jobs|, i requires 0 <= i < |jobs| => jobs[i].meta)
  }

  ghost function At<V>(s: Resources<V>, k: string): Option<V> {
    if k in s then Some(s[k]) else None
  }

  ghost predicate Writes(t: Meta, k: string) {
    !t.scope.ReadOnly? && k in Keys(t)
  }

  lemma PerformAt<V>(j: Job<V>, s: Resources<V>, k: string)
    requires !RunsAlone(j.meta)
    ensures At(Perform(j, s), k) == if Writes(j.meta, k) then At(j.local(Restrict(s, Keys(j.meta))), k) else At(s, k)
  {
  }

  /** Two jobs of a conflict-free batch never meet on a key that one of them writes. */
  lemma WritersAreAlone(a: Meta, b: Meta, k: string)
    requires a.id != "" && b.id != "" && a.id != b.id && !Conflict(a, b)
    requires Writes(a, k)
    ensures k !in Keys(b)
  {
  }

  ghost predicate Together<V>(jobs: seq<Job<V>>) {
    && DistinctIds(Metas(jobs)) && ConflictFree(Metas(jobs))
    && forall i :: 0 <= i < |jobs| ==> !RunsAlone(jobs[i].meta)
  }

  lemma JobsMeetNowhere<V>(jobs: seq<Job<V>>, w: nat, i: nat, k: string)
    requires Together(jobs) && w < |jobs| && i < |jobs| && w != i && Writes(jobs[w].meta, k)
    ensures k !in Keys(jobs[i].meta)
  {
    var metas := Metas(jobs);
    assert metas[w] == jobs[w].meta && metas[i] == jobs[i].meta;
    assert !Conflict(metas[w], metas[i]);
    WritersAreAlone(jobs[w].meta, jobs[i].meta, k);
  }

  /** After any of the jobs have run, a key holds what its only writer makes of the initial state, or,
      if its writer has not run, its initial value. */
  lemma {:induction false} KeyAfter<V>(jobs: seq<Job<V>>, order: seq<nat>, s: Resources<V>, k: string)
    requires Together(jobs) && IsOrder(order, |jobs|)
    ensures forall w :: w in order && Writes(jobs[w].meta, k) ==>
              At(PerformAll(jobs, order, s), k) == At(jobs[w].local(Restrict(s, Keys(jobs[w].meta))), k)
    ensures (forall w :: w in order ==> !Writes(jobs[w].meta, k)) ==> At(PerformAll(jobs, order, s), k) == At(s, k)
    decreases |order|, 0
  {
    if order != [] {
      var init, i := order[..|order| - 1], order[|order| - 1];
      var s' := PerformAll(jobs, init, s);
      assert order == init + [i] && i !in init;
      ViewUnchanged(jobs, init, s, i);
      PerformAt(jobs[i], s', k);
      KeyAfter(jobs, init, s, k);
      forall w | w in order && Writes(jobs[w].meta, k)
        ensures At(PerformAll(jobs, order, s), k) == At(jobs[w].local(Restrict(s, Keys(jobs[w].meta))), k)
      {
        if w != i { JobsMeetNowhere(jobs, w, i, k); }
      }
    }
  }

  /** Whatever ran before it, a job of the batch sees its declared keys as they were at the start. */
  lemma {:induction false} ViewUnchanged<V>(jobs: seq<Job<V>>, before: seq<nat>, s: Resources<V>, i: nat)
    requires Together(jobs) && IsOrder(before, |jobs|) && i < |jobs| && i !in before
    ensures Restrict(PerformAll(jobs, before, s), Keys(jobs[i].meta)) == Restrict(s, Keys(jobs[i].meta))
    decreases |before|, 1
  {
    var s' := PerformAll(jobs, before, s);
    forall k | k in Keys(jobs[i].meta) ensures At(s', k) == At(s, k) {
      forall w | w in before ensures !Writes(jobs[w].meta, k) {
        if Writes(jobs[w].meta, k) { JobsMeetNowhere(jobs, w, i, k); }
      }
      KeyAfter(jobs, before, s, k);
    }
    SameOnKeys(s', s, Keys(jobs[i].meta));
  }

  lemma SameOnKeys<V>(s: Resources<V>, t: Resources<V>, keys: set<string>)
    requires forall k :: k in keys ==> At(s, k) == At(t, k)
    ensures Restrict(s, keys) == Restrict(t, keys)
  {
    var a, b := Restrict(s, keys), Restrict(t, keys);
    forall k ensures (k in a <==> k in b) && (k in a ==> a[k] == b[k]) {
      if k in keys { assert At(s, k) == At(t, k); }
    }
  }

  lemma SameEverywhere<V>(s: Resources<V>, t: Resources<V>)
    requires forall k :: At(s, k) == At(t, k)
    ensures s == t
  {
    forall k ensures (k in s <==> k in t) && (k in s ==> s[k] == t[k]) {
      assert At(s, k) == At(t, k);
    }
  }

  lemma OrdersAgree<V>(jobs: seq<Job<V>>, p: seq<nat>, q: seq<nat>, s: Resources<V>)
    requires Together(jobs) && IsPermutation(p, |jobs|) && IsPermutation(q, |jobs|)
    ensures PerformAll(jobs, p, s) == PerformAll(jobs, q, s)
  {
    forall k ensures At(PerformAll(jobs, p, s), k) == At(PerformAll(jobs, q, s), k) {
      KeyAfter(jobs, p, s, k);
      KeyAfter(jobs, q, s, k);
      if w :| 0 <= w < |jobs| && Writes(jobs[w].meta, k) {
        assert w in p && w in q;
      }
    }
    SameEverywhere(PerformAll(jobs, p, s), PerformAll(jobs, q, s));
  }

  lemma FirstTwoDiffer(order: seq<nat>, n: nat)
    requires IsOrder(order, n) && |order| > 1
    ensures order[0] != order[1] && order[0] < n && order[1] < n
  {
  }

  lemma SingletonOrder(order: seq<nat>)
    requires IsPermutation(order, 1)
    ensures order == [0]
  {
    assert 0 in order;
    if |order| > 1 { FirstTwoDiffer(order, 1); }
  }

  ghost function TaskOrderOf(n: nat): seq<nat> {
    seq(n, i requires 0 <= i < n => i)
  }

  /** The batch chosen from the ready tasks of a non-serial plan is serializable: run in any order, it
      leaves the resources as running it in task order does. */
  lemma BatchIsSerializable<V>(ready: seq<Meta>, jobs: seq<Job<V>>, order: seq<nat>, s: Resources<V>)
    requires DistinctIds(ready) && ready != []
    requires Metas(jobs) == SelectBatch(false, ready)
    requires IsPermutation(order, |jobs|)
    ensures PerformAll(jobs, order, s) == PerformAll(jobs, TaskOrderOf(|jobs|), s)
  {
    var batch, inTaskOrder := Metas(jobs), TaskOrderOf(|jobs|);
    BatchIsMaximalConflictFree(ready);
    SubsequenceDistinctIds(batch, ready);
    assert IsPermutation(inTaskOrder, |jobs|) by {
      forall i | 0 <= i < |jobs| ensures i in inTaskOrder { assert inTaskOrder[i] == i; }
    }
    if |jobs| == 1 {
      SingletonOrder(order);
      SingletonOrder(inTaskOrder);
    } else {
      forall i | 0 <= i < |jobs| ensures !RunsAlone(jobs[i].meta) {
        assert batch[i] in batch;
      }
      OrdersAgree(jobs, order, inTaskOrder, s);
    }
  }
}
