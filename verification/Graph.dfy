/** The execution graph: what the scheduler remembers about each plan task. It is rebuilt from the plan
    before every use and must carry its memory over. */
module Graph {
  import opened Options
  import opened Text
  import opened Sorting
  import opened Batch
  import P = Plan

  datatype Outcome = Outcome(status: P.Status, summary: string, error: string)

  datatype ExecTask = ExecTask(
    meta: Meta, idempotencyKey: string, status: P.Status, attemptCount: nat, lastOutcome: Option<Outcome>)

  // ---------------------------------------------------------------------------
  // Metadata derived from a plan task
  // ---------------------------------------------------------------------------

  /** normalizeExecutionStrings: trimmed, non-blank, without repetition, sorted. */
  function NormalStrings(values: seq<string>): seq<string> {
    if values == [] then []
    else
      var rest, v := NormalStrings(values[..|values| - 1]), Trim(values[|values| - 1]);
      if v == "" || v in rest then rest else Insert(Less, v, rest)
  }

  ghost predicate IsNormal(s: seq<string>) {
    Sorted(Less, s) && forall x :: x in s ==> x != "" && Trimmed(x)
  }

  lemma {:induction false} InsertSorted(s: seq<string>, x: string)
    requires Sorted(Less, s) && x !in s
    ensures Sorted(Less, Insert(Less, x, s))
    ensures forall y :: y in Insert(Less, x, s) <==> y == x || y in s
  {
    if s != [] {
      LessTotal(x, s[0]);
      if Less(x, s[0]) {
        forall j | 0 < j < |s| ensures Less(x, s[j]) { LessTransitive(x, s[0], s[j]); }
      } else {
        InsertSorted(s[1..], x);
        assert s == [s[0]] + s[1..];
        forall y | y in Insert(Less, x, s[1..]) ensures Less(s[0], y) { }
      }
    }
  }

  lemma {:induction false} NormalStringsAreNormal(values: seq<string>)
    ensures IsNormal(NormalStrings(values))
  {
    if values != [] {
      var rest, v := NormalStrings(values[..|values| - 1]), Trim(values[|values| - 1]);
      NormalStringsAreNormal(values[..|values| - 1]);
      if v != "" && v !in rest {
        InsertSorted(rest, v);
        TrimIdempotent(values[|values| - 1]);
      }
    }
  }

  lemma {:induction false} NormalStringsMembers(values: seq<string>, k: string)
    ensures k in NormalStrings(values) <==> k != "" && exists i :: 0 <= i < |values| && Trim(values[i]) == k
  {
    if values != [] {
      var n := |values| - 1;
      var rest, v := NormalStrings(values[..n]), Trim(values[n]);
      NormalStringsMembers(values[..n], k);
      assert forall i :: 0 <= i < n ==> values[..n][i] == values[i];
      if v != "" && v !in rest {
        NormalStringsAreNormal(values[..n]);
        InsertSorted(rest, v);
      }
    }
  }

  lemma {:induction false} InsertAtEnd(s: seq<string>, x: string)
    requires forall i :: 0 <= i < |s| ==> Less(s[i], x)
    ensures Insert(Less, x, s) == s + [x]
  {
    if s != [] {
      LessTotal(s[0], x);
      InsertAtEnd(s[1..], x);
      assert s == [s[0]] + s[1..];
    }
  }

  lemma {:induction false} NormalStringsIdempotent(s: seq<string>)
    requires IsNormal(s)
    ensures NormalStrings(s) == s
  {
    if s != [] {
      var init, x := s[..|s| - 1], s[|s| - 1];
      assert s == init + [x] && x in s;
      assert IsNormal(init) by { assert forall y :: y in init ==> y in s; }
      NormalStringsIdempotent(init);
      forall i | 0 <= i < |init| ensures init[i] != x { LessTotal(s[i], x); }
      InsertAtEnd(init, x);
    }
  }

  function OutputKeys(outputs: seq<string>): seq<string> {
    if outputs == [] then []
    else
      var rest, v := OutputKeys(outputs[..|outputs| - 1]), Trim(outputs[|outputs| - 1]);
      if v == "" then rest else rest + ["output:" + v]
  }

  lemma {:induction false} OutputKeysMembers(outputs: seq<string>, k: string)
    ensures k in OutputKeys(outputs) <==>
            exists i :: 0 <= i < |outputs| && Trim(outputs[i]) != "" && k == "output:" + Trim(outputs[i])
  {
    if outputs != [] {
      var n := |outputs| - 1;
      OutputKeysMembers(outputs[..n], k);
      assert forall i :: 0 <= i < n ==> outputs[..n][i] == outputs[i];
    }
  }

  predicate OnlyReads(kind: P.Kind) {
    kind.Research? || kind.Review? || kind.Translate?
  }

  function ResourceKeysOf(t: P.Task): seq<string> {
    var keys := OutputKeys(t.outputs);
    NormalStrings(if keys == [] && !OnlyReads(t.kind) then ["session:mutable_state"] else keys)
  }

  function ScopeOf(kind: P.Kind): Scope {
    if OnlyReads(kind) then ReadOnly
    else if kind.Transform? || kind.Write? || kind.Execute? then Workspace
    else SessionAll
  }

  function MergeOf(kind: P.Kind): Merge {
    if kind.Deliver? then SerialOnly else TaskOrder
  }

  /** executionTaskFromPlanTask; `digest` stands for the hash that makes the idempotency key. */
  function Derive(digest: (string, P.Kind, string) -> string, t: P.Task): ExecTask {
    ExecTask(Meta(Trim(t.id), ResourceKeysOf(t), ScopeOf(t.kind), MergeOf(t.kind)),
             Trim(digest(Trim(t.id), t.kind, Trim(t.goal))),
             if t.status.Unset? then P.Queued else t.status, 0, None)
  }

  // ---------------------------------------------------------------------------
  // Rebuilding
  // ---------------------------------------------------------------------------

  function NormalTask(t: ExecTask): ExecTask {
    t.(
      meta := t.meta.(id := Trim(t.meta.id), resourceKeys := NormalStrings(t.meta.resourceKeys)),
      idempotencyKey := Trim(t.idempotencyKey),
      status := if t.status.Unset? then P.Queued else t.status)
  }

  function ByID(graph: seq<ExecTask>): map<string, ExecTask> {
    if graph == [] then map[]
    else
      var rest, t := ByID(graph[..|graph| - 1]), graph[|graph| - 1];
      if Trim(t.meta.id) == "" then rest else rest[Trim(t.meta.id) := NormalTask(t)]
  }

  /** The derived task with the memory of its predecessor. */
  function Carry(task: ExecTask, previous: ExecTask): ExecTask {
    var keys, key := previous.meta.resourceKeys, previous.idempotencyKey;
    task.(
      attemptCount := previous.attemptCount,
      lastOutcome := previous.lastOutcome,
      meta := task.meta.(
        resourceKeys := if keys != [] then keys else task.meta.resourceKeys,
        scope := previous.meta.scope,
        merge := previous.meta.merge),
      idempotencyKey := if key != "" then key else task.idempotencyKey)
  }

  function RebuiltTask(digest: (string, P.Kind, string) -> string, t: P.Task,
                       existing: map<string, ExecTask>): ExecTask
  {
    var task := Derive(digest, t);
    if task.meta.id in existing then Carry(task, existing[task.meta.id]) else task
  }

  /** buildExecutionGraph on an already normalized plan. */
  function Rebuild(digest: (string, P.Kind, string) -> string, tasks: seq<P.Task>,
                   graph: seq<ExecTask>): seq<ExecTask>
  {
    var existing := ByID(graph);
    seq(|tasks|, i requires 0 <= i < |tasks| => RebuiltTask(digest, tasks[i], existing))
  }

  ghost predicate GoodGraph(graph: seq<ExecTask>) {
    && (forall i :: 0 <= i < |graph| ==> NormalTask(graph[i]) == graph[i] && graph[i].meta.id != "")
    && (forall i, j :: 0 <= i < j < |graph| ==> graph[i].meta.id != graph[j].meta.id)
  }

  ghost predicate GoodKeys(graph: seq<ExecTask>) {
    && (forall i :: 0 <= i < |graph| ==> Trimmed(graph[i].meta.id) && graph[i].meta.id != "")
    && (forall i, j :: 0 <= i < j < |graph| ==> graph[i].meta.id != graph[j].meta.id)
  }

  lemma {:induction false} ByIDFinds(graph: seq<ExecTask>, i: nat)
    requires GoodKeys(graph) && i < |graph|
    ensures graph[i].meta.id in ByID(graph) && ByID(graph)[graph[i].meta.id] == NormalTask(graph[i])
  {
    if i < |graph| - 1 {
      ByIDFinds(graph[..|graph| - 1], i);
      assert graph[i].meta.id != graph[|graph| - 1].meta.id;
    }
  }

  lemma NormalTaskIdempotent(t: ExecTask)
    ensures NormalTask(NormalTask(t)) == NormalTask(t)
  {
    TrimIdempotent(t.meta.id);
    TrimIdempotent(t.idempotencyKey);
    NormalStringsAreNormal(t.meta.resourceKeys);
    NormalStringsIdempotent(NormalStrings(t.meta.resourceKeys));
  }

  lemma DerivedIsNormal(digest: (string, P.Kind, string) -> string, t: P.Task)
    ensures NormalTask(Derive(digest, t)) == Derive(digest, t)
  {
    TrimIdempotent(t.id);
    TrimIdempotent(digest(Trim(t.id), t.kind, Trim(t.goal)));
    var keys := OutputKeys(t.outputs);
    var chosen := if keys == [] && !OnlyReads(t.kind) then ["session:mutable_state"] else keys;
    NormalStringsAreNormal(chosen);
    NormalStringsIdempotent(NormalStrings(chosen));
  }

  lemma {:induction false} ByIDIsNormal(graph: seq<ExecTask>, id: string)
    requires id in ByID(graph)
    ensures NormalTask(ByID(graph)[id]) == ByID(graph)[id] && ByID(graph)[id].meta.id == id
  {
    var init, t := graph[..|graph| - 1], graph[|graph| - 1];
    if Trim(t.meta.id) == id && id != "" {
      NormalTaskIdempotent(t);
    } else {
      ByIDIsNormal(init, id);
    }
  }

  lemma RebuiltIsGood(digest: (string, P.Kind, string) -> string, tasks: seq<P.Task>, graph: seq<ExecTask>)
    requires P.GoodIds(tasks)
    ensures GoodGraph(Rebuild(digest, tasks, graph))
  {
    var g := Rebuild(digest, tasks, graph);
    forall i | 0 <= i < |g| ensures NormalTask(g[i]) == g[i] && g[i].meta.id == tasks[i].id {
      DerivedIsNormal(digest, tasks[i]);
      if tasks[i].id in ByID(graph) { ByIDIsNormal(graph, tasks[i].id); }
    }
  }

  /** Rebuilding is idempotent: whatever graph was there before, a second rebuild changes nothing. */
  lemma RebuildIdempotent(digest: (string, P.Kind, string) -> string, tasks: seq<P.Task>, graph: seq<ExecTask>)
    requires P.GoodIds(tasks)
    ensures Rebuild(digest, tasks, Rebuild(digest, tasks, graph)) == Rebuild(digest, tasks, graph)
  {
    var g := Rebuild(digest, tasks, graph);
    RebuiltIsGood(digest, tasks, graph);
    forall i | 0 <= i < |g| ensures Rebuild(digest, tasks, g)[i] == g[i] {
      assert g[i].meta.id == tasks[i].id && NormalTask(g[i]) == g[i];
      assert GoodKeys(g) by {
        forall k | 0 <= k < |g| ensures Trimmed(g[k].meta.id) { assert NormalTask(g[k]) == g[k]; }
      }
      ByIDFinds(g, i);
    }
  }
}
