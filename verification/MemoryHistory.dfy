/** Governed memory: records with a bounded history of replaced values, and who may overwrite them. */
module MemoryHistory {
  import opened Options
  import opened Text

  const PREVIOUS_VALUE_LIMIT: nat := 8
  const SOURCE_MANUAL := "manual"
  const SOURCE_USER := "user"
  const SOURCE_AGENT := "agent"

  /** What buildMemoryKey yields: never blank, never padded. */
  type Key = s: string | s != "" && Trimmed(s) witness "general.default.value"

  const DEFAULT_KEY: Key := "general.default.value"

  /** `builtKey` is the key derived from the record's coordinates, used when `key` is blank. */
  datatype Record = Record(
    key: string, builtKey: Key, value: string, source: string,
    previousValues: seq<string>, correctionCount: nat)

  // ---------------------------------------------------------------------------
  // Bounded lists of distinct values
  // ---------------------------------------------------------------------------

  function Added(values: seq<string>, v: string): seq<string> {
    if v == "" || v in values then values else values + [v]
  }

  /** The distinct non-blank values, trimmed, in order of first appearance. */
  function Distinct(values: seq<string>): seq<string> {
    if values == [] then [] else Added(Distinct(values[..|values| - 1]), Trim(values[|values| - 1]))
  }

  function Take(values: seq<string>, limit: nat): seq<string> {
    if |values| <= limit then values else values[..limit]
  }

  function Recent(values: seq<string>): seq<string> {
    Take(Distinct(values), PREVIOUS_VALUE_LIMIT)
  }

  method TrimUniqueValues(values: seq<string>, limit: int) returns (out: seq<string>)
    ensures out == if limit <= 0 then [] else Take(Distinct(values), limit)
  {
    out := [];
    if values == [] || limit <= 0 { return; }
    var seen: set<string> := {};
    for i := 0 to |values|
      invariant out == Distinct(values[..i])
      invariant |out| < limit
      invariant forall v :: v in seen <==> v in out
    {
      assert values[..i + 1][..i] == values[..i];
      var value := Trim(values[i]);
      if value != "" && value !in seen {
        seen := seen + {value};
        out := out + [value];
        if |out| >= limit {
          DistinctGrows(values, i + 1);
          assert out == Distinct(values[..i + 1]);
          return;
        }
      }
    }
    assert values[..|values|] == values;
  }

  lemma {:induction false} DistinctGrows(values: seq<string>, n: nat)
    requires n <= |values|
    ensures Distinct(values[..n]) <= Distinct(values)
    decreases |values|
  {
    if n < |values| {
      DistinctGrows(values[..|values| - 1], n);
      assert values[..|values| - 1][..n] == values[..n];
    } else {
      assert values[..n] == values;
    }
  }

  /** Non-blank, trimmed and without repetition. */
  ghost predicate Clean(values: seq<string>) {
    && (forall i :: 0 <= i < |values| ==> values[i] != "" && Trimmed(values[i]))
    && (forall i, j :: 0 <= i < j < |values| ==> values[i] != values[j])
  }

  lemma {:induction false} DistinctIsClean(values: seq<string>)
    ensures Clean(Distinct(values))
  {
    if values != [] {
      DistinctIsClean(values[..|values| - 1]);
      TrimIdempotent(values[|values| - 1]);
    }
  }

  lemma {:induction false} DistinctOfClean(values: seq<string>)
    requires Clean(values)
    ensures Distinct(values) == values
  {
    if values != [] {
      var n := |values| - 1;
      DistinctOfClean(values[..n]);
      assert values == values[..n] + [values[n]];
    }
  }

  lemma RecentIsClean(values: seq<string>)
    ensures Clean(Recent(values)) && Recent(Recent(values)) == Recent(values)
  {
    DistinctIsClean(values);
    DistinctOfClean(Recent(values));
  }

  function Minus(values: seq<string>, v: string): seq<string> {
    if values == [] then []
    else
      var before, last := Minus(values[..|values| - 1], v), values[|values| - 1];
      if last == v then before else before + [last]
  }

  lemma {:induction false} MinusMembers(values: seq<string>, v: string, x: string)
    ensures x in Minus(values, v) <==> x in values && x != v
  {
    if values != [] {
      var n := |values| - 1;
      MinusMembers(values[..n], v, x);
      assert values == values[..n] + [values[n]];
    }
  }

  lemma AddedBehind(v: string, values: seq<string>, x: string)
    requires v != ""
    ensures Added([v] + Minus(values, v), x) == [v] + Minus(Added(values, x), v)
  {
    MinusMembers(values, v, x);
    assert (values + [x])[..|values|] == values;
  }

  /** Putting a value in front moves its earlier appearance there. */
  lemma {:induction false} DistinctCons(v: string, values: seq<string>)
    ensures Distinct([v] + values) ==
            if Trim(v) == "" then Distinct(values) else [Trim(v)] + Minus(Distinct(values), Trim(v))
  {
    if values == [] {
      assert ([v] + values)[..0] == [];
    } else {
      var init, x := values[..|values| - 1], values[|values| - 1];
      DistinctCons(v, init);
      assert ([v] + values)[..|values|] == [v] + init;
      if Trim(v) != "" { AddedBehind(Trim(v), Distinct(init), Trim(x)); }
    }
  }

  lemma {:induction false} MinusGrows(values: seq<string>, v: string, n: nat)
    requires n <= |values|
    ensures Minus(values[..n], v) <= Minus(values, v)
    decreases |values|
  {
    if n < |values| {
      MinusGrows(values[..|values| - 1], v, n);
      assert values[..|values| - 1][..n] == values[..n];
    } else {
      assert values[..n] == values;
    }
  }

  lemma {:induction false} MinusLength(values: seq<string>, v: string)
    requires Clean(values)
    ensures |Minus(values, v)| == if v in values then |values| - 1 else |values|
  {
    if values != [] {
      var init, x := values[..|values| - 1], values[|values| - 1];
      MinusLength(init, v);
      assert values == init + [x];
    }
  }

  lemma MinusOfTake(values: seq<string>, v: string, limit: nat)
    requires Clean(values) && limit > 0
    ensures Take(Minus(Take(values, limit), v), limit - 1) == Take(Minus(values, v), limit - 1)
  {
    if |values| > limit {
      MinusGrows(values, v, limit);
      MinusLength(values[..limit], v);
    }
  }

  lemma TakeCons(v: string, values: seq<string>, limit: nat)
    requires limit > 0
    ensures Take([v] + values, limit) == [v] + Take(values, limit - 1)
  {
  }

  /** Truncating at every step loses nothing that the bounded view of the whole list would show. */
  lemma TruncationIsHarmless(v: string, values: seq<string>)
    ensures Recent([v] + Recent(values)) == Recent([v] + values)
  {
    var all, some := Distinct(values), Recent(values);
    RecentIsClean(values);
    DistinctCons(v, some);
    DistinctCons(v, values);
    if Trim(v) != "" {
      DistinctIsClean(values);
      DistinctOfClean(some);
      MinusOfTake(all, Trim(v), PREVIOUS_VALUE_LIMIT);
      TakeCons(Trim(v), Minus(some, Trim(v)), PREVIOUS_VALUE_LIMIT);
      TakeCons(Trim(v), Minus(all, Trim(v)), PREVIOUS_VALUE_LIMIT);
    }
  }

  // ---------------------------------------------------------------------------
  // Records
  // ---------------------------------------------------------------------------

  function KeyOf(r: Record): (k: Key)
    ensures Trim(r.key) != "" ==> k == Trim(r.key)
  {
    TrimIdempotent(r.key);
    if Trim(r.key) == "" then r.builtKey else Trim(r.key)
  }

  function FirstNonEmpty(a: string, b: string): string {
    if Trim(a) != "" then Trim(a) else Trim(b)
  }

  /** normalizeMemoryRecord. */
  function Normal(r: Record): Record {
    r.(
      key := KeyOf(r),
      value := Trim(r.value),
      source := FirstNonEmpty(r.source, SOURCE_MANUAL),
      previousValues := Recent(r.previousValues))
  }

  lemma NormalIdempotent(r: Record)
    ensures Normal(Normal(r)) == Normal(r)
  {
    TrimIdempotent(r.value);
    TrimIdempotent(r.source);
    RecentIsClean(r.previousValues);
  }

  /** mergeMemoryRecord. */
  function Merge(existing: Record, update: Record): Record {
    var changes := Trim(update.value) != "" && Trim(update.value) != Trim(existing.value);
    var value := if changes then update.value else existing.value;
    Normal(existing.(
      key := FirstNonEmpty(update.key, existing.key),
      value := if value == "" then update.value else value,
      source := FirstNonEmpty(update.source, existing.source),
      previousValues := if changes then Recent([existing.value] + existing.previousValues) else existing.previousValues,
      correctionCount := if update.correctionCount > 0 then update.correctionCount else existing.correctionCount))
  }

  // ---------------------------------------------------------------------------
  // The whole history of one key
  // ---------------------------------------------------------------------------

  /** Every value the key has had, oldest first. */
  function Timeline(writes: seq<Record>): seq<string> {
    if writes == [] then []
    else
      var before, v := Timeline(writes[..|writes| - 1]), Trim(writes[|writes| - 1].value);
      if v == "" || v == Latest(before) then before else before + [v]
  }

  function Reversed(s: seq<string>): seq<string> {
    if s == [] then [] else [s[|s| - 1]] + Reversed(s[..|s| - 1])
  }

  function Latest(s: seq<string>): string {
    if s == [] then "" else s[|s| - 1]
  }

  function Past(timeline: seq<string>): seq<string> {
    Reversed(if timeline == [] then [] else timeline[..|timeline| - 1])
  }

  /** Every replaced value, newest first, and after them what the first write brought along. */
  function Replaced(writes: seq<Record>): seq<string>
    requires writes != []
  {
    Past(Timeline(writes)) + writes[0].previousValues
  }

  /** Upserting the writes in turn: the first is stored, the others are merged into what is stored. */
  function Stored(writes: seq<Record>): Record
    requires writes != []
  {
    if |writes| == 1 then Normal(writes[0])
    else Merge(Stored(writes[..|writes| - 1]), Normal(writes[|writes| - 1]))
  }

  lemma MergeEffect(existing: Record, u: Record)
    requires existing == Normal(existing)
    ensures var r, v := Merge(existing, Normal(u)), Trim(u.value);
            && r.value == (if v == "" then existing.value else v)
            && r.previousValues ==
                 if v == "" || v == existing.value then existing.previousValues
                 else Recent([existing.value] + existing.previousValues)
  {
    TrimIdempotent(u.value);
    RecentIsClean(existing.previousValues);
    RecentIsClean([existing.value] + existing.previousValues);
  }

  lemma {:induction false} StoredIsNormal(writes: seq<Record>)
    requires writes != []
    ensures Stored(writes) == Normal(Stored(writes))
  {
    if |writes| == 1 {
      NormalIdempotent(writes[0]);
    } else {
      var existing, u := Stored(writes[..|writes| - 1]), Normal(writes[|writes| - 1]);
      MergeIsNormal(existing, u);
    }
  }

  lemma MergeIsNormal(existing: Record, update: Record)
    ensures Merge(existing, update) == Normal(Merge(existing, update))
  {
    var changes := Trim(update.value) != "" && Trim(update.value) != Trim(existing.value);
    var value := if changes then update.value else existing.value;
    NormalIdempotent(existing.(
      key := FirstNonEmpty(update.key, existing.key),
      value := if value == "" then update.value else value,
      source := FirstNonEmpty(update.source, existing.source),
      previousValues := if changes then Recent([existing.value] + existing.previousValues) else existing.previousValues,
      correctionCount := if update.correctionCount > 0 then update.correctionCount else existing.correctionCount));
  }

  lemma ReplacedStep(writes: seq<Record>, u: Record)
    requires writes != []
    ensures var v, was := Trim(u.value), Latest(Timeline(writes));
            && Latest(Timeline(writes + [u])) == (if v == "" then was else v)
            && Replaced(writes + [u]) ==
                 if v == "" || v == was || Timeline(writes) == [] then Replaced(writes) else [was] + Replaced(writes)
  {
    var before, v := Timeline(writes), Trim(u.value);
    assert (writes + [u])[..|writes|] == writes;
    if v != "" && v != Latest(before) {
      assert (before + [v])[..|before|] == before;
    }
  }

  /** The bounded record shows exactly the bounded view of the unbounded history. */
  lemma {:induction false} BoundedHistoryRefinesFullHistory(writes: seq<Record>)
    requires writes != []
    ensures Stored(writes).value == Latest(Timeline(writes))
    ensures Stored(writes).previousValues == Recent(Replaced(writes))
  {
    var n := |writes| - 1;
    var init, u := writes[..n], writes[n];
    assert writes == init + [u];
    if n == 0 {
      assert Timeline(init) == [];
      assert Replaced(writes) == writes[0].previousValues;
    } else {
      BoundedHistoryRefinesFullHistory(init);
      HistoryStep(init, u);
    }
  }

  lemma HistoryStep(writes: seq<Record>, u: Record)
    requires writes != [] && Stored(writes).value == Latest(Timeline(writes))
    requires Stored(writes).previousValues == Recent(Replaced(writes))
    ensures Stored(writes + [u]).value == Latest(Timeline(writes + [u]))
    ensures Stored(writes + [u]).previousValues == Recent(Replaced(writes + [u]))
  {
    StoredStep(writes, u);
    MergeEffect(Stored(writes), u);
    ReplacedStep(writes, u);
    TruncationIsHarmless(Latest(Timeline(writes)), Replaced(writes));
    DistinctCons("", Replaced(writes));
  }

  // ---------------------------------------------------------------------------
  // The store
  // ---------------------------------------------------------------------------

  type Store = map<string, Record>

  datatype Op =
    | Upsert(record: Record)
    | AgentUpsert(record: Record)
    | UserCorrect(key: string, value: string)
    | Delete(key: string)

  /** Get, with the stored envelope decoded. */
  function Lookup(store: Store, key: string): Option<Record> {
    if Trim(key) in store then Some(Normal(store[Trim(key)])) else None
  }

  /** UpsertRecord. */
  function Upserted(store: Store, r: Record): Store {
    var n := Normal(r);
    var existing := Lookup(store, n.key);
    var merged := if existing.Some? then Merge(existing.value, n) else n;
    store[merged.key := Normal(merged)]
  }

  predicate Blocked(store: Store, r: Record) {
    var existing := Lookup(store, KeyOf(r));
    existing.Some? && existing.value.source == SOURCE_USER
  }

  function Correction(store: Store, key: string, value: string): Record {
    var existing := Lookup(store, key);
    var record := Record(Trim(key), DEFAULT_KEY, Trim(value), SOURCE_USER, [], 0);
    if existing.Some? && existing.value.value != Trim(value) then
      record.(
        previousValues := existing.value.previousValues + [existing.value.value],
        correctionCount := existing.value.correctionCount + 1)
    else record
  }

  /** The record that an operation upserts, if any. */
  function Write(store: Store, op: Op): Option<Record> {
    match op
    case Upsert(r) => Some(r)
    case AgentUpsert(r) => if Blocked(store, r) then None else Some(r.(source := SOURCE_AGENT))
    case UserCorrect(key, value) => Some(Correction(store, key, value))
    case Delete(_) => None
  }

  function Apply(store: Store, op: Op): Store {
    if op.Delete? then store - {Trim(op.key)}
    else if Write(store, op).Some? then Upserted(store, Write(store, op).value)
    else store
  }

  function Run(ops: seq<Op>): Store {
    if ops == [] then map[] else Apply(Run(ops[..|ops| - 1]), ops[|ops| - 1])
  }

  /** The writes to `k` since it was last deleted. */
  function WritesTo(ops: seq<Op>, k: string): seq<Record> {
    if ops == [] then []
    else
      var init, op := ops[..|ops| - 1], ops[|ops| - 1];
      var w := Write(Run(init), op);
      if op.Delete? then if Trim(op.key) == k then [] else WritesTo(init, k)
      else if w.Some? && KeyOf(w.value) == k then WritesTo(init, k) + [w.value]
      else WritesTo(init, k)
  }

  lemma UpsertEffect(store: Store, r: Record, k: string)
    ensures KeyOf(r) != k ==> (k in store <==> k in Upserted(store, r))
    ensures KeyOf(r) != k && k in store ==> Upserted(store, r)[k] == store[k]
    ensures KeyOf(r) == k ==> k in Upserted(store, r)
    ensures KeyOf(r) == k && k !in store ==> Upserted(store, r)[k] == Normal(r)
    ensures KeyOf(r) == k && k in store && store[k] == Normal(store[k]) ==>
            Upserted(store, r)[k] == Merge(store[k], Normal(r))
  {
    var n := Normal(r);
    NormalIdempotent(r);
    if n.key in store { MergeIsNormal(Normal(store[n.key]), n); }
  }

  /** After any run the store holds, for each key, the fold of the writes to it. */
  lemma {:induction false} RunStoresWrites(ops: seq<Op>, k: string)
    ensures k in Run(ops) <==> WritesTo(ops, k) != []
    ensures k in Run(ops) ==> Run(ops)[k] == Stored(WritesTo(ops, k))
  {
    if ops != [] {
      var init, op := ops[..|ops| - 1], ops[|ops| - 1];
      RunStoresWrites(init, k);
      var w := Write(Run(init), op);
      if w.Some? {
        UpsertEffect(Run(init), w.value, k);
        if KeyOf(w.value) == k { StoredStep(WritesTo(init, k), w.value); }
      }
    }
  }

  lemma StoredStep(writes: seq<Record>, r: Record)
    ensures writes == [] ==> Stored(writes + [r]) == Normal(r)
    ensures writes != [] ==> Stored(writes + [r]) == Merge(Stored(writes), Normal(r))
    ensures writes != [] ==> Stored(writes) == Normal(Stored(writes))
  {
    if writes != [] {
      StoredIsNormal(writes);
      assert (writes + [r])[..|writes|] == writes;
    }
  }

  /** After any run, each key shows its latest value and the last distinct values it replaced. */
  lemma HistoryOfEveryRun(ops: seq<Op>, k: string)
    requires k in Run(ops)
    ensures WritesTo(ops, k) != []
    ensures Run(ops)[k].value == Latest(Timeline(WritesTo(ops, k)))
    ensures Run(ops)[k].previousValues == Recent(Replaced(WritesTo(ops, k)))
  {
    RunStoresWrites(ops, k);
    BoundedHistoryRefinesFullHistory(WritesTo(ops, k));
  }

  /** Reading gives back the fold of everything written to the key since it was last deleted, however the key
      was padded, and nothing exactly if there was no such write. */
  lemma ReadsWhatWasWritten(ops: seq<Op>, key: string)
    ensures var writes := WritesTo(ops, Trim(key));
            Lookup(Run(ops), key) == if writes == [] then None else Some(Stored(writes))
  {
    RunStoresWrites(ops, Trim(key));
    if WritesTo(ops, Trim(key)) != [] { StoredIsNormal(WritesTo(ops, Trim(key))); }
  }

  /** A deleted key is forgotten with its history: the next write to it is stored as if it were the first. */
  lemma DeletionForgets(ops: seq<Op>, key: string, record: Record)
    requires KeyOf(record) == Trim(key)
    ensures Lookup(Run(ops + [Delete(key)]), key) == None
    ensures Lookup(Run(ops + [Delete(key)] + [Upsert(record)]), key) == Some(Normal(record))
    ensures forall k :: k != Trim(key) && k in Run(ops) ==>
              k in Run(ops + [Delete(key)]) && Run(ops + [Delete(key)])[k] == Run(ops)[k]
  {
    var deleted := ops + [Delete(key)];
    var again := deleted + [Upsert(record)];
    assert deleted[..|ops|] == ops && again[..|deleted|] == deleted;
    assert WritesTo(deleted, Trim(key)) == [] && WritesTo(again, Trim(key)) == [record];
    ReadsWhatWasWritten(deleted, key);
    ReadsWhatWasWritten(again, key);
  }

  // ---------------------------------------------------------------------------
  // Ownership
  // ---------------------------------------------------------------------------

  function ApplyAll(store: Store, ops: seq<Op>): Store {
    if ops == [] then store else Apply(ApplyAll(store, ops[..|ops| - 1]), ops[|ops| - 1])
  }

  /** No sequence of agent writes changes or removes a user's memory. */
  lemma {:induction false} AgentsNeverTouchUserMemory(store: Store, ops: seq<Op>, k: string)
    requires forall i :: 0 <= i < |ops| ==> ops[i].AgentUpsert?
    requires k in store && Trimmed(k) && Normal(store[k]).source == SOURCE_USER
    ensures k in ApplyAll(store, ops) && ApplyAll(store, ops)[k] == store[k]
  {
    if ops != [] {
      var init, op := ops[..|ops| - 1], ops[|ops| - 1];
      AgentsNeverTouchUserMemory(store, init, k);
      var w := Write(ApplyAll(store, init), op);
      if w.Some? {
        assert KeyOf(w.value) == KeyOf(op.record);
        UpsertEffect(ApplyAll(store, init), w.value, k);
      }
    }
  }

  /** What a user corrects stays corrected, whatever agents write afterwards. */
  lemma CorrectionSticks(before: seq<Op>, key: string, value: string, after: seq<Op>)
    requires Trim(key) != "" && Trim(value) != ""
    requires forall i :: 0 <= i < |after| ==> after[i].AgentUpsert?
    ensures var store := ApplyAll(Apply(Run(before), UserCorrect(key, value)), after);
            Trim(key) in store && store[Trim(key)].value == Trim(value) && store[Trim(key)].source == SOURCE_USER
  {
    var k, ops := Trim(key), before + [UserCorrect(key, value)];
    TrimIdempotent(key);
    TrimIdempotent(value);
    assert ops[..|before|] == before;
    var r := Correction(Run(before), key, value);
    RunStoresWrites(before, k);
    UpsertEffect(Run(before), r, k);
    if k in Run(before) { StoredIsNormal(WritesTo(before, k)); }
    SourceOfMerge(Run(before), r);
    AgentsNeverTouchUserMemory(Run(ops), after, k);
  }

  lemma SourceOfMerge(store: Store, r: Record)
    requires r.source == SOURCE_USER && Trim(r.value) != ""
    ensures KeyOf(r) in Upserted(store, r)
    ensures var u := Upserted(store, r)[KeyOf(r)]; u.value == Trim(r.value) && u.source == SOURCE_USER && Normal(u) == u
  {
    NormalIdempotent(r);
    TrimIdempotent(r.value);
    var n := Normal(r);
    if n.key in store { MergeIsNormal(Normal(store[n.key]), n); }
  }

  lemma {:induction false} RunIsNormal(ops: seq<Op>, k: string)
    requires k in Run(ops)
    ensures Run(ops)[k] == Normal(Run(ops)[k])
  {
    RunStoresWrites(ops, k);
    StoredIsNormal(WritesTo(ops, k));
  }

  /** After any run an agent's write is refused exactly if the key is a user's, and then changes nothing.
      Otherwise the key is the agent's, holds what the agent said, if that is not blank, and no other key changes. */
  lemma AgentWriteIff(ops: seq<Op>, r: Record)
    ensures
      var before, after, k := Run(ops), Apply(Run(ops), AgentUpsert(r)), KeyOf(r);
      if k in before && before[k].source == "user" then
        after == before
      else
        && k in after && after[k].source == "agent"
        && (Trim(r.value) != "" ==> after[k].value == Trim(r.value))
        && forall other :: other != k ==>
             (other in after <==> other in before) && (other in before ==> after[other] == before[other])
  {
    var before, k := Run(ops), KeyOf(r);
    var w := r.(source := SOURCE_AGENT);
    TrimIdempotent(r.key);
    TrimIdempotent(r.value);
    if k in before { RunIsNormal(ops, k); }
    assert KeyOf(w) == k;
    OthersStay(before, w);
    UpsertEffect(before, w, k);
  }

  lemma OthersStay(store: Store, r: Record)
    ensures forall other :: other != KeyOf(r) ==>
              (other in Upserted(store, r) <==> other in store)
              && (other in store ==> Upserted(store, r)[other] == store[other])
  {
    forall other | other != KeyOf(r)
      ensures other in Upserted(store, r) <==> other in store
      ensures other in store ==> Upserted(store, r)[other] == store[other]
    {
      UpsertEffect(store, r, other);
    }
  }

  /** A write that names no source is a manual one, and takes the key over even from a user. */
  lemma SourceOfUpsert(ops: seq<Op>, r: Record)
    ensures
      var after := Apply(Run(ops), Upsert(r));
      KeyOf(r) in after && after[KeyOf(r)].source == if Trim(r.source) == "" then "manual" else Trim(r.source)
  {
    var k := KeyOf(r);
    TrimIdempotent(r.source);
    if k in Run(ops) { RunIsNormal(ops, k); }
    UpsertEffect(Run(ops), r, k);
  }

  /** One write and the count of corrections. */
  lemma CountAfterWrite(ops: seq<Op>, r: Record)
    ensures
      var before, k := Run(ops), KeyOf(r);
      && k in Upserted(before, r)
      && Upserted(before, r)[k].correctionCount ==
           if k in before && r.correctionCount == 0 then before[k].correctionCount else r.correctionCount
  {
    UpsertEffect(Run(ops), r, KeyOf(r));
    if KeyOf(r) in Run(ops) { RunIsNormal(ops, KeyOf(r)); }
  }

  /** How often a user corrected `k` to something else than it said, since it was last deleted. */
  ghost function Corrections(ops: seq<Op>, k: string): nat {
    if ops == [] then 0
    else
      var init, op := ops[..|ops| - 1], ops[|ops| - 1];
      if op.Delete? && Trim(op.key) == k then 0
      else if op.UserCorrect? && Trim(op.key) == k && k in Run(init) && Run(init)[k].value != Trim(op.value)
      then Corrections(init, k) + 1
      else Corrections(init, k)
  }

  /** Over any run whose writes do not set the count themselves, it counts the corrections. */
  lemma {:induction false} CountsCorrections(ops: seq<Op>, k: string)
    requires forall i :: 0 <= i < |ops| && (ops[i].Upsert? || ops[i].AgentUpsert?) ==>
               ops[i].record.correctionCount == 0
    ensures k in Run(ops) ==> Run(ops)[k].correctionCount == Corrections(ops, k)
    ensures k !in Run(ops) ==> Corrections(ops, k) == 0
  {
    if ops != [] {
      var init, op := ops[..|ops| - 1], ops[|ops| - 1];
      CountsCorrections(init, k);
      match op {
        case Upsert(r) => CountStays(init, r, k);
        case AgentUpsert(r) => if !Blocked(Run(init), r) { CountStays(init, r.(source := SOURCE_AGENT), k); }
        case UserCorrect(key, value) => CountAfterCorrection(init, key, value, k);
        case Delete(key) =>
      }
    }
  }

  lemma CountStays(ops: seq<Op>, r: Record, k: string)
    requires r.correctionCount == 0
    ensures k in Run(ops) ==> k in Upserted(Run(ops), r)
    ensures k in Upserted(Run(ops), r) ==>
              Upserted(Run(ops), r)[k].correctionCount == if k in Run(ops) then Run(ops)[k].correctionCount else 0
  {
    CountAfterWrite(ops, r);
    UpsertEffect(Run(ops), r, k);
  }

  lemma CountAfterCorrection(ops: seq<Op>, key: string, value: string, k: string)
    ensures
      var before, after := Run(ops), Apply(Run(ops), UserCorrect(key, value));
      && (k in before ==>
            && k in after
            && after[k].correctionCount ==
                 before[k].correctionCount + if Trim(key) == k && before[k].value != Trim(value) then 1 else 0)
      && (k !in before && k in after ==> after[k].correctionCount == 0)
  {
    var r := Correction(Run(ops), key, value);
    CorrectionOf(ops, key, value);
    if r.correctionCount == 0 {
      CountStays(ops, r, k);
    } else {
      CountAfterWrite(ops, r);
      UpsertEffect(Run(ops), r, k);
    }
  }

  lemma CorrectionOf(ops: seq<Op>, key: string, value: string)
    ensures
      var before, r, k := Run(ops), Correction(Run(ops), key, value), Trim(key);
      && (k != "" ==> KeyOf(r) == k) && (k in before ==> k != "")
      && r.correctionCount == if k in before && before[k].value != Trim(value) then before[k].correctionCount + 1 else 0
  {
    TrimIdempotent(key);
    NoBlankKey(ops);
    if Trim(key) in Run(ops) { RunIsNormal(ops, Trim(key)); }
  }

  lemma {:induction false} NoBlankKey(ops: seq<Op>)
    ensures "" !in Run(ops)
  {
    if ops != [] {
      var init, op := ops[..|ops| - 1], ops[|ops| - 1];
      NoBlankKey(init);
      var w := Write(Run(init), op);
      if w.Some? { UpsertEffect(Run(init), w.value, ""); }
    }
  }

  // ---------------------------------------------------------------------------
  // The store object
  // ---------------------------------------------------------------------------

  method NormalizeMemoryRecord(record: Record) returns (out: Record)
    ensures out == Normal(record)
  {
    out := record.(key := Trim(record.key), value := Trim(record.value), source := Trim(record.source));
    if out.key == "" { out := out.(key := record.builtKey); }
    if out.source == "" { out := out.(source := SOURCE_MANUAL); }
    var values := TrimUniqueValues(out.previousValues, PREVIOUS_VALUE_LIMIT);
    out := out.(previousValues := values);
  }

  method MergeMemoryRecord(existing: Record, update: Record) returns (out: Record)
    ensures out == Merge(existing, update)
  {
    out := existing;
    if Trim(update.value) != "" && Trim(update.value) != Trim(existing.value) {
      var values := TrimUniqueValues([existing.value] + existing.previousValues, PREVIOUS_VALUE_LIMIT);
      out := out.(previousValues := values, value := update.value);
    }
    if out.value == "" { out := out.(value := update.value); }
    out := out.(source := FirstNonEmpty(update.source, existing.source));
    if update.correctionCount > 0 { out := out.(correctionCount := update.correctionCount); }
    out := out.(key := FirstNonEmpty(update.key, existing.key));
    out := NormalizeMemoryRecord(out);
  }

  class GovernedMemoryStore {
    var inner: Store

    constructor ()
      ensures inner == map[]
    {
      inner := map[];
    }

    method Get(key: string) returns (found: Option<Record>)
      ensures found == Lookup(inner, key)
    {
      if Trim(key) in inner {
        var record := NormalizeMemoryRecord(inner[Trim(key)]);
        return Some(record);
      }
      return None;
    }

    method UpsertRecord(record: Record)
      modifies this
      ensures inner == Apply(old(inner), Upsert(record))
    {
      var normalized := NormalizeMemoryRecord(record);
      TrimIdempotent(record.key);
      var existing := Get(normalized.key);
      if existing.Some? { normalized := MergeMemoryRecord(existing.value, normalized); }
      var encoded := NormalizeMemoryRecord(normalized);
      inner := inner[normalized.key := encoded];
    }

    method AgentUpsertRecord(record: Record) returns (applied: bool)
      modifies this
      ensures inner == Apply(old(inner), AgentUpsert(record))
      ensures applied <==> !Blocked(old(inner), record)
    {
      var normalized := NormalizeMemoryRecord(record.(source := SOURCE_AGENT));
      NormalIdempotent(record.(source := SOURCE_AGENT));
      var existing := Get(normalized.key);
      if existing.Some? && existing.value.source == SOURCE_USER { return false; }
      UpsertRecord(normalized);
      return true;
    }

    method Correct(key: string, newValue: string)
      modifies this
      ensures inner == Apply(old(inner), UserCorrect(key, newValue))
    {
      var record := Corrected(key, newValue);
      UpsertRecord(record);
    }

    method Corrected(key: string, newValue: string) returns (record: Record)
      ensures record == Correction(inner, key, newValue)
    {
      var existing := Get(key);
      record := Record(Trim(key), DEFAULT_KEY, Trim(newValue), SOURCE_USER, [], 0);
      if existing.Some? {
        TrimIdempotent(inner[Trim(key)].value);
        if Trim(existing.value.value) != Trim(newValue) {
          record := record.(
            previousValues := existing.value.previousValues + [existing.value.value],
            correctionCount := existing.value.correctionCount + 1);
        }
      }
    }

    method Remove(key: string)
      modifies this
      ensures inner == Apply(old(inner), Delete(key))
    {
      inner := inner - {Trim(key)};
    }
  }
}
