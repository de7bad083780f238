/** Clarification before a run starts: the preflight report that may hold it, and the cap on rounds of questions. */
module Clarification {
  import opened Options
  import opened Text

  // ---------------------------------------------------------------------------
  // Preflight reports
  // ---------------------------------------------------------------------------

  const REFERENCE_GAP := "reference_gap"
  const SOURCE_TARGET := "source_target"
  const DELIVERY_TARGET := "delivery_target"
  const SCHEDULE := "schedule"
  const DEPLOYMENT_TARGET := "deployment_target"

  datatype PreflightState = Ready | AutoPreparing | NeedsConfirmation

  datatype Check = Check(id: string, state: PreflightState, detail: string, blocking: bool)

  datatype MissingInfo = MissingInfo(id: string, summary: string, required: bool)

  datatype Report = Report(blocking: bool, state: PreflightState, checks: seq<Check>, slots: seq<string>)

  /** What the language analysis found; each detail is empty when it found nothing. */
  datatype Analysis = Analysis(
    referenceGap: string, autoPreparation: string, expectedConfirmation: string,
    sourceTargetDetail: string, expectedOutput: string, verificationPlan: string)

  function Note(id: string, state: PreflightState, detail: string, blocking: bool): seq<Check> {
    if detail == "" then [] else [Check(id, state, detail, blocking)]
  }

  predicate BlocksExecution(id: string) {
    Trim(id) != SOURCE_TARGET && Trim(id) != SCHEDULE
  }

  predicate HasCheck(checks: seq<Check>, id: string) {
    exists i :: 0 <= i < |checks| && Trim(checks[i].id) == Trim(id)
  }

  function MissingCheck(a: Analysis, earlier: seq<Check>, item: MissingInfo): seq<Check> {
    if item.id == SOURCE_TARGET && HasCheck(earlier, REFERENCE_GAP) then []
    else if item.id !in {SOURCE_TARGET, DELIVERY_TARGET, SCHEDULE, DEPLOYMENT_TARGET} then []
    else
      var summary := Trim(item.summary);
      var detail := if summary == "" && item.id == SOURCE_TARGET then a.sourceTargetDetail else summary;
      Note(item.id, NeedsConfirmation, detail, item.required && BlocksExecution(item.id))
  }

  /** buildContractMissingInfoChecks. */
  function MissingChecks(a: Analysis, earlier: seq<Check>, items: seq<MissingInfo>): seq<Check> {
    if items == [] then []
    else MissingChecks(a, earlier, items[..|items| - 1]) + MissingCheck(a, earlier, items[|items| - 1])
  }

  function Opening(a: Analysis): seq<Check> {
    Note(REFERENCE_GAP, NeedsConfirmation, a.referenceGap, true)
    + Note("auto_prepare", AutoPreparing, a.autoPreparation, false)
    + Note("expected_confirmation", NeedsConfirmation, a.expectedConfirmation, false)
  }

  function AllChecks(a: Analysis, items: seq<MissingInfo>): seq<Check> {
    Opening(a) + MissingChecks(a, Opening(a), items)
    + Note("expected_output", Ready, a.expectedOutput, false)
    + Note("verification_plan", Ready, a.verificationPlan, false)
  }

  function FoldState(checks: seq<Check>): PreflightState {
    if checks == [] then Ready
    else
      var before, check := FoldState(checks[..|checks| - 1]), checks[|checks| - 1];
      if check.state.NeedsConfirmation? then NeedsConfirmation
      else if check.state.AutoPreparing? && before.Ready? then AutoPreparing
      else before
  }

  function AddSlot(slots: seq<string>, id: string): seq<string> {
    if Trim(id) == "" || Trim(id) in slots then slots else slots + [Trim(id)]
  }

  function ItemSlots(items: seq<MissingInfo>): seq<string> {
    if items == [] then [] else AddSlot(ItemSlots(items[..|items| - 1]), items[|items| - 1].id)
  }

  function CheckSlots(checks: seq<Check>): seq<string> {
    if checks == [] then []
    else
      var before, id := CheckSlots(checks[..|checks| - 1]), checks[|checks| - 1].id;
      if id == REFERENCE_GAP || id == SOURCE_TARGET then AddSlot(before, SOURCE_TARGET)
      else if id in {DELIVERY_TARGET, SCHEDULE, DEPLOYMENT_TARGET} then AddSlot(before, id)
      else before
  }

  function Slots(state: PreflightState, checks: seq<Check>, items: seq<MissingInfo>): seq<string> {
    if !state.NeedsConfirmation? then []
    else if ItemSlots(items) != [] then ItemSlots(items) else CheckSlots(checks)
  }

  ghost predicate AnyBlocking(checks: seq<Check>) {
    exists i :: 0 <= i < |checks| && checks[i].blocking
  }

  /** buildRunPreflightWithContract; `items` is the contract's missing information. */
  ghost function Built(a: Analysis, items: seq<MissingInfo>): Report {
    var checks := AllChecks(a, items);
    Report(AnyBlocking(checks), FoldState(checks), checks, Slots(FoldState(checks), checks, items))
  }

  predicate IsClarification(id: string) {
    Trim(id) in {REFERENCE_GAP, SOURCE_TARGET, DELIVERY_TARGET, SCHEDULE, DEPLOYMENT_TARGET}
  }

  /** preflightNeedsClarification: everything that blocks is a question the user can answer. */
  ghost predicate NeedsClarification(r: Report) {
    && r.blocking
    && (forall i :: 0 <= i < |r.checks| && r.checks[i].blocking ==> IsClarification(r.checks[i].id))
    && (r.slots != [] || AnyBlocking(r.checks))
  }

  function Relaxed(r: Report): Report {
    Report(false, AutoPreparing,
           seq(|r.checks|, i requires 0 <= i < |r.checks| =>
             if r.checks[i].blocking && IsClarification(r.checks[i].id)
             then r.checks[i].(blocking := false, state := AutoPreparing) else r.checks[i])
           + [Check("clarification_limit_reached", AutoPreparing, "limit", false)],
           [])
  }

  ghost predicate OnlyClarificationsBlock(checks: seq<Check>) {
    forall i :: 0 <= i < |checks| && checks[i].blocking ==> IsClarification(checks[i].id)
  }

  lemma ClarificationIds()
    ensures IsClarification(REFERENCE_GAP) && IsClarification(SOURCE_TARGET) && IsClarification(DELIVERY_TARGET)
    ensures IsClarification(SCHEDULE) && IsClarification(DEPLOYMENT_TARGET)
  {
    assert Trim(REFERENCE_GAP) == REFERENCE_GAP;
    assert Trim(SOURCE_TARGET) == SOURCE_TARGET;
    assert Trim(DELIVERY_TARGET) == DELIVERY_TARGET;
    assert Trim(SCHEDULE) == SCHEDULE;
    assert Trim(DEPLOYMENT_TARGET) == DEPLOYMENT_TARGET;
  }

  lemma {:induction false} MissingChecksAreQuestions(a: Analysis, earlier: seq<Check>, items: seq<MissingInfo>)
    ensures OnlyClarificationsBlock(MissingChecks(a, earlier, items))
  {
    if items != [] {
      MissingChecksAreQuestions(a, earlier, items[..|items| - 1]);
      ClarificationIds();
    }
  }

  lemma QuestionsJoin(a: seq<Check>, b: seq<Check>)
    requires OnlyClarificationsBlock(a) && OnlyClarificationsBlock(b)
    ensures OnlyClarificationsBlock(a + b)
  {
  }

  lemma OpeningAsksOnly(a: Analysis)
    ensures OnlyClarificationsBlock(Opening(a))
  {
    ClarificationIds();
    var gap := Note(REFERENCE_GAP, NeedsConfirmation, a.referenceGap, true);
    var auto := Note("auto_prepare", AutoPreparing, a.autoPreparation, false);
    var confirm := Note("expected_confirmation", NeedsConfirmation, a.expectedConfirmation, false);
    QuestionsJoin(gap, auto);
    QuestionsJoin(gap + auto, confirm);
  }

  /** Every blocking report the builder makes is recognised as clarification. */
  lemma BlockingReportsNeedClarification(a: Analysis, items: seq<MissingInfo>)
    ensures NeedsClarification(Built(a, items)) <==> Built(a, items).blocking
  {
    var missing := MissingChecks(a, Opening(a), items);
    var output := Note("expected_output", Ready, a.expectedOutput, false);
    var plan := Note("verification_plan", Ready, a.verificationPlan, false);
    MissingChecksAreQuestions(a, Opening(a), items);
    OpeningAsksOnly(a);
    QuestionsJoin(Opening(a), missing);
    QuestionsJoin(Opening(a) + missing, output);
    QuestionsJoin(Opening(a) + missing + output, plan);
  }

  /** The two kinds of missing information that hold a run when they are required and described. */
  predicate Holds(item: MissingInfo) {
    item.required && Trim(item.summary) != "" && (item.id == DELIVERY_TARGET || item.id == DEPLOYMENT_TARGET)
  }

  lemma MissingCheckBlocksIff(a: Analysis, earlier: seq<Check>, item: MissingInfo)
    ensures AnyBlocking(MissingCheck(a, earlier, item)) <==> Holds(item)
  {
    ClarificationIds();
    assert Trim(SOURCE_TARGET) == SOURCE_TARGET && Trim(SCHEDULE) == SCHEDULE;
    if Holds(item) { assert MissingCheck(a, earlier, item)[0].blocking; }
  }

  lemma BlockingJoin(a: seq<Check>, b: seq<Check>)
    ensures AnyBlocking(a + b) <==> AnyBlocking(a) || AnyBlocking(b)
  {
    if i :| 0 <= i < |a| && a[i].blocking { assert (a + b)[i].blocking; }
    if i :| 0 <= i < |b| && b[i].blocking { assert (a + b)[|a| + i].blocking; }
  }

  ghost predicate AnyHolds(items: seq<MissingInfo>) {
    exists i :: 0 <= i < |items| && Holds(items[i])
  }

  lemma HoldsSnoc(items: seq<MissingInfo>, item: MissingInfo)
    ensures AnyHolds(items + [item]) <==> AnyHolds(items) || Holds(item)
  {
    var all := items + [item];
    if i :| 0 <= i < |items| && Holds(items[i]) { assert Holds(all[i]); }
    if Holds(item) { assert Holds(all[|items|]); }
  }

  lemma {:induction false} MissingChecksBlockIff(a: Analysis, earlier: seq<Check>, items: seq<MissingInfo>)
    ensures AnyBlocking(MissingChecks(a, earlier, items)) <==> AnyHolds(items)
  {
    if items != [] {
      var init, item := items[..|items| - 1], items[|items| - 1];
      MissingChecksBlockIff(a, earlier, init);
      MissingCheckBlocksIff(a, earlier, item);
      BlockingJoin(MissingChecks(a, earlier, init), MissingCheck(a, earlier, item));
      HoldsSnoc(init, item);
      assert items == init + [item];
    }
  }

  /** A report blocks exactly when a reference is missing, or where to deliver or deploy is. */
  lemma BuiltBlocksIff(a: Analysis, items: seq<MissingInfo>)
    ensures Built(a, items).blocking <==> a.referenceGap != "" || AnyHolds(items)
  {
    var missing := MissingChecks(a, Opening(a), items);
    var output := Note("expected_output", Ready, a.expectedOutput, false);
    var plan := Note("verification_plan", Ready, a.verificationPlan, false);
    MissingChecksBlockIff(a, Opening(a), items);
    assert AnyBlocking(Opening(a)) <==> a.referenceGap != "" by {
      if a.referenceGap != "" { assert Opening(a)[0].blocking; }
    }
    BlockingJoin(Opening(a), missing);
    BlockingJoin(Opening(a) + missing, output);
    BlockingJoin(Opening(a) + missing + output, plan);
  }

  /** Relaxing a recognised report leaves nothing that blocks, and no other check changes. */
  lemma RelaxedReleases(r: Report)
    requires NeedsClarification(r)
    ensures !Relaxed(r).blocking && !AnyBlocking(Relaxed(r).checks)
    ensures Relaxed(r).state == AutoPreparing && Relaxed(r).slots == [] && |Relaxed(r).checks| == |r.checks| + 1
    ensures forall i :: 0 <= i < |r.checks| && !r.checks[i].blocking ==> Relaxed(r).checks[i] == r.checks[i]
    ensures forall i :: 0 <= i < |r.checks| && r.checks[i].blocking ==>
              Relaxed(r).checks[i] == Check(r.checks[i].id, AutoPreparing, r.checks[i].detail, false)
  {
  }

  ghost predicate AnyIn(checks: seq<Check>, state: PreflightState) {
    exists i :: 0 <= i < |checks| && checks[i].state == state
  }

  /** A report needs confirmation as soon as one check does, and prepares itself if one check does and none
      needs confirmation. */
  lemma {:induction false} FoldStateIff(checks: seq<Check>)
    ensures FoldState(checks) == NeedsConfirmation <==> AnyIn(checks, NeedsConfirmation)
    ensures FoldState(checks) == AutoPreparing <==> AnyIn(checks, AutoPreparing) && !AnyIn(checks, NeedsConfirmation)
  {
    if checks != [] {
      var init, check := checks[..|checks| - 1], checks[|checks| - 1];
      FoldStateIff(init);
      forall state ensures AnyIn(checks, state) <==> AnyIn(init, state) || check.state == state {
        if i :| 0 <= i < |init| && init[i].state == state { assert checks[i].state == state; }
      }
    }
  }

  lemma {:induction false} ItemSlotsMembers(items: seq<MissingInfo>, slot: string)
    ensures slot in ItemSlots(items) <==> slot != "" && exists i :: 0 <= i < |items| && Trim(items[i].id) == slot
  {
    if items != [] {
      var n := |items| - 1;
      ItemSlotsMembers(items[..n], slot);
      assert forall i :: 0 <= i < n ==> items[..n][i] == items[i];
    }
  }

  /** The slots a report asks for, when it needs confirmation: those of the contract's missing information,
      whatever the checks say. */
  lemma SlotsAsked(a: Analysis, items: seq<MissingInfo>, slot: string)
    requires exists i :: 0 <= i < |items| && Trim(items[i].id) != ""
    ensures slot in Built(a, items).slots <==>
              && AnyIn(AllChecks(a, items), NeedsConfirmation)
              && slot != "" && exists i :: 0 <= i < |items| && Trim(items[i].id) == slot
  {
    FoldStateIff(AllChecks(a, items));
    ItemSlotsMembers(items, slot);
    var i :| 0 <= i < |items| && Trim(items[i].id) != "";
    ItemSlotsMembers(items, Trim(items[i].id));
  }

  // ---------------------------------------------------------------------------
  // Counting rounds
  // ---------------------------------------------------------------------------

  const SUPERSEDED := "clarification_superseded"

  datatype Status = Queued | WaitingInput | RunCancelled | OtherStatus

  /** A stored run; its parent and error are stored trimmed. */
  datatype Run = Run(parent: string, status: Status, error: string)

  type Runs = map<string, Run>

  predicate WasSuperseded(runs: Runs, id: string) {
    id in runs && runs[id].status.RunCancelled? && runs[id].error == SUPERSEDED
  }

  /** Where the walk goes from `id`; empty when it stops. */
  function Next(runs: Runs, id: string): string {
    if WasSuperseded(runs, id) then runs[id].parent else ""
  }

  lemma SeenShrinks(runs: Runs, id: string, seen: set<string>)
    requires id !in seen
    ensures id in runs ==> |runs.Keys - (seen + {id})| < |runs.Keys - seen|
    ensures id !in runs ==> runs.Keys - (seen + {id}) == runs.Keys - seen
  {
    assert runs.Keys - (seen + {id}) == (runs.Keys - seen) - {id};
  }

  /** The ids the walk counts, in order; it ends on every store, with cyclic parent links too. */
  function Walk(runs: Runs, id: string, seen: set<string>): seq<string>
    decreases |runs.Keys - seen|, if id == "" then 0 else 1
  {
    if id == "" || id in seen then []
    else
      SeenShrinks(runs, id, seen);
      [id] + Walk(runs, Next(runs, id), seen + {id})
  }

  /** The run `a` was cancelled because the user's answer to it became another round, and names `b` as parent. */
  predicate Links(runs: Runs, a: string, b: string) {
    && a in runs && runs[a].status == RunCancelled && runs[a].error == "clarification_superseded"
    && runs[a].parent == b && b != ""
  }

  /** The chain of ancestors from `start`: linked, without repetition, and impossible to extend. */
  ghost predicate IsWholeChain(runs: Runs, start: string, chain: seq<string>) {
    && (start == "" ==> chain == [])
    && (start != "" ==> chain != [] && chain[0] == start)
    && (forall i :: 0 <= i < |chain| ==> chain[i] != "")
    && (forall i, j :: 0 <= i < j < |chain| ==> chain[i] != chain[j])
    && (forall i :: 0 < i < |chain| ==> Links(runs, chain[i - 1], chain[i]))
    && (chain != [] ==> forall next :: Links(runs, chain[|chain| - 1], next) ==> next in chain)
  }

  ghost predicate IsRestOfChain(runs: Runs, id: string, seen: set<string>, rest: seq<string>) {
    && (id == "" || id in seen ==> rest == [])
    && (id != "" && id !in seen ==> rest != [] && rest[0] == id)
    && (forall i :: 0 <= i < |rest| ==> rest[i] != "" && rest[i] !in seen)
    && (forall i, j :: 0 <= i < j < |rest| ==> rest[i] != rest[j])
    && (forall i :: 0 < i < |rest| ==> rest[i] == Next(runs, rest[i - 1]))
    && (rest != [] ==> var next := Next(runs, rest[|rest| - 1]); next == "" || next in rest || next in seen)
  }

  lemma {:induction false} WalkIsRestOfChain(runs: Runs, id: string, seen: set<string>)
    ensures IsRestOfChain(runs, id, seen, Walk(runs, id, seen))
    decreases |runs.Keys - seen|, if id == "" then 0 else 1
  {
    if id != "" && id !in seen {
      SeenShrinks(runs, id, seen);
      var rest := Walk(runs, Next(runs, id), seen + {id});
      WalkIsRestOfChain(runs, Next(runs, id), seen + {id});
      WalkStep(runs, id, seen);
      ChainPrepend(runs, id, seen, rest);
    }
  }

  lemma WalkStep(runs: Runs, id: string, seen: set<string>)
    requires id != "" && id !in seen
    ensures Walk(runs, id, seen) == [id] + Walk(runs, Next(runs, id), seen + {id})
  {
  }

  lemma ChainPrepend(runs: Runs, id: string, seen: set<string>, rest: seq<string>)
    requires id != "" && id !in seen && IsRestOfChain(runs, Next(runs, id), seen + {id}, rest)
    ensures IsRestOfChain(runs, id, seen, [id] + rest)
  {
    var all := [id] + rest;
    forall i | 0 < i < |all| ensures all[i] == Next(runs, all[i - 1]) {
      if i > 1 { assert rest[i - 1] == Next(runs, rest[i - 2]); }
    }
    assert rest != [] ==> all[|all| - 1] == rest[|rest| - 1];
  }

  /** The walk is exactly the superseded chain, ended by the first run that was not superseded. */
  lemma WalkIsWholeChain(runs: Runs, start: string)
    ensures IsWholeChain(runs, start, Walk(runs, start, {}))
  {
    WalkIsRestOfChain(runs, start, {});
  }

  lemma {:induction false} ChainsAgree(runs: Runs, start: string, a: seq<string>, b: seq<string>, n: nat)
    requires IsWholeChain(runs, start, a) && IsWholeChain(runs, start, b) && n <= |a| && n <= |b|
    ensures a[..n] == b[..n]
  {
    if n > 0 {
      ChainsAgree(runs, start, a, b, n - 1);
      assert n > 1 ==> a[n - 2] == a[..n - 1][n - 2] && b[n - 2] == b[..n - 1][n - 2];
      assert a[..n] == a[..n - 1] + [a[n - 1]] && b[..n] == b[..n - 1] + [b[n - 1]];
    }
  }

  lemma ChainNotLonger(runs: Runs, start: string, a: seq<string>, b: seq<string>)
    requires IsWholeChain(runs, start, a) && IsWholeChain(runs, start, b)
    ensures |b| <= |a|
  {
    if |a| < |b| && a != [] {
      var n := |a|;
      ChainsAgree(runs, start, a, b, n);
      EndsThere(a, b, n);
    }
  }

  lemma EndsThere(a: seq<string>, b: seq<string>, n: nat)
    requires 0 < n < |b| && n == |a| && a[..n] == b[..n]
    requires forall i, j :: 0 <= i < j < |b| ==> b[i] != b[j]
    ensures a[n - 1] == b[n - 1] && b[n] !in a
  {
    assert a[..n] == a;
    forall i | 0 <= i < n ensures a[i] != b[n] {
      assert b[..n][i] == b[i];
    }
  }

  /** There is one such chain, so the number of rounds is a fact about the store, not about the walk. */
  lemma RoundsAreTheChain(runs: Runs, start: string, chain: seq<string>)
    requires IsWholeChain(runs, start, chain)
    ensures Walk(runs, start, {}) == chain
  {
    var walk := Walk(runs, start, {});
    WalkIsWholeChain(runs, start);
    ChainNotLonger(runs, start, walk, chain);
    ChainNotLonger(runs, start, chain, walk);
    ChainsAgree(runs, start, walk, chain, |walk|);
    assert walk[..|walk|] == walk && chain[..|walk|] == chain;
  }

  /** clarificationRoundCount; `source` is the run that the message answers, if any. */
  function Rounds(runs: Runs, parent: string, source: string): nat {
    if source == "" then 0 else |Walk(runs, if parent == "" then source else parent, {})|
  }

  method ClarificationRoundCount(runs: Runs, parent: string, source: string) returns (rounds: nat)
    ensures rounds == Rounds(runs, parent, source)
  {
    rounds := 0;
    if source == "" { return; }
    var currentID := parent;
    if currentID == "" { currentID := source; }
    ghost var start := currentID;
    var seen: set<string> := {};
    while currentID != "" && currentID !in seen
      invariant rounds + |Walk(runs, currentID, seen)| == |Walk(runs, start, {})|
      decreases |runs.Keys - seen|, if currentID == "" then 0 else 1
    {
      SeenShrinks(runs, currentID, seen);
      WalkStep(runs, currentID, seen);
      seen := seen + {currentID};
      rounds := rounds + 1;
      if currentID !in runs || !WasSuperseded(runs, currentID) { return; }
      currentID := runs[currentID].parent;
    }
  }

  // ---------------------------------------------------------------------------
  // Whether a submitted run is held
  // ---------------------------------------------------------------------------

  /** applyClarificationRoundLimit. */
  ghost function Limited(r: Report, rounds: nat, max: nat): Report {
    if NeedsClarification(r) && rounds >= max then Relaxed(r) else r
  }

  /** The run is put to wait for input. */
  ghost predicate Waits(a: Analysis, items: seq<MissingInfo>, watch: bool, rounds: nat, max: nat) {
    Limited(Built(a, items), rounds, max).blocking && !watch
  }

  /** A run waits exactly when its own report blocks and the cap is not reached. */
  lemma WaitsIff(a: Analysis, items: seq<MissingInfo>, watch: bool, rounds: nat, max: nat)
    ensures Waits(a, items, watch, rounds, max) <==> Built(a, items).blocking && !watch && rounds < max
  {
    BlockingReportsNeedClarification(a, items);
  }

  method BuildContractMissingInfoChecks(a: Analysis, existing: seq<Check>, items: seq<MissingInfo>)
    returns (checks: seq<Check>)
    ensures checks == MissingChecks(a, existing, items)
  {
    checks := [];
    for i := 0 to |items|
      invariant checks == MissingChecks(a, existing, items[..i])
    {
      assert items[..i + 1][..i] == items[..i];
      checks := checks + MissingCheck(a, existing, items[i]);
    }
    assert items[..|items|] == items;
  }

  /** The loop that folds the checks into the report's state. */
  method FoldChecks(checks: seq<Check>) returns (blocking: bool, state: PreflightState)
    ensures blocking <==> AnyBlocking(checks)
    ensures state == FoldState(checks)
  {
    blocking, state := false, Ready;
    for i := 0 to |checks|
      invariant blocking <==> AnyBlocking(checks[..i])
      invariant state == FoldState(checks[..i])
    {
      BlockingJoin(checks[..i], [checks[i]]);
      assert checks[..i + 1] == checks[..i] + [checks[i]] && [checks[i]][0] == checks[i];
      if checks[i].blocking { blocking := true; }
      match checks[i].state
      case NeedsConfirmation => state := NeedsConfirmation;
      case AutoPreparing => if state.Ready? { state := AutoPreparing; }
      case Ready =>
    }
    assert checks[..|checks|] == checks;
  }

  method BuildRunPreflightWithContract(a: Analysis, items: seq<MissingInfo>) returns (report: Report)
    ensures report == Built(a, items)
    ensures report.blocking <==> NeedsClarification(report)
  {
    var checks := Opening(a);
    var missing := BuildContractMissingInfoChecks(a, checks, items);
    checks := checks + missing + Note("expected_output", Ready, a.expectedOutput, false)
    + Note("verification_plan", Ready, a.verificationPlan, false);
    BlockingReportsNeedClarification(a, items);
    var blocking, state := FoldChecks(checks);
    return Report(blocking, state, checks, Slots(state, checks, items));
  }

  method PreflightNeedsClarification(report: Report) returns (needs: bool)
    ensures needs <==> NeedsClarification(report)
  {
    if !report.blocking { return false; }
    needs := report.slots != [];
    for i := 0 to |report.checks|
      invariant forall k :: 0 <= k < i && report.checks[k].blocking ==> IsClarification(report.checks[k].id)
      invariant needs <==> report.slots != [] || exists k :: 0 <= k < i && report.checks[k].blocking
    {
      if report.checks[i].blocking {
        if !IsClarification(report.checks[i].id) { return false; }
        needs := true;
      }
    }
  }

  method ApplyClarificationRoundLimit(report: Report, rounds: nat, max: nat) returns (limited: Report)
    ensures limited == Limited(report, rounds, max)
  {
    var needs := PreflightNeedsClarification(report);
    if !needs || rounds < max { return report; }
    var checks: seq<Check> := [];
    for i := 0 to |report.checks|
      invariant |checks| == i
      invariant forall k :: 0 <= k < i ==> checks[k] == Relaxed(report).checks[k]
    {
      var check := report.checks[i];
      if check.blocking && IsClarification(check.id) { check := check.(blocking := false, state := AutoPreparing); }
      checks := checks + [check];
    }
    checks := checks + [Check("clarification_limit_reached", AutoPreparing, "limit", false)];
    return Report(false, AutoPreparing, checks, []);
  }

  // ---------------------------------------------------------------------------
  // Conversations
  // ---------------------------------------------------------------------------

  /** `asked` counts, for each run, the questions in a row that were answered before it. */
  datatype State = State(runs: Runs, asked: map<string, nat>)

  datatype Message = Message(analysis: Analysis, items: seq<MissingInfo>, watch: bool)

  /** A new request, the answer to a waiting run, or anything else that moves a run on. */
  datatype Event =
    | Fresh(id: string, parent: string, message: Message)
    | FollowUp(waiting: string, id: string, parent: string, message: Message)
    | Settle(id: string, run: Run)

  predicate IsNew(st: State, id: string) {
    id !in st.runs && id != ""
  }

  predicate Enabled(st: State, e: Event) {
    match e
    case Fresh(id, _, _) => IsNew(st, id)
    case FollowUp(waiting, id, _, _) => IsNew(st, id) && waiting in st.runs && st.runs[waiting].status.WaitingInput?
    case Settle(id, run) =>
      id in st.runs && !WasSuperseded(st.runs, id) && run.parent == st.runs[id].parent && !run.status.WaitingInput?
  }

  function Superseded(runs: Runs, waiting: string): Runs
    requires waiting in runs
  {
    runs[waiting := runs[waiting].(status := RunCancelled, error := SUPERSEDED)]
  }

  function ParentOf(e: Event): string
    requires e.FollowUp?
  {
    if Trim(e.parent) == "" then e.waiting else Trim(e.parent)
  }

  ghost function Admitted(m: Message, parent: string, rounds: nat, max: nat): Run {
    Run(parent, if Waits(m.analysis, m.items, m.watch, rounds, max) then WaitingInput else Queued, "")
  }

  ghost function Step(st: State, e: Event, max: nat): State
    requires Enabled(st, e)
  {
    match e
    case Fresh(id, parent, m) =>
      State(st.runs[id := Admitted(m, Trim(parent), 0, max)], st.asked[id := 0])
    case FollowUp(waiting, id, _, m) =>
      var runs := Superseded(st.runs, waiting);
      State(runs[id := Admitted(m, ParentOf(e), Rounds(runs, ParentOf(e), waiting), max)],
            st.asked[id := (if waiting in st.asked then st.asked[waiting] else 0) + 1])
    case Settle(id, run) => State(st.runs[id := run], st.asked)
  }

  /** The follow-up names no parent but the run it answers. */
  predicate KeepsTheThread(e: Event) {
    e.FollowUp? ==> Trim(e.parent) == "" || Trim(e.parent) == e.waiting
  }

  /** A run that answered a question hangs below the superseded run that asked it. */
  ghost predicate Linked(st: State, id: string)
    requires id in st.runs && id in st.asked
  {
    st.asked[id] > 0 ==>
      && WasSuperseded(st.runs, st.runs[id].parent)
      && st.runs[id].parent in st.asked && st.asked[st.runs[id].parent] == st.asked[id] - 1
  }

  ghost predicate Inv(st: State, max: nat) {
    && st.asked.Keys == st.runs.Keys
    && (forall id :: id in st.runs ==> id != "" && Linked(st, id))
    && (forall id :: id in st.runs && st.runs[id].status.WaitingInput? ==> st.asked[id] < max)
  }

  lemma {:induction false} WalkPassesTheThread(st: State, id: string, seen: set<string>)
    requires st.asked.Keys == st.runs.Keys && forall x :: x in st.runs ==> x != "" && Linked(st, x)
    requires WasSuperseded(st.runs, id) && forall s :: s in seen ==> s in st.asked && st.asked[s] > st.asked[id]
    ensures |Walk(st.runs, id, seen)| > st.asked[id]
    decreases st.asked[id]
  {
    WalkStep(st.runs, id, seen);
    if st.asked[id] > 0 {
      assert Linked(st, id);
      WalkPassesTheThread(st, st.runs[id].parent, seen + {id});
    }
  }

  lemma AddKeepsInv(st: State, id: string, run: Run, asked: nat, max: nat)
    requires Inv(st, max) && IsNew(st, id) && (run.status.WaitingInput? ==> asked < max)
    requires asked > 0 ==>
               run.parent in st.runs && WasSuperseded(st.runs, run.parent) && st.asked[run.parent] == asked - 1
    ensures Inv(State(st.runs[id := run], st.asked[id := asked]), max)
  {
    var after := State(st.runs[id := run], st.asked[id := asked]);
    forall x | x in after.runs ensures Linked(after, x) {
      if x != id { assert Linked(st, x); }
    }
  }

  lemma FreshKeepsInv(st: State, e: Event, max: nat)
    requires Inv(st, max) && Enabled(st, e) && e.Fresh? && max > 0
    ensures Inv(Step(st, e, max), max)
  {
    AddKeepsInv(st, e.id, Admitted(e.message, Trim(e.parent), 0, max), 0, max);
  }

  lemma SettleKeepsInv(st: State, e: Event, max: nat)
    requires Inv(st, max) && Enabled(st, e) && e.Settle?
    ensures Inv(Step(st, e, max), max)
  {
    var after := Step(st, e, max);
    forall id | id in after.runs ensures Linked(after, id) {
      assert Linked(st, id);
    }
  }

  lemma SupersedeKeepsLinks(st: State, waiting: string, max: nat)
    requires Inv(st, max) && waiting in st.runs && st.runs[waiting].status.WaitingInput?
    ensures Inv(State(Superseded(st.runs, waiting), st.asked), max)
    ensures WasSuperseded(Superseded(st.runs, waiting), waiting)
  {
    var after := State(Superseded(st.runs, waiting), st.asked);
    forall id | id in after.runs ensures Linked(after, id) {
      assert Linked(st, id);
    }
  }

  lemma AdmittedUnderTheCap(m: Message, parent: string, rounds: nat, max: nat)
    ensures Admitted(m, parent, rounds, max).parent == parent
    ensures Admitted(m, parent, rounds, max).status.WaitingInput? ==> rounds < max
  {
    WaitsIff(m.analysis, m.items, m.watch, rounds, max);
  }

  lemma ThreadIsCounted(st: State, waiting: string, max: nat)
    requires Inv(st, max) && waiting in st.runs && st.runs[waiting].status.WaitingInput?
    ensures Rounds(Superseded(st.runs, waiting), waiting, waiting) > st.asked[waiting]
  {
    SupersedeKeepsLinks(st, waiting, max);
    WalkPassesTheThread(State(Superseded(st.runs, waiting), st.asked), waiting, {});
  }

  lemma FollowUpKeepsInv(st: State, e: Event, max: nat)
    requires Inv(st, max) && Enabled(st, e) && e.FollowUp? && KeepsTheThread(e)
    ensures Inv(Step(st, e, max), max)
  {
    var runs := Superseded(st.runs, e.waiting);
    var rounds := Rounds(runs, e.waiting, e.waiting);
    SupersedeKeepsLinks(st, e.waiting, max);
    ThreadIsCounted(st, e.waiting, max);
    AdmittedUnderTheCap(e.message, e.waiting, rounds, max);
    AddKeepsInv(State(runs, st.asked), e.id, Admitted(e.message, e.waiting, rounds, max), st.asked[e.waiting] + 1, max);
  }

  ghost predicate IsRun(states: seq<State>, events: seq<Event>, max: nat) {
    && |states| == |events| + 1 && states[0] == State(map[], map[])
    && forall i :: 0 <= i < |events| ==> StepTo(states[i], events[i], max, states[i + 1])
  }

  ghost predicate StepTo(st: State, e: Event, max: nat, next: State) {
    Enabled(st, e) && next == Step(st, e, max)
  }

  // ---------------------------------------------------------------------------
  // When the cap holds
  // ---------------------------------------------------------------------------

  /** The run's own report asks for something. */
  ghost predicate Asks(m: Message) {
    Built(m.analysis, m.items).blocking && !m.watch
  }

  /** A follow-up that asks again although the maximum of questions was answered: the chain above the
      parent it names is shorter than the thread it continues. */
  ghost predicate BreaksTheCap(st: State, e: Event, max: nat)
    requires Enabled(st, e) && st.asked.Keys == st.runs.Keys
  {
    && e.FollowUp? && Asks(e.message)
    && Rounds(Superseded(st.runs, e.waiting), ParentOf(e), e.waiting) < max <= st.asked[e.waiting] + 1
  }

  /** No waiting run was preceded by the maximum of answered questions. */
  ghost predicate Capped(st: State, max: nat) {
    && st.asked.Keys == st.runs.Keys
    && forall id :: id in st.runs && st.runs[id].status.WaitingInput? ==> st.asked[id] < max
  }

  lemma AdmittedIff(m: Message, parent: string, rounds: nat, max: nat)
    ensures Admitted(m, parent, rounds, max).status.WaitingInput? <==> Asks(m) && rounds < max
  {
    WaitsIff(m.analysis, m.items, m.watch, rounds, max);
  }

  /** What a message does to the stored runs: a new run is stored below the parent it names, or else below the
      run it answers, and that run is cancelled as superseded; no other run changes. A first message is asked about
      exactly if it leaves something to ask and any round is allowed. */
  lemma MessageEffect(st: State, e: Event, max: nat)
    requires Enabled(st, e) && !e.Settle?
    ensures
      var after := Step(st, e, max).runs;
      && after.Keys == st.runs.Keys + {e.id} && after[e.id].error == ""
      && (after[e.id].status == WaitingInput || after[e.id].status == Queued)
      && (forall id :: id in st.runs && !(e.FollowUp? && id == e.waiting) ==> after[id] == st.runs[id])
      && (e.Fresh? ==>
            && after[e.id].parent == Trim(e.parent)
            && (after[e.id].status == WaitingInput <==> Asks(e.message) && max > 0))
      && (e.FollowUp? ==>
            && after[e.id].parent == (if Trim(e.parent) == "" then e.waiting else Trim(e.parent))
            && after[e.waiting] == Run(st.runs[e.waiting].parent, RunCancelled, "clarification_superseded"))
  {
    AdmittedIff(e.message, Trim(e.parent), 0, max);
  }

  /** Exactly which follow-ups are left waiting over the cap, whatever parent they name. */
  lemma FollowUpBreaksTheCapIff(st: State, e: Event, max: nat)
    requires st.asked.Keys == st.runs.Keys && Enabled(st, e) && e.FollowUp?
    ensures var after := Step(st, e, max);
            after.runs[e.id].status.WaitingInput? && after.asked[e.id] >= max <==> BreaksTheCap(st, e, max)
  {
    var rounds := Rounds(Superseded(st.runs, e.waiting), ParentOf(e), e.waiting);
    AdmittedIff(e.message, ParentOf(e), rounds, max);
  }

  lemma AddKeepsCapIff(st: State, id: string, run: Run, asked: nat, max: nat)
    requires Capped(st, max) && IsNew(st, id)
    ensures var after := State(st.runs[id := run], st.asked[id := asked]);
            Capped(after, max) <==> (run.status.WaitingInput? ==> asked < max)
  {
    var after := State(st.runs[id := run], st.asked[id := asked]);
    assert after.runs[id] == run && after.asked[id] == asked;
    assert after.runs.Keys == st.runs.Keys + {id} && after.asked.Keys == st.asked.Keys + {id};
  }

  lemma StepKeepsCapIff(st: State, e: Event, max: nat)
    requires Capped(st, max) && Enabled(st, e) && max > 0
    ensures Capped(Step(st, e, max), max) <==> !BreaksTheCap(st, e, max)
  {
    match e
    case Fresh(id, parent, m) => AddKeepsCapIff(st, id, Admitted(m, Trim(parent), 0, max), 0, max);
    case FollowUp(waiting, id, _, m) =>
      var runs := Superseded(st.runs, waiting);
      var rounds := Rounds(runs, ParentOf(e), waiting);
      FollowUpBreaksTheCapIff(st, e, max);
      AddKeepsCapIff(State(runs, st.asked), id, Admitted(m, ParentOf(e), rounds, max), st.asked[waiting] + 1, max);
    case Settle(_, _) =>
  }

  /** At step `i` of the conversation the cap is broken. */
  ghost predicate BreaksAt(states: seq<State>, events: seq<Event>, max: nat, i: nat)
    requires i < |events| < |states|
  {
    && Enabled(states[i], events[i]) && states[i].asked.Keys == states[i].runs.Keys
    && BreaksTheCap(states[i], events[i], max)
  }

  lemma {:induction false} CappedUntilBroken(states: seq<State>, events: seq<Event>, max: nat, n: nat)
    requires IsRun(states, events, max) && max > 0 && n < |states|
    requires forall i :: 0 <= i < n ==> !BreaksAt(states, events, max, i)
    ensures Capped(states[n], max)
  {
    if n > 0 {
      CappedUntilBroken(states, events, max, n - 1);
      assert StepTo(states[n - 1], events[n - 1], max, states[n]) && !BreaksAt(states, events, max, n - 1);
      StepKeepsCapIff(states[n - 1], events[n - 1], max);
    }
  }

  /** Over every conversation the cap holds throughout if and only if no follow-up breaks it. */
  lemma CapHoldsIff(states: seq<State>, events: seq<Event>, max: nat)
    requires IsRun(states, events, max) && max > 0
    ensures (forall n :: 0 <= n < |states| ==> Capped(states[n], max)) <==>
            (forall i :: 0 <= i < |events| ==> !BreaksAt(states, events, max, i))
  {
    if forall i :: 0 <= i < |events| ==> !BreaksAt(states, events, max, i) {
      forall n | 0 <= n < |states| ensures Capped(states[n], max) { CappedUntilBroken(states, events, max, n); }
    } else {
      var i :| 0 <= i < |events| && BreaksAt(states, events, max, i);
      assert StepTo(states[i], events[i], max, states[i + 1]);
      FollowUpBreaksTheCapIff(states[i], events[i], max);
      assert !Capped(states[i + 1], max);
    }
  }

  /** As long as no follow-up has broken it, a waiting run is preceded by fewer than the maximum of
      answered questions. */
  lemma AskedFewerThanMaxTimes(states: seq<State>, events: seq<Event>, max: nat, n: nat, id: string)
    requires IsRun(states, events, max) && max > 0 && n < |states|
    requires forall i :: 0 <= i < n ==> !BreaksAt(states, events, max, i)
    requires id in states[n].runs && states[n].runs[id].status.WaitingInput?
    ensures id in states[n].asked && states[n].asked[id] < max
  {
    CappedUntilBroken(states, events, max, n);
  }

  lemma {:induction false} RunKeepsInv(states: seq<State>, events: seq<Event>, max: nat, n: nat)
    requires IsRun(states, events, max) && max > 0 && n < |states|
    requires forall i :: 0 <= i < n ==> KeepsTheThread(events[i])
    ensures Inv(states[n], max)
  {
    if n > 0 {
      RunKeepsInv(states, events, max, n - 1);
      var e := events[n - 1];
      assert StepTo(states[n - 1], e, max, states[n]);
      match e
      case Fresh(_, _, _) => FreshKeepsInv(states[n - 1], e, max);
      case FollowUp(_, _, _, _) => FollowUpKeepsInv(states[n - 1], e, max);
      case Settle(_, _) => SettleKeepsInv(states[n - 1], e, max);
    }
  }

  /** While follow-ups name no other parent than the run they answer, none of them breaks the cap. */
  lemma ThreadsNeverBreakTheCap(states: seq<State>, events: seq<Event>, max: nat, n: nat)
    requires IsRun(states, events, max) && max > 0 && n < |events|
    requires forall i :: 0 <= i <= n ==> KeepsTheThread(events[i])
    ensures !BreaksAt(states, events, max, n)
  {
    RunKeepsInv(states, events, max, n);
    assert StepTo(states[n], events[n], max, states[n + 1]);
    if events[n].FollowUp? { ThreadIsCounted(states[n], events[n].waiting, max); }
  }

  // ---------------------------------------------------------------------------
  // Conversations without end
  // ---------------------------------------------------------------------------

  lemma ExtendRun(states: seq<State>, events: seq<Event>, max: nat, e: Event, next: State)
    requires IsRun(states, events, max) && StepTo(states[|events|], e, max, next)
    ensures IsRun(states + [next], events + [e], max)
  {
    var states', events' := states + [next], events + [e];
    forall i | 0 <= i < |events'| ensures StepTo(states'[i], events'[i], max, states'[i + 1]) {
      var st, ev, nx := states'[i], events'[i], states'[i + 1];
      if i < |events| {
        assert StepTo(states[i], events[i], max, states[i + 1]);
        assert st == states[i] && ev == events[i] && nx == states[i + 1];
      } else {
        assert st == states[|events|] && ev == e && nx == next;
      }
    }
  }

  /** A follow-up that names an unknown parent counts one round however many came before it. */
  lemma UnknownParentCountsOne(runs: Runs, parent: string, source: string)
    requires parent !in runs && parent != "" && source != ""
    ensures Rounds(runs, parent, source) == 1
  {
    WalkStep(runs, parent, {});
  }

  ghost function Name(n: nat): string {
    seq(n + 1, _ => 'r')
  }

  lemma SomethingToAsk() returns (m: Message)
    ensures Asks(m)
  {
    m := Message(Analysis("no concrete reference", "", "", "", "", ""), [], false);
    BuiltBlocksIff(m.analysis, m.items);
  }

  /** The last of `n` answered questions was asked by the run called Name(n), which now waits; "x" is no run. */
  ghost predicate WaitsAfter(st: State, n: nat) {
    && st.asked.Keys == st.runs.Keys
    && Name(n) in st.runs && st.runs[Name(n)].status.WaitingInput? && st.asked[Name(n)] == n
    && forall id :: id in st.runs ==> 0 < |id| <= n + 1 && id[0] == 'r'
  }

  lemma AskFirst(max: nat) returns (e: Event, next: State)
    requires max > 0
    ensures StepTo(State(map[], map[]), e, max, next) && WaitsAfter(next, 0)
  {
    var m := SomethingToAsk();
    e := Fresh(Name(0), "", m);
    next := Step(State(map[], map[]), e, max);
    AdmittedIff(m, Trim(""), 0, max);
  }

  lemma AskAgain(st: State, n: nat, max: nat) returns (e: Event, next: State)
    requires WaitsAfter(st, n) && max > 1
    ensures StepTo(st, e, max, next) && WaitsAfter(next, n + 1)
  {
    var m := SomethingToAsk();
    e := FollowUp(Name(n), Name(n + 1), "x", m);
    next := Step(st, e, max);
    assert Trim("x") == "x";
    UnknownParentCountsOne(Superseded(st.runs, Name(n)), "x", Name(n));
    AdmittedIff(m, "x", 1, max);
  }

  lemma FirstQuestion(max: nat) returns (states: seq<State>, events: seq<Event>)
    requires max > 0
    ensures IsRun(states, events, max) && WaitsAfter(states[|events|], 0)
  {
    var start := State(map[], map[]);
    var e, next := AskFirst(max);
    ExtendRun([start], [], max, e, next);
    states, events := [start] + [next], [] + [e];
  }

  lemma NextQuestion(before: seq<State>, events: seq<Event>, n: nat, max: nat) returns (states: seq<State>, e: Event)
    requires IsRun(before, events, max) && WaitsAfter(before[|events|], n) && max > 1
    ensures IsRun(states, events + [e], max) && WaitsAfter(states[|events| + 1], n + 1)
  {
    var next;
    e, next := AskAgain(before[|events|], n, max);
    ExtendRun(before, events, max, e, next);
    states := before + [next];
    assert states[|events| + 1] == next;
  }

  /** With a maximum of at least two, follow-ups that keep naming an unknown parent let a run wait after any
      number of answered questions. */
  lemma {:induction false} AskedAnyNumberOfTimes(max: nat, n: nat) returns (states: seq<State>, events: seq<Event>)
    requires max > 1
    ensures IsRun(states, events, max) && WaitsAfter(states[|events|], n)
  {
    if n == 0 {
      states, events := FirstQuestion(max);
    } else {
      var before, e;
      before, events := AskedAnyNumberOfTimes(max, n - 1);
      states, e := NextQuestion(before, events, n - 1, max);
      events := events + [e];
    }
  }
}
