/** Admission of runs to a session: the session's queue, the queued-to-running compare-and-set in the
    run store, and the per-run execution claim.

    Executors are concurrent calls of ExecuteRun or ResumeRun for runs of one session. Each of their
    atomic operations is one step, and other parties may at any time enqueue a run, overwrite a run's
    stored status, or finalize a run: store a status, cancel the context of the run's executor, and then
    finish the run's queue slot. */
module Admission {
  import opened Options
  import opened Coordinator
  import opened Sequences

  datatype Status =
    | Queued | WaitingInput | Running | WaitingApproval | Streaming
    | Completed | Failed | Cancelled

  predicate Terminal(s: Status) {
    s.Completed? || s.Failed? || s.Cancelled?
  }

  /** The run state machine's table of allowed status changes. */
  predicate ValidTransition(from: Status, to: Status) {
    match from
    case Queued => to.Running? || to.WaitingInput? || to.WaitingApproval? || to.Cancelled?
    case WaitingInput => to.Running? || to.Cancelled?
    case Running => to.WaitingApproval? || to.WaitingInput? || to.Streaming? || Terminal(to)
    case WaitingApproval => to.Queued? || to.Running? || Terminal(to)
    case Streaming => to.Running? || Terminal(to)
    case Completed => false
    case Failed => false
    case Cancelled => false
  }

  /** The status a finalization stores: unchanged if the table refuses the change. */
  function FinalStatus(from: Status, to: Status): Status {
    if ValidTransition(from, to) then to else from
  }

  /** What happened to an executor since it registered its context: `displaced` when a finalization of its
      run has finished the queue slot it had started, `live` until a finalization cancels the context, and
      `late` if it registered between a finalization's cancelling and its finishing. */
  datatype Flags = Flags(displaced: bool, live: bool, late: bool)

  /** Where an executor stands. */
  datatype Executor =
    | Fresh(run: string)
    | Claimed(run: string)
    | Registered(run: string, flags: Flags)
    | Started(run: string, flags: Flags)
    | Executing(run: string, flags: Flags)
    | Inside(run: string, flags: Flags)
    | Undoing(run: string, flags: Flags)
    | Leaving(run: string)
    | Done

  /** `closing` holds a run once for each finalization that has cancelled but not finished it. */
  datatype State = State(
    queue: Queue, status: map<string, Status>, executing: set<string>, closing: multiset<string>,
    executors: seq<Executor>)

  datatype Event =
    | EnqueueRun(run: string, mode: Mode)
    | WriteStatus(run: string, status: Status)
    | Finalize(run: string, status: Status)
    | CancelContext(run: string)
    | FinishSlot(run: string)
    | Claim(x: nat)
    | GiveUp(x: nat)
    | Register(x: nat)
    | Start(x: nat)
    | Admit(x: nat)
    | Enter(x: nat)
    | Yield(x: nat)
    | Finish(x: nat)
    | Leave(x: nat)

  predicate OfExecutor(e: Event) {
    !e.EnqueueRun? && !e.WriteStatus? && !e.Finalize? && !e.CancelContext? && !e.FinishSlot?
  }

  predicate Enabled(s: State, e: Event) {
    && (e.FinishSlot? ==> e.run in s.closing)
    && (OfExecutor(e) ==>
          && e.x < |s.executors|
          && var p := s.executors[e.x];
             match e
             case Claim(_) => p.Fresh?
             case GiveUp(_) => p.Claimed?
             case Register(_) => p.Claimed?
             case Start(_) => p.Registered?
             case Admit(_) => p.Started?
             case Enter(_) => p.Executing?
             case Yield(_) => p.Inside?
             case Finish(_) => p.Executing? || p.Inside? || p.Undoing?
             case Leave(_) => p.Leaving?
             case _ => true)
  }

  /** Between a successful start of the queue slot and the end of the work. */
  predicate HoldsSlot(p: Executor) {
    p.Started? || p.Executing? || p.Inside?
  }

  predicate HasContext(p: Executor) {
    p.Registered? || HoldsSlot(p) || p.Undoing?
  }

  predicate HasClaim(p: Executor) {
    p.Claimed? || HasContext(p) || p.Leaving?
  }

  function WithFlags(p: Executor, flags: Flags): Executor
    requires HasContext(p)
  {
    match p
    case Registered(run, _) => Registered(run, flags)
    case Started(run, _) => Executor.Started(run, flags)
    case Executing(run, _) => Executing(run, flags)
    case Inside(run, _) => Inside(run, flags)
    case Undoing(run, _) => Undoing(run, flags)
  }

  function AfterCancel(p: Executor, run: string): Executor {
    if HasContext(p) && p.run == run then WithFlags(p, p.flags.(live := false)) else p
  }

  function AfterFinish(p: Executor, run: string): Executor {
    if HoldsSlot(p) && p.run == run then WithFlags(p, p.flags.(displaced := true)) else p
  }

  function CancelEach(executors: seq<Executor>, run: string): seq<Executor> {
    seq(|executors|, i requires 0 <= i < |executors| => AfterCancel(executors[i], run))
  }

  function DisplaceEach(executors: seq<Executor>, run: string): seq<Executor> {
    seq(|executors|, i requires 0 <= i < |executors| => AfterFinish(executors[i], run))
  }

  function Step(s: State, e: Event): State
    requires Enabled(s, e)
  {
    match e
    case EnqueueRun(run, mode) => s.(queue := Apply(s.queue, EnqueueOp(run, mode)))
    case WriteStatus(run, status) => s.(status := s.status[run := status])
    case Finalize(run, status) =>
      if run in s.status then s.(status := s.status[run := FinalStatus(s.status[run], status)]) else s
    case CancelContext(run) =>
      s.(closing := s.closing + multiset{run}, executors := CancelEach(s.executors, run))
    case FinishSlot(run) =>
      s.(queue := Finished(s.queue, run), closing := s.closing - multiset{run},
         executors := DisplaceEach(s.executors, run))
    case _ =>
      var p := s.executors[e.x];
      var r := ExecutorStep(s, p, e);
      r.(executors := s.executors[e.x := Advance(s, p, e)])
  }

  /** Where an executor's own step takes it. */
  function Advance(s: State, p: Executor, e: Event): Executor
    requires OfExecutor(e) && Enabled(s, e) && p == s.executors[e.x]
  {
    match e
    case Claim(_) => if p.run in s.executing then Done else Claimed(p.run)
    case GiveUp(_) => Leaving(p.run)
    case Register(_) => Registered(p.run, Flags(false, true, p.run in s.closing))
    case Start(_) =>
      if Coordinator.Started(s.queue, p.run).None? then Leaving(p.run) else Executor.Started(p.run, p.flags)
    case Admit(_) => if IsQueued(s, p.run) then Executing(p.run, p.flags) else Undoing(p.run, p.flags)
    case Enter(_) => if p.flags.live then Inside(p.run, p.flags) else Undoing(p.run, p.flags)
    case Yield(_) => Undoing(p.run, p.flags)
    case Finish(_) => Leaving(p.run)
    case Leave(_) => Done
  }

  predicate IsQueued(s: State, run: string) {
    run in s.status && s.status[run] == Queued
  }

  /** What an executor's own step does to the queue, the run store and the claims. */
  function ExecutorStep(s: State, p: Executor, e: Event): State
    requires OfExecutor(e) && Enabled(s, e) && p == s.executors[e.x]
  {
    match e
    case Claim(_) => s.(executing := s.executing + {p.run})
    case Start(_) =>
      var r := Coordinator.Started(s.queue, p.run);
      if r.None? then s else s.(queue := r.value)
    case Admit(_) => if IsQueued(s, p.run) then s.(status := s.status[p.run := Running]) else s
    case Yield(_) => s.(queue := Finished(s.queue, p.run))
    case Finish(_) => s.(queue := Finished(s.queue, p.run))
    case Leave(_) => s.(executing := s.executing - {p.run})
    case _ => s
  }

  ghost predicate Initial(s: State) {
    && s.executing == {} && s.closing == multiset{}
    && forall i :: 0 <= i < |s.executors| ==> s.executors[i].Fresh? && s.executors[i].run != ""
  }

  ghost predicate StepOf(states: seq<State>, events: seq<Event>, i: int)
    requires 0 <= i < |events| < |states|
  {
    StepTo(states[i], events[i], states[i + 1])
  }

  ghost predicate StepTo(s: State, e: Event, t: State) {
    Enabled(s, e) && t == Step(s, e)
  }

  ghost predicate IsRun(states: seq<State>, events: seq<Event>) {
    && |states| == |events| + 1
    && Initial(states[0])
    && forall i :: 0 <= i < |events| ==> StepOf(states, events, i)
  }

  // ---------------------------------------------------------------------------
  // The invariant
  // ---------------------------------------------------------------------------

  ghost predicate ExecutorOk(s: State, p: Executor) {
    && (!p.Done? ==> p.run != "")
    && (HasClaim(p) ==> p.run in s.executing)
    && (HoldsSlot(p) && !p.flags.displaced ==> s.queue.active == p.run)
    && (HasContext(p) && p.run in s.closing ==> !p.flags.live || p.flags.late)
    && (HasContext(p) && p.flags.displaced ==> !p.flags.live || p.flags.late)
  }

  ghost predicate DistinctClaims(s: State, i: int, j: int)
    requires 0 <= i < |s.executors| && 0 <= j < |s.executors|
  {
    i != j && HasClaim(s.executors[i]) && HasClaim(s.executors[j]) ==> s.executors[i].run != s.executors[j].run
  }

  ghost predicate Inv(s: State) {
    && (forall i :: 0 <= i < |s.executors| ==> ExecutorOk(s, s.executors[i]))
    && (forall i, j :: 0 <= i < |s.executors| && 0 <= j < |s.executors| ==> DistinctClaims(s, i, j))
  }

  lemma SameExecutors(s: State, e: Event)
    requires Enabled(s, e)
    ensures |Step(s, e).executors| == |s.executors|
  {
  }

  lemma OwnStepKeepsExecutor(s: State, e: Event)
    requires OfExecutor(e) && Enabled(s, e) && ExecutorOk(s, s.executors[e.x])
    ensures ExecutorOk(Step(s, e), Step(s, e).executors[e.x])
  {
  }

  lemma OtherExecutorKeepsExecutor(s: State, e: Event, i: nat)
    requires OfExecutor(e) && Enabled(s, e) && i < |s.executors| && i != e.x
    requires ExecutorOk(s, s.executors[i]) && ExecutorOk(s, s.executors[e.x]) && DistinctClaims(s, i, e.x)
    ensures |Step(s, e).executors| == |s.executors| && ExecutorOk(Step(s, e), Step(s, e).executors[i])
  {
  }

  lemma CancelKeepsExecutor(s: State, run: string, i: nat)
    requires i < |s.executors| && ExecutorOk(s, s.executors[i])
    ensures ExecutorOk(Step(s, CancelContext(run)), Step(s, CancelContext(run)).executors[i])
  {
  }

  lemma FinishKeepsExecutor(s: State, run: string, i: nat)
    requires i < |s.executors| && ExecutorOk(s, s.executors[i]) && run in s.closing
    ensures ExecutorOk(Step(s, FinishSlot(run)), Step(s, FinishSlot(run)).executors[i])
  {
  }

  lemma OutsideKeepsExecutor(s: State, e: Event, i: nat)
    requires !OfExecutor(e) && Enabled(s, e) && i < |s.executors| && ExecutorOk(s, s.executors[i])
    ensures |Step(s, e).executors| == |s.executors| && ExecutorOk(Step(s, e), Step(s, e).executors[i])
  {
    if e.CancelContext? {
      CancelKeepsExecutor(s, e.run, i);
    } else if e.FinishSlot? {
      FinishKeepsExecutor(s, e.run, i);
    }
  }

  lemma OwnStepKeepsClaims(s: State, e: Event, i: nat, j: nat)
    requires OfExecutor(e) && Enabled(s, e) && i < |s.executors| && j < |s.executors|
    requires ExecutorOk(s, s.executors[i]) && ExecutorOk(s, s.executors[j]) && DistinctClaims(s, i, j)
    ensures |Step(s, e).executors| == |s.executors| && DistinctClaims(Step(s, e), i, j)
  {
  }

  lemma OutsideKeepsClaims(s: State, e: Event, i: nat, j: nat)
    requires !OfExecutor(e) && Enabled(s, e) && i < |s.executors| && j < |s.executors| && DistinctClaims(s, i, j)
    ensures |Step(s, e).executors| == |s.executors| && DistinctClaims(Step(s, e), i, j)
  {
  }

  lemma StepKeepsInv(s: State, e: Event)
    requires Inv(s) && Enabled(s, e)
    ensures Inv(Step(s, e))
  {
    forall i | 0 <= i < |Step(s, e).executors| ensures ExecutorOk(Step(s, e), Step(s, e).executors[i]) {
      SameExecutors(s, e);
      if !OfExecutor(e) {
        OutsideKeepsExecutor(s, e, i);
      } else if i == e.x {
        OwnStepKeepsExecutor(s, e);
      } else {
        OtherExecutorKeepsExecutor(s, e, i);
      }
    }
    forall i, j | 0 <= i < |Step(s, e).executors| && 0 <= j < |Step(s, e).executors|
      ensures DistinctClaims(Step(s, e), i, j)
    {
      SameExecutors(s, e);
      if OfExecutor(e) { OwnStepKeepsClaims(s, e, i, j); } else { OutsideKeepsClaims(s, e, i, j); }
    }
  }

  lemma {:induction false} RunKeepsInv(states: seq<State>, events: seq<Event>, k: nat)
    requires IsRun(states, events) && k <= |events|
    ensures Inv(states[k])
  {
    if k > 0 {
      RunKeepsInv(states, events, k - 1);
      assert StepOf(states, events, k - 1);
      StepKeepsInv(states[k - 1], events[k - 1]);
    }
  }

  // ---------------------------------------------------------------------------
  // Exclusivity
  // ---------------------------------------------------------------------------

  /** In every interleaving, whatever is written to the run store: the same run never executes twice at
      once, and of all executors that were not displaced at most one holds the session. */
  lemma AtMostOneExecutes(states: seq<State>, events: seq<Event>, k: nat, x: nat, y: nat)
    requires IsRun(states, events) && k <= |events|
    requires x < |states[k].executors| && y < |states[k].executors| && x != y
    requires HoldsSlot(states[k].executors[x]) && HoldsSlot(states[k].executors[y])
    ensures states[k].executors[x].run != states[k].executors[y].run
    ensures states[k].executors[x].flags.displaced || states[k].executors[y].flags.displaced
  {
    RunKeepsInv(states, events, k);
    var s := states[k];
    assert ExecutorOk(s, s.executors[x]) && ExecutorOk(s, s.executors[y]) && DistinctClaims(s, x, y);
  }

  /** Exclusivity of work, in every interleaving and for every content of the run store: of two executors
      that hold the session one has a cancelled context, or registered it while a finalization of its own
      run was under way. */
  lemma OneLiveExecutor(states: seq<State>, events: seq<Event>, k: nat, x: nat, y: nat)
    requires IsRun(states, events) && k <= |events|
    requires x < |states[k].executors| && y < |states[k].executors| && x != y
    requires HoldsSlot(states[k].executors[x]) && HoldsSlot(states[k].executors[y])
    ensures var a, b := states[k].executors[x].flags, states[k].executors[y].flags;
            !a.live || !b.live || a.late || b.late
  {
    AtMostOneExecutes(states, events, k, x, y);
    RunKeepsInv(states, events, k);
    var s := states[k];
    assert ExecutorOk(s, s.executors[x]) && ExecutorOk(s, s.executors[y]);
  }

  /** While a run executes with its slot, another executor's claim succeeds if and only if its run is
      queued in the store, and only an executor that was displaced can get that far; it goes on to load the
      session only if its context is live, and then it registered late. */
  lemma OnlyDisplacedExecutorsReachTheClaim(states: seq<State>, events: seq<Event>, k: nat, x: nat)
    requires IsRun(states, events) && k < |events|
    requires x < |states[k].executors| && HoldsSlot(states[k].executors[x]) && !states[k].executors[x].flags.displaced
    requires events[k].Admit? && events[k].x != x
    ensures events[k].x < |states[k].executors| == |states[k + 1].executors|
    ensures states[k].executors[events[k].x].Started?
    ensures
      var y := states[k].executors[events[k].x];
      && y.flags.displaced && (y.flags.live ==> y.flags.late)
      && y.run != states[k].executors[x].run
      && (states[k + 1].executors[events[k].x].Executing? <==> IsQueued(states[k], y.run))
  {
    assert StepOf(states, events, k);
    AtMostOneExecutes(states, events, k, x, events[k].x);
    RunKeepsInv(states, events, k);
    assert ExecutorOk(states[k], states[k].executors[events[k].x]);
  }

  /** The discipline of finalization: a terminal status is never overwritten, and a slot is finished only
      after the terminal status is stored, or when no executor of that run holds it. Cancelling and
      superseding meet the former; a background failure is marked by the dispatcher that ran the run's
      executor, after it returned. */
  ghost predicate Disciplined(s: State, e: Event) {
    && (e.WriteStatus? && e.run in s.status && Terminal(s.status[e.run]) ==> Terminal(e.status))
    && (e.FinishSlot? ==> (e.run in s.status && Terminal(s.status[e.run])) || NobodyHolds(s, e.run))
  }

  ghost predicate NobodyHolds(s: State, run: string) {
    forall i :: 0 <= i < |s.executors| && HoldsSlot(s.executors[i]) ==> s.executors[i].run != run
  }

  ghost predicate IsDisciplinedRun(states: seq<State>, events: seq<Event>) {
    IsRun(states, events) && forall i :: 0 <= i < |events| ==> Disciplined(states[i], events[i])
  }

  /** An executor is displaced only after it started, and then its run is terminal. */
  ghost predicate DisplacedIsTerminal(s: State, p: Executor) {
    && (p.Registered? ==> !p.flags.displaced)
    && (HoldsSlot(p) && p.flags.displaced ==> p.run in s.status && Terminal(s.status[p.run]))
  }

  ghost predicate DisplacedAreTerminal(s: State) {
    forall i :: 0 <= i < |s.executors| ==> DisplacedIsTerminal(s, s.executors[i])
  }

  lemma ExecutorsKeepTerminal(s: State, e: Event, i: nat)
    requires OfExecutor(e) && Enabled(s, e) && i < |s.executors|
    requires DisplacedIsTerminal(s, s.executors[i])
    ensures |Step(s, e).executors| == |s.executors| && DisplacedIsTerminal(Step(s, e), Step(s, e).executors[i])
  {
  }

  lemma OutsideKeepsTerminal(s: State, e: Event, i: nat)
    requires !OfExecutor(e) && Enabled(s, e) && i < |s.executors| && Disciplined(s, e)
    requires DisplacedIsTerminal(s, s.executors[i])
    ensures |Step(s, e).executors| == |s.executors| && DisplacedIsTerminal(Step(s, e), Step(s, e).executors[i])
  {
  }

  lemma {:induction false} DisplacedStayTerminal(states: seq<State>, events: seq<Event>, k: nat)
    requires IsDisciplinedRun(states, events) && k <= |events|
    ensures DisplacedAreTerminal(states[k])
  {
    if k > 0 {
      DisplacedStayTerminal(states, events, k - 1);
      var s, e := states[k - 1], events[k - 1];
      assert StepOf(states, events, k - 1) && Disciplined(s, e);
      forall i | 0 <= i < |states[k].executors| ensures DisplacedIsTerminal(states[k], states[k].executors[i]) {
        SameExecutors(s, e);
        if OfExecutor(e) { ExecutorsKeepTerminal(s, e, i); } else { OutsideKeepsTerminal(s, e, i); }
      }
    }
  }

  /** Exclusivity of claims over all disciplined runs: from a run's successful claim until its own finish, or
      a finalization of that run that finishes the queue, no other run of the session can be claimed. */
  lemma NoOtherRunIsClaimed(states: seq<State>, events: seq<Event>, k: nat, x: nat)
    requires IsDisciplinedRun(states, events) && k < |events|
    requires x < |states[k].executors| && HoldsSlot(states[k].executors[x]) && !states[k].executors[x].flags.displaced
    requires events[k].Admit? && events[k].x != x
    ensures events[k].x < |states[k + 1].executors| && states[k + 1].executors[events[k].x].Undoing?
    ensures states[k + 1].queue == states[k].queue && states[k + 1].status == states[k].status
  {
    OnlyDisplacedExecutorsReachTheClaim(states, events, k, x);
    DisplacedStayTerminal(states, events, k);
    assert StepOf(states, events, k);
    assert DisplacedIsTerminal(states[k], states[k].executors[events[k].x]);
  }

  /** Undoing a failed claim never takes the slot from the run that holds it. */
  lemma UndoKeepsTheHolder(states: seq<State>, events: seq<Event>, k: nat, x: nat)
    requires IsRun(states, events) && k < |events|
    requires x < |states[k].executors| && HoldsSlot(states[k].executors[x]) && !states[k].executors[x].flags.displaced
    requires !(OfExecutor(events[k]) && events[k].x == x)
    requires !(events[k].FinishSlot? && events[k].run == states[k].executors[x].run)
    ensures states[k + 1].queue.active == states[k].executors[x].run
    ensures x < |states[k + 1].executors| && HoldsSlot(states[k + 1].executors[x])
    ensures !states[k + 1].executors[x].flags.displaced
  {
    RunKeepsInv(states, events, k);
    RunKeepsInv(states, events, k + 1);
    assert StepOf(states, events, k);
    assert ExecutorOk(states[k + 1], states[k + 1].executors[x]);
  }

  /** An executor that ends its own work frees the session: no run is active, its run waits nowhere, all others
      wait where they did, and any of them can start. */
  lemma OwnFinishFreesTheSlot(states: seq<State>, events: seq<Event>, k: nat)
    requires IsRun(states, events) && k < |events| && (events[k].Finish? || events[k].Yield?)
    requires events[k].x < |states[k].executors|
    requires var p := states[k].executors[events[k].x]; HoldsSlot(p) && !p.flags.displaced
    ensures
      var run, q, q' := states[k].executors[events[k].x].run, states[k].queue, states[k + 1].queue;
      && q.active == run && q'.active == ""
      && IsSubsequence(q'.queued, q.queued)
      && (forall other :: other in q'.queued <==> other in q.queued && other != run)
      && (forall other :: Coordinator.Started(q', other).Some?)
  {
    RunKeepsInv(states, events, k);
    assert StepOf(states, events, k);
    var p := states[k].executors[events[k].x];
    assert ExecutorOk(states[k], p);
    FinishedIsGone(states[k].queue, p.run);
  }

  // ---------------------------------------------------------------------------
  // Claims
  // ---------------------------------------------------------------------------

  ghost predicate ClaimedBy(s: State, run: string, i: int) {
    0 <= i < |s.executors| && HasClaim(s.executors[i]) && s.executors[i].run == run
  }

  /** Nothing stays claimed without an executor that holds the claim. */
  ghost predicate ClaimsAreHeld(s: State) {
    forall run :: run in s.executing ==> exists i :: ClaimedBy(s, run, i)
  }

  lemma OutsideKeepsClaimant(s: State, e: Event, run: string, i: int)
    requires Enabled(s, e) && !OfExecutor(e) && ClaimedBy(s, run, i)
    ensures ClaimedBy(Step(s, e), run, i)
  {
  }

  lemma OwnStepKeepsClaimant(s: State, e: Event, run: string, i: int)
    requires Enabled(s, e) && OfExecutor(e) && ClaimedBy(s, run, i) && run in Step(s, e).executing
    ensures ClaimedBy(Step(s, e), run, i)
  {
  }

  lemma NewClaimIsHeld(s: State, e: Event, run: string)
    requires Enabled(s, e) && run !in s.executing && run in Step(s, e).executing
    ensures OfExecutor(e) && ClaimedBy(Step(s, e), run, e.x)
  {
  }

  lemma StepKeepsClaimsHeld(s: State, e: Event)
    requires Enabled(s, e) && ClaimsAreHeld(s)
    ensures ClaimsAreHeld(Step(s, e))
  {
    var t := Step(s, e);
    forall run | run in t.executing ensures exists i :: ClaimedBy(t, run, i) {
      if run in s.executing {
        var i :| ClaimedBy(s, run, i);
        if OfExecutor(e) { OwnStepKeepsClaimant(s, e, run, i); } else { OutsideKeepsClaimant(s, e, run, i); }
      } else {
        NewClaimIsHeld(s, e, run);
      }
    }
  }

  lemma {:induction false} RunHoldsClaims(states: seq<State>, events: seq<Event>, k: nat)
    requires IsRun(states, events) && k <= |events|
    ensures ClaimsAreHeld(states[k])
  {
    if k > 0 {
      RunHoldsClaims(states, events, k - 1);
      assert StepOf(states, events, k - 1);
      StepKeepsClaimsHeld(states[k - 1], events[k - 1]);
    }
  }

  /** In every interleaving an executor is turned away at its claim exactly when another executor is at work on
      the same run at that moment. */
  lemma TurnedAwayIff(states: seq<State>, events: seq<Event>, k: nat)
    requires IsRun(states, events) && k < |events| && events[k].Claim?
    ensures events[k].x < |states[k].executors| == |states[k + 1].executors| && !states[k].executors[events[k].x].Done?
    ensures states[k + 1].executors[events[k].x].Done? <==>
            exists i :: ClaimedBy(states[k], states[k].executors[events[k].x].run, i)
  {
    RunKeepsInv(states, events, k);
    RunHoldsClaims(states, events, k);
    assert StepOf(states, events, k);
    if i :| ClaimedBy(states[k], states[k].executors[events[k].x].run, i) {
      assert ExecutorOk(states[k], states[k].executors[i]);
    }
  }

  /** The table of status changes, read by where it leads. */
  lemma ReachableFrom(from: Status)
    ensures ValidTransition(from, Queued) <==> from == WaitingApproval
    ensures ValidTransition(from, WaitingInput) <==> from == Queued || from == Running
    ensures ValidTransition(from, WaitingApproval) <==> from == Queued || from == Running
    ensures ValidTransition(from, Streaming) <==> from == Running
    ensures ValidTransition(from, Running) <==> !Terminal(from) && from != Running
    ensures ValidTransition(from, Cancelled) <==> !Terminal(from)
    ensures forall to :: to == Completed || to == Failed ==>
              (ValidTransition(from, to) <==> from == Running || from == WaitingApproval || from == Streaming)
  {
  }

  /** Cancelling satisfies the discipline: from every status it leaves the run in a terminal one. */
  lemma CancellingIsTerminal(from: Status)
    ensures Terminal(FinalStatus(from, Cancelled))
    ensures Terminal(FinalStatus(from, Failed)) <==> !from.Queued? && !from.WaitingInput?
  {
  }

  // ---------------------------------------------------------------------------
  // Both conditions are needed
  // ---------------------------------------------------------------------------

  lemma ExtendRun(before: seq<State>, events: seq<Event>, e: Event, t: State) returns (states: seq<State>)
    requires IsRun(before, events) && StepTo(before[|events|], e, t)
    ensures IsRun(states, events + [e]) && states[|events| + 1] == t
  {
    states := before + [t];
    var events' := events + [e];
    forall i | 0 <= i < |events'| ensures StepOf(states, events', i) {
      if i < |events| { assert StepOf(before, events, i); }
    }
  }

  /** Three consecutive steps. */
  ghost predicate Steps(s: State, es: seq<Event>, ts: seq<State>) {
    && |es| == 3 && |ts| == 3
    && StepTo(s, es[0], ts[0]) && StepTo(ts[0], es[1], ts[1]) && StepTo(ts[1], es[2], ts[2])
  }

  lemma ExtendByThree(before: seq<State>, events: seq<Event>, es: seq<Event>, ts: seq<State>)
    returns (states: seq<State>, all: seq<Event>)
    requires IsRun(before, events) && Steps(before[|events|], es, ts)
    ensures IsRun(states, all) && states[|all|] == ts[2]
  {
    states := ExtendRun(before, events, es[0], ts[0]);
    states := ExtendRun(states, events + [es[0]], es[1], ts[1]);
    states := ExtendRun(states, events + [es[0]] + [es[1]], es[2], ts[2]);
    all := events + [es[0]] + [es[1]] + [es[2]];
  }

  /** Two queued runs; only "b" has an executor under way. */
  ghost function Two(active: string, executing: set<string>, closing: multiset<string>, b: Executor): State {
    State(Queue(active, []), map["a" := Queued, "b" := Queued], executing, closing, [Fresh("a"), b])
  }

  lemma StartsB(closing: multiset<string>) returns (es: seq<Event>, ts: seq<State>)
    ensures Steps(Two("", {}, closing, Fresh("b")), es, ts)
    ensures ts[2] == Two("b", {"b"}, closing, Executor.Started("b", Flags(false, true, "b" in closing)))
  {
    es := [Claim(1), Register(1), Start(1)];
    var flags := Flags(false, true, "b" in closing);
    ts := [Two("", {"b"}, closing, Claimed("b")), Two("", {"b"}, closing, Registered("b", flags)),
           Two("b", {"b"}, closing, Executor.Started("b", flags))];
  }

  /** Finalizing "b" as failed is refused by the transition table, but the rest goes on. */
  lemma FinalizesB() returns (es: seq<Event>, ts: seq<State>)
    ensures Steps(Two("b", {"b"}, multiset{}, Executor.Started("b", Flags(false, true, false))), es, ts)
    ensures ts[2] == Two("", {"b"}, multiset{}, Executor.Started("b", Flags(true, false, false)))
  {
    es := [Finalize("b", Failed), CancelContext("b"), FinishSlot("b")];
    ts := [Two("b", {"b"}, multiset{}, Executor.Started("b", Flags(false, true, false))),
           Two("b", {"b"}, multiset{"b"}, Executor.Started("b", Flags(false, false, false))),
           Two("", {"b"}, multiset{}, Executor.Started("b", Flags(true, false, false)))];
  }

  lemma BeginsToFinalizeB()
    ensures var s := Two("", {}, multiset{}, Fresh("b"));
            StepTo(s, Finalize("b", Failed), s) && StepTo(s, CancelContext("b"), Two("", {}, multiset{"b"}, Fresh("b")))
  {
  }

  lemma EndsToFinalizeB()
    ensures StepTo(Two("b", {"b"}, multiset{"b"}, Executor.Started("b", Flags(false, true, true))), FinishSlot("b"),
                   Two("", {"b"}, multiset{}, Executor.Started("b", Flags(true, true, true))))
  {
  }

  /** "a" then starts in the free slot and its claim succeeds. */
  lemma AdmitsA(b: Executor) returns (es: seq<Event>, ts: seq<State>, e: Event, t: State)
    ensures Steps(Two("", {"b"}, multiset{}, b), es, ts) && StepTo(ts[2], e, t)
    ensures t == State(Queue("a", []), map["a" := Running, "b" := Queued], {"b", "a"}, multiset{},
                       [Executing("a", Flags(false, true, false)), b])
  {
    var queued, flags := map["a" := Queued, "b" := Queued], Flags(false, true, false);
    es, e := [Claim(0), Register(0), Start(0)], Admit(0);
    ts := [State(Queue("", []), queued, {"b", "a"}, multiset{}, [Claimed("a"), b]),
           State(Queue("", []), queued, {"b", "a"}, multiset{}, [Registered("a", flags), b]),
           State(Queue("a", []), queued, {"b", "a"}, multiset{}, [Executor.Started("a", flags), b])];
    t := State(Queue("a", []), map["a" := Running, "b" := Queued], {"b", "a"}, multiset{}, [Executing("a", flags), b]);
  }

  /** Where the two executors end up: "a" inside the session, and "b" claimed, inside only if it is live. */
  ghost predicate BothClaimed(s: State, flags: Flags) {
    && s.status == map["a" := Running, "b" := Running]
    && s.executors == [Inside("a", Flags(false, true, false)),
                       if flags.live then Inside("b", flags) else Undoing("b", flags)]
  }

  lemma AdmitsB(s: State, flags: Flags) returns (es: seq<Event>, ts: seq<State>)
    requires s == State(Queue("a", []), map["a" := Running, "b" := Queued], {"b", "a"}, multiset{},
                        [Executing("a", Flags(false, true, false)), Executor.Started("b", flags)])
    ensures Steps(s, es, ts) && BothClaimed(ts[2], flags)
  {
    es := [Enter(0), Admit(1), Enter(1)];
    var a, both := Inside("a", Flags(false, true, false)), map["a" := Running, "b" := Running];
    ts := [s.(executors := [a, Executor.Started("b", flags)]),
           s.(status := both, executors := [a, Executing("b", flags)]),
           s.(status := both, executors := [a, if flags.live then Inside("b", flags) else Undoing("b", flags)])];
  }

  lemma AdmitsBoth(before: seq<State>, events: seq<Event>, flags: Flags) returns (states: seq<State>, all: seq<Event>)
    requires IsRun(before, events)
    requires before[|events|] == Two("", {"b"}, multiset{}, Executor.Started("b", flags))
    ensures IsRun(states, all) && BothClaimed(states[|all|], flags)
  {
    var es, ts, e, t := AdmitsA(Executor.Started("b", flags));
    states, all := ExtendByThree(before, events, es, ts);
    states := ExtendRun(states, all, e, t);
    all := all + [e];
    es, ts := AdmitsB(t, flags);
    states, all := ExtendByThree(states, all, es, ts);
  }

  lemma StartOfRun() returns (states: seq<State>)
    ensures IsRun(states, []) && states[0] == Two("", {}, multiset{}, Fresh("b"))
  {
    states := [Two("", {}, multiset{}, Fresh("b"))];
  }

  /** The discipline is needed for claims. Finalizing the queued run "b" as failed is refused by the
      transition table, so "b" stays queued while its slot is finished; "a" then starts and is claimed, and the
      pending claim of "b" succeeds as well. The context of "b" is cancelled, so it does not get inside. */
  lemma RefusedFinalizationClaimsTwice() returns (states: seq<State>, events: seq<Event>)
    ensures IsRun(states, events) && BothClaimed(states[|events|], Flags(true, false, false))
  {
    states := StartOfRun();
    events := [];
    var es, ts := StartsB(multiset{});
    states, events := ExtendByThree(states, events, es, ts);
    es, ts := FinalizesB();
    states, events := ExtendByThree(states, events, es, ts);
    states, events := AdmitsBoth(states, events, Flags(true, false, false));
  }

  lemma CancelsBeforeB() returns (states: seq<State>, events: seq<Event>)
    ensures IsRun(states, events) && states[|events|] == Two("", {}, multiset{"b"}, Fresh("b"))
  {
    states := StartOfRun();
    BeginsToFinalizeB();
    states := ExtendRun(states, [], Finalize("b", Failed), Two("", {}, multiset{}, Fresh("b")));
    events := [] + [Finalize("b", Failed)];
    states := ExtendRun(states, events, CancelContext("b"), Two("", {}, multiset{"b"}, Fresh("b")));
    events := events + [CancelContext("b")];
  }

  lemma StartsLate() returns (states: seq<State>, events: seq<Event>)
    ensures IsRun(states, events)
    ensures states[|events|] == Two("b", {"b"}, multiset{"b"}, Executor.Started("b", Flags(false, true, true)))
  {
    states, events := CancelsBeforeB();
    var es, ts := StartsB(multiset{"b"});
    states, events := ExtendByThree(states, events, es, ts);
  }

  lemma FinishesLate() returns (states: seq<State>, events: seq<Event>)
    ensures IsRun(states, events)
    ensures states[|events|] == Two("", {"b"}, multiset{}, Executor.Started("b", Flags(true, true, true)))
  {
    states, events := StartsLate();
    EndsToFinalizeB();
    var t := Two("", {"b"}, multiset{}, Executor.Started("b", Flags(true, true, true)));
    states := ExtendRun(states, events, FinishSlot("b"), t);
    events := events + [FinishSlot("b")];
  }

  /** Registering in time is needed for work. If the executor of "b" registers between the cancelling and the
      finishing of that refused finalization, its context is live and both runs get inside. */
  lemma LateExecutorGetsInside() returns (states: seq<State>, events: seq<Event>)
    ensures IsRun(states, events) && BothClaimed(states[|events|], Flags(true, true, true))
  {
    states, events := FinishesLate();
    states, events := AdmitsBoth(states, events, Flags(true, true, true));
  }

  // ---------------------------------------------------------------------------
  // The component: its execution claims, run store and queue
  // ---------------------------------------------------------------------------

  class Component {
    var executing: set<string>
    var status: map<string, Status>
    /** Runs whose executor has registered a context, and runs whose context was cancelled. */
    var registered: set<string>
    var cancelled: set<string>
    const queue: SessionQueue

    constructor ()
      ensures executing == {} && status == map[] && registered == {} && cancelled == {} && fresh(queue)
              && fresh(queue.buf)
      ensures queue.Valid() && queue.View() == Queue("", [])
    {
      executing := {};
      status := map[];
      registered := {};
      cancelled := {};
      queue := new SessionQueue();
    }

    /** The per-run claim; `claimed` is false when an executor of this run is already registered. */
    method ClaimRunExecution(run: string) returns (claimed: bool)
      modifies this`executing
      ensures claimed <==> run !in old(executing)
      ensures executing == old(executing) + {run}
    {
      if run in executing { return false; }
      executing := executing + {run};
      return true;
    }

    method ReleaseRunExecution(run: string)
      modifies this`executing
      ensures executing == old(executing) - {run}
    {
      executing := executing - {run};
    }

    /** The run store's compare-and-set. */
    method ClaimQueuedRun(run: string) returns (claimed: bool)
      modifies this`status
      ensures claimed <==> run in old(status) && old(status)[run] == Queued
      ensures status == if claimed then old(status)[run := Running] else old(status)
    {
      if run !in status || status[run] != Queued { return false; }
      status := status[run := Running];
      return true;
    }

    /** Start the queue slot, claim the run, and undo the start if the claim fails: what the Start,
        Admit and, on failure, Finish steps do when nobody runs in between. */
    method ClaimQueuedExecution(run: string) returns (claimed: bool)
      requires queue.Valid() && run != ""
      modifies this`status, queue, queue.buf
      ensures queue.Valid() && queue.buf == old(queue.buf)
      ensures
        var start := Coordinator.Started(old(queue.View()), run);
        && (claimed <==> start.Some? && run in old(status) && old(status)[run] == Queued)
        && status == (if claimed then old(status)[run := Running] else old(status))
        && queue.View() == (if start.None? then old(queue.View())
                            else if claimed then start.value else Finished(start.value, run))
      ensures claimed ==> queue.View().active == run
    {
      var refused := queue.StartRun(run);
      if refused { return false; }
      claimed := ClaimQueuedRun(run);
      if !claimed {
        queue.FinishRun(run);
      }
    }

    /** finalizeRun with its three effects in order; a run that is already terminal is left alone. */
    method FinalizeRun(run: string, to: Status, cancelContext: bool, finishQueue: bool) returns (done: bool)
      requires queue.Valid() && run != ""
      modifies this`status, this`registered, this`cancelled, queue, queue.buf
      ensures queue.Valid() && queue.buf == old(queue.buf)
      ensures done <==> run in old(status) && !Terminal(old(status)[run])
      ensures status == if done then old(status)[run := FinalStatus(old(status)[run], to)] else old(status)
      ensures done && finishQueue ==> queue.View() == Finished(old(queue.View()), run)
      ensures !(done && finishQueue) ==> queue.View() == old(queue.View())
      ensures var cancels := done && cancelContext && run in old(registered);
              && registered == (if cancels then old(registered) - {run} else old(registered))
              && cancelled == (if cancels then old(cancelled) + {run} else old(cancelled))
      ensures done && finishQueue ==> queue.View().active != run && run !in queue.View().queued
    {
      if run !in status || Terminal(status[run]) { return false; }
      status := status[run := FinalStatus(status[run], to)];
      if cancelContext && run in registered {
        registered, cancelled := registered - {run}, cancelled + {run};
      }
      if finishQueue {
        FinishedIsGone(queue.View(), run);
        queue.FinishRun(run);
      }
      return true;
    }
  }
}
