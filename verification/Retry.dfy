/** Model calls: retry with back-off, one free retry without extended thinking, and fail-over to another model. */
module Retry {
  import opened Options
  import opened Text

  // ---------------------------------------------------------------------------
  // Configuration and policies; durations are in nanoseconds
  // ---------------------------------------------------------------------------

  const MILLISECOND: int := 1_000_000

  datatype Config = Config(maxAttempts: int, minDelay: int, maxDelay: int, jitter: real)

  function WithDefaults(c: Config): (r: Config)
    ensures r.maxAttempts > 0 && r.minDelay > 0 && r.maxDelay > 0 && 0.0 < r.jitter <= 1.0
    ensures c.maxAttempts > 0 && c.minDelay > 0 && c.maxDelay > 0 && 0.0 < c.jitter <= 1.0 ==> r == c
    ensures c == Config(0, 0, 0, 0.0) ==> r == Config(4, 500_000_000, 20_000_000_000, 0.2)
  {
    Config(
      if c.maxAttempts <= 0 then 4 else c.maxAttempts,
      if c.minDelay <= 0 then 500 * MILLISECOND else c.minDelay,
      if c.maxDelay <= 0 then 20_000 * MILLISECOND else c.maxDelay,
      if c.jitter <= 0.0 || c.jitter > 1.0 then 0.2 else c.jitter)
  }

  datatype Reason = RateLimit | Overloaded | Timeout | Unknown | Auth | AuthPermanent | Billing | ModelNotFound | Format

  datatype Policy = Policy(allowRetry: bool, allowFailover: bool, alignToRouterWindow: bool, minDelay: int)

  function PolicyFor(reason: Reason): Policy {
    match reason
    case RateLimit => Policy(true, true, true, 2_000 * MILLISECOND)
    case Overloaded => Policy(true, true, true, 1_200 * MILLISECOND)
    case Timeout => Policy(true, true, false, 750 * MILLISECOND)
    case Unknown => Policy(true, false, false, 1_000 * MILLISECOND)
    case Auth => Policy(false, true, false, 0)
    case AuthPermanent => Policy(false, true, false, 0)
    case Billing => Policy(false, true, false, 0)
    case ModelNotFound => Policy(false, true, false, 0)
    case Format => Policy(false, false, false, 0)
  }

  predicate IsThinkingRelated(reason: Reason) {
    reason.Timeout? || reason.Overloaded?
  }

  // ---------------------------------------------------------------------------
  // Delays
  // ---------------------------------------------------------------------------

  function Power(n: nat): real {
    if n == 0 then 1.0 else 2.0 * Power(n - 1)
  }

  function Clamp(delay: int, cfg: Config): int {
    var capped := if delay > cfg.maxDelay then cfg.maxDelay else delay;
    if capped < cfg.minDelay then cfg.minDelay else capped
  }

  /** Exponential back-off; `random` is the draw from [0, 1). */
  function RetryDelay(attempt: nat, cfg: Config, random: real): int
    requires attempt > 0
  {
    var base := cfg.minDelay as real * Power(attempt - 1);
    Clamp((base * (1.0 - cfg.jitter / 2.0 + random * cfg.jitter)).Floor, cfg)
  }

  function Graded(delay: int, cfg: Config, policy: Policy, cooldown: int): int {
    var graded := if policy.minDelay > delay then policy.minDelay else delay;
    var aligned := if policy.alignToRouterWindow && cooldown > graded then cooldown else graded;
    var capped := if cfg.maxDelay > 0 && aligned > cfg.maxDelay then cfg.maxDelay else aligned;
    if capped < cfg.minDelay then cfg.minDelay else capped
  }

  function EffectiveDelay(attempt: nat, cfg: Config, policy: Policy, cooldown: int, random: real): int
    requires attempt > 0
  {
    Graded(RetryDelay(attempt, cfg, random), cfg, policy, cooldown)
  }

  function Max(a: int, b: int): int { if a > b then a else b }

  function Min(a: int, b: int): int { if a < b then a else b }

  ghost predicate DelayInBounds(delay: int, cfg: Config) {
    cfg.minDelay <= delay <= Max(cfg.minDelay, cfg.maxDelay)
  }

  /** For every draw the sleep respects the configured bounds, and within them the failure's own minimum. */
  lemma DelayBounds(attempt: nat, cfg: Config, policy: Policy, cooldown: int, random: real)
    requires attempt > 0 && cfg.maxDelay > 0
    ensures var delay := EffectiveDelay(attempt, cfg, policy, cooldown, random);
            && DelayInBounds(delay, cfg)
            && delay >= Min(policy.minDelay, cfg.maxDelay)
            && (policy.alignToRouterWindow ==> delay >= Min(cooldown, cfg.maxDelay))
            && (delay > Max(policy.minDelay, Max(RetryDelay(attempt, cfg, random), cooldown)) ==> delay == cfg.minDelay)
  {
  }

  lemma PowerGrows(n: nat)
    ensures Power(n) >= 1.0
  {
  }

  lemma DelayGrows(attempt: nat, cfg: Config, random: real)
    requires attempt > 0 && cfg.minDelay > 0 && 0.0 < cfg.jitter <= 1.0 && 0.0 <= random < 1.0
    ensures RetryDelay(attempt, cfg, random) <= RetryDelay(attempt + 1, cfg, random)
  {
    var min, factor := cfg.minDelay as real, 1.0 - cfg.jitter / 2.0 + random * cfg.jitter;
    var base := min * Power(attempt - 1);
    PowerGrows(attempt - 1);
    ProductNonNegative(min, Power(attempt - 1));
    ProductNonNegative(random, cfg.jitter);
    ProductNonNegative(base, factor);
    assert min * Power(attempt) == 2.0 * base;
    assert (2.0 * base) * factor == 2.0 * (base * factor);
  }

  /** With the same draw a later attempt never sleeps less. */
  lemma BackoffGrows(attempt: nat, cfg: Config, policy: Policy, cooldown: int, random: real)
    requires attempt > 0 && cfg.minDelay > 0 && 0.0 < cfg.jitter <= 1.0 && 0.0 <= random < 1.0
    ensures EffectiveDelay(attempt, cfg, policy, cooldown, random) <=
            EffectiveDelay(attempt + 1, cfg, policy, cooldown, random)
  {
    DelayGrows(attempt, cfg, random);
  }

  lemma ProductNonNegative(a: real, b: real)
    requires a >= 0.0 && b >= 0.0
    ensures a * b >= 0.0
  {
  }

  // ---------------------------------------------------------------------------
  // The retry loop
  // ---------------------------------------------------------------------------

  datatype Reply = Ok | Err(reason: Reason)

  /** What happens around the n-th call: the model's reply, the router's choice, the clock and the random draw. */
  datatype World = World(
    reply: nat -> Reply, route: nat -> Option<string>, random: nat -> real, cooldown: nat -> int,
    cancelled: nat -> bool)

  datatype Failover = Failover(from: string, to: string)

  datatype Call = Call(model: string, extended: bool)

  datatype Outcome = Pending | Answered | Failed(reason: Reason) | Cancelled

  datatype State = State(
    attempts: nat, degraded: bool, model: string, extended: bool,
    failovers: seq<Failover>, calls: seq<Call>, sleeps: seq<int>, outcome: Outcome)

  function Start(model: string, extended: bool): State {
    State(0, false, model, extended, [], [], [], Pending)
  }

  /** failoverRetryModel: the model to move to, if the router names another one. */
  function Reroute(world: World, n: nat, current: string, reason: Reason): Option<string> {
    if Trim(current) == "" || reason.Format? then None
    else
      var choice := world.route(n);
      if choice.None? || Trim(choice.value) == "" || choice.value == current then None else choice
  }

  function Degrades(s: State, reason: Reason): bool {
    !s.degraded && s.extended && IsThinkingRelated(reason)
  }

  /** One pass through the loop. */
  function Step(cfg: Config, world: World, s: State): State {
    var n := |s.calls|;
    var called := s.(attempts := s.attempts + 1, calls := s.calls + [Call(s.model, s.extended)]);
    match world.reply(n)
    case Ok => called.(outcome := Answered)
    case Err(reason) =>
      var policy := PolicyFor(reason);
      var to := Reroute(world, n, s.model, reason);
      if Degrades(s, reason) then called.(attempts := s.attempts, degraded := true, extended := false)
      else if policy.allowFailover && to.Some? then
        called.(
          model := to.value,
          failovers := s.failovers + [Failover(s.model, to.value)],
          outcome := if called.attempts >= cfg.maxAttempts then Failed(reason) else Pending)
      else if !policy.allowRetry || called.attempts >= cfg.maxAttempts then called.(outcome := Failed(reason))
      else
        var delay := EffectiveDelay(called.attempts, cfg, policy, world.cooldown(n), world.random(n));
        called.(sleeps := s.sleeps + [delay], outcome := if world.cancelled(n) then Cancelled else Pending)
  }

  function Measure(cfg: Config, s: State): int {
    cfg.maxAttempts - s.attempts + (if s.degraded then 0 else 1)
  }

  lemma StepDescends(cfg: Config, world: World, s: State)
    ensures Measure(cfg, Step(cfg, world, s)) == Measure(cfg, s) - 1
  {
  }

  function Loop(cfg: Config, world: World, s: State): State
    decreases Measure(cfg, s)
  {
    if s.outcome.Pending? && s.attempts < cfg.maxAttempts then Loop(cfg, world, Step(cfg, world, s)) else s
  }

  // ---------------------------------------------------------------------------
  // What every run of the loop keeps
  // ---------------------------------------------------------------------------

  /** The fail-overs lead from `from` to `to`, each starting where the one before ended. */
  predicate IsChain(failovers: seq<Failover>, from: string, to: string) {
    if failovers == [] then from == to
    else
      var last := failovers[|failovers| - 1];
      last.to == to && last.from != to && IsChain(failovers[..|failovers| - 1], from, last.from)
  }

  /** From one call to the next the model stays, or moves by a recorded fail-over. */
  ghost predicate Moves(s: State, from: string, to: string) {
    from == to || Failover(from, to) in s.failovers
  }

  ghost predicate CallsFollowFailovers(s: State, model: string) {
    && (s.calls == [] ==> s.model == model)
    && (s.calls != [] ==> s.calls[0].model == model && Moves(s, s.calls[|s.calls| - 1].model, s.model))
    && forall i :: 0 < i < |s.calls| ==> Moves(s, s.calls[i - 1].model, s.calls[i].model)
  }

  ghost predicate OnlyErrors(world: World, n: nat) {
    forall i :: 0 <= i < n ==> world.reply(i).Err?
  }

  ghost predicate SleepsInBounds(s: State, cfg: Config) {
    forall i :: 0 <= i < |s.sleeps| ==> DelayInBounds(s.sleeps[i], cfg)
  }

  /** Extended thinking is given up at most once, and never resumed. */
  ghost predicate ThinkingOnlyDrops(s: State, extended: bool) {
    && (forall i, j :: 0 <= i < j < |s.calls| && s.calls[j].extended ==> s.calls[i].extended)
    && (forall i :: 0 <= i < |s.calls| && s.extended ==> s.calls[i].extended)
    && (s.extended <==> extended && !s.degraded) && (s.degraded ==> extended)
  }

  ghost predicate Budget(s: State, cfg: Config) {
    && s.attempts <= cfg.maxAttempts && (s.outcome.Pending? ==> s.attempts < cfg.maxAttempts)
    && |s.calls| == s.attempts + (if s.degraded then 1 else 0)
    && |s.sleeps| + |s.failovers| <= s.attempts
  }

  /** The last call's failure was answered by a fail-over. */
  ghost predicate Rerouted(s: State, world: World, reason: Reason)
    requires s.calls != []
  {
    PolicyFor(reason).allowFailover && Reroute(world, |s.calls| - 1, s.calls[|s.calls| - 1].model, reason).Some?
  }

  ghost predicate Settled(s: State, world: World) {
    match s.outcome
    case Pending => OnlyErrors(world, |s.calls|)
    case Answered => s.calls != [] && OnlyErrors(world, |s.calls| - 1) && world.reply(|s.calls| - 1).Ok?
                     && s.calls[|s.calls| - 1] == Call(s.model, s.extended)
    case Failed(reason) => s.calls != [] && OnlyErrors(world, |s.calls|) && world.reply(|s.calls| - 1) == Err(reason)
                           && (s.model != s.calls[|s.calls| - 1].model <==> Rerouted(s, world, reason))
    case Cancelled => OnlyErrors(world, |s.calls|)
  }

  ghost predicate Inv(cfg: Config, world: World, model: string, extended: bool, s: State) {
    && Budget(s, cfg) && Settled(s, world) && SleepsInBounds(s, cfg) && ThinkingOnlyDrops(s, extended)
    && IsChain(s.failovers, model, s.model) && CallsFollowFailovers(s, model)
  }

  lemma StepKeepsBudget(cfg: Config, world: World, s: State)
    requires Budget(s, cfg) && s.outcome.Pending?
    ensures Budget(Step(cfg, world, s), cfg)
    ensures Measure(cfg, Step(cfg, world, s)) == Measure(cfg, s) - 1
  {
  }

  lemma StepSettles(cfg: Config, world: World, s: State)
    requires Settled(s, world) && s.outcome.Pending?
    ensures Settled(Step(cfg, world, s), world)
  {
  }

  lemma StepKeepsThinking(cfg: Config, world: World, s: State, extended: bool)
    requires ThinkingOnlyDrops(s, extended)
    ensures ThinkingOnlyDrops(Step(cfg, world, s), extended)
  {
  }

  lemma StepKeepsSleeps(cfg: Config, world: World, s: State)
    requires SleepsInBounds(s, cfg) && cfg.maxDelay > 0
    ensures SleepsInBounds(Step(cfg, world, s), cfg)
  {
  }

  lemma StepKeepsChain(cfg: Config, world: World, model: string, s: State)
    requires IsChain(s.failovers, model, s.model)
    ensures IsChain(Step(cfg, world, s).failovers, model, Step(cfg, world, s).model)
  {
    var r := Step(cfg, world, s);
    if r.failovers != s.failovers {
      assert r.failovers[..|s.failovers|] == s.failovers;
    }
  }

  lemma StepFollowsFailovers(cfg: Config, world: World, model: string, s: State)
    requires CallsFollowFailovers(s, model)
    ensures CallsFollowFailovers(Step(cfg, world, s), model)
  {
    var r := Step(cfg, world, s);
    assert forall f :: f in s.failovers ==> f in r.failovers;
    forall i | 0 < i < |r.calls| ensures Moves(r, r.calls[i - 1].model, r.calls[i].model) {
      if i < |s.calls| { assert Moves(s, s.calls[i - 1].model, s.calls[i].model); }
    }
  }

  lemma StepKeepsInv(cfg: Config, world: World, model: string, extended: bool, s: State)
    requires Inv(cfg, world, model, extended, s) && s.outcome.Pending? && cfg.maxDelay > 0
    ensures Inv(cfg, world, model, extended, Step(cfg, world, s))
  {
    StepKeepsBudget(cfg, world, s);
    StepSettles(cfg, world, s);
    StepKeepsThinking(cfg, world, s, extended);
    StepKeepsSleeps(cfg, world, s);
    StepKeepsChain(cfg, world, model, s);
    StepFollowsFailovers(cfg, world, model, s);
  }

  lemma {:induction false} LoopKeepsInv(cfg: Config, world: World, model: string, extended: bool, s: State)
    requires Inv(cfg, world, model, extended, s) && cfg.maxDelay > 0
    ensures Inv(cfg, world, model, extended, Loop(cfg, world, s))
    ensures !Loop(cfg, world, s).outcome.Pending?
    decreases Measure(cfg, s)
  {
    if s.outcome.Pending? && s.attempts < cfg.maxAttempts {
      StepKeepsInv(cfg, world, model, extended, s);
      LoopKeepsInv(cfg, world, model, extended, Step(cfg, world, s));
    }
  }

  /** The promises of one retried call, for every behaviour of the model, the router and the clock. */
  lemma RetryIsBounded(config: Config, world: World, model: string, extended: bool)
    ensures var cfg := WithDefaults(config);
            var r := Loop(cfg, world, Start(model, extended));
            && 1 <= |r.calls| <= cfg.maxAttempts + 1
            && |r.sleeps| < cfg.maxAttempts
            && SleepsInBounds(r, cfg) && ThinkingOnlyDrops(r, extended)
            && IsChain(r.failovers, model, r.model) && CallsFollowFailovers(r, model)
            && (r.outcome.Answered? <==> world.reply(|r.calls| - 1).Ok?)
            && (r.outcome.Answered? ==> r.calls[|r.calls| - 1] == Call(r.model, r.extended))
            && (|r.calls| == cfg.maxAttempts + 1 ==> extended && !r.extended)
  {
    var cfg := WithDefaults(config);
    LoopKeepsInv(cfg, world, model, extended, Start(model, extended));
    SleepsAreBetweenAttempts(cfg, world, Start(model, extended));
    LoopCalls(cfg, world, Start(model, extended));
  }

  lemma {:induction false} SleepsAreBetweenAttempts(cfg: Config, world: World, s: State)
    requires cfg.maxAttempts > 0 && |s.sleeps| <= s.attempts && |s.sleeps| < cfg.maxAttempts
    ensures |Loop(cfg, world, s).sleeps| < cfg.maxAttempts
    decreases Measure(cfg, s)
  {
    if s.outcome.Pending? && s.attempts < cfg.maxAttempts {
      SleepsAreBetweenAttempts(cfg, world, Step(cfg, world, s));
    }
  }

  lemma {:induction false} LoopCalls(cfg: Config, world: World, s: State)
    ensures s.outcome.Pending? && s.attempts < cfg.maxAttempts ==> |Loop(cfg, world, s).calls| > |s.calls|
    ensures |Loop(cfg, world, s).calls| >= |s.calls|
    decreases Measure(cfg, s)
  {
    if s.outcome.Pending? && s.attempts < cfg.maxAttempts {
      LoopCalls(cfg, world, Step(cfg, world, s));
    }
  }

  /** The request names the model of the last call, unless that call's failure was answered by a fail-over
      that no attempt was left to use. */
  lemma RequestNamesTheLastModel(config: Config, world: World, model: string, extended: bool)
    ensures var r := Loop(WithDefaults(config), world, Start(model, extended));
            && r.calls != []
            && (r.outcome.Failed? ==>
                  (r.model == r.calls[|r.calls| - 1].model <==> !Rerouted(r, world, r.outcome.reason)))
  {
    var cfg := WithDefaults(config);
    LoopKeepsInv(cfg, world, model, extended, Start(model, extended));
    LoopCalls(cfg, world, Start(model, extended));
  }

  // ---------------------------------------------------------------------------
  // When a failure is followed by another call
  // ---------------------------------------------------------------------------

  /** The failures after which the same model may be called again. */
  predicate IsTransient(reason: Reason) {
    reason.RateLimit? || reason.Overloaded? || reason.Timeout? || reason.Unknown?
  }

  /** The call failed in a way that thinking may have caused, and thinking can still be given up. */
  predicate GivesUpThinking(world: World, i: nat, call: Call) {
    call.extended && (world.reply(i) == Err(Timeout) || world.reply(i) == Err(Overloaded))
  }

  /** The router names another model after the failed call `i`, for a failure that another model may not have. */
  predicate MovesOn(world: World, i: nat, call: Call) {
    && world.reply(i).Err? && world.reply(i) != Err(Unknown) && world.reply(i) != Err(Format)
    && Trim(call.model) != ""
    && world.route(i).Some? && Trim(world.route(i).value) != "" && world.route(i).value != call.model
  }

  /** Call `i` is followed by another: at once without thinking, which costs no attempt; or, while attempts are
      left, at once on another model, or after a transient failure and an undisturbed sleep. A run that asked for
      thinking and makes a call without it has had its free one. */
  predicate GoesOn(limit: int, world: World, extended: bool, i: nat, call: Call) {
    || GivesUpThinking(world, i, call)
    || (&& world.reply(i).Err?
        && i + 1 - (if extended && !call.extended then 1 else 0) < limit
        && (MovesOn(world, i, call) || (IsTransient(world.reply(i).reason) && !world.cancelled(i))))
  }

  function NextCall(world: World, i: nat, call: Call): Call {
    if GivesUpThinking(world, i, call) then Call(call.model, false)
    else if MovesOn(world, i, call) then Call(world.route(i).value, call.extended)
    else call
  }

  ghost predicate FollowsFrom(limit: int, world: World, extended: bool, calls: seq<Call>, i: nat)
    requires i < |calls|
  {
    && (i + 1 < |calls| <==> GoesOn(limit, world, extended, i, calls[i]))
    && (i + 1 < |calls| ==> calls[i + 1] == NextCall(world, i, calls[i]))
  }

  ghost predicate FollowSince(limit: int, world: World, extended: bool, calls: seq<Call>, from: nat) {
    forall i :: from <= i < |calls| ==> FollowsFrom(limit, world, extended, calls, i)
  }

  lemma StepGoesOn(cfg: Config, world: World, extended: bool, s: State)
    requires Budget(s, cfg) && ThinkingOnlyDrops(s, extended) && s.outcome.Pending?
    ensures var t, call := Step(cfg, world, s), Call(s.model, s.extended);
            && t.calls == s.calls + [call]
            && (t.outcome.Pending? <==> GoesOn(cfg.maxAttempts, world, extended, |s.calls|, call))
            && (t.outcome.Pending? ==> Call(t.model, t.extended) == NextCall(world, |s.calls|, call))
  {
  }

  lemma {:induction false} LoopFollows(cfg: Config, world: World, extended: bool, s: State)
    requires Budget(s, cfg) && ThinkingOnlyDrops(s, extended)
    ensures var r := Loop(cfg, world, s);
            && s.calls <= r.calls
            && (|s.calls| < |r.calls| <==> s.outcome.Pending?)
            && (s.outcome.Pending? ==> r.calls[|s.calls|] == Call(s.model, s.extended))
            && FollowSince(cfg.maxAttempts, world, extended, r.calls, |s.calls|)
    decreases Measure(cfg, s)
  {
    if s.outcome.Pending? {
      StepKeepsBudget(cfg, world, s);
      assert ThinkingOnlyDrops(Step(cfg, world, s), extended) by { StepKeepsThinking(cfg, world, s, extended); }
      LoopFollows(cfg, world, extended, Step(cfg, world, s));
      OneMoreFollows(cfg, world, extended, s, Loop(cfg, world, s).calls);
    }
  }

  lemma OneMoreFollows(cfg: Config, world: World, extended: bool, s: State, calls: seq<Call>)
    requires Budget(s, cfg) && ThinkingOnlyDrops(s, extended) && s.outcome.Pending?
    requires var t := Step(cfg, world, s);
             && t.calls <= calls
             && (|t.calls| < |calls| <==> t.outcome.Pending?)
             && (t.outcome.Pending? ==> calls[|t.calls|] == Call(t.model, t.extended))
             && FollowSince(cfg.maxAttempts, world, extended, calls, |t.calls|)
    ensures s.calls <= calls && |s.calls| < |calls| && calls[|s.calls|] == Call(s.model, s.extended)
    ensures FollowSince(cfg.maxAttempts, world, extended, calls, |s.calls|)
  {
    var t, n := Step(cfg, world, s), |s.calls|;
    StepGoesOn(cfg, world, extended, s);
    assert calls[n] == t.calls[n];
    assert FollowsFrom(cfg.maxAttempts, world, extended, calls, n);
  }

  /** The calls a run makes, for every behaviour of the model, the router and the clock: the first is the one
      asked for, and each is followed by another, and by which, exactly as the failures decide. */
  lemma CallsAreDecided(config: Config, world: World, model: string, extended: bool)
    ensures var calls := Loop(WithDefaults(config), world, Start(model, extended)).calls;
            var limit := if config.maxAttempts <= 0 then 4 else config.maxAttempts;
            && calls != [] && calls[0] == Call(model, extended)
            && FollowSince(limit, world, extended, calls, 0)
  {
    LoopFollows(WithDefaults(config), world, extended, Start(model, extended));
  }

  /** The sleep after a transient failure: the back-off, but at least the failure's own minimum and, for the two
      failures the router keeps a window for, at least that window; within the configured bounds. */
  lemma SleepIsGraded(attempt: nat, cfg: Config, reason: Reason, cooldown: int, random: real)
    requires attempt > 0 && cfg.maxDelay > 0 && IsTransient(reason)
    ensures
      var floor := (if reason.RateLimit? then 2_000 else if reason.Overloaded? then 1_200
                    else if reason.Timeout? then 750 else 1_000) * MILLISECOND;
      var wanted := Max(RetryDelay(attempt, cfg, random), floor);
      var window := if (reason.RateLimit? || reason.Overloaded?) then Max(wanted, cooldown) else wanted;
      EffectiveDelay(attempt, cfg, PolicyFor(reason), cooldown, random) == Max(cfg.minDelay, Min(cfg.maxDelay, window))
  {
  }

  /** Until it meets a bound the back-off doubles, up to the fraction of a nanosecond that is cut off. */
  lemma BackoffDoubles(attempt: nat, cfg: Config, random: real)
    requires attempt > 0 && cfg.minDelay < RetryDelay(attempt, cfg, random) < cfg.maxDelay
    requires cfg.minDelay < RetryDelay(attempt + 1, cfg, random) < cfg.maxDelay
    ensures var delay, next := RetryDelay(attempt, cfg, random), RetryDelay(attempt + 1, cfg, random);
            2 * delay <= next <= 2 * delay + 1
  {
    var min, factor := cfg.minDelay as real, 1.0 - cfg.jitter / 2.0 + random * cfg.jitter;
    var base := min * Power(attempt - 1);
    assert min * Power(attempt) == 2.0 * base;
    assert (2.0 * base) * factor == 2.0 * (base * factor);
  }

  /** Until it meets a bound the back-off lies within half the jitter of its exponential value, either way. */
  lemma JitterIsCentred(attempt: nat, cfg: Config, random: real)
    requires attempt > 0 && cfg.minDelay > 0 && 0.0 < cfg.jitter <= 1.0 && 0.0 <= random < 1.0
    requires cfg.minDelay < RetryDelay(attempt, cfg, random) < cfg.maxDelay
    ensures var base, delay := cfg.minDelay as real * Power(attempt - 1), RetryDelay(attempt, cfg, random) as real;
            base - base * (cfg.jitter / 2.0) - 1.0 < delay <= base + base * (cfg.jitter / 2.0)
  {
    var base, half := cfg.minDelay as real * Power(attempt - 1), cfg.jitter / 2.0;
    PowerGrows(attempt - 1);
    ProductNonNegative(cfg.minDelay as real, Power(attempt - 1));
    ProductNonNegative(random, cfg.jitter);
    ProductNonNegative(1.0 - random, cfg.jitter);
    var factor := 1.0 - cfg.jitter / 2.0 + random * cfg.jitter;
    assert (1.0 - random) * cfg.jitter == cfg.jitter - random * cfg.jitter;
    ProductNonNegative(base, factor - (1.0 - half));
    ProductNonNegative(base, 1.0 + half - factor);
    Spread(base, factor, half);
  }

  lemma Spread(base: real, factor: real, half: real)
    ensures base * (factor - (1.0 - half)) == base * factor - base + base * half
    ensures base * (1.0 + half - factor) == base + base * half - base * factor
  {
  }

  lemma FailedRunCanNameAnUntriedModel()
    ensures exists world: World ::
              var r := Loop(Config(1, 1, 1, 0.2), world, Start("a", false));
              r.outcome.Failed? && r.model == "b" && r.calls == [Call("a", false)]
  {
    var world := World(n => Err(Auth), n => Some("b"), n => 0.0, n => 0, n => false);
    var cfg, s := Config(1, 1, 1, 0.2), Start("a", false);
    assert Trim("a") == "a" && Trim("b") == "b";
    assert Reroute(world, 0, "a", Auth) == Some("b");
    var r := Step(cfg, world, s);
    assert r.attempts == 1 && r.model == "b" && r.outcome == Failed(Auth) && r.calls == [Call("a", false)];
    assert Loop(cfg, world, s) == r;
  }

  // ---------------------------------------------------------------------------
  // The request object
  // ---------------------------------------------------------------------------

  class ChatRequest {
    var model: string
    var extended: bool

    constructor (model: string, extended: bool)
      ensures this.model == model && this.extended == extended
    {
      this.model, this.extended := model, extended;
    }

    /** failoverRetryModel, for the failure of call `n`. */
    method FailoverRetryModel(world: World, n: nat, current: string, reason: Reason) returns (rerouted: bool)
      modifies this
      ensures rerouted <==> Reroute(world, n, current, reason).Some?
      ensures model == if rerouted then Reroute(world, n, current, reason).value else old(model)
      ensures extended == old(extended)
    {
      if Trim(current) == "" || reason.Format? { return false; }
      var choice := world.route(n);
      if choice.None? || Trim(choice.value) == "" || choice.value == current { return false; }
      model := choice.value;
      return true;
    }

    /** One pass through the loop; the request is updated in place. */
    method Attempt(cfg: Config, world: World, s: State) returns (r: State)
      requires s.model == model && s.extended == extended && s.outcome.Pending?
      modifies this
      ensures r == Step(cfg, world, s) && model == r.model && extended == r.extended
    {
      var n := |s.calls|;
      r := s.(attempts := s.attempts + 1, calls := s.calls + [Call(model, extended)]);
      var reply := world.reply(n);
      if reply.Ok? { return r.(outcome := Answered); }
      if !s.degraded && extended && IsThinkingRelated(reply.reason) {
        extended := false;
        return r.(degraded := true, extended := false, attempts := r.attempts - 1);
      }
      var policy, from, rerouted := PolicyFor(reply.reason), model, false;
      if policy.allowFailover { rerouted := FailoverRetryModel(world, n, from, reply.reason); }
      if rerouted {
        r := r.(model := model, failovers := s.failovers + [Failover(from, model)]);
        if r.attempts >= cfg.maxAttempts { r := r.(outcome := Failed(reply.reason)); }
        return;
      }
      if !policy.allowRetry || r.attempts >= cfg.maxAttempts { return r.(outcome := Failed(reply.reason)); }
      var delay := EffectiveDelay(r.attempts, cfg, policy, world.cooldown(n), world.random(n));
      r := r.(sleeps := s.sleeps + [delay]);
      if world.cancelled(n) { r := r.(outcome := Cancelled); }
    }

    /** retryModelCall. */
    method RetryModelCall(config: Config, world: World) returns (r: State)
      modifies this
      ensures r == Loop(WithDefaults(config), world, Start(old(model), old(extended)))
      ensures model == r.model && extended == r.extended
      ensures r.calls != [] && r.calls[0] == Call(old(model), old(extended))
      ensures var limit := if config.maxAttempts <= 0 then 4 else config.maxAttempts;
              FollowSince(limit, world, old(extended), r.calls, 0)
    {
      CallsAreDecided(config, world, model, extended);
      var cfg := WithDefaults(config);
      r := Start(model, extended);
      while r.attempts < cfg.maxAttempts && r.outcome.Pending?
        invariant r.model == model && r.extended == extended
        invariant Loop(cfg, world, r) == Loop(cfg, world, Start(old(model), old(extended)))
        decreases Measure(cfg, r)
      {
        StepDescends(cfg, world, r);
        r := Attempt(cfg, world, r);
      }
    }
  }
}
