/** The session lease and optimistic commit protocol.

    Any number of clients share one stored session. A client that wants to change it takes the
    per-session lock, works on a clone and saves the clone; a staged turn snapshots the session
    under the lock, lets the lock go while the prompt is built, the model answers and tools run,
    and commits only if the stored revision is still the one it snapshotted. Every critical
    section is one step here, and the steps of all clients interleave freely. */
module Lease {
  import opened Options

  datatype Role = User | Assistant | Tool

  datatype Message = Message(role: Role, content: string, toolCalls: seq<string>, runID: string, taskID: string)

  /** `context` is what else the context engine keeps: summary, pinned facts and the like. */
  datatype Session = Session(messages: seq<Message>, context: string, revision: nat)

  function Append(s: Session, messages: seq<Message>): Session {
    s.(messages := s.messages + messages)
  }

  /** What Save leaves in the store, and in the caller's clone: the clone, one revision on. */
  function Saved(stored: Session, clone: Session): Session {
    clone.(revision := stored.revision + 1)
  }

  function AppendedByUser(stored: Session, message: Message): Session {
    Saved(stored, Append(stored, [message]))
  }

  /** Tool calls that were committed and whose results are still owed: the assistant message and
      the session as it was saved with that message last. */
  datatype Pending = Pending(calls: Message, base: Session)

  /** What a client holds locally. `clone` is the lease's working copy, `seed` the turn's snapshot. */
  datatype Turn =
    | Idle
    | Held(clone: Session, dirty: bool)
    | Building(seed: Session)
    | Rechecking(seed: Session, clone: Session)
    | Calling(seed: Session)
    | Answering(seed: Session, clone: Session)
    | RunningTools(pending: Pending)
    | Delivering(pending: Pending, clone: Session)
    | Parked(pending: Pending)

  datatype Reply = Text(text: Message) | ToolCalls(calls: Message) | Nothing

  datatype Action =
    | Acquire
    | Edit(messages: seq<Message>, context: string)
    | Save
    | Release
    | Begin(steer: seq<Message>)
    | Reload
    | Recheck(cancelled: bool, needsCompaction: bool, compacted: seq<Message>, context: string)
    | Answer(cancelled: bool, reply: Reply)
    | Park
    | Resume(waiting: bool)
    | Deliver(cancelled: bool, results: seq<Message>)
    | MergeBatch(messages: seq<Message>)
    | Abandon

  predicate HasLease(t: Turn) {
    t.Held? || t.Rechecking? || t.Answering? || t.Delivering?
  }

  /** The actions that first take the lock. */
  predicate TakesLock(a: Action) {
    a.Acquire? || a.Reload? || a.Resume?
  }

  /** The phase in which a client can take an action. */
  predicate Ready(t: Turn, a: Action) {
    match a
    case Acquire => t.Idle?
    case Edit(_, _) => t.Held?
    case Save => t.Held?
    case Release => t.Held?
    case Begin(_) => t.Held? && !t.dirty
    case Reload => t.Building? || t.Calling? || t.RunningTools?
    case Recheck(_, _, _, _) => t.Rechecking?
    case Answer(_, _) => t.Answering?
    case Park => t.RunningTools?
    case Resume(_) => t.Parked?
    case Deliver(_, _) => t.Delivering?
    case MergeBatch(_) => t.Rechecking?
    case Abandon => true
  }

  datatype Local = Local(stored: Session, turn: Turn)

  /** One critical section of one client: the stored session and the client's phase after it. */
  function Act(stored: Session, t: Turn, a: Action): Local
    requires Ready(t, a)
  {
    match a
    case Acquire => Local(stored, Held(stored, false))
    case Edit(messages, context) => Local(stored, Held(t.clone.(messages := messages, context := context), true))
    case Save =>
      var saved := Saved(stored, t.clone);
      Local(saved, Held(saved, false))
    case Release => Local(stored, Idle)
    case Begin(steer) => BeginTurn(stored, t.clone, steer)
    case Reload =>
      Local(stored,
            if t.Building? then Rechecking(t.seed, stored)
            else if t.Calling? then Answering(t.seed, stored)
            else Delivering(t.pending, stored))
    case Recheck(cancelled, needsCompaction, compacted, context) =>
      var after := t.clone.(messages := compacted, context := context);
      RecheckTurn(stored, t.seed, t.clone, cancelled, needsCompaction, after)
    case Answer(cancelled, reply) => CommitReply(stored, t.seed, t.clone, cancelled, reply)
    case Park => Local(stored, Parked(t.pending))
    case Resume(waiting) =>
      if stored.revision != t.pending.base.revision then Local(stored, Held(stored, false))
      else if waiting then Local(stored, t)
      else Local(stored, RunningTools(t.pending))
    case Deliver(cancelled, results) => DeliverResults(stored, t.pending, t.clone, cancelled, results)
    case MergeBatch(messages) => MergeResults(stored, t.seed, t.clone, messages)
    case Abandon => Local(stored, Idle)
  }

  /** Drained steering messages are appended and saved before the snapshot is taken. */
  function BeginTurn(stored: Session, clone: Session, steer: seq<Message>): Local {
    if steer == [] then Local(stored, Building(clone))
    else
      var saved := Saved(stored, Append(clone, steer));
      Local(saved, Building(saved))
  }

  predicate Conflicted(clone: Session, expected: nat, cancelled: bool) {
    cancelled || clone.revision != expected
  }

  /** After the prompt is built: give up, compact and give up, or go on to the model call. */
  function RecheckTurn(stored: Session, seed: Session, clone: Session,
                       cancelled: bool, needsCompaction: bool, compacted: Session): Local
  {
    if Conflicted(clone, seed.revision, cancelled) then Local(stored, Idle)
    else if needsCompaction && compacted != clone then Local(Saved(stored, compacted), Idle)
    else Local(stored, Calling(seed))
  }

  /** After the model answered: retry with the lease held, or commit what it said. */
  function CommitReply(stored: Session, seed: Session, clone: Session, cancelled: bool, reply: Reply): Local {
    if Conflicted(clone, seed.revision, cancelled) || reply.Nothing? then Local(stored, Held(clone, false))
    else if reply.Text? then
      var saved := Saved(stored, Append(clone, [reply.text]));
      Local(saved, Held(saved, false))
    else
      var saved := Saved(stored, Append(clone, [reply.calls]));
      Local(saved, RunningTools(Pending(reply.calls, saved)))
  }

  function DeliverResults(stored: Session, pending: Pending, clone: Session,
                          cancelled: bool, results: seq<Message>): Local
  {
    if Conflicted(clone, pending.base.revision, cancelled) then Local(stored, Held(clone, false))
    else
      var saved := Saved(stored, Append(clone, results));
      Local(saved, Held(saved, false))
  }

  /** After a parallel batch of detached tasks: retry, or append what the tasks produced. */
  function MergeResults(stored: Session, seed: Session, clone: Session, messages: seq<Message>): Local {
    if clone.revision != seed.revision || messages == [] then Local(stored, Held(clone, false))
    else
      var saved := Saved(stored, Append(clone, messages));
      Local(saved, Held(saved, false))
  }

  // ---------------------------------------------------------------------------
  // The system: one stored session, its lock and the clients
  // ---------------------------------------------------------------------------

  datatype State = State(stored: Session, holder: Option<nat>, clients: seq<Turn>)

  datatype Event = UserAppend(message: Message) | Client(c: nat, action: Action)

  predicate Enabled(s: State, e: Event) {
    match e
    case UserAppend(_) => s.holder.None?
    case Client(c, a) =>
      && c < |s.clients|
      && Ready(s.clients[c], a)
      && (TakesLock(a) ==> s.holder.None?)
  }

  function Step(s: State, e: Event): State
    requires Enabled(s, e)
  {
    match e
    case UserAppend(m) => s.(stored := AppendedByUser(s.stored, m))
    case Client(c, a) =>
      var r := Act(s.stored, s.clients[c], a);
      State(r.stored,
            if HasLease(r.turn) then Some(c)
            else if HasLease(s.clients[c]) then None
            else s.holder,
            s.clients[c := r.turn])
  }

  ghost predicate Initial(s: State) {
    s.holder.None? && forall c :: 0 <= c < |s.clients| ==> s.clients[c] == Idle
  }

  /** An interleaving: states[i] goes to states[i + 1] by events[i]. */
  ghost predicate IsRun(states: seq<State>, events: seq<Event>) {
    && |states| == |events| + 1
    && Initial(states[0])
    && forall i :: 0 <= i < |events| ==> StepOf(states, events, i)
  }

  ghost predicate StepOf(states: seq<State>, events: seq<Event>, i: int)
    requires 0 <= i < |events| < |states|
  {
    Enabled(states[i], events[i]) && states[i + 1] == Step(states[i], events[i])
  }

  // ---------------------------------------------------------------------------
  // The invariant
  // ---------------------------------------------------------------------------

  /** A snapshot is never newer than the store, and at the same revision it is the same transcript. */
  predicate SeedOk(stored: Session, seed: Session) {
    && seed.revision <= stored.revision
    && (seed.revision == stored.revision ==> seed == stored)
  }

  predicate PendingOk(stored: Session, p: Pending) {
    && SeedOk(stored, p.base)
    && p.base.messages != []
    && p.base.messages[|p.base.messages| - 1] == p.calls
  }

  predicate TurnOk(stored: Session, t: Turn) {
    match t
    case Idle => true
    case Held(clone, dirty) => clone.revision == stored.revision && (!dirty ==> clone == stored)
    case Building(seed) => SeedOk(stored, seed)
    case Rechecking(seed, clone) => SeedOk(stored, seed) && clone == stored
    case Calling(seed) => SeedOk(stored, seed)
    case Answering(seed, clone) => SeedOk(stored, seed) && clone == stored
    case RunningTools(p) => PendingOk(stored, p)
    case Delivering(p, clone) => PendingOk(stored, p) && clone == stored
    case Parked(p) => PendingOk(stored, p)
  }

  ghost predicate Inv(s: State) {
    && (s.holder.Some? ==> s.holder.value < |s.clients| && HasLease(s.clients[s.holder.value]))
    && forall c :: 0 <= c < |s.clients| ==> ClientOk(s, c)
  }

  ghost predicate ClientOk(s: State, c: int)
    requires 0 <= c < |s.clients|
  {
    && TurnOk(s.stored, s.clients[c])
    && (HasLease(s.clients[c]) ==> s.holder == Some(c))
  }

  /** A critical section writes at most once, and a write raises the revision by exactly one. */
  predicate AtMostOneWrite(before: Session, after: Session) {
    after == before || after.revision == before.revision + 1
  }

  lemma ActKeepsTurn(stored: Session, t: Turn, a: Action)
    requires Ready(t, a) && TurnOk(stored, t)
    ensures var r := Act(stored, t, a); TurnOk(r.stored, r.turn) && AtMostOneWrite(stored, r.stored)
  {
  }

  /** A client without the lease is not disturbed by another client's write. */
  lemma OthersKeepTurn(before: Session, after: Session, t: Turn)
    requires TurnOk(before, t) && AtMostOneWrite(before, after)
    requires after == before || !HasLease(t)
    ensures TurnOk(after, t)
  {
  }

  /** A client that wrote held the lock, before or after its critical section. */
  lemma WritersHoldTheLock(stored: Session, t: Turn, a: Action)
    requires Ready(t, a)
    requires Act(stored, t, a).stored != stored
    ensures HasLease(t)
  {
  }

  lemma StepKeepsInv(s: State, e: Event)
    requires Inv(s) && Enabled(s, e)
    ensures Inv(Step(s, e))
    ensures AtMostOneWrite(s.stored, Step(s, e).stored)
  {
    var s' := Step(s, e);
    match e {
      case UserAppend(_) =>
        forall d | 0 <= d < |s'.clients| ensures ClientOk(s', d) {
          assert ClientOk(s, d);
          OthersKeepTurn(s.stored, s'.stored, s.clients[d]);
        }
      case Client(c, a) =>
        assert ClientOk(s, c);
        ActKeepsTurn(s.stored, s.clients[c], a);
        if s'.stored != s.stored { WritersHoldTheLock(s.stored, s.clients[c], a); }
        forall d | 0 <= d < |s'.clients| ensures ClientOk(s', d) {
          assert ClientOk(s, d);
          if d != c {
            OthersKeepTurn(s.stored, s'.stored, s.clients[d]);
          }
        }
    }
  }

  lemma {:induction false} RunKeepsInv(states: seq<State>, events: seq<Event>, k: nat)
    requires IsRun(states, events) && k <= |events|
    ensures Inv(states[k])
  {
    if k > 0 {
      RunKeepsInv(states, events, k - 1);
      assert StepOf(states, events, k - 1);
      StepKeepsInv(states[k - 1], events[k - 1]);
    }
  }

  // ---------------------------------------------------------------------------
  // Whole-run results
  // ---------------------------------------------------------------------------

  /** In every interleaving the revision never goes back, and two moments with the same revision
      have the same stored session. */
  lemma {:induction false} EqualRevisionsEqualSessions(states: seq<State>, events: seq<Event>, i: nat, j: nat)
    requires IsRun(states, events) && i <= j <= |events|
    ensures states[i].stored.revision <= states[j].stored.revision
    ensures states[i].stored.revision == states[j].stored.revision ==> states[i].stored == states[j].stored
    decreases j
  {
    if i < j {
      EqualRevisionsEqualSessions(states, events, i, j - 1);
      RunKeepsInv(states, events, j - 1);
      assert StepOf(states, events, j - 1);
      StepKeepsInv(states[j - 1], events[j - 1]);
    }
  }

  function Committed(reply: Reply): seq<Message> {
    match reply
    case Text(m) => [m]
    case ToolCalls(m) => [m]
    case Nothing => []
  }

  /** A turn that commits does so on exactly the transcript of its snapshot; a turn that lost a race
      or was cancelled writes nothing and keeps the lease on the current session, to retry. */
  lemma CommitsOnItsSnapshot(states: seq<State>, events: seq<Event>, k: nat)
    requires IsRun(states, events) && k < |events|
    requires events[k].Client? && events[k].action.Answer? && !events[k].action.reply.Nothing?
    ensures Enabled(states[k], events[k])
    ensures
      var before, after := states[k], states[k + 1];
      var c, a := events[k].c, events[k].action;
      var seed := before.clients[c].seed;
      if !a.cancelled && before.stored.revision == seed.revision then
        && before.stored.messages == seed.messages
        && after.stored.messages == seed.messages + Committed(a.reply)
        && after.stored.revision == seed.revision + 1
      else
        && after.stored == before.stored
        && after.clients == before.clients[c := Held(before.stored, false)]
  {
    RunKeepsInv(states, events, k);
    assert StepOf(states, events, k);
    assert ClientOk(states[k], events[k].c);
  }

  predicate HasSeed(t: Turn) {
    t.Building? || t.Rechecking? || t.Calling? || t.Answering?
  }

  predicate Begins(e: Event, c: nat) {
    e.Client? && e.c == c && e.action.Begin?
  }

  /** Until the client begins another turn, its snapshot is the one taken at the last begin. */
  lemma {:induction false} SeedPersists(states: seq<State>, events: seq<Event>, c: nat, i: nat, k: nat)
    requires IsRun(states, events) && i < k <= |events|
    requires Begins(events[i], c)
    requires forall m :: i < m < k ==> !Begins(events[m], c)
    ensures c < |states[k].clients|
    ensures HasSeed(states[k].clients[c]) ==> states[k].clients[c].seed == states[i + 1].stored
    decreases k
  {
    assert StepOf(states, events, k - 1);
    if k == i + 1 {
      RunKeepsInv(states, events, i);
      assert ClientOk(states[i], c);
    } else {
      SeedPersists(states, events, c, i, k - 1);
      assert !Begins(events[k - 1], c);
    }
  }

  /** The store as it stood at states[i], untouched up to states[k]. */
  ghost predicate Undisturbed(states: seq<State>, i: nat, k: nat)
    requires k < |states|
  {
    forall m :: i <= m <= k ==> states[m].stored == states[i].stored
  }

  lemma SameRevisionMeansUndisturbed(states: seq<State>, events: seq<Event>, i: nat, k: nat)
    requires IsRun(states, events) && i <= k <= |events|
    ensures states[i].stored.revision == states[k].stored.revision <==> Undisturbed(states, i, k)
  {
    if states[i].stored.revision == states[k].stored.revision {
      forall m | i <= m <= k ensures states[m].stored == states[i].stored {
        EqualRevisionsEqualSessions(states, events, i, m);
        EqualRevisionsEqualSessions(states, events, m, k);
      }
    } else {
      assert states[k].stored != states[i].stored;
    }
  }

  /** A turn begun at step i and answered at step k commits if and only if the run was not cancelled
      and nobody wrote to the session in between; what it commits on is the transcript at step i. */
  lemma CommitsIffUndisturbed(states: seq<State>, events: seq<Event>, c: nat, i: nat, k: nat)
    requires IsRun(states, events) && i < k < |events|
    requires Begins(events[i], c)
    requires forall m :: i < m < k ==> !Begins(events[m], c)
    requires events[k].Client? && events[k].c == c && events[k].action.Answer? && !events[k].action.reply.Nothing?
    ensures
      var a := events[k].action;
      if !a.cancelled && Undisturbed(states, i + 1, k) then
        states[k + 1].stored.messages == states[i + 1].stored.messages + Committed(a.reply)
      else
        states[k + 1].stored == states[k].stored
  {
    assert StepOf(states, events, k);
    SeedPersists(states, events, c, i, k);
    CommitsOnItsSnapshot(states, events, k);
    SameRevisionMeansUndisturbed(states, events, i + 1, k);
  }

  /** A parallel batch dispatched at step i and merged at step k appends its messages to the transcript
      it was dispatched on if nobody wrote in between, and otherwise appends nothing and is retried. */
  lemma BatchLandsIffUndisturbed(states: seq<State>, events: seq<Event>, c: nat, i: nat, k: nat)
    requires IsRun(states, events) && i < k < |events|
    requires Begins(events[i], c)
    requires forall m :: i < m < k ==> !Begins(events[m], c)
    requires events[k].Client? && events[k].c == c && events[k].action.MergeBatch?
    ensures c < |states[k].clients|
    ensures
      if Undisturbed(states, i + 1, k) then
        states[k + 1].stored.messages == states[i + 1].stored.messages + events[k].action.messages
      else
        && states[k + 1].stored == states[k].stored
        && states[k + 1].clients == states[k].clients[c := Held(states[k].stored, false)]
  {
    assert StepOf(states, events, k);
    RunKeepsInv(states, events, k);
    assert ClientOk(states[k], c);
    SeedPersists(states, events, c, i, k);
    SameRevisionMeansUndisturbed(states, events, i + 1, k);
  }

  /** A turn begun at step i and checked again at step k calls the model if and only if the run was not
      cancelled, nobody wrote in between and compaction changes nothing. Otherwise the lease is let go, and
      the store changes only if compaction was needed and is then exactly what compaction made of it. */
  lemma CallsModelIffUndisturbed(states: seq<State>, events: seq<Event>, c: nat, i: nat, k: nat)
    requires IsRun(states, events) && i < k < |events|
    requires Begins(events[i], c)
    requires forall m :: i < m < k ==> !Begins(events[m], c)
    requires events[k].Client? && events[k].c == c && events[k].action.Recheck?
    ensures c < |states[k + 1].clients|
    ensures
      var before, after, a := states[k].stored, states[k + 1].stored, events[k].action;
      if a.cancelled || !Undisturbed(states, i + 1, k) then
        states[k + 1].clients[c] == Idle && after == before
      else if a.needsCompaction && (a.compacted != before.messages || a.context != before.context) then
        && states[k + 1].clients[c] == Idle
        && after == Session(a.compacted, a.context, before.revision + 1)
      else
        states[k + 1].clients[c] == Calling(states[i + 1].stored) && after == before
  {
    assert StepOf(states, events, k);
    RunKeepsInv(states, events, k);
    assert ClientOk(states[k], c);
    SeedPersists(states, events, c, i, k);
    SameRevisionMeansUndisturbed(states, events, i + 1, k);
  }

  // ---------------------------------------------------------------------------
  // Working on the session with the lease held
  // ---------------------------------------------------------------------------

  /** What a holder's plain steps do in every interleaving: acquiring hands out the stored session, an edit stays
      in the clone, and saving stores the clone one revision on; only saving writes. Giving the lease back frees
      the lock, and tools that wait for approval keep what they answer. */
  lemma HoldersStep(states: seq<State>, events: seq<Event>, c: nat, k: nat)
    requires IsRun(states, events) && k < |events| && events[k].Client? && events[k].c == c
    ensures c < |states[k].clients| == |states[k + 1].clients|
    ensures
      var before, after := states[k].clients[c], states[k + 1].clients[c];
      var stored, stored' := states[k].stored, states[k + 1].stored;
      match events[k].action
      case Acquire => after == Held(stored, false) && stored' == stored && states[k + 1].holder == Some(c)
      case Edit(messages, context) =>
        before.Held? && after == Held(Session(messages, context, stored.revision), true) && stored' == stored
      case Save =>
        && before.Held? && stored' == Session(before.clone.messages, before.clone.context, stored.revision + 1)
        && after == Held(stored', false)
      case Release => after == Idle && stored' == stored && states[k + 1].holder == None
      case Abandon =>
        && after == Idle && stored' == stored
        && states[k + 1].holder == if states[k].holder == Some(c) then None else states[k].holder
      case Park => before.RunningTools? && after == Parked(before.pending) && stored' == stored
      case _ => true
  {
    RunKeepsInv(states, events, k);
    assert StepOf(states, events, k);
    assert ClientOk(states[k], c);
  }

  // ---------------------------------------------------------------------------
  // Tool results
  // ---------------------------------------------------------------------------

  predicate HasPending(t: Turn) {
    t.RunningTools? || t.Delivering? || t.Parked?
  }

  /** The client commits tool calls: the answer that moves it to running them. */
  ghost predicate CommitsCalls(states: seq<State>, events: seq<Event>, c: nat, i: nat)
    requires i < |events| < |states|
  {
    && events[i].Client? && events[i].c == c < |states[i + 1].clients|
    && events[i].action.Answer? && events[i].action.reply.ToolCalls?
    && states[i + 1].clients[c].RunningTools?
  }

  predicate Answers(e: Event, c: nat) {
    e.Client? && e.c == c && e.action.Answer?
  }

  lemma {:induction false} PendingPersists(states: seq<State>, events: seq<Event>, c: nat, i: nat, k: nat)
    requires IsRun(states, events) && i < k <= |events|
    requires CommitsCalls(states, events, c, i)
    requires forall m :: i < m < k ==> !Answers(events[m], c)
    ensures c < |states[k].clients|
    ensures HasPending(states[k].clients[c]) ==>
              states[k].clients[c].pending == Pending(events[i].action.reply.calls, states[i + 1].stored)
    decreases k
  {
    assert StepOf(states, events, k - 1);
    if k > i + 1 {
      PendingPersists(states, events, c, i, k - 1);
      assert !Answers(events[k - 1], c);
    }
  }

  /** Results of calls committed at step i and delivered at step k, even after waiting for approval:
      they land if and only if the run was not cancelled and nobody wrote meanwhile, and then the
      transcript is the one the calls were committed on, the calls, and directly after them the results. */
  lemma ResultsFollowTheirCalls(states: seq<State>, events: seq<Event>, c: nat, i: nat, k: nat)
    requires IsRun(states, events) && i < k < |events|
    requires CommitsCalls(states, events, c, i)
    requires forall m :: i < m < k ==> !Answers(events[m], c)
    requires events[k].Client? && events[k].c == c && events[k].action.Deliver?
    ensures
      var a := events[k].action;
      if !a.cancelled && Undisturbed(states, i + 1, k) then
        states[k + 1].stored.messages == states[i].stored.messages + [events[i].action.reply.calls] + a.results
      else
        states[k + 1].stored == states[k].stored
  {
    assert StepOf(states, events, i) && StepOf(states, events, k);
    RunKeepsInv(states, events, i);
    RunKeepsInv(states, events, k);
    assert ClientOk(states[i], c) && ClientOk(states[k], c);
    PendingPersists(states, events, c, i, k);
    SameRevisionMeansUndisturbed(states, events, i + 1, k);
  }

  /** Tools that waited for approval are run at step k if and only if the approval came and nobody wrote
      since their calls were committed at step i. If somebody wrote, the calls are dropped and the turn is
      retried on the current session; the store is never changed by resuming. */
  lemma ToolsResumeIffUndisturbed(states: seq<State>, events: seq<Event>, c: nat, i: nat, k: nat)
    requires IsRun(states, events) && i < k < |events|
    requires CommitsCalls(states, events, c, i)
    requires forall m :: i < m < k ==> !Answers(events[m], c)
    requires events[k].Client? && events[k].c == c && events[k].action.Resume?
    ensures states[k + 1].stored == states[k].stored && c < |states[k + 1].clients|
    ensures
      var turn := states[k + 1].clients[c];
      var pending := Pending(events[i].action.reply.calls, states[i + 1].stored);
      if !Undisturbed(states, i + 1, k) then turn == Held(states[k].stored, false)
      else if events[k].action.waiting then turn == Parked(pending)
      else turn == RunningTools(pending)
  {
    assert StepOf(states, events, k);
    PendingPersists(states, events, c, i, k);
    SameRevisionMeansUndisturbed(states, events, i + 1, k);
  }

  // ---------------------------------------------------------------------------
  // No lost update
  // ---------------------------------------------------------------------------

  /** The turn goes on to save what compaction made of its clone. */
  predicate Compacts(t: Turn, a: Action) {
    && t.Rechecking? && a.Recheck? && a.needsCompaction
    && !Conflicted(t.clone, t.seed.revision, a.cancelled)
    && (a.compacted != t.clone.messages || a.context != t.clone.context)
  }

  /** What the step saves, if it saves a clone, extends what is stored. */
  predicate KeepsTranscript(s: State, e: Event)
    requires Enabled(s, e)
  {
    e.Client? ==>
      && (e.action.Save? ==> s.stored.messages <= s.clients[e.c].clone.messages)
      && (Compacts(s.clients[e.c], e.action) ==> s.stored.messages <= e.action.compacted)
  }

  /** Exactly the saves of clones that do not extend the store lose something. */
  lemma StepKeepsTranscriptIff(s: State, e: Event)
    requires Inv(s) && Enabled(s, e)
    ensures s.stored.messages <= Step(s, e).stored.messages <==> KeepsTranscript(s, e)
  {
    if e.Client? { assert ClientOk(s, e.c); }
  }

  ghost predicate KeepsAt(states: seq<State>, events: seq<Event>, i: int)
    requires 0 <= i < |events| < |states|
  {
    Enabled(states[i], events[i]) && KeepsTranscript(states[i], events[i])
  }

  lemma {:induction false} NoLostUpdate(states: seq<State>, events: seq<Event>, i: nat, j: nat)
    requires IsRun(states, events) && i <= j <= |events|
    requires forall m :: i <= m < j ==> KeepsAt(states, events, m)
    ensures states[i].stored.messages <= states[j].stored.messages
    decreases j
  {
    if i < j {
      NoLostUpdate(states, events, i, j - 1);
      RunKeepsInv(states, events, j - 1);
      assert StepOf(states, events, j - 1) && KeepsAt(states, events, j - 1);
      StepKeepsTranscriptIff(states[j - 1], events[j - 1]);
    }
  }

  /** No lost update: over every run, whatever the transcript held at any moment is a prefix of it ever
      after, if and only if every clone saved extends what is stored. */
  lemma NoLostUpdateIff(states: seq<State>, events: seq<Event>)
    requires IsRun(states, events)
    ensures (forall i, j :: 0 <= i <= j <= |events| ==> states[i].stored.messages <= states[j].stored.messages) <==>
            (forall m :: 0 <= m < |events| ==> KeepsAt(states, events, m))
  {
    if forall m :: 0 <= m < |events| ==> KeepsAt(states, events, m) {
      forall i, j | 0 <= i <= j <= |events| ensures states[i].stored.messages <= states[j].stored.messages {
        NoLostUpdate(states, events, i, j);
      }
    } else {
      var m :| 0 <= m < |events| && !KeepsAt(states, events, m);
      RunKeepsInv(states, events, m);
      assert StepOf(states, events, m);
      StepKeepsTranscriptIff(states[m], events[m]);
      assert !(states[m].stored.messages <= states[m + 1].stored.messages);
    }
  }

  /** Every user message ever accepted keeps its place in the transcript. */
  lemma UserMessagesStay(states: seq<State>, events: seq<Event>, i: nat, j: nat)
    requires IsRun(states, events) && i < j <= |events|
    requires events[i].UserAppend? && forall m :: i < m < j ==> KeepsAt(states, events, m)
    ensures |states[i].stored.messages| < |states[j].stored.messages|
    ensures states[j].stored.messages[|states[i].stored.messages|] == events[i].message
  {
    var before, after := states[i].stored.messages, states[j].stored.messages;
    assert before + [events[i].message] <= after by {
      assert StepOf(states, events, i);
      NoLostUpdate(states, events, i + 1, j);
    }
    assert (before + [events[i].message])[|before|] == events[i].message;
  }

  /** The steering messages drained when a turn begins are appended to the transcript, in their order and
      by one write; without any the store is left alone. The turn's snapshot is what is then stored. */
  lemma SteeringIsAppended(states: seq<State>, events: seq<Event>, c: nat, k: nat)
    requires IsRun(states, events) && k < |events|
    requires Begins(events[k], c)
    ensures states[k + 1].stored.messages == states[k].stored.messages + events[k].action.steer
    ensures states[k + 1].stored == states[k].stored <==> events[k].action.steer == []
    ensures states[k + 1].stored.context == states[k].stored.context
    ensures c < |states[k + 1].clients| && states[k + 1].clients[c] == Building(states[k + 1].stored)
  {
    RunKeepsInv(states, events, k);
    assert StepOf(states, events, k);
    assert ClientOk(states[k], c);
  }

  /** Every steering message keeps its place in the transcript. */
  lemma SteeringStays(states: seq<State>, events: seq<Event>, c: nat, i: nat, j: nat, n: nat)
    requires IsRun(states, events) && i < j <= |events|
    requires Begins(events[i], c) && n < |events[i].action.steer|
    requires forall m :: i < m < j ==> KeepsAt(states, events, m)
    ensures |states[i].stored.messages| + n < |states[j].stored.messages|
    ensures states[j].stored.messages[|states[i].stored.messages| + n] == events[i].action.steer[n]
  {
    var before, steer := states[i].stored.messages, events[i].action.steer;
    SteeringIsAppended(states, events, c, i);
    NoLostUpdate(states, events, i + 1, j);
    assert (before + steer)[|before| + n] == steer[n];
  }

  /** Holders change their clone only by appending; in particular nothing is compacted away. */
  predicate AppendsOnly(s: State, e: Event)
    requires Enabled(s, e)
  {
    e.Client? ==>
      && (e.action.Edit? ==> s.clients[e.c].clone.messages <= e.action.messages)
      && (Compacts(s.clients[e.c], e.action) ==> s.clients[e.c].clone.messages <= e.action.compacted)
  }

  ghost predicate AppendingStep(states: seq<State>, events: seq<Event>, i: int)
    requires 0 <= i < |events| < |states|
  {
    StepOf(states, events, i) && AppendsOnly(states[i], events[i])
  }

  /** A working copy keeps everything already stored. */
  ghost predicate ClonesExtendStore(s: State) {
    forall c :: 0 <= c < |s.clients| && s.clients[c].Held? ==> s.stored.messages <= s.clients[c].clone.messages
  }

  lemma StepAppends(s: State, e: Event)
    requires Inv(s) && ClonesExtendStore(s) && Enabled(s, e) && AppendsOnly(s, e)
    ensures ClonesExtendStore(Step(s, e)) && KeepsTranscript(s, e)
  {
    var s' := Step(s, e);
    if e.Client? {
      assert ClientOk(s, e.c);
      if s'.stored != s.stored { WritersHoldTheLock(s.stored, s.clients[e.c], e.action); }
    }
    forall d | 0 <= d < |s'.clients| && s'.clients[d].Held?
      ensures s'.stored.messages <= s'.clients[d].clone.messages
    {
      assert ClientOk(s, d);
    }
  }

  /** Holders that only append never save a clone that loses something. */
  lemma {:induction false} AppendingHoldersKeep(states: seq<State>, events: seq<Event>, k: nat)
    requires IsRun(states, events) && k <= |events|
    requires forall i :: 0 <= i < k ==> AppendingStep(states, events, i)
    ensures ClonesExtendStore(states[k])
    ensures forall i :: 0 <= i < k ==> KeepsAt(states, events, i)
  {
    if k > 0 {
      AppendingHoldersKeep(states, events, k - 1);
      RunKeepsInv(states, events, k - 1);
      assert AppendingStep(states, events, k - 1);
      StepAppends(states[k - 1], events[k - 1]);
    }
  }

  // ---------------------------------------------------------------------------
  // A transcript that loses a message
  // ---------------------------------------------------------------------------

  lemma ExtendRun(states: seq<State>, events: seq<Event>, e: Event)
    requires IsRun(states, events) && Enabled(states[|events|], e)
    ensures IsRun(states + [Step(states[|events|], e)], events + [e])
  {
    var states', events' := states + [Step(states[|events|], e)], events + [e];
    forall i | 0 <= i < |events'| ensures StepOf(states', events', i) {
      if i < |events| { assert StepOf(states, events, i); }
    }
  }

  lemma ExtendRunBy(before: seq<State>, events: seq<Event>, e: Event) returns (states: seq<State>)
    requires IsRun(before, events) && Enabled(before[|events|], e)
    ensures IsRun(states, events + [e]) && before <= states
    ensures states[|events| + 1] == Step(before[|events|], e)
  {
    ExtendRun(before, events, e);
    states := before + [Step(before[|events|], e)];
  }

  /** Compaction rewrites the transcript: here the only message, a user's, is compacted away. */
  lemma CompactionCanDropAUserMessage(m: Message) returns (states: seq<State>, events: seq<Event>)
    ensures IsRun(states, events) && |events| > 0 && events[0] == UserAppend(m)
    ensures states[1].stored.messages == [m] && states[|events|].stored.messages == []
  {
    var s0 := State(Session([], "", 0), None, [Idle]);
    states, events := [s0], [];
    states := ExtendRunBy(states, events, UserAppend(m));
    events := events + [UserAppend(m)];
    states := ExtendRunBy(states, events, Client(0, Acquire));
    events := events + [Client(0, Acquire)];
    states := ExtendRunBy(states, events, Client(0, Begin([])));
    events := events + [Client(0, Begin([]))];
    states := ExtendRunBy(states, events, Client(0, Reload));
    events := events + [Client(0, Reload)];
    states := ExtendRunBy(states, events, Client(0, Recheck(false, true, [], "")));
    events := events + [Client(0, Recheck(false, true, [], ""))];
  }
}
