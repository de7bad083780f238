/** The per-session run queue: one active run and the runs waiting behind it. */
module Coordinator {
  import opened Options
  import opened Sequences

  datatype Mode = Enqueue | Interrupt | Coalesce | Reject

  /** `active == ""` means that no run is active. */
  datatype Queue = Queue(active: string, queued: seq<string>)

  /** EnqueueSessionRun; None when the run is rejected. */
  function Enqueued(q: Queue, run: string, mode: Mode): Option<Queue> {
    if mode.Reject? && (q.active != "" || q.queued != []) then None
    else if mode.Interrupt? then Some(q.(queued := [run]))
    else if mode.Coalesce? && q.queued != [] then Some(q.(queued := q.queued[|q.queued| - 1 := run]))
    else Some(q.(queued := q.queued + [run]))
  }

  /** StartRun; None when another run is active. A run that is not at the head may start too: an
      approved run resumes ahead of the queue and keeps its place there, if it has one. */
  function Started(q: Queue, run: string): Option<Queue> {
    if q.active == run then Some(q)
    else if q.active != "" then None
    else if q.queued != [] && q.queued[0] == run then Some(Queue(run, q.queued[1..]))
    else Some(q.(active := run))
  }

  function Without(runs: seq<string>, run: string): seq<string> {
    if runs == [] then []
    else
      var rest := Without(runs[..|runs| - 1], run);
      if runs[|runs| - 1] == run then rest else rest + [runs[|runs| - 1]]
  }

  lemma {:induction false} WithoutMembers(runs: seq<string>, run: string, other: string)
    ensures other in Without(runs, run) <==> other in runs && other != run
  {
    if runs != [] {
      WithoutMembers(runs[..|runs| - 1], run, other);
      assert runs == runs[..|runs| - 1] + [runs[|runs| - 1]];
    }
  }

  lemma WithoutSnoc(runs: seq<string>, k: nat, run: string)
    requires k < |runs|
    ensures Without(runs[..k + 1], run) == Without(runs[..k], run) + if runs[k] == run then [] else [runs[k]]
  {
    assert runs[..k + 1][..k] == runs[..k];
  }

  /** FinishRun. */
  function Finished(q: Queue, run: string): Queue {
    Queue(if q.active == run then "" else q.active, Without(q.queued, run))
  }

  // ---------------------------------------------------------------------------
  // Conservation over any sequence of operations
  // ---------------------------------------------------------------------------

  datatype Op = EnqueueOp(run: string, mode: Mode) | StartOp(run: string) | FinishOp(run: string)

  function Apply(q: Queue, op: Op): Queue {
    match op
    case EnqueueOp(run, mode) => var r := Enqueued(q, run, mode); if r.None? then q else r.value
    case StartOp(run) => var r := Started(q, run); if r.None? then q else r.value
    case FinishOp(run) => Finished(q, run)
  }

  function ApplyAll(ops: seq<Op>): Queue {
    if ops == [] then Queue("", []) else Apply(ApplyAll(ops[..|ops| - 1]), ops[|ops| - 1])
  }

  /** The runs accepted so far, in the order they arrived. */
  function Arrivals(ops: seq<Op>): seq<string> {
    if ops == [] then []
    else
      var last := ops[|ops| - 1];
      var before := Arrivals(ops[..|ops| - 1]);
      if last.EnqueueOp? && Enqueued(ApplyAll(ops[..|ops| - 1]), last.run, last.mode).Some?
      then before + [last.run] else before
  }

  lemma {:induction false} WithoutIsSubsequence(a: seq<string>, run: string)
    ensures IsSubsequence(Without(a, run), a)
  {
    if a != [] {
      var a' := a[..|a| - 1];
      WithoutIsSubsequence(a', run);
      SubsequenceSnoc(Without(a', run), a', a[|a| - 1]);
      assert a' + [a[|a| - 1]] == a;
    }
  }

  lemma ReplacingTheLastKeepsOrder(runs: seq<string>, run: string, arrived: seq<string>)
    requires runs != [] && IsSubsequence(runs, arrived)
    ensures IsSubsequence(runs[|runs| - 1 := run], arrived + [run])
  {
    var init, last := runs[..|runs| - 1], runs[|runs| - 1];
    SubsequenceReflexive(init);
    SubsequenceSnoc(init, init, last);
    assert init + [last] == runs && runs[|runs| - 1 := run] == init + [run];
    SubsequenceTransitive(init, runs, arrived);
    SubsequenceSnoc(init, arrived, run);
  }

  lemma EnqueuedKeepsOrder(q: Queue, run: string, mode: Mode, arrived: seq<string>)
    requires IsSubsequence(q.queued, arrived) && Enqueued(q, run, mode).Some?
    ensures IsSubsequence(Enqueued(q, run, mode).value.queued, arrived + [run])
  {
    if mode.Interrupt? {
      SubsequenceSnoc([], arrived, run);
      assert [] + [run] == [run];
    } else if mode.Coalesce? && q.queued != [] {
      ReplacingTheLastKeepsOrder(q.queued, run, arrived);
    } else {
      SubsequenceSnoc(q.queued, arrived, run);
    }
  }

  lemma StartedKeepsOrder(q: Queue, run: string, arrived: seq<string>)
    requires IsSubsequence(q.queued, arrived) && Started(q, run).Some?
    ensures IsSubsequence(Started(q, run).value.queued, arrived)
  {
    if q.queued != [] {
      TailIsSubsequence(q.queued);
      SubsequenceTransitive(q.queued[1..], q.queued, arrived);
    }
  }

  lemma FinishedKeepsOrder(q: Queue, run: string, arrived: seq<string>)
    requires IsSubsequence(q.queued, arrived)
    ensures IsSubsequence(Finished(q, run).queued, arrived)
  {
    WithoutIsSubsequence(q.queued, run);
    SubsequenceTransitive(Without(q.queued, run), q.queued, arrived);
  }

  /** Over any sequence of operations the waiting runs stand in arrival order. */
  lemma {:induction false} QueueKeepsArrivalOrder(ops: seq<Op>)
    ensures IsSubsequence(ApplyAll(ops).queued, Arrivals(ops))
  {
    if ops != [] {
      QueueKeepsArrivalOrder(ops[..|ops| - 1]);
      var q, arrived := ApplyAll(ops[..|ops| - 1]), Arrivals(ops[..|ops| - 1]);
      match ops[|ops| - 1] {
        case EnqueueOp(run, mode) => if Enqueued(q, run, mode).Some? { EnqueuedKeepsOrder(q, run, mode, arrived); }
        case StartOp(run) => if Started(q, run).Some? { StartedKeepsOrder(q, run, arrived); }
        case FinishOp(run) => FinishedKeepsOrder(q, run, arrived);
      }
    }
  }

  lemma InAllButLast(runs: seq<string>, run: string, last: string)
    requires run in runs && runs[|runs| - 1] != run
    ensures run in runs[|runs| - 1 := last]
    ensures run in runs + [last]
  {
    var i :| 0 <= i < |runs| && runs[i] == run;
    assert runs[|runs| - 1 := last][i] == run;
  }

  /** A waiting run leaves the queue only by starting at the head, by its own finish, by being the
      newest when another run coalesces onto it, or by an interrupt. */
  lemma LeavesOnlyFor(q: Queue, op: Op, run: string)
    requires run in q.queued && run !in Apply(q, op).queued
    ensures
      match op
      case StartOp(r) => r == run == q.queued[0] && q.active == "" && Apply(q, op).active == run
      case FinishOp(r) => r == run
      case EnqueueOp(_, Coalesce) => q.queued[|q.queued| - 1] == run
      case EnqueueOp(_, mode) => mode.Interrupt?
  {
    if op.FinishOp? { WithoutMembers(q.queued, op.run, run); }
    if q.queued[0] != run { InTail(q.queued, run); }
    if q.queued[|q.queued| - 1] != run && op.EnqueueOp? { InAllButLast(q.queued, run, op.run); }
  }

  /** What each mode does. A run is turned away only in mode Reject, by a session that is not idle. A run
      that is accepted waits at the end, behind all that waited (Enqueue, Reject), behind all but the
      newest, which it replaces (Coalesce), or alone (Interrupt). The active run is never touched. */
  lemma EnqueueEffect(q: Queue, run: string, mode: Mode)
    ensures Enqueued(q, run, mode).None? <==> mode.Reject? && (q.active != "" || q.queued != [])
    ensures Enqueued(q, run, mode).Some? ==> AcceptedAs(q, run, mode, Enqueued(q, run, mode).value)
  {
    if mode.Coalesce? && q.queued != [] {
      assert q.queued[|q.queued| - 1 := run] == q.queued[..|q.queued| - 1] + [run];
    }
  }

  predicate AcceptedAs(q: Queue, run: string, mode: Mode, q': Queue) {
    && q'.active == q.active
    && q'.queued != [] && q'.queued[|q'.queued| - 1] == run
    && var ahead := q'.queued[..|q'.queued| - 1];
       match mode
       case Enqueue => ahead == q.queued
       case Reject => ahead == q.queued
       case Coalesce => ahead == if q.queued == [] then [] else q.queued[..|q.queued| - 1]
       case Interrupt => ahead == []
  }

  /** A start is refused exactly when another run is active; a started run is the active one, and leaves
      the queue exactly when it was at its head and not active yet. */
  lemma StartEffect(q: Queue, run: string)
    ensures Started(q, run).None? <==> q.active != "" && q.active != run
    ensures Started(q, run).Some? ==> StartedAs(q, run, Started(q, run).value)
  {
  }

  predicate StartedAs(q: Queue, run: string, q': Queue) {
    && q'.active == run
    && q'.queued == if q.active != run && q.queued != [] && q.queued[0] == run then q.queued[1..] else q.queued
  }

  /** The operations that take a waiting run out of the queue. */
  predicate Removes(q: Queue, op: Op, run: string) {
    && run in q.queued
    && match op
       case StartOp(r) => r == run == q.queued[0] && q.active == ""
       case FinishOp(r) => r == run
       case EnqueueOp(_, mode) => mode.Interrupt? || (mode.Coalesce? && q.queued[|q.queued| - 1] == run)
  }

  /** No run is lost: over any sequence of operations, a run accepted by the i-th waits in the queue at the
      end, or a later operation started it at the head, finished it, coalesced onto it or interrupted. */
  lemma {:induction false} EveryArrivalIsAccountedFor(ops: seq<Op>, i: nat)
    requires i < |ops| && ops[i].EnqueueOp?
    requires ops[i].mode.Reject? ==> ApplyAll(ops[..i]) == Queue("", [])
    ensures ops[i].run in ApplyAll(ops).queued ||
            exists j :: i < j < |ops| && Removes(ApplyAll(ops[..j]), ops[j], ops[i].run)
    decreases |ops|
  {
    var n, run := |ops| - 1, ops[i].run;
    var before := ops[..n];
    if i == n {
      EnqueueEffect(ApplyAll(before), run, ops[i].mode);
    } else {
      assert before[..i] == ops[..i];
      EveryArrivalIsAccountedFor(before, i);
      if run in ApplyAll(before).queued {
        if run !in ApplyAll(ops).queued { LeftByRemoval(ApplyAll(before), ops[n], run); }
      } else {
        var j :| i < j < |before| && Removes(ApplyAll(before[..j]), before[j], run);
        assert before[..j] == ops[..j];
      }
    }
  }

  lemma LeftByRemoval(q: Queue, op: Op, run: string)
    requires run in q.queued && run !in Apply(q, op).queued
    ensures Removes(q, op, run)
  {
    LeavesOnlyFor(q, op, run);
  }

  /** After FinishRun(r) the run is gone from both places, even if it started from mid-queue; nothing
      else moved. */
  lemma FinishedIsGone(q: Queue, run: string)
    requires run != ""
    ensures Finished(q, run).active != run && run !in Finished(q, run).queued
    ensures q.active != run ==> Finished(q, run).active == q.active
    ensures forall other :: other in Finished(q, run).queued <==> other in q.queued && other != run
    ensures IsSubsequence(Finished(q, run).queued, q.queued)
  {
    WithoutMembers(q.queued, run, run);
    WithoutIsSubsequence(q.queued, run);
    forall other ensures other in Finished(q, run).queued <==> other in q.queued && other != run {
      WithoutMembers(q.queued, run, other);
    }
  }

  /** A second StartRun of the active run succeeds, and undoing it with FinishRun would free the
      session under the first: the queue alone does not give exclusivity. */
  lemma RepeatedStartThenFinishFreesTheSession(q: Queue, run: string, other: string)
    requires q.active == run != "" && other != run
    ensures Started(q, run) == Some(q)
    ensures Finished(Started(q, run).value, run).active == ""
    ensures Started(Finished(q, run), other).Some?
  {
  }

  // ---------------------------------------------------------------------------
  // The queue object: a slice of a backing array, filtered in place
  // ---------------------------------------------------------------------------

  /** Keeps the runs other than `run` of buf[lo..hi], moved down over the ones dropped. */
  method FilterInPlace(buf: array<string>, lo: nat, hi: nat, run: string) returns (w: nat)
    requires lo <= hi <= buf.Length
    modifies buf
    ensures lo <= w <= hi && buf[lo..w] == Without(old(buf[lo..hi]), run)
  {
    ghost var before := buf[lo..hi];
    w := lo;
    for i := lo to hi
      invariant lo <= w <= i
      invariant buf[lo..w] == Without(before[..i - lo], run)
      invariant forall j :: i <= j < hi ==> buf[j] == before[j - lo]
    {
      WithoutSnoc(before, i - lo, run);
      var x := buf[i];
      if x != run {
        ghost var kept := buf[lo..w];
        buf[w] := x;
        assert buf[lo..w + 1] == kept + [x];
        w := w + 1;
      }
    }
    assert before[..hi - lo] == before;
  }

  class SessionQueue {
    var active: string
    var buf: array<string>
    /** The waiting runs are buf[lo..hi]. */
    var lo: nat
    var hi: nat

    ghost predicate Valid()
      reads this
    {
      lo <= hi <= buf.Length
    }

    ghost function View(): Queue
      requires Valid()
      reads this, buf
    {
      Queue(active, buf[lo..hi])
    }

    constructor ()
      ensures Valid() && fresh(buf) && View() == Queue("", [])
    {
      active := "";
      buf := new string[0];
      lo, hi := 0, 0;
    }

    /** Go's append: in place when there is room, else into a larger copy. */
    method Push(run: string)
      requires Valid()
      modifies this`buf, this`lo, this`hi, buf
      ensures Valid() && (buf == old(buf) || fresh(buf))
      ensures View() == Queue(old(active), old(buf[lo..hi]) + [run])
    {
      if hi == buf.Length {
        var waiting := buf[lo..hi];
        var n := |waiting|;
        buf := new string[2 * n + 1](i => if 0 <= i < n then waiting[i] else "");
        lo, hi := 0, n;
        assert buf[lo..hi] == waiting;
      }
      buf[hi] := run;
      hi := hi + 1;
      assert buf[lo..hi] == buf[lo..hi - 1] + [run];
    }

    method EnqueueSessionRun(run: string, mode: Mode) returns (rejected: bool)
      requires Valid()
      modifies this, buf
      ensures Valid() && (buf == old(buf) || fresh(buf))
      ensures rejected == Enqueued(old(View()), run, mode).None?
      ensures View() == if rejected then old(View()) else Enqueued(old(View()), run, mode).value
      ensures rejected <==> mode.Reject? && old(active != "" || lo < hi)
      ensures !rejected ==> AcceptedAs(old(View()), run, mode, View())
    {
      EnqueueEffect(View(), run, mode);
      rejected := false;
      match mode {
        case Reject =>
          if active != "" || hi > lo { return true; }
        case Interrupt =>
          buf := new string[1](_ => run);
          lo, hi := 0, 1;
          return;
        case Coalesce =>
          if hi > lo {
            ghost var before := buf[lo..hi];
            buf[hi - 1] := run;
            assert buf[lo..hi] == before[hi - lo - 1 := run];
            return;
          }
        case Enqueue =>
      }
      Push(run);
    }

    method NextQueuedRun() returns (run: string, ok: bool)
      requires Valid()
      ensures ok <==> View().queued != []
      ensures ok ==> run == View().queued[0]
    {
      if lo == hi { return "", false; }
      return buf[lo], true;
    }

    method StartRun(run: string) returns (refused: bool)
      requires Valid()
      modifies this
      ensures Valid() && buf == old(buf)
      ensures refused == Started(old(View()), run).None?
      ensures View() == if refused then old(View()) else Started(old(View()), run).value
      ensures refused <==> old(active) != "" && old(active) != run
      ensures !refused ==> StartedAs(old(View()), run, View())
    {
      if active == run { return false; }
      if active != "" { return true; }
      active := run;
      if lo < hi && buf[lo] == run {
        lo := lo + 1;
      }
      return false;
    }

    method FinishRun(run: string)
      requires Valid()
      modifies this, buf
      ensures Valid() && buf == old(buf)
      ensures View() == Finished(old(View()), run)
    {
      var w := FilterInPlace(buf, lo, hi, run);
      hi := w;
      if active == run {
        active := "";
      }
    }
  }
}
