/**
 The runtime driver's cancellation bookkeeping: `cancel` and `_run_bound` of any number of threads,
 with each lock section as one atomic step.
 */
module RuntimeDriver {
  import opened Common

  type Job = string
  /** A call of `_run_bound`; it also names the cancellation context the call creates. */
  type CallId = nat

  datatype Table = Table(active: map<Job, CallId>, pending: set<Job>)

  // --------------------------------------------------------------- lock sections

  /** `cancel`: the context to cancel after the lock is released, if the job is active. */
  function CancelSection(t: Table, job: Job): (Table, Option<CallId>) {
    if job in t.active then (t, Some(t.active[job])) else (t.(pending := t.pending + {job}), None)
  }

  datatype Entry = AlreadyActive | Entered(cancelled: bool)

  function EnterSection(t: Table, job: Job, call: CallId): (Table, Entry) {
    if job in t.active then (t, AlreadyActive)
    else (Table(t.active[job := call], t.pending - {job}), Entered(job in t.pending))
  }

  function LeaveSection(t: Table, job: Job, call: CallId): Table {
    if job in t.active && t.active[job] == call then t.(active := t.active - {job}) else t
  }

  class Driver {
    var active: map<Job, CallId>
    var pending: set<Job>

    function View(): Table
      reads this
    {
      Table(active, pending)
    }

    constructor ()
      ensures View() == Table(map[], {})
    {
      active, pending := map[], {};
    }

    method Cancel(job: Job) returns (target: Option<CallId>)
      modifies this
      ensures (View(), target) == CancelSection(old(View()), job)
    {
      if job !in active {
        pending := pending + {job};
        return None;
      }
      return Some(active[job]);
    }

    method Enter(job: Job, call: CallId) returns (entry: Entry)
      modifies this
      ensures (View(), entry) == EnterSection(old(View()), job, call)
    {
      if job in active {
        return AlreadyActive;
      }
      entry := Entered(false);
      if job in pending {
        pending := pending - {job};
        entry := Entered(true);
      }
      assert pending == old(pending) - {job};
      active := active[job := call];
    }

    method Leave(job: Job, call: CallId)
      modifies this
      ensures View() == LeaveSection(old(View()), job, call)
    {
      if job in active && active[job] == call {
        active := active - {job};
      }
    }
  }

  // --------------------------------------------------------------- interleavings

  datatype End = Returned | Failed | RuntimeCancelled | RuntimeJobAlreadyActive

  /**
   Where a call stands: registered, past the check made when its background operation began, inside
   the runtime function, on its way out, or gone.
   */
  datatype Position = Bound | Admitted | Running | Leaving(end: End) | Gone(end: End)

  datatype Call = Call(job: Job, at: Position)

  /**
   `cancelled` holds the contexts whose flag is set and `deliveries` the cancels that have read a
   context but not set its flag yet. `invoked`, `preCancelled` and `hit` record which calls ran their
   runtime function, began with a pending cancel, or were active when some cancel looked them up.
   */
  datatype World = World(
    table: Table, calls: map<CallId, Call>, cancelled: set<CallId>, deliveries: set<(nat, CallId)>,
    invoked: set<CallId>, preCancelled: set<CallId>, hit: set<CallId>)

  const START := World(Table(map[], {}), map[], {}, {}, {}, {}, {})

  datatype Step =
    | Begin(call: CallId, job: Job)
    | CheckBound(call: CallId)
    | CheckAdmitted(call: CallId)
    | Finish(call: CallId, end: End)
    | Leave(call: CallId)
    | RequestCancel(request: nat, job: Job)
    | Deliver(request: nat, call: CallId)

  predicate At(w: World, call: CallId, at: Position) { call in w.calls && w.calls[call].at == at }

  predicate Enabled(w: World, step: Step) {
    match step
    case Begin(call, _) => call !in w.calls
    case CheckBound(call) => At(w, call, Bound)
    case CheckAdmitted(call) => At(w, call, Admitted)
    // The runtime function raises a turn cancellation only when its context is cancelled.
    case Finish(call, end) =>
      At(w, call, Running) && end != RuntimeJobAlreadyActive && (end == RuntimeCancelled ==> call in w.cancelled)
    case Leave(call) => call in w.calls && w.calls[call].at.Leaving?
    case RequestCancel(_, _) => true
    case Deliver(request, call) => (request, call) in w.deliveries
  }

  function Move(w: World, call: CallId, at: Position): World
    requires call in w.calls
  {
    w.(calls := w.calls[call := w.calls[call].(at := at)])
  }

  function Apply(w: World, step: Step): World
    requires Enabled(w, step)
  {
    match step
    case Begin(call, job) =>
      var (table, entry) := EnterSection(w.table, job, call);
      (match entry
       case AlreadyActive => w.(calls := w.calls[call := Call(job, Gone(RuntimeJobAlreadyActive))])
       case Entered(pre) =>
         w.(table := table, calls := w.calls[call := Call(job, Bound)],
            cancelled := if pre then w.cancelled + {call} else w.cancelled,
            preCancelled := if pre then w.preCancelled + {call} else w.preCancelled))
    case CheckBound(call) => Move(w, call, if call in w.cancelled then Leaving(RuntimeCancelled) else Admitted)
    case CheckAdmitted(call) =>
      if call in w.cancelled then Move(w, call, Leaving(RuntimeCancelled))
      else Move(w, call, Running).(invoked := w.invoked + {call})
    case Finish(call, end) => Move(w, call, Leaving(end))
    case Leave(call) =>
      Move(w, call, Gone(w.calls[call].at.end)).(table := LeaveSection(w.table, w.calls[call].job, call))
    case RequestCancel(request, job) =>
      var (table, target) := CancelSection(w.table, job);
      (match target
       case None => w.(table := table)
       case Some(call) => w.(table := table, deliveries := w.deliveries + {(request, call)}, hit := w.hit + {call}))
    case Deliver(request, call) =>
      w.(deliveries := w.deliveries - {(request, call)}, cancelled := w.cancelled + {call})
  }

  ghost predicate IsRun(worlds: seq<World>, steps: seq<Step>) {
    |worlds| == |steps| + 1 && worlds[0] == START && forall i: nat | i < |steps| :: Follows(worlds, steps, i)
  }

  /** Step `i` leads from world `i` to the next. */
  ghost predicate Follows(worlds: seq<World>, steps: seq<Step>, i: nat)
    requires i < |steps| < |worlds|
  {
    Enabled(worlds[i], steps[i]) && worlds[i + 1] == Apply(worlds[i], steps[i])
  }

  // ------------------------------------------------------------------ invariant

  /** Registered and not yet gone. */
  predicate Live(w: World, call: CallId) { call in w.calls && !w.calls[call].at.Gone? }

  ghost predicate TableOk(w: World) {
    w.table.active.Keys !! w.table.pending
    && (forall job | job in w.table.active ::
          Live(w, w.table.active[job]) && w.calls[w.table.active[job]].job == job)
    && (forall call | Live(w, call) ::
          w.calls[call].job in w.table.active && w.table.active[w.calls[call].job] == call)
  }

  ghost predicate CausesOk(w: World) {
    (forall d | d in w.deliveries :: d.1 in w.hit)
    && (forall call | call in w.cancelled :: call in w.preCancelled || call in w.hit)
    && (forall call | call in w.preCancelled :: call in w.cancelled)
    && (forall call | call in w.hit + w.preCancelled + w.invoked :: call in w.calls)
    && (forall call | call in w.invoked :: !Waiting(w, call))
  }

  /** Registered, but the runtime function has not been called yet. */
  predicate Waiting(w: World, call: CallId) { At(w, call, Bound) || At(w, call, Admitted) }

  /** A call in its runtime function was invoked, and its end says how it got there. */
  ghost predicate EndsOk(w: World) { forall call | call in w.calls :: CallOk(w, call) }

  predicate CallOk(w: World, call: CallId)
    requires call in w.calls
  {
    var at := w.calls[call].at;
    (at == Running ==> call in w.invoked) && (at.Leaving? || at.Gone? ==> EndOk(w, call, at.end))
  }

  predicate EndOk(w: World, call: CallId, end: End) {
    (end == RuntimeCancelled ==> call in w.cancelled) && (end == Returned || end == Failed ==> call in w.invoked)
  }

  ghost predicate Inv(w: World) { TableOk(w) && CausesOk(w) && EndsOk(w) }

  lemma BeginKeepsTable(w: World, call: CallId, job: Job)
    requires TableOk(w) && call !in w.calls
    ensures TableOk(Apply(w, Begin(call, job)))
  {
    var w' := Apply(w, Begin(call, job));
    if job in w.table.active {
      assert w'.table == w.table;
      assert forall c :: Live(w', c) <==> Live(w, c);
    } else {
      assert forall c :: Live(w', c) <==> Live(w, c) || c == call;
    }
  }

  lemma MoveKeepsTable(w: World, call: CallId, at: Position, w': World)
    requires TableOk(w) && Live(w, call) && !at.Gone?
    requires w'.table == w.table && w'.calls == w.calls[call := w.calls[call].(at := at)]
    ensures TableOk(w')
  {
    assert forall c :: Live(w', c) <==> Live(w, c);
  }

  lemma LeaveKeepsTable(w: World, call: CallId)
    requires TableOk(w) && Enabled(w, Leave(call))
    ensures TableOk(Apply(w, Leave(call)))
  {
    var w', job := Apply(w, Leave(call)), w.calls[call].job;
    assert Live(w, call);
    assert w'.table.active == w.table.active - {job};
    assert forall c :: Live(w', c) <==> Live(w, c) && c != call;
  }

  lemma RequestKeepsTable(w: World, request: nat, job: Job)
    requires TableOk(w)
    ensures TableOk(Apply(w, RequestCancel(request, job)))
  {
    var w' := Apply(w, RequestCancel(request, job));
    assert w'.table.active == w.table.active && w'.calls == w.calls;
    assert forall c :: Live(w', c) <==> Live(w, c);
  }

  lemma StepKeepsTable(w: World, step: Step)
    requires TableOk(w) && Enabled(w, step)
    ensures TableOk(Apply(w, step))
  {
    var w' := Apply(w, step);
    match step
    case Begin(call, job) => BeginKeepsTable(w, call, job);
    case CheckBound(call) => MoveKeepsTable(w, call, w'.calls[call].at, w');
    case CheckAdmitted(call) => MoveKeepsTable(w, call, w'.calls[call].at, w');
    case Finish(call, end) => MoveKeepsTable(w, call, Leaving(end), w');
    case Leave(call) => LeaveKeepsTable(w, call);
    case RequestCancel(request, job) => RequestKeepsTable(w, request, job);
    case Deliver(_, _) => assert forall c :: Live(w', c) <==> Live(w, c);
  }

  lemma StepKeepsCauses(w: World, step: Step)
    requires Inv(w) && Enabled(w, step)
    ensures CausesOk(Apply(w, step))
  {
  }

  lemma StepKeepsEnds(w: World, step: Step)
    requires EndsOk(w) && Enabled(w, step)
    ensures EndsOk(Apply(w, step))
  {
    var w' := Apply(w, step);
    forall call | call in w'.calls ensures CallOk(w', call) {
      if call in w.calls { assert CallOk(w, call); }
    }
  }

  lemma {:induction false} RunsKeepInv(worlds: seq<World>, steps: seq<Step>, k: nat)
    requires IsRun(worlds, steps) && k < |worlds|
    ensures Inv(worlds[k])
  {
    if k > 0 {
      RunsKeepInv(worlds, steps, k - 1);
      assert Follows(worlds, steps, k - 1);
      StepKeepsTable(worlds[k - 1], steps[k - 1]);
      StepKeepsCauses(worlds[k - 1], steps[k - 1]);
      StepKeepsEnds(worlds[k - 1], steps[k - 1]);
    }
  }

  // ------------------------------------------------------------------- theorems

  /** Active and pending jobs are disjoint, and no job ever has two calls in flight. */
  lemma OneCallPerJob(worlds: seq<World>, steps: seq<Step>, k: nat, a: CallId, b: CallId)
    requires IsRun(worlds, steps) && k < |worlds|
    ensures worlds[k].table.active.Keys !! worlds[k].table.pending
    ensures Live(worlds[k], a) && Live(worlds[k], b) && worlds[k].calls[a].job == worlds[k].calls[b].job ==> a == b
  {
    RunsKeepInv(worlds, steps, k);
  }

  /** A call cancelled before its runtime function was called: never past a check, and cancelled when it ends. */
  ghost predicate Doomed(w: World, call: CallId) {
    call in w.calls && call in w.cancelled && call !in w.invoked
    && w.calls[call].at in {Bound, Admitted, Leaving(RuntimeCancelled), Gone(RuntimeCancelled)}
  }

  lemma DoomedStaysDoomed(w: World, step: Step, call: CallId)
    requires Inv(w) && Enabled(w, step) && Doomed(w, call)
    ensures Doomed(Apply(w, step), call)
  {
  }

  lemma {:induction false} DoomedForever(worlds: seq<World>, steps: seq<Step>, i: nat, k: nat, call: CallId)
    requires IsRun(worlds, steps) && i <= k < |worlds| && Doomed(worlds[i], call)
    ensures Doomed(worlds[k], call)
    decreases k
  {
    if i < k {
      DoomedForever(worlds, steps, i, k - 1, call);
      RunsKeepInv(worlds, steps, k - 1);
      assert Follows(worlds, steps, k - 1);
      DoomedStaysDoomed(worlds[k - 1], steps[k - 1], call);
    }
  }

  /** A cancel at step `c` found no call of the job active, and no call of the job has begun since. */
  ghost predicate Unanswered(worlds: seq<World>, steps: seq<Step>, c: nat, k: nat, job: Job)
    requires IsRun(worlds, steps) && c < k <= |steps|
  {
    steps[c].RequestCancel? && steps[c].job == job && job !in worlds[c].table.active
    && forall i | c < i < k :: !Begins(steps[i], job)
  }

  predicate Begins(step: Step, job: Job) { step.Begin? && step.job == job }

  lemma PendingStep(w: World, step: Step, job: Job)
    requires TableOk(w) && Enabled(w, step)
    ensures job in Apply(w, step).table.pending <==>
            (job in w.table.pending && !Begins(step, job))
            || (step.RequestCancel? && step.job == job && job !in w.table.active)
  {
  }

  /** A job is marked exactly while some cancel is unanswered, whatever else interleaves. */
  lemma {:induction false} PendingExactlyWhileUnanswered(worlds: seq<World>, steps: seq<Step>, k: nat, job: Job)
    requires IsRun(worlds, steps) && k < |worlds|
    ensures job in worlds[k].table.pending <==> exists c: nat | c < k :: Unanswered(worlds, steps, c, k, job)
  {
    if k > 0 {
      var j := k - 1;
      PendingExactlyWhileUnanswered(worlds, steps, j, job);
      RunsKeepInv(worlds, steps, j);
      assert Follows(worlds, steps, j);
      PendingStep(worlds[j], steps[j], job);
      if job in worlds[j].table.pending && !Begins(steps[j], job) {
        var c: nat :| c < j && Unanswered(worlds, steps, c, j, job);
        assert Unanswered(worlds, steps, c, k, job);
      }
      if job in worlds[k].table.pending && !(job in worlds[j].table.pending && !Begins(steps[j], job)) {
        assert Unanswered(worlds, steps, j, k, job);
      }
      forall c: nat | c < k && Unanswered(worlds, steps, c, k, job) ensures job in worlds[k].table.pending {
        if c < j { assert Unanswered(worlds, steps, c, j, job) && !Begins(steps[j], job); }
      }
    }
  }

  /**
   A cancel that finds no active call of its job is kept, through every interleaving, for the job's next
   call and consumed by it: that call never invokes the runtime function, if it ends it ends as
   `runtime_cancelled`, and the mark is gone.
   */
  lemma PendingCancelStopsNextCall(
    worlds: seq<World>, steps: seq<Step>, c: nat, b: nat, k: nat, request: nat, call: CallId, job: Job)
    requires IsRun(worlds, steps) && c < b < |steps| && b < k < |worlds|
    requires steps[c] == RequestCancel(request, job) && job !in worlds[c].table.active
    requires forall i | c < i < b :: !Begins(steps[i], job)
    requires steps[b] == Begin(call, job)
    ensures job !in worlds[b + 1].table.pending
    ensures call !in worlds[k].invoked
    ensures call in worlds[k].calls && (worlds[k].calls[call].at.Gone? ==> worlds[k].calls[call].at.end == RuntimeCancelled)
  {
    assert Unanswered(worlds, steps, c, b, job);
    PendingExactlyWhileUnanswered(worlds, steps, b, job);
    RunsKeepInv(worlds, steps, b);
    assert Follows(worlds, steps, b);
    assert call !in worlds[b].invoked;
    assert Doomed(worlds[b + 1], call);
    DoomedForever(worlds, steps, b + 1, k, call);
  }

  /**
   A cancel that reaches a call at any time before its runtime function is called wins the race: the
   function is never invoked, and if the call ends it ends as `runtime_cancelled`.
   */
  lemma CancelledWhileWaitingNeverRuns(worlds: seq<World>, steps: seq<Step>, i: nat, k: nat, call: CallId)
    requires IsRun(worlds, steps) && i <= k < |worlds| && Waiting(worlds[i], call) && call in worlds[i].cancelled
    ensures call !in worlds[k].invoked
    ensures call in worlds[k].calls && (worlds[k].calls[call].at.Gone? ==> worlds[k].calls[call].at.end == RuntimeCancelled)
  {
    RunsKeepInv(worlds, steps, i);
    assert Doomed(worlds[i], call);
    DoomedForever(worlds, steps, i, k, call);
  }

  /**
   A cancel never spills over: a call is cancelled only if it began with a pending cancel or some
   cancel found that very call active.
   */
  lemma CancelNeverSpillsOver(worlds: seq<World>, steps: seq<Step>, k: nat, call: CallId)
    requires IsRun(worlds, steps) && k < |worlds| && call in worlds[k].cancelled
    ensures exists i | 0 <= i < k :: CausesCancel(worlds[i], steps[i], call)
  {
    RunsKeepInv(worlds, steps, k);
    CauseRecorded(worlds, steps, k, call);
  }

  predicate CausesCancel(w: World, step: Step, call: CallId) {
    match step
    case Begin(c, job) => c == call && job in w.table.pending
    case RequestCancel(_, job) => job in w.table.active && w.table.active[job] == call
    case _ => false
  }

  lemma {:induction false} CauseRecorded(worlds: seq<World>, steps: seq<Step>, k: nat, call: CallId)
    requires IsRun(worlds, steps) && k < |worlds| && call in worlds[k].preCancelled + worlds[k].hit
    ensures exists i | 0 <= i < k :: CausesCancel(worlds[i], steps[i], call)
  {
    assert Follows(worlds, steps, k - 1);
    if call in worlds[k - 1].preCancelled + worlds[k - 1].hit {
      CauseRecorded(worlds, steps, k - 1, call);
    } else {
      assert CausesCancel(worlds[k - 1], steps[k - 1], call);
    }
  }

  predicate EndsAs(w: World, call: CallId, end: End) {
    call in w.calls && (w.calls[call].at == Leaving(end) || w.calls[call].at == Gone(end))
  }

  /** A call that ends as cancelled was cancelled: it began under a mark, or some cancel found that very call. */
  lemma CancelledEndHasCause(worlds: seq<World>, steps: seq<Step>, k: nat, call: CallId)
    requires IsRun(worlds, steps) && k < |worlds| && EndsAs(worlds[k], call, RuntimeCancelled)
    ensures call in worlds[k].cancelled && exists i | 0 <= i < k :: CausesCancel(worlds[i], steps[i], call)
  {
    RunsKeepInv(worlds, steps, k);
    assert CallOk(worlds[k], call);
    CancelNeverSpillsOver(worlds, steps, k, call);
  }

  /** The step a call's end comes from. */
  predicate Earns(w: World, step: Step, call: CallId, end: End) {
    match step
    case Begin(c, job) => c == call && end == RuntimeJobAlreadyActive && job in w.table.active
    case CheckBound(c) => c == call && end == RuntimeCancelled
    case CheckAdmitted(c) => c == call && end == RuntimeCancelled
    case Finish(c, e) => c == call && e == end
    case _ => false
  }

  /** A call ends as its runtime function ended it, as cancelled at a check, or refused because its job was active. */
  lemma {:induction false} EndIsEarned(worlds: seq<World>, steps: seq<Step>, k: nat, call: CallId, end: End)
    requires IsRun(worlds, steps) && k < |worlds| && EndsAs(worlds[k], call, end)
    ensures exists i | 0 <= i < k :: Earns(worlds[i], steps[i], call, end)
    ensures end == Returned || end == Failed ==> call in worlds[k].invoked
  {
    RunsKeepInv(worlds, steps, k);
    assert CallOk(worlds[k], call);
    assert Follows(worlds, steps, k - 1);
    if EndsAs(worlds[k - 1], call, end) {
      EndIsEarned(worlds, steps, k - 1, call, end);
    } else {
      assert Earns(worlds[k - 1], steps[k - 1], call, end);
    }
  }

  /** A call that nobody has cancelled passes both checks, and the second one invokes its runtime function. */
  lemma UncancelledIsInvoked(worlds: seq<World>, steps: seq<Step>, i: nat, call: CallId)
    requires IsRun(worlds, steps) && i < |steps| && call !in worlds[i].cancelled
    ensures steps[i] == CheckBound(call) ==> At(worlds[i + 1], call, Admitted)
    ensures steps[i] == CheckAdmitted(call) ==> At(worlds[i + 1], call, Running) && call in worlds[i + 1].invoked
  {
    assert Follows(worlds, steps, i);
  }

  /** A cancel that finds a call active is on its way to that call, or has set its flag, ever after. */
  lemma {:induction false} CancelReachesActiveCall(worlds: seq<World>, steps: seq<Step>, c: nat, k: nat, request: nat, job: Job)
    requires IsRun(worlds, steps) && c < |steps| && c < k < |worlds|
    requires steps[c] == RequestCancel(request, job) && job in worlds[c].table.active
    ensures var call := worlds[c].table.active[job]; (request, call) in worlds[k].deliveries || call in worlds[k].cancelled
    decreases k
  {
    assert Follows(worlds, steps, k - 1);
    if c + 1 < k { CancelReachesActiveCall(worlds, steps, c, k - 1, request, job); }
  }

  /** Delivering a cancel sets the flag, for good. */
  lemma {:induction false} DeliveredIsCancelled(worlds: seq<World>, steps: seq<Step>, i: nat, k: nat, request: nat, call: CallId)
    requires IsRun(worlds, steps) && i < |steps| && i < k < |worlds| && steps[i] == Deliver(request, call)
    ensures call in worlds[k].cancelled
    decreases k
  {
    assert Follows(worlds, steps, k - 1);
    if i + 1 < k { DeliveredIsCancelled(worlds, steps, i, k - 1, request, call); }
  }
}
