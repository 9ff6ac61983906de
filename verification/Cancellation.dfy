/**
 `CancellationContext`: each lock section and each unlocked flag read is one atomic step, and any
 number of threads interleave.
 */
module Cancellation {
  import opened Common

  type Token = nat
  type Task = nat
  type Callback = nat

  /** The fields guarded by the context's lock. */
  datatype Ctx = Ctx(
    cancelled: bool, agents: map<Token, Task>, operations: set<Token>, idleCallbacks: seq<Callback>)

  const FRESH := Ctx(false, map[], {}, [])

  // ----------------------------------------------------- lock sections, as spec

  /** Under the lock `cancel` either reports an earlier call or sets the flag and takes a snapshot. */
  function CancelSection(c: Ctx): (Ctx, Option<map<Token, Task>>) {
    if c.cancelled then (c, None) else (c.(cancelled := true), Some(c.agents))
  }

  function RegisterSection(c: Ctx, token: Token, task: Task): Ctx { c.(agents := c.agents[token := task]) }

  function UnregisterSection(c: Ctx, token: Token): Ctx { c.(agents := c.agents - {token}) }

  function BeginSection(c: Ctx, op: Token): Ctx { c.(operations := c.operations + {op}) }

  function EndSection(c: Ctx, op: Token): (Ctx, seq<Callback>) {
    if op !in c.operations then (c, [])
    else
      var rest := c.operations - {op};
      if rest == {} then (c.(operations := rest, idleCallbacks := []), c.idleCallbacks)
      else (c.(operations := rest), [])
  }

  /** Whether the callback is to be run at once instead of queued. */
  function WhenIdleSection(c: Ctx, callback: Callback): (Ctx, bool) {
    if c.operations != {} then (c.(idleCallbacks := c.idleCallbacks + [callback]), false) else (c, true)
  }

  /** The context as an object; each method is one lock section. */
  class CancellationContext {
    var cancelled: bool
    var agents: map<Token, Task>
    var operations: set<Token>
    var idleCallbacks: seq<Callback>

    function View(): Ctx
      reads this
    {
      Ctx(cancelled, agents, operations, idleCallbacks)
    }

    constructor ()
      ensures View() == FRESH
    {
      cancelled, agents, operations, idleCallbacks := false, map[], {}, [];
    }

    method Cancel() returns (snapshot: Option<map<Token, Task>>)
      modifies this
      ensures (View(), snapshot) == CancelSection(old(View()))
    {
      if cancelled {
        return None;
      }
      cancelled := true;
      return Some(agents);
    }

    method RegisterAgent(token: Token, task: Task)
      modifies this
      ensures View() == RegisterSection(old(View()), token, task)
      ensures token !in old(agents) ==> UnregisterSection(View(), token) == old(View())
      ensures !old(cancelled) ==> CancelSection(View()).1 == Some(old(agents)[token := task])
    {
      agents := agents[token := task];
      assert token !in old(agents) ==> agents - {token} == old(agents);
    }

    method UnregisterAgent(token: Token)
      modifies this
      ensures View() == UnregisterSection(old(View()), token)
      ensures CancelSection(View()).1.Some? ==> token !in CancelSection(View()).1.value
    {
      agents := agents - {token};
    }

    method BeginOperation(op: Token)
      modifies this
      ensures View() == BeginSection(old(View()), op)
      ensures op !in old(operations) && old(operations) != {} ==> EndSection(View(), op) == (old(View()), [])
      ensures op !in old(operations) && old(operations) == {} ==>
                EndSection(View(), op) == (old(View()).(idleCallbacks := []), old(idleCallbacks))
      ensures forall callback :: WhenIdleSection(View(), callback).1 == false
    {
      operations := operations + {op};
      assert op in operations && (op !in old(operations) ==> operations - {op} == old(operations));
    }

    method EndOperation(op: Token) returns (due: seq<Callback>)
      modifies this
      ensures (View(), due) == EndSection(old(View()), op)
    {
      due := [];
      if op !in operations {
        return;
      }
      operations := operations - {op};
      if operations == {} {
        due := idleCallbacks;
        idleCallbacks := [];
      }
    }

    method WhenBackgroundIdle(callback: Callback) returns (runNow: bool)
      modifies this
      ensures (View(), runNow) == WhenIdleSection(old(View()), callback)
    {
      if operations != {} {
        idleCallbacks := idleCallbacks + [callback];
        return false;
      }
      return true;
    }
  }

  /** The tasks `cancel` schedules a cancellation for: each live one in the snapshot, once. */
  method TasksToCancel(snapshot: map<Token, Task>, finished: set<Task>) returns (scheduled: seq<Task>)
    ensures forall x :: x in scheduled <==> x in snapshot.Values && x !in finished
    ensures forall i, j | 0 <= i < j < |scheduled| :: scheduled[i] != scheduled[j]
  {
    scheduled := [];
    var unique := snapshot.Values;
    while unique != {}
      invariant unique <= snapshot.Values
      invariant forall x :: x in scheduled <==> x in snapshot.Values - unique && x !in finished
      invariant forall i, j | 0 <= i < j < |scheduled| :: scheduled[i] != scheduled[j]
      decreases unique
    {
      var task :| task in unique;
      unique := unique - {task};
      if task !in finished {
        scheduled := scheduled + [task];
      }
    }
  }

  // ------------------------------------------------------------ interleavings

  /** A scope of `track_agent`: registered, inside its body, turned away by the flag, or left. */
  datatype Scope = Registered(task: Task) | Inside(task: Task) | Refused(task: Task) | Left

  /** A background operation: begun but not yet past the flag check, held, to be ended, or ended. */
  datatype Operation = Begun | Held | Ending | Ended

  /** A callback: queued, due to be run by some thread, or run. */
  datatype CallbackState = Queued | Due | Ran

  /**
   The context with every thread's position. `snapshot` is what the effective `cancel` took,
   `trueReturns` counts the calls that returned true, `log` is the order callbacks ran in, and
   `sawIdle` holds the callbacks since whose registration no operation was held at some instant.
   */
  datatype World = World(
    ctx: Ctx, scopes: map<Token, Scope>, operations: map<Token, Operation>, callbacks: map<Callback, CallbackState>,
    snapshot: Option<map<Token, Task>>, trueReturns: nat, log: seq<Callback>, sawIdle: set<Callback>)

  const START := World(FRESH, map[], map[], map[], None, 0, [], {})

  datatype Step =
    | CancelStep
    | EnterScope(token: Token, task: Task) | CheckScope(token: Token) | LeaveScope(token: Token)
    | BeginOp(op: Token) | CheckOp(op: Token) | FinishOp(op: Token) | EndOp(op: Token)
    | WhenIdle(callback: Callback) | RunCallback(callback: Callback)

  /** A step some thread can take now. */
  predicate Enabled(w: World, step: Step) {
    match step
    case CancelStep => true
    case EnterScope(token, _) => token !in w.scopes
    case CheckScope(token) => token in w.scopes && w.scopes[token].Registered?
    case LeaveScope(token) => token in w.scopes && (w.scopes[token].Inside? || w.scopes[token].Refused?)
    case BeginOp(op) => op !in w.operations
    case CheckOp(op) => op in w.operations && w.operations[op] == Begun
    case FinishOp(op) => op in w.operations && w.operations[op] == Held
    case EndOp(op) => op in w.operations && w.operations[op] == Ending
    case WhenIdle(callback) => callback !in w.callbacks
    case RunCallback(callback) => callback in w.callbacks && w.callbacks[callback] == Due
  }

  /** After an instant with no operation held, every registered callback has seen the context idle. */
  function Observe(w: World): World {
    if w.ctx.operations == {} then w.(sawIdle := w.sawIdle + w.callbacks.Keys) else w
  }

  function Move(w: World, step: Step): World
    requires Enabled(w, step)
  {
    match step
    case CancelStep =>
      var (ctx, snapshot) := CancelSection(w.ctx);
      if snapshot.Some? then w.(ctx := ctx, snapshot := snapshot, trueReturns := w.trueReturns + 1)
      else w.(ctx := ctx)
    case EnterScope(token, task) =>
      w.(ctx := RegisterSection(w.ctx, token, task), scopes := w.scopes[token := Registered(task)])
    case CheckScope(token) =>
      var task := w.scopes[token].task;
      w.(scopes := w.scopes[token := if w.ctx.cancelled then Refused(task) else Inside(task)])
    case LeaveScope(token) =>
      w.(ctx := UnregisterSection(w.ctx, token), scopes := w.scopes[token := Left])
    case BeginOp(op) =>
      w.(ctx := BeginSection(w.ctx, op), operations := w.operations[op := Begun])
    case CheckOp(op) =>
      w.(operations := w.operations[op := if w.ctx.cancelled then Ending else Held])
    case FinishOp(op) =>
      w.(operations := w.operations[op := Ending])
    case EndOp(op) =>
      var (ctx, due) := EndSection(w.ctx, op);
      w.(ctx := ctx, operations := w.operations[op := Ended],
         callbacks := map c | c in w.callbacks :: if c in due then Due else w.callbacks[c])
    case WhenIdle(callback) =>
      var (ctx, now) := WhenIdleSection(w.ctx, callback);
      w.(ctx := ctx, callbacks := w.callbacks[callback := if now then Due else Queued])
    case RunCallback(callback) =>
      w.(callbacks := w.callbacks[callback := Ran], log := w.log + [callback])
  }

  function Apply(w: World, step: Step): World
    requires Enabled(w, step)
  {
    Observe(Move(w, step))
  }

  /** `worlds` is a run: it starts in `START` and every world follows from the one before by some thread's step. */
  ghost predicate IsRun(worlds: seq<World>, steps: seq<Step>) {
    |worlds| == |steps| + 1 && worlds[0] == START && forall i: nat | i < |steps| :: Follows(worlds, steps, i)
  }

  /** Step `i` leads from world `i` to the next. */
  ghost predicate Follows(worlds: seq<World>, steps: seq<Step>, i: nat)
    requires i < |steps| < |worlds|
  {
    Enabled(worlds[i], steps[i]) && worlds[i + 1] == Apply(worlds[i], steps[i])
  }

  // -------------------------------------------------------------- invariants

  ghost predicate ScopesOk(w: World) {
    (forall t | t in w.scopes && !w.scopes[t].Left? :: t in w.ctx.agents && w.ctx.agents[t] == w.scopes[t].task)
    && (forall t | t in w.scopes && w.scopes[t].Refused? :: w.ctx.cancelled)
    && (w.ctx.cancelled <==> w.snapshot.Some?)
    && (w.ctx.cancelled ==> forall t | t in w.scopes && w.scopes[t].Inside? ::
          t in w.snapshot.value && w.snapshot.value[t] == w.scopes[t].task)
    && w.trueReturns == if w.ctx.cancelled then 1 else 0
  }

  ghost predicate OperationsOk(w: World) {
    forall op :: op in w.ctx.operations <==> op in w.operations && w.operations[op] != Ended
  }

  ghost predicate CallbacksOk(w: World) {
    (forall c :: c in w.ctx.idleCallbacks <==> c in w.callbacks && w.callbacks[c] == Queued)
    && (w.ctx.idleCallbacks != [] ==> w.ctx.operations != {})
    && (forall c | c in w.callbacks && w.callbacks[c] != Queued :: c in w.sawIdle)
    && (forall c :: c in w.log <==> c in w.callbacks && w.callbacks[c] == Ran)
    && (forall i, j | 0 <= i < j < |w.log| :: w.log[i] != w.log[j])
  }

  ghost predicate Inv(w: World) { ScopesOk(w) && OperationsOk(w) && CallbacksOk(w) }

  lemma StepKeepsScopes(w: World, step: Step)
    requires ScopesOk(w) && Enabled(w, step)
    ensures ScopesOk(Apply(w, step))
  {
    assert ScopesOk(Move(w, step));
  }

  lemma StepKeepsOperations(w: World, step: Step)
    requires OperationsOk(w) && Enabled(w, step)
    ensures OperationsOk(Apply(w, step))
  {
    assert OperationsOk(Move(w, step));
  }

  lemma StepKeepsCallbacks(w: World, step: Step)
    requires OperationsOk(w) && CallbacksOk(w) && Enabled(w, step)
    ensures CallbacksOk(Apply(w, step))
  {
    match step
    case EndOp(op) => EndKeepsCallbacks(w, op);
    case WhenIdle(callback) => RegisterKeepsCallbacks(w, callback);
    case RunCallback(callback) => RunKeepsCallbacks(w, callback);
    case _ => OtherKeepsCallbacks(w, Move(w, step));
  }

  /** A step that leaves callbacks alone, and ends no operation, keeps what holds of them. */
  lemma OtherKeepsCallbacks(w: World, w': World)
    requires CallbacksOk(w) && w'.callbacks == w.callbacks && w'.log == w.log && w'.sawIdle == w.sawIdle
    requires w'.ctx.idleCallbacks == w.ctx.idleCallbacks && w.ctx.operations <= w'.ctx.operations
    ensures CallbacksOk(Observe(w'))
  {
  }

  lemma EndKeepsCallbacks(w: World, op: Token)
    requires OperationsOk(w) && CallbacksOk(w) && Enabled(w, EndOp(op))
    ensures CallbacksOk(Apply(w, EndOp(op)))
  {
    assert op in w.ctx.operations;
  }

  lemma RegisterKeepsCallbacks(w: World, callback: Callback)
    requires CallbacksOk(w) && Enabled(w, WhenIdle(callback))
    ensures CallbacksOk(Apply(w, WhenIdle(callback)))
  {
    assert forall c :: c in w.ctx.idleCallbacks + [callback] <==> c in w.ctx.idleCallbacks || c == callback;
  }

  lemma RunKeepsCallbacks(w: World, callback: Callback)
    requires CallbacksOk(w) && Enabled(w, RunCallback(callback))
    ensures CallbacksOk(Apply(w, RunCallback(callback)))
  {
    assert forall c :: c in w.log + [callback] <==> c in w.log || c == callback;
  }

  /** What no step undoes. */
  lemma StepIsMonotone(w: World, step: Step)
    requires Enabled(w, step)
    ensures var w' := Apply(w, step);
            (w.ctx.cancelled ==> w'.ctx.cancelled && w'.snapshot == w.snapshot)
            && (!w.ctx.cancelled && w'.ctx.cancelled ==> step == CancelStep && w'.snapshot == Some(w.ctx.agents))
            && (step == CancelStep ==> w'.ctx.cancelled)
  {
  }

  lemma CancelledAdmitsNobody(w: World, step: Step, token: Token)
    requires Enabled(w, step) && w.ctx.cancelled && !InsideAt(w, token)
    ensures !InsideAt(Apply(w, step), token)
  {
  }

  lemma RanStaysRan(w: World, step: Step, callback: Callback)
    requires CallbacksOk(w) && Enabled(w, step) && callback in w.callbacks && w.callbacks[callback] == Ran
    ensures var w' := Apply(w, step); callback in w'.callbacks && w'.callbacks[callback] == Ran
  {
    assert callback !in w.ctx.idleCallbacks;
  }

  /** Every world of every run satisfies the invariant. */
  lemma {:induction false} RunsKeepInv(worlds: seq<World>, steps: seq<Step>, k: nat)
    requires IsRun(worlds, steps) && k < |worlds|
    ensures Inv(worlds[k])
  {
    if k > 0 {
      RunsKeepInv(worlds, steps, k - 1);
      assert Follows(worlds, steps, k - 1);
      StepKeepsScopes(worlds[k - 1], steps[k - 1]);
      StepKeepsOperations(worlds[k - 1], steps[k - 1]);
      StepKeepsCallbacks(worlds[k - 1], steps[k - 1]);
    }
  }

  // ----------------------------------------------------------------- theorems

  /** The step at which the run became cancelled, with everything `cancel` will act on. */
  lemma {:induction false} CancelPoint(worlds: seq<World>, steps: seq<Step>, k: nat) returns (c: nat)
    requires IsRun(worlds, steps) && k < |worlds| && worlds[k].ctx.cancelled
    ensures c < k && steps[c] == CancelStep && !worlds[c].ctx.cancelled
    ensures worlds[k].snapshot == Some(worlds[c].ctx.agents)
    ensures forall i | 0 <= i <= c :: !worlds[i].ctx.cancelled
    ensures forall i | c < i <= k :: worlds[i].ctx.cancelled
  {
    assert Follows(worlds, steps, k - 1);
    StepIsMonotone(worlds[k - 1], steps[k - 1]);
    if worlds[k - 1].ctx.cancelled {
      c := CancelPoint(worlds, steps, k - 1);
    } else {
      c := k - 1;
      NotCancelledBefore(worlds, steps, c);
    }
  }

  lemma {:induction false} NotCancelledBefore(worlds: seq<World>, steps: seq<Step>, k: nat)
    requires IsRun(worlds, steps) && k < |worlds| && !worlds[k].ctx.cancelled
    ensures forall i | 0 <= i <= k :: !worlds[i].ctx.cancelled
  {
    if k > 0 {
      assert Follows(worlds, steps, k - 1);
      StepIsMonotone(worlds[k - 1], steps[k - 1]);
      NotCancelledBefore(worlds, steps, k - 1);
    }
  }

  /**
   No interleaving loses a cancellation: a scope that is inside its body after the cancellation was
   already registered, with the same task, when `cancel` took its snapshot.
   */
  lemma NoCancellationLost(worlds: seq<World>, steps: seq<Step>, k: nat, token: Token)
    requires IsRun(worlds, steps) && k < |worlds| && worlds[k].ctx.cancelled
    requires token in worlds[k].scopes && worlds[k].scopes[token].Inside?
    ensures exists c: nat ::
              c < k && steps[c] == CancelStep && !worlds[c].ctx.cancelled && worlds[c + 1].ctx.cancelled
              && token in worlds[c].ctx.agents && worlds[c].ctx.agents[token] == worlds[k].scopes[token].task
  {
    RunsKeepInv(worlds, steps, k);
    var c := CancelPoint(worlds, steps, k);
    assert worlds[c + 1].ctx.cancelled;
  }

  ghost predicate InsideAt(w: World, token: Token) { token in w.scopes && w.scopes[token].Inside? }

  /** A scope that is not inside its body when the cancellation happens never gets inside. */
  lemma {:induction false} LateScopeNeverEnters(worlds: seq<World>, steps: seq<Step>, i: nat, k: nat, token: Token)
    requires IsRun(worlds, steps) && i <= k < |worlds|
    requires worlds[i].ctx.cancelled && !InsideAt(worlds[i], token)
    ensures worlds[k].ctx.cancelled && !InsideAt(worlds[k], token)
    decreases k
  {
    if i < k {
      LateScopeNeverEnters(worlds, steps, i, k - 1, token);
      assert Follows(worlds, steps, k - 1);
      StepIsMonotone(worlds[k - 1], steps[k - 1]);
      CancelledAdmitsNobody(worlds[k - 1], steps[k - 1], token);
    }
  }

  ghost predicate HeldAt(w: World, op: Token) { op in w.operations && w.operations[op] == Held }

  lemma CancelledHoldsNothingNew(w: World, step: Step, op: Token)
    requires Enabled(w, step) && w.ctx.cancelled && !HeldAt(w, op)
    ensures !HeldAt(Apply(w, step), op)
  {
  }

  /** A background operation that is not held when the cancellation happens is never held. */
  lemma {:induction false} LateOperationNeverHeld(worlds: seq<World>, steps: seq<Step>, i: nat, k: nat, op: Token)
    requires IsRun(worlds, steps) && i <= k < |worlds|
    requires worlds[i].ctx.cancelled && !HeldAt(worlds[i], op)
    ensures worlds[k].ctx.cancelled && !HeldAt(worlds[k], op)
    decreases k
  {
    if i < k {
      LateOperationNeverHeld(worlds, steps, i, k - 1, op);
      assert Follows(worlds, steps, k - 1);
      StepIsMonotone(worlds[k - 1], steps[k - 1]);
      CancelledHoldsNothingNew(worlds[k - 1], steps[k - 1], op);
    }
  }

  /** Without a cancellation nothing is turned away: the check lets a scope inside and an operation be held. */
  lemma UncancelledIsAdmitted(worlds: seq<World>, steps: seq<Step>, i: nat)
    requires IsRun(worlds, steps) && i < |steps| && !worlds[i].ctx.cancelled
    ensures steps[i].CheckScope? ==> InsideAt(worlds[i + 1], steps[i].token)
    ensures steps[i].CheckOp? ==> HeldAt(worlds[i + 1], steps[i].op)
  {
    assert Follows(worlds, steps, i);
  }

  /** `cancel` returns true exactly once in a cancelled context and never before. */
  lemma CancelReturnsTrueOnce(worlds: seq<World>, steps: seq<Step>, k: nat)
    requires IsRun(worlds, steps) && k < |worlds|
    ensures worlds[k].trueReturns == if exists c | 0 <= c < k :: steps[c] == CancelStep then 1 else 0
  {
    RunsKeepInv(worlds, steps, k);
    CancelledIffStep(worlds, steps, k);
  }

  lemma {:induction false} CancelledIffStep(worlds: seq<World>, steps: seq<Step>, k: nat)
    requires IsRun(worlds, steps) && k < |worlds|
    ensures worlds[k].ctx.cancelled <==> exists c | 0 <= c < k :: steps[c] == CancelStep
  {
    if k > 0 {
      CancelledIffStep(worlds, steps, k - 1);
      assert Follows(worlds, steps, k - 1);
      StepIsMonotone(worlds[k - 1], steps[k - 1]);
    }
  }

  ghost predicate IdleAt(w: World, callback: Callback) {
    callback in w.callbacks && w.ctx.operations == {}
  }

  lemma {:induction false} SawIdleInstant(worlds: seq<World>, steps: seq<Step>, k: nat, callback: Callback)
    requires IsRun(worlds, steps) && k < |worlds| && callback in worlds[k].sawIdle
    ensures exists i | 0 <= i <= k :: IdleAt(worlds[i], callback)
  {
    assert Follows(worlds, steps, k - 1);
    if callback in worlds[k - 1].sawIdle {
      SawIdleInstant(worlds, steps, k - 1, callback);
    } else {
      assert IdleAt(worlds[k], callback);
    }
  }

  /** A callback runs only after an instant, since its registration, with no operation held. */
  lemma CallbackRunsAfterIdle(worlds: seq<World>, steps: seq<Step>, r: nat, callback: Callback)
    requires IsRun(worlds, steps) && r < |steps| && steps[r] == RunCallback(callback)
    ensures exists i | 0 <= i <= r :: IdleAt(worlds[i], callback)
  {
    RunsKeepInv(worlds, steps, r);
    assert Follows(worlds, steps, r);
    SawIdleInstant(worlds, steps, r, callback);
  }

  lemma {:induction false} RanForever(worlds: seq<World>, steps: seq<Step>, r: nat, k: nat, callback: Callback)
    requires IsRun(worlds, steps) && r < k < |worlds| && steps[r] == RunCallback(callback)
    ensures callback in worlds[k].callbacks && worlds[k].callbacks[callback] == Ran
    decreases k
  {
    if r + 1 < k {
      RanForever(worlds, steps, r, k - 1, callback);
      RunsKeepInv(worlds, steps, k - 1);
      assert Follows(worlds, steps, k - 1);
      RanStaysRan(worlds[k - 1], steps[k - 1], callback);
    } else {
      assert Follows(worlds, steps, r);
    }
  }

  /** Each registered callback runs at most once. */
  lemma CallbackRunsAtMostOnce(worlds: seq<World>, steps: seq<Step>, r: nat, q: nat, callback: Callback)
    requires IsRun(worlds, steps) && r < |steps| && q < |steps|
    requires steps[r] == RunCallback(callback) && steps[q] == RunCallback(callback)
    ensures r == q
  {
    assert Follows(worlds, steps, r) && Follows(worlds, steps, q);
    if r < q {
      RanForever(worlds, steps, r, q, callback);
    } else if q < r {
      RanForever(worlds, steps, q, r, callback);
    }
  }

  /** A callback stays queued only while some operation is held. */
  lemma QueuedOnlyWhileHeld(worlds: seq<World>, steps: seq<Step>, k: nat, callback: Callback)
    requires IsRun(worlds, steps) && k < |worlds|
    requires callback in worlds[k].callbacks && worlds[k].callbacks[callback] == Queued
    ensures exists op | op in worlds[k].operations :: worlds[k].operations[op] != Ended
  {
    RunsKeepInv(worlds, steps, k);
    var op :| op in worlds[k].ctx.operations;
    assert op in worlds[k].operations && worlds[k].operations[op] != Ended;
  }
}
