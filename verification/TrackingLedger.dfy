/**
 The Tracking branch of an annotation run: published outputs, durable checkpoints, the
 closure-pending flag, and how a failure is routed to a terminal state.
 */
module TrackingLedger {
  import opened Common

  // ------------------------------------------------------------- exceptions

  /** An exception as the worker can tell them apart: by class and, for one class, by code. */
  datatype Exn =
    | RuntimeExecution(code: string)
    | RuntimeUnavailable
    | CheckpointMismatch
    | CapacityPreflight
    | TurnCancelled
    | OtherException

  predicate IsRuntimeCancellation(e: Exn) { e == RuntimeExecution("runtime_cancelled") }

  predicate RequiresOperatorRecovery(e: Exn) { e == RuntimeExecution("recovery_required") }

  const INPUT_CODES: set<string> := {
    "runtime_input_changed", "runtime_manifest_changed", "prepared_staging_changed", "tracking_yaml_changed",
    "unsafe_runtime_input", "unsupported_runtime_variant", "missing_runtime_input",
    "calibration_snapshot_mismatch"}

  const RECOVERY_CODES: set<string> := {
    "unsafe_existing_tracking_output", "unsafe_tracking_output", "tracking_output_conflict", "recovery_required"}

  /** `_safe_runtime_failure`: the public code and whether the run may be retried. */
  function SafeRuntimeFailure(e: Exn): (r: (string, bool)) {
    match e
    case CheckpointMismatch => ("recovery_required", false)
    case CapacityPreflight => ("insufficient_annotation_capacity", true)
    case RuntimeUnavailable => ("annotation_runtime_unavailable", true)
    case RuntimeExecution(code) =>
      if code == "annotation_runtime_unavailable" then (code, true)
      else if code in INPUT_CODES then (code, false)
      else if code in RECOVERY_CODES then ("recovery_required", false)
      else if code == "runtime_cancelled" then ("cancelled", false)
      else ("annotation_runtime_failed", true)
    case TurnCancelled => ("annotation_runtime_failed", false)
    case OtherException => ("annotation_runtime_failed", false)
  }

  // ------------------------------------------------------------------ state

  /** Final outputs by target (image directory, points file) and the durable checkpoints. */
  datatype State = State(images: map<string, int>, points: map<string, int>, checkpoints: map<string, (int, int)>)

  predicate Published(s: State, t: string) { t in s.images || t in s.points }

  ghost predicate AllRecorded(s: State) {
    forall t | Published(s, t) :: t in s.checkpoints
  }

  predicate Verified(s: State, t: string)
    requires t in s.checkpoints
  {
    t in s.images && t in s.points && s.checkpoints[t] == (s.images[t], s.points[t])
  }

  /** An effect on durable state, or a failure before or after it took place. */
  datatype Effect = Done | FailsBefore(e: Exn) | FailsAfter(e: Exn)

  /** Everything the environment decides while one target is handled. */
  datatype Script = Script(
    verify: Option<Exn>,      // verification of an existing checkpoint raises
    unlocked: Option<Exn>,    // Tracking raises before it takes the writer lock
    locked: Option<Exn>,      // Tracking raises under the lock, before publication
    image: int, points: int,  // what the Tracking binary produced
    moveImage: Effect, movePoints: Effect, harden: Option<Exn>,
    release: Option<Exn>,     // releasing the writer lock raises
    attested: Option<Exn>,    // the returned manifest, checkpoint count or identity is refused
    record: Effect)           // the store commits the checkpoint

  // ------------------------------------------------------- one target, as spec

  /** Publication of one output; any failure inside it becomes `recovery_required`. */
  function PublishOutput(s: State, t: string, x: Script): (State, Option<Exn>) {
    var failed := Some(RuntimeExecution("recovery_required"));
    var s1 := if x.moveImage.FailsBefore? then s else s.(images := s.images[t := x.image]);
    if x.moveImage != Done then (s1, failed)
    else
      var s2 := if x.movePoints.FailsBefore? then s1 else s1.(points := s1.points[t := x.points]);
      if x.movePoints != Done || x.harden.Some? then (s2, failed) else (s2, None)
  }

  /** `NavigationTrackingRuntime.track` through the driver, for one target. */
  function Track(s: State, t: string, x: Script): (State, Option<Exn>) {
    if x.unlocked.Some? then (s, Some(Translate(x.unlocked.value)))
    else
      var (s', e) :=
        if x.locked.Some? then (s, x.locked)
        else if Published(s, t) then (s, Some(RuntimeExecution("recovery_required")))
        else PublishOutput(s, t, x);
      // An exception raised on release replaces the one in flight.
      if x.release.Some? then (s', Some(Translate(x.release.value)))
      else if e.Some? then (s', Some(Translate(e.value)))
      else (s', None)
  }

  /** The driver turns a turn cancellation into a runtime failure code. */
  function Translate(e: Exn): Exn {
    if e == TurnCancelled then RuntimeExecution("runtime_cancelled") else e
  }

  /** How far the run got: its state, the exception raised, the closure-pending flag. */
  datatype Progress = Progress(s: State, raised: Option<Exn>, pending: bool)

  function HandleTarget(s: State, t: string, x: Script): Progress {
    if t in s.checkpoints then
      if x.verify.Some? then Progress(s, x.verify, false)
      else if !Verified(s, t) then Progress(s, Some(CheckpointMismatch), false)
      else Progress(s, None, false)
    else
      var (s1, e) := Track(s, t, x);
      if e.Some? then Progress(s1, e, false)
      else if x.attested.Some? then Progress(s1, x.attested, true)
      else
        var s2 := if x.record.FailsBefore? then s1
                  else s1.(checkpoints := s1.checkpoints[t := (x.image, x.points)]);
        if x.record != Done then Progress(s2, Some(x.record.e), true) else Progress(s2, None, false)
  }

  function HandleTargets(s: State, targets: seq<string>, script: string -> Script): Progress
    decreases |targets|
  {
    if targets == [] then Progress(s, None, false)
    else
      var p := HandleTarget(s, targets[0], script(targets[0]));
      if p.raised.Some? then p else HandleTargets(p.s, targets[1..], script)
  }

  // ------------------------------------------------------------ whole runs

  datatype Reason = Shutdown | OtherReason

  /** What the store answers while a failure is handled; `None` means that it raises. */
  datatype Handler = Handler(
    failStep: bool, cancelRequested: Option<bool>, cancelRequestedAgain: Option<bool>, reason: Reason, commit: bool)

  datatype Run = Run(
    setup: Option<Exn>, targets: seq<string>, script: string -> Script, finish: Option<Exn>, complete: Option<Exn>,
    handler: Handler)

  /** How a run ends; `Escaped` when handling the failure raised itself. */
  datatype Outcome = Completed | Cancelled | FailedRun(code: string, retryable: bool) | Escaped

  function Commit(h: Handler, o: Outcome): Outcome { if h.commit then o else Escaped }

  /** The exception handler of `_execute_run`. */
  function Route(e: Exn, pending: bool, h: Handler): Outcome {
    var e1 := if pending && !IsRuntimeCancellation(e) then RuntimeExecution("recovery_required") else e;
    var e2 := if h.failStep then e1 else RuntimeExecution("recovery_required");
    if h.cancelRequested == None then Escaped
    else if h.cancelRequested == Some(true) && !RequiresOperatorRecovery(e2) then Commit(h, Cancelled)
    else
      var (code, retryable) := SafeRuntimeFailure(e2);
      if code == "cancelled" then
        if h.cancelRequestedAgain == None then Escaped
        else if h.cancelRequestedAgain == Some(true) then Commit(h, Cancelled)
        else if h.reason == Shutdown then Commit(h, FailedRun("runtime_interrupted", true))
        else Commit(h, FailedRun("recovery_required", false))
      else Commit(h, FailedRun(code, retryable))
  }

  /** Where the run stood when it raised or finished its work. */
  function Work(s: State, r: Run): Progress {
    if r.setup.Some? then Progress(s, r.setup, false)
    else
      var p := HandleTargets(s, r.targets, r.script);
      if p.raised.Some? then p
      else if r.finish.Some? then Progress(p.s, r.finish, true)
      else if r.complete.Some? then Progress(p.s, r.complete, true)
      else p
  }

  function Execute(s: State, r: Run): (State, Outcome) {
    var p := Work(s, r);
    (p.s, match p.raised case None => Completed case Some(e) => Route(e, p.pending, r.handler))
  }

  /** A run may be started again, or its source scope released, only in these ends. */
  predicate Releasable(o: Outcome) { o == Cancelled || (o.FailedRun? && o.retryable) }

  // ------------------------------------------------------------ assumptions

  /** Store and attestation failures are not the Runtime's own cancellation. */
  ghost predicate StoreRaisesItsOwn(r: Run) {
    (r.finish.Some? ==> !IsRuntimeCancellation(r.finish.value))
    && (r.complete.Some? ==> !IsRuntimeCancellation(r.complete.value))
    && forall t | t in r.targets ::
        (r.script(t).attested.Some? ==> !IsRuntimeCancellation(r.script(t).attested.value))
        && (r.script(t).record != Done ==> !IsRuntimeCancellation(r.script(t).record.e))
  }

  /** Releasing the writer lock raises nothing but its own error class. */
  ghost predicate ReleaseRaisesLockErrors(r: Run) {
    forall t | t in r.targets :: r.script(t).release == None || r.script(t).release == Some(OtherException)
  }

  /** The output of `t` is at least partly published while the writer lock fails to release. */
  predicate LeakAt(s: State, t: string, x: Script) {
    t !in s.checkpoints && x.unlocked == None && x.locked == None && !Published(s, t)
    && !x.moveImage.FailsBefore? && x.release.Some?
  }

  /** The run stops at a target that leaks. */
  predicate LeaksOn(s: State, targets: seq<string>, script: string -> Script)
    decreases |targets|
  {
    targets != []
    && (LeakAt(s, targets[0], script(targets[0]))
        || (HandleTarget(s, targets[0], script(targets[0])).raised == None
            && LeaksOn(HandleTarget(s, targets[0], script(targets[0])).s, targets[1..], script)))
  }

  predicate Leaks(s: State, r: Run) { r.setup == None && LeaksOn(s, r.targets, r.script) }

  // ---------------------------------------------------------------- theorems

  const RECOVERY := Some(RuntimeExecution("recovery_required"))

  /** An unrecorded output after one target means: pending, recovery already raised, or a leak. */
  lemma HandleTargetClosure(s: State, t: string, x: Script)
    requires AllRecorded(s)
    ensures var p := HandleTarget(s, t, x); p.raised == None ==> AllRecorded(p.s) && t in p.s.checkpoints && Verified(p.s, t)
    ensures var p := HandleTarget(s, t, x); !AllRecorded(p.s) ==> p.pending || p.raised == RECOVERY || LeakAt(s, t, x)
    ensures var p := HandleTarget(s, t, x);
            LeakAt(s, t, x) ==> !AllRecorded(p.s) && !p.pending && p.raised == Some(Translate(x.release.value))
  {
    var p := HandleTarget(s, t, x);
    if LeakAt(s, t, x) { assert Published(p.s, t) && t !in p.s.checkpoints; }
  }

  /** Nothing already checkpointed is touched. */
  lemma HandleTargetFrame(s: State, t: string, x: Script, u: string)
    requires u in s.checkpoints
    ensures var p := HandleTarget(s, t, x);
            u in p.s.checkpoints && p.s.checkpoints[u] == s.checkpoints[u] && (Verified(s, u) ==> Verified(p.s, u))
  {
  }

  lemma {:induction false} HandleTargetsClosure(s: State, targets: seq<string>, script: string -> Script)
    requires AllRecorded(s)
    ensures var p := HandleTargets(s, targets, script); p.raised == None ==> AllRecorded(p.s) && !p.pending
    ensures var p := HandleTargets(s, targets, script);
            !AllRecorded(p.s) ==> p.pending || p.raised == RECOVERY || LeaksOn(s, targets, script)
    ensures var p := HandleTargets(s, targets, script);
            LeaksOn(s, targets, script) ==>
              !AllRecorded(p.s) && !p.pending
              && exists t | t in targets :: script(t).release.Some? && p.raised == Some(Translate(script(t).release.value))
    decreases |targets|
  {
    if targets != [] {
      var t := targets[0];
      HandleTargetClosure(s, t, script(t));
      var p := HandleTarget(s, t, script(t));
      assert t in targets;
      if p.raised == None {
        HandleTargetsClosure(p.s, targets[1..], script);
      }
    }
  }

  lemma {:induction false} HandleTargetsFrame(s: State, targets: seq<string>, script: string -> Script, u: string)
    requires u in s.checkpoints
    ensures var p := HandleTargets(s, targets, script);
            u in p.s.checkpoints && p.s.checkpoints[u] == s.checkpoints[u] && (Verified(s, u) ==> Verified(p.s, u))
    decreases |targets|
  {
    if targets != [] {
      HandleTargetFrame(s, targets[0], script(targets[0]), u);
      var p := HandleTarget(s, targets[0], script(targets[0]));
      if p.raised == None { HandleTargetsFrame(p.s, targets[1..], script, u); }
    }
  }

  lemma {:induction false} HandleTargetsComplete(s: State, targets: seq<string>, script: string -> Script)
    requires AllRecorded(s) && HandleTargets(s, targets, script).raised == None
    ensures var p := HandleTargets(s, targets, script); forall t | t in targets :: t in p.s.checkpoints && Verified(p.s, t)
    decreases |targets|
  {
    if targets != [] {
      var t := targets[0];
      HandleTargetClosure(s, t, script(t));
      var p := HandleTarget(s, t, script(t));
      HandleTargetsComplete(p.s, targets[1..], script);
      HandleTargetsFrame(p.s, targets[1..], script, t);
      assert targets == [t] + targets[1..];
    }
  }

  /** Pending work or a recovery failure is never routed to a releasable end. */
  lemma RouteKeepsRecovery(e: Exn, pending: bool, h: Handler)
    requires pending ==> !IsRuntimeCancellation(e)
    requires pending || e == RuntimeExecution("recovery_required")
    ensures Route(e, pending, h) in {FailedRun("recovery_required", false), Escaped}
  {
  }

  /**
   Starting with every output checkpointed, a run that ends with an unrecorded output ends in
   `recovery_required` (or its failure could not be recorded at all), unless it leaked.
   */
  lemma UnrecordedForcesRecovery(s: State, r: Run)
    requires AllRecorded(s) && StoreRaisesItsOwn(r) && !Leaks(s, r)
    ensures var (s', o) := Execute(s, r);
            !AllRecorded(s') ==> o in {FailedRun("recovery_required", false), Escaped}
  {
    var p := Work(s, r);
    if r.setup == None { HandleTargetsClosure(s, r.targets, r.script); }
    if !AllRecorded(p.s) {
      PendingRaisedByStore(s, r.targets, r.script);
      RouteKeepsRecovery(p.raised.value, p.pending, r.handler);
    }
  }

  lemma {:induction false} PendingRaisedByStore(s: State, targets: seq<string>, script: string -> Script)
    requires forall t | t in targets ::
        (script(t).attested.Some? ==> !IsRuntimeCancellation(script(t).attested.value))
        && (script(t).record != Done ==> !IsRuntimeCancellation(script(t).record.e))
    ensures var p := HandleTargets(s, targets, script);
            p.pending ==> p.raised.Some? && !IsRuntimeCancellation(p.raised.value)
    decreases |targets|
  {
    if targets != [] {
      assert targets[0] in targets;
      var p := HandleTarget(s, targets[0], script(targets[0]));
      if p.raised == None { PendingRaisedByStore(p.s, targets[1..], script); }
    }
  }

  /**
   Exactly when a releasable end hides an unrecorded output: the run leaked and a cancellation was
   requested. It is then reported as cancelled, never as retryable.
   */
  lemma ReleasableIsRecordedExceptLeaks(s: State, r: Run)
    requires AllRecorded(s) && StoreRaisesItsOwn(r) && ReleaseRaisesLockErrors(r)
    ensures var (s', o) := Execute(s, r);
            Releasable(o) && !AllRecorded(s') <==>
            Leaks(s, r) && r.handler.failStep && r.handler.cancelRequested == Some(true) && r.handler.commit
    ensures var (s', o) := Execute(s, r); o.FailedRun? && o.retryable ==> AllRecorded(s')
  {
    if Leaks(s, r) {
      HandleTargetsClosure(s, r.targets, r.script);
      assert Work(s, r).raised == Some(OtherException);
    } else {
      UnrecordedForcesRecovery(s, r);
    }
  }

  // -------------------------------------------------- from any state whatever

  /** Outputs and checkpoints that are there stay there, unchanged. */
  ghost predicate Kept(s: State, s': State) {
    (forall u | u in s.images :: u in s'.images && s'.images[u] == s.images[u])
    && (forall u | u in s.points :: u in s'.points && s'.points[u] == s.points[u])
    && (forall u | u in s.checkpoints :: u in s'.checkpoints && s'.checkpoints[u] == s.checkpoints[u])
  }

  lemma TrackKeeps(s: State, t: string, x: Script)
    ensures Kept(s, Track(s, t, x).0) && Track(s, t, x).0.checkpoints == s.checkpoints
  {
  }

  lemma HandleTargetKeeps(s: State, t: string, x: Script)
    ensures Kept(s, HandleTarget(s, t, x).s)
  {
    if t !in s.checkpoints { TrackKeeps(s, t, x); }
  }

  lemma {:induction false} HandleTargetsKeep(s: State, targets: seq<string>, script: string -> Script)
    ensures Kept(s, HandleTargets(s, targets, script).s)
    decreases |targets|
  {
    if targets != [] {
      var p := HandleTarget(s, targets[0], script(targets[0]));
      HandleTargetKeeps(s, targets[0], script(targets[0]));
      if p.raised == None { HandleTargetsKeep(p.s, targets[1..], script); }
    }
  }

  /** No run of any kind overwrites or removes an output or a checkpoint, recorded or not. */
  lemma OutputsNeverOverwritten(s: State, r: Run)
    ensures Kept(s, Execute(s, r).0)
  {
    HandleTargetsKeep(s, r.targets, r.script);
  }

  /** An output that is there without a checkpoint. */
  predicate Stray(s: State, t: string) { Published(s, t) && t !in s.checkpoints }

  /** Tracking refuses a stray output, as `recovery_required` unless it failed otherwise. */
  lemma StrayIsRefused(s: State, t: string, x: Script)
    requires Stray(s, t)
    ensures var p := HandleTarget(s, t, x); p.s == s && p.raised.Some? && !p.pending
    ensures x.unlocked == None && x.locked == None && x.release == None ==> HandleTarget(s, t, x).raised == RECOVERY
  {
  }

  /** Handling one target leaves the stray outputs of the others as they are. */
  lemma StrayStays(s: State, t: string, x: Script, u: string)
    requires Stray(s, u) && u != t
    ensures Stray(HandleTarget(s, t, x).s, u)
  {
  }

  lemma {:induction false} StrayStops(s: State, targets: seq<string>, script: string -> Script, t: string)
    requires Stray(s, t) && t in targets
    ensures HandleTargets(s, targets, script).raised.Some?
    decreases |targets|
  {
    var u := targets[0];
    var p := HandleTarget(s, u, script(u));
    if u == t {
      StrayIsRefused(s, t, script(t));
    } else if p.raised == None {
      StrayStays(s, u, script(u), t);
      assert targets == [u] + targets[1..];
      StrayStops(p.s, targets[1..], script, t);
    }
  }

  /** From any state, a run one of whose targets has a stray output never completes. */
  lemma StrayNeverCompletes(s: State, r: Run, t: string)
    requires t in r.targets && Stray(s, t)
    ensures Execute(s, r).1 != Completed
  {
    if r.setup == None { StrayStops(s, r.targets, r.script, t); }
  }

  /** A recorded target is only verified: its checkpoint must match both outputs, and nothing changes. */
  lemma RecordedIsOnlyVerified(s: State, t: string, x: Script)
    requires t in s.checkpoints
    ensures var p := HandleTarget(s, t, x);
            p.s == s && !p.pending
            && (p.raised == None <==>
                x.verify == None && t in s.images && t in s.points && s.checkpoints[t] == (s.images[t], s.points[t]))
  {
  }

  /** A turn cancelled inside Tracking reaches the worker as the Runtime's own cancellation. */
  lemma TurnCancellationIsTranslated(s: State, t: string, x: Script)
    requires t !in s.checkpoints && x.release == None
    requires x.unlocked == Some(TurnCancelled) || (x.unlocked == None && x.locked == Some(TurnCancelled))
    ensures HandleTarget(s, t, x) == Progress(s, Some(RuntimeExecution("runtime_cancelled")), false)
  {
  }

  // ------------------------------------------------------------ how runs end

  /** The store does its part while a failure is handled. */
  predicate StoreWorks(h: Handler) { h.failStep && h.cancelRequested.Some? && h.cancelRequestedAgain.Some? && h.commit }

  /** A cancelled Runtime call ends the run as asked: cancelled on request, retryable on shutdown, else for an operator. */
  lemma CancelledCallEnds(s: State, r: Run)
    requires Work(s, r).raised == Some(RuntimeExecution("runtime_cancelled")) && !Work(s, r).pending && StoreWorks(r.handler)
    ensures Execute(s, r).1 ==
            if r.handler.cancelRequested.value || r.handler.cancelRequestedAgain.value then Cancelled
            else if r.handler.reason == Shutdown then FailedRun("runtime_interrupted", true)
            else FailedRun("recovery_required", false)
  {
    assert "runtime_cancelled"[1] != "recovery_required"[1];
    CancelledCode();
  }

  lemma CancelledCode()
    ensures SafeRuntimeFailure(RuntimeExecution("runtime_cancelled")) == ("cancelled", false)
  {
    NotListed("runtime_cancelled");
  }

  /** No listed code but one of 17 letters starting "ru" could be `runtime_cancelled`; none is. */
  lemma NotListed(code: string)
    requires code == "runtime_cancelled"
    ensures code != "annotation_runtime_unavailable" && code !in INPUT_CODES && code !in RECOVERY_CODES
  {
    assert |code| == 17 && code[1] == 'u' && "recovery_required"[1] == 'e';
    assert |"annotation_runtime_unavailable"| == 30;
    assert |"runtime_input_changed"| == 21 && |"runtime_manifest_changed"| == 24 && |"prepared_staging_changed"| == 24;
    assert |"tracking_yaml_changed"| == 21 && |"unsafe_runtime_input"| == 20 && |"unsupported_runtime_variant"| == 27;
    assert |"missing_runtime_input"| == 21 && |"calibration_snapshot_mismatch"| == 29;
    assert |"unsafe_existing_tracking_output"| == 31 && |"unsafe_tracking_output"| == 22 && |"tracking_output_conflict"| == 24;
  }

  /** Any other failure of work that is not pending ends the run as cancelled if that was requested, else with its public code. */
  lemma OtherFailureEnds(s: State, r: Run)
    requires Work(s, r).raised.Some? && !Work(s, r).pending && StoreWorks(r.handler)
    requires !IsRuntimeCancellation(Work(s, r).raised.value) && !RequiresOperatorRecovery(Work(s, r).raised.value)
    ensures var (code, retryable) := SafeRuntimeFailure(Work(s, r).raised.value);
            Execute(s, r).1 == if r.handler.cancelRequested.value then Cancelled else FailedRun(code, retryable)
  {
    NoOtherInterruption(Work(s, r).raised.value);
  }

  /** A failure is retryable exactly if it says nothing about the safety of inputs or outputs. */
  lemma RetryableExactly(e: Exn)
    ensures SafeRuntimeFailure(e).1 <==>
            e == CapacityPreflight || e == RuntimeUnavailable
            || (e.RuntimeExecution?
                && e.code !in {"runtime_input_changed", "runtime_manifest_changed", "prepared_staging_changed",
                               "tracking_yaml_changed", "unsafe_runtime_input", "unsupported_runtime_variant",
                               "missing_runtime_input", "calibration_snapshot_mismatch",
                               "unsafe_existing_tracking_output", "unsafe_tracking_output", "tracking_output_conflict",
                               "recovery_required", "runtime_cancelled"})
    ensures e == CheckpointMismatch || (e.RuntimeExecution? && e.code in RECOVERY_CODES) ==>
              SafeRuntimeFailure(e).0 == "recovery_required"
  {
    if e.RuntimeExecution? && e.code == "annotation_runtime_unavailable" { Unavailable(e.code); }
    if e.RuntimeExecution? && e.code == "runtime_cancelled" { NotListed(e.code); }
    if e.RuntimeExecution? && e.code in RECOVERY_CODES { NotAnInput(e.code); }
  }

  lemma Unavailable(code: string)
    requires code == "annotation_runtime_unavailable"
    ensures code !in INPUT_CODES && code !in RECOVERY_CODES && code != "runtime_cancelled"
  {
    assert |code| == 30 && |"runtime_cancelled"| == 17 && |"recovery_required"| == 17;
    assert |"runtime_input_changed"| == 21 && |"runtime_manifest_changed"| == 24 && |"prepared_staging_changed"| == 24;
    assert |"tracking_yaml_changed"| == 21 && |"unsafe_runtime_input"| == 20 && |"unsupported_runtime_variant"| == 27;
    assert |"missing_runtime_input"| == 21 && |"calibration_snapshot_mismatch"| == 29;
    assert |"unsafe_existing_tracking_output"| == 31 && |"unsafe_tracking_output"| == 22 && |"tracking_output_conflict"| == 24;
  }

  lemma NotAnInput(code: string)
    requires code in RECOVERY_CODES
    ensures code !in INPUT_CODES && code != "annotation_runtime_unavailable"
  {
    assert |"annotation_runtime_unavailable"| == 30 && |"recovery_required"| == 17;
    assert |"runtime_input_changed"| == 21 && |"runtime_manifest_changed"| == 24 && |"prepared_staging_changed"| == 24;
    assert |"tracking_yaml_changed"| == 21 && |"unsafe_runtime_input"| == 20 && |"unsupported_runtime_variant"| == 27;
    assert |"missing_runtime_input"| == 21 && |"calibration_snapshot_mismatch"| == 29;
    assert |"unsafe_existing_tracking_output"| == 31 && |"unsafe_tracking_output"| == 22 && |"tracking_output_conflict"| == 24;
    assert "tracking_output_conflict"[0] == 't' && "runtime_manifest_changed"[0] == 'r' && "prepared_staging_changed"[0] == 'p';
  }

  // ------------------------------------------------------ runs without failures

  /** Nothing fails while this target is handled. */
  predicate Smooth(x: Script) {
    x.verify == None && x.unlocked == None && x.locked == None && x.moveImage == Done && x.movePoints == Done
    && x.harden == None && x.release == None && x.attested == None && x.record == Done
  }

  /** The target is recorded and verifies, or has no output yet. */
  predicate Ready(s: State, t: string) { if t in s.checkpoints then Verified(s, t) else !Published(s, t) }

  lemma SmoothTarget(s: State, t: string, x: Script)
    requires Smooth(x) && Ready(s, t)
    ensures var p := HandleTarget(s, t, x); p.raised == None && forall u | Ready(s, u) :: Ready(p.s, u)
  {
  }

  lemma {:induction false} SmoothTargets(s: State, targets: seq<string>, script: string -> Script)
    requires forall t | t in targets :: Smooth(script(t)) && Ready(s, t)
    ensures HandleTargets(s, targets, script).raised == None
    decreases |targets|
  {
    if targets != [] {
      assert targets[0] in targets;
      SmoothTarget(s, targets[0], script(targets[0]));
      SmoothTargets(HandleTarget(s, targets[0], script(targets[0])).s, targets[1..], script);
    }
  }

  /** If nothing fails, a run whose targets are recorded or still without output completes. */
  lemma SmoothRunCompletes(s: State, r: Run)
    requires r.setup == None && r.finish == None && r.complete == None
    requires forall t | t in r.targets :: Smooth(r.script(t)) && Ready(s, t)
    ensures Execute(s, r).1 == Completed
  {
    SmoothTargets(s, r.targets, r.script);
  }

  /** Once all outputs are recorded, a failure to close the ledger needs an operator, whatever was requested. */
  lemma ClosureFailureNeedsRecovery(s: State, r: Run)
    requires StoreRaisesItsOwn(r) && r.setup == None && HandleTargets(s, r.targets, r.script).raised == None
    requires r.finish.Some? || r.complete.Some?
    ensures Execute(s, r).1 in {FailedRun("recovery_required", false), Escaped}
  {
    RouteKeepsRecovery(Work(s, r).raised.value, true, r.handler);
  }

  /** A completed run leaves every target with a checkpoint that matches its outputs. */
  lemma CompletedIsVerified(s: State, r: Run)
    requires AllRecorded(s) && Execute(s, r).1 == Completed
    ensures var s' := Execute(s, r).0;
            AllRecorded(s') && forall t | t in r.targets ::
              t in s'.checkpoints && t in s'.images && t in s'.points && s'.checkpoints[t] == (s'.images[t], s'.points[t])
  {
    HandleTargetsClosure(s, r.targets, r.script);
    HandleTargetsComplete(s, r.targets, r.script);
  }

  /**
   A run ends as cancelled only if the store asked for it, and as interrupted (retryable) only if the
   Runtime was cancelled for a shutdown while nothing was pending and nobody asked for a cancellation.
   */
  lemma CancelledOnlyOnRequest(s: State, r: Run)
    requires StoreRaisesItsOwn(r)
    ensures Execute(s, r).1 == Cancelled ==>
              r.handler.cancelRequested == Some(true) || r.handler.cancelRequestedAgain == Some(true)
    ensures Execute(s, r).1 == FailedRun("runtime_interrupted", true) ==>
              r.handler.reason == Shutdown && r.handler.cancelRequested != Some(true)
              && Work(s, r).raised == Some(RuntimeExecution("runtime_cancelled")) && !Work(s, r).pending
  {
    var p := Work(s, r);
    PendingRaisedByStore(s, r.targets, r.script);
    if p.raised.Some? { InterruptedOnlyByShutdown(p.raised.value, p.pending, r.handler); }
  }

  lemma InterruptedOnlyByShutdown(e: Exn, pending: bool, h: Handler)
    requires pending ==> !IsRuntimeCancellation(e)
    ensures Route(e, pending, h) == Cancelled ==> h.cancelRequested == Some(true) || h.cancelRequestedAgain == Some(true)
    ensures Route(e, pending, h) == FailedRun("runtime_interrupted", true) ==>
              h.reason == Shutdown && h.cancelRequested != Some(true) && IsRuntimeCancellation(e) && !pending
  {
    var e1 := if pending && !IsRuntimeCancellation(e) then RuntimeExecution("recovery_required") else e;
    var e2 := if h.failStep then e1 else RuntimeExecution("recovery_required");
    NoOtherInterruption(e2);
  }

  lemma NoOtherInterruption(e: Exn)
    ensures SafeRuntimeFailure(e) != ("runtime_interrupted", true)
    ensures SafeRuntimeFailure(e).0 == "cancelled" ==> IsRuntimeCancellation(e) && !RequiresOperatorRecovery(e)
  {
    assert "runtime_cancelled"[1] != "recovery_required"[1];
    var interrupted := "runtime_interrupted";
    assert |interrupted| == 19;
    assert |"annotation_runtime_failed"| == 25 && |"annotation_runtime_unavailable"| == 30;
    assert |"insufficient_annotation_capacity"| == 32 && |"recovery_required"| == 17 && |"cancelled"| == 9;
  }

  /** The leak is real: one target, published completely, whose lock release fails under a cancel request. */
  lemma LeakWitness()
    ensures exists s, r :: AllRecorded(s) && StoreRaisesItsOwn(r) && ReleaseRaisesLockErrors(r)
                           && Execute(s, r).1 == Cancelled && !AllRecorded(Execute(s, r).0)
  {
    var x := Script(None, None, None, 1, 2, Done, Done, None, Some(OtherException), None, Done);
    var r := Run(None, ["t"], _ => x, None, None, Handler(true, Some(true), Some(true), OtherReason, true));
    var s := State(map[], map[], map[]);
    assert LeakAt(s, "t", x);
    assert LeaksOn(s, ["t"], r.script);
    ReleasableIsRecordedExceptLeaks(s, r);
    assert Execute(s, r).1 == Cancelled;
  }

  // ------------------------------------------------------------ repeated runs

  /** Runs made one after the other, each started only because the one before ended releasable. */
  ghost predicate Attempts(states: seq<State>, runs: seq<Run>) {
    |states| == |runs| + 1 && forall i: nat | i < |runs| :: Attempt(states, runs, i)
  }

  ghost predicate Attempt(states: seq<State>, runs: seq<Run>, i: nat)
    requires i < |runs| < |states|
  {
    states[i + 1] == Execute(states[i], runs[i]).0 && (i + 1 < |runs| ==> Releasable(Execute(states[i], runs[i]).1))
  }

  ghost predicate Clean(s: State, r: Run) { StoreRaisesItsOwn(r) && ReleaseRaisesLockErrors(r) && !Leaks(s, r) }

  lemma ExecuteFrame(s: State, r: Run, u: string)
    requires u in s.checkpoints
    ensures var s' := Execute(s, r).0;
            u in s'.checkpoints && s'.checkpoints[u] == s.checkpoints[u] && (Verified(s, u) ==> Verified(s', u))
  {
    HandleTargetsFrame(s, r.targets, r.script, u);
  }

  /**
   However often a job is retried or cancelled and resumed, every attempt starts with all outputs
   recorded, and a checkpoint once recorded is never changed, nor the outputs it vouches for.
   */
  lemma {:induction false} AttemptsStartRecorded(states: seq<State>, runs: seq<Run>, k: nat)
    requires Attempts(states, runs) && AllRecorded(states[0]) && k < |runs|
    requires forall i: nat | i < |runs| :: Clean(states[i], runs[i])
    ensures AllRecorded(states[k])
    ensures forall u | u in states[0].checkpoints ::
              u in states[k].checkpoints && states[k].checkpoints[u] == states[0].checkpoints[u]
              && (Verified(states[0], u) ==> Verified(states[k], u))
    decreases k
  {
    if k > 0 {
      var j := k - 1;
      AttemptsStartRecorded(states, runs, j);
      assert Clean(states[j], runs[j]) && Attempt(states, runs, j);
      ReleasableIsRecordedExceptLeaks(states[j], runs[j]);
      forall u | u in states[0].checkpoints
        ensures u in states[k].checkpoints && states[k].checkpoints[u] == states[0].checkpoints[u]
        ensures Verified(states[0], u) ==> Verified(states[k], u)
      {
        ExecuteFrame(states[j], runs[j], u);
      }
    }
  }

  // --------------------------------------------------------------- the worker

  /** The worker with its outputs and its store. */
  class Worker {
    var state: State

    constructor (s: State)
      ensures state == s
    {
      state := s;
    }

    method MoveOutput(t: string, x: Script) returns (raised: Option<Exn>)
      modifies this
      ensures (state, raised) == PublishOutput(old(state), t, x)
    {
      raised := RECOVERY;
      if !x.moveImage.FailsBefore? {
        state := state.(images := state.images[t := x.image]);
      }
      if x.moveImage != Done {
        return;
      }
      if !x.movePoints.FailsBefore? {
        state := state.(points := state.points[t := x.points]);
      }
      if x.movePoints == Done && x.harden == None {
        raised := None;
      }
    }

    /** `track` for one target, with the writer lock released on every way out of it. */
    method RunTracking(t: string, x: Script) returns (raised: Option<Exn>)
      modifies this
      ensures (state, raised) == Track(old(state), t, x)
    {
      if x.unlocked.Some? {
        return Some(Translate(x.unlocked.value));
      }
      raised := x.locked;
      if raised == None {
        if Published(state, t) {
          raised := RECOVERY;
        } else {
          raised := MoveOutput(t, x);
        }
      }
      if x.release.Some? {
        raised := x.release;
      }
      if raised.Some? {
        raised := Some(Translate(raised.value));
      }
    }

    /** The Tracking branch and the exception handler of `_execute_run`. */
    method ExecuteRun(r: Run) returns (o: Outcome)
      modifies this
      ensures (state, o) == Execute(old(state), r)
    {
      var pending := false;
      var raised := r.setup;
      var i := 0;
      while raised == None && i < |r.targets|
        invariant 0 <= i <= |r.targets|
        invariant r.setup.Some? ==> i == 0 && state == old(state) && raised == r.setup && !pending
        invariant r.setup == None ==>
                    HandleTargets(old(state), r.targets, r.script)
                    == if raised.Some? then Progress(state, raised, pending)
                       else HandleTargets(state, r.targets[i..], r.script)
        invariant raised == None ==> !pending
        decreases raised == None, |r.targets| - i
      {
        var t := r.targets[i];
        raised, pending := HandleOne(t, r.script(t));
        i := i + 1;
      }
      if raised == None {
        pending := true;
        raised := if r.finish.Some? then r.finish else r.complete;
        if raised == None {
          return Completed;
        }
      }
      o := Route(raised.value, pending, r.handler);
    }

    method HandleOne(t: string, x: Script) returns (raised: Option<Exn>, pending: bool)
      modifies this
      ensures Progress(state, raised, pending) == HandleTarget(old(state), t, x)
    {
      pending := false;
      if t in state.checkpoints {
        if x.verify.Some? {
          return x.verify, false;
        }
        return if Verified(state, t) then None else Some(CheckpointMismatch), false;
      }
      raised := RunTracking(t, x);
      if raised.Some? {
        return;
      }
      pending := true;
      if x.attested.Some? {
        return x.attested, true;
      }
      if !x.record.FailsBefore? {
        state := state.(checkpoints := state.checkpoints[t := (x.image, x.points)]);
      }
      if x.record != Done {
        return Some(x.record.e), true;
      }
      pending := false;
    }
  }
}
