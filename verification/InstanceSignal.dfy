/**
 `signal-instance` on Linux: pidfd, PID file, identity file, lock and birth checks, interleaved step by
 step with processes exiting, PIDs being reused and files being replaced.
 */
module InstanceSignal {
  import opened Common

  type Pid = nat
  type Birth = string
  /** One process incarnation; the kernel never brings one back. */
  type Incarnation = nat
  /** An identity file's inode; its content is written before it gets its name and never changes. */
  type Inode = nat

  datatype Identity = Identity(pid: Pid, birth: Birth)

  datatype Exit = Sent | MissingExit | ChangedExit | StaleExit | ControlPathError

  /** How far one command has come, with what it has read so far. */
  datatype Stage =
    | Start
    | HasPidfd(target: Incarnation)
    | HasPid(target: Incarnation)
    | HasIdentity(target: Incarnation, inode: Inode)
    | PidMatches(target: Incarnation, inode: Inode)
    | LockHeld(target: Incarnation, inode: Inode)
    | BirthMatches(target: Incarnation, inode: Inode)
    | Finished(exit: Exit)

  datatype Command = Command(expected: Pid, stage: Stage)

  datatype Delivery = Delivery(command: nat, target: Incarnation)

  /**
   `running` maps PIDs to live incarnations and `born` records every incarnation ever started.
   `sawLock` and `visited` note at which inode a command saw the lock held, or opened the identity path.
   */
  datatype World = World(
    running: map<Pid, Incarnation>, born: seq<Identity>,
    pidFile: Option<Pid>, identityPath: Option<Inode>, inodes: map<Inode, Identity>, locked: set<Inode>,
    commands: map<nat, Command>, delivered: seq<Delivery>, visited: set<(nat, Inode)>, sawLock: set<(nat, Inode)>)

  datatype Step =
    | StartProcess(pid: Pid, birth: Birth)
    | ExitProcess(pid: Pid)
    | WritePidFile(content: Option<Pid>)
    | CreateIdentity(inode: Inode, identity: Identity)
    | RenameIdentity(named: Option<Inode>)
    | TakeLock(inode: Inode)
    | DropLock(inode: Inode)
    | NewCommand(id: nat, expected: Pid)
    | Advance(id: nat)
    | Fault(id: nat)

  predicate Enabled(w: World, step: Step) {
    match step
    case StartProcess(pid, _) => pid !in w.running
    case ExitProcess(pid) => pid in w.running
    case CreateIdentity(inode, _) => inode !in w.inodes
    case RenameIdentity(named) => named.Some? ==> named.value in w.inodes
    case TakeLock(inode) => inode in w.inodes && inode !in w.locked
    case NewCommand(id, _) => id !in w.commands
    case Advance(id) => id in w.commands && !w.commands[id].stage.Finished?
    case Fault(id) => id in w.commands && !w.commands[id].stage.Finished?
    case _ => true
  }

  /** The birth identity `/proc` reports for a PID, if a process runs under it. */
  function BirthOf(w: World, pid: Pid): Option<Birth> {
    if pid in w.running && w.running[pid] < |w.born| then Some(w.born[w.running[pid]].birth) else None
  }

  predicate Alive(w: World, target: Incarnation) {
    target < |w.born| && w.born[target].pid in w.running && w.running[w.born[target].pid] == target
  }

  /** The next stage of a command, from what it reads now. */
  function Next(w: World, c: Command): Stage {
    match c.stage
    case Start =>
      if c.expected in w.running then HasPidfd(w.running[c.expected]) else Finished(StaleExit)
    case HasPidfd(target) =>
      if w.pidFile == None then Finished(MissingExit)
      else if w.pidFile.value != c.expected then Finished(ChangedExit)
      else HasPid(target)
    case HasPid(target) =>
      if w.identityPath == None then Finished(StaleExit) else HasIdentity(target, w.identityPath.value)
    case HasIdentity(target, inode) =>
      if inode !in w.inodes || w.inodes[inode].pid != c.expected then Finished(StaleExit) else PidMatches(target, inode)
    case PidMatches(target, inode) =>
      if inode !in w.locked then Finished(StaleExit) else LockHeld(target, inode)
    case LockHeld(target, inode) =>
      if inode !in w.inodes || BirthOf(w, c.expected) != Some(w.inodes[inode].birth) then Finished(StaleExit)
      else BirthMatches(target, inode)
    case BirthMatches(target, _) => if Alive(w, target) then Finished(Sent) else Finished(StaleExit)
    case Finished(exit) => c.stage
  }

  function Apply(w: World, step: Step): World
    requires Enabled(w, step)
  {
    match step
    case StartProcess(pid, birth) =>
      w.(running := w.running[pid := |w.born|], born := w.born + [Identity(pid, birth)])
    case ExitProcess(pid) => w.(running := w.running - {pid})
    case WritePidFile(content) => w.(pidFile := content)
    case CreateIdentity(inode, identity) => w.(inodes := w.inodes[inode := identity])
    case RenameIdentity(named) => w.(identityPath := named)
    case TakeLock(inode) => w.(locked := w.locked + {inode})
    case DropLock(inode) => w.(locked := w.locked - {inode})
    case NewCommand(id, expected) => w.(commands := w.commands[id := Command(expected, Start)])
    // A system call fails, or a file has unexpected content: the command raises.
    case Fault(id) => w.(commands := w.commands[id := w.commands[id].(stage := Finished(ControlPathError))])
    case Advance(id) =>
      var c := w.commands[id];
      var next := Next(w, c);
      w.(commands := w.commands[id := c.(stage := next)],
         delivered := if next == Finished(Sent) then w.delivered + [Delivery(id, c.stage.target)] else w.delivered,
         visited := if next.HasIdentity? then w.visited + {(id, next.inode)} else w.visited,
         sawLock := if next.LockHeld? then w.sawLock + {(id, next.inode)} else w.sawLock)
  }

  const START := World(map[], [], None, None, map[], {}, map[], [], {}, {})

  ghost predicate IsRun(worlds: seq<World>, steps: seq<Step>) {
    |worlds| == |steps| + 1 && worlds[0] == START && forall i: nat | i < |steps| :: Follows(worlds, steps, i)
  }

  /** Step `i` leads from world `i` to the next. */
  ghost predicate Follows(worlds: seq<World>, steps: seq<Step>, i: nat)
    requires i < |steps| < |worlds|
  {
    Enabled(worlds[i], steps[i]) && worlds[i + 1] == Apply(worlds[i], steps[i])
  }

  // ------------------------------------------------------------------ invariant

  ghost predicate KernelOk(w: World) {
    (forall pid | pid in w.running :: w.running[pid] < |w.born| && w.born[w.running[pid]].pid == pid)
    && (w.identityPath.Some? ==> w.identityPath.value in w.inodes)
  }

  /** What a command knows at its stage. */
  ghost predicate CommandOk(w: World, id: nat, c: Command) {
    match c.stage
    case Start => true
    case HasPidfd(target) => Target(w, c, target)
    case HasPid(target) => Target(w, c, target)
    case HasIdentity(target, inode) => Target(w, c, target) && (id, inode) in w.visited && inode in w.inodes
    case PidMatches(target, inode) =>
      Target(w, c, target) && (id, inode) in w.visited && inode in w.inodes && w.inodes[inode].pid == c.expected
    case LockHeld(target, inode) =>
      Target(w, c, target) && (id, inode) in w.visited && inode in w.inodes && w.inodes[inode].pid == c.expected
      && (id, inode) in w.sawLock
    case BirthMatches(target, inode) =>
      Target(w, c, target) && (id, inode) in w.visited && inode in w.inodes && w.inodes[inode].pid == c.expected
      && (id, inode) in w.sawLock && (Alive(w, target) ==> w.born[target] == w.inodes[inode])
    case Finished(_) => true
  }

  /** The pidfd still names an incarnation that was started under the expected PID. */
  ghost predicate Target(w: World, c: Command, target: Incarnation) {
    target < |w.born| && w.born[target].pid == c.expected
  }

  ghost predicate CommandsOk(w: World) {
    forall id | id in w.commands :: CommandOk(w, id, w.commands[id])
  }

  ghost predicate Justified(w: World, d: Delivery, inode: Inode) {
    (d.command, inode) in w.visited && (d.command, inode) in w.sawLock
    && inode in w.inodes && d.target < |w.born| && w.born[d.target] == w.inodes[inode]
  }

  ghost predicate DeliveryOk(w: World, d: Delivery) {
    d.command in w.commands && w.commands[d.command].stage == Finished(Sent)
    && d.target < |w.born| && w.born[d.target].pid == w.commands[d.command].expected
    && exists inode :: Justified(w, d, inode)
  }

  ghost predicate DeliveriesOk(w: World) {
    (forall i | 0 <= i < |w.delivered| :: DeliveryOk(w, w.delivered[i]))
    && (forall i, j | 0 <= i < j < |w.delivered| :: w.delivered[i].command != w.delivered[j].command)
    && (forall id | id in w.commands && w.commands[id].stage == Finished(Sent) :: SentBy(w, id))
  }

  ghost predicate SentBy(w: World, id: nat) {
    exists i | 0 <= i < |w.delivered| :: w.delivered[i].command == id
  }

  ghost predicate Inv(w: World) { KernelOk(w) && CommandsOk(w) && DeliveriesOk(w) }

  /** Nothing recorded is ever lost or rewritten, and a dead incarnation stays dead. */
  ghost predicate Grows(w: World, w': World) {
    |w.born| <= |w'.born| && (forall i | 0 <= i < |w.born| :: w'.born[i] == w.born[i])
    && (forall inode | inode in w.inodes :: inode in w'.inodes && w'.inodes[inode] == w.inodes[inode])
    && w.visited <= w'.visited && w.sawLock <= w'.sawLock
    && (forall target: Incarnation | target < |w.born| && Alive(w', target) :: Alive(w, target))
  }

  lemma StepGrows(w: World, step: Step)
    requires KernelOk(w) && Enabled(w, step)
    ensures Grows(w, Apply(w, step)) && KernelOk(Apply(w, step))
  {
  }

  /** Facts a command holds survive whatever else happens. */
  lemma CommandSurvives(w: World, w': World, id: nat, c: Command)
    requires Grows(w, w') && CommandOk(w, id, c)
    ensures CommandOk(w', id, c)
  {
  }

  /** One step of the command itself establishes what its next stage knows. */
  lemma AdvanceOk(w: World, id: nat)
    requires KernelOk(w) && CommandsOk(w) && Enabled(w, Advance(id))
    ensures var w' := Apply(w, Advance(id)); CommandOk(w', id, w'.commands[id])
  {
    var c := w.commands[id];
    assert CommandOk(w, id, c);
  }

  lemma StepKeepsCommands(w: World, step: Step)
    requires KernelOk(w) && CommandsOk(w) && Enabled(w, step)
    ensures CommandsOk(Apply(w, step))
  {
    var w' := Apply(w, step);
    StepGrows(w, step);
    forall id | id in w'.commands ensures CommandOk(w', id, w'.commands[id]) {
      if step == Advance(id) {
        AdvanceOk(w, id);
      } else if id in w.commands {
        CommandSurvives(w, w', id, w.commands[id]);
      }
    }
  }

  /** A delivery stays justified whatever happens next. */
  lemma DeliverySurvives(w: World, step: Step, d: Delivery)
    requires KernelOk(w) && Enabled(w, step) && DeliveryOk(w, d)
    ensures DeliveryOk(Apply(w, step), d)
  {
    var w' := Apply(w, step);
    StepGrows(w, step);
    var inode :| Justified(w, d, inode);
    assert Justified(w', d, inode);
    assert w'.commands[d.command] == w.commands[d.command];
  }

  /** A new delivery is justified by what its command had checked. */
  lemma SendIsJustified(w: World, id: nat)
    requires Inv(w) && Enabled(w, Advance(id)) && Next(w, w.commands[id]) == Finished(Sent)
    ensures DeliveryOk(Apply(w, Advance(id)), Delivery(id, w.commands[id].stage.target))
  {
    var c := w.commands[id];
    assert CommandOk(w, id, c);
    assert Justified(Apply(w, Advance(id)), Delivery(id, c.stage.target), c.stage.inode);
  }

  lemma StepKeepsDeliveries(w: World, step: Step)
    requires Inv(w) && Enabled(w, step)
    ensures DeliveriesOk(Apply(w, step))
  {
    var w' := Apply(w, step);
    var sends := step.Advance? && Next(w, w.commands[step.id]) == Finished(Sent);
    assert w.delivered <= w'.delivered && |w'.delivered| == |w.delivered| + if sends then 1 else 0;
    forall i | 0 <= i < |w'.delivered| ensures DeliveryOk(w', w'.delivered[i]) {
      if i < |w.delivered| {
        DeliverySurvives(w, step, w.delivered[i]);
      } else {
        SendIsJustified(w, step.id);
      }
    }
    SuccessIsDelivered(w, step);
  }

  lemma SuccessIsDelivered(w: World, step: Step)
    requires DeliveriesOk(w) && Enabled(w, step)
    ensures var w' := Apply(w, step); forall id | id in w'.commands && w'.commands[id].stage == Finished(Sent) :: SentBy(w', id)
  {
    var w' := Apply(w, step);
    forall id | id in w'.commands && w'.commands[id].stage == Finished(Sent) ensures SentBy(w', id) {
      if id in w.commands && w.commands[id].stage == Finished(Sent) {
        var i :| 0 <= i < |w.delivered| && w.delivered[i].command == id;
        assert w'.delivered[i].command == id;
      } else {
        assert w'.delivered[|w.delivered|].command == id;
      }
    }
  }

  lemma {:induction false} RunsKeepInv(worlds: seq<World>, steps: seq<Step>, k: nat)
    requires IsRun(worlds, steps) && k < |worlds|
    ensures Inv(worlds[k])
  {
    if k > 0 {
      RunsKeepInv(worlds, steps, k - 1);
      assert Follows(worlds, steps, k - 1);
      StepGrows(worlds[k - 1], steps[k - 1]);
      StepKeepsCommands(worlds[k - 1], steps[k - 1]);
      StepKeepsDeliveries(worlds[k - 1], steps[k - 1]);
    }
  }

  // ------------------------------------------------------------------- theorems

  lemma {:induction false} LockSeenWhileHeld(worlds: seq<World>, steps: seq<Step>, k: nat, id: nat, inode: Inode)
    requires IsRun(worlds, steps) && k < |worlds| && (id, inode) in worlds[k].sawLock
    ensures exists j | 0 <= j < k :: steps[j] == Advance(id) && inode in worlds[j].locked
  {
    assert Follows(worlds, steps, k - 1);
    if (id, inode) in worlds[k - 1].sawLock {
      LockSeenWhileHeld(worlds, steps, k - 1, id, inode);
    } else {
      assert steps[k - 1] == Advance(id) && inode in worlds[k - 1].locked;
    }
  }

  lemma {:induction false} IdentityReadAtPath(worlds: seq<World>, steps: seq<Step>, k: nat, id: nat, inode: Inode)
    requires IsRun(worlds, steps) && k < |worlds| && (id, inode) in worlds[k].visited
    ensures exists i | 0 <= i < k :: steps[i] == Advance(id) && worlds[i].identityPath == Some(inode)
  {
    assert Follows(worlds, steps, k - 1);
    if (id, inode) in worlds[k - 1].visited {
      IdentityReadAtPath(worlds, steps, k - 1, id, inode);
    } else {
      assert steps[k - 1] == Advance(id) && worlds[k - 1].identityPath == Some(inode);
    }
  }

  /**
   Under every interleaving a signal reaches only the incarnation whose PID and birth are recorded in
   an identity file that the command opened at the identity path and saw locked.
   */
  lemma DeliveredOnlyToRecorded(worlds: seq<World>, steps: seq<Step>, k: nat, d: Delivery) returns (inode: Inode)
    requires IsRun(worlds, steps) && k < |worlds| && d in worlds[k].delivered
    ensures inode in worlds[k].inodes && d.target < |worlds[k].born| && worlds[k].inodes[inode] == worlds[k].born[d.target]
    ensures d.command in worlds[k].commands && worlds[k].inodes[inode].pid == worlds[k].commands[d.command].expected
    ensures exists i | 0 <= i < k :: steps[i] == Advance(d.command) && worlds[i].identityPath == Some(inode)
    ensures exists j | 0 <= j < k :: steps[j] == Advance(d.command) && inode in worlds[j].locked
  {
    RunsKeepInv(worlds, steps, k);
    var n :| 0 <= n < |worlds[k].delivered| && worlds[k].delivered[n] == d;
    assert DeliveryOk(worlds[k], worlds[k].delivered[n]);
    inode :| Justified(worlds[k], d, inode);
    IdentityReadAtPath(worlds, steps, k, d.command, inode);
    LockSeenWhileHeld(worlds, steps, k, d.command, inode);
  }

  /** A command delivers once if it reports success, and not at all otherwise. */
  lemma DeliversExactlyOnSuccess(worlds: seq<World>, steps: seq<Step>, k: nat, id: nat)
    requires IsRun(worlds, steps) && k < |worlds| && id in worlds[k].commands
    ensures worlds[k].commands[id].stage == Finished(Sent) <==> SentBy(worlds[k], id)
    ensures forall i, j | 0 <= i < |worlds[k].delivered| && 0 <= j < |worlds[k].delivered|
                          && worlds[k].delivered[i].command == id && worlds[k].delivered[j].command == id :: i == j
  {
    RunsKeepInv(worlds, steps, k);
  }

  /** The conditions under which an undisturbed command succeeds. */
  ghost predicate Serves(w: World, pid: Pid)
    requires KernelOk(w)
  {
    pid in w.running && w.pidFile == Some(pid)
    && w.identityPath.Some? && w.identityPath.value in w.inodes && w.identityPath.value in w.locked
    && w.inodes[w.identityPath.value] == w.born[w.running[pid]]
  }

  /** `_send_instance_signal` from start to end while nothing else happens. */
  method SendUndisturbed(w: World, id: nat, pid: Pid) returns (w': World, exit: Exit)
    requires KernelOk(w) && id !in w.commands
    ensures exit == Sent <==> Serves(w, pid)
    ensures exit == MissingExit <==> pid in w.running && w.pidFile == None
    ensures exit == ChangedExit <==> pid in w.running && w.pidFile.Some? && w.pidFile.value != pid
    ensures exit != ControlPathError
    ensures exit == Sent ==> w'.delivered == w.delivered + [Delivery(id, w.running[pid])]
    ensures exit != Sent ==> w'.delivered == w.delivered
    ensures w'.running == w.running && w'.inodes == w.inodes && w'.locked == w.locked
  {
    w' := Apply(w, NewCommand(id, pid));
    while !w'.commands[id].stage.Finished?
      invariant id in w'.commands && w'.commands[id].expected == pid
      invariant w'.running == w.running && w'.inodes == w.inodes && w'.locked == w.locked && w'.born == w.born
      invariant w'.pidFile == w.pidFile && w'.identityPath == w.identityPath
      invariant Undisturbed(w, w'.commands[id].stage, pid)
      invariant w'.delivered == if w'.commands[id].stage == Finished(Sent)
                                then w.delivered + [Delivery(id, w.running[pid])] else w.delivered
      decreases Rank(w'.commands[id].stage)
    {
      w' := Apply(w', Advance(id));
    }
    exit := w'.commands[id].stage.exit;
  }

  function Rank(s: Stage): nat {
    match s
    case Start => 7 case HasPidfd(_) => 6 case HasPid(_) => 5 case HasIdentity(_, _) => 4
    case PidMatches(_, _) => 3 case LockHeld(_, _) => 2 case BirthMatches(_, _) => 1 case Finished(_) => 0
  }

  ghost predicate Undisturbed(w: World, s: Stage, pid: Pid)
    requires KernelOk(w)
  {
    (s != Start && !s.Finished? ==> pid in w.running && s.target == w.running[pid])
    && (Rank(s) <= 5 && !s.Finished? ==> w.pidFile == Some(pid))
    && (Rank(s) <= 4 && !s.Finished? ==> w.identityPath == Some(s.inode))
    && (Rank(s) <= 3 && !s.Finished? ==> s.inode in w.inodes && w.inodes[s.inode].pid == pid)
    && (Rank(s) <= 2 && !s.Finished? ==> s.inode in w.locked)
    && (Rank(s) <= 1 && !s.Finished? ==> w.inodes[s.inode].birth == w.born[w.running[pid]].birth)
    && (s.Finished? ==>
          (s.exit == Sent <==> Serves(w, pid))
          && (s.exit == MissingExit <==> pid in w.running && w.pidFile == None)
          && (s.exit == ChangedExit <==> pid in w.running && w.pidFile.Some? && w.pidFile.value != pid)
          && s.exit != ControlPathError)
  }
}
