/** The notification subscription protocol: an owner's activations and disables, the
    tasks they spawn, the local router, the remote streams and retirement, as
    interleaved steps on shared state. */
module Subscription {

  datatype Sub = Disabled | Activating | Enabled | Disabling | Retired

  datatype Router = RouterDisabled | RouterEnabled | RouterRetired

  /** A finished control call: it succeeded, failed remotely, or found the generation
      inactive. */
  datatype CallResult = Succeeded | Failed | Inactive

  /** The owner's current activation call, up to joining the task it spawned. */
  datatype Caller =
    | CallIdle
    | CallWaiting      // for the transition lock
    | CallLocked       // the lock is held and the generation was active
    | CallInstalling   // the state is Activating, destinations not yet installed
    | CallJoined       // waiting for the spawned task
    | CallRecovering   // the task panicked; routing is to be disabled

  /** The activation task; it holds the transition lock from spawn to exit. */
  datatype Task =
    | NoTask
    | CheckRequested
    | CheckAbandoned
    | StartBlock
    | BlockReturned(r: CallResult)
    | BlockDecided(r: CallResult)
    | StopAbandonedBlock
    | StartVspc
    | VspcReturned(r: CallResult)
    | VspcDecided(r: CallResult)
    | RollbackBlock
    | RollbackReturned(r: CallResult)
    | RollbackDecided(r: CallResult)
    | CheckActive
    | Publish
    | GiveUp           // decide the state after a failed activation
    | GiveUpDisable
    | GiveUpClear
    | FailDisable      // clean up an abandoned or inactive activation
    | FailClear
    | FailState
    | DeactivateRouter(rolledBack: bool, r: CallResult)
    | DeactivateBlock
    | DeactivateVspc(block: CallResult)
    | DeactivateVerdict(block: CallResult, vspc: CallResult)
    | DeactivateClear
    | DeactivateState
    | RetireDisable
    | Retire           // waiting for a requested retirement

  /** The owner's current disable call and its task. */
  datatype Disabler =
    | DisableIdle
    | DisableFastClear // the state was already Disabled
    | DisableRouter    // the state is Disabling, routing not yet disabled
    | DisableWaiting   // for the transition lock
    | DisableBlock
    | DisableVspc(block: CallResult)
    | DisableVerdict(block: CallResult, vspc: CallResult)
    | DisableClear
    | DisableState
    | DisableLateClear // the activation already reached Disabled
    | DisableRetire

  datatype State = State(
    active: bool,
    sub: Sub,
    router: Router,
    installed: bool,
    block: bool,
    vspc: bool,
    caller: Caller,
    abandoned: bool,
    task: Task,
    disabler: Disabler,
    overtaken: bool)

  /** `overtaken` records that a disable which saw Disabled cleared the destinations
      of an activation that had begun meanwhile. */
  const Initial := State(true, Disabled, RouterDisabled, false, false, false, CallIdle, false, NoTask, DisableIdle, false)

  datatype Step =
    | ActivateStep
    | CallerStep
    | DropCallStep
    | TaskStep(result: CallResult, effect: bool)
    | DisableStep
    | DisablerStep(outcome: CallResult, remote: bool)
    | FaultStep
    | CloseStep
    | RetireStep

  /** Both state machines have retired; every operation below leaves that as it is. */
  predicate BothRetired(s: State) { s.sub.Retired? && s.router.RouterRetired? }

  // ----- The router -------------------------------------------------------------------------

  function RouterDisable(s: State): (t: State)
    ensures BothRetired(s) ==> BothRetired(t)
    ensures t.sub == s.sub
  {
    if s.router.RouterRetired? then s else s.(router := RouterDisabled)
  }

  function RouterClear(s: State): (t: State)
    ensures BothRetired(s) ==> BothRetired(t)
    ensures t.sub == s.sub
  {
    if s.router.RouterDisabled? then s.(installed := false) else s
  }

  function UnlessRetired(s: State, next: Sub): (t: State)
    ensures BothRetired(s) ==> BothRetired(t)
    ensures t.sub == s.sub || t.sub == next
  {
    if s.sub.Retired? then s else s.(sub := next)
  }

  // ----- Calls --------------------------------------------------------------------------------

  predicate Returns(s: State, r: CallResult) {
    r.Inactive? <==> !s.active
  }

  /** A successful start raises a stream and a successful stop lowers it; a failed
      call leaves it; a call cut off by retirement may have had either effect. */
  function Stream(now: bool, start: bool, r: CallResult, effect: bool): bool {
    match r
    case Succeeded => start
    case Failed => now
    case Inactive => if effect then start else now
  }

  predicate DisablerHoldsLock(d: Disabler) {
    !(d.DisableIdle? || d.DisableFastClear? || d.DisableRouter? || d.DisableWaiting?)
  }

  predicate LockFree(s: State) {
    s.task.NoTask? && !s.caller.CallLocked? && !s.caller.CallInstalling? && !DisablerHoldsLock(s.disabler)
  }

  // ----- Activation -----------------------------------------------------------------------------

  function CallerNext(s: State): (t: State)
    ensures BothRetired(s) ==> BothRetired(t)
    ensures t.sub == s.sub || t.sub.Activating? || t.sub.Disabled?
  {
    match s.caller
    case CallWaiting => if s.active then s.(caller := CallLocked) else s.(caller := CallIdle)
    case CallLocked => if s.sub.Disabled? then s.(sub := Activating, caller := CallInstalling) else s.(caller := CallIdle)
    case CallInstalling =>
      if s.router.RouterDisabled?
      then s.(installed := true, overtaken := false, abandoned := false, caller := CallJoined, task := CheckRequested)
      else UnlessRetired(s, Disabled).(caller := CallIdle)
    case CallRecovering => RouterDisable(s).(caller := CallIdle)
    case _ => s
  }

  /** Continues unless a disable was requested; any other state ends the task. */
  function IfActivating(s: State, next: Task, rolledBack: bool, r: CallResult): (t: State)
    ensures BothRetired(s) ==> BothRetired(t)
    ensures t.sub == s.sub
  {
    match s.sub
    case Activating => s.(task := next)
    case Disabling => s.(task := DeactivateRouter(rolledBack, r))
    case _ => Exit(s)
  }

  function Exit(s: State): (t: State)
    ensures BothRetired(s) ==> BothRetired(t)
    ensures t.sub == s.sub
  {
    s.(task := NoTask, caller := if s.caller.CallJoined? then CallIdle else s.caller)
  }

  function Panic(s: State): (t: State)
    ensures BothRetired(s) ==> BothRetired(t)
    ensures t.sub == s.sub
  {
    s.(task := NoTask, caller := if s.caller.CallJoined? then CallRecovering else s.caller)
  }

  /** From spawn to the second start. */
  function StartNext(s: State, r: CallResult, effect: bool): (t: State)
    ensures BothRetired(s) ==> BothRetired(t)
    ensures t.sub == s.sub
  {
    match s.task
    case CheckRequested => IfActivating(s, CheckAbandoned, false, Succeeded)
    case CheckAbandoned => s.(task := if s.abandoned then FailDisable else StartBlock)
    case StartBlock => s.(block := Stream(s.block, true, r, effect), task := BlockReturned(r))
    case BlockReturned(b) => IfActivating(s, BlockDecided(b), false, Succeeded)
    case BlockDecided(b) =>
      s.(task := if !b.Succeeded? then GiveUp else if s.abandoned then StopAbandonedBlock else StartVspc)
    case StopAbandonedBlock =>
      var t := s.(block := Stream(s.block, false, r, effect));
      if r.Succeeded? then t.(task := FailDisable) else if r.Inactive? then Exit(t) else t.(task := RetireDisable)
    case StartVspc => s.(vspc := Stream(s.vspc, true, r, effect), task := VspcReturned(r))
    case _ => s
  }

  /** From the second start to publication, with the rollback of a failed start. */
  function PublishNext(s: State, r: CallResult, effect: bool): (t: State)
    ensures BothRetired(s) ==> BothRetired(t)
    ensures t.sub == s.sub || (t.sub.Enabled? && s.task.Publish? && s.sub.Activating? && !s.abandoned && s.installed)
  {
    match s.task
    case VspcReturned(v) => IfActivating(s, VspcDecided(v), false, Succeeded)
    case VspcDecided(v) =>
      s.(task := if v.Succeeded? then CheckActive else if v.Inactive? then FailDisable else RollbackBlock)
    case RollbackBlock => s.(block := Stream(s.block, false, r, effect), task := RollbackReturned(r))
    case RollbackReturned(b) => IfActivating(s, RollbackDecided(b), true, b)
    case RollbackDecided(b) =>
      if b.Succeeded? then s.(task := GiveUp) else if b.Inactive? then Exit(s) else s.(task := Retire)
    case CheckActive => if s.active then s.(task := Publish) else Exit(s)
    case Publish =>
      if s.sub.Activating? && !s.abandoned then
        if s.router.RouterDisabled? && s.installed then Exit(s).(router := RouterEnabled, sub := Enabled)
        else if s.active then Panic(s) else Exit(s)
      else if s.sub.Retired? then Exit(s)
      else s.(task := DeactivateRouter(false, Succeeded))
    case _ => s
  }

  /** Cleanup of a failed or abandoned activation that has nothing left to stop. */
  function CleanupNext(s: State): (t: State)
    ensures BothRetired(s) ==> BothRetired(t)
    ensures t.sub == s.sub || t.sub.Disabled?
  {
    match s.task
    case GiveUp =>
      (match s.sub
       case Activating => s.(sub := Disabled, task := GiveUpDisable)
       case Disabling => s.(task := DeactivateRouter(false, Succeeded))
       case _ => Exit(s))
    case GiveUpDisable => RouterDisable(s).(task := GiveUpClear)
    case GiveUpClear => Exit(RouterClear(s))
    case FailDisable => RouterDisable(s).(task := FailClear)
    case FailClear => RouterClear(s).(task := FailState)
    case FailState => Exit(s.(sub := if s.sub.Activating? then Disabled else s.sub))
    case _ => s
  }

  /** Deactivation of a started activation, or its hand-over to retirement. */
  function DeactivateNext(s: State, r: CallResult, effect: bool): (t: State)
    ensures BothRetired(s) ==> BothRetired(t)
    ensures t.sub == s.sub || t.sub.Disabled?
  {
    match s.task
    case DeactivateRouter(rolledBack, b) => RouterDisable(s).(task := if rolledBack then DeactivateVspc(b) else DeactivateBlock)
    case DeactivateBlock => s.(block := Stream(s.block, false, r, effect), task := DeactivateVspc(r))
    case DeactivateVspc(b) => s.(vspc := Stream(s.vspc, false, r, effect), task := DeactivateVerdict(b, r))
    case DeactivateVerdict(b, v) =>
      if b.Inactive? || v.Inactive? then Exit(s)
      else if b.Failed? || v.Failed? then s.(task := Retire)
      else if s.active then s.(task := DeactivateClear) else Exit(s)
    case DeactivateClear => RouterClear(s).(task := DeactivateState)
    case DeactivateState => Exit(UnlessRetired(s, Disabled))
    case RetireDisable => RouterDisable(s).(task := Retire)
    case Retire => Exit(s)
    case _ => s
  }

  predicate Starting(t: Task) {
    t.CheckRequested? || t.CheckAbandoned? || t.StartBlock? || t.BlockReturned? || t.BlockDecided? || t.StopAbandonedBlock? || t.StartVspc?
  }

  predicate Publishing(t: Task) {
    t.VspcReturned? || t.VspcDecided? || t.RollbackBlock? || t.RollbackReturned? || t.RollbackDecided? || t.CheckActive? || t.Publish?
  }

  predicate Cleaning(t: Task) {
    t.GiveUp? || t.GiveUpDisable? || t.GiveUpClear? || t.FailDisable? || t.FailClear? || t.FailState?
  }

  function TaskNext(s: State, r: CallResult, effect: bool): (t: State)
    ensures BothRetired(s) ==> BothRetired(t)
    ensures t.sub == s.sub || t.sub.Disabled? || (t.sub.Enabled? && s.task.Publish? && s.sub.Activating? && !s.abandoned && s.installed)
  {
    if Starting(s.task) then StartNext(s, r, effect)
    else if Publishing(s.task) then PublishNext(s, r, effect)
    else if Cleaning(s.task) then CleanupNext(s)
    else DeactivateNext(s, r, effect)
  }

  predicate TaskCalls(t: Task) {
    t.StartBlock? || t.StopAbandonedBlock? || t.StartVspc? || t.RollbackBlock? || t.DeactivateBlock? || t.DeactivateVspc?
  }

  // ----- Disable ---------------------------------------------------------------------------------

  function BeginDisable(s: State): (t: State)
    ensures BothRetired(s) ==> BothRetired(t)
    ensures t.sub == s.sub || t.sub.Disabling?
  {
    match s.sub
    case Disabled => s.(disabler := DisableFastClear)
    case Enabled => s.(sub := Disabling, disabler := DisableRouter)
    case Activating => s.(sub := Disabling, disabler := DisableRouter)
    case _ => s
  }

  /** A disable that holds the transition lock: both stops, the verdict and the cleanup. */
  function StoppingNext(s: State, r: CallResult, effect: bool): (t: State)
    ensures BothRetired(s) ==> BothRetired(t)
    ensures t.sub == s.sub || t.sub.Disabled?
  {
    match s.disabler
    case DisableBlock => s.(block := Stream(s.block, false, r, effect), disabler := DisableVspc(r))
    case DisableVspc(b) => s.(vspc := Stream(s.vspc, false, r, effect), disabler := DisableVerdict(b, r))
    case DisableVerdict(b, v) =>
      if b.Inactive? || v.Inactive? then s.(disabler := DisableIdle)
      else if b.Failed? || v.Failed? then s.(disabler := DisableRetire)
      else if s.active then s.(disabler := DisableClear) else s.(disabler := DisableIdle)
    case DisableClear => RouterClear(s).(disabler := DisableState)
    case DisableState => UnlessRetired(s, Disabled).(disabler := DisableIdle)
    case DisableLateClear => RouterClear(s).(disabler := DisableIdle)
    case DisableRetire => s.(disabler := DisableIdle)
    case _ => s
  }

  function DisablerNext(s: State, r: CallResult, effect: bool): (t: State)
    ensures BothRetired(s) ==> BothRetired(t)
    ensures t.sub == s.sub || t.sub.Disabled?
  {
    match s.disabler
    case DisableFastClear =>
      RouterClear(s).(disabler := DisableIdle, overtaken := s.overtaken || !s.task.NoTask?)
    case DisableRouter => RouterDisable(s).(disabler := DisableWaiting)
    case DisableWaiting =>
      (match s.sub
       case Disabled => s.(disabler := DisableLateClear)
       case Disabling => s.(disabler := DisableBlock)
       case _ => s.(disabler := DisableIdle))
    case _ => StoppingNext(s, r, effect)
  }

  predicate DisablerCalls(d: Disabler) { d.DisableBlock? || d.DisableVspc? }

  // ----- Steps -------------------------------------------------------------------------------------

  /** One owner: it awaits a disable before activating again, but a disable may overlap
      an activation, and an activation may be abandoned while it waits. */
  predicate Allowed(s: State, step: Step) {
    match step
    case ActivateStep => s.caller.CallIdle? && s.disabler.DisableIdle? && s.active && s.sub.Disabled?
    case CallerStep =>
      || (s.caller.CallWaiting? && LockFree(s))
      || s.caller.CallLocked? || s.caller.CallInstalling? || s.caller.CallRecovering?
    case DropCallStep => s.caller.CallWaiting? || s.caller.CallJoined? || s.caller.CallRecovering?
    case TaskStep(r, _) => !s.task.NoTask? && (TaskCalls(s.task) ==> Returns(s, r))
    case DisableStep => s.disabler.DisableIdle?
    case DisablerStep(r, _) =>
      && !s.disabler.DisableIdle? && (DisablerCalls(s.disabler) ==> Returns(s, r))
      && (s.disabler.DisableWaiting? ==> LockFree(s))
    case FaultStep => s.router.RouterEnabled?
    case CloseStep => s.active
    case RetireStep => !s.active && !s.sub.Retired?
  }

  function Next(s: State, step: Step): State
    requires Allowed(s, step)
  {
    match step
    case ActivateStep => s.(caller := CallWaiting)
    case CallerStep => CallerNext(s)
    case DropCallStep => s.(caller := CallIdle, abandoned := s.abandoned || s.caller.CallJoined?)
    case TaskStep(r, effect) => TaskNext(s, r, effect)
    case DisableStep => BeginDisable(s)
    case DisablerStep(r, effect) => DisablerNext(s, r, effect)
    case FaultStep => s.(router := RouterDisabled)
    case CloseStep => s.(active := false)
    case RetireStep => s.(router := RouterRetired, installed := false, sub := Retired)
  }

  // ----- The invariant ---------------------------------------------------------------------------

  /** What an active generation's streams are while the task is at each point. */
  predicate TaskStreams(s: State) {
    match s.task
    case CheckRequested => !s.block && !s.vspc
    case CheckAbandoned => !s.block && !s.vspc
    case StartBlock => !s.block && !s.vspc
    case BlockReturned(r) => s.block == r.Succeeded? && !s.vspc
    case BlockDecided(r) => s.block == r.Succeeded? && !s.vspc
    case StopAbandonedBlock => !s.vspc
    case StartVspc => s.block && !s.vspc
    case VspcReturned(r) => s.block && s.vspc == r.Succeeded? && !r.Inactive?
    case VspcDecided(r) => s.block && s.vspc == r.Succeeded? && !r.Inactive?
    case RollbackBlock => s.block && !s.vspc
    case RollbackReturned(r) => !r.Inactive? && (r.Succeeded? ==> !s.block) && !s.vspc
    case RollbackDecided(r) => !r.Inactive? && (r.Succeeded? ==> !s.block) && !s.vspc
    case CheckActive => s.block && s.vspc
    case Publish => s.block && s.vspc
    case GiveUp => !s.block && !s.vspc
    case FailDisable => !s.block && !s.vspc
    case FailClear => !s.block && !s.vspc
    case FailState => !s.block && !s.vspc
    case DeactivateRouter(rolledBack, r) => !r.Inactive? && (rolledBack && r.Succeeded? ==> !s.block)
    case DeactivateVspc(b) => !b.Inactive? && (b.Succeeded? ==> !s.block)
    case DeactivateVerdict(b, v) => !b.Inactive? && !v.Inactive? && (b.Succeeded? ==> !s.block) && (v.Succeeded? ==> !s.vspc)
    case DeactivateClear => !s.block && !s.vspc
    case DeactivateState => !s.block && !s.vspc
    case _ => true
  }

  predicate DisablerStreams(s: State) {
    match s.disabler
    case DisableVspc(b) => !b.Inactive? && (b.Succeeded? ==> !s.block)
    case DisableVerdict(b, v) => !b.Inactive? && !v.Inactive? && (b.Succeeded? ==> !s.block) && (v.Succeeded? ==> !s.vspc)
    case DisableClear => !s.block && !s.vspc
    case DisableState => !s.block && !s.vspc
    case _ => true
  }

  predicate SlowDisable(d: Disabler) { !d.DisableIdle? && !d.DisableFastClear? }

  /** At most one party holds the transition lock, and a joined caller has a task. */
  predicate Locking(s: State) {
    && (!s.task.NoTask? ==> !s.caller.CallLocked? && !s.caller.CallInstalling? && !DisablerHoldsLock(s.disabler))
    && (s.caller.CallLocked? || s.caller.CallInstalling? ==> !DisablerHoldsLock(s.disabler))
    && (s.caller.CallJoined? ==> !s.task.NoTask?)
  }

  predicate Phases(s: State) {
    && (s.caller.CallWaiting? || s.caller.CallLocked? ==> (s.sub.Disabled? || s.sub.Retired?) && !SlowDisable(s.disabler))
    && (s.caller.CallInstalling? ==> s.sub.Activating? || s.sub.Disabling? || s.sub.Retired?)
    && (SlowDisable(s.disabler) ==> s.sub.Disabling? || s.sub.Disabled? || s.sub.Retired?)
    && (DisablerHoldsLock(s.disabler) && !s.disabler.DisableLateClear? ==> s.sub.Disabling? || s.sub.Retired?)
    && (s.disabler.DisableLateClear? ==> s.sub.Disabled? || s.sub.Retired?)
    && (match s.task
        case NoTask => true
        case GiveUpDisable => s.sub.Disabled? || s.sub.Retired?
        case GiveUpClear => s.sub.Disabled? || s.sub.Retired?
        case _ => s.sub.Activating? || s.sub.Disabling? || s.sub.Retired?)
    && (s.sub.Enabled? ==> s.task.NoTask?)
    && (s.sub.Disabling? && (!s.task.NoTask? || s.caller.CallInstalling?) ==> SlowDisable(s.disabler))
    && (s.sub.Retired? <==> s.router.RouterRetired?) && (s.sub.Retired? ==> !s.active)
  }

  /** Routing is on only with both streams up, in Enabled or in the moment between a
      disable request and its router call. */
  predicate Routing(s: State) {
    && (s.router.RouterEnabled? ==> s.block && s.vspc && s.installed && (s.sub.Enabled? || (s.sub.Disabling? && s.disabler.DisableRouter?)) && s.task.NoTask?
                                    && !s.caller.CallLocked? && !s.caller.CallInstalling?)
    && (s.sub.Enabled? ==> s.block && s.vspc && !s.caller.CallLocked? && !s.caller.CallInstalling?)
    && (s.caller.CallInstalling? && s.active ==> !s.block && !s.vspc)
    && (s.task.Publish? ==> s.block && s.vspc)
  }

  predicate Streams(s: State) {
    s.active ==>
      && TaskStreams(s) && DisablerStreams(s)
      && (s.sub.Disabled? ==> !s.block && !s.vspc)
  }

  /** Destinations stay installed throughout an activation that nothing overtook. */
  predicate Destinations(s: State) {
    match s.task
    case NoTask => true
    case FailState => true
    case DeactivateState => true
    case GiveUpDisable => true
    case GiveUpClear => true
    case _ => s.router.RouterDisabled? && !s.overtaken ==> s.installed
  }

  predicate Inv(s: State) {
    Locking(s) && Phases(s) && Routing(s) && Streams(s) && Destinations(s)
  }

  lemma InitialInv()
    ensures Inv(Initial)
  {
  }

  lemma ExitKeepsInv(s: State)
    requires Inv(s) && !s.task.NoTask?
    ensures Inv(Exit(s)) && Inv(Panic(s))
  {
  }

  /** Moving to another point of the same transition keeps the invariant when the
      streams and destinations are as that point needs them. */
  lemma MoveKeepsInv(s: State, next: Task)
    requires Inv(s) && !s.task.NoTask? && !s.task.GiveUpDisable? && !s.task.GiveUpClear?
    requires !next.NoTask? && !next.GiveUpDisable? && !next.GiveUpClear? && (next.Publish? ==> s.active)
    requires s.active ==> TaskStreams(s.(task := next))
    requires Destinations(s) ==> Destinations(s.(task := next))
    ensures Inv(s.(task := next))
  {
  }

  lemma IfActivatingKeepsInv(s: State, next: Task, rolledBack: bool, r: CallResult)
    requires Inv(s) && !s.task.NoTask? && !s.task.GiveUpDisable? && !s.task.GiveUpClear?
    requires !next.NoTask? && !next.GiveUpDisable? && !next.GiveUpClear? && !next.Publish?
    requires s.active ==> TaskStreams(s.(task := next)) && TaskStreams(s.(task := DeactivateRouter(rolledBack, r)))
    requires Destinations(s) ==> Destinations(s.(task := next)) && Destinations(s.(task := DeactivateRouter(rolledBack, r)))
    ensures Inv(IfActivating(s, next, rolledBack, r))
  {
    match s.sub {
      case Activating => MoveKeepsInv(s, next);
      case Disabling => MoveKeepsInv(s, DeactivateRouter(rolledBack, r));
      case Disabled => ExitKeepsInv(s);
      case Enabled => ExitKeepsInv(s);
      case Retired => ExitKeepsInv(s);
    }
    hide Inv, TaskStreams, Destinations;
  }

  lemma StartKeepsInv(s: State, r: CallResult, effect: bool)
    requires Inv(s) && Allowed(s, TaskStep(r, effect)) && (s.task.StartBlock? || s.task.StartVspc?)
    ensures Inv(TaskNext(s, r, effect))
  {
    hide PublishNext, CleanupNext, DeactivateNext;
  }

  lemma StopKeepsInv(s: State, r: CallResult, effect: bool)
    requires Inv(s) && Allowed(s, TaskStep(r, effect)) && (s.task.RollbackBlock? || s.task.DeactivateBlock? || s.task.DeactivateVspc?)
    ensures Inv(TaskNext(s, r, effect))
  {
    hide StartNext, CleanupNext;
  }

  lemma StoppedAbandonedKeepsInv(s: State, r: CallResult, block: bool)
    requires Inv(s) && s.task.StopAbandonedBlock? && (s.active && r.Succeeded? ==> !block)
    ensures var t := s.(block := block);
            Inv(t) && Inv(t.(task := RetireDisable)) && (r.Succeeded? ==> Inv(t.(task := FailDisable)))
  {
  }

  lemma StopAbandonedKeepsInv(s: State, r: CallResult, effect: bool)
    requires Inv(s) && Allowed(s, TaskStep(r, effect)) && s.task.StopAbandonedBlock?
    ensures Inv(TaskNext(s, r, effect))
  {
    hide PublishNext, CleanupNext, DeactivateNext, Inv;
    var block := Stream(s.block, false, r, effect);
    StoppedAbandonedKeepsInv(s, r, block);
    ExitKeepsInv(s.(block := block));
  }

  lemma PublishKeepsInv(s: State, r: CallResult, effect: bool)
    requires Inv(s) && Allowed(s, TaskStep(r, effect)) && (s.task.Publish?)
    ensures Inv(TaskNext(s, r, effect))
  {
    hide StartNext, CleanupNext, DeactivateNext;
  }

  lemma GivenUpKeepsInv(s: State)
    requires Inv(s) && s.task.GiveUp? && s.sub.Activating?
    ensures Inv(s.(sub := Disabled, task := GiveUpDisable))
  {
  }

  lemma GiveUpKeepsInv(s: State, r: CallResult, effect: bool)
    requires Inv(s) && Allowed(s, TaskStep(r, effect)) && s.task.GiveUp?
    ensures Inv(TaskNext(s, r, effect))
  {
    hide StartNext, PublishNext, DeactivateNext, Inv;
    match s.sub {
      case Activating => GivenUpKeepsInv(s);
      case Disabling => MoveKeepsInv(s, DeactivateRouter(false, Succeeded));
      case _ => ExitKeepsInv(s);
    }
  }

  lemma GiveUpCleanupKeepsInv(s: State, r: CallResult, effect: bool)
    requires Inv(s) && Allowed(s, TaskStep(r, effect)) && (s.task.GiveUpDisable? || s.task.GiveUpClear?)
    ensures Inv(TaskNext(s, r, effect))
  {
    hide StartNext, PublishNext, DeactivateNext;
  }

  lemma FailCleanupKeepsInv(s: State, r: CallResult, effect: bool)
    requires Inv(s) && Allowed(s, TaskStep(r, effect)) && (s.task.FailDisable? || s.task.FailClear? || s.task.FailState?)
    ensures Inv(TaskNext(s, r, effect))
  {
    hide StartNext, PublishNext, DeactivateNext;
  }

  lemma DeactivateKeepsInv(s: State, r: CallResult, effect: bool)
    requires Inv(s) && Allowed(s, TaskStep(r, effect)) && (s.task.DeactivateRouter? || s.task.RetireDisable?)
    ensures Inv(TaskNext(s, r, effect))
  {
    hide StartNext, PublishNext, CleanupNext;
  }

  lemma ClearedKeepsInv(s: State, r: CallResult, effect: bool)
    requires Inv(s) && Allowed(s, TaskStep(r, effect)) && s.task.DeactivateClear?
    ensures Inv(TaskNext(s, r, effect))
  {
    hide StartNext, PublishNext, CleanupNext;
  }

  lemma StoppedKeepsInv(s: State)
    requires Inv(s) && s.task.DeactivateState?
    ensures Inv(Exit(UnlessRetired(s, Disabled)))
  {
  }

  lemma DeactivatedKeepsInv(s: State, r: CallResult, effect: bool)
    requires Inv(s) && Allowed(s, TaskStep(r, effect)) && s.task.DeactivateState?
    ensures Inv(TaskNext(s, r, effect))
  {
    hide StartNext, PublishNext, CleanupNext, Inv;
    StoppedKeepsInv(s);
  }

  lemma BlockChecksKeepInv(s: State, r: CallResult, effect: bool)
    requires Inv(s) && Allowed(s, TaskStep(r, effect)) && (s.task.CheckRequested? || s.task.CheckAbandoned? || s.task.BlockReturned? || s.task.BlockDecided?)
    ensures Inv(TaskNext(s, r, effect))
  {
    hide PublishNext, CleanupNext, DeactivateNext;
    StreamsOf(s);
    hide Inv;
    match s.task {
      case CheckRequested => IfActivatingKeepsInv(s, CheckAbandoned, false, Succeeded);
      case CheckAbandoned => MoveKeepsInv(s, if s.abandoned then FailDisable else StartBlock);
      case BlockReturned(b) => IfActivatingKeepsInv(s, BlockDecided(b), false, Succeeded);
      case BlockDecided(b) => MoveKeepsInv(s, if !b.Succeeded? then GiveUp else if s.abandoned then StopAbandonedBlock else StartVspc);
      case _ =>
    }
  }

  lemma VspcChecksKeepInv(s: State, r: CallResult, effect: bool)
    requires Inv(s) && Allowed(s, TaskStep(r, effect)) && (s.task.VspcReturned? || s.task.VspcDecided?)
    ensures Inv(TaskNext(s, r, effect))
  {
    hide StartNext, CleanupNext, DeactivateNext;
    StreamsOf(s);
    hide Inv;
    match s.task {
      case VspcReturned(v) => IfActivatingKeepsInv(s, VspcDecided(v), false, Succeeded);
      case VspcDecided(v) => MoveKeepsInv(s, if v.Succeeded? then CheckActive else if v.Inactive? then FailDisable else RollbackBlock);
      case _ =>
    }
  }

  lemma RollbackChecksKeepInv(s: State, r: CallResult, effect: bool)
    requires Inv(s) && Allowed(s, TaskStep(r, effect)) && (s.task.RollbackReturned? || s.task.RollbackDecided?)
    ensures Inv(TaskNext(s, r, effect))
  {
    hide StartNext, CleanupNext, DeactivateNext;
    StreamsOf(s);
    hide Inv;
    match s.task {
      case RollbackReturned(b) => IfActivatingKeepsInv(s, RollbackDecided(b), true, b);
      case RollbackDecided(b) => if b.Inactive? { ExitKeepsInv(s); } else { MoveKeepsInv(s, if b.Succeeded? then GiveUp else Retire); }
      case _ =>
    }
  }

  lemma CheckActiveKeepsInv(s: State, r: CallResult, effect: bool)
    requires Inv(s) && Allowed(s, TaskStep(r, effect)) && s.task.CheckActive?
    ensures Inv(TaskNext(s, r, effect))
  {
    hide StartNext, CleanupNext, DeactivateNext;
    StreamsOf(s);
    hide Inv;
    if s.active {
      MoveKeepsInv(s, Publish);
    } else {
      ExitKeepsInv(s);
    }
  }

  lemma RetireKeepsInv(s: State)
    requires Inv(s) && s.task.DeactivateVerdict?
    ensures Inv(s.(task := Retire))
  {
    hide Inv;
    MoveKeepsInv(s, Retire);
  }

  lemma VerdictKeepsInv(s: State, r: CallResult, effect: bool)
    requires Inv(s) && Allowed(s, TaskStep(r, effect)) && (s.task.DeactivateVerdict? || s.task.Retire?)
    ensures Inv(TaskNext(s, r, effect))
  {
    StreamsOf(s);
    hide StartNext, PublishNext, CleanupNext, Inv;
    ExitKeepsInv(s);
    if s.task.DeactivateVerdict? {
      RetireKeepsInv(s);
      if s.active && s.task.block.Succeeded? && s.task.vspc.Succeeded? {
        MoveKeepsInv(s, DeactivateClear);
      }
    }
  }

  lemma TaskKeepsInv(s: State, r: CallResult, effect: bool)
    requires Inv(s) && Allowed(s, TaskStep(r, effect))
    ensures Inv(Next(s, TaskStep(r, effect)))
  {
    hide Inv, TaskNext;
    match s.task {
      case CheckRequested => BlockChecksKeepInv(s, r, effect);
      case CheckAbandoned => BlockChecksKeepInv(s, r, effect);
      case StartBlock => StartKeepsInv(s, r, effect);
      case BlockReturned(_) => BlockChecksKeepInv(s, r, effect);
      case BlockDecided(_) => BlockChecksKeepInv(s, r, effect);
      case StopAbandonedBlock => StopAbandonedKeepsInv(s, r, effect);
      case StartVspc => StartKeepsInv(s, r, effect);
      case VspcReturned(_) => VspcChecksKeepInv(s, r, effect);
      case VspcDecided(_) => VspcChecksKeepInv(s, r, effect);
      case RollbackBlock => StopKeepsInv(s, r, effect);
      case RollbackReturned(_) => RollbackChecksKeepInv(s, r, effect);
      case RollbackDecided(_) => RollbackChecksKeepInv(s, r, effect);
      case CheckActive => CheckActiveKeepsInv(s, r, effect);
      case Publish => PublishKeepsInv(s, r, effect);
      case GiveUp => GiveUpKeepsInv(s, r, effect);
      case GiveUpDisable => GiveUpCleanupKeepsInv(s, r, effect);
      case GiveUpClear => GiveUpCleanupKeepsInv(s, r, effect);
      case FailDisable => FailCleanupKeepsInv(s, r, effect);
      case FailClear => FailCleanupKeepsInv(s, r, effect);
      case FailState => FailCleanupKeepsInv(s, r, effect);
      case DeactivateRouter(_, _) => DeactivateKeepsInv(s, r, effect);
      case DeactivateBlock => StopKeepsInv(s, r, effect);
      case DeactivateVspc(_) => StopKeepsInv(s, r, effect);
      case DeactivateVerdict(_, _) => VerdictKeepsInv(s, r, effect);
      case DeactivateClear => ClearedKeepsInv(s, r, effect);
      case DeactivateState => DeactivatedKeepsInv(s, r, effect);
      case RetireDisable => DeactivateKeepsInv(s, r, effect);
      case Retire => VerdictKeepsInv(s, r, effect);
    }
  }

  lemma StreamsOf(s: State)
    requires Inv(s)
    ensures s.active ==> TaskStreams(s)
  {
  }

  lemma DisablerFastClearKeepsInv(s: State, r: CallResult, effect: bool)
    requires Inv(s) && s.disabler.DisableFastClear?
    ensures Inv(DisablerNext(s, r, effect))
  {
    hide StoppingNext;
  }

  lemma DisablerRequestKeepsInv(s: State, r: CallResult, effect: bool)
    requires Inv(s) && s.disabler.DisableRouter?
    ensures Inv(DisablerNext(s, r, effect))
  {
    hide StoppingNext;
  }

  lemma DisablerWaitKeepsInv(s: State, r: CallResult, effect: bool)
    requires Inv(s) && Allowed(s, DisablerStep(r, effect)) && (s.disabler.DisableWaiting?)
    ensures Inv(DisablerNext(s, r, effect))
  {
  }

  lemma DisablerStopKeepsInv(s: State, r: CallResult, effect: bool)
    requires Inv(s) && Allowed(s, DisablerStep(r, effect)) && (s.disabler.DisableBlock? || s.disabler.DisableVspc?)
    ensures Inv(DisablerNext(s, r, effect))
  {
  }

  lemma DisablerVerdictKeepsInv(s: State, r: CallResult, effect: bool)
    requires Inv(s) && Allowed(s, DisablerStep(r, effect)) && s.disabler.DisableVerdict?
    ensures Inv(DisablerNext(s, r, effect))
  {
    hide Stream, RouterDisable, RouterClear, UnlessRetired;
  }

  lemma DisablerFinishKeepsInv(s: State, r: CallResult, effect: bool)
    requires Inv(s) && Allowed(s, DisablerStep(r, effect)) && (s.disabler.DisableClear? || s.disabler.DisableState? || s.disabler.DisableLateClear? || s.disabler.DisableRetire?)
    ensures Inv(DisablerNext(s, r, effect))
  {
  }

  lemma DisablerKeepsInv(s: State, r: CallResult, effect: bool)
    requires Inv(s) && Allowed(s, DisablerStep(r, effect))
    ensures Inv(Next(s, DisablerStep(r, effect)))
  {
    hide Inv, DisablerNext;
    match s.disabler {
      case DisableFastClear => DisablerFastClearKeepsInv(s, r, effect);
      case DisableRouter => DisablerRequestKeepsInv(s, r, effect);
      case DisableWaiting => DisablerWaitKeepsInv(s, r, effect);
      case DisableBlock => DisablerStopKeepsInv(s, r, effect);
      case DisableVspc(_) => DisablerStopKeepsInv(s, r, effect);
      case DisableVerdict(_, _) => DisablerVerdictKeepsInv(s, r, effect);
      case DisableClear => DisablerFinishKeepsInv(s, r, effect);
      case DisableState => DisablerFinishKeepsInv(s, r, effect);
      case DisableLateClear => DisablerFinishKeepsInv(s, r, effect);
      case DisableRetire => DisablerFinishKeepsInv(s, r, effect);
    }
  }

  lemma CallerInstallKeepsInv(s: State)
    requires Inv(s) && s.caller.CallInstalling?
    ensures Inv(CallerNext(s))
  {
  }

  lemma CallerKeepsInv(s: State)
    requires Inv(s) && Allowed(s, CallerStep)
    ensures Inv(Next(s, CallerStep))
  {
    if s.caller.CallInstalling? {
      CallerInstallKeepsInv(s);
      hide Inv;
    } else {
      CallerMovesKeepInv(s);
      hide Inv;
    }
  }

  lemma CallerMovesKeepInv(s: State)
    requires Inv(s) && (s.caller.CallWaiting? ==> LockFree(s)) && !s.caller.CallInstalling?
    ensures Inv(CallerNext(s))
  {
    if s.caller.CallWaiting? || s.caller.CallLocked? {
      CallerLockKeepsInv(s);
      hide Inv;
    }
  }

  lemma CallerLockKeepsInv(s: State)
    requires Inv(s) && ((s.caller.CallWaiting? && LockFree(s)) || s.caller.CallLocked?)
    ensures Inv(CallerNext(s))
  {
    hide RouterDisable, UnlessRetired;
  }

  lemma RequestKeepsInv(s: State)
    requires Inv(s) && s.disabler.DisableIdle?
    ensures Inv(BeginDisable(s))
  {
  }

  lemma OwnerKeepsInv(s: State, step: Step)
    requires Inv(s) && Allowed(s, step) && !step.CallerStep? && !step.TaskStep? && !step.DisablerStep?
    ensures Inv(Next(s, step))
  {
    hide TaskNext, DisablerNext, CallerNext, BeginDisable;
    if step.DisableStep? {
      RequestKeepsInv(s);
      hide Inv;
    }
  }

  /** Every step of every party keeps the protocol invariant. */
  lemma StepKeepsInv(s: State, step: Step)
    requires Inv(s) && Allowed(s, step)
    ensures Inv(Next(s, step))
  {
    hide Inv, Next, Allowed;
    match step
    case CallerStep => CallerKeepsInv(s);
    case TaskStep(r, effect) => TaskKeepsInv(s, r, effect);
    case DisablerStep(r, effect) => DisablerKeepsInv(s, r, effect);
    case _ => OwnerKeepsInv(s, step);
  }

  // ----- What the invariant promises ---------------------------------------------------------------

  ghost predicate Runs(s: State, steps: seq<Step>)
    decreases |steps|
  {
    steps == [] || (Allowed(s, steps[0]) && Runs(Next(s, steps[0]), steps[1..]))
  }

  ghost function RunAll(s: State, steps: seq<Step>): State
    requires Runs(s, steps)
    decreases |steps|
  {
    if steps == [] then s else RunAll(Next(s, steps[0]), steps[1..])
  }

  lemma {:induction false} RunKeepsInv(s: State, steps: seq<Step>)
    requires Inv(s) && Runs(s, steps)
    ensures Inv(RunAll(s, steps))
    decreases |steps|
  {
    hide Inv, Next, Allowed;
    if steps != [] {
      StepKeepsInv(s, steps[0]);
      RunKeepsInv(Next(s, steps[0]), steps[1..]);
    }
  }

  /** Over every interleaving from the start: routing is on only while both remote
      streams are up; an active generation in Disabled has stopped whatever it
      started; and the two state machines retire together. */
  lemma SubscriptionSafety(steps: seq<Step>)
    requires Runs(Initial, steps)
    ensures var s := RunAll(Initial, steps);
            && (s.router.RouterEnabled? ==> s.block && s.vspc)
            && (s.sub.Enabled? ==> s.block && s.vspc)
            && (s.active && s.sub.Disabled? ==> !s.block && !s.vspc)
            && (s.sub.Retired? <==> s.router.RouterRetired?) && (s.sub.Retired? ==> !s.active)
  {
    InitialInv();
    RunKeepsInv(Initial, steps);
    hide RunAll;
  }

  lemma RetiredStays(s: State, step: Step)
    requires Allowed(s, step) && BothRetired(s)
    ensures BothRetired(Next(s, step))
  {
    hide TaskNext, DisablerNext, BeginDisable, CallerNext, TaskCalls, DisablerCalls, LockFree, Returns;
  }

  /** Retired is absorbing in both state machines, whatever runs afterwards. */
  lemma {:induction false} RetiredForever(s: State, steps: seq<Step>)
    requires Runs(s, steps) && BothRetired(s)
    ensures BothRetired(RunAll(s, steps))
    decreases |steps|
  {
    hide Next, Allowed, BothRetired;
    if steps != [] {
      RetiredStays(s, steps[0]);
      RetiredForever(Next(s, steps[0]), steps[1..]);
    }
  }

  /** Publication of an activation is refused while the generation is active exactly
      when an overlapping disable has cleared the installed destinations. */
  lemma PublishRefusal(s: State)
    requires Inv(s) && s.task.Publish? && s.sub.Activating? && !s.abandoned && s.active
    ensures Next(s, TaskStep(Succeeded, false)).sub.Enabled? <==> s.installed
    ensures !s.installed ==> s.overtaken
  {
  }

  /** Where an active generation stands at the points where a disable may end. */
  lemma DisablePoints(s: State)
    requires Inv(s) && SlowDisable(s.disabler) && s.active
    ensures s.sub.Disabling? || s.sub.Disabled?
    ensures s.disabler.DisableLateClear? ==> s.sub.Disabled?
    ensures s.disabler.DisableVerdict? ==> !s.disabler.block.Inactive? && !s.disabler.vspc.Inactive?
  {
    hide TaskStreams, Destinations, Locking, Routing;
  }

  predicate DisableEnd(s: State, t: State) {
    && (t.disabler.DisableIdle? ==> s.disabler.DisableRetire? || t.sub.Disabled?)
    && (t.disabler.DisableRetire? ==>
        s.disabler.DisableVerdict? && (s.disabler.block.Failed? || s.disabler.vspc.Failed?))
    && t.active
  }

  lemma StoppingEnds(s: State, r: CallResult, effect: bool)
    requires s.active && DisablerHoldsLock(s.disabler) && (s.sub.Disabling? || s.sub.Disabled?)
    requires s.disabler.DisableLateClear? ==> s.sub.Disabled?
    requires s.disabler.DisableVerdict? ==> !s.disabler.block.Inactive? && !s.disabler.vspc.Inactive?
    ensures DisableEnd(s, StoppingNext(s, r, effect))
  {
    hide Stream;
  }

  lemma DisableEnds(s: State, r: CallResult, effect: bool)
    requires Inv(s) && SlowDisable(s.disabler) && s.active
    ensures DisableEnd(s, DisablerNext(s, r, effect))
  {
    DisablePoints(s);
    hide Inv, StoppingNext;
    if DisablerHoldsLock(s.disabler) {
      StoppingEnds(s, r, effect);
      hide DisableEnd;
    }
  }

  lemma DisabledAtRest(s: State)
    requires Inv(s) && s.active && s.sub.Disabled?
    ensures !s.block && !s.vspc && s.router.RouterDisabled?
  {
    hide TaskStreams, DisablerStreams, Destinations, Locking;
  }

  /** A disable of an active generation that was not already Disabled returns only with the
      state Disabled, both streams down and routing off, unless a stop failed and retirement
      was asked for. */
  lemma DisableReturns(s: State, r: CallResult, effect: bool)
    requires Inv(s) && Allowed(s, DisablerStep(r, effect)) && SlowDisable(s.disabler) && s.active
    ensures var t := Next(s, DisablerStep(r, effect));
            && (t.disabler.DisableIdle? ==>
                s.disabler.DisableRetire? || (t.sub.Disabled? && !t.block && !t.vspc && t.router.RouterDisabled?))
            && (t.disabler.DisableRetire? ==>
                s.disabler.DisableVerdict? && (s.disabler.block.Failed? || s.disabler.vspc.Failed?))
  {
    DisableEnds(s, r, effect);
    DisablerKeepsInv(s, r, effect);
    hide Inv, DisablerNext, Allowed;
    var t := Next(s, DisablerStep(r, effect));
    if t.sub.Disabled? {
      DisabledAtRest(t);
    }
  }

  /** Where an active generation stands while its activation task runs. */
  predicate TaskPoint(s: State) {
    && s.active && s.router.RouterDisabled?
    && (if s.task.GiveUpDisable? || s.task.GiveUpClear? then s.sub.Disabled?
        else s.sub.Activating? || (s.sub.Disabling? && SlowDisable(s.disabler)))
    && (s.task.RollbackDecided? ==> !s.task.r.Inactive?)
    && (s.task.DeactivateVerdict? ==> !s.task.block.Inactive? && !s.task.vspc.Inactive?)
  }

  lemma TaskPoints(s: State)
    requires Inv(s) && !s.task.NoTask? && s.active
    ensures TaskPoint(s)
  {
    hide Destinations, DisablerStreams;
  }

  /** How an activation task may leave an active generation: routed, at rest, handed over to a
      disable in progress, waiting for retirement, or refused because it was overtaken. */
  predicate Ended(s: State, t: State) {
    t.task.NoTask? ==>
      t.sub.Enabled? || t.sub.Disabled? || (t.sub.Disabling? && SlowDisable(t.disabler)) || s.task.Retire? || (s.task.Publish? && !s.installed)
  }

  lemma StartEnds(s: State, r: CallResult, effect: bool)
    requires TaskPoint(s) && Starting(s.task) && (TaskCalls(s.task) ==> !r.Inactive?)
    ensures Ended(s, StartNext(s, r, effect))
  {
    hide Stream;
  }

  lemma PublishEnds(s: State, r: CallResult, effect: bool)
    requires TaskPoint(s) && Publishing(s.task)
    ensures Ended(s, PublishNext(s, r, effect))
  {
    hide Stream;
  }

  lemma CleanupEnds(s: State)
    requires TaskPoint(s) && Cleaning(s.task)
    ensures Ended(s, CleanupNext(s))
  {
  }

  lemma DeactivateEnds(s: State, r: CallResult, effect: bool)
    requires TaskPoint(s) && !s.task.NoTask? && !Starting(s.task) && !Publishing(s.task) && !Cleaning(s.task)
    ensures Ended(s, DeactivateNext(s, r, effect))
  {
    hide Stream;
  }

  /** Every activation of an active generation ends in one of those ways, and at rest or
      routed its streams are as that state promises. */
  lemma ActivationReturns(s: State, r: CallResult, effect: bool)
    requires Inv(s) && Allowed(s, TaskStep(r, effect)) && s.active
    ensures var t := Next(s, TaskStep(r, effect));
            && Ended(s, t)
            && (t.sub.Disabled? && t.active ==> !t.block && !t.vspc && t.router.RouterDisabled?)
            && (t.sub.Enabled? ==> t.block && t.vspc)
  {
    TaskPoints(s);
    TaskKeepsInv(s, r, effect);
    if Starting(s.task) {
      StartEnds(s, r, effect);
    } else if Publishing(s.task) {
      PublishEnds(s, r, effect);
    } else if Cleaning(s.task) {
      CleanupEnds(s);
    } else {
      DeactivateEnds(s, r, effect);
    }
    hide Inv, TaskPoint, Ended, StartNext, PublishNext, CleanupNext, DeactivateNext, Starting, Publishing, Cleaning;
    var t := Next(s, TaskStep(r, effect));
    if t.sub.Disabled? && t.active {
      DisabledAtRest(t);
    }
    EnabledStreams(t);
  }

  lemma EnabledStreams(s: State)
    requires Inv(s)
    ensures s.sub.Enabled? ==> s.block && s.vspc
  {
    hide TaskStreams, DisablerStreams, Destinations, Locking;
  }

  /** Routing is enabled only by publishing an activation that is still wanted. */
  lemma EnablesOnlyWanted(s: State, step: Step)
    requires Inv(s) && Allowed(s, step) && Next(s, step).sub.Enabled? && !s.sub.Enabled?
    ensures step.TaskStep? && s.task.Publish? && s.sub.Activating? && !s.abandoned && s.installed && s.block && s.vspc
  {
    PublishStreams(s);
    hide Inv, TaskNext, DisablerNext, CallerNext, BeginDisable, TaskCalls, DisablerCalls, LockFree, Returns;
  }

  lemma PublishStreams(s: State)
    requires Inv(s)
    ensures s.task.Publish? ==> s.block && s.vspc
  {
    hide TaskStreams, DisablerStreams, Destinations, Locking;
  }

  ghost predicate Leads(s: State, t: State) {
    exists steps :: Runs(s, steps) && RunAll(s, steps) == t
  }

  ghost predicate Reachable(s: State) { Leads(Initial, s) }

  lemma {:induction false} RunsSnoc(s: State, steps: seq<Step>, last: Step)
    requires Runs(s, steps) && Allowed(RunAll(s, steps), last)
    ensures Runs(s, steps + [last]) && RunAll(s, steps + [last]) == Next(RunAll(s, steps), last)
    decreases |steps|
  {
    hide Next, Allowed;
    if steps == [] {
      assert [last][1..] == [] && steps + [last] == [last];
      assert Runs(Next(s, last), []);
    } else {
      assert (steps + [last])[1..] == steps[1..] + [last];
      RunsSnoc(Next(s, steps[0]), steps[1..], last);
    }
  }

  lemma LeadsNext(start: State, s: State, step: Step)
    requires Leads(start, s) && Allowed(s, step)
    ensures Leads(start, Next(s, step))
  {
    hide Next, Allowed;
    var steps :| Runs(start, steps) && RunAll(start, steps) == s;
    RunsSnoc(start, steps, step);
  }

  lemma LeadsSelf(s: State)
    ensures Leads(s, s)
  {
    assert Runs(s, []) && RunAll(s, []) == s;
  }

  lemma Reach(start: State, s: State, step: Step, next: State) returns (t: State)
    requires Leads(start, s) && Allowed(s, step) && Next(s, step) == next
    ensures Leads(start, t) && t == next
  {
    LeadsNext(start, s, step);
    t := next;
  }

  // ----- Undisturbed calls ----------------------------------------------------------------

  /** Active, and no call or task is in progress. */
  predicate Quiet(s: State) { s.active && s.caller.CallIdle? && s.task.NoTask? && s.disabler.DisableIdle? }

  /** Activation done: routing enabled, both streams up. */
  function Routed(s: State): State {
    s.(sub := Enabled, router := RouterEnabled, installed := true, block := true, vspc := true, abandoned := false, overtaken := false)
  }

  /** Disable done: routing disabled and cleared, both streams down. */
  function Rested(s: State): State {
    s.(sub := Disabled, router := RouterDisabled, installed := false, block := false, vspc := false)
  }

  lemma ActivationInstalls(start: State) returns (s: State)
    requires Quiet(start) && start.sub.Disabled? && start.router.RouterDisabled?
    ensures Leads(start, s)
    ensures s == start.(sub := Activating, installed := true, abandoned := false, overtaken := false, caller := CallJoined, task := CheckRequested)
  {
    LeadsSelf(start);
    hide Leads;
    s := Reach(start, start, ActivateStep, start.(caller := CallWaiting));
    s := Reach(start, s, CallerStep, s.(caller := CallLocked));
    s := Reach(start, s, CallerStep, s.(sub := Activating, caller := CallInstalling));
    s := Reach(start, s, CallerStep,
               s.(installed := true, abandoned := false, overtaken := false, caller := CallJoined, task := CheckRequested));
  }

  lemma ActivationStartsBlocks(start: State) returns (s: State)
    requires Quiet(start) && start.sub.Disabled? && start.router.RouterDisabled?
    ensures Leads(start, s)
    ensures s == start.(sub := Activating, installed := true, abandoned := false, overtaken := false, caller := CallJoined,
                        task := BlockReturned(Succeeded), block := true)
  {
    s := ActivationInstalls(start);
    hide Leads, CallerNext, DisablerNext, BeginDisable;
    var go := TaskStep(Succeeded, false);
    s := Reach(start, s, go, s.(task := CheckAbandoned));
    s := Reach(start, s, go, s.(task := StartBlock));
    s := Reach(start, s, go, s.(block := true, task := BlockReturned(Succeeded)));
  }

  lemma ActivationStarts(start: State) returns (s: State)
    requires Quiet(start) && start.sub.Disabled? && start.router.RouterDisabled?
    ensures Leads(start, s)
    ensures s == start.(sub := Activating, installed := true, abandoned := false, overtaken := false, caller := CallJoined,
                        task := VspcReturned(Succeeded), block := true, vspc := true)
  {
    s := ActivationStartsBlocks(start);
    hide Leads, CallerNext, DisablerNext, BeginDisable;
    var go := TaskStep(Succeeded, false);
    s := Reach(start, s, go, s.(task := BlockDecided(Succeeded)));
    s := Reach(start, s, go, s.(task := StartVspc));
    s := Reach(start, s, go, s.(vspc := true, task := VspcReturned(Succeeded)));
  }

  /** From every quiet state of a reachable active generation that is Disabled, an activation
      whose calls succeed and that nothing disturbs ends with routing enabled and both streams
      up. */
  lemma ActivationCompletes(start: State)
    requires Inv(start) && Quiet(start) && start.sub.Disabled?
    ensures Leads(start, Routed(start))
  {
    DisabledAtRest(start);
    var s := ActivationStarts(start);
    hide Leads, Inv, CallerNext, DisablerNext, BeginDisable;
    var go := TaskStep(Succeeded, false);
    s := Reach(start, s, go, s.(task := VspcDecided(Succeeded)));
    s := Reach(start, s, go, s.(task := CheckActive));
    s := Reach(start, s, go, s.(task := Publish));
    s := Reach(start, s, go, Routed(start));
  }

  lemma DisableRequested(start: State) returns (s: State)
    requires Quiet(start) && start.sub.Enabled? && !start.router.RouterRetired?
    ensures Leads(start, s)
    ensures s == start.(sub := Disabling, router := RouterDisabled, disabler := DisableBlock)
  {
    LeadsSelf(start);
    hide Leads, CallerNext, TaskNext, StoppingNext;
    var go := DisablerStep(Succeeded, false);
    s := Reach(start, start, DisableStep, start.(sub := Disabling, disabler := DisableRouter));
    s := Reach(start, s, go, s.(router := RouterDisabled, disabler := DisableWaiting));
    s := Reach(start, s, go, s.(disabler := DisableBlock));
  }

  lemma DisableStops(start: State) returns (s: State)
    requires Quiet(start) && start.sub.Enabled? && !start.router.RouterRetired?
    ensures Leads(start, s)
    ensures s == start.(sub := Disabling, router := RouterDisabled, block := false, vspc := false,
                        disabler := DisableVerdict(Succeeded, Succeeded))
  {
    s := DisableRequested(start);
    hide Leads, CallerNext, TaskNext, BeginDisable;
    var go := DisablerStep(Succeeded, false);
    s := Reach(start, s, go, s.(block := false, disabler := DisableVspc(Succeeded)));
    s := Reach(start, s, go, s.(vspc := false, disabler := DisableVerdict(Succeeded, Succeeded)));
  }

  /** From every quiet Enabled state, a disable whose calls succeed and that nothing disturbs
      stops both streams, clears the router and ends Disabled. */
  lemma DisableCompletes(start: State)
    requires Inv(start) && Quiet(start) && start.sub.Enabled?
    ensures Leads(start, Rested(start))
  {
    var s := DisableStops(start);
    hide Leads, Inv, CallerNext, TaskNext;
    var go := DisablerStep(Succeeded, false);
    s := Reach(start, s, go, s.(disabler := DisableClear));
    s := Reach(start, s, go, s.(installed := false, disabler := DisableState));
    s := Reach(start, s, go, Rested(start));
  }

  // ----- A disable that overtakes an activation ------------------------------------------

  lemma OvertakenInstall() returns (s: State)
    ensures Reachable(s)
    ensures s == Initial.(sub := Activating, caller := CallJoined, task := CheckRequested, overtaken := true)
  {
    LeadsSelf(Initial);
    hide Leads;
    s := Reach(Initial, Initial, ActivateStep, Initial.(caller := CallWaiting));
    s := Reach(Initial, s, DisableStep, s.(disabler := DisableFastClear));
    s := Reach(Initial, s, CallerStep, s.(caller := CallLocked));
    s := Reach(Initial, s, CallerStep, s.(sub := Activating, caller := CallInstalling));
    s := Reach(Initial, s, CallerStep, s.(installed := true, caller := CallJoined, task := CheckRequested));
    s := Reach(Initial, s, DisablerStep(Succeeded, false), s.(installed := false, disabler := DisableIdle, overtaken := true));
  }

  lemma OvertakenStarts() returns (s: State)
    ensures Reachable(s)
    ensures s == Initial.(sub := Activating, caller := CallJoined, task := VspcReturned(Succeeded), overtaken := true, block := true, vspc := true)
  {
    s := OvertakenInstall();
    hide Leads;
    var go := TaskStep(Succeeded, false);
    s := Reach(Initial, s, go, s.(task := CheckAbandoned));
    s := Reach(Initial, s, go, s.(task := StartBlock));
    s := Reach(Initial, s, go, s.(block := true, task := BlockReturned(Succeeded)));
    s := Reach(Initial, s, go, s.(task := BlockDecided(Succeeded)));
    s := Reach(Initial, s, go, s.(task := StartVspc));
    s := Reach(Initial, s, go, s.(vspc := true, task := VspcReturned(Succeeded)));
  }

  /** A disable reads Disabled, a waiting activation then installs its destinations,
      and the disable clears them: both streams start but routing is never enabled. */
  lemma OvertakenActivation() returns (s: State)
    ensures Reachable(s)
    ensures s.active && s.sub.Activating? && s.task.NoTask? && s.block && s.vspc && s.router.RouterDisabled? && s.overtaken
  {
    s := OvertakenStarts();
    hide Leads;
    var go := TaskStep(Succeeded, false);
    s := Reach(Initial, s, go, s.(task := VspcDecided(Succeeded)));
    s := Reach(Initial, s, go, s.(task := CheckActive));
    s := Reach(Initial, s, go, s.(task := Publish));
    s := Reach(Initial, s, go, s.(task := NoTask, caller := CallRecovering));
  }
}
