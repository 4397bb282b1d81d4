/** Cache construction as interleaved steps: election, building, recording a result in
    the slot, completing the job, age pruning and replay-floor invalidation. */
module CacheProtocol {
  import opened Maps
  import opened Cache

  datatype Outcome = DeltaOutcome(delta: Result<CachedDelta>) | HeadOutcome(head: Result<HeadSnapshot>)

  datatype JobState = Pending | Complete(outcome: Outcome) | Invalidated(floor: nat)

  /** What a job was elected to build. */
  datatype Task = DeltaTask(source: nat, target: nat, sizeLimited: bool) | HeadTask(depth: nat)

  /** A builder first records its result in the slot and only then completes the job. */
  datatype Phase = Building | Recorded(outcome: Outcome) | Finished

  datatype Builder = Builder(task: Task, phase: Phase)

  datatype State = State(deltas: DeltaSlots, heads: HeadSlots, jobs: map<JobId, JobState>, builders: map<JobId, Builder>)

  datatype Step =
    | ElectDeltaStep(source: nat, timestamp: nat, target: nat, sizeLimited: bool, newJob: JobId)
    | ElectHeadStep(depth: nat, boundary: Boundary, newJob: JobId)
    | LookupHeadStep(headDepth: nat, headBoundary: Boundary)
    | PruneStep(now: nat)
    | RecordStep(job: JobId, outcome: Outcome)
    | CompleteStep(completed: JobId)
    | InvalidateStep(floor: nat)

  /** A builder's result matches what it was elected for. */
  predicate Fulfils(task: Task, outcome: Outcome) {
    match task
    case DeltaTask(source, target, sizeLimited) =>
      outcome.DeltaOutcome? && (outcome.delta.Ok? ==> outcome.delta.value.from == source && outcome.delta.value.to == target && outcome.delta.value.sizeLimited == sizeLimited)
    case HeadTask(depth) =>
      outcome.HeadOutcome? && (outcome.head.Ok? ==> outcome.head.value.depth == depth)
  }

  /** Job identities are fresh, builders run once, and a source's first timestamp is
      that of the revision after it. */
  predicate Enabled(s: State, step: Step, stamp: nat -> nat) {
    match step
    case ElectDeltaStep(source, timestamp, target, _, newJob) => newJob !in s.jobs && timestamp == stamp(source) && source < target
    case ElectHeadStep(_, _, newJob) => newJob !in s.jobs
    case LookupHeadStep(_, _) => true
    case PruneStep(now) => forall source :: source in s.deltas ==> s.deltas[source].firstTimestamp <= now
    case RecordStep(job, outcome) => job in s.builders && s.builders[job].phase.Building? && Fulfils(s.builders[job].task, outcome)
    case CompleteStep(job) => job in s.builders && job in s.jobs && s.builders[job].phase.Recorded?
    case InvalidateStep(_) => true
  }

  function Start(s: State, job: JobId, task: Task): State {
    s.(jobs := s.jobs[job := Pending], builders := s.builders[job := Builder(task, Building)])
  }

  function RecordSlot(s: State, job: JobId, task: Task, outcome: Outcome): State
    requires Fulfils(task, outcome)
  {
    match task
    case DeltaTask(source, _, _) => s.(deltas := FinishDelta(s.deltas, source, job, outcome.delta))
    case HeadTask(depth) => s.(heads := FinishHead(s.heads, depth, job, outcome.head))
  }

  function Detached(s: State, floor: nat): set<JobId> {
    DetachedDeltaJobs(s.deltas, floor) + DetachedHeadJobs(s.heads)
  }

  function Apply(s: State, step: Step, stamp: nat -> nat): State
    requires Enabled(s, step, stamp)
  {
    match step
    case ElectDeltaStep(source, timestamp, target, sizeLimited, newJob) =>
      var (slots, access) := ElectDelta(s.deltas, source, timestamp, target, sizeLimited, newJob);
      var next := s.(deltas := slots);
      if access == Job(newJob) then Start(next, newJob, DeltaTask(source, target, sizeLimited)) else next
    case ElectHeadStep(depth, boundary, newJob) =>
      var (slots, access) := ElectHead(s.heads, depth, boundary, newJob);
      var next := s.(heads := slots);
      if access == Job(newJob) then Start(next, newJob, HeadTask(depth)) else next
    case LookupHeadStep(depth, boundary) => s.(heads := LookupHead(s.heads, depth, boundary).0)
    case PruneStep(now) => s.(deltas := Unexpired(s.deltas, now))
    case RecordStep(job, outcome) =>
      var builder := s.builders[job];
      RecordSlot(s, job, builder.task, outcome).(builders := s.builders[job := builder.(phase := Recorded(outcome))])
    case CompleteStep(job) =>
      var builder := s.builders[job];
      s.(jobs := if s.jobs[job].Pending? then s.jobs[job := Complete(builder.phase.outcome)] else s.jobs,
         builders := s.builders[job := builder.(phase := Finished)])
    case InvalidateStep(floor) =>
      s.(deltas := DetachDelta(s.deltas, floor), heads := DetachHead(s.heads, floor),
         jobs := map job | job in s.jobs :: if job in Detached(s, floor) && s.jobs[job].Pending? then Invalidated(floor) else s.jobs[job])
  }

  // ----- The invariant -----------------------------------------------------------------------

  predicate RunsTask(s: State, job: JobId, task: Task) {
    Get(s.jobs, job) == Some(Pending) && Get(s.builders, job) == Some(Builder(task, Building))
  }

  /** A running slot holds a Pending job that is still building for exactly it. */
  ghost predicate SlotsRun(s: State) {
    && (forall source :: source in s.deltas && s.deltas[source].running.Some? ==>
          var r := s.deltas[source].running.value;
          RunsTask(s, r.job, DeltaTask(source, r.target, r.sizeLimited)))
    && (forall depth :: depth in s.heads && s.heads[depth].running.Some? ==>
          RunsTask(s, s.heads[depth].running.value, HeadTask(depth)))
  }

  /** A job is completed only by its own builder's last step. */
  ghost predicate JobsFollow(s: State) {
    && s.jobs.Keys == s.builders.Keys
    && forall job :: job in s.jobs ==>
         match s.builders[job].phase
         case Building => !s.jobs[job].Complete?
         case Recorded(outcome) => !s.jobs[job].Complete? && Fulfils(s.builders[job].task, outcome)
         case Finished => !s.jobs[job].Pending?
  }

  ghost predicate Inv(s: State, stamp: nat -> nat) {
    && SlotsOk(s.deltas) && HeadSlotsOk(s.heads) && SlotsRun(s) && JobsFollow(s)
    && forall source :: source in s.deltas ==> s.deltas[source].firstTimestamp == stamp(source)
  }

  const Empty := State(map[], map[], map[], map[])

  lemma EmptyInv(stamp: nat -> nat)
    ensures Inv(Empty, stamp)
  {
  }

  /** Recording moves one builder on; nothing about any other job changes. */
  lemma RecordedJobs(s: State, after: State, job: JobId, outcome: Outcome)
    requires JobsFollow(s) && job in s.builders && s.builders[job].phase.Building? && Fulfils(s.builders[job].task, outcome)
    requires after.jobs == s.jobs && after.builders == s.builders[job := s.builders[job].(phase := Recorded(outcome))]
    ensures JobsFollow(after)
  {
  }

  lemma RecordedRuns(s: State, after: State, job: JobId, outcome: Outcome)
    requires SlotsRun(s) && job in s.builders
    requires after.jobs == s.jobs && after.builders == s.builders[job := s.builders[job].(phase := Recorded(outcome))]
    requires forall source :: source in after.deltas && after.deltas[source].running.Some? ==>
               source in s.deltas && s.deltas[source].running == after.deltas[source].running && after.deltas[source].running.value.job != job
    requires forall depth :: depth in after.heads && after.heads[depth].running.Some? ==>
               depth in s.heads && s.heads[depth].running == after.heads[depth].running && after.heads[depth].running.value != job
    ensures SlotsRun(after)
  {
    forall source | source in after.deltas && after.deltas[source].running.Some?
      ensures var r := after.deltas[source].running.value; RunsTask(after, r.job, DeltaTask(source, r.target, r.sizeLimited))
    {
      var r := s.deltas[source].running.value;
      assert RunsTask(s, r.job, DeltaTask(source, r.target, r.sizeLimited));
    }
    forall depth | depth in after.heads && after.heads[depth].running.Some?
      ensures RunsTask(after, after.heads[depth].running.value, HeadTask(depth))
    {
      assert RunsTask(s, s.heads[depth].running.value, HeadTask(depth));
    }
  }

  /** A job found running in a slot was elected for exactly that slot. */
  lemma HeldTask(s: State, job: JobId)
    requires SlotsRun(s)
    ensures forall source :: HoldsDelta(s.deltas, source, job) ==>
              var r := s.deltas[source].running.value; RunsTask(s, job, DeltaTask(source, r.target, r.sizeLimited))
    ensures forall depth :: HoldsHead(s.heads, depth, job) ==> RunsTask(s, job, HeadTask(depth))
  {
  }

  lemma RecordDeltaKeepsInv(s: State, step: Step, stamp: nat -> nat)
    requires Inv(s, stamp) && Enabled(s, step, stamp) && step.RecordStep? && s.builders[step.job].task.DeltaTask?
    ensures Inv(Apply(s, step, stamp), stamp)
  {
    hide SlotsRun, JobsFollow, HeadSlotsOk, SlotsOk, Grows;
    var job, task, after := step.job, s.builders[step.job].task, Apply(s, step, stamp);
    HeldTask(s, job);
    FinishGrows(s.deltas, task.source, job, step.outcome.delta);
    RecordedJobs(s, after, job, step.outcome);
    assert forall source :: source in s.deltas && source != task.source ==> !HoldsDelta(s.deltas, source, job);
    assert forall depth :: depth in s.heads ==> !HoldsHead(s.heads, depth, job);
    RecordedRuns(s, after, job, step.outcome);
  }

  lemma RecordHeadKeepsInv(s: State, step: Step, stamp: nat -> nat)
    requires Inv(s, stamp) && Enabled(s, step, stamp) && step.RecordStep? && s.builders[step.job].task.HeadTask?
    ensures Inv(Apply(s, step, stamp), stamp)
  {
    hide SlotsRun, JobsFollow, SlotsOk;
    var job, task, after := step.job, s.builders[step.job].task, Apply(s, step, stamp);
    HeldTask(s, job);
    RecordedJobs(s, after, job, step.outcome);
    assert forall source :: source in s.deltas ==> !HoldsDelta(s.deltas, source, job);
    assert forall depth :: depth in s.heads && depth != task.depth ==> !HoldsHead(s.heads, depth, job);
    RecordedRuns(s, after, job, step.outcome);
  }

  lemma ElectDeltaKeepsInv(s: State, step: Step, stamp: nat -> nat)
    requires Inv(s, stamp) && Enabled(s, step, stamp) && step.ElectDeltaStep?
    ensures Inv(Apply(s, step, stamp), stamp)
  {
    hide SlotsOk, HeadSlotsOk, Grows, SlotsRun, JobsFollow;
    ElectGrows(s.deltas, step.source, step.timestamp, step.target, step.sizeLimited, step.newJob);
    var after := Apply(s, step, stamp);
    StartedJobs(s, after, step.newJob, DeltaTask(step.source, step.target, step.sizeLimited));
    ElectedSlotsRun(s, step, stamp);
  }

  lemma StartedJobs(s: State, after: State, job: JobId, task: Task)
    requires JobsFollow(s) && job !in s.jobs
    requires
      || (after.jobs == s.jobs && after.builders == s.builders)
      || (after.jobs == s.jobs[job := Pending] && after.builders == s.builders[job := Builder(task, Building)])
    ensures JobsFollow(after)
  {
  }

  lemma ElectedSlotsRun(s: State, step: Step, stamp: nat -> nat)
    requires SlotsRun(s) && Enabled(s, step, stamp) && step.ElectDeltaStep?
    ensures SlotsRun(Apply(s, step, stamp))
  {
    var after := Apply(s, step, stamp);
    forall source | source in after.deltas && after.deltas[source].running.Some?
      ensures var r := after.deltas[source].running.value; RunsTask(after, r.job, DeltaTask(source, r.target, r.sizeLimited))
    {
      if source in s.deltas && s.deltas[source].running.Some? {
        var r := s.deltas[source].running.value;
        assert RunsTask(s, r.job, DeltaTask(source, r.target, r.sizeLimited));
      }
    }
  }

  lemma ElectHeadKeepsInv(s: State, step: Step, stamp: nat -> nat)
    requires Inv(s, stamp) && Enabled(s, step, stamp) && step.ElectHeadStep?
    ensures Inv(Apply(s, step, stamp), stamp)
  {
  }

  lemma InvalidateKeepsInv(s: State, step: Step, stamp: nat -> nat)
    requires Inv(s, stamp) && Enabled(s, step, stamp) && step.InvalidateStep?
    ensures Inv(Apply(s, step, stamp), stamp)
  {
    var after := Apply(s, step, stamp);
    forall source | source in after.deltas && after.deltas[source].running.Some?
      ensures var r := after.deltas[source].running.value; RunsTask(after, r.job, DeltaTask(source, r.target, r.sizeLimited))
    {
      var r := s.deltas[source].running.value;
      assert RunsTask(s, r.job, DeltaTask(source, r.target, r.sizeLimited));
      NotDetached(s, stamp, source, step.floor);
    }
  }

  /** A job held by a retained source is held by no other slot. */
  lemma NotDetached(s: State, stamp: nat -> nat, source: nat, floor: nat)
    requires Inv(s, stamp) && source in s.deltas && source >= floor && s.deltas[source].running.Some?
    ensures s.deltas[source].running.value.job !in Detached(s, floor)
  {
  }

  /** Every step of every party keeps the protocol invariant. */
  lemma StepKeepsInv(s: State, step: Step, stamp: nat -> nat)
    requires Inv(s, stamp) && Enabled(s, step, stamp)
    ensures Inv(Apply(s, step, stamp), stamp)
  {
    match step
    case ElectDeltaStep(_, _, _, _, _) => ElectDeltaKeepsInv(s, step, stamp);
    case ElectHeadStep(_, _, _) => ElectHeadKeepsInv(s, step, stamp);
    case LookupHeadStep(_, _) =>
    case PruneStep(_) =>
    case RecordStep(job, _) =>
      if s.builders[job].task.DeltaTask? {
        RecordDeltaKeepsInv(s, step, stamp);
      } else {
        RecordHeadKeepsInv(s, step, stamp);
      }
    case CompleteStep(job) =>
      var after := Apply(s, step, stamp);
      assert forall other :: other != job ==> Get(after.jobs, other) == Get(s.jobs, other) && Get(after.builders, other) == Get(s.builders, other);
    case InvalidateStep(_) => InvalidateKeepsInv(s, step, stamp);
  }

  // ----- What the invariant rules out ------------------------------------------------------------

  /** Completing a job never meets a completed one, and invalidation meets only pending
      ones: neither source assertion can fire. */
  lemma AssertionsHold(s: State, step: Step, stamp: nat -> nat)
    requires Inv(s, stamp) && Enabled(s, step, stamp)
    ensures step.CompleteStep? ==> !s.jobs[step.completed].Complete?
    ensures step.InvalidateStep? ==> forall job :: job in Detached(s, step.floor) ==> Get(s.jobs, job) == Some(Pending)
    ensures step.RecordStep? && s.builders[step.job].task.DeltaTask? && HoldsDelta(s.deltas, s.builders[step.job].task.source, step.job) && step.outcome.delta.Ok? ==>
              var slot := s.deltas[s.builders[step.job].task.source];
              && step.outcome.delta.value.to == slot.running.value.target
              && step.outcome.delta.value.sizeLimited == slot.running.value.sizeLimited
  {
  }

  /** Publication timestamps that never fall keep the slots ordered, which is all that
      the sparse binary search needs to remove exactly the expired sources. */
  lemma SlotsStayOrdered(s: State, stamp: nat -> nat)
    requires Inv(s, stamp) && forall a, b :: a <= b ==> stamp(a) <= stamp(b)
    ensures Ordered(s.deltas)
  {
  }

  /** One job runs in at most one slot, of either kind. */
  lemma JobInOneSlot(s: State, stamp: nat -> nat, job: JobId)
    requires Inv(s, stamp)
    ensures forall a, b :: HoldsDelta(s.deltas, a, job) && HoldsDelta(s.deltas, b, job) ==> a == b
    ensures forall a, b :: HoldsHead(s.heads, a, job) && HoldsHead(s.heads, b, job) ==> a == b
    ensures forall a, b :: !(HoldsDelta(s.deltas, a, job) && HoldsHead(s.heads, b, job))
  {
    forall a | HoldsDelta(s.deltas, a, job)
      ensures Get(s.builders, job).Some? && s.builders[job].task.DeltaTask? && s.builders[job].task.source == a
    {
      var r := s.deltas[a].running.value;
      assert RunsTask(s, r.job, DeltaTask(a, r.target, r.sizeLimited));
    }
    forall b | HoldsHead(s.heads, b, job)
      ensures Get(s.builders, job).Some? && s.builders[job].task == HeadTask(b)
    {
      assert RunsTask(s, s.heads[b].running.value, HeadTask(b));
    }
  }

  /** A job that no slot holds any more writes no slot when its builder finishes. */
  lemma DetachedWritesNothing(s: State, step: Step, stamp: nat -> nat)
    requires Inv(s, stamp) && Enabled(s, step, stamp) && step.RecordStep?
    requires forall source :: !HoldsDelta(s.deltas, source, step.job)
    requires forall depth :: !HoldsHead(s.heads, depth, step.job)
    ensures Apply(s, step, stamp).deltas == s.deltas && Apply(s, step, stamp).heads == s.heads
  {
    match s.builders[step.job].task
    case DeltaTask(source, _, _) => assert !HoldsDelta(s.deltas, source, step.job);
    case HeadTask(depth) => assert !HoldsHead(s.heads, depth, step.job);
  }

  /** An invalidated or completed job is never found in a slot again. */
  lemma TerminalIsDetached(s: State, stamp: nat -> nat, job: JobId)
    requires Inv(s, stamp) && job in s.jobs && !s.jobs[job].Pending?
    ensures forall source :: !HoldsDelta(s.deltas, source, job)
    ensures forall depth :: !HoldsHead(s.heads, depth, job)
  {
  }

  // ----- Runs -------------------------------------------------------------------------------------

  ghost predicate Runs(s: State, steps: seq<Step>, stamp: nat -> nat)
    decreases |steps|
  {
    steps == [] || (Enabled(s, steps[0], stamp) && Runs(Apply(s, steps[0], stamp), steps[1..], stamp))
  }

  ghost function RunAll(s: State, steps: seq<Step>, stamp: nat -> nat): State
    requires Runs(s, steps, stamp)
    decreases |steps|
  {
    if steps == [] then s else RunAll(Apply(s, steps[0], stamp), steps[1..], stamp)
  }

  lemma TerminalStays(s: State, step: Step, stamp: nat -> nat, job: JobId)
    requires Inv(s, stamp) && Enabled(s, step, stamp) && job in s.jobs
    ensures job in Apply(s, step, stamp).jobs
    ensures !s.jobs[job].Pending? ==> Apply(s, step, stamp).jobs[job] == s.jobs[job]
  {
  }

  /** Over every run the invariant holds, and a job that has become terminal keeps that
      exact state to the end. */
  lemma {:induction false} JobsTerminateOnce(s: State, steps: seq<Step>, stamp: nat -> nat, job: JobId)
    requires Inv(s, stamp) && Runs(s, steps, stamp)
    ensures Inv(RunAll(s, steps, stamp), stamp)
    ensures job in s.jobs && !s.jobs[job].Pending? ==> Get(RunAll(s, steps, stamp).jobs, job) == Some(s.jobs[job])
    decreases |steps|
  {
    if steps != [] {
      StepKeepsInv(s, steps[0], stamp);
      if job in s.jobs {
        TerminalStays(s, steps[0], stamp, job);
      }
      JobsTerminateOnce(Apply(s, steps[0], stamp), steps[1..], stamp, job);
    }
  }

  /** No step of any party lowers the completed target of a source slot that lives on. */
  lemma StepGrows(s: State, step: Step, stamp: nat -> nat)
    requires Inv(s, stamp) && Enabled(s, step, stamp)
    ensures Grows(s.deltas, Apply(s, step, stamp).deltas)
  {
    match step
    case ElectDeltaStep(source, timestamp, target, sizeLimited, newJob) => ElectGrows(s.deltas, source, timestamp, target, sizeLimited, newJob);
    case RecordStep(job, outcome) =>
      if s.builders[job].task.DeltaTask? {
        FinishGrows(s.deltas, s.builders[job].task.source, job, outcome.delta);
      }
    case _ =>
  }
}
