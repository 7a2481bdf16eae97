/**
 The whole life of one job under the coordinator: submission, the drive loop,
 review, cancellation, failures, failed failure-recording, crashes and restarts.

 Everything the chain does not decide is an oracle: worker answers, whether a
 transition is allowed and commits, whether an error follows the commit, and
 when the service dies. So no theorem here depends on the domain's table of
 allowed transitions.
 */
module JobLife {
  import opened Wrappers
  import W = WorkerExecution

  datatype JobState =
    | Queued | PreparingImage | ImageReady | PlanningPaths | PathPlanReady | BuildingGcode | ValidatingGcode
    | ReadyToRun | Blocked | Failed | Cancelled | Completed

  datatype JobKind = Workflow | GcodeCheckJob

  datatype Route = ImageEdit | DirectOnly | Auto

  const REVIEW_REQUIRED := "REVIEW_REQUIRED"
  const REVIEW_ACCEPTED := "job.review_accepted"

  /** One verdict of the service's own G-code check, and the reference it checked. */
  datatype Recheck = Recheck(gcode: W.Ref, allowed: bool)

  datatype Job = Job(
    kind: JobKind,
    route: Route,
    state: JobState,
    blocker: Option<string>,
    history: seq<string>,
    artifacts: seq<W.Ref>,           // in the order they were recorded
    snapshot: Option<W.Ref>)         // the G-code of the ready snapshot

  // ------------------------------------------------------------ one advance

  /** The attempts offered to the executions of one advance, and what else it meets. */
  datatype Plan = Plan(
    cancelRequested: bool,
    imports: Option<seq<W.Ref>>,     // None: the input cannot be imported
    first: (W.Attempt, W.Attempt),
    second: (W.Attempt, W.Attempt),
    third: (W.Attempt, W.Attempt),
    routeDecision: Option<bool>,     // the promoted decision: None invalid, true means image edit
    readsDocuments: bool)

  datatype Move = Move(
    state: JobState,
    event: string,
    artifacts: seq<W.Ref>,
    blocker: Option<string>,
    snapshot: Option<W.Ref>)

  datatype Effect = Raises | Stays | Moves(move: Move)

  /** What an advance asks of the repository, the provider tasks it submitted, and the verdicts it came to. */
  datatype Advance = Advance(effect: Effect, providers: nat, rechecks: seq<Recheck>)

  function Execute(kind: W.Kind, mode: W.Mode, attempts: (W.Attempt, W.Attempt)): W.Execution {
    W.Outcomes(W.Task(kind, mode), attempts.0, attempts.1)
  }

  function To(state: JobState, event: string, artifacts: seq<W.Ref>): Effect {
    Moves(Move(state, event, artifacts, None, None))
  }

  /** The transition an execution leads to; a blocking worker's error code becomes the blocker. */
  function FinishWorker(e: W.Execution, success: JobState, event: string, extra: seq<W.Ref>): Effect {
    if e.Raised? then Raises
    else match e.status
      case Succeeded => To(success, event, extra + e.artifacts)
      case Blocked => Moves(Move(Blocked, event, extra + e.artifacts, Some(e.code), None))
      case Cancelled => To(Cancelled, "job.cancelled", [])
      case Failed => To(Failed, "job.worker_failed", [])
  }

  function ForReview(artifacts: seq<W.Ref>): Effect {
    Moves(Move(Blocked, "job.review_required", artifacts, Some(REVIEW_REQUIRED), None))
  }

  predicate Succeeded(e: W.Execution) {
    e.Done? && e.status.Succeeded?
  }

  function PrepareImage(job: Job, plan: Plan): Advance {
    if job.route.ImageEdit? then EditImage([], plan.first, plan.second)
    else
      var mode := if job.route.Auto? then W.AutoRoute else W.Direct;
      var prepared := Execute(W.ImagePrepare, mode, plan.first);
      if !Succeeded(prepared) then Advance(FinishWorker(prepared, Blocked, "job.image_prepared", []), 0, [])
      else if !job.route.Auto? then Advance(ForReview(prepared.artifacts), 0, [])
      else if plan.routeDecision.None? then Advance(To(Failed, "job.orchestration_failed", []), 0, [])
      else if plan.routeDecision.value then EditImage(prepared.artifacts, plan.second, plan.third)
      else
        var direct := Execute(W.ImagePrepare, W.Direct, plan.second);
        if !Succeeded(direct)
        then Advance(FinishWorker(direct, Blocked, "job.image_prepared", prepared.artifacts), 0, [])
        else Advance(ForReview(prepared.artifacts + RenameRoute(direct.artifacts)), 0, [])
  }

  function RenameRoute(artifacts: seq<W.Ref>): seq<W.Ref> {
    seq(|artifacts|, i requires 0 <= i < |artifacts| =>
      if artifacts[i].role == "route_decision" then artifacts[i].(role := "direct_route_decision") else artifacts[i])
  }

  /** The provider runs once, whatever happens; then its image is normalized. */
  function EditImage(prefix: seq<W.Ref>, providing: (W.Attempt, W.Attempt), normalizing: (W.Attempt, W.Attempt)): Advance {
    var tasks := W.Submissions(W.Task(W.Provider, W.NoMode), providing.0, providing.1);
    var provided := Execute(W.Provider, W.NoMode, providing);
    if !Succeeded(provided) then Advance(FinishWorker(provided, Blocked, "job.provider_finished", prefix), tasks, [])
    else
      var prior := prefix + provided.artifacts;
      var normalized := Execute(W.ImagePrepare, W.NormalizeExisting, normalizing);
      if !Succeeded(normalized) then Advance(FinishWorker(normalized, Blocked, "job.image_prepared", prior), tasks, [])
      else Advance(ForReview(prior + normalized.artifacts), tasks, [])
  }

  /** The last recorded artifact of a role. */
  function Last(artifacts: seq<W.Ref>, role: string): Option<W.Ref>
    decreases |artifacts|
  {
    if artifacts == [] then None
    else if artifacts[|artifacts| - 1].role == role then Some(artifacts[|artifacts| - 1])
    else Last(artifacts[..|artifacts| - 1], role)
  }

  function Verdict(gcode: W.Ref, e: W.Execution): seq<Recheck> {
    if e.Done? && e.rechecked.Some? then [Recheck(gcode, e.rechecked.value)] else []
  }

  /** Validation of the last recorded G-code; only the service's own agreement makes the job ready. */
  function ValidateGcode(job: Job, plan: Plan): Advance {
    var gcode := Last(job.artifacts, "gcode");
    if gcode.None? then Advance(Raises, 0, [])
    else
      var checked := Execute(W.GcodeCheck, W.NoMode, plan.first);
      var verdict := Verdict(gcode.value, checked);
      if job.kind.GcodeCheckJob? then Advance(FinishWorker(checked, Completed, "gcode_check.completed", []), 0, verdict)
      else if !Succeeded(checked) then Advance(FinishWorker(checked, ReadyToRun, "job.ready_to_run", []), 0, verdict)
      else
        var ready := Last(job.artifacts + checked.artifacts, "gcode");
        if ready.None? || !plan.readsDocuments then Advance(Raises, 0, verdict)
        else Advance(Moves(Move(ReadyToRun, "job.ready_to_run", checked.artifacts, None, ready)), 0, verdict)
  }

  /** One call of advance. */
  function AdvanceJob(job: Job, plan: Plan): Advance {
    if plan.cancelRequested then
      if Finished(job.state) then Advance(Stays, 0, []) else Advance(To(Cancelled, "job.cancelled", []), 0, [])
    else match job.state
      case Queued =>
        if plan.imports.None? then Advance(Raises, 0, [])
        else if job.kind.GcodeCheckJob? then Advance(To(ValidatingGcode, "gcode_check.validating", plan.imports.value), 0, [])
        else Advance(To(PreparingImage, "job.image_preparing", plan.imports.value), 0, [])
      case ValidatingGcode => ValidateGcode(job, plan)
      case _ =>
        if job.kind.GcodeCheckJob? then Advance(Stays, 0, [])
        else AdvanceWorkflow(job, plan)
  }

  function AdvanceWorkflow(job: Job, plan: Plan): Advance {
    match job.state
    case PreparingImage => PrepareImage(job, plan)
    case ImageReady => Advance(To(PlanningPaths, "job.path_planning", []), 0, [])
    case PlanningPaths =>
      Advance(FinishWorker(Execute(W.PathsPlan, W.NoMode, plan.first), PathPlanReady, "job.path_plan_ready", []), 0, [])
    case PathPlanReady => Advance(To(BuildingGcode, "job.gcode_building", []), 0, [])
    case BuildingGcode =>
      Advance(FinishWorker(Execute(W.GcodeBuild, W.NoMode, plan.first), ValidatingGcode, "job.gcode_validating", []), 0, [])
    case _ => Advance(Stays, 0, [])
  }

  predicate Finished(state: JobState) {
    state.Cancelled? || state.Failed? || state.Completed?
  }

  /** Where the drive loop stops. */
  predicate Rests(state: JobState) {
    Finished(state) || state.ReadyToRun? || state.Blocked?
  }

  // --------------------------------------------------------- the whole life

  /** What became of a transition the chain asked for. */
  datatype Commit = Rejected | Committed | CommittedThenRaised

  datatype Service =
    | Down
    | Starting
    | Idle
    | Driving          // in the drive loop, at the top
    | Recording        // about to record an unexpected failure

  /** `unrecorded` remembers a command that was given up without its job being driven or failed. */
  datatype State = State(job: Option<Job>, service: Service, providers: nat, rechecks: seq<Recheck>, unrecorded: bool)

  const INITIAL := State(None, Down, 0, [], false)

  /** How a command goes on after its commit. */
  datatype After = Drives | Records | Returns

  datatype Step =
    | Submit(kind: JobKind, route: Route, artifacts: seq<W.Ref>, after: After)
    | Review(after: After)
    | Drive(plan: Plan, commit: Commit)
    | DriveCrashes(plan: Plan)
    | RecordFailure(commit: Commit)
    | Cancel(commit: Commit)
    | Crash
    | Boot
    | FailRehydration(commit: Commit)
    | Reconcile(commit: Commit)

  function QueuedEvent(kind: JobKind): string {
    if kind.Workflow? then "job.queued" else "gcode_check.queued"
  }

  function Apply(job: Job, m: Move): Job {
    job.(state := m.state, blocker := m.blocker, history := job.history + [m.event],
         artifacts := job.artifacts + m.artifacts,
         snapshot := if m.state.Cancelled? && job.snapshot.Some? then job.snapshot else m.snapshot)
  }

  function Fail(event: string): Move {
    Move(Failed, event, [], None, None)
  }

  function CommitMove(job: Job, m: Move, commit: Commit): Job {
    if commit.Rejected? then job else Apply(job, m)
  }

  function Then(after: After): Service {
    match after
    case Drives => Driving
    case Records => Recording
    case Returns => Idle
  }

  function DriveStep(s: State, job: Job, plan: Plan, commit: Commit): State {
    if Rests(job.state) then s.(service := Idle)
    else
      var a := AdvanceJob(job, plan);
      var s' := s.(providers := s.providers + a.providers, rechecks := s.rechecks + a.rechecks);
      match a.effect
      case Raises => s'.(service := Recording)
      case Stays => s'
      case Moves(move) =>
        s'.(job := Some(CommitMove(job, move, commit)), service := if commit.Committed? then Driving else Recording)
  }

  /** The step gives up on a command: its failure cannot be recorded, or it is not even tried. */
  predicate GivesUp(step: Step) {
    match step
    case Submit(_, _, _, after) => after.Returns?
    case Review(after) => after.Returns?
    case RecordFailure(commit) => commit.Rejected?
    case _ => false
  }

  /** One step, and the record of what was given up. */
  function Next(s: State, step: Step): State {
    var s' := Take(s, step);
    if GivesUp(step) then s'.(unrecorded := true) else s'
  }

  /** What the step does; one that is not enabled changes nothing. */
  function Take(s: State, step: Step): State {
    match step
    case Submit(kind, route, artifacts, after) =>
      if !s.service.Idle? || s.job.Some? then s
      else s.(job := Some(Job(kind, route, Queued, None, [QueuedEvent(kind)], artifacts, None)), service := Then(after))
    case Review(after) =>
      if !s.service.Idle? || s.job.None? || !s.job.value.state.Blocked? || s.job.value.blocker != Some(REVIEW_REQUIRED) then s
      else s.(job := Some(Apply(s.job.value, Move(ImageReady, REVIEW_ACCEPTED, [], None, None))), service := Then(after))
    case Drive(plan, commit) =>
      if s.service.Driving? && s.job.Some? then DriveStep(s, s.job.value, plan, commit) else s
    case DriveCrashes(plan) =>
      if !s.service.Driving? || s.job.None? || Rests(s.job.value.state) then s
      else
        var a := AdvanceJob(s.job.value, plan);
        s.(service := Down, providers := s.providers + a.providers, rechecks := s.rechecks + a.rechecks)
    case RecordFailure(commit) =>
      if !s.service.Recording? || s.job.None? then s
      else if Finished(s.job.value.state) then s.(service := Idle)
      else s.(service := Idle, job := Some(CommitMove(s.job.value, Fail("job.orchestration_failed"), commit)))
    case Cancel(commit) =>
      if !s.service.Idle? || s.job.None? || Finished(s.job.value.state) then s
      else s.(job := Some(CommitMove(s.job.value, Move(Cancelled, "job.cancelled", [], None, None), commit)))
    case Crash => s.(service := Down)
    case Boot => if s.service.Down? then s.(service := Starting) else s
    case FailRehydration(commit) =>
      if !s.service.Starting? || s.job.None? || !s.job.value.state.Blocked? || s.job.value.blocker != Some(REVIEW_REQUIRED) then s
      else s.(job := Some(CommitMove(s.job.value, Fail("job.orchestration_failed"), commit)),
              service := if commit.Committed? then Starting else Down)
    case Reconcile(commit) =>
      if !s.service.Starting? then s
      else if s.job.None? || Rests(s.job.value.state) then s.(service := Idle)
      else s.(job := Some(CommitMove(s.job.value, Fail("job.service_restarted"), commit)),
              service := if commit.Committed? then Idle else Down)
  }

  function Run(s: State, steps: seq<Step>): State
    decreases |steps|
  {
    if steps == [] then s else Run(Next(s, steps[0]), steps[1..])
  }

  // ---------------------------------------------------------- invariants

  predicate Reviewed(state: JobState) {
    state.ImageReady? || state.PlanningPaths? || state.PathPlanReady? || state.BuildingGcode?
    || state.ValidatingGcode? || state.ReadyToRun?
  }

  /** Before or inside image preparation: the only states from which a provider can still be asked. */
  predicate Unprovided(state: JobState) {
    state.Queued? || state.PreparingImage?
  }

  ghost predicate ProviderFits(s: State) {
    && s.providers <= 1
    && (s.job.None? ==> s.providers == 0)
    && (s.job.Some? && s.providers == 1 && s.service.Driving? ==> !Unprovided(s.job.value.state))
    && (s.job.Some? && s.job.value.state.Queued? ==> s.providers == 0)
  }

  ghost predicate ReviewFits(job: Job) {
    job.kind.Workflow? && Reviewed(job.state) ==> REVIEW_ACCEPTED in job.history
  }

  ghost predicate ReadyFits(job: Job, rechecks: seq<Recheck>) {
    job.state.ReadyToRun? ==>
      && job.kind.Workflow? && job.snapshot.Some?
      && Last(job.artifacts, "gcode") == job.snapshot
      && rechecks != [] && rechecks[|rechecks| - 1] == Recheck(job.snapshot.value, true)
  }

  predicate InFlight(s: State) {
    s.job.Some? && !Rests(s.job.value.state)
  }

  ghost predicate Inv(s: State) {
    && ProviderFits(s) && (s.service.Idle? && InFlight(s) ==> s.unrecorded)
    && (s.job.Some? ==> ReviewFits(s.job.value) && ReadyFits(s.job.value, s.rechecks))
  }

  // -------------------------------------------------------------- proofs

  /** Artifacts of other roles do not change the last one of a role. */
  lemma {:induction false} LastAfter(artifacts: seq<W.Ref>, more: seq<W.Ref>, role: string)
    requires forall a :: a in more ==> a.role != role
    ensures Last(artifacts + more, role) == Last(artifacts, role)
    decreases |more|
  {
    if more == [] {
      assert artifacts + more == artifacts;
    } else {
      var all := artifacts + more;
      assert all[|all| - 1] == more[|more| - 1] && more[|more| - 1] in more;
      assert all[..|all| - 1] == artifacts + more[..|more| - 1];
      LastAfter(artifacts, more[..|more| - 1], role);
    }
  }

  /** An advance asks the provider at most once, and only from image preparation. */
  lemma AdvanceAsksProviderOnce(job: Job, plan: Plan)
    ensures AdvanceJob(job, plan).providers <= 1
    ensures AdvanceJob(job, plan).providers == 1 ==> job.state.PreparingImage?
  {
  }

  /** From image preparation an advance leads to review, blocking or the end, never back. */
  lemma PreparationEndsThere(job: Job, plan: Plan)
    requires job.state.PreparingImage?
    ensures var e := AdvanceJob(job, plan).effect;
            e.Moves? ==> e.move.state.Blocked? || e.move.state.Failed? || e.move.state.Cancelled?
  {
  }

  /** Where an advance can lead, and what it leaves behind on the way. */
  lemma AdvanceMovesForward(job: Job, plan: Plan)
    ensures var e := AdvanceJob(job, plan).effect;
            e.Moves? ==>
              && !e.move.state.Queued?
              && (e.move.state.PreparingImage? ==> job.state.Queued?)
              && (job.kind.Workflow? && Reviewed(e.move.state) ==> Reviewed(job.state))
              && (e.move.state.ReadyToRun? ==> job.kind.Workflow? && job.state.ValidatingGcode?)
  {
    if job.state.PreparingImage? {
      PreparationEndsThere(job, plan);
    } else if job.state.ValidatingGcode? {
      ValidationEndsThere(job, plan);
    }
  }

  /** From validation an advance makes a workflow ready, completes a check, blocks or ends. */
  lemma ValidationEndsThere(job: Job, plan: Plan)
    ensures var e := ValidateGcode(job, plan).effect;
            e.Moves? ==> || e.move.state.Blocked? || e.move.state.Failed? || e.move.state.Cancelled?
                         || (e.move.state == if job.kind.Workflow? then ReadyToRun else Completed)
  {
  }

  /** An advance to ready carries the very G-code the service has just checked and allowed. */
  lemma ReadyIsRechecked(job: Job, plan: Plan)
    requires var e := AdvanceJob(job, plan).effect; e.Moves? && e.move.state.ReadyToRun?
    ensures var a := AdvanceJob(job, plan); var m := a.effect.move;
            && m.snapshot.Some? && Last(job.artifacts + m.artifacts, "gcode") == m.snapshot
            && a.rechecks == [Recheck(m.snapshot.value, true)]
  {
    AdvanceMovesForward(job, plan);
    W.SuccessIsEarned(W.Task(W.GcodeCheck, W.NoMode), plan.first.0, plan.first.1);
    var checked := Execute(W.GcodeCheck, W.NoMode, plan.first);
    LastAfter(job.artifacts, checked.artifacts, "gcode");
  }

  lemma DriveKeepsInv(s: State, plan: Plan, commit: Commit)
    requires Inv(s) && s.service.Driving? && s.job.Some?
    ensures Inv(DriveStep(s, s.job.value, plan, commit))
  {
    var job := s.job.value;
    if !Rests(job.state) {
      var a := AdvanceJob(job, plan);
      AdvanceAsksProviderOnce(job, plan);
      if job.state.PreparingImage? {
        PreparationEndsThere(job, plan);
      }
      AdvanceMovesForward(job, plan);
      if a.effect.Moves? && a.effect.move.state.ReadyToRun? {
        ReadyIsRechecked(job, plan);
      }
    }
  }

  lemma NextKeepsInv(s: State, step: Step)
    requires Inv(s)
    ensures Inv(Next(s, step))
  {
    match step
    case Drive(plan, commit) =>
      if s.service.Driving? && s.job.Some? {
        DriveKeepsInv(s, plan, commit);
      }
    case DriveCrashes(plan) =>
      if s.job.Some? {
        AdvanceAsksProviderOnce(s.job.value, plan);
      }
    case _ =>
  }

  lemma {:induction false} RunKeepsInv(s: State, steps: seq<Step>)
    requires Inv(s)
    ensures Inv(Run(s, steps))
    decreases |steps|
  {
    if steps != [] {
      NextKeepsInv(s, steps[0]);
      RunKeepsInv(Next(s, steps[0]), steps[1..]);
    }
  }

  // ------------------------------------------------------------ theorems

  /**
   Over its whole life a job submits at most one provider task: through worker
   crashes, raised errors, failures that could not be recorded and restarts.
   */
  lemma AtMostOneProviderTask(steps: seq<Step>)
    ensures Run(INITIAL, steps).providers <= 1
  {
    RunKeepsInv(INITIAL, steps);
  }

  /**
   Whenever the coordinator is idle, its job is at rest: driven to an end, blocked,
   ready, or failed. The only exception is a job whose failure could not be
   recorded; the next completed startup fails it.
   */
  lemma IdleMeansAtRest(steps: seq<Step>)
    ensures var s := Run(INITIAL, steps); s.service.Idle? && InFlight(s) ==> s.unrecorded
    ensures var s := Run(INITIAL, steps); s.service.Starting? && InFlight(s) ==>
              var s' := Next(s, Reconcile(Committed)); s'.service.Idle? && s'.job.Some? && s'.job.value.state.Failed?
  {
    RunKeepsInv(INITIAL, steps);
  }

  /** A failure to record is an error of its own: an advance that raises, or commits and then raises, is always recorded next. */
  lemma RaisedAdvanceIsRecorded(s: State, plan: Plan, commit: Commit)
    requires s.service.Driving? && InFlight(s)
    requires var e := AdvanceJob(s.job.value, plan).effect; e.Raises? || (e.Moves? && !commit.Committed?)
    ensures var s1 := Next(s, Drive(plan, commit));
            && s1.service.Recording?
            && var s2 := Next(s1, RecordFailure(Committed));
            s2.service.Idle? && s2.job.Some? && (Finished(s2.job.value.state) && (InFlight(s1) ==> s2.job.value.state.Failed?))
  {
  }

  /**
   A job that is ready to run is a workflow with an accepted review in its
   history; its snapshot holds the last recorded G-code, and that very reference
   is what the service last rechecked and allowed to stream.
   */
  lemma ReadyMeansReviewedAndRechecked(steps: seq<Step>)
    requires var s := Run(INITIAL, steps); s.job.Some? && s.job.value.state.ReadyToRun?
    ensures var s := Run(INITIAL, steps); var job := s.job.value;
            && job.kind.Workflow? && REVIEW_ACCEPTED in job.history
            && job.snapshot.Some? && Last(job.artifacts, "gcode") == job.snapshot
            && |s.rechecks| > 0 && s.rechecks[|s.rechecks| - 1] == Recheck(job.snapshot.value, true)
  {
    RunKeepsInv(INITIAL, steps);
  }

  /** The bound is met: an image-edit job that is driven twice has asked the provider. */
  lemma ProviderIsAsked(plan: Plan, input: seq<W.Ref>)
    requires !plan.cancelRequested && plan.imports == Some(input) && plan.first.0.RaisesAfter?
    ensures Next(Next(Next(Next(Next(INITIAL, Boot), Reconcile(Committed)), Submit(Workflow, ImageEdit, [], Drives)),
                      Drive(plan, Committed)), Drive(plan, Committed)).providers == 1
  {
    var s3 := Next(Next(Next(INITIAL, Boot), Reconcile(Committed)), Submit(Workflow, ImageEdit, [], Drives));
    assert s3 == State(Some(Job(Workflow, ImageEdit, Queued, None, ["job.queued"], [], None)), Driving, 0, [], false);
    var s4 := Next(s3, Drive(plan, Committed));
    assert s4.job.value.state.PreparingImage? && s4.service.Driving? && s4.job.value.route.ImageEdit? && s4.job.value.kind.Workflow?;
  }

  /** The attempt that decides an execution. */
  function Deciding(task: W.Task, attempts: (W.Attempt, W.Attempt)): W.Attempt {
    W.Deciding(task, attempts.0, attempts.1)
  }

  /** The check worker claims success with exactly its documents, and the service's own check bears it out. */
  predicate Vindicated(attempt: W.Attempt) {
    && attempt.Answers? && attempt.outcome.matchesTask && attempt.outcome.status.Succeeded?
    && W.Roles(attempt.outcome.artifacts) == {"gcode_static", "send_plan", "readiness"}
    && attempt.inspection == W.Inspection(true, true, true, true)
  }

  /** Exactly when one advance makes a job ready to run. */
  lemma ReadyExactlyWhenVindicated(job: Job, plan: Plan)
    ensures (AdvanceJob(job, plan).effect.Moves? && AdvanceJob(job, plan).effect.move.state.ReadyToRun?)
            <==> && job.kind.Workflow? && job.state.ValidatingGcode? && !plan.cancelRequested && plan.readsDocuments
                 && Last(job.artifacts, "gcode").Some?
                 && Vindicated(Deciding(W.Task(W.GcodeCheck, W.NoMode), plan.first))
  {
    AdvanceMovesForward(job, plan);
    var task := W.Task(W.GcodeCheck, W.NoMode);
    var checked := Execute(W.GcodeCheck, W.NoMode, plan.first);
    var attempt := Deciding(task, plan.first);
    if job.state.ValidatingGcode? && Vindicated(attempt) {
      assert W.RequiredRoles(task, W.Succeeded) == {"gcode_static", "send_plan", "readiness"};
      assert "readiness" in W.Roles(attempt.outcome.artifacts);
      assert Succeeded(checked);
    }
    if Succeeded(checked) {
      W.SuccessIsEarned(task, plan.first.0, plan.first.1);
      assert "readiness" in W.RequiredRoles(task, W.Succeeded);
      LastAfter(job.artifacts, checked.artifacts, "gcode");
    }
  }

  // ------------------------------------------- every end of an advance

  /** A worker run of one advance. */
  datatype Leg = Leg(task: W.Task, attempts: (W.Attempt, W.Attempt))

  function Decisive(leg: Leg): W.Attempt {
    Deciding(leg.task, leg.attempts)
  }

  predicate Succeeds(leg: Leg) {
    W.Believed(leg.task, Decisive(leg)) && Decisive(leg).outcome.status.Succeeded?
  }

  function Yield(leg: Leg): seq<W.Ref>
    requires Succeeds(leg)
  {
    Decisive(leg).outcome.artifacts
  }

  /** How an advance ends on a run that did not succeed, by the deciding attempt's own status. */
  predicate EndsOn(e: Effect, leg: Leg, earlier: seq<W.Ref>) {
    var d := Decisive(leg);
    if W.Undone(leg.task, d) then e.Raises?
    else
      && e.Moves? && e.move.snapshot.None?
      && if !W.Believed(leg.task, d) || d.outcome.status.Failed? then
           e.move.state.Failed? && e.move.artifacts == [] && e.move.blocker.None?
         else if d.outcome.status.Cancelled? then
           e.move.state.Cancelled? && e.move.artifacts == [] && e.move.blocker.None?
         else
           e.move.state.Blocked? && e.move.artifacts == earlier + d.outcome.artifacts && e.move.blocker == Some(d.outcome.code)
  }

  lemma LegDecides(leg: Leg, success: JobState, event: string, earlier: seq<W.Ref>)
    ensures var e := Execute(leg.task.kind, leg.task.mode, leg.attempts);
            && (Succeeded(e) <==> Succeeds(leg))
            && (Succeeds(leg) ==> e.artifacts == Yield(leg))
            && (!Succeeds(leg) ==> EndsOn(FinishWorker(e, success, event, earlier), leg, earlier))
  {
    W.ExecutionByDecidingAttempt(leg.task, leg.attempts.0, leg.attempts.1);
    assert W.Task(leg.task.kind, leg.task.mode) == leg.task;
  }

  /** A cancellation that was asked for ends every job that is not finished. */
  lemma CancellationEnds(job: Job, plan: Plan)
    requires plan.cancelRequested
    ensures var e := AdvanceJob(job, plan).effect;
            if Finished(job.state) then e.Stays? else e.Moves? && e.move.state.Cancelled? && e.move.artifacts == []
  {
  }

  /** The states in which one worker run decides, its run, and where success leads. */
  predicate OneRun(job: Job) {
    job.state.ValidatingGcode? || (job.kind.Workflow? && (job.state.PlanningPaths? || job.state.BuildingGcode?))
  }

  function RunOf(job: Job, plan: Plan): Leg {
    Leg(W.Task(if job.state.PlanningPaths? then W.PathsPlan else if job.state.BuildingGcode? then W.GcodeBuild else W.GcodeCheck,
               W.NoMode), plan.first)
  }

  function SuccessOf(job: Job): JobState {
    if job.state.PlanningPaths? then PathPlanReady
    else if job.state.BuildingGcode? then ValidatingGcode
    else if job.kind.Workflow? then ReadyToRun else Completed
  }

  /**
   Planning, building and validating: the advance succeeds exactly when its
   deciding attempt is a believed success, and otherwise ends by that attempt's
   own status. A ready workflow also needs its documents to be read back.
   */
  lemma OneRunEndsExactly(job: Job, plan: Plan)
    requires OneRun(job) && !plan.cancelRequested && (job.state.ValidatingGcode? ==> Last(job.artifacts, "gcode").Some?)
    ensures var e := AdvanceJob(job, plan).effect; var run := RunOf(job, plan);
            if !Succeeds(run) then EndsOn(e, run, [])
            else if SuccessOf(job).ReadyToRun? && !plan.readsDocuments then e.Raises?
            else e.Moves? && e.move.state == SuccessOf(job) && e.move.artifacts == Yield(run) && e.move.blocker.None?
  {
    var run := RunOf(job, plan);
    LegDecides(run, SuccessOf(job), "job.path_plan_ready", []);
    LegDecides(run, SuccessOf(job), "job.gcode_validating", []);
    LegDecides(run, SuccessOf(job), "job.ready_to_run", []);
    LegDecides(run, SuccessOf(job), "gcode_check.completed", []);
    if job.state.ValidatingGcode? && Succeeds(run) {
      var checked := Execute(W.GcodeCheck, W.NoMode, plan.first);
      W.SuccessIsEarned(run.task, plan.first.0, plan.first.1);
      LastAfter(job.artifacts, checked.artifacts, "gcode");
    }
  }

  /** Without recorded G-code a validation raises. */
  lemma ValidationNeedsGcode(job: Job, plan: Plan)
    requires job.state.ValidatingGcode? && !plan.cancelRequested && Last(job.artifacts, "gcode").None?
    ensures AdvanceJob(job, plan).effect.Raises?
  {
  }

  /** A G-code check job completes exactly when the service's own check bears its worker out. */
  lemma CheckCompletesExactlyWhenVindicated(job: Job, plan: Plan)
    requires job.kind.GcodeCheckJob?
    ensures (AdvanceJob(job, plan).effect.Moves? && AdvanceJob(job, plan).effect.move.state.Completed?)
            <==> && job.state.ValidatingGcode? && !plan.cancelRequested && Last(job.artifacts, "gcode").Some?
                 && Vindicated(Deciding(W.Task(W.GcodeCheck, W.NoMode), plan.first))
  {
    if job.state.ValidatingGcode? && !plan.cancelRequested && Last(job.artifacts, "gcode").Some? {
      OneRunEndsExactly(job, plan);
      VindicatedIsSuccess(RunOf(job, plan));
    }
  }

  lemma VindicatedIsSuccess(leg: Leg)
    requires leg.task == W.Task(W.GcodeCheck, W.NoMode)
    ensures Succeeds(leg) <==> Vindicated(Decisive(leg))
  {
    var d := Decisive(leg);
    assert W.RequiredRoles(leg.task, W.Succeeded) == {"gcode_static", "send_plan", "readiness"};
    if d.Answers? && W.Roles(d.outcome.artifacts) == W.RequiredRoles(leg.task, W.Succeeded) {
      assert "readiness" in W.Roles(d.outcome.artifacts);
    }
  }

  // ------------------------------------------------------ image preparation

  /** The worker runs a preparation would go through, one after another. */
  function Way(job: Job, plan: Plan): seq<Leg> {
    var provider, normalize := W.Task(W.Provider, W.NoMode), W.Task(W.ImagePrepare, W.NormalizeExisting);
    var direct := W.Task(W.ImagePrepare, W.Direct);
    match job.route
    case ImageEdit => [Leg(provider, plan.first), Leg(normalize, plan.second)]
    case DirectOnly => [Leg(direct, plan.first)]
    case Auto =>
      [Leg(W.Task(W.ImagePrepare, W.AutoRoute), plan.first)]
      + (match plan.routeDecision
         case None => []
         case Some(edits) => if edits then [Leg(provider, plan.second), Leg(normalize, plan.third)] else [Leg(direct, plan.second)])
  }

  function Yields(legs: seq<Leg>): seq<W.Ref>
    requires forall i :: 0 <= i < |legs| ==> Succeeds(legs[i])
    decreases |legs|
  {
    if legs == [] then [] else Yields(legs[..|legs| - 1]) + Yield(legs[|legs| - 1])
  }

  /** Both runs' artifacts, the second one's route decision under its own role. */
  predicate SecondRouteRenamed(first: seq<W.Ref>, second: seq<W.Ref>, recorded: seq<W.Ref>) {
    && |recorded| == |first| + |second| && recorded[..|first|] == first
    && forall i :: 0 <= i < |second| ==>
         recorded[|first| + i].digest == second[i].digest
         && recorded[|first| + i].role == if second[i].role == "route_decision" then "direct_route_decision" else second[i].role
  }

  /** The run at `k` is the first that did not succeed. */
  predicate StopsAt(way: seq<Leg>, k: nat) {
    k < |way| && !Succeeds(way[k]) && forall i :: 0 <= i < k ==> Succeeds(way[i])
  }

  /** All runs succeeded: the image goes to review with all that was made, unless the route decision is invalid. */
  lemma PreparationSucceedsToReview(job: Job, plan: Plan)
    requires job.kind.Workflow? && job.state.PreparingImage? && !plan.cancelRequested
    requires forall i :: 0 <= i < |Way(job, plan)| ==> Succeeds(Way(job, plan)[i])
    ensures var e := AdvanceJob(job, plan).effect;
            && e.Moves?
            && if job.route.Auto? && plan.routeDecision.None? then e.move.state.Failed? && e.move.artifacts == []
               else && e.move.state.Blocked? && e.move.blocker == Some(REVIEW_REQUIRED)
                    && if job.route.Auto? && !plan.routeDecision.value
                       then SecondRouteRenamed(Yield(Way(job, plan)[0]), Yield(Way(job, plan)[1]), e.move.artifacts)
                       else e.move.artifacts == Yields(Way(job, plan))
  {
    var way := Way(job, plan);
    LegDecides(way[0], Blocked, "job.image_prepared", []);
    YieldsOf(way);
    if |way| > 1 {
      LegDecides(way[1], Blocked, "job.image_prepared", []);
    }
    if |way| > 2 {
      LegDecides(way[2], Blocked, "job.image_prepared", []);
    }
  }

  lemma YieldsOf(way: seq<Leg>)
    requires forall i :: 0 <= i < |way| ==> Succeeds(way[i])
    ensures |way| == 1 ==> Yields(way) == Yield(way[0])
    ensures |way| == 2 ==> Yields(way) == Yield(way[0]) + Yield(way[1])
    ensures |way| == 3 ==> Yields(way) == Yield(way[0]) + Yield(way[1]) + Yield(way[2])
  {
    if |way| >= 1 {
      assert Yields(way[..1]) == Yields(way[..0]) + Yield(way[0]) by { assert way[..1][..0] == way[..0]; }
      assert way[..0] == [] && Yields([]) == [];
    }
    if |way| >= 2 {
      assert Yields(way[..2]) == Yields(way[..1]) + Yield(way[1]) by { assert way[..2][..1] == way[..1]; }
    }
    if |way| >= 3 {
      assert Yields(way[..3]) == Yields(way[..2]) + Yield(way[2]) by { assert way[..3][..2] == way[..2]; }
    }
    assert way[..|way|] == way;
  }

  /** The first run that did not succeed decides how the preparation ends; what was made before it is only kept when blocked. */
  lemma PreparationEndsOnFirstStop(job: Job, plan: Plan, k: nat)
    requires job.kind.Workflow? && job.state.PreparingImage? && !plan.cancelRequested && StopsAt(Way(job, plan), k)
    ensures EndsOn(AdvanceJob(job, plan).effect, Way(job, plan)[k], Yields(Way(job, plan)[..k]))
  {
    var way := Way(job, plan);
    YieldsOf(way[..k]);
    LegDecides(way[0], Blocked, "job.image_prepared", []);
    LegDecides(way[0], Blocked, "job.provider_finished", []);
    if k == 1 {
      LegDecides(way[1], Blocked, "job.image_prepared", Yields(way[..k]));
      LegDecides(way[1], Blocked, "job.provider_finished", Yields(way[..k]));
    } else if k == 2 {
      LegDecides(way[1], Blocked, "job.image_prepared", []);
      LegDecides(way[2], Blocked, "job.image_prepared", Yields(way[..k]));
    }
  }

  /** The states that need no worker lead straight on. */
  lemma QuietAdvances(job: Job, plan: Plan)
    requires !plan.cancelRequested
    ensures var e := AdvanceJob(job, plan).effect;
            && (job.state.Queued? ==>
                  if plan.imports.None? then e.Raises?
                  else && e.Moves? && e.move.artifacts == plan.imports.value && e.move.blocker.None?
                       && e.move.state == if job.kind.Workflow? then PreparingImage else ValidatingGcode)
            && (job.kind.Workflow? && job.state.ImageReady? ==> e.Moves? && e.move.state.PlanningPaths? && e.move.artifacts == [])
            && (job.kind.Workflow? && job.state.PathPlanReady? ==> e.Moves? && e.move.state.BuildingGcode? && e.move.artifacts == [])
            && (Rests(job.state) ==> e.Stays?)
  {
  }

  /** A cancellation taken up between commands cancels every job that is not finished, and keeps a ready snapshot. */
  lemma CancelWakeCancels(s: State)
    requires s.service.Idle? && s.job.Some?
    ensures var s' := Next(s, Cancel(Committed));
            && s'.service.Idle? && s'.job.Some? && Finished(s'.job.value.state)
            && (if Finished(s.job.value.state) then s' == s
                else s'.job.value.state.Cancelled? && s'.job.value.snapshot == s.job.value.snapshot
                     && s'.job.value.artifacts == s.job.value.artifacts)
  {
  }
}
