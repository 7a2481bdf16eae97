/**
 One workflow job taken from submission to ready-to-run, as a run of the job's
 life: the theorem about ready jobs is not about states nothing reaches.
 */
module JobLifeRun {
  import opened Wrappers
  import opened JobLife
  import W = WorkerExecution

  ghost predicate Reachable(s: State) {
    exists steps :: Run(INITIAL, steps) == s
  }

  lemma {:induction false} RunThenStep(s: State, steps: seq<Step>, step: Step)
    ensures Run(s, steps + [step]) == Next(Run(s, steps), step)
    decreases |steps|
  {
    if steps == [] {
      assert [step][1..] == [] && Run(Next(s, step), []) == Next(s, step);
      assert [] + [step] == [step];
    } else {
      assert (steps + [step])[1..] == steps[1..] + [step];
      RunThenStep(Next(s, steps[0]), steps[1..], step);
    }
  }

  lemma StepIsReachable(s: State, step: Step)
    requires Reachable(s)
    ensures Reachable(Next(s, step))
  {
    var steps :| Run(INITIAL, steps) == s;
    RunThenStep(INITIAL, steps, step);
  }

  // ------------------------------------------------------- honest workers

  /** The artifacts a worker delivers when it does exactly what its contract asks. */
  function Delivered(task: W.Task): seq<W.Ref> {
    match task.kind
    case ImagePrepare =>
      [W.Ref("route_decision", 0), W.Ref("processed_image_raw", 0), W.Ref("direct_report", 0), W.Ref("processed_image", 0),
       W.Ref("normalization_report", 0)]
    case PathsPlan =>
      [W.Ref("complexity_report", 0), W.Ref("path_plan", 0), W.Ref("preview_stroke_svg", 0), W.Ref("preview_final_svg", 0),
       W.Ref("planning_report", 0)]
    case GcodeBuild =>
      [W.Ref("selected_path_plan", 0), W.Ref("gcode_build_report", 0), W.Ref("gcode_preview_svg", 0),
       W.Ref("gcode_preview_report", 0), W.Ref("gcode", 0)]
    case GcodeCheck => [W.Ref("gcode_static", 0), W.Ref("send_plan", 0), W.Ref("readiness", 0)]
    case Provider => []
  }

  function Honest(task: W.Task): W.Attempt {
    W.Answers(W.Outcome(true, W.Succeeded, "", Delivered(task)), W.Inspection(true, true, true, true))
  }

  lemma DeliveredAsRequired(task: W.Task)
    requires !task.kind.Provider? && (task.kind.ImagePrepare? ==> task.mode.Direct?)
    ensures W.Roles(Delivered(task)) == W.RequiredRoles(task, W.Succeeded)
  {
    forall role | role in W.RequiredRoles(task, W.Succeeded) ensures role in W.Roles(Delivered(task)) {
      assert W.Ref(role, 0) in Delivered(task);
    }
  }

  /** An honest worker's execution succeeds with what it delivered. */
  lemma HonestSucceeds(task: W.Task)
    requires !task.kind.Provider? && (task.kind.ImagePrepare? ==> task.mode.Direct?)
    ensures W.Outcomes(task, Honest(task), Honest(task))
         == W.Done(W.Succeeded, "", Delivered(task), if task.kind.GcodeCheck? then Some(true) else None)
  {
    DeliveredAsRequired(task);
  }

  /** An advance that meets no trouble. */
  function Smooth(task: W.Task): Plan {
    var two := (Honest(task), Honest(task));
    Plan(false, Some([W.Ref("input_image", 0)]), two, two, two, None, true)
  }

  const PREPARE := W.Task(W.ImagePrepare, W.Direct)
  const PLAN := W.Task(W.PathsPlan, W.NoMode)
  const BUILD := W.Task(W.GcodeBuild, W.NoMode)
  const CHECK := W.Task(W.GcodeCheck, W.NoMode)

  // ------------------------------------------------------------- the way

  ghost predicate At(s: State, state: JobState) {
    && s.service.Driving? && s.job.Some? && s.job.value.kind.Workflow? && s.job.value.route.DirectOnly?
    && s.job.value.state == state
  }

  ghost predicate Comes(state: JobState) {
    exists s :: Reachable(s) && At(s, state)
  }

  /** A committed advance of the drive loop. */
  lemma Advances(s: State, plan: Plan)
    requires Reachable(s) && s.service.Driving? && s.job.Some? && !Rests(s.job.value.state)
    requires AdvanceJob(s.job.value, plan).effect.Moves?
    ensures var s' := Next(s, Drive(plan, Committed));
            && Reachable(s') && s'.service.Driving?
            && s'.job == Some(Apply(s.job.value, AdvanceJob(s.job.value, plan).effect.move))
  {
    StepIsReachable(s, Drive(plan, Committed));
  }

  lemma ComesToQueued()
    ensures Comes(Queued)
  {
    assert Run(INITIAL, []) == INITIAL;
    var s1 := Next(INITIAL, Boot);
    var s2 := Next(s1, Reconcile(Committed));
    StepIsReachable(INITIAL, Boot);
    StepIsReachable(s1, Reconcile(Committed));
    StepIsReachable(s2, Submit(Workflow, DirectOnly, [], Drives));
    assert At(Next(s2, Submit(Workflow, DirectOnly, [], Drives)), Queued);
  }

  lemma ComesToPreparation()
    ensures Comes(PreparingImage)
  {
    ComesToQueued();
    var s :| Reachable(s) && At(s, Queued);
    Advances(s, Smooth(PREPARE));
    assert At(Next(s, Drive(Smooth(PREPARE), Committed)), PreparingImage);
  }

  lemma PreparationIsReviewed(job: Job)
    requires job.kind.Workflow? && job.route.DirectOnly? && job.state.PreparingImage?
    ensures AdvanceJob(job, Smooth(PREPARE)).effect == ForReview(Delivered(PREPARE))
  {
    HonestSucceeds(PREPARE);
  }

  /** Prepared, reviewed and accepted. */
  lemma ComesToImageReady()
    ensures Comes(ImageReady)
  {
    ComesToPreparation();
    var s :| Reachable(s) && At(s, PreparingImage);
    PreparationIsReviewed(s.job.value);
    Advances(s, Smooth(PREPARE));
    var s1 := Next(s, Drive(Smooth(PREPARE), Committed));
    StepIsReachable(s1, Drive(Smooth(PREPARE), Committed));
    var s2 := Next(s1, Drive(Smooth(PREPARE), Committed));
    assert s2 == s1.(service := Idle);
    StepIsReachable(s2, Review(Drives));
    assert At(Next(s2, Review(Drives)), ImageReady);
  }

  lemma PlanningSucceeds(job: Job)
    requires job.kind.Workflow? && job.state.PlanningPaths?
    ensures AdvanceJob(job, Smooth(PLAN)).effect == To(PathPlanReady, "job.path_plan_ready", [] + Delivered(PLAN))
  {
    HonestSucceeds(PLAN);
  }

  lemma ComesToPlanReady()
    ensures Comes(PathPlanReady)
  {
    ComesToImageReady();
    var s :| Reachable(s) && At(s, ImageReady);
    Advances(s, Smooth(PLAN));
    var s1 := Next(s, Drive(Smooth(PLAN), Committed));
    assert At(s1, PlanningPaths);
    PlanningSucceeds(s1.job.value);
    Advances(s1, Smooth(PLAN));
    assert At(Next(s1, Drive(Smooth(PLAN), Committed)), PathPlanReady);
  }

  lemma ComesToBuilding()
    ensures Comes(BuildingGcode)
  {
    ComesToPlanReady();
    var s :| Reachable(s) && At(s, PathPlanReady);
    Advances(s, Smooth(BUILD));
    assert At(Next(s, Drive(Smooth(BUILD), Committed)), BuildingGcode);
  }

  lemma BuildingSucceeds(job: Job)
    requires job.kind.Workflow? && job.state.BuildingGcode?
    ensures AdvanceJob(job, Smooth(BUILD)).effect == To(ValidatingGcode, "job.gcode_validating", [] + Delivered(BUILD))
  {
    HonestSucceeds(BUILD);
  }

  lemma ComesToValidation()
    ensures exists s :: Reachable(s) && At(s, ValidatingGcode) && Last(s.job.value.artifacts, "gcode") == Some(W.Ref("gcode", 0))
  {
    ComesToBuilding();
    var s :| Reachable(s) && At(s, BuildingGcode);
    BuildingSucceeds(s.job.value);
    Advances(s, Smooth(BUILD));
    var s1 := Next(s, Drive(Smooth(BUILD), Committed));
    assert s1.job.value.artifacts == s.job.value.artifacts + ([] + Delivered(BUILD));
    assert s1.job.value.artifacts[|s1.job.value.artifacts| - 1] == W.Ref("gcode", 0);
    assert At(s1, ValidatingGcode);
  }

  /** From the start: a reviewed and rechecked workflow becomes ready to run. */
  lemma ReadyIsReachable()
    ensures exists s :: Reachable(s) && s.job.Some? && s.job.value.state.ReadyToRun?
  {
    ComesToValidation();
    var s :| Reachable(s) && At(s, ValidatingGcode) && Last(s.job.value.artifacts, "gcode") == Some(W.Ref("gcode", 0));
    var plan := Smooth(CHECK);
    DeliveredAsRequired(CHECK);
    assert Vindicated(Deciding(CHECK, plan.first));
    ReadyExactlyWhenVindicated(s.job.value, plan);
    StepIsReachable(s, Drive(plan, Committed));
    assert Next(s, Drive(plan, Committed)).job.value.state.ReadyToRun?;
  }

  /** From the start: a check job whose worker the service bears out is completed. */
  lemma CompletedCheckIsReachable()
    ensures exists s :: Reachable(s) && s.job.Some? && s.job.value.kind.GcodeCheckJob? && s.job.value.state.Completed?
  {
    assert Run(INITIAL, []) == INITIAL;
    var s1 := Next(INITIAL, Boot);
    var s2 := Next(s1, Reconcile(Committed));
    var s3 := Next(s2, Submit(GcodeCheckJob, DirectOnly, [W.Ref("gcode", 0)], Drives));
    StepIsReachable(INITIAL, Boot);
    StepIsReachable(s1, Reconcile(Committed));
    StepIsReachable(s2, Submit(GcodeCheckJob, DirectOnly, [W.Ref("gcode", 0)], Drives));
    ValidatesAndCompletes(s3);
  }

  lemma ValidatesAndCompletes(s: State)
    requires Reachable(s) && s.service.Driving? && s.job.Some? && s.job.value.kind.GcodeCheckJob? && s.job.value.state.Queued?
    requires s.job.value.artifacts == [W.Ref("gcode", 0)]
    ensures exists s' :: Reachable(s') && s'.job.Some? && s'.job.value.kind.GcodeCheckJob? && s'.job.value.state.Completed?
  {
    var plan := Smooth(CHECK).(imports := Some([]));
    Advances(s, plan);
    var s1 := Next(s, Drive(plan, Committed));
    assert s1.job.value.artifacts == [W.Ref("gcode", 0)];
    DeliveredAsRequired(CHECK);
    assert Vindicated(Deciding(CHECK, plan.first));
    CheckCompletesExactlyWhenVindicated(s1.job.value, plan);
    Advances(s1, plan);
  }
}
