/**
 Running one worker task of the offline chain: at most two attempts, the second
 only after a crashed worker process and never for the provider, and an outcome
 that is believed only as far as its identity, its artifact set, its documents
 and the service's own G-code check bear it out.
 */
module WorkerExecution {
  import opened Wrappers

  datatype Kind = ImagePrepare | Provider | PathsPlan | GcodeBuild | GcodeCheck

  /** What an image preparation is asked for; other kinds have no mode. */
  datatype Mode = NoMode | AutoRoute | Direct | NormalizeExisting

  datatype Task = Task(kind: Kind, mode: Mode)

  datatype Status = Succeeded | Blocked | Failed | Cancelled

  datatype Ref = Ref(role: string, digest: nat)

  /** A worker's answer, untrusted: whether it names its task, its status, error code and declared artifacts. */
  datatype Outcome = Outcome(matchesTask: bool, status: Status, code: string, artifacts: seq<Ref>)

  /** What the service itself finds when it looks at the answer. */
  datatype Inspection = Inspection(
    documentsValid: bool,      // every JSON artifact satisfies its contract
    allowsStream: bool,        // the service's own check of the recorded G-code
    safetyMatches: bool,       // the worker's safety documents equal the service's own
    promotes: bool)            // the store accepts the tree

  /** One attempt: it can raise before or after its work was handed to a worker. */
  datatype Attempt = RaisesBefore | RaisesAfter | Answers(outcome: Outcome, inspection: Inspection)

  const CRASHED := "WORKER_PROCESS_CRASHED"

  function RequiredRoles(task: Task, status: Status): set<string> {
    match status
    case Succeeded =>
      (match task.kind
       case ImagePrepare =>
         if task.mode.AutoRoute? then {"route_decision"}
         else if task.mode.NormalizeExisting? then {"processed_image", "normalization_report"}
         else {"route_decision", "processed_image_raw", "direct_report", "processed_image", "normalization_report"}
       case Provider => {"provider_request", "provider_response", "provider_handoff", "processed_image_raw"}
       case PathsPlan => {"complexity_report", "path_plan", "preview_stroke_svg", "preview_final_svg", "planning_report"}
       case GcodeBuild => {"selected_path_plan", "gcode", "gcode_build_report", "gcode_preview_svg", "gcode_preview_report"}
       case GcodeCheck => {"gcode_static", "send_plan", "readiness"})
    case Blocked =>
      if task.kind.PathsPlan? then {"complexity_report"}
      else if task.kind.GcodeCheck? then {"gcode_static", "send_plan", "readiness"}
      else {}
    case _ => {}
  }

  function Roles(artifacts: seq<Ref>): set<string> {
    set a | a in artifacts :: a.role
  }

  /** What the chain goes on with; `rechecked` is the service's own verdict on the G-code, where it came to one. */
  datatype Execution =
    | Raised
    | Done(status: Status, code: string, artifacts: seq<Ref>, rechecked: Option<bool>)

  predicate Retries(task: Task, attempt: Attempt) {
    && attempt.Answers? && attempt.outcome.matchesTask && attempt.outcome.status.Failed?
    && attempt.outcome.code == CRASHED && !task.kind.Provider?
  }

  function ExpectedStatus(allowsStream: bool): Status {
    if allowsStream then Succeeded else Blocked
  }

  /** The end of the attempt that is not retried. */
  function Conclude(task: Task, attempt: Attempt): Execution {
    if !attempt.Answers? then Raised
    else
      var o, i := attempt.outcome, attempt.inspection;
      if !o.matchesTask then Done(Failed, "STALE_WORKER_OUTCOME", [], None)
      else if Roles(o.artifacts) != RequiredRoles(task, o.status) then Done(Failed, "WORKER_ARTIFACT_SET_INVALID", [], None)
      else if o.artifacts == [] then Done(o.status, o.code, [], None)
      else if !i.documentsValid then Done(Failed, "WORKER_ARTIFACT_CONTENT_INVALID", [], None)
      else if task.kind.GcodeCheck? && (!i.safetyMatches || o.status != ExpectedStatus(i.allowsStream))
      then Done(Failed, "WORKER_ARTIFACT_CONTENT_INVALID", [], Some(i.allowsStream))
      else if !i.promotes then Raised
      else Done(o.status, o.code, o.artifacts, if task.kind.GcodeCheck? then Some(i.allowsStream) else None)
  }

  function Submits(attempt: Attempt): nat {
    if attempt.RaisesBefore? then 0 else 1
  }

  /** The whole execution, over the attempts the world would offer. */
  function Outcomes(task: Task, first: Attempt, second: Attempt): Execution {
    if Retries(task, first) then Conclude(task, second) else Conclude(task, first)
  }

  function Submissions(task: Task, first: Attempt, second: Attempt): nat {
    if Retries(task, first) then 1 + Submits(second) else Submits(first)
  }

  class WorkerLog {
    var submitted: seq<Task>

    constructor ()
      ensures submitted == []
    {
      submitted := [];
    }

    /** The retry loop. */
    method Execute(task: Task, attempts: seq<Attempt>) returns (result: Execution)
      requires |attempts| == 2
      modifies this
      ensures result == Outcomes(task, attempts[0], attempts[1])
      ensures submitted == old(submitted) + seq(Submissions(task, attempts[0], attempts[1]), _ => task)
      ensures |submitted| <= |old(submitted)| + (if task.kind.Provider? then 1 else 2)
    {
      var retry := 0;
      while retry < 2
        invariant 0 <= retry <= 2
        invariant submitted == old(submitted) + seq(retry, _ => task)
        invariant retry > 0 ==> Retries(task, attempts[0])
        invariant retry < 2
      {
        var attempt := attempts[retry];
        if !attempt.RaisesBefore? {
          submitted := submitted + [task];
        }
        if !(Retries(task, attempt) && retry == 0) {
          return Conclude(task, attempt);
        }
        retry := retry + 1;
      }
      assert false;
    }
  }

  /** Never more than two submissions, one for the provider; the second only after a crash. */
  lemma SubmissionsAreBounded(task: Task, first: Attempt, second: Attempt)
    ensures Submissions(task, first, second) <= 2
    ensures task.kind.Provider? ==> Submissions(task, first, second) <= 1
    ensures Submissions(task, first, second) == 2 ==> first.Answers? && first.outcome.code == CRASHED
  {
  }

  /**
   A worker is believed to have succeeded only with exactly the artifacts of its
   contract, and a G-code check only when the service's own check of the recorded
   G-code allows streaming; a worker cannot contribute G-code through a check.
   */
  lemma SuccessIsEarned(task: Task, first: Attempt, second: Attempt)
    requires Outcomes(task, first, second).Done? && Outcomes(task, first, second).status.Succeeded?
    ensures var e := Outcomes(task, first, second);
            && Roles(e.artifacts) == RequiredRoles(task, Succeeded)
            && (task.kind.GcodeCheck? ==> e.rechecked == Some(true) && forall a :: a in e.artifacts ==> a.role != "gcode")
  {
    var e := Outcomes(task, first, second);
    assert |RequiredRoles(task, Succeeded)| > 0;
    if task.kind.GcodeCheck? {
      assert "readiness" in RequiredRoles(task, Succeeded);
      forall a | a in e.artifacts ensures a.role != "gcode" {
        assert a.role in Roles(e.artifacts);
      }
    }
  }

  // ----------------------------------------------- by the attempt that decides

  /** The attempt that decides: the second one only where the first crashed and may be retried. */
  function Deciding(task: Task, first: Attempt, second: Attempt): Attempt {
    if first.Answers? && first.outcome.matchesTask && first.outcome.status.Failed? && first.outcome.code == CRASHED
       && !task.kind.Provider?
    then second else first
  }

  /** The answer is for this task and declares exactly the artifacts its status calls for. */
  predicate WellDeclared(task: Task, attempt: Attempt) {
    attempt.Answers? && attempt.outcome.matchesTask && Roles(attempt.outcome.artifacts) == RequiredRoles(task, attempt.outcome.status)
  }

  /** What the service finds in the declared artifacts agrees with the answer. */
  predicate BorneOut(task: Task, attempt: Attempt)
    requires attempt.Answers?
  {
    && attempt.inspection.documentsValid
    && (task.kind.GcodeCheck? ==>
          && attempt.inspection.safetyMatches
          && (attempt.inspection.allowsStream <==> attempt.outcome.status.Succeeded?)
          && (!attempt.inspection.allowsStream <==> attempt.outcome.status.Blocked?))
  }

  /** The chain goes on with the worker's own answer. */
  predicate Believed(task: Task, attempt: Attempt) {
    && WellDeclared(task, attempt)
    && (attempt.outcome.artifacts == [] || (BorneOut(task, attempt) && attempt.inspection.promotes))
  }

  /** The execution ends in an error: no answer, or a tree the store refuses. */
  predicate Undone(task: Task, attempt: Attempt) {
    || !attempt.Answers?
    || (WellDeclared(task, attempt) && attempt.outcome.artifacts != [] && BorneOut(task, attempt) && !attempt.inspection.promotes)
  }

  /**
   The whole execution by its deciding attempt: an error exactly if undone, the
   worker's own status, code and artifacts exactly if believed, and otherwise a
   failure without artifacts.
   */
  lemma ExecutionByDecidingAttempt(task: Task, first: Attempt, second: Attempt)
    ensures var e := Outcomes(task, first, second); var d := Deciding(task, first, second);
            && (e.Raised? <==> Undone(task, d))
            && (Believed(task, d) ==> e.Done? && e.status == d.outcome.status && e.code == d.outcome.code && e.artifacts == d.outcome.artifacts)
            && (!Believed(task, d) && !Undone(task, d) ==> e.Done? && e.status.Failed? && e.artifacts == [])
  {
  }
}
