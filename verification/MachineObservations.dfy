/**
 The machine coordinator's publication board: what a status read shows while
 projections arrive fresh, stale, equal, conflicting or regressing.

 Two maps are kept. `projections` is written before the observation check that
 may raise, so after a conflict it can run ahead of `observations`, which is
 the only one a reader sees. `ReadsAreMonotone` is the promise to readers, over
 every sequence of publications, raising ones included.
 */
module MachineObservations {
  import opened Wrappers

  type ExecutionId = string

  /** A JSON scalar as the progress check sees it: an exact integer or anything else. */
  datatype Counter = Exact(n: int) | NotExact(text: string)

  /** The durable execution record; `rest` stands for its remaining fields. */
  datatype Execution = Execution(id: ExecutionId, revision: nat, phase: string, retired: bool, rest: string)

  type Progress = map<string, Counter>

  datatype Observation = Observation(execution: Execution, progress: Option<Progress>, outcome: Option<string>)

  const COUNTERS := ["execution_revision", "acknowledged", "ok_count", "error_count"]

  /** Why a publication raised; `Malformed` is decided before the lock is taken. */
  datatype Fault = Malformed | ProjectionConflict | ProgressRegressed | OutcomeChanged

  /** A projection as the chain hands it over. */
  datatype Projection = Invalid | NoExecution | Of(observation: Observation)

  predicate CounterAdvances(before: Progress, after: Progress, field: string) {
    && field in before && field in after
    && before[field].Exact? && after[field].Exact?
    && before[field].n <= after[field].n
  }

  predicate ProgressAdvances(before: Progress, after: Progress) {
    forall i :: 0 <= i < |COUNTERS| ==> CounterAdvances(before, after, COUNTERS[i])
  }

  /** The check of one new observation against the one readers see now. */
  function MonotoneCheck(previous: Observation, current: Observation): Option<Fault> {
    if previous.progress.Some?
       && !(current.progress.Some? && ProgressAdvances(previous.progress.value, current.progress.value))
    then Some(ProgressRegressed)
    else if previous.outcome.Some? && previous.outcome != current.outcome then Some(OutcomeChanged)
    else None
  }

  datatype Board = Board(
    projections: map<ExecutionId, Execution>,
    observations: map<ExecutionId, Observation>,
    active: Option<ExecutionId>)

  const EMPTY := Board(map[], map[], None)

  /** What a publication answers: the accepted observation, nothing, or a fault. */
  datatype Answer = Accepted(observation: Observation) | Ignored | Raised(fault: Fault)

  function AcceptObservation(b: Board, o: Observation): (Board, Option<Fault>) {
    var id := o.execution.id;
    var fault := if id in b.observations then MonotoneCheck(b.observations[id], o) else None;
    if fault.Some? then (b, fault) else (b.(observations := b.observations[id := o]), None)
  }

  predicate Finished(e: Execution) {
    e.phase == "COMPLETED" || e.retired
  }

  function Retire(b: Board, e: Execution): Board {
    if Finished(e) then
      if b.active == Some(e.id) then b.(active := None) else b
    else b.(active := Some(e.id))
  }

  /** One publication, as one region of the state lock. */
  function Publish(b: Board, p: Projection): (Board, Answer) {
    match p
    case Invalid => (b, Raised(Malformed))
    case NoExecution => (b, Ignored)
    case Of(o) =>
      var e := o.execution;
      if e.id in b.projections && e.revision < b.projections[e.id].revision then (b, Ignored)
      else if e.id in b.projections && e.revision == b.projections[e.id].revision then
        if e != b.projections[e.id] then (b, Raised(ProjectionConflict))
        else
          var (b', fault) := AcceptObservation(b, o);
          (b', if fault.Some? then Raised(fault.value) else Ignored)
      else
        var (b', fault) := AcceptObservation(b.(projections := b.projections[e.id := e]), o);
        if fault.Some? then (b', Raised(fault.value)) else (Retire(b', e), Accepted(o))
  }

  /** A status read of one named execution. */
  function Read(b: Board, id: ExecutionId): Option<Observation> {
    if id in b.observations then Some(b.observations[id]) else None
  }

  // ------------------------------------------------------------- the class

  class PublicationBoard {
    var projections: map<ExecutionId, Execution>
    var observations: map<ExecutionId, Observation>
    var active: Option<ExecutionId>

    ghost function Contents(): (b: Board)
      reads this
    {
      Board(projections, observations, active)
    }

    constructor ()
      ensures Contents() == EMPTY
    {
      projections, observations, active := map[], map[], None;
    }

    /** Whatever it answers, a publication keeps the board filed and makes no read regress. */
    method PublishProjection(p: Projection) returns (answer: Answer)
      modifies this
      ensures old(Filed(Contents())) ==> Filed(Contents())
      ensures old(Filed(Contents())) ==> forall id :: NoRegression(Read(old(Contents()), id), Read(Contents(), id))
      ensures answer.Accepted? ==> p == Of(answer.observation) && Read(Contents(), answer.observation.execution.id) == Some(answer.observation)
      ensures p.Of? ==> (answer.Accepted? <==> Newer(old(Contents()), p.observation) && TakesNothingBack(old(Contents()), p.observation))
      ensures (Contents(), answer) == Publish(old(Contents()), p)
    {
      if p.Of? {
        PublicationAnswers(Contents(), p.observation);
      }
      if Filed(Contents()) {
        forall id ensures Filed(Publish(Contents(), p).0) && NoRegression(Read(Contents(), id), Read(Publish(Contents(), p).0, id)) {
          PublishNeverRegresses(Contents(), p, id);
        }
      }
      if p.Invalid? {
        return Raised(Malformed);
      }
      if p.NoExecution? {
        return Ignored;
      }
      var observation := p.observation;
      var execution := observation.execution;
      var id := execution.id;
      if id in projections {
        if execution.revision < projections[id].revision {
          return Ignored;
        }
        if execution.revision == projections[id].revision {
          if execution != projections[id] {
            return Raised(ProjectionConflict);
          }
          var same := AcceptLocked(observation);
          return if same.Some? then Raised(same.value) else Ignored;
        }
      }
      projections := projections[id := execution];
      var fault := AcceptLocked(observation);
      if fault.Some? {
        return Raised(fault.value);
      }
      if Finished(execution) {
        if active == Some(id) {
          active := None;
        }
      } else {
        active := Some(id);
      }
      return Accepted(observation);
    }

    method AcceptLocked(o: Observation) returns (fault: Option<Fault>)
      modifies this`observations
      ensures (Contents(), fault) == AcceptObservation(old(Contents()), o)
    {
      var id := o.execution.id;
      if id in observations {
        fault := RequireMonotone(observations[id], o);
        if fault.Some? {
          return;
        }
      }
      observations := observations[id := o];
      fault := None;
    }
  }

  /** The field loop of the monotonicity check. */
  method RequireMonotone(previous: Observation, current: Observation) returns (fault: Option<Fault>)
    ensures fault == if !KeepsProgress(previous, current) then Some(ProgressRegressed)
                     else if !KeepsOutcome(previous, current) then Some(OutcomeChanged) else None
    ensures fault == MonotoneCheck(previous, current)
  {
    CheckReports(previous, current);
    if previous.progress.Some? {
      if current.progress.None? {
        return Some(ProgressRegressed);
      }
      for i := 0 to |COUNTERS|
        invariant forall k :: 0 <= k < i ==> CounterAdvances(previous.progress.value, current.progress.value, COUNTERS[k])
      {
        if !CounterAdvances(previous.progress.value, current.progress.value, COUNTERS[i]) {
          return Some(ProgressRegressed);
        }
      }
    }
    return if previous.outcome.Some? && previous.outcome != current.outcome then Some(OutcomeChanged) else None;
  }

  // --------------------------------------------------------- the promise

  /** The board after a list of publications, whatever each of them answered. */
  function After(b: Board, ps: seq<Projection>): Board
    decreases |ps|
  {
    if ps == [] then b else After(Publish(b, ps[0]).0, ps[1..])
  }

  /** What a reader sees is filed under its own name and never ahead of the projection. */
  ghost predicate Filed(b: Board) {
    forall id :: id in b.observations ==>
      && b.observations[id].execution.id == id
      && id in b.projections
      && b.observations[id].execution.revision <= b.projections[id].revision
  }

  /** The counter is an exact integer in both, and not lower in the second. */
  predicate NotLower(before: Progress, after: Progress, field: string) {
    match (Counted(before, field), Counted(after, field))
    case (Some(b), Some(a)) => b <= a
    case _ => false
  }

  function Counted(p: Progress, field: string): Option<int> {
    if field in p && p[field].Exact? then Some(p[field].n) else None
  }

  /** All four counters of a progress report. */
  predicate NoneLower(before: Progress, after: Progress) {
    && NotLower(before, after, "execution_revision") && NotLower(before, after, "acknowledged")
    && NotLower(before, after, "ok_count") && NotLower(before, after, "error_count")
  }

  predicate KeepsProgress(shown: Observation, next: Observation) {
    shown.progress.Some? ==> next.progress.Some? && NoneLower(shown.progress.value, next.progress.value)
  }

  predicate KeepsOutcome(shown: Observation, next: Observation) {
    shown.outcome.Some? ==> next.outcome == shown.outcome
  }

  /** `later` shows nothing older than `earlier` did. */
  ghost predicate NoRegression(earlier: Option<Observation>, later: Option<Observation>) {
    earlier.Some? ==>
      && later.Some?
      && earlier.value.execution.revision <= later.value.execution.revision
      && (earlier.value.progress.Some? ==>
            && later.value.progress.Some?
            && (later.value.progress == earlier.value.progress
                || NoneLower(earlier.value.progress.value, later.value.progress.value)))
      && (earlier.value.outcome.Some? ==> later.value.outcome == earlier.value.outcome)
  }

  /** The check's field list is exactly these four counters. */
  lemma FourCounters(before: Progress, after: Progress)
    ensures ProgressAdvances(before, after) <==> NoneLower(before, after)
  {
    assert COUNTERS[0] == "execution_revision" && COUNTERS[1] == "acknowledged";
    assert COUNTERS[2] == "ok_count" && COUNTERS[3] == "error_count";
    if NoneLower(before, after) {
      forall i | 0 <= i < |COUNTERS| ensures CounterAdvances(before, after, COUNTERS[i]) {
        assert i == 0 || i == 1 || i == 2 || i == 3;
      }
    }
    if ProgressAdvances(before, after) {
      assert CounterAdvances(before, after, COUNTERS[0]) && CounterAdvances(before, after, COUNTERS[1]);
      assert CounterAdvances(before, after, COUNTERS[2]) && CounterAdvances(before, after, COUNTERS[3]);
    }
  }

  /** What the check of two observations reports. */
  lemma CheckReports(shown: Observation, next: Observation)
    ensures MonotoneCheck(shown, next) == if !KeepsProgress(shown, next) then Some(ProgressRegressed)
                                          else if !KeepsOutcome(shown, next) then Some(OutcomeChanged) else None
  {
    if shown.progress.Some? && next.progress.Some? {
      FourCounters(shown.progress.value, next.progress.value);
    }
  }

  /** Accepting an observation of a projection already filed keeps both facts. */
  lemma AcceptNeverRegresses(b: Board, o: Observation, id: ExecutionId)
    requires Filed(b)
    requires o.execution.id in b.projections && b.projections[o.execution.id] == o.execution
    ensures Filed(AcceptObservation(b, o).0)
    ensures NoRegression(Read(b, id), Read(AcceptObservation(b, o).0, id))
  {
    var b' := AcceptObservation(b, o).0;
    if id in b.observations && id == o.execution.id {
      CheckReports(b.observations[id], o);
      if MonotoneCheck(b.observations[id], o).None? {
        assert Read(b', id) == Some(o);
      }
    }
  }

  /** The board with the projection of a fresh or equal publication filed. */
  function Moved(b: Board, e: Execution): Board {
    b.(projections := b.projections[e.id := e])
  }

  /** A publication leaves the board alone, or files the projection and offers the observation. */
  lemma PublishShape(b: Board, o: Observation)
    ensures var b' := Publish(b, Of(o)).0; var e := o.execution; var accepted := AcceptObservation(Moved(b, e), o).0;
            || b' == b
            || (&& (e.id in b.projections ==> b.projections[e.id].revision <= e.revision)
                && b'.projections == accepted.projections && b'.observations == accepted.observations)
  {
    var e := o.execution;
    if e.id in b.projections && b.projections[e.id] == e {
      assert Moved(b, e) == b;
    }
  }

  lemma PublishNeverRegresses(b: Board, p: Projection, id: ExecutionId)
    requires Filed(b)
    ensures Filed(Publish(b, p).0)
    ensures NoRegression(Read(b, id), Read(Publish(b, p).0, id))
  {
    if p.Of? && Publish(b, p).0 != b {
      PublishShape(b, p.observation);
      var moved := Moved(b, p.observation.execution);
      assert Read(moved, id) == Read(b, id);
      AcceptNeverRegresses(moved, p.observation, id);
    }
  }

  lemma NoneLowerComposes(a: Progress, b: Progress, c: Progress)
    requires NoneLower(a, b) && NoneLower(b, c)
    ensures NoneLower(a, c)
  {
  }

  lemma NoRegressionComposes(x: Option<Observation>, y: Option<Observation>, z: Option<Observation>)
    requires NoRegression(x, y) && NoRegression(y, z)
    ensures NoRegression(x, z)
  {
    if x.Some? && x.value.progress.Some?
       && NoneLower(x.value.progress.value, y.value.progress.value)
       && NoneLower(y.value.progress.value, z.value.progress.value) {
      NoneLowerComposes(x.value.progress.value, y.value.progress.value, z.value.progress.value);
    }
  }

  /**
   Reads of one named execution, before and after any further publications,
   never show a lower revision, a lower counter or a changed outcome.
   */
  lemma {:induction false} ReadsAreMonotone(before: seq<Projection>, between: seq<Projection>, id: ExecutionId)
    ensures NoRegression(Read(After(EMPTY, before), id), Read(After(After(EMPTY, before), between), id))
  {
    FiledAfter(EMPTY, before);
    ReadsAreMonotoneFrom(After(EMPTY, before), between, id);
  }

  lemma {:induction false} FiledAfter(b: Board, ps: seq<Projection>)
    requires Filed(b)
    ensures Filed(After(b, ps))
    decreases |ps|
  {
    if ps != [] {
      PublishNeverRegresses(b, ps[0], "");
      FiledAfter(Publish(b, ps[0]).0, ps[1..]);
    }
  }

  lemma {:induction false} ReadsAreMonotoneFrom(b: Board, ps: seq<Projection>, id: ExecutionId)
    requires Filed(b)
    ensures NoRegression(Read(b, id), Read(After(b, ps), id))
    decreases |ps|
  {
    if ps != [] {
      var b' := Publish(b, ps[0]).0;
      PublishNeverRegresses(b, ps[0], id);
      ReadsAreMonotoneFrom(b', ps[1..], id);
      NoRegressionComposes(Read(b, id), Read(b', id), Read(After(b', ps[1..]), id));
    }
  }

  // --------------------------------------------- what a publication does

  /** The execution is new, or the publication is of a later revision than the filed one. */
  predicate Newer(b: Board, o: Observation) {
    o.execution.id in b.projections ==> b.projections[o.execution.id].revision < o.execution.revision
  }

  /** The publication is of the filed record itself. */
  predicate SameRecord(b: Board, o: Observation) {
    o.execution.id in b.projections && b.projections[o.execution.id] == o.execution
  }

  /** What is shown of the execution, if anything, is not taken back. */
  predicate TakesNothingBack(b: Board, o: Observation) {
    o.execution.id in b.observations ==>
      KeepsProgress(b.observations[o.execution.id], o) && KeepsOutcome(b.observations[o.execution.id], o)
  }

  /** Exactly when a publication is accepted, repeated, stale, conflicting or regressing, and what it answers. */
  lemma PublicationAnswers(b: Board, o: Observation)
    ensures var answer := Publish(b, Of(o)).1;
            && (answer == Accepted(o) <==> Newer(b, o) && TakesNothingBack(b, o))
            && (answer.Accepted? ==> answer == Accepted(o))
            && (answer == Raised(ProjectionConflict) <==>
                  && o.execution.id in b.projections && b.projections[o.execution.id].revision == o.execution.revision
                  && b.projections[o.execution.id] != o.execution)
            && (answer == Raised(ProgressRegressed) <==>
                  && (Newer(b, o) || SameRecord(b, o)) && o.execution.id in b.observations
                  && !KeepsProgress(b.observations[o.execution.id], o))
            && (answer == Raised(OutcomeChanged) <==>
                  && (Newer(b, o) || SameRecord(b, o)) && o.execution.id in b.observations
                  && KeepsProgress(b.observations[o.execution.id], o) && !KeepsOutcome(b.observations[o.execution.id], o))
            && answer != Raised(Malformed)
  {
    if o.execution.id in b.observations {
      CheckReports(b.observations[o.execution.id], o);
    }
  }

  /**
   What readers see afterwards: the published observation exactly when the record
   is newer or the filed one and takes nothing back, and otherwise what they saw;
   a newer record is filed either way. Other executions are not touched.
   */
  lemma PublicationShows(b: Board, o: Observation, id: ExecutionId)
    ensures var b' := Publish(b, Of(o)).0;
            && Read(b', id) == (if id == o.execution.id && (Newer(b, o) || SameRecord(b, o)) && TakesNothingBack(b, o)
                                then Some(o) else Read(b, id))
            && (id in b'.projections <==> id in b.projections || id == o.execution.id)
            && (id in b'.projections ==>
                  b'.projections[id] == if id == o.execution.id && Newer(b, o) then o.execution else b.projections[id])
            && b'.active == (if !(Newer(b, o) && TakesNothingBack(b, o)) then b.active
                             else if !Finished(o.execution) then Some(o.execution.id)
                             else if b.active == Some(o.execution.id) then None else b.active)
  {
    if o.execution.id in b.observations {
      CheckReports(b.observations[o.execution.id], o);
    }
  }

  /** What is not about an execution changes nothing. */
  lemma OthersChangeNothing(b: Board)
    ensures Publish(b, Invalid) == (b, Raised(Malformed)) && Publish(b, NoExecution) == (b, Ignored)
  {
  }

  // ------------------------------------------------- the last of the highest

  /** Of all publications of the execution, the one at `k` has the highest revision, and none so high follows. */
  predicate LastHighest(ps: seq<Projection>, id: ExecutionId, k: int)
    requires 0 <= k < |ps|
  {
    && About(ps[k], id)
    && (forall j :: 0 <= j < |ps| && About(ps[j], id) ==>
          ps[j].observation.execution.revision <= ps[k].observation.execution.revision
          && (k < j ==> ps[j].observation.execution.revision < ps[k].observation.execution.revision))
  }

  predicate About(p: Projection, id: ExecutionId) {
    p.Of? && p.observation.execution.id == id
  }

  ghost predicate NothingRaised(ps: seq<Projection>) {
    forall k :: 0 <= k < |ps| ==> !Publish(After(EMPTY, ps[..k]), ps[k]).1.Raised?
  }

  /** What readers and the filed record agree on after publications of which none raised. */
  ghost predicate ShowsLastHighest(b: Board, ps: seq<Projection>, id: ExecutionId) {
    && (id in b.projections <==> id in b.observations)
    && (id in b.projections ==> b.projections[id] == b.observations[id].execution)
    && (Read(b, id).None? <==> forall k :: 0 <= k < |ps| ==> !About(ps[k], id))
    && (Read(b, id).Some? ==> exists k :: 0 <= k < |ps| && LastHighest(ps, id, k) && ps[k] == Of(Read(b, id).value))
  }

  lemma LastHighestStays(ps: seq<Projection>, p: Projection, id: ExecutionId, k: nat)
    requires k < |ps| && LastHighest(ps, id, k)
    requires About(p, id) ==> p.observation.execution.revision < ps[k].observation.execution.revision
    ensures LastHighest(ps + [p], id, k)
  {
  }

  lemma NewHighest(ps: seq<Projection>, o: Observation, id: ExecutionId)
    requires o.execution.id == id
    requires forall j :: 0 <= j < |ps| && About(ps[j], id) ==> ps[j].observation.execution.revision <= o.execution.revision
    ensures LastHighest(ps + [Of(o)], id, |ps|)
  {
  }

  lemma ShowsAfterOne(b: Board, ps: seq<Projection>, p: Projection, id: ExecutionId)
    requires ShowsLastHighest(b, ps, id) && !Publish(b, p).1.Raised?
    ensures ShowsLastHighest(Publish(b, p).0, ps + [p], id)
  {
    var b' := Publish(b, p).0;
    if p.Of? {
      PublicationAnswers(b, p.observation);
      PublicationShows(b, p.observation, id);
    } else {
      OthersChangeNothing(b);
    }
    assert forall k :: 0 <= k < |ps| ==> (ps + [p])[k] == ps[k];
    assert (ps + [p])[|ps|] == p;
    if Read(b, id).Some? {
      var k :| 0 <= k < |ps| && LastHighest(ps, id, k) && ps[k] == Of(Read(b, id).value);
      if About(p, id) && p.observation.execution.revision >= ps[k].observation.execution.revision {
        NewHighest(ps, p.observation, id);
      } else {
        LastHighestStays(ps, p, id, k);
      }
    } else if About(p, id) {
      NewHighest(ps, p.observation, id);
    }
  }

  /**
   Over every run in which no publication raised: a read shows exactly the last
   publication of the execution's highest revision, and nothing if there was none.
   */
  lemma {:induction false} ReadShowsLastHighest(ps: seq<Projection>, id: ExecutionId)
    requires NothingRaised(ps)
    ensures ShowsLastHighest(After(EMPTY, ps), ps, id)
    decreases |ps|
  {
    if ps != [] {
      var n := |ps| - 1;
      assert NothingRaised(ps[..n]) by {
        forall k | 0 <= k < n ensures !Publish(After(EMPTY, ps[..n][..k]), ps[..n][k]).1.Raised? {
          assert ps[..n][..k] == ps[..k];
        }
      }
      ReadShowsLastHighest(ps[..n], id);
      AfterLast(EMPTY, ps);
      ShowsAfterOne(After(EMPTY, ps[..n]), ps[..n], ps[n], id);
      assert ps[..n] + [ps[n]] == ps;
    }
  }

  /**
   The two maps part exactly when a newer revision brings an observation that
   regresses: the projection moves on, the read stays, and the call raises.
   */
  lemma MapsPartExactlyOnRegression(b: Board, o: Observation)
    requires Filed(b)
    requires o.execution.id in b.observations
    requires b.projections[o.execution.id] == b.observations[o.execution.id].execution
    ensures var b' := Publish(b, Of(o)).0; var id := o.execution.id;
            b'.projections[id] != b'.observations[id].execution
            <==> o.execution.revision > b.projections[id].revision && MonotoneCheck(b.observations[id], o).Some?
  {
  }

  /** Once parted, an equal publication of the newer revision can join them again. */
  lemma EqualRepublicationHeals(b: Board, o: Observation)
    requires Filed(b) && o.execution.id in b.observations
    requires b.projections[o.execution.id] == o.execution
    requires MonotoneCheck(b.observations[o.execution.id], o).None?
    ensures Read(Publish(b, Of(o)).0, o.execution.id) == Some(o)
    ensures Publish(b, Of(o)).1 == Ignored
  {
  }

  // ------------------------------------------------ the default execution

  /** A read that names no execution shows one that a named read would show too. */
  lemma {:induction false} ActiveIsReadable(b: Board, ps: seq<Projection>)
    requires b.active.Some? ==> Read(b, b.active.value).Some?
    ensures var b' := After(b, ps); b'.active.Some? ==> Read(b', b'.active.value).Some?
    decreases |ps|
  {
    if ps != [] {
      ActiveIsReadable(Publish(b, ps[0]).0, ps[1..]);
    }
  }

  /** An accepted publication makes its execution the default exactly when it is unfinished. */
  lemma AcceptedChoosesDefault(b: Board, o: Observation)
    requires Publish(b, Of(o)).1.Accepted?
    ensures Publish(b, Of(o)).0.active == Some(o.execution.id) <==> !Finished(o.execution)
    ensures Finished(o.execution) && b.active != Some(o.execution.id) ==> Publish(b, Of(o)).0.active == b.active
  {
  }

  /** A read that names no execution shows a finished one. */
  predicate FinishedDefault(b: Board) {
    b.active.Some? && Read(b, b.active.value).Some? && Finished(Read(b, b.active.value).value.execution)
  }

  /** An equal publication of the default execution that its read accepts. */
  predicate Refreshes(b: Board, p: Projection) {
    && p.Of? && b.active == Some(p.observation.execution.id)
    && var id := p.observation.execution.id;
    && id in b.projections && b.projections[id] == p.observation.execution
    && id in b.observations && MonotoneCheck(b.observations[id], p.observation).None?
  }

  /**
   Exactly when a publication leaves a finished default behind: an accepted one
   keeps another execution's, a refreshing one decides by its own execution, and
   any other one changes nothing about it.
   */
  lemma FinishedDefaultAfter(b: Board, p: Projection)
    requires Filed(b) && (b.active.Some? ==> Read(b, b.active.value).Some?)
    ensures var (b', answer) := Publish(b, p);
            FinishedDefault(b') <==>
              if answer.Accepted?
              then FinishedDefault(b) && Finished(p.observation.execution) && b.active != Some(p.observation.execution.id)
              else if Refreshes(b, p) then Finished(p.observation.execution)
              else FinishedDefault(b)
  {
  }

  /** The publication at `k` refreshed the default with a finished execution. */
  predicate FinishesAt(ps: seq<Projection>, k: int)
    requires 0 <= k < |ps|
  {
    var b := After(EMPTY, ps[..k]);
    !Publish(b, ps[k]).1.Accepted? && Refreshes(b, ps[k]) && Finished(ps[k].observation.execution)
  }

  /** The publication at `k` chose another default, cleared it, or refreshed it with an unfinished execution. */
  predicate ReplacesAt(ps: seq<Projection>, k: int)
    requires 0 <= k < |ps|
  {
    var (b, p) := (After(EMPTY, ps[..k]), ps[k]);
    if Publish(b, p).1.Accepted?
    then p.Of? && (!Finished(p.observation.execution) || b.active == Some(p.observation.execution.id))
    else Refreshes(b, p) && !Finished(p.observation.execution)
  }

  ghost predicate LeftFinished(ps: seq<Projection>) {
    exists k :: 0 <= k < |ps| && FinishesAt(ps, k) && forall j :: k < j < |ps| ==> !ReplacesAt(ps, j)
  }

  lemma FinishedDefaultLast(ps: seq<Projection>)
    requires ps != []
    ensures var n := |ps| - 1;
            FinishedDefault(After(EMPTY, ps)) <==>
              FinishesAt(ps, n) || (FinishedDefault(After(EMPTY, ps[..n])) && !ReplacesAt(ps, n))
  {
    var n := |ps| - 1;
    AfterLast(EMPTY, ps);
    FiledAfter(EMPTY, ps[..n]);
    ActiveIsReadable(EMPTY, ps[..n]);
    FinishedDefaultAfter(After(EMPTY, ps[..n]), ps[n]);
  }

  lemma SameAt(ps: seq<Projection>, n: nat, k: nat)
    requires k < n <= |ps|
    ensures FinishesAt(ps[..n], k) == FinishesAt(ps, k) && ReplacesAt(ps[..n], k) == ReplacesAt(ps, k)
  {
    assert ps[..n][..k] == ps[..k] && ps[..n][k] == ps[k];
  }

  lemma LeftFinishedLast(ps: seq<Projection>)
    requires ps != []
    ensures var n := |ps| - 1;
            LeftFinished(ps) <==> FinishesAt(ps, n) || (LeftFinished(ps[..n]) && !ReplacesAt(ps, n))
  {
    var n := |ps| - 1;
    forall k | 0 <= k < n ensures FinishesAt(ps[..n], k) == FinishesAt(ps, k) && ReplacesAt(ps[..n], k) == ReplacesAt(ps, k) {
      SameAt(ps, n, k);
    }
  }

  /** Over every run: the default is finished exactly when some publication left it so and none since replaced it. */
  lemma {:induction false} FinishedDefaultExactly(ps: seq<Projection>)
    ensures FinishedDefault(After(EMPTY, ps)) <==> LeftFinished(ps)
    decreases |ps|
  {
    if ps != [] {
      FinishedDefaultExactly(ps[..|ps| - 1]);
      FinishedDefaultLast(ps);
      LeftFinishedLast(ps);
    }
  }

  /** The projection of an execution is finished while its read is not. */
  predicate OutOfStep(b: Board, id: ExecutionId) {
    && id in b.projections && id in b.observations
    && Finished(b.projections[id]) && !Finished(b.observations[id].execution)
  }

  /** A default becomes finished only by refreshing one whose two records are out of step. */
  lemma FinishedDefaultWasOutOfStep(b: Board, p: Projection)
    requires Filed(b) && (b.active.Some? ==> Read(b, b.active.value).Some?)
    requires !FinishedDefault(b) && FinishedDefault(Publish(b, p).0)
    ensures Refreshes(b, p) && OutOfStep(b, b.active.value)
  {
    FinishedDefaultAfter(b, p);
  }

  /** A publication of a finished execution that raised on its observation. */
  predicate RaisedCompletion(b: Board, p: Projection) {
    && p.Of? && Finished(p.observation.execution)
    && (Publish(b, p).1 == Raised(ProgressRegressed) || Publish(b, p).1 == Raised(OutcomeChanged))
  }

  lemma OutOfStepWasRaised(b: Board, p: Projection, id: ExecutionId)
    requires Filed(b) && !OutOfStep(b, id) && OutOfStep(Publish(b, p).0, id)
    ensures RaisedCompletion(b, p)
  {
  }

  ghost predicate SomeCompletionRaised(ps: seq<Projection>) {
    exists k :: 0 <= k < |ps| && RaisedCompletion(After(EMPTY, ps[..k]), ps[k])
  }

  lemma {:induction false} AfterLast(b: Board, ps: seq<Projection>)
    requires ps != []
    ensures After(b, ps) == Publish(After(b, ps[..|ps| - 1]), ps[|ps| - 1]).0
    decreases |ps|
  {
    if |ps| == 1 {
      assert ps[1..] == [] && ps[..0] == [];
    } else {
      var rest := ps[1..];
      AfterLast(Publish(b, ps[0]).0, rest);
      assert ps[..|ps| - 1][1..] == rest[..|rest| - 1];
    }
  }

  /** Over every run: no default is finished, and no execution out of step, unless a completion raised. */
  lemma {:induction false} FinishedDefaultNeedsARaise(ps: seq<Projection>)
    ensures FinishedDefault(After(EMPTY, ps)) ==> SomeCompletionRaised(ps)
    ensures forall id :: OutOfStep(After(EMPTY, ps), id) ==> SomeCompletionRaised(ps)
    decreases |ps|
  {
    if ps != [] {
      var before, p := ps[..|ps| - 1], ps[|ps| - 1];
      var b := After(EMPTY, before);
      FinishedDefaultNeedsARaise(before);
      if SomeCompletionRaised(before) {
        var k :| 0 <= k < |before| && RaisedCompletion(After(EMPTY, before[..k]), before[k]);
        assert before[..k] == ps[..k] && before[k] == ps[k];
      }
      AfterLast(EMPTY, ps);
      FiledAfter(EMPTY, before);
      ActiveIsReadable(EMPTY, before);
      forall id | OutOfStep(After(EMPTY, ps), id) ensures SomeCompletionRaised(ps) {
        if !OutOfStep(b, id) {
          OutOfStepWasRaised(b, p, id);
        }
      }
      if FinishedDefault(After(EMPTY, ps)) && !FinishedDefault(b) {
        FinishedDefaultWasOutOfStep(b, p);
      }
    }
  }

  /**
   The default can outlive its execution: a completion whose observation
   regressed raises before the default is cleared, and the equal publication
   that repairs the read does not clear it either.
   */
  lemma CompletedCanStayDefault()
    ensures exists ps: seq<Projection> ::
              FinishedDefault(After(EMPTY, ps))
  {
    var running := Observation(Execution("x", 0, "STREAMING", false, ""), None, Some("a"));
    var done := Execution("x", 1, "COMPLETED", false, "");
    var changed := Of(Observation(done, None, Some("b")));
    var repaired := Of(Observation(done, None, Some("a")));
    var ps := [Of(running), changed, repaired];
    var b1 := Publish(EMPTY, ps[0]).0;
    var b2 := Publish(b1, ps[1]).0;
    var b3 := Publish(b2, ps[2]).0;
    assert ps[1..] == [changed, repaired] && ps[1..][1..] == [repaired] && ps[1..][1..][1..] == [];
    assert After(b2, [repaired]) == b3;
    assert After(b1, [changed, repaired]) == b3;
    assert After(EMPTY, ps) == b3;
    assert b3.active == Some("x") && Read(b3, "x") == Some(Observation(done, None, Some("a")));
  }
}
