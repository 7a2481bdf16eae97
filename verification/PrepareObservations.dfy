/**
 The prepare half of a reconcile pass: durable observations of bundles a client
 is still preparing, and the passes that end with an error.

 A prepare entry whose lock is still held after its deadline is first marked
 held-expired. The next pass asks for the same mark again, which is not an
 allowed update, so that pass raises: before it reaches the bundles of the role,
 before the other role, and before the blocked roles are brought up to date.
 */
module PrepareObservations {
  import opened Wrappers
  import opened StagingRecords

  datatype Status = Active | HeldExpired | PublishedHandoff | ClientAborted | SetAside | Unresolved

  datatype Observation = Observation(
    request: RequestId,
    identity: nat,
    firstBoot: BootId,
    deadline: nat,
    status: Status,
    revision: nat)

  /** A prepare directory as the pass finds it; `openFails` is any open or lock error but "already locked". */
  datatype Prepare = Prepare(identity: nat, locked: bool, openFails: bool)

  /**
   How the deletion of a terminal observation ends. A failure is one the code
   names itself or a bare I/O error, and it leaves the file or only a marker.
   */
  datatype Deletion = Deletes | FailsNamed(fileLeft: bool) | FailsBare(fileLeft: bool)

  datatype Sight = Sight(
    prepare: Option<Prepare>,
    dropExists: bool,
    admission: Option<Admission>,
    quarantineFails: bool,
    writeFails: bool,              // writing a marker, or re-reading and writing the observation, raises
    deletion: Deletion)

  /** What the pass makes of one observation; each outcome says which file it leaves. */
  datatype Outcome =
    | Kept(observation: Observation, blocked: bool)
    | Deleted                                // the observation reached a terminal status and its file is gone
    | DeleteFailed(left: Option<Observation>, blocked: bool) // terminal, and the failure was reported
    | Raised(left: Option<Observation>)      // the pass ends here

  predicate Terminal(status: Status) {
    status.PublishedHandoff? || status.ClientAborted? || status.SetAside?
  }

  /** The updates an observation accepts. */
  predicate Allowed(from: Status, to: Status) {
    match from
    case Active => !to.Active?
    case HeldExpired => Terminal(to) || to.Unresolved?
    case _ => false
  }

  function Update(o: Observation, status: Status): Option<Observation> {
    if Allowed(o.status, status) then Some(o.(status := status, revision := o.revision + 1)) else None
  }

  function Left(o: Observation, deletion: Deletion): Option<Observation> {
    if deletion.Deletes? || !deletion.fileLeft then None else Some(o)
  }

  /** A marker is written and the role is blocked. */
  function Mark(o: Observation, sight: Sight): Outcome {
    if sight.writeFails then Raised(Some(o)) else Kept(o, true)
  }

  /** Update to a terminal status, then delete; an error of either is not caught. */
  function Finish(o: Observation, status: Status, sight: Sight): Outcome {
    match Update(o, status)
    case None => Raised(Some(o))
    case Some(ended) =>
      if sight.writeFails then Raised(Some(o))
      else if sight.deletion.Deletes? then Deleted
      else Raised(Left(ended, sight.deletion))
  }

  /** A lock that is still held: within the deadline it only blocks, after it the hold is recorded. */
  function ObserveHeld(o: Observation, sight: Sight, now: nat, boot: BootId): Outcome {
    if o.firstBoot != boot then Mark(o, sight)
    else if now < o.deadline then Kept(o, true)
    else match Update(o, HeldExpired)
      case None => Raised(Some(o))
      case Some(held) => if sight.writeFails then Raised(Some(o)) else Kept(held, true)
  }

  /** One observation, in the order the pass checks it. */
  function Observe(o: Observation, sight: Sight, active: set<RequestId>, now: nat, boot: BootId): Outcome {
    if o.status.Unresolved? then Kept(o, true)
    else if o.request in active then Kept(o, false)
    else if Terminal(o.status) then
      match sight.deletion
      case Deletes => Deleted
      case FailsNamed(_) => DeleteFailed(Left(o, sight.deletion), true)
      case FailsBare(_) => Raised(Left(o, sight.deletion))
    else if sight.prepare.Some? && !sight.prepare.value.locked && sight.prepare.value.openFails then Mark(o, sight)
    else if sight.prepare.Some? && sight.prepare.value.identity != o.identity then Mark(o, sight)
    else if sight.prepare.Some? && sight.prepare.value.locked then ObserveHeld(o, sight, now, boot)
    else if sight.dropExists then Finish(o, PublishedHandoff, sight)
    else if sight.prepare.None? && sight.admission.None? then Finish(o, ClientAborted, sight)
    else if sight.prepare.None?
         && (sight.admission.value.state.Claimed? || sight.admission.value.state.DurablyAdmitted?
             || sight.admission.value.state.Consumed?)
    then Finish(o, PublishedHandoff, sight)
    else if sight.prepare.Some? then
      if sight.quarantineFails then Mark(o, sight) else Finish(o, SetAside, sight)
    else Kept(o, true)
  }

  /** The prepare entry is still locked by the same client after the observation expired. */
  predicate StillHeld(o: Observation, sight: Sight, now: nat, boot: BootId) {
    && sight.prepare.Some? && sight.prepare.value.locked && sight.prepare.value.identity == o.identity
    && o.firstBoot == boot && o.deadline <= now
  }

  // ------------------------------------------------- when a pass raises

  /** The pass looks further than the status: unresolved observations and active requests are passed over. */
  predicate Looked(o: Observation, active: set<RequestId>) {
    !o.status.Unresolved? && o.request !in active
  }

  /** The prepare entry is gone, or it is the observed one and nobody holds it. */
  predicate FreeOrGone(o: Observation, sight: Sight) {
    sight.prepare.Some? ==> !sight.prepare.value.locked && !sight.prepare.value.openFails && sight.prepare.value.identity == o.identity
  }

  predicate ClaimedOrLater(a: Admission) {
    a.state.Claimed? || a.state.DurablyAdmitted? || a.state.Consumed?
  }

  /** The pass settles the observation: published, set aside, aborted, or claimed by its request. */
  predicate Settles(o: Observation, sight: Sight) {
    && FreeOrGone(o, sight)
    && (|| sight.dropExists
        || (sight.prepare.Some? && !sight.quarantineFails)
        || (sight.prepare.None? && (sight.admission.None? || ClaimedOrLater(sight.admission.value))))
  }

  /** The pass writes a marker about it. */
  predicate Marks(o: Observation, sight: Sight, boot: BootId) {
    && sight.prepare.Some?
    && var prepare := sight.prepare.value;
    || (!prepare.locked && prepare.openFails)
    || prepare.identity != o.identity
    || (prepare.locked && o.firstBoot != boot)
    || (FreeOrGone(o, sight) && !sight.dropExists && sight.quarantineFails)
  }

  /**
   Exactly when an observation makes the pass raise: an expired hold that is
   already recorded, a write that fails where the pass writes, or a deletion that
   fails: any failure where the pass has just settled the observation, a bare I/O
   error where it was terminal before.
   */
  lemma RaisesExactly(o: Observation, sight: Sight, active: set<RequestId>, now: nat, boot: BootId)
    ensures Observe(o, sight, active, now, boot).Raised? <==>
              && Looked(o, active)
              && if Terminal(o.status) then sight.deletion.FailsBare?
                 else || (o.status.HeldExpired? && StillHeld(o, sight, now, boot))
                      || (sight.writeFails && (Marks(o, sight, boot) || StillHeld(o, sight, now, boot) || Settles(o, sight)))
                      || (!sight.deletion.Deletes? && Settles(o, sight))
  {
  }

  /** The status a settled observation ends with. */
  function EndStatus(sight: Sight): Status {
    if sight.dropExists || (sight.prepare.None? && sight.admission.Some?) then PublishedHandoff
    else if sight.prepare.None? then ClientAborted else SetAside
  }

  /**
   What a pass that does not raise makes of an observation: deleted exactly when
   settled or terminal before and deletable, reported exactly when its deletion
   failed by name, and otherwise kept. It is kept as it was, except that an
   expired hold is recorded once, and blocks the role unless its request is active.
   */
  lemma ObservesExactly(o: Observation, sight: Sight, active: set<RequestId>, now: nat, boot: BootId)
    requires !Observe(o, sight, active, now, boot).Raised?
    ensures var outcome := Observe(o, sight, active, now, boot); var settled := !Terminal(o.status) && Settles(o, sight);
            && (outcome.Deleted? <==> Looked(o, active) && sight.deletion.Deletes? && (Terminal(o.status) || settled))
            && (outcome.DeleteFailed? <==> Looked(o, active) && Terminal(o.status) && !sight.deletion.Deletes?)
            && (outcome.DeleteFailed? ==> outcome.blocked)
            && (outcome.Kept? ==>
                  && (outcome.blocked <==> o.status.Unresolved? || o.request !in active)
                  && outcome.observation ==
                     (if Looked(o, active) && o.status.Active? && StillHeld(o, sight, now, boot)
                      then o.(status := HeldExpired, revision := o.revision + 1) else o))
  {
    RaisesExactly(o, sight, active, now, boot);
  }

  /** Where all I/O succeeds, that is exactly a second expiry. */
  lemma RaisesExactlyOnASecondExpiry(o: Observation, sight: Sight, active: set<RequestId>, now: nat, boot: BootId)
    ensures !sight.writeFails && sight.deletion.Deletes? ==>
              (Observe(o, sight, active, now, boot).Raised?
               <==> o.status.HeldExpired? && o.request !in active && StillHeld(o, sight, now, boot))
  {
    RaisesExactly(o, sight, active, now, boot);
  }

  /** What later passes find and when. */
  datatype Look = Look(sight: Sight, active: set<RequestId>, now: nat, boot: BootId)

  /** The observation file after a pass that looked so. */
  function After(o: Observation, look: Look): Option<Observation> {
    match Observe(o, look.sight, look.active, look.now, look.boot)
    case Kept(o', _) => Some(o')
    case Deleted => None
    case DeleteFailed(left, _) => left
    case Raised(left) => left
  }

  /** A raising pass leaves the file as it was, or terminal, or gone; the last two only when a deletion failed. */
  lemma RaisedPassLeaves(o: Observation, look: Look)
    requires Observe(o, look.sight, look.active, look.now, look.boot).Raised?
    ensures || After(o, look) == Some(o)
            || (!look.sight.deletion.Deletes?
                && (After(o, look).None?
                    || (Terminal(o.status) && After(o, look).value == o)
                    || After(o, look).value == o.(status := EndStatus(look.sight), revision := o.revision + 1)))
  {
  }

  ghost predicate KeepsHolding(o: Observation, looks: seq<Look>) {
    forall i :: 0 <= i < |looks| ==> StillHeld(o, looks[i].sight, looks[i].now, looks[i].boot)
  }

  function AfterAll(o: Observation, looks: seq<Look>): Option<Observation>
    decreases |looks|
  {
    if looks == [] then Some(o)
    else match After(o, looks[0])
      case None => None
      case Some(o') => AfterAll(o', looks[1..])
  }

  /**
   A hold that outlives its deadline: the first pass records it, and from then
   on every pass that does not find the request active raises, however often.
   */
  lemma {:induction false} ExpiredHoldKeepsRaising(o: Observation, looks: seq<Look>, last: Look)
    requires o.status.Active? || o.status.HeldExpired?
    requires KeepsHolding(o, looks) && StillHeld(o, last.sight, last.now, last.boot)
    requires o.status.HeldExpired? || exists i :: 0 <= i < |looks| && o.request !in looks[i].active && !looks[i].sight.writeFails
    requires o.request !in last.active
    ensures AfterAll(o, looks).Some?
    ensures Observe(AfterAll(o, looks).value, last.sight, last.active, last.now, last.boot).Raised?
    decreases |looks|
  {
    if looks != [] {
      var look := looks[0];
      assert StillHeld(o, look.sight, look.now, look.boot);
      var o' := After(o, look).value;
      forall i | 0 <= i < |looks[1..]| ensures StillHeld(o', looks[1..][i].sight, looks[1..][i].now, looks[1..][i].boot) {
        assert StillHeld(o, looks[i + 1].sight, looks[i + 1].now, looks[i + 1].boot);
      }
      if o'.status.Active? {
        var i :| 0 <= i < |looks| && o.request !in looks[i].active && !looks[i].sight.writeFails;
        assert looks[1..][i - 1] == looks[i];
      }
      ExpiredHoldKeepsRaising(o', looks[1..], last);
    }
  }

  /** A concrete hold: two passes a second apart after the deadline, the second one raises. */
  lemma SecondExpiredPassRaises()
    ensures var o := Observation(7, 1, 5, 300, Active, 0);
            var sight := Sight(Some(Prepare(1, true, false)), false, None, false, false, Deletes);
            && Observe(o, sight, {}, 300, 5) == Kept(Observation(7, 1, 5, 300, HeldExpired, 1), true)
            && Observe(Observation(7, 1, 5, 300, HeldExpired, 1), sight, {}, 301, 5).Raised?
  {
  }

  // ------------------------------------------------------------ one role

  datatype Seen = Seen(observation: Observation, sight: Sight)

  predicate RaisesAt(seen: seq<Seen>, i: int, active: set<RequestId>, now: nat, boot: BootId)
    requires 0 <= i < |seen|
  {
    Observe(seen[i].observation, seen[i].sight, active, now, boot).Raised?
  }

  /** All observations of a role in file order; the first one that raises ends the pass there. */
  method ObserveAll(seen: seq<Seen>, active: set<RequestId>, now: nat, boot: BootId)
    returns (outcomes: seq<Outcome>, blocked: bool, raised: bool)
    ensures |outcomes| <= |seen|
    ensures forall i :: 0 <= i < |outcomes| ==>
              outcomes[i] == Observe(seen[i].observation, seen[i].sight, active, now, boot) && !outcomes[i].Raised?
    ensures raised <==> exists i :: 0 <= i < |seen| && RaisesAt(seen, i, active, now, boot)
    ensures raised ==> |outcomes| < |seen| && RaisesAt(seen, |outcomes|, active, now, boot)
    ensures !raised ==> |outcomes| == |seen|
    ensures !raised ==> (blocked <==> exists i :: 0 <= i < |outcomes| && !outcomes[i].Deleted? && outcomes[i].blocked)
  {
    outcomes, blocked, raised := [], false, false;
    while |outcomes| < |seen|
      invariant |outcomes| <= |seen| && !raised
      invariant forall i :: 0 <= i < |outcomes| ==>
                  outcomes[i] == Observe(seen[i].observation, seen[i].sight, active, now, boot) && !RaisesAt(seen, i, active, now, boot)
      invariant blocked <==> exists i :: 0 <= i < |outcomes| && !outcomes[i].Deleted? && outcomes[i].blocked
      decreases |seen| - |outcomes|
    {
      var next := seen[|outcomes|];
      var outcome := Observe(next.observation, next.sight, active, now, boot);
      if outcome.Raised? {
        raised := true;
        assert RaisesAt(seen, |outcomes|, active, now, boot);
        return;
      }
      blocked := blocked || (!outcome.Deleted? && outcome.blocked);
      ghost var before := outcomes;
      outcomes := outcomes + [outcome];
      assert forall i :: 0 <= i < |before| ==> outcomes[i] == before[i];
      assert outcomes[|before|] == outcome;
    }
  }

  // ----------------------------------------------------------- both roles

  /** How the pass over one role ended. */
  datatype RolePass = PassRaised | Finished(blocked: bool)

  const ROLES: seq<Role> := [Image, Gcode]

  class Reconciler {
    var blocked: set<Role>

    constructor ()
      ensures blocked == {}
    {
      blocked := {};
    }

    /**
     Both roles in order. A role that raises leaves itself and every later role
     as the last completed pass had them.
     */
    method Reconcile(passes: map<Role, RolePass>) returns (raised: bool)
      requires Image in passes && Gcode in passes
      modifies this
      ensures raised <==> passes[Image].PassRaised? || passes[Gcode].PassRaised?
      ensures Image in blocked <==> if passes[Image].PassRaised? then Image in old(blocked) else passes[Image].blocked
      ensures Gcode in blocked <==> if raised then Gcode in old(blocked) else passes[Gcode].blocked
    {
      raised := false;
      var i := 0;
      while i < |ROLES|
        invariant 0 <= i <= |ROLES| && !raised
        invariant forall j :: 0 <= j < i ==> passes[ROLES[j]].Finished?
        invariant forall j :: 0 <= j < i ==> (ROLES[j] in blocked <==> passes[ROLES[j]].blocked)
        invariant forall j :: i <= j < |ROLES| ==> (ROLES[j] in blocked <==> ROLES[j] in old(blocked))
      {
        var role := ROLES[i];
        match passes[role]
        case PassRaised =>
          raised := true;
          assert ROLES[0] == Image && ROLES[1] == Gcode && (i == 0 || i == 1);
          assert ROLES[1] in blocked <==> ROLES[1] in old(blocked);
          return;
        case Finished(stuck) =>
          blocked := if stuck then blocked + {role} else blocked - {role};
        i := i + 1;
      }
      assert ROLES[0] == Image && ROLES[1] == Gcode;
    }
  }
}
