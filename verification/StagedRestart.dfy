/**
 What a restart can still serve. The service is down; some client asks again for
 a request that was recorded before. Whether any run from there can answer it
 depends only on the record's state and on where its bundle lies.
 */
module StagedRestart {
  import opened Wrappers
  import opened StagingRecords
  import opened StagedAdmission
  import R = StagingReconciliation

  /** The requests a restart can still answer. */
  predicate Serves(w: World, a: Admission) {
    match a.state
    case RequestDecoded => a.bundle in w.dirs.drop
    case Claimed => a.bundle in w.dirs.admitted
    case DurablyAdmitted => true
    case Consumed => true
    case Quarantined => false
    case RecoveryRequired => false
  }

  ghost predicate Replies(w: World, request: RequestId) {
    exists reply :: reply in w.replies && reply.request == request
  }

  // -------------------------------------------------- where bundles can lie

  /** A claimed or later record's bundle is not in drop, and a recorded one in drop was dispatched. */
  ghost predicate RowPlaced(dirs: Directories, a: Admission) {
    a.bundle in dirs.drop ==>
      dirs.drop[a.bundle].state.DispatchUncertain? && (a.state.RequestDecoded? || a.state.Quarantined?)
  }

  ghost predicate RowsPlaced(dirs: Directories, rows: map<RequestId, Admission>) {
    forall r :: r in rows ==> RowPlaced(dirs, rows[r])
  }

  /** Nothing lies in both directories, and what was claimed had been dispatched. */
  ghost predicate DirsPlaced(dirs: Directories) {
    && (forall name :: name in dirs.drop ==> name !in dirs.admitted)
    && (forall name :: name in dirs.admitted ==> dirs.admitted[name].state.DispatchUncertain?)
  }

  ghost predicate HandlerPlaced(dirs: Directories, x: Handler) {
    && (x.pc.Renamed? ==> x.envelope.path !in dirs.drop)
    && (x.pc.Validated? && x.envelope.path in dirs.drop ==> dirs.drop[x.envelope.path].state.DispatchUncertain?)
  }

  ghost predicate HandlersPlaced(dirs: Directories, handlers: map<nat, Handler>) {
    forall h :: h in handlers ==> HandlerPlaced(dirs, handlers[h])
  }

  ghost predicate Placed(s: State) {
    DirsPlaced(s.world.dirs) && RowsPlaced(s.world.dirs, s.world.admissions) && HandlersPlaced(s.world.dirs, s.handlers)
  }

  /** Drop only ever loses known bundles, and a dispatched one stays dispatched. */
  ghost predicate DropShrinks(w: World, w': World) {
    forall name :: name in w.published && name in w'.dirs.drop ==>
      && name in w.dirs.drop
      && (w.dirs.drop[name].state.DispatchUncertain? ==> w'.dirs.drop[name].state.DispatchUncertain?)
  }

  lemma RowsStayPlaced(w: World, w': World, rows: map<RequestId, Admission>)
    requires RowsPlaced(w.dirs, rows) && DropShrinks(w, w') && forall r :: r in rows ==> rows[r].bundle in w.published
    ensures RowsPlaced(w'.dirs, rows)
  {
    forall r | r in rows ensures RowPlaced(w'.dirs, rows[r]) {
      assert RowPlaced(w.dirs, rows[r]);
    }
  }

  lemma HandlersStayPlaced(w: World, w': World, handlers: map<nat, Handler>)
    requires HandlersPlaced(w.dirs, handlers) && DropShrinks(w, w')
    requires forall h :: h in handlers && (handlers[h].pc.Renamed? || handlers[h].pc.Validated?) ==> handlers[h].envelope.path in w.published
    ensures HandlersPlaced(w'.dirs, handlers)
  {
    forall h | h in handlers ensures HandlerPlaced(w'.dirs, handlers[h]) {
      assert HandlerPlaced(w.dirs, handlers[h]);
    }
  }

  lemma HandlersKnown(s: State)
    requires Inv(s)
    ensures forall h :: h in s.handlers && (s.handlers[h].pc.Renamed? || s.handlers[h].pc.Validated?) ==>
              s.handlers[h].envelope.path in s.world.published
    ensures forall r :: r in s.world.admissions ==> s.world.admissions[r].bundle in s.world.published
  {
    forall r | r in s.world.admissions ensures s.world.admissions[r].bundle in s.world.published {
      assert AdmissionFits(s.world, s.world.admissions[r]);
    }
    forall h | h in s.handlers && (s.handlers[h].pc.Renamed? || s.handlers[h].pc.Validated?)
      ensures s.handlers[h].envelope.path in s.world.published
    {
      assert HandlerFits(s.world, s.handlers[h]);
    }
  }

  /** A change of the directories alone. */
  lemma DirsChangeKeepsPlaced(s: State, s': State)
    requires Inv(s) && Placed(s) && DirsPlaced(s'.world.dirs) && DropShrinks(s.world, s'.world)
    requires s'.world.admissions == s.world.admissions && s'.handlers == s.handlers
    ensures Placed(s')
  {
    HandlersKnown(s);
    RowsStayPlaced(s.world, s'.world, s.world.admissions);
    HandlersStayPlaced(s.world, s'.world, s.handlers);
  }

  // --- what each effect does to the directories

  lemma PublishPlaces(w: World, name: BundleName, lease: Lease)
    requires FilesFit(w.dirs, w.published) && DirsPlaced(w.dirs)
    ensures DirsPlaced(PublishBundle(w, name, lease).dirs) && DropShrinks(w, PublishBundle(w, name, lease))
  {
  }

  lemma TransferPlaces(w: World, name: BundleName)
    requires DirsPlaced(w.dirs)
    ensures DirsPlaced(TransferBundle(w, name).dirs) && DropShrinks(w, TransferBundle(w, name))
  {
  }

  lemma DiscardPlaces(w: World, name: BundleName)
    requires DirsPlaced(w.dirs)
    ensures DirsPlaced(DiscardBundle(w, name).dirs) && DropShrinks(w, DiscardBundle(w, name))
  {
  }

  lemma ServiceEffectsPlace(w: World, phase: R.Phase, name: BundleName)
    requires DirsPlaced(w.dirs)
    ensures DirsPlaced(RemoveBundle(w, phase, name).dirs) && DropShrinks(w, RemoveBundle(w, phase, name))
    ensures name in w.dirs.drop && w.dirs.drop[name].state.DispatchUncertain? ==>
              DirsPlaced(ClaimBundle(w, name).dirs) && DropShrinks(w, ClaimBundle(w, name))
    ensures name in (if phase.InDrop? then w.dirs.drop else w.dirs.admitted) ==>
              DirsPlaced(IsolateBundle(w, phase, name).dirs) && DropShrinks(w, IsolateBundle(w, phase, name))
  {
  }

  lemma RowUpdatePlaced(dirs: Directories, rows: map<RequestId, Admission>, row: Admission)
    requires RowsPlaced(dirs, rows) && RowPlaced(dirs, row)
    ensures RowsPlaced(dirs, rows[row.request := row])
  {
  }

  // --- what each actor does

  ghost predicate HandlerPlaces(w: World, x: Handler, w': World, pc: Pc) {
    && DirsPlaced(w'.dirs) && DropShrinks(w, w') && RowsPlaced(w'.dirs, w'.admissions)
    && HandlerPlaced(w'.dirs, x.(pc := pc))
  }

  ghost predicate HandlerReady(w: World, x: Handler) {
    && WorldFits(w) && HandlerFits(w, x) && DirsPlaced(w.dirs) && RowsPlaced(w.dirs, w.admissions) && HandlerPlaced(w.dirs, x)
  }

  lemma SameDirsPlace(w: World, x: Handler, w': World, pc: Pc)
    requires DirsPlaced(w.dirs) && w'.dirs == w.dirs && w'.published == w.published && RowsPlaced(w.dirs, w'.admissions)
    requires HandlerPlaced(w.dirs, x.(pc := pc))
    ensures HandlerPlaces(w, x, w', pc)
  {
  }

  /** Binding and the reads of a registration leave directories and rows alone. */
  lemma RegisterPlaces(w: World, x: Handler)
    requires DirsPlaced(w.dirs) && RowsPlaced(w.dirs, w.admissions) && (x.pc.Arrived? || x.pc.Bound?)
    ensures HandlerPlaces(w, x, HandlerStep(w, x).0, HandlerStep(w, x).1)
  {
    SameDirsPlace(w, x, HandlerStep(w, x).0, HandlerStep(w, x).1);
  }

  lemma InsertPlaces(w: World, x: Handler)
    requires DirsPlaced(w.dirs) && RowsPlaced(w.dirs, w.admissions) && HandlerPlaced(w.dirs, x) && x.pc.Validated?
    ensures HandlerPlaces(w, x, HandlerStep(w, x).0, HandlerStep(w, x).1)
  {
    RowUpdatePlaced(w.dirs, w.admissions, Decoded(x.envelope.path, x.pc.lease));
    SameDirsPlace(w, x, HandlerStep(w, x).0, HandlerStep(w, x).1);
  }

  lemma ClaimPlaces(w: World, x: Handler)
    requires DirsPlaced(w.dirs) && RowsPlaced(w.dirs, w.admissions) && (x.pc.Claiming? || x.pc.Clearing?)
    requires forall r :: r in w.admissions ==> w.admissions[r].bundle in w.published
    ensures HandlerPlaces(w, x, HandlerStep(w, x).0, HandlerStep(w, x).1)
  {
    var (w', pc) := HandlerStep(w, x);
    var name := if x.pc.Claiming? then x.envelope.path else x.pc.current.bundle;
    if w' == w {
      SameDirsPlace(w, x, w, pc);
    } else {
      ServiceEffectsPlace(w, R.InAdmitted, name);
      RowsStayPlaced(w, w', w.admissions);
    }
  }

  lemma RowsKnown(w: World)
    requires WorldFits(w)
    ensures forall r :: r in w.admissions ==> w.admissions[r].bundle in w.published
  {
    forall r | r in w.admissions ensures w.admissions[r].bundle in w.published {
      assert AdmissionFits(w, w.admissions[r]);
    }
  }

  lemma MarkPlaces(w: World, x: Handler)
    requires DirsPlaced(w.dirs) && RowsPlaced(w.dirs, w.admissions) && HandlerPlaced(w.dirs, x)
    requires x.pc.Renamed? || x.pc.Removed?
    requires RowFor(w, x.request, x.role, x.envelope.path)
    ensures HandlerPlaces(w, x, HandlerStep(w, x).0, HandlerStep(w, x).1)
  {
    var (w', pc) := HandlerStep(w, x);
    assert RowPlaced(w.dirs, w.admissions[x.request]);
    if !pc.Failed? {
      RowUpdatePlaced(w.dirs, w.admissions, w'.admissions[x.request]);
    }
    SameDirsPlace(w, x, w', pc);
  }

  /** The steps that only read, and the answer to a consumed request. */
  lemma ReadingPlaces(w: World, x: Handler)
    requires DirsPlaced(w.dirs) && RowsPlaced(w.dirs, w.admissions)
    requires x.pc.Registered? || x.pc.Ready? || x.pc.Waiting? || x.pc.Answered? || x.pc.Consuming? || x.pc.Replied? || x.pc.Failed?
    ensures HandlerPlaces(w, x, HandlerStep(w, x).0, HandlerStep(w, x).1)
  {
    SameDirsPlace(w, x, HandlerStep(w, x).0, HandlerStep(w, x).1);
  }

  lemma HandlerStepPlaces(w: World, x: Handler)
    requires HandlerReady(w, x)
    ensures HandlerPlaces(w, x, HandlerStep(w, x).0, HandlerStep(w, x).1)
  {
    if x.pc.Arrived? || x.pc.Bound? {
      RegisterPlaces(w, x);
    } else if x.pc.Validated? {
      InsertPlaces(w, x);
    } else if x.pc.Claiming? || x.pc.Clearing? {
      RowsKnown(w);
      ClaimPlaces(w, x);
    } else if x.pc.Renamed? || x.pc.Removed? {
      MarkPlaces(w, x);
    } else {
      ReadingPlaces(w, x);
    }
  }

  lemma HandlerMovesKeepPlaced(s: State, h: nat)
    requires Inv(s) && Placed(s) && h in s.handlers
    ensures Placed(MoveHandler(s, h))
  {
    var x, s' := s.handlers[h], MoveHandler(s, h);
    assert HandlerFits(s.world, x) && HandlerPlaced(s.world.dirs, x);
    HandlerStepPlaces(s.world, x);
    HandlersKnown(s);
    HandlersStayPlaced(s.world, s'.world, s.handlers);
  }

  lemma VisitPlaces(w: World, pass: Pass, phase: R.Phase, name: BundleName, now: nat, boot: BootId, faults: VisitFaults)
    requires DirsPlaced(w.dirs)
    ensures var w' := VisitBundle(w, pass, phase, name, now, boot, faults).0;
            DirsPlaced(w'.dirs) && DropShrinks(w, w') && w'.admissions == w.admissions
  {
    ServiceEffectsPlace(w, phase, name);
  }

  lemma SettlePlaces(w: World, pass: Pass)
    requires WorldFits(w) && PassFits(w, pass) && RowsPlaced(w.dirs, w.admissions)
    ensures var w' := SettleRow(w, pass).0; w'.dirs == w.dirs && RowsPlaced(w.dirs, w'.admissions)
  {
    if pass.pending.Some? && pass.pending.value.request in w.admissions {
      var row := w.admissions[pass.pending.value.request];
      assert AdmissionFits(w, row) && RowPlaced(w.dirs, row);
    }
  }

  lemma OwnerPlaces(w: World, owner: Owner, step: Step)
    requires WorldFits(w) && OwnerFits(w, owner) && RowsPlaced(w.dirs, w.admissions)
    ensures var w' := OwnerMove(w, owner, step).0; w'.dirs == w.dirs && RowsPlaced(w.dirs, w'.admissions)
  {
    var w' := OwnerMove(w, owner, step).0;
    if w'.admissions != w.admissions {
      assert RowPlaced(w.dirs, w.admissions[owner.command.request]);
    }
  }

  lemma RowsChangeKeepsPlaced(s: State, s': State)
    requires Placed(s) && s'.world.dirs == s.world.dirs && RowsPlaced(s.world.dirs, s'.world.admissions)
    requires forall h :: h in s'.handlers ==> HandlerPlaced(s.world.dirs, s'.handlers[h])
    ensures Placed(s')
  {
  }

  lemma ClientKeepsPlaced(s: State, step: Step)
    requires Inv(s) && Placed(s) && (step.Publish? || step.Transfer? || step.Discard?)
    ensures Placed(Next(s, step))
  {
    if step.Publish? {
      PublishPlaces(s.world, step.name, step.lease);
    } else if step.Transfer? {
      TransferPlaces(s.world, step.name);
    } else {
      DiscardPlaces(s.world, step.name);
    }
    DirsChangeKeepsPlaced(s, Next(s, step));
  }

  lemma VisitKeepsPlaced(s: State, step: Step)
    requires Inv(s) && Placed(s) && step.PassVisits?
    ensures Placed(Next(s, step))
  {
    if step.p in s.passes {
      VisitPlaces(s.world, s.passes[step.p], step.phase, step.name, step.now, step.boot, step.faults);
      DirsChangeKeepsPlaced(s, Next(s, step));
    }
  }

  lemma NextKeepsPlaced(s: State, step: Step)
    requires Inv(s) && Placed(s)
    ensures Placed(Next(s, step))
  {
    if step.Publish? || step.Transfer? || step.Discard? {
      ClientKeepsPlaced(s, step);
    } else if step.HandlerMoves? {
      if step.h in s.handlers {
        HandlerMovesKeepPlaced(s, step.h);
      }
    } else if step.PassVisits? {
      VisitKeepsPlaced(s, step);
    } else {
      OtherStepsKeepPlaced(s, step);
    }
  }

  lemma OtherStepsKeepPlaced(s: State, step: Step)
    requires Inv(s) && Placed(s)
    requires !step.Publish? && !step.Transfer? && !step.Discard? && !step.HandlerMoves? && !step.PassVisits?
    ensures Placed(Next(s, step))
  {
    if step.PassRecords? {
      if step.p in s.passes {
        SettlePlaces(s.world, s.passes[step.p]);
        RowsChangeKeepsPlaced(s, Next(s, step));
      }
    } else if step.Arrive? || step.HandlerFails? || step.PassBegins? || step.PassEnds? || step.Crash? || step.Start?
              || step.OwnerPicks? || step.Recover? {
      ControlKeepsPlaced(s, step);
    } else {
      OwnerPlaces(s.world, s.owner, step);
      RowsChangeKeepsPlaced(s, Next(s, step));
    }
  }

  lemma ControlKeepsPlaced(s: State, step: Step)
    requires Placed(s)
    requires step.Arrive? || step.HandlerFails? || step.PassBegins? || step.PassEnds? || step.Crash? || step.Start?
             || step.OwnerPicks? || step.Recover?
    ensures Placed(Next(s, step))
  {
    RowsChangeKeepsPlaced(s, Next(s, step));
  }

  lemma {:induction false} RunKeepsPlaced(s: State, steps: seq<Step>)
    requires Inv(s) && Placed(s)
    ensures Inv(Run(s, steps)) && Placed(Run(s, steps))
    decreases |steps|
  {
    if steps != [] {
      NextKeeps(s, steps[0]);
      NextKeepsPlaced(s, steps[0]);
      RunKeepsPlaced(Next(s, steps[0]), steps[1..]);
    }
  }

  // ---------------------------------------------------- never served again

  /** The record names no job, and its bundle is not where a replay would look for it. */
  ghost predicate StuckRow(w: World, request: RequestId) {
    && request in w.admissions
    && var a := w.admissions[request];
    && a.job.None? && !Serves(w, a) && a.bundle in w.published && a.bundle.request == request
  }

  predicate Early(pc: Pc) {
    pc.Arrived? || pc.Bound? || pc.Validated? || pc.Failed?
  }

  /** Nobody is past the replay check of this request. */
  ghost predicate Unattended(s: State, request: RequestId) {
    && (forall h :: h in s.handlers && s.handlers[h].request == request ==> Early(s.handlers[h].pc))
    && (forall c :: c in s.queue ==> c.request != request)
    && (s.owner.Idle? || s.owner.command.request != request)
  }

  ghost predicate Stuck(s: State, request: RequestId) {
    StuckRow(s.world, request) && Unattended(s, request)
  }

  /** Admitted gains at most the one bundle. */
  ghost predicate AdmittedGains(w: World, w': World, name: BundleName) {
    forall n :: n in w'.dirs.admitted && n != name ==> n in w.dirs.admitted
  }

  /** The row stays stuck when nothing of it changes and its bundle is not put back. */
  lemma StuckRowStays(w: World, w': World, name: BundleName, request: RequestId)
    requires StuckRow(w, request) && DropShrinks(w, w') && AdmittedGains(w, w', name) && name.request != request
    requires request in w'.admissions && w'.admissions[request] == w.admissions[request]
    requires w.admissions[request].bundle in w'.published
    ensures StuckRow(w', request)
  {
  }

  /** A handler of the request itself gets no further than the replay check. */
  lemma OwnHandlerStaysEarly(w: World, x: Handler, request: RequestId)
    requires StuckRow(w, request) && x.request == request && Early(x.pc)
    ensures var (w', pc) := HandlerStep(w, x);
            Early(pc) && w'.admissions == w.admissions && w'.dirs == w.dirs && w'.published == w.published
  {
  }

  lemma OtherHandlerLeavesStuck(w: World, x: Handler, request: RequestId)
    requires StuckRow(w, request) && x.request != request && WorldFits(w) && HandlerFits(w, x) && DirsPlaced(w.dirs)
    ensures StuckRow(HandlerStep(w, x).0, request)
  {
    var w' := HandlerStep(w, x).0;
    if x.pc.Claiming? || x.pc.Clearing? {
      assert AdmissionFits(w, w.admissions[x.request]);
      ServiceEffectsPlace(w, R.InAdmitted, w.admissions[x.request].bundle);
      StuckRowStays(w, w', w.admissions[x.request].bundle, request);
    } else {
      OtherRowsStay(w, x, request);
    }
  }

  lemma OtherRowsStay(w: World, x: Handler, request: RequestId)
    requires StuckRow(w, request) && x.request != request && !x.pc.Claiming? && !x.pc.Clearing?
    requires x.pc.Validated? ==> x.pc.lease.request == x.request || HandlerStep(w, x).0 == w
    ensures StuckRow(HandlerStep(w, x).0, request)
  {
    var w' := HandlerStep(w, x).0;
    assert w'.dirs == w.dirs && w'.published == w.published;
    assert request in w'.admissions && w'.admissions[request] == w.admissions[request];
  }

  lemma HandlerMovesKeepStuck(s: State, h: nat, request: RequestId)
    requires Inv(s) && Placed(s) && Stuck(s, request) && h in s.handlers
    ensures Stuck(MoveHandler(s, h), request)
  {
    var x := s.handlers[h];
    assert HandlerFits(s.world, x);
    if x.request == request {
      OwnHandlerStaysEarly(s.world, x, request);
    } else {
      OtherHandlerLeavesStuck(s.world, x, request);
    }
  }

  lemma VisitOnlyTakes(w: World, pass: Pass, phase: R.Phase, name: BundleName, now: nat, boot: BootId, faults: VisitFaults)
    ensures var w' := VisitBundle(w, pass, phase, name, now, boot, faults).0;
            w' == w || w' == RemoveBundle(w, phase, name)
            || (name in (if phase.InDrop? then w.dirs.drop else w.dirs.admitted) && w' == IsolateBundle(w, phase, name))
  {
  }

  lemma VisitLeavesStuck(w: World, pass: Pass, phase: R.Phase, name: BundleName, now: nat, boot: BootId, faults: VisitFaults,
                         request: RequestId)
    requires StuckRow(w, request)
    ensures StuckRow(VisitBundle(w, pass, phase, name, now, boot, faults).0, request)
  {
    VisitOnlyTakes(w, pass, phase, name, now, boot, faults);
  }

  lemma SettleLeavesStuck(w: World, pass: Pass, request: RequestId)
    requires WorldFits(w) && PassFits(w, pass) && StuckRow(w, request)
    ensures StuckRow(SettleRow(w, pass).0, request)
  {
    assert AdmissionFits(w, w.admissions[request]);
  }

  lemma OwnerLeavesStuck(w: World, owner: Owner, step: Step, request: RequestId)
    requires StuckRow(w, request) && (owner.Idle? || owner.command.request != request)
    ensures StuckRow(OwnerMove(w, owner, step).0, request)
    ensures var o := OwnerMove(w, owner, step).1; o.Idle? || o.command.request != request
  {
  }

  lemma ClientLeavesStuck(w: World, step: Step, request: RequestId)
    requires StuckRow(w, request) && (step.Publish? || step.Transfer? || step.Discard?)
    ensures StuckRow(if step.Publish? then PublishBundle(w, step.name, step.lease)
                     else if step.Transfer? then TransferBundle(w, step.name) else DiscardBundle(w, step.name), request)
  {
  }

  /** A change of the world by somebody who is not at this request. */
  lemma WorldChangeKeepsStuck(s: State, s': State, request: RequestId)
    requires Stuck(s, request) && StuckRow(s'.world, request)
    requires s'.handlers == s.handlers && s'.queue == s.queue && s'.owner == s.owner
    ensures Stuck(s', request)
  {
  }

  lemma VisitKeepsStuck(s: State, step: Step, request: RequestId)
    requires Stuck(s, request) && step.PassVisits? && step.p in s.passes
    ensures Stuck(Next(s, step), request)
  {
    VisitLeavesStuck(s.world, s.passes[step.p], step.phase, step.name, step.now, step.boot, step.faults, request);
    WorldChangeKeepsStuck(s, Next(s, step), request);
  }

  lemma RecordKeepsStuck(s: State, p: nat, request: RequestId)
    requires WorldFits(s.world) && Stuck(s, request) && p in s.passes && PassFits(s.world, s.passes[p])
    ensures Stuck(Next(s, PassRecords(p)), request)
  {
    SettleLeavesStuck(s.world, s.passes[p], request);
    WorldChangeKeepsStuck(s, Next(s, PassRecords(p)), request);
  }

  lemma ClientKeepsStuck(s: State, step: Step, request: RequestId)
    requires Stuck(s, request) && (step.Publish? || step.Transfer? || step.Discard?)
    ensures Stuck(Next(s, step), request)
  {
    ClientLeavesStuck(s.world, step, request);
    WorldChangeKeepsStuck(s, Next(s, step), request);
  }

  lemma PassKeepsStuck(s: State, step: Step, request: RequestId)
    requires Inv(s) && Stuck(s, request) && (step.PassVisits? || step.PassRecords?)
    ensures Stuck(Next(s, step), request)
  {
    if step.p in s.passes {
      if step.PassVisits? {
        VisitKeepsStuck(s, step, request);
      } else {
        RecordKeepsStuck(s, step.p, request);
      }
    }
  }

  lemma NextKeepsStuck(s: State, step: Step, request: RequestId)
    requires Inv(s) && Placed(s) && Stuck(s, request)
    ensures Stuck(Next(s, step), request)
  {
    if step.HandlerMoves? {
      if step.h in s.handlers {
        HandlerMovesKeepStuck(s, step.h, request);
      }
    } else if step.PassVisits? || step.PassRecords? {
      PassKeepsStuck(s, step, request);
    } else if step.Publish? || step.Transfer? || step.Discard? {
      ClientKeepsStuck(s, step, request);
    } else {
      RestKeepsStuck(s, step, request);
    }
  }

  lemma RestKeepsStuck(s: State, step: Step, request: RequestId)
    requires Stuck(s, request)
    requires !step.HandlerMoves? && !step.PassVisits? && !step.PassRecords? && !step.Publish? && !step.Transfer? && !step.Discard?
    ensures Stuck(Next(s, step), request)
  {
    if step.OwnerChecks? || step.OwnerImports? || step.OwnerCommits? || step.OwnerDiscards? || step.OwnerGivesUp? {
      OwnerLeavesStuck(s.world, s.owner, step, request);
    } else {
      ControlKeepsStuck(s, step, request);
    }
  }

  lemma ControlKeepsStuck(s: State, step: Step, request: RequestId)
    requires Stuck(s, request)
    requires step.Arrive? || step.HandlerFails? || step.PassBegins? || step.PassEnds? || step.Crash? || step.Start?
             || step.OwnerPicks? || step.Recover?
    ensures Stuck(Next(s, step), request)
  {
  }

  /** From a stuck request no run leads to a reply. */
  lemma {:induction false} StuckIsNeverServed(s: State, steps: seq<Step>, request: RequestId)
    requires Inv(s) && Placed(s) && Stuck(s, request)
    ensures !Replies(Run(s, steps).world, request)
    decreases |steps|
  {
    if steps == [] {
      forall reply | reply in s.world.replies ensures reply.request != request {
        assert ReplyFits(reply, s.world.bound, s.world.admissions);
      }
    } else {
      NextKeeps(s, steps[0]);
      NextKeepsPlaced(s, steps[0]);
      NextKeepsStuck(s, steps[0], request);
      StuckIsNeverServed(Next(s, steps[0]), steps[1..], request);
    }
  }

  /** When the service is down, a request that is not among those a restart serves is stuck. */
  lemma DownMeansStuck(s: State, request: RequestId)
    requires Inv(s) && !s.up && request in s.world.admissions && !Serves(s.world, s.world.admissions[request])
    ensures Stuck(s, request)
  {
    assert AdmissionFits(s.world, s.world.admissions[request]);
  }
}
