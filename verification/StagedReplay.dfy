/**
 The runs that serve a request again after a restart, and the theorem that
 there are exactly the ones the record and its bundle allow.
 */
module StagedReplay {
  import opened Wrappers
  import opened StagingRecords
  import opened StagedAdmission
  import opened StagedRestart
  import R = StagingReconciliation
  import Orders = StagedAdmissionRun

  // ----------------------------------------------------------- one client

  /** A client that asks with the envelope its request was bound to. */
  datatype Client = Client(request: RequestId, role: Role, envelope: Envelope)

  function Asking(c: Client, pc: Pc): Handler {
    Handler(c.request, c.role, c.envelope, pc)
  }

  /** The service is up with this one handler. */
  function One(passes: map<nat, Pass>, c: Client, w: World, pc: Pc, queue: set<Command>, owner: Owner): State {
    State(w, true, map[0 := Asking(c, pc)], queue, owner, passes)
  }

  ghost predicate Leads(s: State, s': State) {
    exists steps :: Run(s, steps) == s'
  }

  ghost predicate CanServe(s: State, request: RequestId) {
    exists steps :: Replies(Run(s, steps).world, request)
  }

  lemma LeadsOn(s: State, s1: State, step: Step)
    requires Leads(s, s1)
    ensures Leads(s, Next(s1, step))
  {
    var steps :| Run(s, steps) == s1;
    Orders.RunInParts(s, steps, [step]);
    Orders.RunOne(s1, step);
  }

  lemma LeadsInv(s: State, s1: State)
    requires Inv(s) && Placed(s) && Leads(s, s1)
    ensures Inv(s1) && Placed(s1)
  {
    var steps :| Run(s, steps) == s1;
    RunKeepsPlaced(s, steps);
  }

  lemma LeadsServes(s: State, s1: State, reply: Reply)
    requires Leads(s, s1) && reply in s1.world.replies
    ensures CanServe(s, reply.request)
  {
    var steps :| Run(s, steps) == s1;
    assert Replies(Run(s, steps).world, reply.request);
  }

  /** One step of the handler. */
  lemma Moves(s: State, passes: map<nat, Pass>, c: Client, w: World, pc: Pc, queue: set<Command>, owner: Owner)
    requires Leads(s, One(passes, c, w, pc, queue, owner)) && !pc.Ready?
    ensures var (w', pc') := HandlerStep(w, Asking(c, pc)); Leads(s, One(passes, c, w', pc', queue, owner))
  {
    var s1 := One(passes, c, w, pc, queue, owner);
    LeadsOn(s, s1, HandlerMoves(0));
    var (w', pc') := HandlerStep(w, Asking(c, pc));
    assert Next(s1, HandlerMoves(0)) == One(passes, c, w', pc', queue, owner);
  }

  lemma Submits(s: State, passes: map<nat, Pass>, c: Client, w: World)
    requires Leads(s, One(passes, c, w, Ready, {}, Idle))
    ensures Leads(s, One(passes, c, w, Waiting, {Command(c.request, c.role, c.envelope)}, Idle))
  {
    var s1 := One(passes, c, w, Ready, {}, Idle);
    LeadsOn(s, s1, HandlerMoves(0));
    assert Next(s1, HandlerMoves(0)) == One(passes, c, w, Waiting, {Command(c.request, c.role, c.envelope)}, Idle);
  }

  lemma OwnerMoves(s: State, passes: map<nat, Pass>, c: Client, w: World, queue: set<Command>, owner: Owner, step: Step)
    requires Leads(s, One(passes, c, w, Waiting, queue, owner))
    requires step.OwnerChecks? || step.OwnerImports? || step.OwnerCommits?
    ensures var (w', owner') := OwnerMove(w, owner, step); Leads(s, One(passes, c, w', Waiting, queue, owner'))
  {
    LeadsOn(s, One(passes, c, w, Waiting, queue, owner), step);
  }

  // -------------------------------------------------- what the checks find

  /** The row of the client's request, bound to the client's envelope. */
  ghost predicate RowOf(w: World, c: Client, a: Admission) {
    && c.request in w.admissions && w.admissions[c.request] == a && a.request == c.request && a.role == c.role
    && Holds(w, c.request, c.role, c.envelope) && c.envelope.path == a.bundle
  }

  lemma AuthorityHolds(w: World, a: Admission, lease: Lease)
    requires Describes(a, w.published, w.bound) && SameLease(lease, w.published[a.bundle]) && Binds(a.bundle, w.published[a.bundle])
    requires lease.state.DispatchUncertain?
    ensures SameAuthority(a, lease)
  {
  }

  /** What the checks of a replay will find, where the world's invariant holds. */
  ghost predicate Facts(w: World, c: Client, a: Admission) {
    && RowOf(w, c, a)
    && (a.bundle in w.dirs.drop ==>
          SameAuthority(a, w.dirs.drop[a.bundle]) && a.bundle !in w.dirs.admitted && R.Early(a.state))
    && (a.bundle in w.dirs.admitted ==> SameAuthority(a, w.dirs.admitted[a.bundle]))
    && (a.job.None? ==> JobId(c.request, c.role) !in w.jobs)
    && (a.state.DurablyAdmitted? || a.state.Consumed? ==> ReplayMatches(w, a, c.role, c.envelope))
    && StoreFits(w.store, w.admissions) && (a.state.Claimed? ==> a.job.None?)
  }

  lemma BundleHolds(w: World, a: Admission)
    requires FilesFit(w.dirs, w.published) && Describes(a, w.published, w.bound) && DirsPlaced(w.dirs) && RowPlaced(w.dirs, a)
    ensures a.bundle in w.dirs.drop ==> SameAuthority(a, w.dirs.drop[a.bundle])
    ensures a.bundle in w.dirs.admitted ==> SameAuthority(a, w.dirs.admitted[a.bundle])
  {
    if a.bundle in w.dirs.drop {
      AuthorityHolds(w, a, w.dirs.drop[a.bundle]);
    }
    if a.bundle in w.dirs.admitted {
      AuthorityHolds(w, a, w.dirs.admitted[a.bundle]);
    }
  }

  lemma FactsHold(s: State, c: Client, a: Admission)
    requires Inv(s) && Placed(s) && RowOf(s.world, c, a) && !a.state.Quarantined?
    ensures Facts(s.world, c, a)
  {
    assert AdmissionFits(s.world, a) && RowPlaced(s.world.dirs, a);
    BundleHolds(s.world, a);
  }

  /** The same further along a run. */
  lemma FactsAt(s: State, s1: State, c: Client, a: Admission)
    requires Inv(s) && Placed(s) && Leads(s, s1) && RowOf(s1.world, c, a) && !a.state.Quarantined?
    ensures Facts(s1.world, c, a)
  {
    LeadsInv(s, s1);
    FactsHold(s1, c, a);
  }

  lemma ReplayIsAllowed(w: World, c: Client, a: Admission)
    requires Facts(w, c, a) && Serves(w, a)
    ensures ReplayAllowed(w, a, c.role, c.envelope.path)
  {
  }

  // --------------------------------------------------------- stage by stage

  /** What consume does to a durable admission. */
  lemma ConsumeSteps(w: World, c: Client, a: Admission, job: JobId)
    requires Facts(w, c, a) && a.state.DurablyAdmitted?
    ensures HandlerStep(w, Asking(c, Consuming(a, job))) == (w, Clearing(a, a, job))
    ensures var (w1, pc) := HandlerStep(w, Asking(c, Clearing(a, a, job))); pc == Removed(a, job) && w1.admissions == w.admissions
  {
  }

  lemma ConsumedAnswers(w: World, c: Client, a: Admission, job: JobId)
    requires c.request in w.admissions && w.admissions[c.request] == a && a.request == c.request && a.state.DurablyAdmitted?
    ensures var (w', pc) := HandlerStep(w, Asking(c, Removed(a, job)));
            pc.Replied? && Reply(c.request, c.role, c.envelope, job) in w'.replies
  {
  }

  /** From a durable admission: the bundle goes, the row is consumed and the client is answered. */
  lemma ConsumeServes(s: State, passes: map<nat, Pass>, c: Client, w: World, a: Admission, job: JobId, queue: set<Command>)
    requires Leads(s, One(passes, c, w, Consuming(a, job), queue, Idle)) && Facts(w, c, a) && a.state.DurablyAdmitted?
    ensures CanServe(s, c.request)
  {
    ConsumeSteps(w, c, a, job);
    Moves(s, passes, c, w, Consuming(a, job), queue, Idle);
    Moves(s, passes, c, w, Clearing(a, a, job), queue, Idle);
    var w1 := HandlerStep(w, Asking(c, Clearing(a, a, job))).0;
    Moves(s, passes, c, w1, Removed(a, job), queue, Idle);
    ConsumedAnswers(w1, c, a, job);
    var w2 := HandlerStep(w1, Asking(c, Removed(a, job))).0;
    LeadsServes(s, One(passes, c, w2, Replied, queue, Idle), Reply(c.request, c.role, c.envelope, job));
  }

  /** What the owner does with a claimed admission. */
  lemma OwnerWay(w: World, c: Client, a: Admission)
    requires Facts(w, c, a) && a.state.Claimed? && a.bundle in w.dirs.admitted
    ensures var command := Command(c.request, c.role, c.envelope);
            && OwnerMove(w, Picked(command), OwnerChecks) == (w, Checked(command, a))
            && var (w1, owner) := OwnerMove(w, Checked(command, a), OwnerImports(Orders.NO_FAULTS));
            && w1 == w.(store := w1.store) && owner.Imported? && owner.command == command && owner.record == a
            && CommitPossible(w1, command, a)
  {
  }

  lemma CommitWay(w: World, c: Client, a: Admission, owner: Owner)
    requires RowOf(w, c, a) && owner.Imported? && owner.command == Command(c.request, c.role, c.envelope) && owner.record == a
    requires CommitPossible(w, owner.command, a)
    ensures var (w', owner') := OwnerMove(w, owner, OwnerCommits(true));
            && owner'.Idle? && c.request in w'.admissions
            && RowOf(w', c, w'.admissions[c.request]) && w'.admissions[c.request].state.DurablyAdmitted?
  {
  }

  /** The owner takes the command through its commit. */
  lemma OwnerCommitsIt(s: State, passes: map<nat, Pass>, c: Client, w: World, a: Admission)
    requires Leads(s, One(passes, c, w, Ready, {}, Idle)) && Facts(w, c, a) && a.state.Claimed? && a.bundle in w.dirs.admitted
    ensures exists w', a' :: Leads(s, One(passes, c, w', Waiting, {Command(c.request, c.role, c.envelope)}, Idle))
                             && RowOf(w', c, a') && a'.state.DurablyAdmitted?
  {
    var command := Command(c.request, c.role, c.envelope);
    OwnerWay(w, c, a);
    var (w1, owner) := OwnerMove(w, Checked(command, a), OwnerImports(Orders.NO_FAULTS));
    CommitWay(w1, c, a, owner);
    Submits(s, passes, c, w);
    Picks(s, passes, c, w, command);
    OwnerMoves(s, passes, c, w, {command}, Picked(command), OwnerChecks);
    OwnerMoves(s, passes, c, w, {command}, Checked(command, a), OwnerImports(Orders.NO_FAULTS));
    OwnerMoves(s, passes, c, w1, {command}, owner, OwnerCommits(true));
  }

  lemma Picks(s: State, passes: map<nat, Pass>, c: Client, w: World, command: Command)
    requires Leads(s, One(passes, c, w, Waiting, {command}, Idle))
    ensures Leads(s, One(passes, c, w, Waiting, {command}, Picked(command)))
  {
    LeadsOn(s, One(passes, c, w, Waiting, {command}, Idle), OwnerPicks(command));
  }

  lemma AnsweredSteps(w: World, c: Client, a: Admission)
    requires RowOf(w, c, a) && a.state.DurablyAdmitted?
    ensures HandlerStep(w, Asking(c, Waiting)) == (w, Answered)
    ensures HandlerStep(w, Asking(c, Answered)) == (w, Consuming(a, JobId(c.request, c.role)))
  {
  }

  lemma ReadyServes(s: State, passes: map<nat, Pass>, c: Client, w: World, a: Admission)
    requires Inv(s) && Placed(s) && Leads(s, One(passes, c, w, Ready, {}, Idle))
    requires RowOf(w, c, a) && a.state.Claimed? && a.bundle in w.dirs.admitted
    ensures CanServe(s, c.request)
  {
    FactsAt(s, One(passes, c, w, Ready, {}, Idle), c, a);
    OwnerCommitsIt(s, passes, c, w, a);
    var queue := {Command(c.request, c.role, c.envelope)};
    var w', a' :| Leads(s, One(passes, c, w', Waiting, queue, Idle)) && RowOf(w', c, a') && a'.state.DurablyAdmitted?;
    FactsAt(s, One(passes, c, w', Waiting, queue, Idle), c, a');
    WaitingServes(s, passes, c, w', a', queue);
  }

  lemma WaitingServes(s: State, passes: map<nat, Pass>, c: Client, w: World, a: Admission, queue: set<Command>)
    requires Leads(s, One(passes, c, w, Waiting, queue, Idle)) && Facts(w, c, a) && a.state.DurablyAdmitted?
    ensures CanServe(s, c.request)
  {
    AnsweredSteps(w, c, a);
    Moves(s, passes, c, w, Waiting, queue, Idle);
    Moves(s, passes, c, w, Answered, queue, Idle);
    ConsumeServes(s, passes, c, w, a, JobId(c.request, c.role), queue);
  }

  /** What a claim does to a decoded request whose bundle is in drop. */
  lemma ClaimSteps(w: World, c: Client, a: Admission)
    requires Facts(w, c, a) && a.state.RequestDecoded? && a.bundle in w.dirs.drop
    ensures HandlerStep(w, Asking(c, Registered(a))) == (w, Claiming(a))
    ensures HandlerStep(w, Asking(c, Claiming(a))) == (ClaimBundle(w, a.bundle), Renamed(a))
    ensures var claimed := a.(state := Claimed, revision := a.revision + 1);
            var (w', pc) := HandlerStep(ClaimBundle(w, a.bundle), Asking(c, Renamed(a)));
            pc.Ready? && RowOf(w', c, claimed) && claimed.bundle in w'.dirs.admitted
  {
  }

  lemma DecodedServes(s: State, passes: map<nat, Pass>, c: Client, w: World, a: Admission)
    requires Inv(s) && Placed(s) && Leads(s, One(passes, c, w, Registered(a), {}, Idle))
    requires Facts(w, c, a) && a.state.RequestDecoded? && a.bundle in w.dirs.drop
    ensures CanServe(s, c.request)
  {
    ClaimSteps(w, c, a);
    ClaimLeads(s, passes, c, w, a);
    var w' := HandlerStep(ClaimBundle(w, a.bundle), Asking(c, Renamed(a))).0;
    ReadyServes(s, passes, c, w', a.(state := Claimed, revision := a.revision + 1));
  }

  lemma ClaimLeads(s: State, passes: map<nat, Pass>, c: Client, w: World, a: Admission)
    requires Leads(s, One(passes, c, w, Registered(a), {}, Idle))
    requires Facts(w, c, a) && a.state.RequestDecoded? && a.bundle in w.dirs.drop
    ensures Leads(s, One(passes, c, HandlerStep(ClaimBundle(w, a.bundle), Asking(c, Renamed(a))).0, Ready, {}, Idle))
  {
    ClaimSteps(w, c, a);
    Moves(s, passes, c, w, Registered(a), {}, Idle);
    Moves(s, passes, c, w, Claiming(a), {}, Idle);
    Moves(s, passes, c, ClaimBundle(w, a.bundle), Renamed(a), {}, Idle);
  }

  lemma ReplaySteps(w: World, c: Client, a: Admission)
    requires Facts(w, c, a) && (a.state.DurablyAdmitted? || a.state.Consumed?)
    ensures a.job.Some?
    ensures HandlerStep(w, Asking(c, Registered(a))) ==
            if a.state.DurablyAdmitted? then (w, Consuming(a, a.job.value))
            else (Answer(w, Reply(c.request, c.role, c.envelope, a.job.value)), Replied)
  {
  }

  /** A durable or consumed request is answered from its job. */
  lemma DurableServes(s: State, passes: map<nat, Pass>, c: Client, w: World, a: Admission)
    requires Leads(s, One(passes, c, w, Registered(a), {}, Idle))
    requires Facts(w, c, a) && (a.state.DurablyAdmitted? || a.state.Consumed?)
    ensures CanServe(s, c.request)
  {
    ReplaySteps(w, c, a);
    Moves(s, passes, c, w, Registered(a), {}, Idle);
    if a.state.DurablyAdmitted? {
      ConsumeServes(s, passes, c, w, a, a.job.value, {});
    } else {
      var reply := Reply(c.request, c.role, c.envelope, a.job.value);
      LeadsServes(s, One(passes, c, Answer(w, reply), Replied, {}, Idle), reply);
    }
  }

  /** The client asks the restarted service. */
  lemma Asks(s: State, c: Client)
    requires !s.up && s.handlers == map[] && s.queue == {} && s.owner.Idle?
    ensures Leads(s, One(s.passes, c, s.world, Arrived, {}, Idle))
  {
    assert Run(s, []) == s;
    LeadsOn(s, s, Start);
    LeadsOn(s, Next(s, Start), Arrive(0, c.request, c.role, c.envelope));
    assert Next(Next(s, Start), Arrive(0, c.request, c.role, c.envelope)) == One(s.passes, c, s.world, Arrived, {}, Idle);
  }

  lemma RegisterSteps(w: World, c: Client, a: Admission)
    requires Facts(w, c, a) && Serves(w, a)
    ensures HandlerStep(w, Asking(c, Arrived)) == (w, Bound)
    ensures HandlerStep(w, Asking(c, Bound)) == (w, Registered(a))
    ensures a.state.Claimed? ==> HandlerStep(w, Asking(c, Registered(a))) == (w, Ready)
  {
    ReplayIsAllowed(w, c, a);
  }

  /** Its replay is let through. */
  lemma ReplayRegisters(s: State, c: Client, a: Admission)
    requires !s.up && s.handlers == map[] && s.queue == {} && s.owner.Idle? && Facts(s.world, c, a) && Serves(s.world, a)
    ensures Leads(s, One(s.passes, c, s.world, Registered(a), {}, Idle))
  {
    Asks(s, c);
    RegisterSteps(s.world, c, a);
    Moves(s, s.passes, c, s.world, Arrived, {}, Idle);
    Moves(s, s.passes, c, s.world, Bound, {}, Idle);
  }

  lemma FactsServe(s: State, c: Client, a: Admission)
    requires Inv(s) && Placed(s) && !s.up && Facts(s.world, c, a) && Serves(s.world, a)
    ensures CanServe(s, c.request)
  {
    ReplayRegisters(s, c, a);
    if a.state.RequestDecoded? {
      DecodedServes(s, s.passes, c, s.world, a);
    } else if a.state.Claimed? {
      RegisterSteps(s.world, c, a);
      Moves(s, s.passes, c, s.world, Registered(a), {}, Idle);
      ReadyServes(s, s.passes, c, s.world, a);
    } else {
      DurableServes(s, s.passes, c, s.world, a);
    }
  }

  lemma RestartServes(s: State, request: RequestId)
    requires Inv(s) && Placed(s) && !s.up && request in s.world.admissions && Serves(s.world, s.world.admissions[request])
    ensures CanServe(s, request)
  {
    var w, a := s.world, s.world.admissions[request];
    assert AdmissionFits(w, a);
    var c := Client(request, a.role, w.bound[Ticket(request, a.role)]);
    FactsHold(s, c, a);
    FactsServe(s, c, a);
  }

  // -------------------------------------------------------------- theorems

  lemma InitialIsPlaced()
    ensures Inv(INITIAL) && Placed(INITIAL)
  {
  }

  /**
   Whatever happened before, when the service is down a recorded request can
   still be answered by some run exactly when it is decoded with its bundle in
   drop, claimed with its bundle in admitted, or already bound to a job.
   */
  lemma RestartServesExactly(before: seq<Step>, request: RequestId)
    requires var s := Run(INITIAL, before); !s.up && request in s.world.admissions
    ensures var s := Run(INITIAL, before); CanServe(s, request) <==> Serves(s.world, s.world.admissions[request])
  {
    var s := Run(INITIAL, before);
    InitialIsPlaced();
    RunKeepsPlaced(INITIAL, before);
    if Serves(s.world, s.world.admissions[request]) {
      RestartServes(s, request);
    } else {
      DownMeansStuck(s, request);
      forall steps ensures !Replies(Run(s, steps).world, request) {
        StuckIsNeverServed(s, steps, request);
      }
    }
  }

  /** The claim's rename done, its row not yet written, and the service dies. */
  function DiedClaiming(o: Orders.Order): State {
    State(o.DecodedWorld().(dirs := Directories(map[], map[o.name := o.Sent()], map[])), false, map[], {}, Idle, map[])
  }

  lemma LeadsTo(s: State, s1: State, step: Step, s2: State)
    requires Leads(s, s1) && Next(s1, step) == s2
    ensures Leads(s, s2)
  {
    LeadsOn(s, s1, step);
  }

  lemma DiesRenamed(o: Orders.Order)
    ensures Next(o.At(DiedClaiming(o).world, Renamed(o.Row(RequestDecoded, 0)), {}), Crash) == DiedClaiming(o)
  {
  }

  lemma RenamedIsReachable(o: Orders.Order)
    requires o.Valid()
    ensures Leads(INITIAL, o.At(DiedClaiming(o).world, Renamed(o.Row(RequestDecoded, 0)), {}))
  {
    var row := o.Row(RequestDecoded, 0);
    var decoded, claiming := o.At(o.DecodedWorld(), Registered(row), {}), o.At(o.DecodedWorld(), Claiming(row), {});
    Orders.DecodedIsReachable(o);
    Orders.RowIsRead(o);
    LeadsTo(INITIAL, decoded, Orders.MOVE, claiming);
    Orders.BundleIsRenamed(o);
    LeadsTo(INITIAL, claiming, Orders.MOVE, o.At(DiedClaiming(o).world, Renamed(row), {}));
  }

  lemma DiedClaimingIsReachable(o: Orders.Order)
    requires o.Valid()
    ensures Leads(INITIAL, DiedClaiming(o))
  {
    RenamedIsReachable(o);
    DiesRenamed(o);
    LeadsTo(INITIAL, o.At(DiedClaiming(o).world, Renamed(o.Row(RequestDecoded, 0)), {}), Crash, DiedClaiming(o));
  }

  /** Such a request exists: a crash between the claim's rename and its row loses the request, not its bytes. */
  lemma CrashInClaimIsNeverServed(o: Orders.Order)
    requires o.Valid()
    ensures Leads(INITIAL, DiedClaiming(o)) && !CanServe(DiedClaiming(o), o.name.request)
    ensures LiesIn(DiedClaiming(o).world.dirs.admitted, o.name, o.lease.payload)
  {
    DiedClaimingIsReachable(o);
    var before :| Run(INITIAL, before) == DiedClaiming(o);
    RestartServesExactly(before, o.name.request);
  }
}
