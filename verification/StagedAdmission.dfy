/**
 Staged admission over whole runs: the client's bundles, the request handlers,
 the coordinator's owner, reconcile passes, crashes and restarts, as one state
 machine whose steps are single durable effects.

 `World` is what survives a crash: the bound envelopes, the admission table, the
 jobs, the artifact store and the bundle directories. The actors hold reads that
 may be stale by the time they act on them. The machine allows more than the
 service does: handlers run side by side, commands may be taken in any order,
 passes ignore their lock and visit in any order, the coordinator's answers are
 arbitrary, and any handler may fail at any time.
 */
module StagedAdmission {
  import opened Wrappers
  import opened StagingRecords
  import R = StagingReconciliation

  // ---------------------------------------------------------------- world

  datatype Ticket = Ticket(request: RequestId, role: Role)

  /** The arguments of a staged command: the bundle its path names, and all the rest. */
  datatype Envelope = Envelope(path: BundleName, arguments: Digest)

  datatype Job = Job(request: RequestId, role: Role, bundle: BundleName, arguments: Digest, input: Option<Digest>)

  datatype Reply = Reply(request: RequestId, role: Role, envelope: Envelope, job: JobId)

  datatype Directories = Directories(
    drop: map<BundleName, Lease>,
    admitted: map<BundleName, Lease>,
    quarantine: map<BundleName, Lease>)

  datatype World = World(
    published: map<BundleName, Lease>,    // every lease ever published, as it was published
    dirs: Directories,
    bound: map<Ticket, Envelope>,
    admissions: map<RequestId, Admission>,
    jobs: map<JobId, Job>,
    store: map<JobId, Digest>,           // the promoted input of a job, committed or not
    replies: set<Reply>)

  const EMPTY := World(map[], Directories(map[], map[], map[]), map[], map[], map[], map[], {})

  // --- client

  /** Nonces are fresh: a bundle name is published once. */
  function PublishBundle(w: World, name: BundleName, lease: Lease): World {
    if name in w.published || !Binds(name, lease) || !lease.state.PublishedUnsent? then w
    else w.(published := w.published[name := lease], dirs := w.dirs.(drop := w.dirs.drop[name := lease]))
  }

  function TransferBundle(w: World, name: BundleName): World {
    if name !in w.dirs.drop || !w.dirs.drop[name].state.PublishedUnsent? then w
    else w.(dirs := w.dirs.(drop := w.dirs.drop[name := w.dirs.drop[name].(state := DispatchUncertain)]))
  }

  function DiscardBundle(w: World, name: BundleName): World {
    if name !in w.dirs.drop || !w.dirs.drop[name].state.PublishedUnsent? then w
    else w.(dirs := w.dirs.(drop := w.dirs.drop - {name}))
  }

  // --- service

  function BindEnvelope(w: World, ticket: Ticket, envelope: Envelope): World {
    if ticket in w.bound then w else w.(bound := w.bound[ticket := envelope])
  }

  function InsertRow(w: World, row: Admission): World
    requires row.request !in w.admissions
  {
    w.(admissions := w.admissions[row.request := row])
  }

  function SetRow(w: World, row: Admission): World
    requires row.request in w.admissions
  {
    w.(admissions := w.admissions[row.request := row])
  }

  /** The rename that claims: never over an existing entry. */
  function ClaimBundle(w: World, name: BundleName): World
    requires name in w.dirs.drop
  {
    w.(dirs := w.dirs.(drop := w.dirs.drop - {name}, admitted := w.dirs.admitted[name := w.dirs.drop[name]]))
  }

  function IsolateBundle(w: World, phase: R.Phase, name: BundleName): World
    requires name in (if phase.InDrop? then w.dirs.drop else w.dirs.admitted)
  {
    var d := w.dirs;
    w.(dirs := if phase.InDrop? then d.(drop := d.drop - {name}, quarantine := d.quarantine[name := d.drop[name]])
               else d.(admitted := d.admitted - {name}, quarantine := d.quarantine[name := d.admitted[name]]))
  }

  function RemoveBundle(w: World, phase: R.Phase, name: BundleName): World {
    w.(dirs := if phase.InDrop? then w.dirs.(drop := w.dirs.drop - {name}) else w.dirs.(admitted := w.dirs.admitted - {name}))
  }

  function StoreInput(w: World, job: JobId, input: Digest): World {
    w.(store := w.store[job := input])
  }

  function DropInput(w: World, job: JobId): World {
    w.(store := w.store - {job})
  }

  /** The one transaction that creates a staged job and binds its admission to it. */
  function CommitJob(w: World, job: JobId, record: Job): World
    requires job.request in w.admissions
  {
    var row := w.admissions[job.request];
    w.(jobs := w.jobs[job := record],
       admissions := w.admissions[job.request := row.(state := DurablyAdmitted, job := Some(job), revision := row.revision + 1)])
  }

  function Answer(w: World, reply: Reply): World {
    w.(replies := w.replies + {reply})
  }

  /** The lease and the record agree in everything the lease digest covers. */
  predicate SameAuthority(a: Admission, lease: Lease) {
    lease.state.DispatchUncertain? && Matches(a, lease) && a.boot == lease.boot && a.deadline == lease.deadline
  }

  /** A replayed request against the record it left behind. */
  predicate ReplayAllowed(w: World, a: Admission, role: Role, path: BundleName) {
    && a.role == role && path == a.bundle && !a.state.Quarantined? && !a.state.RecoveryRequired?
    && var phase := if a.state.RequestDecoded? then w.dirs.drop else w.dirs.admitted;
    if a.bundle in phase then SameAuthority(a, phase[a.bundle])
    else !R.Early(a.state) && path !in w.dirs.drop
  }

  /** What a durable replay compares between the job and the request. */
  predicate ReplayMatches(w: World, a: Admission, role: Role, envelope: Envelope) {
    && a.job.Some? && a.job.value in w.jobs
    && var job := w.jobs[a.job.value];
    && job.role == role && job.bundle == a.bundle
    && (role.Image? ==> job.arguments == envelope.arguments)
    && job.input == Some(a.payload.digest)
  }

  // --------------------------------------------------------------- actors

  datatype Pc =
    | Arrived
    | Bound
    | Validated(lease: Lease)                   // no record yet; the bundle in drop was read and accepted
    | Registered(record: Admission)
    | Claiming(record: Admission)               // the row was read as decoded; the rename is next
    | Renamed(record: Admission)                // the bundle is in admitted; the row is next
    | Ready
    | Waiting
    | Answered
    | Consuming(record: Admission, job: JobId)  // a durable admission was read; consume is next
    | Clearing(record: Admission, current: Admission, job: JobId) // consume read the row again; the bundle is next
    | Removed(record: Admission, job: JobId)    // the bundle is gone; the row is next
    | Replied
    | Failed

  datatype Handler = Handler(request: RequestId, role: Role, envelope: Envelope, pc: Pc)

  datatype Command = Command(request: RequestId, role: Role, envelope: Envelope)

  datatype Owner =
    | Idle
    | Picked(command: Command)
    | Unstaged(command: Command)                // no admission row: the job would be created without one
    | Checked(command: Command, record: Admission)
    | Imported(command: Command, record: Admission, ours: bool)
    | Discarding(command: Command)

  datatype Pending = Pending(request: RequestId, revision: nat, to: AdmissionState)

  /** A reconcile pass: its snapshot of the table, its active set, and the row update it still owes. */
  datatype Pass = Pass(records: map<RequestId, Admission>, active: set<RequestId>, pending: Option<Pending>)

  datatype State = State(
    world: World,
    up: bool,
    handlers: map<nat, Handler>,
    queue: set<Command>,
    owner: Owner,
    passes: map<nat, Pass>)

  const INITIAL := State(EMPTY, false, map[], {}, Idle, map[])

  datatype Step =
    | Publish(name: BundleName, lease: Lease)
    | Transfer(name: BundleName)
    | Discard(name: BundleName)
    | Arrive(h: nat, request: RequestId, role: Role, envelope: Envelope)
    | HandlerFails(h: nat)
    | HandlerMoves(h: nat)
    | OwnerPicks(command: Command)
    | OwnerChecks
    | OwnerImports(importing: ImportFaults)
    | OwnerCommits(allowed: bool)
    | OwnerDiscards(revoked: bool)       // the input is gone, whether or not the discard raised after that
    | OwnerGivesUp
    | PassBegins(p: nat, active: set<RequestId>)
    | PassVisits(p: nat, phase: R.Phase, name: BundleName, now: nat, boot: BootId, faults: VisitFaults)
    | PassRecords(p: nat)
    | PassEnds(p: nat)
    | Crash
    | Recover(request: RequestId, unreadable: bool)
    | Start

  datatype ImportFaults = ImportFaults(unreadable: bool, fails: bool, raisesAfterRename: bool)

  datatype VisitFaults = VisitFaults(unreadable: bool, move: Option<R.MoveFault>)

  function SetPc(s: State, h: nat, pc: Pc): State
    requires h in s.handlers
  {
    s.(handlers := s.handlers[h := s.handlers[h].(pc := pc)])
  }

  /** One step of a request handler, from one durable effect to the next. */
  function HandlerStep(w: World, x: Handler): (World, Pc) {
    match x.pc
    case Arrived =>
      var w' := BindEnvelope(w, Ticket(x.request, x.role), x.envelope);
      (w', if w'.bound[Ticket(x.request, x.role)] == x.envelope then Bound else Failed)
    case Bound => (w, RegisterRead(w, x))
    case Validated(lease) =>
      if x.request in w.admissions || lease.request != x.request then (w, Failed)
      else (InsertRow(w, Decoded(x.envelope.path, lease)), Registered(Decoded(x.envelope.path, lease)))
    case Registered(record) =>
      if record.state.DurablyAdmitted? || record.state.Consumed? then ReplayStep(w, x, record)
      else (w, ClaimRead(w, x))
    case Claiming(record) => ClaimStep(w, x, record)
    case Renamed(record) =>
      if x.request !in w.admissions then (w, Failed)
      else
        (match Transition(w.admissions[x.request], record.revision, RequestDecoded, Claimed)
         case None => (w, Failed)
         case Some(row) => if row.request == x.request then (SetRow(w, row), Ready) else (w, Failed))
    case Ready => (w, Waiting)
    case Waiting => (w, Answered)
    case Answered =>
      if x.request in w.admissions && w.admissions[x.request].state.DurablyAdmitted?
      then (w, Consuming(w.admissions[x.request], JobId(x.request, x.role)))
      else (w, Failed)
    case Consuming(record, job) =>
      if x.request in w.admissions && w.admissions[x.request].state.DurablyAdmitted?
      then (w, Clearing(record, w.admissions[x.request], job))
      else (w, Failed)
    case Clearing(record, current, job) => ClearStep(w, record, current, job)
    case Removed(record, job) =>
      if x.request !in w.admissions then (w, Failed)
      else
        (match Transition(w.admissions[x.request], record.revision, DurablyAdmitted, Consumed)
         case None => (w, Failed)
         case Some(row) =>
           if row.request == x.request
           then (Answer(SetRow(w, row), Reply(x.request, x.role, x.envelope, job)), Replied)
           else (w, Failed))
    case _ => (w, x.pc)
  }

  function RegisterRead(w: World, x: Handler): Pc {
    var path := x.envelope.path;
    if x.request in w.admissions then
      if ReplayAllowed(w, w.admissions[x.request], x.role, path) then Registered(w.admissions[x.request]) else Failed
    else if path.request == x.request && path.role == x.role && path in w.dirs.drop && w.dirs.drop[path].state.DispatchUncertain?
         && Binds(path, w.dirs.drop[path])
    then Validated(w.dirs.drop[path])
    else Failed
  }

  function ReplayStep(w: World, x: Handler, record: Admission): (World, Pc) {
    if !ReplayMatches(w, record, x.role, x.envelope) then (w, Failed)
    else if record.state.DurablyAdmitted? then (w, Consuming(record, record.job.value))
    else (Answer(w, Reply(x.request, x.role, x.envelope, record.job.value)), Replied)
  }

  function ClaimRead(w: World, x: Handler): Pc {
    if x.request !in w.admissions then Failed
    else
      var current := w.admissions[x.request];
      if current.state.Claimed? then (if ReplayAllowed(w, current, x.role, x.envelope.path) then Ready else Failed)
      else if current.state.RequestDecoded? then Claiming(current)
      else Failed
  }

  /** The rename, on a row that may have moved on since it was read. */
  function ClaimStep(w: World, x: Handler, current: Admission): (World, Pc) {
    var path := x.envelope.path;
    if current.bundle == path && path in w.dirs.drop && SameAuthority(current, w.dirs.drop[path]) && path !in w.dirs.admitted
    then (ClaimBundle(w, path), Renamed(current))
    else (w, Failed)
  }

  /** The removal, on a row that may have moved on since it was read. */
  function ClearStep(w: World, record: Admission, current: Admission, job: JobId): (World, Pc) {
    if current.bundle !in w.dirs.admitted then (w, Removed(record, job))
    else if SameAuthority(current, w.dirs.admitted[current.bundle])
    then (RemoveBundle(w, R.InAdmitted, current.bundle), Removed(record, job))
    else (w, Failed)
  }

  function MoveHandler(s: State, h: nat): State
    requires h in s.handlers
  {
    var x := s.handlers[h];
    var (w', pc) := HandlerStep(s.world, x);
    var s' := SetPc(s, h, pc).(world := w');
    if x.pc.Ready? then s'.(queue := s.queue + {Command(x.request, x.role, x.envelope)}) else s'
  }

  /** The owner's steps through one staged submit. */
  function OwnerMove(w: World, owner: Owner, step: Step): (World, Owner) {
    match (owner, step)
    case (Picked(c), OwnerChecks) => (w, CheckCommand(w, c))
    case (Unstaged(c), OwnerCommits(allowed)) =>
      var job := Job(c.request, c.role, c.envelope.path, c.envelope.arguments, None);
      (if allowed then w.(jobs := w.jobs[JobOf(c) := job]) else w, Idle)
    case (Checked(c, row), OwnerImports(faults)) => ImportInput(w, c, row, faults)
    case (Imported(c, row, ours), OwnerCommits(allowed)) =>
      if allowed && CommitPossible(w, c, row) then (CommitStaged(w, c), Idle) else (w, if ours then Discarding(c) else Idle)
    case (Discarding(c), OwnerDiscards(revoked)) => (if revoked then DropInput(w, JobOf(c)) else w, Idle)
    case (Picked(_), OwnerGivesUp) => (w, Idle)
    case (Checked(_, _), OwnerGivesUp) => (w, Idle)
    case _ => (w, owner)
  }

  function JobOf(c: Command): JobId {
    JobId(c.request, c.role)
  }

  /** No job of that name yet, and a claimed admission of the command's role. */
  function CheckCommand(w: World, c: Command): Owner {
    if JobOf(c) in w.jobs then Idle
    else if c.request !in w.admissions then Unstaged(c)
    else
      var row := w.admissions[c.request];
      if row.state.Claimed? && row.role == c.role then Checked(c, row) else Idle
  }

  /** The transaction goes through: the row is still claimed at the revision read, and the job is new. */
  predicate CommitPossible(w: World, c: Command, row: Admission) {
    && c.request in w.admissions && w.admissions[c.request].state.Claimed?
    && w.admissions[c.request].revision == row.revision && JobOf(c) !in w.jobs && JobOf(c) in w.store
  }

  function CommitStaged(w: World, c: Command): World
    requires c.request in w.admissions && JobOf(c) in w.store
  {
    CommitJob(w, JobOf(c), Job(c.request, c.role, c.envelope.path, c.envelope.arguments, Some(w.store[JobOf(c)])))
  }

  /** Use what an earlier attempt left, or import the admitted payload; the source is the claimed bundle. */
  function ImportInput(w: World, c: Command, row: Admission, faults: ImportFaults): (World, Owner) {
    var path := c.envelope.path;
    if JobOf(c) in w.store then
      (w, if !faults.unreadable && w.store[JobOf(c)] == row.payload.digest then Imported(c, row, false) else Idle)
    else if faults.fails || path !in w.dirs.admitted then (w, Idle)
    else (StoreInput(w, JobOf(c), w.dirs.admitted[path].payload.digest),
          if faults.raisesAfterRename then Idle else Imported(c, row, true))
  }

  function Record(pass: Pass, name: BundleName): Option<Admission> {
    if name.request in pass.records && pass.records[name.request].bundle == name
    then Some(pass.records[name.request]) else None
  }

  function VisitBundle(w: World, pass: Pass, phase: R.Phase, name: BundleName, now: nat, boot: BootId, faults: VisitFaults)
    : (World, Pass)
  {
    var directory := if phase.InDrop? then w.dirs.drop else w.dirs.admitted;
    if name !in directory || pass.pending.Some? || faults.move == Some(R.NotMoved) then (w, pass)
    else if faults.unreadable || !Binds(name, directory[name]) then (IsolateBundle(w, phase, name), pass)
    else
      var record := Record(pass, name);
      match R.Decide(phase, directory[name], record, pass.active, now, boot)
      case Leave => (w, pass)
      case MarkMismatch => (w, pass)
      case RemoveThenConsume =>
        (RemoveBundle(w, phase, name),
         pass.(pending := if faults.move.Some? then None else Some(Pending(name.request, record.value.revision, Consumed))))
      case Remove => (RemoveBundle(w, phase, name), pass)
      case Isolate =>
        (IsolateBundle(w, phase, name),
         pass.(pending := if record.None? || faults.move.Some? then None
                          else Some(Pending(name.request, record.value.revision, Quarantined))))
  }

  /** The row update a pass owes; a failing one ends the pass. */
  function SettleRow(w: World, pass: Pass): (World, Option<Pass>) {
    if pass.pending.None? then (w, Some(pass))
    else
      var owed := pass.pending.value;
      if owed.request !in w.admissions then (w, None)
      else
        var current := w.admissions[owed.request];
        match Transition(current, owed.revision, if owed.to.Consumed? then DurablyAdmitted else current.state, owed.to)
        case None => (w, None)
        case Some(row) => if row.request == owed.request then (SetRow(w, row), Some(pass.(pending := None))) else (w, None)
  }

  /** Startup: a claimed admission's promoted input is revoked, unless its read fails. */
  function RecoverInput(w: World, request: RequestId, unreadable: bool): World {
    if request !in w.admissions || !w.admissions[request].state.Claimed? || unreadable then w
    else
      var job := JobId(request, w.admissions[request].role);
      if job in w.jobs || job !in w.store || w.store[job] != w.admissions[request].payload.digest then w
      else DropInput(w, job)
  }

  /** One step; a step that is not enabled changes nothing. */
  function Next(s: State, step: Step): State {
    match step
    case Publish(name, lease) => s.(world := PublishBundle(s.world, name, lease))
    case Transfer(name) => s.(world := TransferBundle(s.world, name))
    case Discard(name) => s.(world := DiscardBundle(s.world, name))
    case Arrive(h, request, role, envelope) =>
      if h in s.handlers || !s.up then s else s.(handlers := s.handlers[h := Handler(request, role, envelope, Arrived)])
    case HandlerFails(h) => if h in s.handlers then SetPc(s, h, Failed) else s
    case HandlerMoves(h) => if h in s.handlers then MoveHandler(s, h) else s
    case PassBegins(p, active) =>
      if p in s.passes then s else s.(passes := s.passes[p := Pass(s.world.admissions, active, None)])
    case PassVisits(p, phase, name, now, boot, faults) =>
      if p !in s.passes then s
      else
        var (w, pass) := VisitBundle(s.world, s.passes[p], phase, name, now, boot, faults);
        s.(world := w, passes := s.passes[p := pass])
    case PassRecords(p) =>
      if p !in s.passes then s
      else
        var (w, pass) := SettleRow(s.world, s.passes[p]);
        s.(world := w, passes := if pass.Some? then s.passes[p := pass.value] else s.passes - {p})
    case PassEnds(p) => s.(passes := s.passes - {p})
    case Crash => State(s.world, false, map[], {}, Idle, map[])
    case Recover(request, unreadable) => if s.up then s else s.(world := RecoverInput(s.world, request, unreadable))
    case Start => s.(up := true)
    case OwnerPicks(command) => if s.owner.Idle? && command in s.queue then s.(owner := Picked(command)) else s
    case _ =>
      var (w, owner) := OwnerMove(s.world, s.owner, step);
      s.(world := w, owner := owner)
  }

  function Run(s: State, steps: seq<Step>): State
    decreases |steps|
  {
    if steps == [] then s else Run(Next(s, steps[0]), steps[1..])
  }

  // ------------------------------------------------- invariant of the world

  /** Only the transfer to dispatch-uncertain ever changes a published lease. */
  predicate SameLease(lease: Lease, published: Lease) {
    lease.(state := PublishedUnsent) == published.(state := PublishedUnsent)
  }

  ghost predicate LeasesFit(directory: map<BundleName, Lease>, published: map<BundleName, Lease>) {
    forall name :: name in directory ==> name in published && SameLease(directory[name], published[name])
  }

  ghost predicate FilesFit(dirs: Directories, published: map<BundleName, Lease>) {
    && (forall name :: name in published ==> Binds(name, published[name]))
    && LeasesFit(dirs.drop, published) && LeasesFit(dirs.admitted, published) && LeasesFit(dirs.quarantine, published)
  }

  /** The bundle's bytes are where no client can take them back. */
  predicate Kept(dirs: Directories, name: BundleName) {
    (name in dirs.drop && dirs.drop[name].state.DispatchUncertain?) || name in dirs.admitted || name in dirs.quarantine
  }

  /** The record says what its bundle's lease said, for the envelope its request was bound to. */
  predicate Describes(a: Admission, published: map<BundleName, Lease>, bound: map<Ticket, Envelope>) {
    && a.bundle in published && a.bundle.request == a.request && a.bundle.role == a.role
    && a.payload == published[a.bundle].payload && a.boot == published[a.bundle].boot
    && a.deadline == published[a.bundle].deadline
    && Ticket(a.request, a.role) in bound && bound[Ticket(a.request, a.role)].path == a.bundle
  }

  /** The record's job, and the input artifact that holds the bundle's bytes. */
  predicate BoundToJob(a: Admission, bound: map<Ticket, Envelope>, jobs: map<JobId, Job>, store: map<JobId, Digest>) {
    && Ticket(a.request, a.role) in bound
    && var job := JobId(a.request, a.role);
    && a.job == Some(job) && job in jobs && job in store && store[job] == a.payload.digest
    && jobs[job] == Job(a.request, a.role, a.bundle, bound[Ticket(a.request, a.role)].arguments, Some(a.payload.digest))
  }

  predicate JobFitsState(a: Admission) {
    && (a.job.Some? <==> a.state.DurablyAdmitted? || a.state.Consumed?)
    && !a.state.RecoveryRequired?
  }

  ghost predicate AdmissionFits(w: World, a: Admission) {
    && Describes(a, w.published, w.bound) && JobFitsState(a)
    && if a.job.Some? then BoundToJob(a, w.bound, w.jobs, w.store) else Kept(w.dirs, a.bundle)
  }

  ghost predicate AdmissionsFit(w: World) {
    forall r :: r in w.admissions ==> w.admissions[r].request == r && AdmissionFits(w, w.admissions[r])
  }

  /** Every job is the one its request's admission is bound to. */
  ghost predicate JobsFit(jobs: map<JobId, Job>, rows: map<RequestId, Admission>) {
    forall j :: j in jobs ==> j.request in rows && rows[j.request].job == Some(j)
  }

  ghost predicate StoreFits(store: map<JobId, Digest>, rows: map<RequestId, Admission>) {
    forall j :: j in store ==>
      j.request in rows && rows[j.request].role == j.role && store[j] == rows[j.request].payload.digest
  }

  predicate ReplyFits(r: Reply, bound: map<Ticket, Envelope>, rows: map<RequestId, Admission>) {
    && Ticket(r.request, r.role) in bound && bound[Ticket(r.request, r.role)] == r.envelope
    && r.request in rows && rows[r.request].role == r.role && rows[r.request].job == Some(r.job)
  }

  ghost predicate RepliesFit(replies: set<Reply>, bound: map<Ticket, Envelope>, rows: map<RequestId, Admission>) {
    forall r :: r in replies ==> ReplyFits(r, bound, rows)
  }

  ghost predicate WorldFits(w: World) {
    && FilesFit(w.dirs, w.published) && AdmissionsFit(w) && JobsFit(w.jobs, w.admissions)
    && StoreFits(w.store, w.admissions) && RepliesFit(w.replies, w.bound, w.admissions)
  }

  // ------------------------------------------------ how the world moves on

  /** A record read earlier, and the row as it is now. */
  predicate Below(a: Admission, b: Admission) {
    && a.request == b.request && a.role == b.role && a.bundle == b.bundle && a.payload == b.payload
    && a.boot == b.boot && a.deadline == b.deadline
    && a.revision <= b.revision && (a.revision == b.revision ==> a == b)
    && (a.job.Some? ==> b.job == a.job)
  }

  ghost predicate RowsMoveOn(rows: map<RequestId, Admission>, rows': map<RequestId, Admission>) {
    forall r :: r in rows ==> r in rows' && Below(rows[r], rows'[r])
  }

  predicate HasJob(rows: map<RequestId, Admission>, r: RequestId) {
    r in rows && rows[r].job.Some?
  }

  /** A kept bundle stays kept until its request's admission is bound to a job. */
  ghost predicate NamesStayKept(dirs: Directories, dirs': Directories, rows': map<RequestId, Admission>) {
    forall name :: Kept(dirs, name) ==> Kept(dirs', name) || HasJob(rows', name.request)
  }

  ghost predicate Grows<K, V>(m: map<K, V>, m': map<K, V>) {
    forall k :: k in m ==> k in m' && m'[k] == m[k]
  }

  /** The input of a committed job stays in the store. */
  ghost predicate InputsStay(w: World, w': World) {
    forall j :: j in w.jobs && j in w.store ==> j in w'.store && w'.store[j] == w.store[j]
  }

  ghost predicate Onward(w: World, w': World) {
    && RowsMoveOn(w.admissions, w'.admissions) && NamesStayKept(w.dirs, w'.dirs, w'.admissions)
    && Grows(w.bound, w'.bound) && Grows(w.published, w'.published) && Grows(w.jobs, w'.jobs)
    && InputsStay(w, w') && w.replies <= w'.replies
  }

  /** A row that did not change fits wherever the world moved on to. */
  lemma AdmissionStable(w: World, w': World, a: Admission)
    requires AdmissionFits(w, a) && Onward(w, w')
    requires a.request in w'.admissions && w'.admissions[a.request] == a
    ensures AdmissionFits(w', a)
  {
    if a.job.Some? {
      assert JobId(a.request, a.role) in w.jobs;
    } else {
      assert Kept(w.dirs, a.bundle);
    }
  }

  /** All rows fit, if those that changed do. */
  lemma AdmissionsStable(w: World, w': World, changed: RequestId)
    requires AdmissionsFit(w) && Onward(w, w')
    requires forall r :: r in w'.admissions && r != changed ==> r in w.admissions && w'.admissions[r] == w.admissions[r]
    requires changed in w'.admissions ==>
               || (changed in w.admissions && w'.admissions[changed] == w.admissions[changed])
               || (w'.admissions[changed].request == changed && AdmissionFits(w', w'.admissions[changed]))
    ensures AdmissionsFit(w')
  {
    forall r | r in w'.admissions ensures w'.admissions[r].request == r && AdmissionFits(w', w'.admissions[r]) {
      if r in w.admissions && w'.admissions[r] == w.admissions[r] {
        AdmissionStable(w, w', w.admissions[r]);
      }
    }
  }

  lemma RepliesStable(replies: set<Reply>, bound: map<Ticket, Envelope>, bound': map<Ticket, Envelope>,
                      rows: map<RequestId, Admission>, rows': map<RequestId, Admission>)
    requires RepliesFit(replies, bound, rows) && RowsMoveOn(rows, rows') && Grows(bound, bound')
    ensures RepliesFit(replies, bound', rows')
  {
    forall r | r in replies ensures ReplyFits(r, bound', rows') {
      assert ReplyFits(r, bound, rows);
      assert Below(rows[r.request], rows'[r.request]);
    }
  }

  // --- client and reconciler effects on the directories

  /** A change of the directories only, which keeps what must be kept. */
  lemma DirectoriesMoveOn(w: World, w': World)
    requires WorldFits(w) && FilesFit(w'.dirs, w'.published) && NamesStayKept(w.dirs, w'.dirs, w.admissions)
    requires w' == w.(published := w'.published, dirs := w'.dirs) && Grows(w.published, w'.published)
    ensures WorldFits(w') && Onward(w, w')
  {
    AdmissionsStable(w, w', 0);
  }

  lemma PublishKeepsFiles(dirs: Directories, published: map<BundleName, Lease>, name: BundleName, lease: Lease)
    requires FilesFit(dirs, published) && name !in published && Binds(name, lease)
    ensures FilesFit(dirs.(drop := dirs.drop[name := lease]), published[name := lease])
    ensures Grows(published, published[name := lease])
    ensures forall n :: Kept(dirs, n) ==> Kept(dirs.(drop := dirs.drop[name := lease]), n)
  {
  }

  lemma PublishMovesOn(w: World, name: BundleName, lease: Lease)
    requires WorldFits(w)
    ensures WorldFits(PublishBundle(w, name, lease)) && Onward(w, PublishBundle(w, name, lease))
  {
    if name !in w.published && Binds(name, lease) {
      PublishKeepsFiles(w.dirs, w.published, name, lease);
    }
    DirectoriesMoveOn(w, PublishBundle(w, name, lease));
  }

  lemma TransferKeepsFiles(dirs: Directories, published: map<BundleName, Lease>, name: BundleName)
    requires FilesFit(dirs, published) && name in dirs.drop
    ensures FilesFit(dirs.(drop := dirs.drop[name := dirs.drop[name].(state := DispatchUncertain)]), published)
    ensures forall n :: Kept(dirs, n) ==> Kept(dirs.(drop := dirs.drop[name := dirs.drop[name].(state := DispatchUncertain)]), n)
  {
  }

  lemma TransferMovesOn(w: World, name: BundleName)
    requires WorldFits(w)
    ensures WorldFits(TransferBundle(w, name)) && Onward(w, TransferBundle(w, name))
  {
    if name in w.dirs.drop {
      TransferKeepsFiles(w.dirs, w.published, name);
    }
    DirectoriesMoveOn(w, TransferBundle(w, name));
  }

  lemma DiscardMovesOn(w: World, name: BundleName)
    requires WorldFits(w)
    ensures WorldFits(DiscardBundle(w, name)) && Onward(w, DiscardBundle(w, name))
  {
    DirectoriesMoveOn(w, DiscardBundle(w, name));
  }

  lemma ClaimMovesOn(w: World, name: BundleName)
    requires WorldFits(w) && name in w.dirs.drop
    ensures WorldFits(ClaimBundle(w, name)) && Onward(w, ClaimBundle(w, name))
  {
    DirectoriesMoveOn(w, ClaimBundle(w, name));
  }

  lemma IsolateMovesOn(w: World, phase: R.Phase, name: BundleName)
    requires WorldFits(w) && name in (if phase.InDrop? then w.dirs.drop else w.dirs.admitted)
    ensures WorldFits(IsolateBundle(w, phase, name)) && Onward(w, IsolateBundle(w, phase, name))
  {
    DirectoriesMoveOn(w, IsolateBundle(w, phase, name));
  }

  /** Deleting is safe once the bundle's request is bound to a job. */
  lemma RemoveMovesOn(w: World, phase: R.Phase, name: BundleName)
    requires WorldFits(w) && HasJob(w.admissions, name.request)
    ensures WorldFits(RemoveBundle(w, phase, name)) && Onward(w, RemoveBundle(w, phase, name))
  {
    DirectoriesMoveOn(w, RemoveBundle(w, phase, name));
  }

  // --- table, store and replies

  lemma BindingAdds(bound: map<Ticket, Envelope>, ticket: Ticket, envelope: Envelope)
    requires ticket !in bound
    ensures Grows(bound, bound[ticket := envelope])
  {
  }

  lemma BindMovesOn(w: World, ticket: Ticket, envelope: Envelope)
    requires WorldFits(w)
    ensures WorldFits(BindEnvelope(w, ticket, envelope)) && Onward(w, BindEnvelope(w, ticket, envelope))
  {
    if ticket !in w.bound {
      BindingAdds(w.bound, ticket, envelope);
      BoundMovesOn(w, w.(bound := w.bound[ticket := envelope]));
    }
  }

  lemma BoundMovesOn(w: World, w': World)
    requires WorldFits(w) && w' == w.(bound := w'.bound) && Grows(w.bound, w'.bound)
    ensures WorldFits(w') && Onward(w, w')
  {
    RepliesStable(w.replies, w.bound, w'.bound, w.admissions, w.admissions);
    AdmissionsStable(w, w', 0);
  }

  /** One row is inserted or updated, and nothing else changes. */
  lemma RowMovesOn(w: World, w': World, row: Admission)
    requires WorldFits(w) && w' == w.(admissions := w.admissions[row.request := row])
    requires row.request in w.admissions ==> Below(w.admissions[row.request], row)
    requires AdmissionFits(w, row)
    ensures WorldFits(w') && Onward(w, w')
  {
    assert RowsMoveOn(w.admissions, w'.admissions);
    assert AdmissionFits(w', row);
    AdmissionsStable(w, w', row.request);
    RepliesStable(w.replies, w.bound, w.bound, w.admissions, w'.admissions);
    RowKeepsTables(w.jobs, w.store, w.admissions, row);
  }

  lemma RowKeepsTables(jobs: map<JobId, Job>, store: map<JobId, Digest>, rows: map<RequestId, Admission>, row: Admission)
    requires JobsFit(jobs, rows) && StoreFits(store, rows)
    requires row.request in rows ==> Below(rows[row.request], row)
    ensures JobsFit(jobs, rows[row.request := row]) && StoreFits(store, rows[row.request := row])
  {
  }

  /** A compare-and-set update that keeps the job binding: claim, consume and quarantine. */
  lemma TransitionMovesOn(w: World, request: RequestId, revision: nat, expected: AdmissionState, to: AdmissionState)
    requires WorldFits(w) && request in w.admissions && !to.DurablyAdmitted? && !to.RecoveryRequired?
    requires Transition(w.admissions[request], revision, expected, to).Some?
    ensures var row := Transition(w.admissions[request], revision, expected, to).value;
            && row.request == request && WorldFits(SetRow(w, row)) && Onward(w, SetRow(w, row))
            && Below(w.admissions[request], row) && row.job == w.admissions[request].job
  {
    var row := Transition(w.admissions[request], revision, expected, to).value;
    assert AdmissionFits(w, w.admissions[request]);
    assert row.request == request && AdmissionFits(w, row);
    RowMovesOn(w, SetRow(w, row), row);
  }

  lemma StoreMovesOn(w: World, w': World)
    requires WorldFits(w) && w' == w.(store := w'.store) && StoreFits(w'.store, w.admissions) && InputsStay(w, w')
    ensures WorldFits(w') && Onward(w, w')
  {
    AdmissionsStable(w, w', 0);
  }

  lemma AnswerMovesOn(w: World, reply: Reply)
    requires WorldFits(w) && ReplyFits(reply, w.bound, w.admissions)
    ensures WorldFits(Answer(w, reply)) && Onward(w, Answer(w, reply))
  {
    AdmissionsStable(w, Answer(w, reply), 0);
  }

  lemma CommitMovesOn(w: World, job: JobId, record: Job)
    requires WorldFits(w) && job.request in w.admissions && job !in w.jobs && job in w.store
    requires w.admissions[job.request].state.Claimed? && w.admissions[job.request].role == job.role
    requires record == Job(job.request, job.role, w.admissions[job.request].bundle, record.arguments, Some(w.store[job]))
    requires Ticket(job.request, job.role) in w.bound && w.bound[Ticket(job.request, job.role)].arguments == record.arguments
    ensures WorldFits(CommitJob(w, job, record)) && Onward(w, CommitJob(w, job, record))
  {
    var w' := CommitJob(w, job, record);
    assert AdmissionFits(w, w.admissions[job.request]);
    CommitKeepsTables(w, job, record);
    assert AdmissionFits(w', w'.admissions[job.request]);
    AdmissionsStable(w, w', job.request);
  }

  /** The tables after the commit, row by row. */
  lemma CommitKeepsTables(w: World, job: JobId, record: Job)
    requires job.request in w.admissions && job !in w.jobs && w.admissions[job.request].request == job.request
    requires w.admissions[job.request].job.None?
    requires JobsFit(w.jobs, w.admissions) && StoreFits(w.store, w.admissions) && RepliesFit(w.replies, w.bound, w.admissions)
    ensures var w' := CommitJob(w, job, record);
            && JobsFit(w'.jobs, w'.admissions) && StoreFits(w'.store, w'.admissions)
            && RepliesFit(w'.replies, w'.bound, w'.admissions) && Onward(w, w')
  {
    var w' := CommitJob(w, job, record);
    var row := w'.admissions[job.request];
    assert Below(w.admissions[job.request], row);
    RowKeepsTables(w.jobs, w.store, w.admissions, row);
    assert RowsMoveOn(w.admissions, w'.admissions);
    RepliesStable(w.replies, w.bound, w.bound, w.admissions, w'.admissions);
    JobAdds(w.jobs, job, record, w'.admissions);
  }

  lemma JobAdds(jobs: map<JobId, Job>, job: JobId, record: Job, rows: map<RequestId, Admission>)
    requires job !in jobs && JobsFit(jobs, rows) && job.request in rows && rows[job.request].job == Some(job)
    ensures Grows(jobs, jobs[job := record]) && JobsFit(jobs[job := record], rows)
  {
  }

  // ------------------------------------------------ invariant of the actors

  /** The request was bound to exactly this envelope. */
  predicate Holds(w: World, request: RequestId, role: Role, envelope: Envelope) {
    Ticket(request, role) in w.bound && w.bound[Ticket(request, role)] == envelope
  }

  /** The request's row is for this role and this bundle. */
  predicate RowFor(w: World, request: RequestId, role: Role, bundle: BundleName) {
    request in w.admissions && w.admissions[request].role == role && w.admissions[request].bundle == bundle
  }

  /** The row, and an earlier state of it. */
  predicate ReadRow(w: World, request: RequestId, role: Role, bundle: BundleName, record: Admission) {
    RowFor(w, request, role, bundle) && Below(record, w.admissions[request])
  }

  ghost predicate HandlerFits(w: World, x: Handler) {
    var path := x.envelope.path;
    match x.pc
    case Arrived => true
    case Failed => true
    case Replied => true
    case Bound => Holds(w, x.request, x.role, x.envelope)
    case Validated(lease) =>
      && Holds(w, x.request, x.role, x.envelope)
      && path.request == x.request && path.role == x.role && path in w.published && SameLease(lease, w.published[path])
      && (x.request in w.admissions || Kept(w.dirs, path))
    case Registered(record) => Holds(w, x.request, x.role, x.envelope) && ReadRow(w, x.request, x.role, path, record)
    case Claiming(record) => Holds(w, x.request, x.role, x.envelope) && ReadRow(w, x.request, x.role, path, record)
    case Renamed(record) => Holds(w, x.request, x.role, x.envelope) && ReadRow(w, x.request, x.role, path, record)
    case Ready => Holds(w, x.request, x.role, x.envelope) && RowFor(w, x.request, x.role, path)
    case Waiting => Holds(w, x.request, x.role, x.envelope) && RowFor(w, x.request, x.role, path)
    case Answered => Holds(w, x.request, x.role, x.envelope) && RowFor(w, x.request, x.role, path)
    case Consuming(record, job) =>
      Holds(w, x.request, x.role, x.envelope) && ReadRow(w, x.request, x.role, path, record) && record.job == Some(job)
    case Clearing(record, current, job) =>
      && Holds(w, x.request, x.role, x.envelope) && ReadRow(w, x.request, x.role, path, record) && record.job == Some(job)
      && ReadRow(w, x.request, x.role, path, current)
    case Removed(record, job) =>
      Holds(w, x.request, x.role, x.envelope) && ReadRow(w, x.request, x.role, path, record) && record.job == Some(job)
  }

  predicate CommandFits(w: World, c: Command) {
    Holds(w, c.request, c.role, c.envelope) && RowFor(w, c.request, c.role, c.envelope.path)
  }

  ghost predicate OwnerFits(w: World, owner: Owner) {
    match owner
    case Idle => true
    case Picked(c) => CommandFits(w, c)
    case Unstaged(c) => false
    case Checked(c, row) => CommandFits(w, c) && JobOf(c) !in w.jobs && Below(row, w.admissions[c.request])
    case Imported(c, row, _) => CommandFits(w, c) && JobOf(c) !in w.jobs && JobOf(c) in w.store
    case Discarding(c) => CommandFits(w, c) && JobOf(c) !in w.jobs
  }

  ghost predicate PassFits(w: World, pass: Pass) {
    && RowsMoveOn(pass.records, w.admissions)
    && (forall r :: r in pass.records ==> JobFitsState(pass.records[r]))
    && (pass.pending.Some? ==> pass.pending.value.to.Consumed? || pass.pending.value.to.Quarantined?)
  }

  ghost predicate ActorsFit(s: State) {
    && (forall h :: h in s.handlers ==> HandlerFits(s.world, s.handlers[h]))
    && (forall c :: c in s.queue ==> CommandFits(s.world, c))
    && (forall p :: p in s.passes ==> PassFits(s.world, s.passes[p]))
    && OwnerFits(s.world, s.owner)
    && (!s.up ==> s.owner.Idle? && s.queue == {} && s.handlers == map[])
  }

  ghost predicate Inv(s: State) {
    WorldFits(s.world) && ActorsFit(s)
  }

  lemma HandlerStable(w: World, w': World, x: Handler)
    requires HandlerFits(w, x) && Onward(w, w')
    ensures HandlerFits(w', x)
  {
    if x.request in w.admissions {
      assert Below(w.admissions[x.request], w'.admissions[x.request]);
    }
    if x.pc.Validated? && x.request !in w.admissions {
      assert Kept(w.dirs, x.envelope.path);
    }
  }

  lemma CommandStable(w: World, w': World, c: Command)
    requires CommandFits(w, c) && Onward(w, w')
    ensures CommandFits(w', c)
  {
    assert Below(w.admissions[c.request], w'.admissions[c.request]);
  }

  lemma PassStable(w: World, w': World, pass: Pass)
    requires PassFits(w, pass) && Onward(w, w')
    ensures PassFits(w', pass)
  {
    forall r | r in pass.records ensures r in w'.admissions && Below(pass.records[r], w'.admissions[r]) {
      assert Below(pass.records[r], w.admissions[r]) && Below(w.admissions[r], w'.admissions[r]);
    }
  }

  lemma OwnerStable(w: World, w': World, owner: Owner)
    requires OwnerFits(w, owner) && Onward(w, w') && w'.jobs == w.jobs && w'.store == w.store
    ensures OwnerFits(w', owner)
  {
    if !owner.Idle? {
      CommandStable(w, w', owner.command);
      assert Below(w.admissions[owner.command.request], w'.admissions[owner.command.request]);
    }
  }

  // -------------------------------------------------- the handler's steps

  /** What a handler step keeps: the world fits and moved on, jobs and store are untouched, the handler fits. */
  ghost predicate HandlerKeeps(w: World, x: Handler, w': World, pc: Pc) {
    WorldFits(w') && Onward(w, w') && w'.jobs == w.jobs && w'.store == w.store && HandlerFits(w', x.(pc := pc))
  }

  lemma SameWorldKeeps(w: World, x: Handler, pc: Pc)
    requires WorldFits(w) && HandlerFits(w, x.(pc := pc))
    ensures HandlerKeeps(w, x, w, pc)
  {
  }

  lemma BindKeeps(w: World, x: Handler)
    requires WorldFits(w) && x.pc.Arrived?
    ensures HandlerKeeps(w, x, HandlerStep(w, x).0, HandlerStep(w, x).1)
  {
    BindMovesOn(w, Ticket(x.request, x.role), x.envelope);
  }

  lemma RegisterKeeps(w: World, x: Handler)
    requires WorldFits(w) && HandlerFits(w, x) && x.pc.Bound?
    ensures HandlerKeeps(w, x, w, RegisterRead(w, x))
  {
    if x.request in w.admissions {
      assert Below(w.admissions[x.request], w.admissions[x.request]);
    }
    SameWorldKeeps(w, x, RegisterRead(w, x));
  }

  lemma InsertKeeps(w: World, x: Handler)
    requires WorldFits(w) && HandlerFits(w, x) && x.pc.Validated?
    ensures HandlerKeeps(w, x, HandlerStep(w, x).0, HandlerStep(w, x).1)
  {
    var path, lease := x.envelope.path, x.pc.lease;
    if x.request !in w.admissions && lease.request == x.request {
      var row := Decoded(path, lease);
      assert Binds(path, w.published[path]);
      assert AdmissionFits(w, row);
      RowMovesOn(w, InsertRow(w, row), row);
    } else {
      SameWorldKeeps(w, x, Failed);
    }
  }

  lemma ReplayKeeps(w: World, x: Handler)
    requires WorldFits(w) && HandlerFits(w, x) && x.pc.Registered?
    ensures var (w', pc) := ReplayStep(w, x, x.pc.record); HandlerKeeps(w, x, w', pc)
  {
    var record := x.pc.record;
    if ReplayMatches(w, record, x.role, x.envelope) && !record.state.DurablyAdmitted? {
      var reply := Reply(x.request, x.role, x.envelope, record.job.value);
      assert ReplyFits(reply, w.bound, w.admissions);
      AnswerMovesOn(w, reply);
    } else {
      SameWorldKeeps(w, x, ReplayStep(w, x, record).1);
    }
  }

  lemma ClaimReadKeeps(w: World, x: Handler)
    requires WorldFits(w) && HandlerFits(w, x) && x.pc.Registered?
    ensures HandlerKeeps(w, x, w, ClaimRead(w, x))
  {
    assert Below(w.admissions[x.request], w.admissions[x.request]);
    SameWorldKeeps(w, x, ClaimRead(w, x));
  }

  lemma ClaimKeeps(w: World, x: Handler)
    requires WorldFits(w) && HandlerFits(w, x) && x.pc.Claiming?
    ensures var (w', pc) := ClaimStep(w, x, x.pc.record); HandlerKeeps(w, x, w', pc)
  {
    var (w', pc) := ClaimStep(w, x, x.pc.record);
    if pc.Renamed? {
      ClaimMovesOn(w, x.envelope.path);
    } else {
      SameWorldKeeps(w, x, pc);
    }
  }

  lemma MarkClaimedKeeps(w: World, x: Handler)
    requires WorldFits(w) && HandlerFits(w, x) && x.pc.Renamed?
    ensures HandlerKeeps(w, x, HandlerStep(w, x).0, HandlerStep(w, x).1)
  {
    var update := Transition(w.admissions[x.request], x.pc.record.revision, RequestDecoded, Claimed);
    if update.Some? {
      TransitionMovesOn(w, x.request, x.pc.record.revision, RequestDecoded, Claimed);
    } else {
      SameWorldKeeps(w, x, Failed);
    }
  }

  lemma ConfirmKeeps(w: World, x: Handler)
    requires WorldFits(w) && HandlerFits(w, x) && x.pc.Answered?
    ensures HandlerKeeps(w, x, HandlerStep(w, x).0, HandlerStep(w, x).1)
  {
    assert AdmissionFits(w, w.admissions[x.request]);
    SameWorldKeeps(w, x, HandlerStep(w, x).1);
  }

  lemma ConsumeKeeps(w: World, x: Handler)
    requires WorldFits(w) && HandlerFits(w, x) && x.pc.Consuming?
    ensures HandlerKeeps(w, x, HandlerStep(w, x).0, HandlerStep(w, x).1)
  {
    assert Below(w.admissions[x.request], w.admissions[x.request]);
    SameWorldKeeps(w, x, HandlerStep(w, x).1);
  }

  lemma ClearKeeps(w: World, x: Handler)
    requires WorldFits(w) && HandlerFits(w, x) && x.pc.Clearing?
    ensures var (w', pc) := ClearStep(w, x.pc.record, x.pc.current, x.pc.job); HandlerKeeps(w, x, w', pc)
  {
    var (w', pc) := ClearStep(w, x.pc.record, x.pc.current, x.pc.job);
    var bundle := x.pc.current.bundle;
    assert AdmissionFits(w, w.admissions[x.request]);
    if pc.Removed? && bundle in w.dirs.admitted {
      RemoveMovesOn(w, R.InAdmitted, bundle);
    } else {
      SameWorldKeeps(w, x, pc);
    }
  }

  lemma MarkConsumedKeeps(w: World, x: Handler)
    requires WorldFits(w) && HandlerFits(w, x) && x.pc.Removed?
    ensures HandlerKeeps(w, x, HandlerStep(w, x).0, HandlerStep(w, x).1)
  {
    var update := Transition(w.admissions[x.request], x.pc.record.revision, DurablyAdmitted, Consumed);
    if update.Some? {
      ConsumedIsReplied(w, x, update.value);
    } else {
      SameWorldKeeps(w, x, Failed);
    }
  }

  lemma ConsumedIsReplied(w: World, x: Handler, row: Admission)
    requires WorldFits(w) && HandlerFits(w, x) && x.pc.Removed?
    requires Transition(w.admissions[x.request], x.pc.record.revision, DurablyAdmitted, Consumed) == Some(row)
    ensures row.request == x.request
    ensures HandlerKeeps(w, x, Answer(SetRow(w, row), Reply(x.request, x.role, x.envelope, x.pc.job)), Replied)
  {
    TransitionMovesOn(w, x.request, x.pc.record.revision, DurablyAdmitted, Consumed);
    ReplyKeeps(w, SetRow(w, row), x, x.pc.job);
  }

  lemma ReplyKeeps(w: World, w1: World, x: Handler, job: JobId)
    requires WorldFits(w1) && Onward(w, w1) && w1.jobs == w.jobs && w1.store == w.store
    requires ReplyFits(Reply(x.request, x.role, x.envelope, job), w1.bound, w1.admissions)
    ensures HandlerKeeps(w, x, Answer(w1, Reply(x.request, x.role, x.envelope, job)), Replied)
  {
    var reply := Reply(x.request, x.role, x.envelope, job);
    AnswerMovesOn(w1, reply);
    AnswerAfter(w, w1, reply);
  }

  lemma AnswerAfter(w: World, w1: World, reply: Reply)
    requires Onward(w, w1)
    ensures Onward(w, Answer(w1, reply))
  {
  }

  lemma HandlerStepKeeps(w: World, x: Handler)
    requires WorldFits(w) && HandlerFits(w, x)
    ensures HandlerKeeps(w, x, HandlerStep(w, x).0, HandlerStep(w, x).1)
  {
    match x.pc
    case Arrived => BindKeeps(w, x);
    case Bound => RegisterKeeps(w, x);
    case Validated(_) => InsertKeeps(w, x);
    case Registered(record) =>
      if record.state.DurablyAdmitted? || record.state.Consumed? {
        ReplayKeeps(w, x);
      } else {
        ClaimReadKeeps(w, x);
      }
    case Claiming(_) => ClaimKeeps(w, x);
    case Renamed(_) => MarkClaimedKeeps(w, x);
    case Answered => ConfirmKeeps(w, x);
    case Consuming(_, _) => ConsumeKeeps(w, x);
    case Clearing(_, _, _) => ClearKeeps(w, x);
    case Removed(_, _) => MarkConsumedKeeps(w, x);
    case _ => SameWorldKeeps(w, x, HandlerStep(w, x).1);
  }

  // ---------------------------------------------------- the owner's steps

  /** What a step of the owner keeps. */
  ghost predicate OwnerKeeps(w: World, w': World, owner: Owner) {
    WorldFits(w') && Onward(w, w') && OwnerFits(w', owner)
  }

  lemma SameWorldKeepsOwner(w: World, owner: Owner)
    requires WorldFits(w) && OwnerFits(w, owner)
    ensures OwnerKeeps(w, w, owner)
  {
  }

  lemma OwnerCheckKeeps(w: World, c: Command)
    requires WorldFits(w) && CommandFits(w, c)
    ensures OwnerKeeps(w, w, CheckCommand(w, c))
  {
    assert Below(w.admissions[c.request], w.admissions[c.request]);
    SameWorldKeepsOwner(w, CheckCommand(w, c));
  }

  lemma OwnerImportKeeps(w: World, c: Command, row: Admission, faults: ImportFaults)
    requires WorldFits(w) && OwnerFits(w, Checked(c, row))
    ensures OwnerKeeps(w, ImportInput(w, c, row, faults).0, ImportInput(w, c, row, faults).1)
  {
    var (w', owner) := ImportInput(w, c, row, faults);
    var path := c.envelope.path;
    if JobOf(c) !in w.store && !faults.fails && path in w.dirs.admitted {
      assert AdmissionFits(w, w.admissions[c.request]);
      assert SameLease(w.dirs.admitted[path], w.published[path]);
      NewInputFits(w.store, w.admissions, JobOf(c), w.dirs.admitted[path].payload.digest);
      StoreMovesOn(w, w');
    } else {
      SameWorldKeepsOwner(w, owner);
    }
  }

  lemma NewInputFits(store: map<JobId, Digest>, rows: map<RequestId, Admission>, job: JobId, input: Digest)
    requires StoreFits(store, rows) && job.request in rows
    requires rows[job.request].role == job.role && rows[job.request].payload.digest == input
    ensures StoreFits(store[job := input], rows)
  {
  }

  lemma OwnerCommitKeeps(w: World, c: Command, row: Admission)
    requires WorldFits(w) && CommandFits(w, c) && CommitPossible(w, c, row)
    ensures OwnerKeeps(w, CommitStaged(w, c), Idle)
  {
    CommitMovesOn(w, JobOf(c), Job(c.request, c.role, c.envelope.path, c.envelope.arguments, Some(w.store[JobOf(c)])));
  }

  lemma OwnerDiscardKeeps(w: World, c: Command)
    requires WorldFits(w) && OwnerFits(w, Discarding(c))
    ensures OwnerKeeps(w, DropInput(w, JobOf(c)), Idle)
  {
    DropMovesOn(w, JobOf(c));
  }

  lemma DropMovesOn(w: World, job: JobId)
    requires WorldFits(w) && job !in w.jobs
    ensures WorldFits(DropInput(w, job)) && Onward(w, DropInput(w, job))
  {
    assert StoreFits(w.store - {job}, w.admissions);
    StoreMovesOn(w, DropInput(w, job));
  }

  lemma OwnerMoveKeeps(w: World, owner: Owner, step: Step)
    requires WorldFits(w) && OwnerFits(w, owner)
    ensures OwnerKeeps(w, OwnerMove(w, owner, step).0, OwnerMove(w, owner, step).1)
  {
    if owner.Picked? || owner.Checked? {
      OwnerBeginsKeeps(w, owner, step);
    } else if owner.Imported? {
      OwnerDecidesKeeps(w, owner, step);
    } else if owner.Discarding? && step.OwnerDiscards? && step.revoked {
      OwnerDiscardKeeps(w, owner.command);
    } else {
      SameWorldKeepsOwner(w, if owner.Discarding? && step.OwnerDiscards? then Idle else owner);
    }
  }

  lemma OwnerDecidesKeeps(w: World, owner: Owner, step: Step)
    requires WorldFits(w) && OwnerFits(w, owner) && owner.Imported?
    ensures OwnerKeeps(w, OwnerMove(w, owner, step).0, OwnerMove(w, owner, step).1)
  {
    var c, row := owner.command, owner.record;
    DecisionOf(w, owner, step);
    if step.OwnerCommits? && step.allowed && CommitPossible(w, c, row) {
      OwnerCommitKeeps(w, c, row);
    } else {
      SameWorldKeepsOwner(w, OwnerMove(w, owner, step).1);
    }
  }

  lemma DecisionOf(w: World, owner: Owner, step: Step)
    requires owner.Imported? && OwnerFits(w, owner)
    ensures if step.OwnerCommits? && step.allowed && CommitPossible(w, owner.command, owner.record)
            then OwnerMove(w, owner, step) == (CommitStaged(w, owner.command), Idle)
            else OwnerMove(w, owner, step).0 == w && OwnerFits(w, OwnerMove(w, owner, step).1)
  {
  }

  lemma OwnerBeginsKeeps(w: World, owner: Owner, step: Step)
    requires WorldFits(w) && OwnerFits(w, owner) && (owner.Picked? || owner.Checked?)
    ensures OwnerKeeps(w, OwnerMove(w, owner, step).0, OwnerMove(w, owner, step).1)
  {
    if owner.Picked? && step.OwnerChecks? {
      OwnerCheckKeeps(w, owner.command);
    } else if owner.Checked? && step.OwnerImports? {
      OwnerImportKeeps(w, owner.command, owner.record, step.importing);
    } else {
      OwnerWaitsOrGivesUp(w, owner, step);
      SameWorldKeepsOwner(w, OwnerMove(w, owner, step).1);
    }
  }

  lemma OwnerWaitsOrGivesUp(w: World, owner: Owner, step: Step)
    requires OwnerFits(w, owner) && ((owner.Picked? && !step.OwnerChecks?) || (owner.Checked? && !step.OwnerImports?))
    ensures OwnerMove(w, owner, step).0 == w && OwnerFits(w, OwnerMove(w, owner, step).1)
  {
  }

  // ------------------------------------------------------- reconcile steps

  /** What a step of a pass keeps. */
  ghost predicate PassKeeps(w: World, w': World) {
    WorldFits(w') && Onward(w, w') && w'.jobs == w.jobs && w'.store == w.store
  }

  lemma SameWorldKeepsPass(w: World)
    requires WorldFits(w)
    ensures PassKeeps(w, w)
  {
  }

  /** A record a pass read as handed over still is: its request has a job. */
  lemma HandedOverHasJob(w: World, pass: Pass, phase: R.Phase, name: BundleName)
    requires PassFits(w, pass) && R.HandedOver(phase, Record(pass, name))
    ensures HasJob(w.admissions, name.request)
  {
    assert Below(pass.records[name.request], w.admissions[name.request]);
  }

  lemma VisitKeeps(w: World, pass: Pass, phase: R.Phase, name: BundleName, now: nat, boot: BootId, faults: VisitFaults)
    requires WorldFits(w) && PassFits(w, pass)
    ensures PassKeeps(w, VisitBundle(w, pass, phase, name, now, boot, faults).0)
  {
    var w' := VisitBundle(w, pass, phase, name, now, boot, faults).0;
    var directory := if phase.InDrop? then w.dirs.drop else w.dirs.admitted;
    if w' == w {
      SameWorldKeepsPass(w);
    } else if w' == IsolateBundle(w, phase, name) {
      IsolateMovesOn(w, phase, name);
    } else {
      R.DecideByAuthority(phase, directory[name], Record(pass, name), pass.active, now, boot);
      HandedOverHasJob(w, pass, phase, name);
      RemoveMovesOn(w, phase, name);
    }
  }

  lemma VisitKeepsPass(w: World, pass: Pass, phase: R.Phase, name: BundleName, now: nat, boot: BootId, faults: VisitFaults)
    requires PassFits(w, pass)
    ensures PassFits(w, VisitBundle(w, pass, phase, name, now, boot, faults).1)
  {
  }

  lemma SettleKeeps(w: World, pass: Pass)
    requires WorldFits(w) && PassFits(w, pass)
    ensures PassKeeps(w, SettleRow(w, pass).0)
  {
    if pass.pending.Some? && pass.pending.value.request in w.admissions {
      var owed := pass.pending.value;
      var current := w.admissions[owed.request];
      var expected := if owed.to.Consumed? then DurablyAdmitted else current.state;
      if Transition(current, owed.revision, expected, owed.to).Some? {
        TransitionMovesOn(w, owed.request, owed.revision, expected, owed.to);
      } else {
        SameWorldKeepsPass(w);
      }
    } else {
      SameWorldKeepsPass(w);
    }
  }

  lemma SettleKeepsPass(w: World, pass: Pass)
    requires PassFits(w, pass)
    ensures SettleRow(w, pass).1.Some? ==> PassFits(w, SettleRow(w, pass).1.value)
  {
  }

  lemma RecoverKeeps(w: World, request: RequestId, unreadable: bool)
    requires WorldFits(w)
    ensures WorldFits(RecoverInput(w, request, unreadable)) && Onward(w, RecoverInput(w, request, unreadable))
  {
    if RecoverInput(w, request, unreadable) != w {
      DropMovesOn(w, JobId(request, w.admissions[request].role));
    } else {
      SameWorldKeepsPass(w);
    }
  }

  // ------------------------------------------------------------ every step

  /** The world moved on and every actor of the new state is an old one or fits anew. */
  lemma ActorsMoveOn(s: State, s': State)
    requires ActorsFit(s) && Onward(s.world, s'.world)
    requires forall h :: h in s'.handlers ==> (h in s.handlers && s'.handlers[h] == s.handlers[h]) || HandlerFits(s'.world, s'.handlers[h])
    requires forall c :: c in s'.queue ==> c in s.queue || CommandFits(s'.world, c)
    requires forall p :: p in s'.passes ==> (p in s.passes && s'.passes[p] == s.passes[p]) || PassFits(s'.world, s'.passes[p])
    requires OwnerFits(s'.world, s'.owner)
    requires !s'.up ==> s'.owner.Idle? && s'.queue == {} && s'.handlers == map[]
    ensures ActorsFit(s')
  {
    forall h | h in s'.handlers ensures HandlerFits(s'.world, s'.handlers[h]) {
      if h in s.handlers && s'.handlers[h] == s.handlers[h] {
        HandlerStable(s.world, s'.world, s.handlers[h]);
      }
    }
    forall c | c in s'.queue ensures CommandFits(s'.world, c) {
      if c in s.queue {
        CommandStable(s.world, s'.world, c);
      }
    }
    forall p | p in s'.passes ensures PassFits(s'.world, s'.passes[p]) {
      if p in s.passes && s'.passes[p] == s.passes[p] {
        PassStable(s.world, s'.world, s.passes[p]);
      }
    }
  }

  ghost predicate Keeps(s: State, s': State) {
    Inv(s') && Onward(s.world, s'.world)
  }

  lemma HandlerMovesKeeps(s: State, h: nat)
    requires Inv(s) && h in s.handlers
    ensures Keeps(s, MoveHandler(s, h))
  {
    var s' := MoveHandler(s, h);
    HandlerStepKeeps(s.world, s.handlers[h]);
    OwnerStable(s.world, s'.world, s.owner);
    ActorsMoveOn(s, s');
  }

  /** One pass acted on the world and became `pass`, or ended. */
  lemma PassActed(s: State, p: nat, w: World, pass: Option<Pass>)
    requires Inv(s) && PassKeeps(s.world, w) && (pass.Some? ==> PassFits(s.world, pass.value))
    ensures Keeps(s, s.(world := w, passes := if pass.Some? then s.passes[p := pass.value] else s.passes - {p}))
  {
    if pass.Some? {
      PassStable(s.world, w, pass.value);
    }
    OwnerStable(s.world, w, s.owner);
    ActorsMoveOn(s, s.(world := w, passes := if pass.Some? then s.passes[p := pass.value] else s.passes - {p}));
  }

  lemma PassVisitsKeeps(s: State, step: Step)
    requires Inv(s) && step.PassVisits?
    ensures Keeps(s, Next(s, step))
  {
    if step.p in s.passes {
      var (w, pass) := VisitBundle(s.world, s.passes[step.p], step.phase, step.name, step.now, step.boot, step.faults);
      VisitKeeps(s.world, s.passes[step.p], step.phase, step.name, step.now, step.boot, step.faults);
      VisitKeepsPass(s.world, s.passes[step.p], step.phase, step.name, step.now, step.boot, step.faults);
      PassActed(s, step.p, w, Some(pass));
    } else {
      SameWorldKeepsPass(s.world);
    }
  }

  lemma PassRecordsKeeps(s: State, p: nat)
    requires Inv(s)
    ensures Keeps(s, Next(s, PassRecords(p)))
  {
    if p in s.passes {
      var (w, pass) := SettleRow(s.world, s.passes[p]);
      SettleKeeps(s.world, s.passes[p]);
      SettleKeepsPass(s.world, s.passes[p]);
      PassActed(s, p, w, pass);
    } else {
      SameWorldKeepsPass(s.world);
    }
  }

  lemma OwnerKeepsState(s: State, step: Step)
    requires Inv(s)
    ensures var (w, owner) := OwnerMove(s.world, s.owner, step); Keeps(s, s.(world := w, owner := owner))
  {
    var (w, owner) := OwnerMove(s.world, s.owner, step);
    OwnerMoveKeeps(s.world, s.owner, step);
    ActorsMoveOn(s, s.(world := w, owner := owner));
  }

  lemma ClientKeeps(s: State, w: World)
    requires Inv(s) && WorldFits(w) && Onward(s.world, w) && w.jobs == s.world.jobs && w.store == s.world.store
    ensures Keeps(s, s.(world := w))
  {
    OwnerStable(s.world, w, s.owner);
    ActorsMoveOn(s, s.(world := w));
  }

  lemma PassBeginsKeeps(s: State, p: nat, active: set<RequestId>)
    requires Inv(s)
    ensures Keeps(s, Next(s, PassBegins(p, active)))
  {
    SameWorldKeepsPass(s.world);
    SnapshotFits(s.world, active);
    if p !in s.passes {
      PassActed(s, p, s.world, Some(Pass(s.world.admissions, active, None)));
    }
  }

  /** The steps that only touch the actors. */
  lemma ControlKeeps(s: State, step: Step)
    requires Inv(s)
    requires step.Arrive? || step.HandlerFails? || step.PassEnds? || step.Crash? || step.Start? || step.OwnerPicks?
    ensures Keeps(s, Next(s, step))
  {
    SameWorldKeepsPass(s.world);
    ControlKeepsActors(s, step);
  }

  lemma ControlKeepsActors(s: State, step: Step)
    requires ActorsFit(s)
    requires step.Arrive? || step.HandlerFails? || step.PassEnds? || step.Crash? || step.Start? || step.OwnerPicks?
    ensures ActorsFit(Next(s, step)) && Next(s, step).world == s.world
  {
  }

  lemma SnapshotFits(w: World, active: set<RequestId>)
    requires WorldFits(w)
    ensures PassFits(w, Pass(w.admissions, active, None))
  {
    forall r | r in w.admissions ensures JobFitsState(w.admissions[r]) {
      assert AdmissionFits(w, w.admissions[r]);
    }
  }

  lemma PublishKeeps(s: State, name: BundleName, lease: Lease)
    requires Inv(s)
    ensures Keeps(s, Next(s, Publish(name, lease)))
  {
    PublishMovesOn(s.world, name, lease);
    ClientKeeps(s, PublishBundle(s.world, name, lease));
  }

  lemma TransferKeeps(s: State, name: BundleName)
    requires Inv(s)
    ensures Keeps(s, Next(s, Transfer(name)))
  {
    TransferMovesOn(s.world, name);
    ClientKeeps(s, TransferBundle(s.world, name));
  }

  lemma DiscardKeeps(s: State, name: BundleName)
    requires Inv(s)
    ensures Keeps(s, Next(s, Discard(name)))
  {
    DiscardMovesOn(s.world, name);
    ClientKeeps(s, DiscardBundle(s.world, name));
  }

  lemma ServiceStepKeeps(s: State, step: Step)
    requires Inv(s) && (step.HandlerMoves? || step.PassVisits? || step.PassRecords? || step.PassBegins? || step.Recover?)
    ensures Keeps(s, Next(s, step))
  {
    if step.PassVisits? {
      PassVisitsKeeps(s, step);
    } else if step.PassRecords? {
      PassRecordsKeeps(s, step.p);
    } else if step.PassBegins? {
      PassBeginsKeeps(s, step.p, step.active);
    } else if step.Recover? {
      RecoverKeepsState(s, step.request, step.unreadable);
    } else if step.h in s.handlers {
      HandlerMovesKeeps(s, step.h);
    } else {
      SameWorldKeepsPass(s.world);
    }
  }

  /** Every step keeps the invariant and moves the world on. */
  lemma NextKeeps(s: State, step: Step)
    requires Inv(s)
    ensures Keeps(s, Next(s, step))
  {
    if step.Publish? {
      PublishKeeps(s, step.name, step.lease);
    } else if step.Transfer? {
      TransferKeeps(s, step.name);
    } else if step.Discard? {
      DiscardKeeps(s, step.name);
    } else if step.HandlerMoves? || step.PassVisits? || step.PassRecords? || step.PassBegins? || step.Recover? {
      ServiceStepKeeps(s, step);
    } else if step.Arrive? || step.HandlerFails? || step.PassEnds? || step.Crash? || step.Start? || step.OwnerPicks? {
      ControlKeeps(s, step);
    } else {
      OwnerKeepsState(s, step);
    }
  }

  lemma RecoverKeepsState(s: State, request: RequestId, unreadable: bool)
    requires Inv(s)
    ensures Keeps(s, Next(s, Recover(request, unreadable)))
  {
    if s.up {
      SameWorldKeepsPass(s.world);
    } else {
      RecoverKeeps(s.world, request, unreadable);
      ActorsMoveOn(s, s.(world := RecoverInput(s.world, request, unreadable)));
    }
  }

  lemma OnwardTransitive(w: World, w1: World, w2: World)
    requires Onward(w, w1) && Onward(w1, w2)
    ensures Onward(w, w2)
  {
    forall r | r in w.admissions ensures r in w2.admissions && Below(w.admissions[r], w2.admissions[r]) {
      assert Below(w.admissions[r], w1.admissions[r]) && Below(w1.admissions[r], w2.admissions[r]);
    }
    forall name | Kept(w.dirs, name) ensures Kept(w2.dirs, name) || HasJob(w2.admissions, name.request) {
      if !Kept(w1.dirs, name) {
        assert Below(w1.admissions[name.request], w2.admissions[name.request]);
      }
    }
  }

  lemma {:induction false} RunKeeps(s: State, steps: seq<Step>)
    requires Inv(s)
    ensures Keeps(s, Run(s, steps))
    decreases |steps|
  {
    if steps == [] {
      SameWorldKeepsPass(s.world);
    } else {
      NextKeeps(s, steps[0]);
      RunKeeps(Next(s, steps[0]), steps[1..]);
      OnwardTransitive(s.world, Next(s, steps[0]).world, Run(s, steps).world);
    }
  }

  // -------------------------------------------------------------- theorems

  /**
   Exactly-once admission. However requests, replays, passes, failures and
   crashes interleave, one request has at most one job, and all its successful
   replies name that job and carried the envelope the request was bound to.
   */
  lemma ExactlyOnce(steps: seq<Step>)
    ensures var w := Run(INITIAL, steps).world;
            && (forall j, k :: j in w.jobs && k in w.jobs && j.request == k.request ==> j == k)
            && (forall a, b :: a in w.replies && b in w.replies && a.request == b.request ==>
                  a.job == b.job && a.role == b.role && a.envelope == b.envelope)
            && (forall a :: a in w.replies ==>
                  && a.job == JobId(a.request, a.role) && a.job in w.jobs
                  && w.jobs[a.job].bundle == a.envelope.path && w.jobs[a.job].arguments == a.envelope.arguments)
  {
    var w := Run(INITIAL, steps).world;
    RunKeeps(INITIAL, steps);
    forall a | a in w.replies
      ensures a.request in w.admissions && w.admissions[a.request].role == a.role && a.job == JobId(a.request, a.role)
      ensures a.job in w.jobs && w.bound[Ticket(a.request, a.role)] == a.envelope
      ensures w.jobs[a.job].bundle == a.envelope.path && w.jobs[a.job].arguments == a.envelope.arguments
    {
      assert ReplyFits(a, w.bound, w.admissions);
      assert AdmissionFits(w, w.admissions[a.request]);
    }
  }

  /** What is answered stays so: jobs, bindings, replies and the identity of every record outlive any further run. */
  lemma AdmissionIsPermanent(earlier: seq<Step>, later: seq<Step>)
    ensures var w := Run(INITIAL, earlier).world; var w' := Run(Run(INITIAL, earlier), later).world;
            && Grows(w.jobs, w'.jobs) && Grows(w.bound, w'.bound) && w.replies <= w'.replies
            && RowsMoveOn(w.admissions, w'.admissions)
  {
    RunKeeps(INITIAL, earlier);
    RunKeeps(Run(INITIAL, earlier), later);
  }

  predicate LiesIn(directory: map<BundleName, Lease>, name: BundleName, payload: Payload) {
    name in directory && directory[name].payload == payload
  }

  /** The job committed for the record holds its bytes as its input artifact. */
  predicate JobHolds(w: World, a: Admission) {
    && a.job.Some? && a.job.value in w.jobs && w.jobs[a.job.value].input == Some(a.payload.digest)
    && a.job.value in w.store && w.store[a.job.value] == a.payload.digest
  }

  /**
   No payload is lost. From the step that records a request as decoded, at every
   later step, its bytes are in drop out of the client's reach, in admitted or in
   quarantine, or a committed job holds them as its input.
   */
  lemma NoPayloadLost(decoding: seq<Step>, later: seq<Step>, request: RequestId)
    requires request in Run(INITIAL, decoding).world.admissions
    ensures var a := Run(INITIAL, decoding).world.admissions[request];
            var w := Run(Run(INITIAL, decoding), later).world;
            && request in w.admissions && w.admissions[request].payload == a.payload && w.admissions[request].bundle == a.bundle
            && (|| (LiesIn(w.dirs.drop, a.bundle, a.payload) && w.dirs.drop[a.bundle].state.DispatchUncertain?)
                || LiesIn(w.dirs.admitted, a.bundle, a.payload)
                || LiesIn(w.dirs.quarantine, a.bundle, a.payload)
                || JobHolds(w, w.admissions[request]))
  {
    var s := Run(INITIAL, decoding);
    RunKeeps(INITIAL, decoding);
    RunKeeps(s, later);
    var w := Run(s, later).world;
    assert Below(s.world.admissions[request], w.admissions[request]);
    Whereabouts(w, w.admissions[request]);
  }

  lemma Whereabouts(w: World, a: Admission)
    requires FilesFit(w.dirs, w.published) && AdmissionFits(w, a)
    ensures || (LiesIn(w.dirs.drop, a.bundle, a.payload) && w.dirs.drop[a.bundle].state.DispatchUncertain?)
            || LiesIn(w.dirs.admitted, a.bundle, a.payload)
            || LiesIn(w.dirs.quarantine, a.bundle, a.payload)
            || JobHolds(w, a)
  {
  }

  /** The comparison of a durable replay with its job never fails for the bound envelope. */
  lemma ExactReplayAlwaysMatches(steps: seq<Step>, request: RequestId)
    requires var w := Run(INITIAL, steps).world; request in w.admissions && w.admissions[request].job.Some?
    ensures var w := Run(INITIAL, steps).world; var a := w.admissions[request];
            && Ticket(request, a.role) in w.bound
            && ReplayMatches(w, a, a.role, w.bound[Ticket(request, a.role)])
  {
    RunKeeps(INITIAL, steps);
    var w := Run(INITIAL, steps).world;
    assert AdmissionFits(w, w.admissions[request]);
  }

  /** The owner never creates a job without its admission. */
  lemma NoUnstagedJob(steps: seq<Step>)
    ensures var s := Run(INITIAL, steps);
            && !s.owner.Unstaged?
            && forall j :: j in s.world.jobs ==> j.request in s.world.admissions && s.world.admissions[j.request].job == Some(j)
  {
    RunKeeps(INITIAL, steps);
  }

  /** Startup takes the promoted input of a claimed record away, if it can be read and is the record's own. */
  lemma RecoveryRevokes(steps: seq<Step>, request: RequestId)
    requires var w := Run(INITIAL, steps).world; request in w.admissions && w.admissions[request].state.Claimed?
    ensures var w := Run(INITIAL, steps).world; var job := JobId(request, w.admissions[request].role);
            && job !in RecoverInput(w, request, false).store
            && RecoverInput(w, request, false) == w.(store := w.store - {job})
            && RecoverInput(w, request, true) == w
  {
    RunKeeps(INITIAL, steps);
    var w := Run(INITIAL, steps).world;
    assert AdmissionFits(w, w.admissions[request]);
    RowRecovers(w, request);
  }

  lemma RowRecovers(w: World, request: RequestId)
    requires request in w.admissions && w.admissions[request].state.Claimed? && w.admissions[request].job.None?
    requires StoreFits(w.store, w.admissions) && JobsFit(w.jobs, w.admissions)
    ensures var job := JobId(request, w.admissions[request].role);
            RecoverInput(w, request, false) == w.(store := w.store - {job}) && RecoverInput(w, request, true) == w
  {
    var job := JobId(request, w.admissions[request].role);
    assert job !in w.store ==> w.store - {job} == w.store;
  }

  /** A client can take back what was never dispatched, and only that. */
  lemma UnsentCanBeTakenBack(w: World, name: BundleName)
    ensures name in DiscardBundle(w, name).dirs.drop <==> name in w.dirs.drop && w.dirs.drop[name].state.DispatchUncertain?
  {
  }

  /** An input the owner imported and did not commit is gone after its discard. */
  lemma UncommittedInputIsDiscarded(w: World, c: Command, row: Admission)
    requires !CommitPossible(w, c, row)
    ensures var (w1, o1) := OwnerMove(w, Imported(c, row, true), OwnerCommits(true));
            var (w2, o2) := OwnerMove(w1, o1, OwnerDiscards(true));
            w1 == w && o2.Idle? && JobOf(c) !in w2.store && w2.jobs == w.jobs && w2.admissions == w.admissions
  {
  }
}
