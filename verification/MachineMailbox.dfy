/**
 The machine coordinator's mailbox: admission, withdrawal, stop and the end of
 the owner thread, in every interleaving.

 Lock regions are atomic steps, with one exception that matters: stop() drains
 the mailbox while it holds the state lock, but the owner's final drain does not
 take that lock, so the two run side by side. Stop is therefore several steps
 here, and the steps that need the state lock wait for it.
 */
module MachineMailbox {
  import opened Wrappers

  datatype EnvelopeState = Queued | Admitting | Committed | Withdrawn

  type Outcome = string

  datatype Envelope = Envelope(
    deadline: int,
    state: EnvelopeState,
    acknowledged: bool,
    projectionReady: bool,
    result: Option<Outcome>,
    error: Option<string>)

  function NewEnvelope(deadline: int): Envelope {
    Envelope(deadline, Queued, false, false, None, None)
  }

  // --------------------------------------------------- the lock regions

  function BeginAdmission(e: Envelope): (Envelope, bool) {
    if e.state.Queued? then (e.(state := Admitting), true) else (e, false)
  }

  function WithdrawQueued(e: Envelope): (Envelope, bool) {
    if e.state.Queued? then (e.(state := Withdrawn), true) else (e, false)
  }

  function RejectQueued(e: Envelope, error: string): (Envelope, bool) {
    if e.state.Queued?
    then (e.(state := Withdrawn, error := Some(error), acknowledged := true, projectionReady := true), true)
    else (e, false)
  }

  function Commit(e: Envelope, result: Outcome): (Envelope, bool) {
    if e.state.Withdrawn? then (e, false)
    else (e.(state := Committed, result := Some(result), acknowledged := true), true)
  }

  function Fail(e: Envelope, error: string): Envelope {
    if e.state.Withdrawn? || e.state.Committed? then e
    else e.(error := Some(error), acknowledged := true, projectionReady := true)
  }

  /** What the admission is told when it asks whether its caller still waits. */
  predicate StillRequested(e: Envelope, now: int) {
    e.state.Admitting? && now < e.deadline
  }

  /** An envelope is acknowledged exactly when it has an answer, and has a result exactly when committed. */
  predicate Answered(e: Envelope) {
    (e.acknowledged <==> e.error.Some? || e.result.Some?) && (e.state.Committed? <==> e.result.Some?)
  }

  // ------------------------------------------- any calls, in any order

  datatype Region = AskBegin | AskWithdraw | AskReject(reason: string) | AskCommit(outcome: Outcome) | AskFail(reason: string)

  function Enter(e: Envelope, r: Region): Envelope {
    match r
    case AskBegin => BeginAdmission(e).0
    case AskWithdraw => WithdrawQueued(e).0
    case AskReject(reason) => RejectQueued(e, reason).0
    case AskCommit(outcome) => Commit(e, outcome).0
    case AskFail(reason) => Fail(e, reason)
  }

  function EnterAll(e: Envelope, rs: seq<Region>): Envelope
    decreases |rs|
  {
    if rs == [] then e else EnterAll(Enter(e, rs[0]), rs[1..])
  }

  /** A call that takes the envelope out of the queue and is told so. */
  predicate Wins(e: Envelope, r: Region) {
    match r
    case AskBegin => BeginAdmission(e).1
    case AskWithdraw => WithdrawQueued(e).1
    case AskReject(reason) => RejectQueued(e, reason).1
    case _ => false
  }

  function Winners(e: Envelope, rs: seq<Region>): nat
    decreases |rs|
  {
    if rs == [] then 0 else (if Wins(e, rs[0]) then 1 else 0) + Winners(Enter(e, rs[0]), rs[1..])
  }

  /** Of all calls to begin, withdraw or reject, in any order and between any others, at most one wins. */
  lemma {:induction false} QueueIsLeftOnce(e: Envelope, rs: seq<Region>)
    ensures Winners(e, rs) <= if e.state.Queued? then 1 else 0
    decreases |rs|
  {
    if rs != [] {
      QueueIsLeftOnce(Enter(e, rs[0]), rs[1..]);
    }
  }

  /**
   No calls take an answer back: a withdrawn envelope is never changed again, a
   committed one stays committed and never gets an error, an acknowledged one
   stays acknowledged, and acknowledged keeps meaning answered.
   */
  lemma {:induction false} AnswersStand(e: Envelope, rs: seq<Region>)
    requires Answered(e)
    ensures var e' := EnterAll(e, rs);
            && Answered(e')
            && (e.state.Withdrawn? ==> e' == e)
            && (e.state.Committed? ==> e'.state.Committed? && e'.error == e.error)
            && (e.acknowledged ==> e'.acknowledged) && (e.projectionReady ==> e'.projectionReady)
    decreases |rs|
  {
    if rs != [] {
      AnswersStand(Enter(e, rs[0]), rs[1..]);
    }
  }

  /** Once an envelope past the queue is no longer requested, it never is again. */
  lemma {:induction false} NoLongerRequestedStays(e: Envelope, now: int, rs: seq<Region>, later: int)
    requires !e.state.Queued? && !StillRequested(e, now) && now <= later
    ensures !StillRequested(EnterAll(e, rs), later)
    decreases |rs|
  {
    if rs != [] {
      NoLongerRequestedStays(Enter(e, rs[0]), now, rs[1..], later);
    }
  }

  class MachineEnvelope {
    const deadline: int
    var state: EnvelopeState
    var acknowledged: bool
    var projectionReady: bool
    var result: Option<Outcome>
    var error: Option<string>

    ghost function Contents(): (e: Envelope)
      reads this
    {
      Envelope(deadline, state, acknowledged, projectionReady, result, error)
    }

    constructor (deadline: int)
      ensures Contents() == NewEnvelope(deadline)
    {
      this.deadline := deadline;
      state, acknowledged, projectionReady, result, error := Queued, false, false, None, None;
    }

    method Begin() returns (begun: bool)
      modifies this
      ensures !state.Queued? && (begun <==> old(state).Queued?) && (begun ==> state.Admitting?)
      ensures old(Answered(Contents())) ==> Answered(Contents())
      ensures (Contents(), begun) == BeginAdmission(old(Contents()))
    {
      if state != Queued {
        return false;
      }
      state := Admitting;
      return true;
    }

    method Withdraw() returns (withdrawn: bool)
      modifies this
      ensures !state.Queued? && (withdrawn <==> old(state).Queued?) && (withdrawn ==> state.Withdrawn?)
      ensures old(Answered(Contents())) ==> Answered(Contents())
      ensures (Contents(), withdrawn) == WithdrawQueued(old(Contents()))
    {
      if state != Queued {
        return false;
      }
      state := Withdrawn;
      return true;
    }

    method Reject(reason: string) returns (rejected: bool)
      modifies this
      ensures !state.Queued? && (rejected <==> old(state).Queued?) && (rejected ==> state.Withdrawn? && acknowledged && projectionReady)
      ensures old(Answered(Contents())) ==> Answered(Contents())
      ensures (Contents(), rejected) == RejectQueued(old(Contents()), reason)
    {
      if state != Queued {
        return false;
      }
      state := Withdrawn;
      error := Some(reason);
      acknowledged, projectionReady := true, true;
      return true;
    }

    method MarkCommitted(outcome: Outcome) returns (committed: bool)
      modifies this
      ensures committed <==> state.Committed?
      ensures old(Answered(Contents())) ==> Answered(Contents())
      ensures (Contents(), committed) == Commit(old(Contents()), outcome)
    {
      if state == Withdrawn {
        return false;
      }
      state := Committed;
      result := Some(outcome);
      acknowledged := true;
      return true;
    }

    method MarkFailed(reason: string)
      modifies this
      ensures old(Answered(Contents())) ==> Answered(Contents()) && result == old(result)
      ensures state == old(state) && (state.Admitting? ==> acknowledged && projectionReady)
      ensures Contents() == Fail(old(Contents()), reason)
    {
      if state == Withdrawn || state == Committed {
        return;
      }
      error := Some(reason);
      acknowledged, projectionReady := true, true;
    }
  }

  // -------------------------------------------------------- the protocol

  type Id = nat

  datatype Caller = Waiting | WaitExpired | Woken | TimeoutRaised | ErrorRaised(error: string)
                  | Returned(result: Outcome) | NoResult

  /** An accepted envelope, its caller, and how often it entered admission. */
  datatype Submission = Submission(envelope: Envelope, caller: Caller, entered: nat)

  datatype Item = Command(id: Id) | StopItem

  datatype Owner =
    | Looping
    | Popped(id: Id)          // taken from the mailbox, not yet claimed
    | Admission(id: Id)       // claimed, inside the chain's admission
    | Publishing(id: Id)      // committed, inside the block that ends by setting the wake-up
    | Driving(id: Id)         // wake-up set, driving the admitted action
    | Failing(id: Id)         // an error left processing; the fatal flag is next
    | Checking                // about to read the stop flag
    | Draining                // the final drain
    | Discarding(id: Id)      // popped by the final drain, not yet rejected
    | Ended

  datatype Stopper =
    | NotCalled
    | Emptying                // holds the state lock, flag set
    | Holding(id: Id)         // holds the state lock and one popped envelope
    | Joining
    | Joined

  datatype State = State(
    submissions: map<Id, Submission>,
    mailbox: seq<Item>,
    stopping: bool,
    fatal: bool,
    owner: Owner,
    stopper: Stopper)
  {
    predicate LockFree() {
      !stopper.Emptying? && !stopper.Holding?
    }

    /** The guard every submission passes under the state lock. */
    predicate Accepts() {
      LockFree() && !stopping && !fatal && !stopper.Joined?
    }
  }

  const INITIAL := State(map[], [], false, false, Looping, NotCalled)

  /** What the chain's admission did with a claimed command. */
  datatype Admit = Accepted(result: Outcome, driven: bool) | Refused(error: string) | Broken(error: string)

  datatype Step =
    | Submit(id: Id, deadline: int)
    | WaitReturns(id: Id)
    | WithdrawCall(id: Id)
    | ReadOutcome(id: Id)
    | OwnerGets
    | OwnerClaims
    | OwnerAdmits(admit: Admit)
    | OwnerPublishes(succeeds: bool, driven: bool)
    | OwnerDrives(succeeds: bool)
    | OwnerSetsFatal
    | OwnerChecksStop
    | OwnerDrains(closeFails: bool)
    | OwnerDiscards
    | StopBegins
    | StopDrains
    | StopRejects
    | StopJoins

  const STOPPED := "MACHINE_COORDINATOR_STOPPED"

  // ------------------------------------------------- on the envelope itself

  /** The claim under the state lock: with the stop flag set a queued envelope is answered, never begun. */
  method ClaimAdmission(env: MachineEnvelope, stopping: bool) returns (claimed: bool)
    modifies env
    ensures !env.state.Queued? && (claimed <==> !stopping && old(env.state).Queued?) && (claimed ==> env.state.Admitting?)
    ensures stopping && old(env.state).Queued? ==> env.state.Withdrawn? && env.acknowledged && env.error == Some(STOPPED)
    ensures !old(env.state).Queued? ==> env.Contents() == old(env.Contents())
  {
    if stopping {
      var rejected := env.Reject(STOPPED);
      return false;
    }
    claimed := env.Begin();
  }

  /** The drain: every envelope taken from the mailbox leaves the queue, the queued ones answered and woken. */
  method RejectQueuedCommands(items: seq<MachineEnvelope>)
    modifies set env | env in items
    ensures forall env :: env in items ==>
              env.Contents() == if old(env.state).Queued? then RejectQueued(old(env.Contents()), STOPPED).0 else old(env.Contents())
    ensures forall env :: env in items ==> !env.state.Queued? && (env.state.Withdrawn? && !old(env.state).Withdrawn? ==> env.acknowledged)
  {
    for i := 0 to |items|
      invariant forall env :: env in items ==>
                  env.Contents() == if env in items[..i] && old(env.state).Queued? then RejectQueued(old(env.Contents()), STOPPED).0
                                    else old(env.Contents())
    {
      assert items[..i + 1] == items[..i] + [items[i]];
      var rejected := items[i].Reject(STOPPED);
    }
    assert items[..|items|] == items;
  }

  /** The answer to a claimed envelope: committed with its result, or failed and woken; never both. */
  method AnswerAdmission(env: MachineEnvelope, admit: Admit)
    requires env.state.Admitting? && Answered(env.Contents()) && !env.acknowledged
    modifies env
    ensures Answered(env.Contents()) && env.acknowledged
    ensures env.state.Committed? <==> admit.Accepted?
    ensures admit.Accepted? ==> env.result == Some(admit.result) && env.error.None?
    ensures !admit.Accepted? ==> env.error == Some(admit.error) && env.result.None? && env.projectionReady
  {
    match admit
    case Accepted(result, _) =>
      var committed := env.MarkCommitted(result);
    case Refused(error) =>
      env.MarkFailed(error);
    case Broken(error) =>
      env.MarkFailed(error);
  }

  /** The end of a call after its wait: a timed-out one leaves nothing queued, a woken one finds its answer. */
  method FinishCall(env: MachineEnvelope, woken: bool) returns (end: Caller)
    requires Answered(env.Contents()) && (woken ==> env.acknowledged)
    modifies env
    ensures Answered(env.Contents())
    ensures end.TimeoutRaised? <==> !woken
    ensures end.TimeoutRaised? ==> !env.state.Queued? && (old(env.state).Queued? ==> env.state.Withdrawn?)
    ensures woken ==> env.Contents() == old(env.Contents())
    ensures match end
            case TimeoutRaised => true
            case ErrorRaised(error) => env.error == Some(error)
            case Returned(result) => env.error.None? && env.result == Some(result)
            case _ => false
  {
    if !woken {
      var withdrawn := env.Withdraw();
      return TimeoutRaised;
    }
    if env.error.Some? {
      return ErrorRaised(env.error.value);
    }
    return if env.result.Some? then Returned(env.result.value) else NoResult;
  }

  function SetEnvelope(s: State, id: Id, e: Envelope): State
    requires id in s.submissions
  {
    s.(submissions := s.submissions[id := s.submissions[id].(envelope := e)])
  }

  /** One atomic step; a step that is not enabled changes nothing. */
  function Next(s: State, step: Step): State {
    match step
    case Submit(id, deadline) =>
      if id in s.submissions || !s.Accepts() then s
      else s.(submissions := s.submissions[id := Submission(NewEnvelope(deadline), Waiting, 0)],
              mailbox := s.mailbox + [Command(id)])
    case WaitReturns(id) => if id in s.submissions then CallerStep(s, id, step) else s
    case WithdrawCall(id) => if id in s.submissions then CallerStep(s, id, step) else s
    case ReadOutcome(id) => if id in s.submissions then CallerStep(s, id, step) else s
    case StopBegins => StopStep(s, step)
    case StopDrains => StopStep(s, step)
    case StopRejects => StopStep(s, step)
    case StopJoins => StopStep(s, step)
    case _ => OwnerStep(s, step)
  }

  /** A step of the caller on its own submission. */
  function Called(c: Submission, step: Step): Submission {
    match (c.caller, step)
    case (Waiting, WaitReturns(_)) => c.(caller := if c.envelope.acknowledged then Woken else WaitExpired)
    case (WaitExpired, WithdrawCall(_)) => c.(envelope := WithdrawQueued(c.envelope).0, caller := TimeoutRaised)
    case (Woken, ReadOutcome(_)) =>
      c.(caller := if c.envelope.error.Some? then ErrorRaised(c.envelope.error.value)
                   else if c.envelope.result.Some? then Returned(c.envelope.result.value)
                   else NoResult)
    case _ => c
  }

  function CallerStep(s: State, id: Id, step: Step): State
    requires id in s.submissions
  {
    s.(submissions := s.submissions[id := Called(s.submissions[id], step)])
  }

  function StopStep(s: State, step: Step): State {
    match (s.stopper, step)
    case (NotCalled, StopBegins) => s.(stopping := true, stopper := Emptying)
    case (Emptying, StopDrains) =>
      if s.mailbox != [] then
        if s.mailbox[0].Command? then s.(mailbox := s.mailbox[1..], stopper := Holding(s.mailbox[0].id))
        else s.(mailbox := s.mailbox[1..])
      else if s.owner.Ended? then s.(stopper := Joining)
      else s.(mailbox := [StopItem], stopper := Joining)
    case (Holding(id), StopRejects) =>
      if id in s.submissions
      then SetEnvelope(s, id, RejectQueued(s.submissions[id].envelope, STOPPED).0).(stopper := Emptying)
      else s
    case (Joining, StopJoins) => if s.owner.Ended? then s.(stopper := Joined, stopping := false) else s
    case _ => s
  }

  function OwnerStep(s: State, step: Step): State {
    if HasId(s.owner) then
      if s.owner.id in s.submissions then OwnerHandles(s, s.owner.id, s.submissions[s.owner.id], step) else s
    else match (s.owner, step)
    case (Looping, OwnerGets) =>
      if s.mailbox == [] then s
      else if s.mailbox[0].StopItem? then s.(mailbox := s.mailbox[1..], owner := Draining)
      else s.(mailbox := s.mailbox[1..], owner := Popped(s.mailbox[0].id))
    case (Checking, OwnerChecksStop) =>
      if s.LockFree() then s.(owner := if s.stopping then Draining else Looping) else s
    case (Draining, OwnerDrains(closeFails)) =>
      if s.mailbox != [] then
        if s.mailbox[0].Command? then s.(mailbox := s.mailbox[1..], owner := Discarding(s.mailbox[0].id))
        else s.(mailbox := s.mailbox[1..])
      else if !closeFails then s.(owner := Ended)
      else if s.LockFree() then s.(owner := Ended, fatal := true)
      else s
    case _ => s
  }

  predicate HasId(owner: Owner) {
    owner.Popped? || owner.Admission? || owner.Publishing? || owner.Driving? || owner.Failing? || owner.Discarding?
  }

  /** A step of the owner on the submission it holds; `free` is whether the state lock is. */
  function Handled(c: Submission, owner: Owner, stopping: bool, free: bool, step: Step): (Submission, Owner) {
    var e := c.envelope;
    match (owner, step)
    case (Popped(id), OwnerClaims) =>
      if !free then (c, owner)
      else if stopping then (c.(envelope := RejectQueued(e, STOPPED).0), Checking)
      else
        var (e', begun) := BeginAdmission(e);
        if begun then (c.(envelope := e', entered := c.entered + 1), Admission(id)) else (c, Checking)
    case (Admission(id), OwnerAdmits(Accepted(result, _))) => (c.(envelope := Commit(e, result).0), Publishing(id))
    case (Admission(_), OwnerAdmits(Refused(error))) => (c.(envelope := Fail(e, error)), Checking)
    case (Admission(id), OwnerAdmits(Broken(error))) => (c.(envelope := Fail(e, error)), Failing(id))
    case (Publishing(id), OwnerPublishes(succeeds, driven)) =>
      (c.(envelope := e.(projectionReady := true)),
       if !succeeds then Failing(id) else if driven then Driving(id) else Checking)
    case (Driving(id), OwnerDrives(succeeds)) => (c, if succeeds then Checking else Failing(id))
    case (Failing(_), OwnerSetsFatal) => (c, if free then Draining else owner)
    case (Discarding(_), OwnerDiscards) => (c.(envelope := RejectQueued(e, STOPPED).0), Draining)
    case _ => (c, owner)
  }

  function OwnerHandles(s: State, id: Id, c: Submission, step: Step): State
    requires id in s.submissions
  {
    var (c', owner) := Handled(c, s.owner, s.stopping, s.LockFree(), step);
    s.(submissions := s.submissions[id := c'], owner := owner, fatal := s.fatal || (s.owner.Failing? && owner.Draining?))
  }

  function Run(s: State, steps: seq<Step>): State
    decreases |steps|
  {
    if steps == [] then s else Run(Next(s, steps[0]), steps[1..])
  }

  // ----------------------------------------------------------- invariant

  predicate OwnerHolds(s: State, id: Id) {
    HasId(s.owner) && s.owner.id == id
  }

  predicate StopperHolds(s: State, id: Id) {
    s.stopper == Holding(id)
  }

  predicate InMailbox(s: State, id: Id) {
    Command(id) in s.mailbox
  }

  predicate NoCommandIn(mailbox: seq<Item>) {
    forall i :: 0 <= i < |mailbox| ==> mailbox[i].StopItem?
  }

  /** Not yet claimed by anyone: still queued, or withdrawn by its caller's timeout. */
  ghost predicate Unclaimed(c: Submission) {
    var e := c.envelope;
    && c.entered == 0 && (e.state.Queued? || e.state.Withdrawn?)
    && !e.acknowledged && e.result.None? && e.error.None?
  }

  /** Withdrawn, or answered; a committed one has its wake-up set. */
  ghost predicate Finished(c: Submission) {
    var e := c.envelope;
    && (e.state.Withdrawn? || e.acknowledged)
    && (e.state.Committed? ==> e.projectionReady)
    && !e.state.Queued?
  }

  ghost predicate HeldFits(c: Submission, owner: Owner) {
    var e := c.envelope;
    match owner
    case Popped(_) => Unclaimed(c)
    case Discarding(_) => Unclaimed(c)
    case Admission(_) => e.state.Admitting? && !e.acknowledged && e.error.None? && e.result.None?
    case Publishing(_) => e.state.Committed?
    case Driving(_) => Finished(c)
    case Failing(_) => Finished(c)
    case _ => true
  }

  ghost predicate EnvelopeFits(c: Submission) {
    var e := c.envelope;
    && (e.acknowledged <==> e.error.Some? || e.result.Some?)
    && (e.error.Some? ==> e.result.None? && e.projectionReady)
    && (e.state.Committed? <==> e.result.Some?)
    && (e.state.Withdrawn? && e.error.None? ==> c.caller.TimeoutRaised?)
    && c.entered == (if e.state.Admitting? || e.state.Committed? then 1 else 0)
    && match c.caller
       case Woken => e.acknowledged
       case ErrorRaised(error) => e.error == Some(error)
       case Returned(result) => e.result == Some(result)
       case TimeoutRaised => !e.state.Queued?
       case NoResult => false
       case _ => true
  }

  ghost predicate Fits(s: State, id: Id)
    requires id in s.submissions
  {
    var c := s.submissions[id];
    && EnvelopeFits(c)
    && (OwnerHolds(s, id) ==> HeldFits(c, s.owner) && !InMailbox(s, id) && !StopperHolds(s, id))
    && (StopperHolds(s, id) ==> Unclaimed(c) && !InMailbox(s, id))
    && (InMailbox(s, id) ==> Unclaimed(c))
    && (!OwnerHolds(s, id) && !StopperHolds(s, id) && !InMailbox(s, id) ==> Finished(c))
  }

  ghost predicate AllFit(s: State) {
    forall id :: id in s.submissions ==> Fits(s, id)
  }

  /** The owner leaves its loop only once nothing more can be accepted. */
  ghost predicate ControlFits(s: State) {
    && (forall i, j :: 0 <= i < j < |s.mailbox| && s.mailbox[i].Command? ==> s.mailbox[i] != s.mailbox[j])
    && (forall id :: InMailbox(s, id) || OwnerHolds(s, id) || StopperHolds(s, id) ==> id in s.submissions)
    && (s.stopping <==> !s.stopper.NotCalled? && !s.stopper.Joined?)
    && (StopItem in s.mailbox ==> s.stopper.Joining? || s.stopper.Joined?)
    && (s.owner.Draining? || s.owner.Discarding? || s.owner.Ended? ==> s.stopping || s.fatal || s.stopper.Joined?)
    && (s.owner.Ended? ==> NoCommandIn(s.mailbox))
    && (s.stopper.Joined? ==> s.owner.Ended?)
    && (s.fatal ==> s.owner.Draining? || s.owner.Discarding? || s.owner.Ended?)
    && (s.stopper.Joining? ==> NoCommandIn(s.mailbox))
  }

  ghost predicate Inv(s: State) {
    ControlFits(s) && AllFit(s)
  }

  // -------------------------------------------------------------- proof

  /** What a step never undoes: admission is entered from the queue only, and never once stop was called. */
  ghost predicate Follows(s: State, s': State, id: Id)
    requires id in s.submissions
  {
    && id in s'.submissions
    && var c, c' := s.submissions[id], s'.submissions[id];
    && c.entered <= c'.entered
    && (c.envelope.state.Withdrawn? ==> c'.envelope.state.Withdrawn? && c'.entered == c.entered)
    && (!s.stopper.NotCalled? ==> c'.entered == c.entered)
    && (c.envelope.state.Committed? ==> c'.envelope.result == c.envelope.result)
    && (c.caller.TimeoutRaised? || c.caller.ErrorRaised? || c.caller.Returned? ==> c'.caller == c.caller)
  }

  ghost predicate AllFollow(s: State, s': State) {
    && (s'.stopper.NotCalled? ==> s.stopper.NotCalled?)
    && forall id :: id in s.submissions ==> Follows(s, s', id)
  }

  /** Nothing that `Fits` reads about `id` has changed. */
  ghost predicate SameFor(s: State, s': State, id: Id) {
    && id in s.submissions && id in s'.submissions && s'.submissions[id] == s.submissions[id]
    && (OwnerHolds(s', id) <==> OwnerHolds(s, id)) && (OwnerHolds(s, id) ==> s'.owner == s.owner)
    && (InMailbox(s', id) <==> InMailbox(s, id))
    && (StopperHolds(s', id) <==> StopperHolds(s, id))
  }

  lemma Frame(s: State, s': State, id: Id)
    requires AllFit(s) && ControlFits(s') && s'.submissions.Keys == s.submissions.Keys
    requires s'.stopper.NotCalled? ==> s.stopper.NotCalled?
    requires forall other :: other in s.submissions && other != id ==> SameFor(s, s', other)
    requires id in s.submissions ==> Fits(s', id) && Follows(s, s', id)
    ensures Inv(s') && AllFollow(s, s')
  {
    forall c | c in s.submissions ensures Fits(s', c) && Follows(s, s', c) {
      if c != id {
        assert SameFor(s, s', c) && Fits(s, c);
      }
    }
  }

  lemma CallerStepKeepsInv(s: State, id: Id, step: Step)
    requires Inv(s) && id in s.submissions
    ensures Inv(CallerStep(s, id, step)) && AllFollow(s, CallerStep(s, id, step))
  {
    var s' := CallerStep(s, id, step);
    assert Fits(s, id);
    CallerStepFits(s, id, step);
    CallerStepFollows(s, id, step);
    forall other | other in s.submissions && other != id ensures SameFor(s, s', other) {
    }
    assert ControlFits(s');
    Frame(s, s', id);
  }

  /** Whatever stage the submission is in, its caller's step keeps it there. */
  lemma CalledFits(c: Submission, owner: Owner, step: Step)
    requires EnvelopeFits(c)
    ensures var c' := Called(c, step);
            && EnvelopeFits(c') && (Unclaimed(c) ==> Unclaimed(c')) && (Finished(c) ==> Finished(c'))
            && (HeldFits(c, owner) ==> HeldFits(c', owner))
  {
  }

  lemma CallerStepFits(s: State, id: Id, step: Step)
    requires id in s.submissions && Fits(s, id)
    ensures var s' := CallerStep(s, id, step);
            && s'.submissions.Keys == s.submissions.Keys && s' == s.(submissions := s'.submissions)
            && (forall other :: other in s.submissions && other != id ==> s'.submissions[other] == s.submissions[other])
            && Fits(s', id)
  {
    CalledFits(s.submissions[id], s.owner, step);
  }

  lemma CallerStepFollows(s: State, id: Id, step: Step)
    requires id in s.submissions && Fits(s, id)
    ensures Follows(s, CallerStep(s, id, step), id)
  {
  }

  lemma SubmitKeepsInv(s: State, id: Id, deadline: int)
    requires Inv(s)
    ensures Inv(Next(s, Submit(id, deadline))) && AllFollow(s, Next(s, Submit(id, deadline)))
  {
    var s' := Next(s, Submit(id, deadline));
    if id !in s.submissions && s.Accepts() {
      assert !InMailbox(s, id) && !OwnerHolds(s, id) && !StopperHolds(s, id);
      forall other | other in s.submissions ensures SameFor(s, s', other) {
      }
      forall c | c in s'.submissions ensures Fits(s', c) {
        if c != id {
          assert SameFor(s, s', c) && Fits(s, c);
        }
      }
      assert ControlFits(s');
    }
  }

  /** Taking the head command out of the mailbox leaves no second copy of it. */
  lemma HeadLeaves(s: State, s': State)
    requires ControlFits(s) && s.mailbox != [] && s'.mailbox == s.mailbox[1..]
    ensures s.mailbox[0].Command? ==> InMailbox(s, s.mailbox[0].id) && !InMailbox(s', s.mailbox[0].id)
    ensures forall id :: s.mailbox[0] != Command(id) ==> (InMailbox(s', id) <==> InMailbox(s, id))
    ensures forall i, j :: 0 <= i < j < |s'.mailbox| && s'.mailbox[i].Command? ==> s'.mailbox[i] != s'.mailbox[j]
    ensures StopItem in s'.mailbox ==> StopItem in s.mailbox
  {
    assert s.mailbox == [s.mailbox[0]] + s'.mailbox;
    forall i, j | 0 <= i < j < |s'.mailbox| && s'.mailbox[i].Command? ensures s'.mailbox[i] != s'.mailbox[j] {
      assert s'.mailbox[i] == s.mailbox[i + 1] && s'.mailbox[j] == s.mailbox[j + 1];
    }
    forall k | 0 <= k < |s'.mailbox| && s.mailbox[0].Command? ensures s'.mailbox[k] != s.mailbox[0] {
      assert s'.mailbox[k] == s.mailbox[k + 1];
    }
  }

  /** A drain step of the owner or of stop. */
  lemma PopKeepsInv(s: State, s': State)
    requires Inv(s) && s.mailbox != [] && s'.submissions == s.submissions && s'.mailbox == s.mailbox[1..]
    requires s'.stopping == s.stopping && s'.fatal == s.fatal
    requires var head := s.mailbox[0];
             || (s == s'.(mailbox := s.mailbox) && head.StopItem?)
             || (s.owner.Looping? && s'.stopper == s.stopper
                 && s'.owner == if head.StopItem? then Draining else Popped(head.id))
             || (s.owner.Draining? && s'.stopper == s.stopper && head.Command? && s'.owner == Discarding(head.id))
             || (s.stopper.Emptying? && s'.owner == s.owner && head.Command? && s'.stopper == Holding(head.id))
    ensures Inv(s') && AllFollow(s, s')
  {
    HeadLeaves(s, s');
    assert s.mailbox[0] in s.mailbox;
    var id := if s.mailbox[0].Command? then s.mailbox[0].id else 0;
    if id in s.submissions {
      assert Fits(s, id);
    }
    forall other | other in s.submissions && (other != id || s.mailbox[0].StopItem?) ensures SameFor(s, s', other) {
    }
    PopKeepsControl(s, s');
    Frame(s, s', id);
  }

  lemma PopKeepsControl(s: State, s': State)
    requires ControlFits(s) && s.mailbox != [] && s'.submissions == s.submissions && s'.mailbox == s.mailbox[1..]
    requires s'.stopping == s.stopping && s'.fatal == s.fatal
    requires var head := s.mailbox[0];
             || (s == s'.(mailbox := s.mailbox) && head.StopItem?)
             || (s.owner.Looping? && s'.stopper == s.stopper
                 && s'.owner == if head.StopItem? then Draining else Popped(head.id))
             || (s.owner.Draining? && s'.stopper == s.stopper && head.Command? && s'.owner == Discarding(head.id))
             || (s.stopper.Emptying? && s'.owner == s.owner && head.Command? && s'.stopper == Holding(head.id))
    ensures ControlFits(s')
  {
    HeadLeaves(s, s');
    assert s.mailbox[0] in s.mailbox;
    assert s.mailbox[0].Command? ==> InMailbox(s, s.mailbox[0].id);
  }

  lemma StopStepKeepsInv(s: State, step: Step)
    requires Inv(s)
    ensures Inv(StopStep(s, step)) && AllFollow(s, StopStep(s, step))
  {
    var s' := StopStep(s, step);
    if s.stopper.Emptying? && step.StopDrains? && s.mailbox != [] {
      PopKeepsInv(s, s');
    } else if s.stopper.Holding? && step.StopRejects? {
      var id := s.stopper.id;
      assert Fits(s, id);
      forall other | other in s.submissions && other != id ensures SameFor(s, s', other) {
      }
      Frame(s, s', id);
    } else {
      StopFlagKeepsInv(s, step);
    }
  }

  /** The steps of stop that touch no envelope. */
  lemma StopFlagKeepsInv(s: State, step: Step)
    requires Inv(s)
    requires !(s.stopper.Holding? && step.StopRejects?) && !(s.stopper.Emptying? && step.StopDrains? && s.mailbox != [])
    ensures Inv(StopStep(s, step)) && AllFollow(s, StopStep(s, step))
  {
    var s' := StopStep(s, step);
    StopFlagKeepsControl(s, step);
    forall c | c in s.submissions ensures Fits(s', c) && Follows(s, s', c) {
      assert SameFor(s, s', c) && Fits(s, c);
    }
  }

  lemma StopFlagKeepsControl(s: State, step: Step)
    requires ControlFits(s)
    requires !(s.stopper.Holding? && step.StopRejects?) && !(s.stopper.Emptying? && step.StopDrains? && s.mailbox != [])
    ensures ControlFits(StopStep(s, step)) && StopStep(s, step).submissions == s.submissions
    ensures forall id :: InMailbox(StopStep(s, step), id) <==> InMailbox(s, id)
  {
  }

  /** A step of the owner on the submission it holds changes nothing else. */
  lemma OwnerHandlesFrame(s: State, id: Id, step: Step)
    requires OwnerHolds(s, id) && id in s.submissions
    ensures var s' := OwnerHandles(s, id, s.submissions[id], step);
            && s'.submissions.Keys == s.submissions.Keys
            && s'.mailbox == s.mailbox && s'.stopper == s.stopper && s'.stopping == s.stopping
            && (forall other :: other in s.submissions && other != id ==> s'.submissions[other] == s.submissions[other])
            && (HasId(s'.owner) ==> s'.owner.id == id)
  {
  }

  /** What the owner makes of the submission it holds: it fits the next stage, or it is finished. */
  lemma HandledFits(c: Submission, owner: Owner, stopping: bool, free: bool, step: Step)
    requires HasId(owner) && EnvelopeFits(c) && HeldFits(c, owner)
    ensures var (c', owner') := Handled(c, owner, stopping, free, step);
            EnvelopeFits(c') && if HasId(owner') then owner'.id == owner.id && HeldFits(c', owner') else Finished(c')
  {
  }

  lemma OwnerHandlesFits(s: State, id: Id, step: Step)
    requires OwnerHolds(s, id) && id in s.submissions && Fits(s, id)
    ensures id in OwnerHandles(s, id, s.submissions[id], step).submissions
    ensures Fits(OwnerHandles(s, id, s.submissions[id], step), id)
  {
    HandledFits(s.submissions[id], s.owner, s.stopping, s.LockFree(), step);
  }

  lemma OwnerHandlesFollows(s: State, id: Id, step: Step)
    requires OwnerHolds(s, id) && id in s.submissions && Fits(s, id) && (s.stopping <==> !s.stopper.NotCalled? && !s.stopper.Joined?)
    requires s.stopper.Joined? ==> s.owner.Ended?
    ensures Follows(s, OwnerHandles(s, id, s.submissions[id], step), id)
  {
  }

  lemma OwnerHandlesControl(s: State, id: Id, step: Step)
    requires Inv(s) && OwnerHolds(s, id) && id in s.submissions
    ensures ControlFits(OwnerHandles(s, id, s.submissions[id], step))
  {
    var s' := OwnerHandles(s, id, s.submissions[id], step);
    assert s'.mailbox == s.mailbox && s'.stopper == s.stopper;
    assert forall c :: InMailbox(s', c) <==> InMailbox(s, c);
  }

  lemma OwnerStepKeepsInv(s: State, step: Step)
    requires Inv(s)
    ensures Inv(OwnerStep(s, step)) && AllFollow(s, OwnerStep(s, step))
  {
    var s' := OwnerStep(s, step);
    if s.mailbox != [] && ((s.owner.Looping? && step.OwnerGets?) || (s.owner.Draining? && step.OwnerDrains?)) {
      PopKeepsInv(s, s');
    } else if HasId(s.owner) {
      if s.owner.id in s.submissions {
        OwnerHandlesKeepsInv(s, s.owner.id, step);
      }
    } else {
      OwnerFlagKeepsInv(s, step);
    }
  }

  lemma OwnerHandlesKeepsInv(s: State, id: Id, step: Step)
    requires Inv(s) && OwnerHolds(s, id) && id in s.submissions
    ensures var s' := OwnerHandles(s, id, s.submissions[id], step); Inv(s') && AllFollow(s, s')
  {
    var s' := OwnerHandles(s, id, s.submissions[id], step);
    assert Fits(s, id);
    OwnerHandlesFrame(s, id, step);
    OwnerHandlesFits(s, id, step);
    OwnerHandlesFollows(s, id, step);
    OwnerHandlesControl(s, id, step);
    forall other | other in s.submissions && other != id ensures SameFor(s, s', other) {
    }
    Frame(s, s', id);
  }

  /** The steps of the owner while it holds no envelope and takes none. */
  lemma OwnerFlagKeepsInv(s: State, step: Step)
    requires Inv(s) && !HasId(s.owner)
    requires s.mailbox != [] ==> !(s.owner.Looping? && step.OwnerGets?) && !(s.owner.Draining? && step.OwnerDrains?)
    ensures Inv(OwnerStep(s, step)) && AllFollow(s, OwnerStep(s, step))
  {
    var s' := OwnerStep(s, step);
    assert s'.submissions == s.submissions && s'.mailbox == s.mailbox && s'.stopper == s.stopper;
    assert ControlFits(s');
    forall c | c in s.submissions ensures Fits(s', c) && Follows(s, s', c) {
      assert SameFor(s, s', c) && Fits(s, c);
    }
  }

  /** Every step keeps the invariant and undoes nothing. */
  lemma NextKeepsInv(s: State, step: Step)
    requires Inv(s)
    ensures Inv(Next(s, step)) && AllFollow(s, Next(s, step))
  {
    if step.Submit? {
      SubmitKeepsInv(s, step.id, step.deadline);
    } else if step.WaitReturns? || step.WithdrawCall? || step.ReadOutcome? {
      if step.id in s.submissions {
        CallerStepKeepsInv(s, step.id, step);
      }
    } else if step.StopBegins? || step.StopDrains? || step.StopRejects? || step.StopJoins? {
      StopStepKeepsInv(s, step);
    } else {
      OwnerStepKeepsInv(s, step);
    }
  }

  lemma {:induction false} RunKeepsInv(s: State, steps: seq<Step>)
    requires Inv(s)
    ensures Inv(Run(s, steps)) && AllFollow(s, Run(s, steps))
    decreases |steps|
  {
    if steps != [] {
      var s1 := Next(s, steps[0]);
      NextKeepsInv(s, steps[0]);
      RunKeepsInv(s1, steps[1..]);
      forall id | id in s.submissions ensures Follows(s, Run(s, steps), id) {
        assert Follows(s, s1, id) && Follows(s1, Run(s1, steps[1..]), id);
        assert Fits(s, id) && Fits(s1, id) && Fits(Run(s1, steps[1..]), id);
      }
    }
  }

  // ----------------------------------------------------------- theorems

  /** In every interleaving an envelope enters admission at most once, and never if it was withdrawn. */
  lemma AdmissionIsEnteredOnce(steps: seq<Step>, id: Id)
    requires id in Run(INITIAL, steps).submissions
    ensures var c := Run(INITIAL, steps).submissions[id];
            && c.entered <= 1
            && (c.envelope.state.Withdrawn? || c.envelope.state.Queued? ==> c.entered == 0)
            && (c.envelope.state.Committed? ==> c.entered == 1)
  {
    RunKeepsInv(INITIAL, steps);
    assert Fits(Run(INITIAL, steps), id);
  }

  /** After withdrawal nothing admits an envelope any more, nor does anything once stop was called. */
  lemma NoAdmissionAfterWithdrawalOrStop(earlier: seq<Step>, later: seq<Step>, id: Id)
    requires id in Run(INITIAL, earlier).submissions
    ensures var s := Run(INITIAL, earlier); var s' := Run(s, later);
            && id in s'.submissions
            && (s.submissions[id].envelope.state.Withdrawn? ==>
                  s'.submissions[id].envelope.state.Withdrawn? && s'.submissions[id].entered == 0)
            && (!s.stopper.NotCalled? ==> s'.submissions[id].entered == s.submissions[id].entered)
            && (s.submissions[id].envelope.state.Committed? ==>
                  s'.submissions[id].envelope.result == s.submissions[id].envelope.result)
  {
    var s := Run(INITIAL, earlier);
    RunKeepsInv(INITIAL, earlier);
    RunKeepsInv(s, later);
    assert Fits(s, id) && Follows(s, Run(s, later), id);
    assert Fits(Run(s, later), id);
  }

  /**
   When the owner has ended the mailbox holds no envelope, every committed one
   has its wake-up, and an accepted one is neither withdrawn nor answered in
   exactly one case: stop itself still holds it and its caller still waits. Once
   stop has returned there is no exception.
   */
  lemma OwnerEndLeavesNothingWaiting(steps: seq<Step>, id: Id)
    requires var s := Run(INITIAL, steps); s.owner.Ended? && id in s.submissions
    ensures var s := Run(INITIAL, steps); var c := s.submissions[id];
            && !InMailbox(s, id)
            && (!(c.envelope.state.Withdrawn? || c.envelope.acknowledged) <==> s.stopper == Holding(id) && !c.caller.TimeoutRaised?)
            && (c.envelope.state.Committed? ==> c.envelope.projectionReady)
            && (s.stopper.Joined? ==> c.envelope.state.Withdrawn? || c.envelope.acknowledged)
  {
    var s := Run(INITIAL, steps);
    RunKeepsInv(INITIAL, steps);
    assert Fits(s, id);
  }

  /** Wherever the owner stands, a committed envelope it no longer publishes has its wake-up set. */
  lemma CommittedIsWoken(steps: seq<Step>, id: Id)
    requires var s := Run(INITIAL, steps); id in s.submissions && s.submissions[id].envelope.state.Committed?
    requires Run(INITIAL, steps).owner != Publishing(id)
    ensures Run(INITIAL, steps).submissions[id].envelope.projectionReady
  {
    RunKeepsInv(INITIAL, steps);
    assert Fits(Run(INITIAL, steps), id);
  }

  /** A caller returns the committed result or raises the stored error; it never finds neither. */
  lemma CallerFindsItsOutcome(steps: seq<Step>, id: Id)
    requires id in Run(INITIAL, steps).submissions
    ensures var c := Run(INITIAL, steps).submissions[id];
            && !c.caller.NoResult?
            && (c.caller.Returned? ==> c.envelope.state.Committed? && c.envelope.result == Some(c.caller.result))
            && (c.caller.ErrorRaised? ==> c.envelope.error == Some(c.caller.error) && c.envelope.result.None?)
            && (c.caller.TimeoutRaised? ==> !c.envelope.state.Queued?)
  {
    RunKeepsInv(INITIAL, steps);
    assert Fits(Run(INITIAL, steps), id);
  }

  /** One command queued behind another whose admission ended the owner's loop. */
  function FatalWhileQueued(deadline: int): State {
    State(map[0 := Submission(Fail(NewEnvelope(deadline).(state := Admitting), "x"), Waiting, 1),
              1 := Submission(NewEnvelope(deadline), Waiting, 0)],
          [Command(1)], false, true, Draining, NotCalled)
  }

  /** Two commands accepted, the first one claimed for admission. */
  function ClaimedFirst(deadline: int): State {
    State(map[0 := Submission(NewEnvelope(deadline).(state := Admitting), Waiting, 1),
              1 := Submission(NewEnvelope(deadline), Waiting, 0)],
          [Command(1)], false, false, Admission(0), NotCalled)
  }

  lemma FirstIsClaimed(deadline: int)
    ensures Next(Next(Next(Next(INITIAL, Submit(0, deadline)), Submit(1, deadline)), OwnerGets), OwnerClaims)
         == ClaimedFirst(deadline)
  {
    var waiting := Submission(NewEnvelope(deadline), Waiting, 0);
    var s2 := Next(Next(INITIAL, Submit(0, deadline)), Submit(1, deadline));
    assert s2 == State(map[0 := waiting, 1 := waiting], [Command(0), Command(1)], false, false, Looping, NotCalled);
    var s3 := Next(s2, OwnerGets);
    assert s3 == State(map[0 := waiting, 1 := waiting], [Command(1)], false, false, Popped(0), NotCalled);
  }

  lemma BrokenAdmissionIsFatal(deadline: int)
    ensures Next(Next(ClaimedFirst(deadline), OwnerAdmits(Broken("x"))), OwnerSetsFatal) == FatalWhileQueued(deadline)
  {
    var s1 := Next(ClaimedFirst(deadline), OwnerAdmits(Broken("x")));
    assert s1 == FatalWhileQueued(deadline).(fatal := false, owner := Failing(0));
  }

  /** Both drains run: stop takes the queued envelope, and the owner finds nothing and ends. */
  function HeldByStop(deadline: int): State {
    FatalWhileQueued(deadline).(mailbox := [], stopping := true, owner := Ended, stopper := Holding(1))
  }

  lemma BothDrain(deadline: int)
    ensures Next(Next(Next(FatalWhileQueued(deadline), StopBegins), StopDrains), OwnerDrains(false)) == HeldByStop(deadline)
  {
    var s2 := Next(Next(FatalWhileQueued(deadline), StopBegins), StopDrains);
    assert s2 == FatalWhileQueued(deadline).(mailbox := [], stopping := true, stopper := Holding(1));
  }

  ghost predicate Reachable(s: State) {
    exists steps :: Run(INITIAL, steps) == s
  }

  lemma {:induction false} RunThenStep(s: State, steps: seq<Step>, step: Step)
    ensures Run(s, steps + [step]) == Next(Run(s, steps), step)
    decreases |steps|
  {
    if steps == [] {
      assert [step][1..] == [] && Run(Next(s, step), []) == Next(s, step);
      assert [] + [step] == [step];
    } else {
      assert (steps + [step])[1..] == steps[1..] + [step];
      RunThenStep(Next(s, steps[0]), steps[1..], step);
    }
  }

  lemma StepIsReachable(s: State, step: Step)
    requires Reachable(s)
    ensures Reachable(Next(s, step))
  {
    var steps :| Run(INITIAL, steps) == s;
    RunThenStep(INITIAL, steps, step);
  }

  lemma ClaimedFirstIsReachable(deadline: int)
    ensures Reachable(ClaimedFirst(deadline))
  {
    FirstIsClaimed(deadline);
    assert Run(INITIAL, []) == INITIAL;
    var s1 := Next(INITIAL, Submit(0, deadline));
    var s2 := Next(s1, Submit(1, deadline));
    StepIsReachable(INITIAL, Submit(0, deadline));
    StepIsReachable(s1, Submit(1, deadline));
    StepIsReachable(s2, OwnerGets);
    StepIsReachable(Next(s2, OwnerGets), OwnerClaims);
  }

  /** The exception is real: from the start, the owner has ended while stop holds a queued envelope whose caller waits. */
  lemma StopCanOutliveOwner(deadline: int)
    ensures Reachable(HeldByStop(deadline))
    ensures var s := HeldByStop(deadline);
            && s.owner.Ended? && s.stopper == Holding(1) && s.submissions[1].caller.Waiting?
            && s.submissions[1].envelope.state.Queued? && !s.submissions[1].envelope.acknowledged
  {
    ClaimedFirstIsReachable(deadline);
    BrokenAdmissionIsFatal(deadline);
    BothDrain(deadline);
    var claimed, fatal := ClaimedFirst(deadline), FatalWhileQueued(deadline);
    StepIsReachable(claimed, OwnerAdmits(Broken("x")));
    StepIsReachable(Next(claimed, OwnerAdmits(Broken("x"))), OwnerSetsFatal);
    StepIsReachable(fatal, StopBegins);
    StepIsReachable(Next(fatal, StopBegins), StopDrains);
    StepIsReachable(Next(Next(fatal, StopBegins), StopDrains), OwnerDrains(false));
  }

  /** One accepted command, and nothing else going on. */
  function OneCommand(e: Envelope, caller: Caller, entered: nat, owner: Owner): State {
    State(map[0 := Submission(e, caller, entered)], [], false, false, owner, NotCalled)
  }

  lemma OneIsClaimed(deadline: int)
    ensures Reachable(OneCommand(NewEnvelope(deadline).(state := Admitting), Waiting, 1, Admission(0)))
  {
    var e := NewEnvelope(deadline);
    assert Run(INITIAL, []) == INITIAL;
    var s1 := Next(INITIAL, Submit(0, deadline));
    StepIsReachable(INITIAL, Submit(0, deadline));
    StepIsReachable(s1, OwnerGets);
    assert s1.mailbox == [Command(0)];
    assert Next(s1, OwnerGets) == OneCommand(e, Waiting, 0, Popped(0));
    StepIsReachable(OneCommand(e, Waiting, 0, Popped(0)), OwnerClaims);
  }

  lemma CallReadsItsResult(e: Envelope, result: Outcome, owner: Owner)
    requires e.acknowledged && e.error.None? && e.result == Some(result)
    requires Reachable(OneCommand(e, Waiting, 1, owner))
    ensures Reachable(OneCommand(e, Returned(result), 1, owner))
  {
    StepIsReachable(OneCommand(e, Waiting, 1, owner), WaitReturns(0));
    assert Next(OneCommand(e, Waiting, 1, owner), WaitReturns(0)) == OneCommand(e, Woken, 1, owner);
    StepIsReachable(OneCommand(e, Woken, 1, owner), ReadOutcome(0));
    assert Next(OneCommand(e, Woken, 1, owner), ReadOutcome(0)) == OneCommand(e, Returned(result), 1, owner);
  }

  /** From the start: a call returns the committed result, its projection published and the owner back in its loop. */
  lemma CommittedCommandReturns(deadline: int, result: Outcome)
    ensures var e := Commit(NewEnvelope(deadline).(state := Admitting), result).0.(projectionReady := true);
            Reachable(OneCommand(e, Returned(result), 1, Looping))
  {
    var admitting := NewEnvelope(deadline).(state := Admitting);
    var e := Commit(admitting, result).0;
    OneIsClaimed(deadline);
    StepIsReachable(OneCommand(admitting, Waiting, 1, Admission(0)), OwnerAdmits(Accepted(result, false)));
    assert Next(OneCommand(admitting, Waiting, 1, Admission(0)), OwnerAdmits(Accepted(result, false)))
        == OneCommand(e, Waiting, 1, Publishing(0));
    CallReadsItsResult(e, result, Publishing(0));
    OwnerGoesOn(e, Returned(result));
  }

  lemma OwnerGoesOn(e: Envelope, caller: Caller)
    requires Reachable(OneCommand(e, caller, 1, Publishing(0)))
    ensures Reachable(OneCommand(e.(projectionReady := true), caller, 1, Looping))
  {
    var ready := e.(projectionReady := true);
    StepIsReachable(OneCommand(e, caller, 1, Publishing(0)), OwnerPublishes(true, false));
    assert Next(OneCommand(e, caller, 1, Publishing(0)), OwnerPublishes(true, false)) == OneCommand(ready, caller, 1, Checking);
    StepIsReachable(OneCommand(ready, caller, 1, Checking), OwnerChecksStop);
  }

  // ------------------------------------------------ errors and the stop item

  /** An error leaves the owner's processing: in the admission, in publishing, or in driving. */
  predicate Breaking(s: State, step: Step) {
    || (s.owner.Admission? && step.OwnerAdmits? && step.admit.Broken?)
    || (s.owner.Publishing? && step.OwnerPublishes? && !step.succeeds)
    || (s.owner.Driving? && step.OwnerDrives? && !step.succeeds)
  }

  ghost predicate EndsFatally(s: State) {
    s.owner.Failing? || s.fatal
  }

  lemma NextEndsFatally(s: State, step: Step)
    requires (s.fatal ==> s.owner.Draining? || s.owner.Discarding? || s.owner.Ended?) && EndsFatally(s)
    ensures EndsFatally(Next(s, step))
  {
  }

  /** Only the claim of a popped envelope enters it. */
  lemma OnlyClaimsEnter(s: State, step: Step, id: Id)
    requires !s.owner.Popped? && id in s.submissions
    ensures id in Next(s, step).submissions && Next(s, step).submissions[id].entered == s.submissions[id].entered
  {
  }

  lemma {:induction false} RunEndsFatally(s: State, steps: seq<Step>, id: Id)
    requires Inv(s) && EndsFatally(s) && id in s.submissions
    ensures var s' := Run(s, steps); EndsFatally(s') && id in s'.submissions && s'.submissions[id].entered == s.submissions[id].entered
    decreases |steps|
  {
    if steps != [] {
      NextEndsFatally(s, steps[0]);
      OnlyClaimsEnter(s, steps[0], id);
      NextKeepsInv(s, steps[0]);
      RunEndsFatally(Next(s, steps[0]), steps[1..], id);
    }
  }

  lemma BreakingFails(s: State, step: Step)
    requires Breaking(s, step) && s.owner.id in s.submissions
    ensures Next(s, step).owner.Failing?
  {
  }

  /** An error that leaves processing ends the coordinator: it is fatal or about to be, and nothing is admitted any more. */
  lemma ErrorEndsTheOwner(earlier: seq<Step>, step: Step, later: seq<Step>, id: Id)
    requires var s := Run(INITIAL, earlier); Breaking(s, step) && id in s.submissions
    ensures var s := Run(INITIAL, earlier); var s' := Run(Next(s, step), later);
            EndsFatally(s') && id in s'.submissions && s'.submissions[id].entered == s.submissions[id].entered
  {
    var s := Run(INITIAL, earlier);
    RunKeepsInv(INITIAL, earlier);
    NextKeepsInv(s, step);
    assert OwnerHolds(s, s.owner.id);
    BreakingFails(s, step);
    OnlyClaimsEnter(s, step, id);
    RunEndsFatally(Next(s, step), later, id);
  }

  /** Stop, once it waits for the owner, has left it something to wake up by. */
  ghost predicate Wakes(s: State) {
    s.stopper.Joining? && s.owner.Looping? ==> StopItem in s.mailbox
  }

  lemma NextKeepsWakes(s: State, step: Step)
    requires Inv(s) && Wakes(s)
    ensures Wakes(Next(s, step))
  {
  }

  /** In no interleaving does stop wait for an owner that waits for an empty mailbox. */
  lemma {:induction false} StopWakesTheOwner(steps: seq<Step>)
    ensures Wakes(Run(INITIAL, steps))
    decreases |steps|
  {
    if steps != [] {
      var n := |steps| - 1;
      StopWakesTheOwner(steps[..n]);
      RunKeepsInv(INITIAL, steps[..n]);
      RunThenStep(INITIAL, steps[..n], steps[n]);
      assert steps[..n] + [steps[n]] == steps;
      NextKeepsWakes(Run(INITIAL, steps[..n]), steps[n]);
    }
  }

  /** The step makes the coordinator fatal: an error left processing, or closing failed. */
  predicate Ruins(s: State, step: Step) {
    Breaking(s, step) || (s.owner.Draining? && s.mailbox == [] && step == OwnerDrains(true))
  }

  ghost predicate SomethingRuined(steps: seq<Step>) {
    exists k :: 0 <= k < |steps| && Ruins(Run(INITIAL, steps[..k]), steps[k])
  }

  lemma FatalByRuin(s: State, step: Step)
    requires !EndsFatally(s) && EndsFatally(Next(s, step))
    ensures Ruins(s, step)
  {
  }

  /** Nothing else ends the coordinator fatally; a refused admission, a withdrawal or a timeout does not. */
  lemma {:induction false} FatalHasACause(steps: seq<Step>)
    ensures EndsFatally(Run(INITIAL, steps)) ==> SomethingRuined(steps)
    decreases |steps|
  {
    if steps != [] {
      var n := |steps| - 1;
      var before := steps[..n];
      FatalHasACause(before);
      RunThenStep(INITIAL, before, steps[n]);
      assert before + [steps[n]] == steps;
      if SomethingRuined(before) {
        var k :| 0 <= k < n && Ruins(Run(INITIAL, before[..k]), before[k]);
        assert before[..k] == steps[..k] && before[k] == steps[k];
      } else if EndsFatally(Run(INITIAL, steps)) {
        FatalByRuin(Run(INITIAL, before), steps[n]);
      }
    }
  }

  /** A refused admission is answered with its error, and the owner goes back to its loop. */
  lemma RefusedAdmissionGoesOn(deadline: int, error: string)
    ensures Reachable(OneCommand(Fail(NewEnvelope(deadline).(state := Admitting), error), Waiting, 1, Looping))
  {
    var admitting := NewEnvelope(deadline).(state := Admitting);
    OneIsClaimed(deadline);
    StepIsReachable(OneCommand(admitting, Waiting, 1, Admission(0)), OwnerAdmits(Refused(error)));
    assert Next(OneCommand(admitting, Waiting, 1, Admission(0)), OwnerAdmits(Refused(error)))
        == OneCommand(Fail(admitting, error), Waiting, 1, Checking);
    StepIsReachable(OneCommand(Fail(admitting, error), Waiting, 1, Checking), OwnerChecksStop);
  }
}
