/**
 The job coordinator's mailbox: many submitter threads, one owner thread, a
 deadline, and an envelope whose state changes only under its own lock.

 Every lock region of an envelope is one function here, and one atomic step of
 the protocol below; `JobEnvelope` is the object itself. Acknowledging is not
 stable by itself: called again after the deadline it takes an acknowledgement
 back (`LateAcknowledgeTakesBack`). Permanence is a property of the protocol:
 the owner never acknowledges an envelope twice with success in between.
 */
module JobMailbox {
  import opened Wrappers

  datatype EnvelopeState = Queued | Acknowledged | Abandoned

  /** The published record a submitter gets back. */
  datatype Projection = Projection(jobId: string, revision: nat)

  datatype Envelope = Envelope(
    deadline: Option<int>,
    state: EnvelopeState,
    signalled: bool,
    result: Option<Projection>,
    error: Option<string>)
  {
    predicate Late(now: int) {
      deadline.Some? && now >= deadline.value
    }

    predicate Filled() {
      result.Some? || error.Some?
    }
  }

  function NewEnvelope(deadline: Option<int>): Envelope {
    Envelope(deadline, Queued, false, None, None)
  }

  // -------------------------------------------------- the lock regions

  function CommitAllowed(e: Envelope, now: int): (Envelope, bool) {
    if !e.state.Queued? then (e, false)
    else if e.Late(now) then (e.(state := Abandoned), false)
    else (e, true)
  }

  function AbandonUnacknowledged(e: Envelope): (Envelope, bool) {
    if e.state.Acknowledged? then (e, false) else (e.(state := Abandoned), true)
  }

  function Acknowledge(e: Envelope, now: int): (Envelope, bool) {
    if e.state.Abandoned? then (e, false)
    else if e.Late(now) then (e.(state := Abandoned), false)
    else (e.(state := Acknowledged, signalled := true), true)
  }

  class JobEnvelope {
    const deadline: Option<int>
    var state: EnvelopeState
    var signalled: bool
    var result: Option<Projection>
    var error: Option<string>

    ghost function Contents(): (e: Envelope)
      reads this
    {
      Envelope(deadline, state, signalled, result, error)
    }

    constructor (deadline: Option<int>)
      ensures Contents() == NewEnvelope(deadline)
    {
      this.deadline := deadline;
      state, signalled, result, error := Queued, false, None, None;
    }

    method CommitAllowedNow(now: int) returns (allowed: bool)
      modifies this
      ensures allowed <==> state.Queued?                         // a refusal leaves nothing to allow later
      ensures allowed ==> Contents() == old(Contents()) && !Contents().Late(now)
      ensures (Contents(), allowed) == CommitAllowed(old(Contents()), now)
    {
      if state != Queued {
        return false;
      }
      if deadline.Some? && now >= deadline.value {
        state := Abandoned;
        return false;
      }
      return true;
    }

    method Abandon() returns (abandoned: bool)
      modifies this
      ensures !state.Queued? && (abandoned <==> state.Abandoned?)
      ensures (Contents(), abandoned) == AbandonUnacknowledged(old(Contents()))
    {
      if state == Acknowledged {
        return false;
      }
      state := Abandoned;
      return true;
    }

    method AcknowledgeNow(now: int) returns (acknowledged: bool)
      modifies this
      ensures !state.Queued? && (acknowledged <==> state.Acknowledged?) && (acknowledged ==> signalled)
      ensures (Contents(), acknowledged) == Acknowledge(old(Contents()), now)
    {
      if state == Abandoned {
        return false;
      }
      if deadline.Some? && now >= deadline.value {
        state := Abandoned;
        return false;
      }
      state := Acknowledged;
      signalled := true;
      return true;
    }
  }

  /** One call of a lock region, by whichever thread. */
  datatype Region = AskCommit(now: int) | AskAbandon | AskAcknowledge(now: int)

  function Enter(e: Envelope, r: Region): (Envelope, bool) {
    match r
    case AskCommit(now) => CommitAllowed(e, now)
    case AskAbandon => AbandonUnacknowledged(e)
    case AskAcknowledge(now) => Acknowledge(e, now)
  }

  function EnterAll(e: Envelope, rs: seq<Region>): Envelope
    decreases |rs|
  {
    if rs == [] then e else EnterAll(Enter(e, rs[0]).0, rs[1..])
  }

  /** Once a commit was refused, no later question is answered otherwise, whatever regions are entered in between. */
  lemma RefusedCommitStaysRefused(e: Envelope, now: int, rs: seq<Region>, later: int)
    requires !CommitAllowed(e, now).1
    ensures !CommitAllowed(EnterAll(CommitAllowed(e, now).0, rs), later).1
  {
    SettledStaysSettled(CommitAllowed(e, now).0, rs);
  }

  /** Nothing puts an envelope back in the queue, and an abandoned one can no longer be changed at all. */
  lemma {:induction false} SettledStaysSettled(e: Envelope, rs: seq<Region>)
    requires !e.state.Queued?
    ensures !EnterAll(e, rs).state.Queued?
    ensures e.state.Abandoned? ==> EnterAll(e, rs) == e
    decreases |rs|
  {
    if rs != [] {
      SettledStaysSettled(Enter(e, rs[0]).0, rs[1..]);
    }
  }

  /** A timeout and an acknowledgement in time meet at one envelope: exactly the first of the two succeeds. */
  lemma FirstOfTheTwoWins(e: Envelope, now: int)
    requires e.state.Queued? && !e.Late(now)
    ensures var (e1, abandoned) := AbandonUnacknowledged(e); abandoned && Acknowledge(e1, now) == (e1, false)
    ensures var (e1, acknowledged) := Acknowledge(e, now); acknowledged && AbandonUnacknowledged(e1) == (e1, false)
  {
  }

  /** The region alone is not stable: a second, late call abandons an acknowledged envelope. */
  lemma LateAcknowledgeTakesBack(e: Envelope, now: int, later: int)
    requires Acknowledge(e, now).1 && now <= later
    ensures Acknowledge(Acknowledge(e, now).0, later).0.state.Abandoned? <==> e.Late(later)
  {
  }

  // ------------------------------------------------------- the protocol

  type Id = nat

  datatype Submitter =
    | Waiting                       // in Event.wait
    | WaitExpired                   // the wait returned false
    | Woken                         // about to read error, then result
    | TimeoutRaised
    | ErrorRaised(error: string)
    | Returned(result: Projection)
    | AssertionFailed

  /** An acknowledged envelope has an answer. */
  predicate Sound(e: Envelope) {
    e.state.Acknowledged? ==> e.Filled()
  }

  /**
   The end of a submit call, after its wait returned: with the timeout exactly if
   the envelope is abandoned by it, and otherwise with the error or the result.
   */
  method FinishSubmit(env: JobEnvelope, woken: bool) returns (end: Submitter)
    requires Sound(env.Contents()) && (woken ==> env.state.Acknowledged?)
    modifies env
    ensures Sound(env.Contents()) && env.error == old(env.error) && env.result == old(env.result)
    ensures end.TimeoutRaised? <==> !old(env.state).Acknowledged?
    ensures end.TimeoutRaised? <==> env.state.Abandoned?
    ensures match end
            case TimeoutRaised => !woken
            case ErrorRaised(error) => env.error == Some(error)
            case Returned(result) => env.error.None? && env.result == Some(result)
            case _ => false
  {
    if !woken {
      var abandoned := env.Abandon();
      if abandoned {
        return TimeoutRaised;
      }
    }
    if env.error.Some? {
      return ErrorRaised(env.error.value);
    }
    return if env.result.Some? then Returned(env.result.value) else AssertionFailed;
  }

  /**
   The commit checks of one command, up to the first refusal: all are answered
   yes exactly if the envelope was queued and every one came in time, and then
   nothing changed; a refusal leaves nothing to allow later.
   */
  method AskToCommit(env: JobEnvelope, times: seq<int>) returns (allowed: bool)
    requires times != []
    modifies env
    ensures allowed <==> old(env.state).Queued? && forall i :: 0 <= i < |times| ==> !env.Contents().Late(times[i])
    ensures allowed <==> env.state.Queued?
    ensures allowed ==> env.Contents() == old(env.Contents())
    ensures env.error == old(env.error) && env.result == old(env.result)
  {
    for i := 0 to |times|
      invariant env.Contents() == old(env.Contents()) && (i > 0 ==> env.state.Queued?)
      invariant forall k :: 0 <= k < i ==> !env.Contents().Late(times[k])
    {
      allowed := env.CommitAllowedNow(times[i]);
      if !allowed {
        return;
      }
    }
    return true;
  }

  /** The callback after a commit: the answer is in place before anyone can be woken by it. */
  method AcknowledgeDurable(env: JobEnvelope, result: Projection, now: int) returns (published: bool)
    modifies env
    ensures Sound(env.Contents()) && env.result == Some(result) && env.error == old(env.error)
    ensures published <==> env.state.Acknowledged?
    ensures published <==> !old(env.state).Abandoned? && !old(env.Contents()).Late(now)
  {
    env.result := Some(result);
    published := env.AcknowledgeNow(now);
  }

  /**
   What the command has done to the job so far. `unread` records that the job
   could not be read back after an error that followed the commit, `finished`
   that the drive loop came to its end, and `raised` that it was left by an error.
   */
  datatype Effects = Effects(committed: bool, advanced: bool, failedOver: bool, unread: bool, finished: bool, raised: bool)

  const UNTOUCHED := Effects(false, false, false, false, false, false)
  const COMMITTED := UNTOUCHED.(committed := true)

  datatype Command = Command(envelope: Envelope, submitter: Submitter, effects: Effects)

  /** Where the owner thread stands in processing one command. */
  datatype Owner =
    | Idle
    | Picked(id: Id)                // taken from the mailbox, abandonment not yet checked
    | Working(id: Id)               // in the chain call, nothing committed
    | InTransaction(id: Id)         // the last commit check inside the transaction passed
    | Committed(id: Id)             // the transaction committed; the callback is next
    | Answering(id: Id)             // error or result filled; acknowledge is next
    | Confirming(id: Id)            // result filled by the callback; acknowledge is next
    | Checking(id: Id)              // the chain returned the job; abandonment check is next
    | Driving(id: Id)               // publishing and advancing the job
    | PreFailure(id: Id)            // the chain raised before any acknowledgement
    | PostFailure(id: Id)           // about to record the failure of a committed job
    | Ended

  datatype State = State(now: int, commands: map<Id, Command>, mailbox: seq<Id>, owner: Owner)

  const INITIAL := State(0, map[], [], Idle)

  datatype Step =
    | Tick(elapsed: nat)
    | Submit(id: Id, timeout: nat)
    | WaitReturns(id: Id)           // true when signalled, else the timeout
    | AbandonCall(id: Id)
    | ReadOutcome(id: Id)
    | Pick
    | Start                         // the abandonment check before processing
    | ReadFails(error: string)      // the authoritative read before the chain call raises
    | CommitCheck(last: bool, cleanupRaises: bool) // one commit_allowed call; the last one is inside the transaction
    | Commit
    | ChainRaises
    | Callback(result: Projection)  // result is filled before acknowledging
    | FillError(error: string)      // the job could not be read back
    | FillUnchanged(error: string)  // the job was read back unchanged
    | FillFailedOver(failed: Option<Projection>, error: string)
    | AcknowledgeCall
    | AbandonedCheck
    | Advance(more: bool)
    | DriveRaises
    | RecordFailure
    | Stop

  function SetEnvelope(s: State, id: Id, e: Envelope): State
    requires id in s.commands
  {
    s.(commands := s.commands[id := s.commands[id].(envelope := e)])
  }

  function SetSubmitter(s: State, id: Id, t: Submitter): State
    requires id in s.commands
  {
    s.(commands := s.commands[id := s.commands[id].(submitter := t)])
  }

  /** One atomic step; a step that is not enabled changes nothing. */
  function Next(s: State, step: Step): State {
    match step
    case Tick(elapsed) => s.(now := s.now + elapsed)
    case Submit(id, timeout) => if id in s.commands then s else
      s.(commands := s.commands[id := Command(NewEnvelope(Some(s.now + timeout)), Waiting, UNTOUCHED)],
         mailbox := s.mailbox + [id])
    case WaitReturns(id) => if id in s.commands then SubmitterWaits(s, id) else s
    case AbandonCall(id) => if id in s.commands then SubmitterAbandons(s, id) else s
    case ReadOutcome(id) => if id in s.commands then SubmitterReads(s, id) else s
    case Pick =>
      if s.owner.Idle? && s.mailbox != [] then s.(owner := Picked(s.mailbox[0]), mailbox := s.mailbox[1..]) else s
    case Stop => if s.owner.Idle? then s.(owner := Ended) else s
    case _ =>
      if s.owner.Idle? || s.owner.Ended? || s.owner.id !in s.commands then s
      else OwnerNext(s, s.owner.id, step)
  }

  function SubmitterWaits(s: State, id: Id): State
    requires id in s.commands
  {
    if !s.commands[id].submitter.Waiting? then s
    else SetSubmitter(s, id, if s.commands[id].envelope.signalled then Woken else WaitExpired)
  }

  function SubmitterAbandons(s: State, id: Id): State
    requires id in s.commands
  {
    if !s.commands[id].submitter.WaitExpired? then s
    else
      var (e, abandoned) := AbandonUnacknowledged(s.commands[id].envelope);
      SetSubmitter(SetEnvelope(s, id, e), id, if abandoned then TimeoutRaised else Woken)
  }

  function SubmitterReads(s: State, id: Id): State
    requires id in s.commands
  {
    var c := s.commands[id];
    if !c.submitter.Woken? then s
    else SetSubmitter(s, id,
      if c.envelope.error.Some? then ErrorRaised(c.envelope.error.value)
      else if c.envelope.result.Some? then Returned(c.envelope.result.value)
      else AssertionFailed)
  }

  /** A step of the owner on the command in its hands. */
  function OwnerStep(c: Command, owner: Owner, now: int, step: Step): (Command, Owner) {
    var e, f := c.envelope, c.effects;
    match (owner, step)
    case (Picked(id), Start) => (c, if e.state.Abandoned? then Idle else Working(id))
    case (Working(id), ReadFails(error)) => (c.(envelope := e.(error := Some(error))), Answering(id))
    case (Working(id), CommitCheck(last, cleanupRaises)) =>
      var (e', allowed) := CommitAllowed(e, now);
      (c.(envelope := e'), if allowed then (if last then InTransaction(id) else Working(id))
                           else if cleanupRaises then PreFailure(id) else Idle)
    case (InTransaction(id), Commit) => (c.(effects := f.(committed := true)), Committed(id))
    case (Working(id), ChainRaises) => (c, PreFailure(id))
    case (InTransaction(id), ChainRaises) => (c, PreFailure(id))
    case (Committed(id), Callback(result)) => (c.(envelope := e.(result := Some(result))), Confirming(id))
    case (Committed(id), ChainRaises) => (c, PreFailure(id))
    case (PreFailure(id), FillError(error)) =>
      (c.(envelope := e.(error := Some(error)), effects := f.(unread := f.unread || f.committed)), Answering(id))
    case (PreFailure(id), FillUnchanged(error)) =>
      if f.committed then (c, owner) else (c.(envelope := e.(error := Some(error))), Answering(id))
    case (PreFailure(id), FillFailedOver(failed, error)) =>
      (c.(envelope := if failed.Some? then e.(result := failed) else e.(error := Some(error)), effects := f.(failedOver := true)),
       Answering(id))
    case (Answering(_), AcknowledgeCall) => (c.(envelope := Acknowledge(e, now).0), Idle)
    case (Confirming(id), AcknowledgeCall) => (c.(envelope := Acknowledge(e, now).0), Checking(id))
    case (Checking(id), AbandonedCheck) => (c, if e.state.Abandoned? then PostFailure(id) else Driving(id))
    case (Driving(id), Advance(more)) => (c.(effects := f.(advanced := true)), if more then Driving(id) else Idle)
    case (Driving(id), DriveRaises) => (c, PostFailure(id))
    case (PostFailure(_), RecordFailure) => (c.(effects := f.(failedOver := true)), Idle)
    case _ => (c, owner)
  }

  /** The record of how the drive loop was left, kept beside the owner's own step. */
  function Recorded(c: Command, owner: Owner, step: Step): Command {
    if owner.Driving? && step.DriveRaises? then c.(effects := c.effects.(raised := true))
    else if owner.Driving? && step == Advance(false) then c.(effects := c.effects.(finished := true))
    else c
  }

  function OwnerNext(s: State, id: Id, step: Step): State
    requires id in s.commands
  {
    var (c, owner) := OwnerStep(s.commands[id], s.owner, s.now, step);
    s.(commands := s.commands[id := Recorded(c, s.owner, step)], owner := owner)
  }

  function Run(s: State, steps: seq<Step>): State
    decreases |steps|
  {
    if steps == [] then s else Run(Next(s, steps[0]), steps[1..])
  }

  // ---------------------------------------------------------- invariant

  /** The owner holds `id` and has not yet acknowledged it. */
  predicate Unacknowledging(owner: Owner) {
    owner.Picked? || owner.Working? || owner.InTransaction? || owner.Committed?
    || owner.Answering? || owner.Confirming? || owner.PreFailure?
  }

  predicate Holds(owner: Owner, id: Id) {
    !owner.Idle? && !owner.Ended? && owner.id == id
  }

  /** The command is still on its way to a commit. */
  predicate NotYetCommitted(owner: Owner) {
    owner.Picked? || owner.Working? || owner.InTransaction?
  }

  ghost predicate EnvelopeFits(c: Command) {
    var e := c.envelope;
    && (e.signalled <==> e.state.Acknowledged?)
    && (e.state.Acknowledged? ==> e.Filled())
    && (c.effects.advanced ==> e.state.Acknowledged?)
    && match c.submitter
       case Waiting => true
       case WaitExpired => true
       case Woken => e.state.Acknowledged?
       case ErrorRaised(error) => e.state.Acknowledged? && e.error == Some(error)
       case Returned(result) => e.state.Acknowledged? && e.error.None? && e.result == Some(result)
       case TimeoutRaised => e.state.Abandoned?
       case AssertionFailed => false
  }

  /** What holds of the command in the owner's hands, stage by stage. */
  ghost predicate OwnerFits(c: Command, owner: Owner) {
    var e, f := c.envelope, c.effects;
    && (Unacknowledging(owner) ==> !e.state.Acknowledged?)
    && (NotYetCommitted(owner) ==> f == UNTOUCHED)
    && (owner.Committed? || owner.Confirming? || owner.Checking? ==> f == COMMITTED)
    && (owner.PreFailure? ==> f == UNTOUCHED || f == COMMITTED)
    && (owner.Driving? ==> f == COMMITTED.(advanced := f.advanced) && e.state.Acknowledged?)
    && (owner.PostFailure? ==> f == COMMITTED.(advanced := f.advanced, raised := f.raised))
    && (NotYetCommitted(owner) || owner.PreFailure? || owner.Committed? ==> !e.Filled())
    && (owner.Confirming? || owner.Checking? || owner.Driving? || owner.PostFailure? ==> e.result.Some? && e.error.None?)
    && (owner.Answering? ==> e.Filled() && Answerable(c))
    && (owner.Checking? || owner.PostFailure? ==> !e.state.Queued?)
  }

  /** Whatever comes of the acknowledgement, the command is accounted for. */
  ghost predicate Answerable(c: Command) {
    var e, f := c.envelope, c.effects;
    && !f.finished && !f.raised && !f.advanced
    && (f.committed ==> (f.failedOver <==> !f.unread))
    && (f.unread ==> f.committed)
    && (!f.committed ==> e.error.Some? || f.failedOver)
  }

  /**
   A command the owner has let go of. Its envelope is settled. If its change was
   committed, then exactly one of three things happened: the drive loop came to
   its end, the failure was recorded, or the job could not be read back.
   */
  ghost predicate LetGo(c: Command) {
    var e, f := c.envelope, c.effects;
    && !e.state.Queued?
    && (f.committed ==> f.finished || f.failedOver || f.unread)
    && (f.finished ==> f.committed && f.advanced && !f.failedOver && !f.unread && !f.raised)
    && (f.unread ==> f.committed && !f.failedOver)
    && (f.raised ==> f.failedOver)
    && (!f.committed ==> !f.raised && !f.advanced)
    && (f.finished ==> e.state.Acknowledged? && e.result.Some? && e.error.None?)
    && (e.state.Acknowledged? && !f.committed ==> e.error.Some? || f.failedOver)
  }

  /** A queued command is known, unheld and untouched. */
  ghost predicate Waits(s: State, id: Id) {
    && id in s.commands && !Holds(s.owner, id)
    && !s.commands[id].envelope.state.Acknowledged?
    && s.commands[id].effects == UNTOUCHED && !s.commands[id].envelope.Filled()
  }

  ghost predicate MailboxFits(s: State) {
    && (forall i, j :: 0 <= i < j < |s.mailbox| ==> s.mailbox[i] != s.mailbox[j])
    && (forall i :: 0 <= i < |s.mailbox| ==> Waits(s, s.mailbox[i]))
    && (!s.owner.Idle? && !s.owner.Ended? ==> s.owner.id in s.commands)
  }

  ghost predicate AllFit(s: State) {
    forall id :: id in s.commands ==> CommandFits(s, id)
  }

  ghost predicate Inv(s: State) {
    MailboxFits(s) && AllFit(s)
  }

  ghost predicate AllFollow(s: State, s': State) {
    forall id :: id in s.commands ==> Follows(s.commands[id], s'.commands, id)
  }

  ghost predicate CommandFits(s: State, id: Id)
    requires id in s.commands
  {
    var c := s.commands[id];
    EnvelopeFits(c) && if Holds(s.owner, id) then OwnerFits(c, s.owner) else id in s.mailbox || LetGo(c)
  }

  /** Acknowledged and abandoned are final; a raised timeout is; effects only accumulate. */
  ghost predicate Follows(before: Command, after: map<Id, Command>, id: Id) {
    && id in after
    && (before.envelope.state.Acknowledged? ==> after[id].envelope.state.Acknowledged?)
    && (before.envelope.state.Abandoned? ==> after[id].envelope.state.Abandoned?)
    && (before.submitter.TimeoutRaised? ==> after[id].submitter.TimeoutRaised?)
    && (before.submitter.Returned? ==> after[id].submitter == before.submitter)
    && (before.submitter.ErrorRaised? ==> after[id].submitter == before.submitter)
    && (before.effects.committed ==> after[id].effects.committed)
    && (before.effects.failedOver ==> after[id].effects.failedOver)
    && (before.effects.unread ==> after[id].effects.unread)
    && (before.effects.finished ==> after[id].effects.finished)
  }

  /** An owner step touches the held command only, and holds it or lets go. */
  lemma OwnerStepFrame(s: State, id: Id, step: Step)
    requires id in s.commands && Holds(s.owner, id)
    ensures var s' := OwnerNext(s, id, step);
            && s'.mailbox == s.mailbox && s'.commands.Keys == s.commands.Keys
            && (forall other :: other in s.commands && other != id ==> s'.commands[other] == s.commands[other])
            && (s'.owner.Idle? || Holds(s'.owner, id))
  {
  }

  /** What the owner makes of the command in its hands fits the next stage, or it is let go. */
  lemma StepFits(c: Command, owner: Owner, now: int, step: Step)
    requires !owner.Idle? && !owner.Ended? && EnvelopeFits(c) && OwnerFits(c, owner)
    ensures var (c', owner') := OwnerStep(c, owner, now, step); var r := Recorded(c', owner, step);
            && EnvelopeFits(r)
            && if owner'.Idle? || owner'.Ended? then LetGo(r) else OwnerFits(r, owner') && owner'.id == owner.id
  {
  }

  lemma OwnerStepFits(s: State, id: Id, step: Step)
    requires id in s.commands && Holds(s.owner, id) && CommandFits(s, id)
    ensures var s' := OwnerNext(s, id, step); id in s'.commands && CommandFits(s', id)
  {
    StepFits(s.commands[id], s.owner, s.now, step);
  }

  lemma OwnerStepFollows(s: State, id: Id, step: Step)
    requires id in s.commands && Holds(s.owner, id) && CommandFits(s, id)
    ensures Follows(s.commands[id], OwnerNext(s, id, step).commands, id)
  {
  }

  lemma OwnerStepKeepsInv(s: State, id: Id, step: Step)
    requires Inv(s) && id in s.commands && Holds(s.owner, id)
    ensures var s' := OwnerNext(s, id, step); Inv(s') && AllFollow(s, s')
  {
    var s' := OwnerNext(s, id, step);
    assert CommandFits(s, id);
    OwnerStepFrame(s, id, step);
    OwnerStepFits(s, id, step);
    OwnerStepFollows(s, id, step);
    OthersKeepInv(s, s', id);
  }

  /** A step that changes one unqueued command, without taking another in hand. */
  lemma OthersKeepInv(s: State, s': State, id: Id)
    requires Inv(s) && id in s.commands && s'.mailbox == s.mailbox && s'.commands.Keys == s.commands.Keys
    requires forall other :: other in s.commands && other != id ==> s'.commands[other] == s.commands[other]
    requires s'.owner == s.owner || (Holds(s.owner, id) && (s'.owner.Idle? || Holds(s'.owner, id)))
    requires CommandFits(s', id) && Follows(s.commands[id], s'.commands, id)
    requires Waits(s, id) ==> Waits(s', id)
    ensures Inv(s') && AllFollow(s, s')
  {
    forall c | c in s'.commands ensures CommandFits(s', c) && Follows(s.commands[c], s'.commands, c) {
      assert CommandFits(s, c);
    }
    forall i | 0 <= i < |s'.mailbox| ensures Waits(s', s'.mailbox[i]) {
      assert Waits(s, s.mailbox[i]);
    }
  }

  lemma SubmitterStepKeepsInv(s: State, id: Id, step: Step)
    requires Inv(s) && id in s.commands
    requires step == WaitReturns(id) || step == AbandonCall(id) || step == ReadOutcome(id)
    ensures Inv(Next(s, step)) && AllFollow(s, Next(s, step))
  {
    var s' := Next(s, step);
    assert CommandFits(s, id);
    SubmitterStepFits(s, id, step);
    OthersKeepInv(s, s', id);
  }

  lemma SubmitterStepFits(s: State, id: Id, step: Step)
    requires id in s.commands && CommandFits(s, id)
    requires step == WaitReturns(id) || step == AbandonCall(id) || step == ReadOutcome(id)
    ensures var s' := Next(s, step);
            && s'.commands.Keys == s.commands.Keys
            && (forall other :: other in s.commands && other != id ==> s'.commands[other] == s.commands[other])
            && s'.mailbox == s.mailbox && s'.owner == s.owner
            && CommandFits(s', id) && Follows(s.commands[id], s'.commands, id)
            && (Waits(s, id) ==> Waits(s', id))
  {
  }

  lemma SubmitKeepsInv(s: State, id: Id, timeout: nat)
    requires Inv(s)
    ensures Inv(Next(s, Submit(id, timeout))) && AllFollow(s, Next(s, Submit(id, timeout)))
  {
    var s' := Next(s, Submit(id, timeout));
    if id !in s.commands {
      forall c | c in s.commands ensures CommandFits(s', c) {
        assert CommandFits(s, c);
      }
      forall i | 0 <= i < |s.mailbox| ensures Waits(s', s.mailbox[i]) {
        assert Waits(s, s.mailbox[i]);
      }
      assert Waits(s', id);
    }
  }

  lemma PickKeepsInv(s: State)
    requires Inv(s)
    ensures Inv(Next(s, Pick)) && AllFollow(s, Next(s, Pick))
  {
    var s' := Next(s, Pick);
    if s.owner.Idle? && s.mailbox != [] {
      assert Waits(s, s.mailbox[0]);
      forall c | c in s.commands ensures CommandFits(s', c) {
        assert CommandFits(s, c);
      }
      forall i | 0 <= i < |s'.mailbox| ensures Waits(s', s'.mailbox[i]) {
        assert s'.mailbox[i] == s.mailbox[i + 1] && Waits(s, s.mailbox[i + 1]);
      }
    }
  }

  lemma ClockOrStopKeepsInv(s: State, step: Step)
    requires Inv(s) && (step.Tick? || step.Stop?)
    ensures Inv(Next(s, step)) && AllFollow(s, Next(s, step))
  {
    var s' := Next(s, step);
    forall c | c in s.commands ensures CommandFits(s', c) {
      assert CommandFits(s, c);
    }
    forall i | 0 <= i < |s.mailbox| ensures Waits(s', s.mailbox[i]) {
      assert Waits(s, s.mailbox[i]);
    }
  }

  /** Every step keeps the invariant, and every command moves forward only. */
  lemma NextKeepsInv(s: State, step: Step)
    requires Inv(s)
    ensures Inv(Next(s, step)) && AllFollow(s, Next(s, step))
  {
    if step.WaitReturns? || step.AbandonCall? || step.ReadOutcome? {
      if step.id in s.commands {
        SubmitterStepKeepsInv(s, step.id, step);
      }
    } else if step.Submit? {
      SubmitKeepsInv(s, step.id, step.timeout);
    } else if step.Pick? {
      PickKeepsInv(s);
    } else if step.Tick? || step.Stop? {
      ClockOrStopKeepsInv(s, step);
    } else if !s.owner.Idle? && !s.owner.Ended? {
      OwnerStepKeepsInv(s, s.owner.id, step);
    }
  }

  lemma {:induction false} RunKeepsInv(s: State, steps: seq<Step>)
    requires Inv(s)
    ensures Inv(Run(s, steps)) && AllFollow(s, Run(s, steps))
    decreases |steps|
  {
    if steps != [] {
      var s1 := Next(s, steps[0]);
      NextKeepsInv(s, steps[0]);
      RunKeepsInv(s1, steps[1..]);
      forall id | id in s.commands ensures Follows(s.commands[id], Run(s, steps).commands, id) {
        assert Follows(s.commands[id], s1.commands, id);
        assert Follows(s1.commands[id], Run(s1, steps[1..]).commands, id);
      }
    }
  }

  lemma WaitingIsUncommitted(s: State, id: Id)
    requires MailboxFits(s) && id in s.mailbox
    ensures id in s.commands && s.commands[id].effects == UNTOUCHED
  {
    var i :| 0 <= i < |s.mailbox| && s.mailbox[i] == id;
    assert Waits(s, s.mailbox[i]);
  }

  // ----------------------------------------------------------- theorems

  /**
   In every interleaving, acknowledged and abandoned are both permanent: what
   an envelope is after one run of steps, it still is after any further ones.
   */
  lemma FinalStatesArePermanent(earlier: seq<Step>, later: seq<Step>, id: Id)
    requires id in Run(INITIAL, earlier).commands
    ensures var s := Run(INITIAL, earlier); var s' := Run(s, later);
            && id in s'.commands
            && (s.commands[id].envelope.state.Acknowledged? ==> s'.commands[id].envelope.state.Acknowledged?)
            && (s.commands[id].envelope.state.Abandoned? ==> s'.commands[id].envelope.state.Abandoned?)
  {
    RunKeepsInv(INITIAL, earlier);
    RunKeepsInv(Run(INITIAL, earlier), later);
    assert Follows(Run(INITIAL, earlier).commands[id], Run(Run(INITIAL, earlier), later).commands, id);
  }

  /**
   A submit call ends with the timeout exactly on an abandoned envelope, and
   otherwise on an acknowledged one with its error or its result: the final
   assertion of the call is never reached with nothing to return.
   */
  lemma SubmitFindsItsOutcome(steps: seq<Step>, id: Id)
    requires id in Run(INITIAL, steps).commands
    ensures var c := Run(INITIAL, steps).commands[id];
            && !c.submitter.AssertionFailed?
            && (c.submitter.TimeoutRaised? ==> c.envelope.state.Abandoned?)
            && (c.submitter.ErrorRaised? ==> c.envelope.state.Acknowledged? && c.envelope.error == Some(c.submitter.error))
            && (c.submitter.Returned? ==> c.envelope.state.Acknowledged? && c.envelope.result == Some(c.submitter.result))
            && (c.submitter.Woken? ==> c.envelope.Filled())
            && (c.envelope.signalled <==> c.envelope.state.Acknowledged?)
  {
    RunKeepsInv(INITIAL, steps);
    assert CommandFits(Run(INITIAL, steps), id);
  }

  /**
   A command whose submitter saw the timeout, at any time, is never advanced,
   before or after. Once the owner has let go of it, its change is uncommitted
   or was handed to the failure record, except in exactly one case: an error
   followed the commit and the job could then not be read back.
   */
  lemma TimedOutCommandNeverAdvances(earlier: seq<Step>, later: seq<Step>, id: Id)
    requires id in Run(INITIAL, earlier).commands
    requires Run(INITIAL, earlier).commands[id].submitter.TimeoutRaised?
    ensures var s := Run(Run(INITIAL, earlier), later);
            && id in s.commands && !s.commands[id].effects.advanced
            && (!Holds(s.owner, id) && s.commands[id].effects.committed ==>
                  (!s.commands[id].effects.failedOver <==> s.commands[id].effects.unread))
            && (Holds(s.owner, id) ==> !s.owner.Driving?)
  {
    var s0 := Run(INITIAL, earlier);
    RunKeepsInv(INITIAL, earlier);
    RunKeepsInv(s0, later);
    assert Follows(s0.commands[id], Run(s0, later).commands, id);
    assert CommandFits(Run(s0, later), id);
    if id in Run(s0, later).mailbox {
      WaitingIsUncommitted(Run(s0, later), id);
    }
  }

  /**
   Over every run: a command that is neither waiting nor in the owner's hands has
   a settled envelope, and is accounted for. Committed, it was driven to the end
   without an error, or its failure was recorded, or it could not be read back,
   exactly one of the three; a drive loop left by an error always means the
   recorded failure; and an acknowledged command that committed nothing carries
   an error.
   */
  lemma LetGoIsAccountedFor(steps: seq<Step>, id: Id)
    requires var s := Run(INITIAL, steps); id in s.commands && !Holds(s.owner, id) && id !in s.mailbox
    ensures var c := Run(INITIAL, steps).commands[id]; var f := c.effects;
            && !c.envelope.state.Queued?
            && (f.committed ==> (f.finished && !f.failedOver && !f.unread) || (!f.finished && (f.failedOver <==> !f.unread)))
            && (!f.committed ==> !f.finished && !f.unread && !f.raised && !f.advanced)
            && (f.raised ==> f.failedOver)
            && (f.finished ==> f.advanced && c.envelope.state.Acknowledged? && c.envelope.result.Some? && c.envelope.error.None?)
            && (c.envelope.state.Acknowledged? && !f.committed ==> c.envelope.error.Some? || f.failedOver)
  {
    RunKeepsInv(INITIAL, steps);
    assert CommandFits(Run(INITIAL, steps), id);
  }

  /** Only acknowledged commands are ever driven. */
  lemma AdvancedMeansAcknowledged(steps: seq<Step>, id: Id)
    requires id in Run(INITIAL, steps).commands && Run(INITIAL, steps).commands[id].effects.advanced
    ensures Run(INITIAL, steps).commands[id].envelope.state.Acknowledged?
  {
    RunKeepsInv(INITIAL, steps);
    assert CommandFits(Run(INITIAL, steps), id);
  }

  /** One command, committed by the owner while the call still waits. */
  function CommittedInTime(now: int, timeout: nat): State {
    State(now, map[0 := Command(NewEnvelope(Some(timeout)), Waiting, COMMITTED)], [], Committed(0))
  }

  lemma PickIsReachable(timeout: nat)
    ensures Next(Next(INITIAL, Submit(0, timeout)), Pick)
         == State(0, map[0 := Command(NewEnvelope(Some(timeout)), Waiting, UNTOUCHED)], [], Picked(0))
  {
    var s1 := Next(INITIAL, Submit(0, timeout));
    assert s1.mailbox == [0];
  }

  lemma StartIsReachable(timeout: nat)
    ensures Next(Next(Next(INITIAL, Submit(0, timeout)), Pick), Start)
         == State(0, map[0 := Command(NewEnvelope(Some(timeout)), Waiting, UNTOUCHED)], [], Working(0))
  {
    PickIsReachable(timeout);
    var commands := map[0 := Command(NewEnvelope(Some(timeout)), Waiting, UNTOUCHED)];
    assert OwnerNext(State(0, commands, [], Picked(0)), 0, Start).commands == commands;
  }

  lemma CommitIsReachable(timeout: nat)
    requires timeout > 0
    ensures Next(Next(Next(Next(Next(INITIAL, Submit(0, timeout)), Pick), Start), CommitCheck(true, false)), Commit)
         == CommittedInTime(0, timeout)
  {
    var commands := map[0 := Command(NewEnvelope(Some(timeout)), Waiting, UNTOUCHED)];
    StartIsReachable(timeout);
    var s4 := Next(State(0, commands, [], Working(0)), CommitCheck(true, false));
    assert s4 == State(0, commands, [], InTransaction(0));
  }

  /** A state with one command and an empty mailbox. */
  function Only(now: int, e: Envelope, submitter: Submitter, effects: Effects, owner: Owner): State {
    State(now, map[0 := Command(e, submitter, effects)], [], owner)
  }

  /** The callback after a commit: acknowledged and driven in time, abandoned and failed over when late. */
  lemma CallbackDecidesByDeadline(result: Projection, now: int, timeout: nat)
    ensures var s := Next(Next(Next(CommittedInTime(now, timeout), Callback(result)), AcknowledgeCall), AbandonedCheck);
            s == if now < timeout
                 then Only(now, Envelope(Some(timeout), Acknowledged, true, Some(result), None), Waiting,
                           COMMITTED, Driving(0))
                 else Only(now, Envelope(Some(timeout), Abandoned, false, Some(result), None), Waiting,
                           COMMITTED, PostFailure(0))
  {
    var filled := Envelope(Some(timeout), Queued, false, Some(result), None);
    var effects := COMMITTED;
    var s1 := Next(CommittedInTime(now, timeout), Callback(result));
    assert s1 == Only(now, filled, Waiting, effects, Confirming(0));
    var s2 := Next(s1, AcknowledgeCall);
    assert s2 == Only(now, Acknowledge(filled, now).0, Waiting, effects, Checking(0));
  }

  /** From an acknowledgement in time: the call returns the record and the job is driven. */
  lemma AcknowledgedCommandReturns(now: int, timeout: nat, result: Projection)
    ensures var e := Envelope(Some(timeout), Acknowledged, true, Some(result), None);
            Next(Next(Next(Only(now, e, Waiting, COMMITTED, Driving(0)),
                           WaitReturns(0)), ReadOutcome(0)), Advance(false))
            == Only(now, e, Returned(result), COMMITTED.(advanced := true, finished := true), Idle)
  {
    var e := Envelope(Some(timeout), Acknowledged, true, Some(result), None);
    var s1 := Next(Only(now, e, Waiting, COMMITTED, Driving(0)), WaitReturns(0));
    assert s1 == Only(now, e, Woken, COMMITTED, Driving(0));
    var s2 := Next(s1, ReadOutcome(0));
    assert s2 == Only(now, e, Returned(result), COMMITTED, Driving(0));
  }

  /** From a late acknowledgement: the call raises the timeout and the job is only failed over. */
  lemma AbandonedCommandIsFailedOver(now: int, timeout: nat, result: Projection)
    ensures var e := Envelope(Some(timeout), Abandoned, false, Some(result), None);
            Next(Next(Next(Only(now, e, Waiting, COMMITTED, PostFailure(0)),
                           RecordFailure), WaitReturns(0)), AbandonCall(0))
            == Only(now, e, TimeoutRaised, COMMITTED.(failedOver := true), Idle)
  {
    var e := Envelope(Some(timeout), Abandoned, false, Some(result), None);
    var s1 := Next(Only(now, e, Waiting, COMMITTED, PostFailure(0)), RecordFailure);
    assert s1 == Only(now, e, Waiting, COMMITTED.(failedOver := true), Idle);
    var s2 := Next(s1, WaitReturns(0));
    assert s2 == Only(now, e, WaitExpired, COMMITTED.(failedOver := true), Idle);
  }

  // ------------------------------------------- the exception, from the start

  ghost predicate Reachable(s: State) {
    exists steps :: Run(INITIAL, steps) == s
  }

  lemma {:induction false} RunThenStep(s: State, steps: seq<Step>, step: Step)
    ensures Run(s, steps + [step]) == Next(Run(s, steps), step)
    decreases |steps|
  {
    if steps == [] {
      assert [step][1..] == [] && Run(Next(s, step), []) == Next(s, step);
      assert [] + [step] == [step];
    } else {
      assert (steps + [step])[1..] == steps[1..] + [step];
      RunThenStep(Next(s, steps[0]), steps[1..], step);
    }
  }

  lemma StepIsReachable(s: State, step: Step)
    requires Reachable(s)
    ensures Reachable(Next(s, step))
  {
    var steps :| Run(INITIAL, steps) == s;
    RunThenStep(INITIAL, steps, step);
  }

  lemma CommittedIsReachable(timeout: nat)
    requires timeout > 0
    ensures Reachable(CommittedInTime(0, timeout))
  {
    CommitIsReachable(timeout);
    assert Run(INITIAL, []) == INITIAL;
    var s1 := Next(INITIAL, Submit(0, timeout));
    var s2 := Next(s1, Pick);
    var s3 := Next(s2, Start);
    StepIsReachable(INITIAL, Submit(0, timeout));
    StepIsReachable(s1, Pick);
    StepIsReachable(s2, Start);
    StepIsReachable(s3, CommitCheck(true, false));
    StepIsReachable(Next(s3, CommitCheck(true, false)), Commit);
  }

  /** Raised after the commit, unreadable, and too late to be answered. */
  lemma DoubleFaultEnds(now: int, timeout: nat, error: string)
    requires timeout <= now
    ensures Next(Next(Next(CommittedInTime(now, timeout), ChainRaises), FillError(error)), AcknowledgeCall)
         == Only(now, Envelope(Some(timeout), Abandoned, false, None, Some(error)), Waiting, COMMITTED.(unread := true), Idle)
  {
    var s1 := Next(CommittedInTime(now, timeout), ChainRaises);
    assert s1 == Only(now, NewEnvelope(Some(timeout)), Waiting, COMMITTED, PreFailure(0));
    var s2 := Next(s1, FillError(error));
    assert s2 == Only(now, Envelope(Some(timeout), Queued, false, None, Some(error)), Waiting, COMMITTED.(unread := true), Answering(0));
  }

  /** The submitter of an abandoned command gives up. */
  lemma AbandonedCallTimesOut(now: int, e: Envelope, effects: Effects)
    requires e.state.Abandoned? && !e.signalled
    ensures Next(Next(Only(now, e, Waiting, effects, Idle), WaitReturns(0)), AbandonCall(0))
         == Only(now, e, TimeoutRaised, effects, Idle)
  {
    var s1 := Next(Only(now, e, Waiting, effects, Idle), WaitReturns(0));
    assert s1 == Only(now, e, WaitExpired, effects, Idle);
  }

  /** The exception is real: from the start, a timed-out command that is committed and never handed to the failure record. */
  lemma DoubleFaultIsNotFailedOver(timeout: nat, error: string)
    requires timeout > 0
    ensures Reachable(Only(timeout, Envelope(Some(timeout), Abandoned, false, None, Some(error)), TimeoutRaised,
                           COMMITTED.(unread := true), Idle))
  {
    var e := Envelope(Some(timeout), Abandoned, false, None, Some(error));
    var effects := COMMITTED.(unread := true);
    CommittedIsReachable(timeout);
    StepIsReachable(CommittedInTime(0, timeout), Tick(timeout));
    var late := CommittedInTime(timeout, timeout);
    assert Next(CommittedInTime(0, timeout), Tick(timeout)) == late;
    DoubleFaultEnds(timeout, timeout, error);
    StepIsReachable(late, ChainRaises);
    StepIsReachable(Next(late, ChainRaises), FillError(error));
    StepIsReachable(Next(Next(late, ChainRaises), FillError(error)), AcknowledgeCall);
    AbandonedCallTimesOut(timeout, e, effects);
    StepIsReachable(Only(timeout, e, Waiting, effects, Idle), WaitReturns(0));
    StepIsReachable(Next(Only(timeout, e, Waiting, effects, Idle), WaitReturns(0)), AbandonCall(0));
  }
}
