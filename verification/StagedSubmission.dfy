/**
 The chain's own side of a staged submit: importing the claimed payload into the
 artifact store, the three commit checks, the transaction, the discard on every
 other exit, and the recovery that startup runs over claimed admissions.
 */
module StagedSubmission {
  import opened Wrappers
  import opened StagingRecords

  /** One promoted input: the tree under `artifacts/input-<request>` of one job. */
  datatype Attempt = Attempt(job: JobId, request: RequestId)

  /** The only file of that tree: its name under `inputs`, its digest and its size. */
  datatype File = File(name: string, digest: Digest, size: nat)

  datatype ArtifactRef = ArtifactRef(role: string, path: seq<string>, attempt: RequestId, digest: Digest, size: nat, media: string)

  /** A created job and its input artifact; only a job without a staged claim starts with none. */
  datatype JobRow = JobRow(role: Role, artifact: Option<ArtifactRef>)

  function ArtifactRole(role: Role): string {
    if role.Image? then "input_image" else "gcode"
  }

  function MediaType(role: Role): string {
    if role.Image? then "image/png" else "text/x.gcode"
  }

  /** The claimed admission as the chain reads it. */
  datatype Claim = Claim(request: RequestId, role: Role, state: AdmissionState, revision: nat, digest: Digest, size: nat)

  function JobFor(c: Claim): JobId {
    JobId(c.request, c.role)
  }

  function AttemptOf(c: Claim): Attempt {
    Attempt(JobFor(c), c.request)
  }

  /** The reference a submit imports to, or finds from an earlier attempt. */
  function ImportRef(c: Claim, role: Role, sourceName: string): ArtifactRef {
    ArtifactRef(ArtifactRole(role), ["inputs", sourceName], c.request, c.digest, c.size, MediaType(role))
  }

  /** The reference startup rebuilds from the admission alone. */
  function RecoveryRef(c: Claim): ArtifactRef {
    ArtifactRef(ArtifactRole(c.role), ["inputs", "payload"], c.request, c.digest, c.size, MediaType(c.role))
  }

  /** They are the same reference exactly for a claimed bundle's own payload file. */
  lemma RecoveryRebuildsTheImport(c: Claim, sourceName: string)
    ensures ImportRef(c, c.role, sourceName) == RecoveryRef(c) <==> sourceName == "payload"
  {
    assert ImportRef(c, c.role, sourceName).path[1] == sourceName;
    assert RecoveryRef(c).path[1] == "payload";
  }

  datatype Read = Found | Invalid | Mismatch

  /** Reading a reference: an absent file and an unreadable one give the same error. */
  function ReadRef(store: map<Attempt, File>, attempt: Attempt, ref: ArtifactRef, unreadable: set<Attempt>): Read {
    if attempt !in store || attempt in unreadable || ref.path != ["inputs", store[attempt].name] then Invalid
    else if store[attempt].digest != ref.digest || store[attempt].size != ref.size then Mismatch
    else Found
  }

  datatype Error =
    | JobExists | NotClaimed | ReadMismatch | ImportFailed | TransactionFailed | DiscardFailed | AfterCommit | UnexpectedJob

  datatype Outcome = Committed | Abandoned | Raised(error: Error)

  /** How the import ends: a post-publication check can raise although the tree is already in place. */
  datatype ImportResult = Imported | FailsBefore | RaisesAfterRename

  /** How a revocation ends: after its rename nothing is left under the attempt name, even if what follows raises. */
  datatype DiscardResult = Succeeds | FailsAtOnce | FailsAfterRename

  /** Everything a submit does not decide itself. */
  datatype Oracle = Oracle(
    allowedAtStart: bool,
    allowedAfterImport: bool,
    allowedInTransaction: bool,
    unreadable: set<Attempt>,
    importing: ImportResult,
    transactionFails: bool,
    discarding: DiscardResult,
    raisesAfterCommit: bool)         // remembering the bundle or the caller's callback raises

  datatype Submission = Submission(request: RequestId, role: Role, source: File)

  // ------------------------------------------- what decides a submit beforehand

  function AttemptFor(s: Submission): Attempt {
    Attempt(JobId(s.request, s.role), s.request)
  }

  /** The claim lets the submit import, where the request has one. */
  predicate Admissible(s: Submission, claims: map<RequestId, Claim>) {
    s.request in claims ==> claims[s.request].state.Claimed? && claims[s.request].role == s.role
  }

  /** Every commit check is answered yes and the transaction goes through. */
  predicate Undisturbed(o: Oracle) {
    o.allowedAtStart && o.allowedAfterImport && o.allowedInTransaction && !o.transactionFails
  }

  /** There is an input to commit: an earlier attempt left the exact one, or a new import succeeds. */
  predicate InputReady(s: Submission, o: Oracle, claims: map<RequestId, Claim>, store: map<Attempt, File>) {
    s.request in claims ==>
      || ReadRef(store, AttemptFor(s), ImportRef(claims[s.request], s.role, s.source.name), o.unreadable).Found?
      || (AttemptFor(s) !in store && o.importing.Imported?)
  }

  /** Exactly these submits commit. */
  predicate Commits(s: Submission, o: Oracle, claims: map<RequestId, Claim>, jobs: map<JobId, JobRow>, store: map<Attempt, File>) {
    JobId(s.request, s.role) !in jobs && Admissible(s, claims) && InputReady(s, o, claims, store) && Undisturbed(o)
  }

  /** Exactly these submits leave a newly imported tree although they commit nothing. */
  predicate Strands(s: Submission, o: Oracle, claims: map<RequestId, Claim>, jobs: map<JobId, JobRow>, store: map<Attempt, File>) {
    && JobId(s.request, s.role) !in jobs && s.request in claims && Admissible(s, claims) && AttemptFor(s) !in store
    && o.allowedAtStart
    && (o.importing.RaisesAfterRename? || (o.importing.Imported? && !Undisturbed(o) && o.discarding.FailsAtOnce?))
  }

  class Chain {
    var claims: map<RequestId, Claim>
    var jobs: map<JobId, JobRow>
    var store: map<Attempt, File>

    constructor (claims: map<RequestId, Claim>)
      ensures this.claims == claims && jobs == map[] && store == map[]
    {
      this.claims := claims;
      jobs, store := map[], map[];
    }

    /**
     Revoking a promoted input. An attempt already gone is not an error; the tree
     remains exactly when the call failed before its rename, and then it fails.
     */
    method Discard(attempt: Attempt, result: DiscardResult) returns (done: bool)
      modifies this`store
      ensures attempt in store <==> attempt in old(store) && result.FailsAtOnce?
      ensures store == if result.FailsAtOnce? then old(store) else old(store) - {attempt}
      ensures !done <==> result.FailsAtOnce? || (result.FailsAfterRename? && attempt in old(store))
    {
      if result.FailsAtOnce? {
        return false;
      }
      if attempt !in store {
        return true;
      }
      store := store - {attempt};
      return result.Succeeds?;
    }

    /**
     A submit. It creates its job, together with the claim's new state, exactly
     when `Commits` says so beforehand, also if an error follows the commit. A
     tree it newly imported is in the store afterwards exactly when its job is,
     except in the cases `Strands` names: the import raised after publishing, or
     the discard failed before its rename. Older trees are untouched.
     */
    method Submit(s: Submission, o: Oracle) returns (outcome: Outcome)
      modifies this
      ensures JobId(s.request, s.role) in jobs <==>
                JobId(s.request, s.role) in old(jobs) || Commits(s, o, old(claims), old(jobs), old(store))
      ensures outcome.Committed? <==> Commits(s, o, old(claims), old(jobs), old(store)) && !o.raisesAfterCommit
      ensures outcome == Raised(AfterCommit) <==> Commits(s, o, old(claims), old(jobs), old(store)) && o.raisesAfterCommit
      ensures outcome == Raised(JobExists) <==> JobId(s.request, s.role) in old(jobs)
      ensures outcome == Raised(DiscardFailed) <==>
                && JobId(s.request, s.role) !in old(jobs) && s.request in old(claims) && Admissible(s, old(claims))
                && AttemptFor(s) !in old(store) && o.allowedAtStart && o.importing.Imported? && !Undisturbed(o)
                && !o.discarding.Succeeds?
      ensures outcome.Abandoned? ==> !o.allowedAtStart || !o.allowedAfterImport || !o.allowedInTransaction
      ensures forall a :: a in old(store) ==> a in store && store[a] == old(store)[a]
      ensures forall a :: a in store && a !in old(store) ==> a == AttemptFor(s) && store[a] == s.source
      ensures AttemptFor(s) !in old(store) && s.request in old(claims) && JobId(s.request, s.role) !in old(jobs) ==>
                (AttemptFor(s) in store <==>
                   JobId(s.request, s.role) in jobs || Strands(s, o, old(claims), old(jobs), old(store)))
      ensures s.request !in old(claims) || JobId(s.request, s.role) in old(jobs) ==> store == old(store)
      ensures var job := JobId(s.request, s.role);
              if !Commits(s, o, old(claims), old(jobs), old(store)) then jobs == old(jobs) && claims == old(claims)
              else
                && jobs == old(jobs)[job := jobs[job]] && jobs[job].role == s.role
                && (jobs[job].artifact.Some? <==> s.request in old(claims))
      ensures Commits(s, o, old(claims), old(jobs), old(store)) ==>
                if s.request !in old(claims) then claims == old(claims)
                else
                  var c := old(claims)[s.request];
                  && claims == old(claims)[s.request := c.(state := DurablyAdmitted, revision := c.revision + 1)]
                  && ReadRef(store, AttemptFor(s), jobs[JobId(s.request, s.role)].artifact.value, {}).Found?
    {
      var job := JobId(s.request, s.role);
      if job in jobs {
        return Raised(JobExists);
      }
      if !o.allowedAtStart {
        return Abandoned;
      }
      var attempt := Attempt(job, s.request);
      var artifact: Option<ArtifactRef> := None;
      var imported := false;
      if s.request in claims {
        var c := claims[s.request];
        if !c.state.Claimed? || c.role != s.role {
          return Raised(NotClaimed);
        }
        artifact := Some(ImportRef(c, s.role, s.source.name));
        match ReadRef(store, attempt, artifact.value, o.unreadable) {
          case Mismatch =>
            return Raised(ReadMismatch);
          case Invalid =>
            if attempt in store || o.importing.FailsBefore? {
              return Raised(ImportFailed);
            }
            store := store[attempt := s.source];
            if o.importing.RaisesAfterRename? {
              return Raised(ImportFailed);
            }
            artifact := Some(artifact.value.(digest := s.source.digest, size := s.source.size));
            imported := true;
          case Found =>
        }
      }
      if !o.allowedAfterImport || o.transactionFails || !o.allowedInTransaction {
        if imported {
          var done := Discard(attempt, o.discarding);
          if !done {
            return Raised(DiscardFailed);
          }
        }
        return if o.allowedAfterImport && o.transactionFails then Raised(TransactionFailed) else Abandoned;
      }
      jobs := jobs[job := JobRow(s.role, artifact)];
      if s.request in claims {
        claims := claims[s.request := claims[s.request].(state := DurablyAdmitted, revision := claims[s.request].revision + 1)];
      }
      return if o.raisesAfterCommit then Raised(AfterCommit) else Committed;
    }

    /** Startup recovery over the listed admissions, one after another, up to the first error. */
    method RecoverUncommitted(listing: seq<Claim>, unreadable: set<Attempt>, discards: map<Attempt, DiscardResult>)
      returns (outcome: Result<(), Error>)
      modifies this`store
      ensures Recovered(store, outcome) == RecoverAll(old(store), jobs, listing, unreadable, discards)
    {
      var i := 0;
      while i < |listing|
        invariant 0 <= i <= |listing|
        invariant RecoverAll(old(store), jobs, listing, unreadable, discards)
               == RecoverAll(store, jobs, listing[i..], unreadable, discards)
      {
        assert listing[i..][1..] == listing[i + 1..];
        var c := listing[i];
        if c.state.Claimed? {
          if JobFor(c) in jobs {
            return Err(UnexpectedJob);
          }
          match ReadRef(store, AttemptOf(c), RecoveryRef(c), unreadable) {
            case Invalid =>
            case Mismatch =>
              return Err(ReadMismatch);
            case Found =>
              var done := Discard(AttemptOf(c), DiscardOf(discards, AttemptOf(c)));
              if !done {
                return Err(DiscardFailed);
              }
          }
        }
        i := i + 1;
      }
      return Ok(());
    }
  }

  datatype Recovered = Recovered(store: map<Attempt, File>, outcome: Result<(), Error>)

  function DiscardOf(discards: map<Attempt, DiscardResult>, attempt: Attempt): DiscardResult {
    if attempt in discards then discards[attempt] else Succeeds
  }

  function RecoverAll(store: map<Attempt, File>, jobs: map<JobId, JobRow>, listing: seq<Claim>,
                      unreadable: set<Attempt>, discards: map<Attempt, DiscardResult>): Recovered
    decreases |listing|
  {
    if listing == [] then Recovered(store, Ok(()))
    else
      var c, rest := listing[0], listing[1..];
      if !c.state.Claimed? then RecoverAll(store, jobs, rest, unreadable, discards)
      else if JobFor(c) in jobs then Recovered(store, Err(UnexpectedJob))
      else match ReadRef(store, AttemptOf(c), RecoveryRef(c), unreadable)
        case Invalid => RecoverAll(store, jobs, rest, unreadable, discards)
        case Mismatch => Recovered(store, Err(ReadMismatch))
        case Found =>
          match DiscardOf(discards, AttemptOf(c))
          case Succeeds => RecoverAll(store - {AttemptOf(c)}, jobs, rest, unreadable, discards)
          case FailsAtOnce => Recovered(store, Err(DiscardFailed))
          case FailsAfterRename => Recovered(store - {AttemptOf(c)}, Err(DiscardFailed))
  }

  /** Recovery only ever removes. */
  lemma {:induction false} RecoveryOnlyRemoves(store: map<Attempt, File>, jobs: map<JobId, JobRow>, listing: seq<Claim>,
                                               unreadable: set<Attempt>, discards: map<Attempt, DiscardResult>, attempt: Attempt)
    ensures var after := RecoverAll(store, jobs, listing, unreadable, discards).store;
            && (attempt in after ==> attempt in store && after[attempt] == store[attempt])
            && (attempt in store && attempt !in after ==>
                  exists c :: c in listing && c.state.Claimed? && AttemptOf(c) == attempt && JobFor(c) !in jobs
                              && store[attempt] == File("payload", c.digest, c.size))
    decreases |listing|
  {
    if listing != [] {
      var c, rest := listing[0], listing[1..];
      if c.state.Claimed? && JobFor(c) !in jobs && ReadRef(store, AttemptOf(c), RecoveryRef(c), unreadable).Found?
         && !DiscardOf(discards, AttemptOf(c)).FailsAtOnce? {
        assert store[AttemptOf(c)].name == RecoveryRef(c).path[1];
        if DiscardOf(discards, AttemptOf(c)).Succeeds? {
          RecoveryOnlyRemoves(store - {AttemptOf(c)}, jobs, rest, unreadable, discards, attempt);
        }
      } else {
        RecoveryOnlyRemoves(store, jobs, rest, unreadable, discards, attempt);
      }
    }
  }

  /**
   When startup recovery returns, a claimed admission has a promoted input
   exactly if one was there whose read failed: because the storage was
   unreadable, or because the tree does not hold the file `inputs/payload`.
   */
  lemma {:induction false} RecoveryRevokesClaimedInputs(store: map<Attempt, File>, jobs: map<JobId, JobRow>, listing: seq<Claim>,
                                                        unreadable: set<Attempt>, discards: map<Attempt, DiscardResult>, c: Claim)
    requires c in listing && c.state.Claimed?
    requires RecoverAll(store, jobs, listing, unreadable, discards).outcome.Ok?
    ensures AttemptOf(c) in RecoverAll(store, jobs, listing, unreadable, discards).store
            <==> AttemptOf(c) in store && (AttemptOf(c) in unreadable || store[AttemptOf(c)].name != "payload")
    decreases |listing|
  {
    var head, rest := listing[0], listing[1..];
    var found := ReadRef(store, AttemptOf(head), RecoveryRef(head), unreadable);
    assert RecoveryRef(head).path[1] == "payload";
    var next := if head.state.Claimed? && found.Found? then store - {AttemptOf(head)} else store;
    if AttemptOf(head) in store {
      assert ["inputs", store[AttemptOf(head)].name][1] == store[AttemptOf(head)].name;
    }
    if c in rest {
      RecoveryRevokesClaimedInputs(next, jobs, rest, unreadable, discards, c);
    } else {
      assert c == head;
      RecoveryOnlyRemoves(next, jobs, rest, unreadable, discards, AttemptOf(c));
      if AttemptOf(c) in next {
        RecoveryKeepsUnread(next, jobs, rest, unreadable, discards, AttemptOf(c));
      }
    }
  }

  /** What recovery cannot read it leaves in place. */
  lemma {:induction false} RecoveryKeepsUnread(store: map<Attempt, File>, jobs: map<JobId, JobRow>, listing: seq<Claim>,
                                               unreadable: set<Attempt>, discards: map<Attempt, DiscardResult>, attempt: Attempt)
    requires attempt in store && (attempt in unreadable || store[attempt].name != "payload")
    ensures attempt in RecoverAll(store, jobs, listing, unreadable, discards).store
    decreases |listing|
  {
    if listing != [] {
      var c, rest := listing[0], listing[1..];
      assert RecoveryRef(c).path[1] == "payload";
      assert ["inputs", store[attempt].name][1] == store[attempt].name;
      if c.state.Claimed? && JobFor(c) !in jobs && ReadRef(store, AttemptOf(c), RecoveryRef(c), unreadable).Found?
         && !DiscardOf(discards, AttemptOf(c)).FailsAtOnce? {
        RecoveryKeepsUnread(store - {AttemptOf(c)}, jobs, rest, unreadable, discards, attempt);
      } else {
        RecoveryKeepsUnread(store, jobs, rest, unreadable, discards, attempt);
      }
    }
  }

  /** With every staged source a bundle's payload file and every read answered, no claimed admission keeps an input. */
  lemma NoClaimedInputAfterRecovery(store: map<Attempt, File>, jobs: map<JobId, JobRow>, listing: seq<Claim>,
                                    discards: map<Attempt, DiscardResult>)
    requires forall a :: a in store ==> store[a].name == "payload"
    requires RecoverAll(store, jobs, listing, {}, discards).outcome.Ok?
    ensures forall c :: c in listing && c.state.Claimed? ==> AttemptOf(c) !in RecoverAll(store, jobs, listing, {}, discards).store
  {
    forall c | c in listing && c.state.Claimed?
      ensures AttemptOf(c) !in RecoverAll(store, jobs, listing, {}, discards).store
    {
      RecoveryRevokesClaimedInputs(store, jobs, listing, {}, discards, c);
    }
  }

  // --------------------------------------------- when recovery gets through

  /** The file startup looks for is there and answers its read. */
  predicate Readable(store: map<Attempt, File>, attempt: Attempt, unreadable: set<Attempt>) {
    attempt in store && attempt !in unreadable && store[attempt].name == "payload"
  }

  predicate SameFile(f: File, c: Claim) {
    f.digest == c.digest && f.size == c.size
  }

  /** What stands in the way of one claimed admission: its error, or nothing. */
  function Obstacle(store: map<Attempt, File>, jobs: map<JobId, JobRow>, c: Claim,
                    unreadable: set<Attempt>, discards: map<Attempt, DiscardResult>): Option<Error>
  {
    if !c.state.Claimed? then None
    else if JobFor(c) in jobs then Some(UnexpectedJob)
    else if !Readable(store, AttemptOf(c), unreadable) then None
    else if !SameFile(store[AttemptOf(c)], c) then Some(ReadMismatch)
    else if AttemptOf(c) in discards && !discards[AttemptOf(c)].Succeeds? then Some(DiscardFailed)
    else None
  }

  /** The table has one row per request. */
  predicate OneRowEach(listing: seq<Claim>) {
    forall i, j :: 0 <= i < j < |listing| ==> listing[i].request != listing[j].request
  }

  lemma ReadAsReadable(store: map<Attempt, File>, c: Claim, unreadable: set<Attempt>)
    ensures var read := ReadRef(store, AttemptOf(c), RecoveryRef(c), unreadable);
            && (read.Invalid? <==> !Readable(store, AttemptOf(c), unreadable))
            && (read.Found? <==> Readable(store, AttemptOf(c), unreadable) && SameFile(store[AttemptOf(c)], c))
  {
    assert RecoveryRef(c).path[1] == "payload";
    if AttemptOf(c) in store {
      assert ["inputs", store[AttemptOf(c)].name][1] == store[AttemptOf(c)].name;
    }
  }

  /** An admission's obstacle does not depend on the inputs of others. */
  lemma OthersDoNotObstruct(store: map<Attempt, File>, jobs: map<JobId, JobRow>, c: Claim, other: Claim,
                            unreadable: set<Attempt>, discards: map<Attempt, DiscardResult>)
    requires c.request != other.request
    ensures Obstacle(store - {AttemptOf(other)}, jobs, c, unreadable, discards) == Obstacle(store, jobs, c, unreadable, discards)
  {
  }

  /** The first obstructed admission of the listing is the one at `i`, and `error` is its error. */
  predicate FirstObstructed(store: map<Attempt, File>, jobs: map<JobId, JobRow>, listing: seq<Claim>,
                            unreadable: set<Attempt>, discards: map<Attempt, DiscardResult>, i: nat, error: Error)
  {
    && i < |listing| && Obstacle(store, jobs, listing[i], unreadable, discards) == Some(error)
    && forall j :: 0 <= j < i ==> Obstacle(store, jobs, listing[j], unreadable, discards).None?
  }

  /**
   Startup recovery gets through exactly when nothing stands in the way of any
   admission, and otherwise ends with the error of the first one that is
   obstructed, all judged by the store as recovery finds it.
   */
  lemma {:induction false} RecoveryEndsExactly(store: map<Attempt, File>, jobs: map<JobId, JobRow>, listing: seq<Claim>,
                                               unreadable: set<Attempt>, discards: map<Attempt, DiscardResult>)
    requires OneRowEach(listing)
    ensures var outcome := RecoverAll(store, jobs, listing, unreadable, discards).outcome;
            && (outcome.Ok? <==> forall i :: 0 <= i < |listing| ==> Obstacle(store, jobs, listing[i], unreadable, discards).None?)
            && (outcome.Err? ==> exists i :: FirstObstructed(store, jobs, listing, unreadable, discards, i, outcome.error))
    decreases |listing|
  {
    if listing != [] {
      var c, rest := listing[0], listing[1..];
      ReadAsReadable(store, c, unreadable);
      var obstacle := Obstacle(store, jobs, c, unreadable, discards);
      if obstacle.Some? {
        assert FirstObstructed(store, jobs, listing, unreadable, discards, 0, obstacle.value);
      } else {
        var revoked := c.state.Claimed? && Readable(store, AttemptOf(c), unreadable);
        var next := if revoked then store - {AttemptOf(c)} else store;
        var outcome := RecoverAll(next, jobs, rest, unreadable, discards).outcome;
        RecoveryEndsExactly(next, jobs, rest, unreadable, discards);
        forall i | 0 < i < |listing|
          ensures Obstacle(next, jobs, rest[i - 1], unreadable, discards) == Obstacle(store, jobs, listing[i], unreadable, discards)
        {
          OthersDoNotObstruct(store, jobs, listing[i], c, unreadable, discards);
        }
        if outcome.Err? {
          var i :| FirstObstructed(next, jobs, rest, unreadable, discards, i, outcome.error);
          FirstOfTheRest(store, next, jobs, listing, unreadable, discards, i, outcome.error);
        } else {
          forall i | 0 <= i < |listing| ensures Obstacle(store, jobs, listing[i], unreadable, discards).None? {
            assert i > 0 ==> Obstacle(next, jobs, rest[i - 1], unreadable, discards).None?;
          }
        }
      }
    }
  }

  lemma FirstOfTheRest(store: map<Attempt, File>, next: map<Attempt, File>, jobs: map<JobId, JobRow>, listing: seq<Claim>,
                       unreadable: set<Attempt>, discards: map<Attempt, DiscardResult>, i: nat, error: Error)
    requires listing != [] && Obstacle(store, jobs, listing[0], unreadable, discards).None?
    requires forall k :: 0 < k < |listing| ==>
               Obstacle(next, jobs, listing[1..][k - 1], unreadable, discards) == Obstacle(store, jobs, listing[k], unreadable, discards)
    requires FirstObstructed(next, jobs, listing[1..], unreadable, discards, i, error)
    ensures FirstObstructed(store, jobs, listing, unreadable, discards, i + 1, error)
  {
    assert Obstacle(next, jobs, listing[1..][i + 1 - 1], unreadable, discards) == Some(error);
    forall j | 0 <= j < i + 1 ensures Obstacle(store, jobs, listing[j], unreadable, discards).None? {
      if j > 0 {
        assert Obstacle(next, jobs, listing[1..][j - 1], unreadable, discards).None?;
      }
    }
  }

  /** The plain crash between claim and import: nothing was promoted, and startup gets through. */
  lemma UnimportedClaimRecovers(c: Claim, discards: map<Attempt, DiscardResult>)
    ensures RecoverAll(map[], map[], [c], {}, discards) == Recovered(map[], Ok(()))
  {
    assert [c][1..] == [];
    ReadAsReadable(map[], c, {});
  }

  /** The exception is real: an input that cannot be read survives a recovery that returns. */
  lemma UnreadableInputSurvives(c: Claim, jobs: map<JobId, JobRow>)
    requires c.state.Claimed? && JobFor(c) !in jobs
    ensures var store := map[AttemptOf(c) := File("payload", c.digest, c.size)];
            RecoverAll(store, jobs, [c], {AttemptOf(c)}, map[]) == Recovered(store, Ok(()))
  {
    assert [c][1..] == [];
  }

  /** A discard that fails after its rename raises although the input is gone. */
  lemma FailedDiscardMayHaveRevoked(c: Claim, jobs: map<JobId, JobRow>)
    requires c.state.Claimed? && JobFor(c) !in jobs
    ensures var store := map[AttemptOf(c) := File("payload", c.digest, c.size)];
            RecoverAll(store, jobs, [c], {}, map[AttemptOf(c) := FailsAfterRename]) == Recovered(map[], Err(DiscardFailed))
  {
    var store := map[AttemptOf(c) := File("payload", c.digest, c.size)];
    assert store - {AttemptOf(c)} == map[];
  }

  /** The exception is real: an import that raises after its rename leaves its tree with a claim and no job. */
  method ImportCanBeStranded(c: Claim, source: File) returns (chain: Chain)
    requires c.state.Claimed?
    ensures fresh(chain) && chain.jobs == map[] && chain.claims == map[c.request := c]
    ensures chain.store == map[AttemptOf(c) := source]
  {
    chain := new Chain(map[c.request := c]);
    var s := Submission(c.request, c.role, source);
    var o := Oracle(true, true, true, {}, RaisesAfterRename, false, Succeeds, false);
    assert Strands(s, o, chain.claims, chain.jobs, chain.store);
    var outcome := chain.Submit(s, o);
  }

  /** The plain case is possible too: a claimed request with a sound import commits. */
  method ClaimedSubmitCommits(c: Claim, source: File) returns (chain: Chain, outcome: Outcome)
    requires c.state.Claimed?
    ensures fresh(chain) && outcome.Committed? && JobFor(c) in chain.jobs && chain.store == map[AttemptOf(c) := source]
  {
    chain := new Chain(map[c.request := c]);
    outcome := chain.Submit(Submission(c.request, c.role, source), Oracle(true, true, true, {}, Imported, false, Succeeds, false));
  }
}
