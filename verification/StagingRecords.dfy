/**
 The records of staged input: bundle names, leases and admissions.

 A digest stands for the bytes it is the digest of, and a derived job id is the
 pair it is derived from, so both are injective by construction. UUIDs, nonces
 and boot ids are numbers; only their equality matters.
 */
module StagingRecords {
  import opened Wrappers

  datatype Role = Image | Gcode

  type RequestId = nat

  type BootId = nat

  /** A SHA-256 value, which identifies the bytes. */
  type Digest = nat

  /** A canonical bundle name, already parsed: role, request and nonce. */
  datatype BundleName = BundleName(role: Role, request: RequestId, nonce: nat)

  datatype Payload = Payload(device: nat, inode: nat, digest: Digest)

  datatype LeaseState = PublishedUnsent | DispatchUncertain

  datatype Lease = Lease(
    request: RequestId,
    role: Role,
    state: LeaseState,
    payload: Payload,
    boot: BootId,
    deadline: nat)

  datatype AdmissionState = RequestDecoded | Claimed | DurablyAdmitted | Consumed | Quarantined | RecoveryRequired

  datatype JobId = JobId(request: RequestId, role: Role)

  datatype Admission = Admission(
    request: RequestId,
    role: Role,
    bundle: BundleName,
    payload: Payload,
    boot: BootId,
    deadline: nat,
    state: AdmissionState,
    job: Option<JobId>,
    revision: nat)

  /** The record a decoded request registers from its lease. */
  function Decoded(name: BundleName, lease: Lease): Admission {
    Admission(lease.request, lease.role, name, lease.payload, lease.boot, lease.deadline, RequestDecoded, None, 0)
  }

  /** The state edges the repository's table accepts. */
  predicate Edge(from: AdmissionState, to: AdmissionState) {
    match from
    case RequestDecoded => to.Claimed? || to.Quarantined? || to.RecoveryRequired?
    case Claimed => to.DurablyAdmitted? || to.Quarantined? || to.RecoveryRequired?
    case DurablyAdmitted => to.Consumed? || to.RecoveryRequired?
    case Quarantined => to.RecoveryRequired?
    case _ => false
  }

  /** The compare-and-set update of one row; None when no row has that state and revision, or the edge is illegal. */
  function Transition(current: Admission, revision: nat, expected: AdmissionState, to: AdmissionState): Option<Admission> {
    if current.revision == revision && current.state == expected && Edge(expected, to)
    then Some(current.(state := to, revision := revision + 1))
    else None
  }

  /** A lease belongs under a name that binds its request and role. */
  predicate Binds(name: BundleName, lease: Lease) {
    name.request == lease.request && name.role == lease.role
  }

  /** The record and the lease it is compared with before anything is moved or claimed. */
  predicate Matches(a: Admission, lease: Lease) {
    a.request == lease.request && a.role == lease.role && a.payload == lease.payload
  }

  function Rank(state: AdmissionState): nat {
    match state
    case RequestDecoded => 0
    case Claimed => 1
    case DurablyAdmitted => 2
    case Quarantined => 2
    case Consumed => 3
    case RecoveryRequired => 3
  }

  /** The table only lets a record go on: decoded, claimed, admitted, consumed; set aside only before it was admitted. */
  lemma EdgesGoOn(from: AdmissionState, to: AdmissionState)
    ensures Edge(from, to) ==> Rank(from) < Rank(to)
    ensures Edge(from, Consumed) <==> from.DurablyAdmitted?
    ensures Edge(from, DurablyAdmitted) <==> from.Claimed?
    ensures Edge(from, Claimed) <==> from.RequestDecoded?
    ensures Edge(from, Quarantined) <==> from.RequestDecoded? || from.Claimed?
  {
  }
}
