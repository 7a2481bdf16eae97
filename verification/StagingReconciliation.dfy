/**
 The bundle half of a reconcile pass over one role: what happens to every entry
 of drop and admitted, given a snapshot of the admission table that may already
 be stale, the set of active requests and the clock.

 `Decide` follows the pass's own order of checks for one bundle. `RoleStaging`
 is the directory state the pass changes in place, proved against the fold
 `VisitAll`; the theorems are about that fold.
 */
module StagingReconciliation {
  import opened Wrappers
  import opened StagingRecords

  datatype Phase = InDrop | InAdmitted

  datatype Verdict = Leave | MarkMismatch | RemoveThenConsume | Remove | Isolate

  predicate Early(state: AdmissionState) {
    state.RequestDecoded? || state.Claimed?
  }

  /** The deadline that applies to one bundle; zero means it applies already. */
  function EffectiveDeadline(lease: Lease, admission: Option<Admission>, boot: BootId): nat {
    if admission.None? && lease.boot == boot then lease.deadline
    else if admission.None? || admission.value.boot != boot then 0
    else admission.value.deadline
  }

  /** The checks on one well-formed bundle, in the order the pass makes them. */
  function Decide(phase: Phase, lease: Lease, admission: Option<Admission>,
                  active: set<RequestId>, now: nat, boot: BootId): Verdict
  {
    if lease.request in active && (admission.None? || Early(admission.value.state)) then Leave
    else if admission.Some? && !Matches(admission.value, lease) then MarkMismatch
    else if admission.Some? && Early(admission.value.state) && now < admission.value.deadline && admission.value.boot == boot
    then Leave
    else if admission.Some? && admission.value.state.DurablyAdmitted? && phase.InAdmitted? then RemoveThenConsume
    else if admission.Some? && admission.value.state.Consumed? then Remove
    else if now >= EffectiveDeadline(lease, admission, boot) then Isolate
    else Leave
  }

  // ------------------------------------------------ when a bundle may leave

  /** The bundle's own authority, its record if it has one, has run out or is from another boot. */
  predicate Expired(lease: Lease, admission: Option<Admission>, now: nat, boot: BootId) {
    match admission
    case None => lease.boot != boot || lease.deadline <= now
    case Some(a) => a.boot != boot || a.deadline <= now
  }

  /** An active request shields its bundle until the job is durable. */
  predicate Shielded(lease: Lease, admission: Option<Admission>, active: set<RequestId>) {
    lease.request in active && (admission.None? || Early(admission.value.state))
  }

  /** The admission already gave the bundle's bytes to a job. */
  predicate HandedOver(phase: Phase, admission: Option<Admission>) {
    admission.Some? && (admission.value.state.Consumed? || (admission.value.state.DurablyAdmitted? && phase.InAdmitted?))
  }

  predicate Agrees(lease: Lease, admission: Option<Admission>) {
    admission.Some? ==> Matches(admission.value, lease)
  }

  /**
   A bundle is deleted exactly when its matching record has handed it over, and
   set aside exactly when it is unshielded, not handed over and expired.
   */
  lemma DecideByAuthority(phase: Phase, lease: Lease, admission: Option<Admission>,
                          active: set<RequestId>, now: nat, boot: BootId)
    ensures var v := Decide(phase, lease, admission, active, now, boot);
            && (v.RemoveThenConsume? || v.Remove? <==> Agrees(lease, admission) && HandedOver(phase, admission))
            && (v.Isolate? <==> && Agrees(lease, admission) && !HandedOver(phase, admission)
                                && !Shielded(lease, admission, active) && Expired(lease, admission, now, boot))
            && (v.MarkMismatch? <==> !Agrees(lease, admission) && !Shielded(lease, admission, active))
  {
  }

  // -------------------------------------------------- directories in place

  datatype FileName = Stage(name: BundleName) | Foreign(text: string)

  datatype Entry = Special | Malformed | Bundle(lease: Lease)

  datatype Held = Held(file: FileName, entry: Entry)

  /**
   The directories of one role, its admission rows, whether a recovery marker was
   written, and the entries whose removal failed after they were detached.
   */
  datatype Disk = Disk(
    drop: map<FileName, Entry>,
    admitted: map<FileName, Entry>,
    quarantine: set<Held>,
    rows: map<RequestId, Admission>,
    marked: bool,
    detached: set<FileName>)
  {
    function Under(phase: Phase): map<FileName, Entry> {
      if phase.InDrop? then drop else admitted
    }

    function Without(phase: Phase, file: FileName): Disk {
      if phase.InDrop? then this.(drop := drop - {file}) else this.(admitted := admitted - {file})
    }
  }

  /** What one pass knows: its snapshot by bundle name, the active requests, the clock, and the faults it meets. */
  datatype Pass = Pass(
    role: Role,
    records: map<BundleName, Admission>,
    active: set<RequestId>,
    now: nat,
    boot: BootId,
    faults: map<FileName, MoveFault>,
    markerFails: set<FileName>)

  /** A move or removal fails before its rename, or raises although the entry is already gone from its name. */
  datatype MoveFault = NotMoved | FailsAfterRename

  datatype Visited = Visited(disk: Disk, blocked: bool, raised: bool)

  /** The lease the pass reads; None is every reason to call the bundle invalid. */
  function ReadLease(role: Role, file: FileName, entry: Entry): Option<Lease> {
    if entry.Bundle? && file.Stage? && file.name.role == role && Binds(file.name, entry.lease)
    then Some(entry.lease) else None
  }

  function Record(pass: Pass, file: FileName): Option<Admission> {
    if file.Stage? && file.name in pass.records then Some(pass.records[file.name]) else None
  }

  function ApplyRow(disk: Disk, request: RequestId, revision: nat, expected: AdmissionState, to: AdmissionState): Visited {
    if request !in disk.rows then Visited(disk, false, true)
    else match Transition(disk.rows[request], revision, expected, to)
      case None => Visited(disk, false, true)
      case Some(row) => Visited(disk.(rows := disk.rows[request := row]), false, false)
  }

  /** The marker that blocks the role; failing to write it ends the pass. */
  function Marked(disk: Disk, file: FileName, pass: Pass): Visited {
    if file in pass.markerFails then Visited(disk, false, true) else Visited(disk.(marked := true), true, false)
  }

  /** The fault, if any, keeps the entry under its name. */
  predicate StaysPut(pass: Pass, file: FileName) {
    file in pass.faults && pass.faults[file].NotMoved?
  }

  function Isolated(disk: Disk, phase: Phase, file: FileName, pass: Pass): Visited
    requires file in disk.Under(phase)
  {
    if StaysPut(pass, file) then Marked(disk, file, pass)
    else
      var moved := disk.Without(phase, file).(quarantine := disk.quarantine + {Held(file, disk.Under(phase)[file])});
      if file in pass.faults then Marked(moved, file, pass) else Visited(moved, false, false)
  }

  function Removed(disk: Disk, phase: Phase, file: FileName, pass: Pass): Visited {
    if StaysPut(pass, file) then Marked(disk, file, pass)
    else
      var gone := disk.Without(phase, file);
      if file in pass.faults then Marked(gone.(detached := disk.detached + {file}), file, pass) else Visited(gone, false, false)
  }

  /** One entry of one phase directory. */
  function Visit(disk: Disk, phase: Phase, file: FileName, pass: Pass): Visited
    requires file in disk.Under(phase)
  {
    var lease := ReadLease(pass.role, file, disk.Under(phase)[file]);
    if lease.None? then Isolated(disk, phase, file, pass)
    else
      var record := Record(pass, file);
      match Decide(phase, lease.value, record, pass.active, pass.now, pass.boot)
      case Leave => Visited(disk, false, false)
      case MarkMismatch => Marked(disk, file, pass)
      case RemoveThenConsume =>
        var gone := Removed(disk, phase, file, pass);
        if file in pass.faults then gone
        else ApplyRow(gone.disk, record.value.request, record.value.revision, DurablyAdmitted, Consumed)
      case Remove => Removed(disk, phase, file, pass)
      case Isolate =>
        var moved := Isolated(disk, phase, file, pass);
        if record.None? || file in pass.faults then moved
        else if record.value.request !in disk.rows then Visited(moved.disk, false, true)
        else ApplyRow(moved.disk, record.value.request, record.value.revision,
                      disk.rows[record.value.request].state, Quarantined)
  }

  /** The entries of a listing one after another; the first error ends the pass. */
  function VisitAll(disk: Disk, phase: Phase, listing: seq<FileName>, pass: Pass): Visited
    decreases |listing|
  {
    if listing == [] then Visited(disk, false, false)
    else if listing[0] !in disk.Under(phase) then VisitAll(disk, phase, listing[1..], pass)
    else
      var first := Visit(disk, phase, listing[0], pass);
      if first.raised then first
      else
        var rest := VisitAll(first.disk, phase, listing[1..], pass);
        rest.(blocked := first.blocked || rest.blocked)
  }

  /** Drop first, then admitted; any recovery marker left in quarantine blocks the role. */
  function VisitRole(disk: Disk, dropListing: seq<FileName>, admittedListing: seq<FileName>, pass: Pass): Visited {
    var first := VisitAll(disk, InDrop, dropListing, pass);
    if first.raised then first
    else
      var second := VisitAll(first.disk, InAdmitted, admittedListing, pass);
      if second.raised then second
      else second.(blocked := first.blocked || second.blocked || second.disk.marked)
  }

  class RoleStaging {
    var drop: map<FileName, Entry>
    var admitted: map<FileName, Entry>
    var quarantine: set<Held>
    var rows: map<RequestId, Admission>
    var marked: bool
    var detached: set<FileName>

    ghost function Contents(): (d: Disk)
      reads this
    {
      Disk(drop, admitted, quarantine, rows, marked, detached)
    }

    constructor (drop: map<FileName, Entry>, admitted: map<FileName, Entry>, rows: map<RequestId, Admission>)
      ensures Contents() == Disk(drop, admitted, {}, rows, false, {})
    {
      this.drop, this.admitted, this.rows := drop, admitted, rows;
      quarantine, marked, detached := {}, false, {};
    }

    method Delete(phase: Phase, file: FileName)
      modifies this
      ensures Contents() == old(Contents()).Without(phase, file)
    {
      if phase.InDrop? {
        drop := drop - {file};
      } else {
        admitted := admitted - {file};
      }
    }

    method WriteMarker(file: FileName, pass: Pass) returns (blocked: bool, raised: bool)
      modifies this
      ensures Visited(Contents(), blocked, raised) == Marked(old(Contents()), file, pass)
    {
      if file in pass.markerFails {
        return false, true;
      }
      marked := true;
      return true, false;
    }

    method MoveToQuarantine(phase: Phase, file: FileName, pass: Pass) returns (blocked: bool, raised: bool)
      requires file in Contents().Under(phase)
      modifies this
      ensures Visited(Contents(), blocked, raised) == Isolated(old(Contents()), phase, file, pass)
    {
      if !StaysPut(pass, file) {
        quarantine := quarantine + {Held(file, if phase.InDrop? then drop[file] else admitted[file])};
        Delete(phase, file);
      }
      if file !in pass.faults {
        return false, false;
      }
      blocked, raised := WriteMarker(file, pass);
    }

    method DetachAndRemove(phase: Phase, file: FileName, pass: Pass) returns (blocked: bool, raised: bool)
      modifies this
      ensures Visited(Contents(), blocked, raised) == Removed(old(Contents()), phase, file, pass)
    {
      if !StaysPut(pass, file) {
        Delete(phase, file);
        if file in pass.faults {
          detached := detached + {file};
        }
      }
      if file !in pass.faults {
        return false, false;
      }
      blocked, raised := WriteMarker(file, pass);
    }

    method SetRow(request: RequestId, revision: nat, expected: AdmissionState, to: AdmissionState) returns (raised: bool)
      modifies this
      ensures Visited(Contents(), false, raised) == ApplyRow(old(Contents()), request, revision, expected, to)
    {
      if request !in rows {
        return true;
      }
      var updated := Transition(rows[request], revision, expected, to);
      if updated.None? {
        return true;
      }
      rows := rows[request := updated.value];
      return false;
    }

    method VisitEntry(phase: Phase, file: FileName, pass: Pass) returns (blocked: bool, raised: bool)
      requires file in Contents().Under(phase)
      modifies this
      ensures Visited(Contents(), blocked, raised) == Visit(old(Contents()), phase, file, pass)
    {
      blocked, raised := false, false;
      var lease := ReadLease(pass.role, file, if phase.InDrop? then drop[file] else admitted[file]);
      if lease.None? {
        blocked, raised := MoveToQuarantine(phase, file, pass);
        return;
      }
      var record := Record(pass, file);
      match Decide(phase, lease.value, record, pass.active, pass.now, pass.boot)
      case Leave =>
      case MarkMismatch =>
        blocked, raised := WriteMarker(file, pass);
      case RemoveThenConsume =>
        blocked, raised := DetachAndRemove(phase, file, pass);
        if file !in pass.faults {
          raised := SetRow(record.value.request, record.value.revision, DurablyAdmitted, Consumed);
        }
      case Remove =>
        blocked, raised := DetachAndRemove(phase, file, pass);
      case Isolate =>
        blocked, raised := MoveToQuarantine(phase, file, pass);
        if record.Some? && file !in pass.faults {
          if record.value.request !in rows {
            raised := true;
          } else {
            var state := rows[record.value.request].state;
            raised := SetRow(record.value.request, record.value.revision, state, Quarantined);
          }
        }
    }

    method VisitPhase(phase: Phase, listing: seq<FileName>, pass: Pass) returns (blocked: bool, raised: bool)
      modifies this
      ensures Visited(Contents(), blocked, raised) == VisitAll(old(Contents()), phase, listing, pass)
    {
      blocked, raised := false, false;
      var i := 0;
      while i < |listing|
        invariant 0 <= i <= |listing| && !raised
        invariant var rest := VisitAll(Contents(), phase, listing[i..], pass);
                  VisitAll(old(Contents()), phase, listing, pass) == rest.(blocked := blocked || rest.blocked)
      {
        assert listing[i..][1..] == listing[i + 1..];
        if listing[i] in (if phase.InDrop? then drop else admitted) {
          var stuck;
          stuck, raised := VisitEntry(phase, listing[i], pass);
          if raised {
            assert !stuck;
            return blocked, true;
          }
          blocked := blocked || stuck;
        }
        i := i + 1;
      }
    }

    method ReconcileBundles(dropListing: seq<FileName>, admittedListing: seq<FileName>, pass: Pass)
      returns (blocked: bool, raised: bool)
      modifies this
      ensures Contents() == VisitRole(old(Contents()), dropListing, admittedListing, pass).disk
      ensures raised == VisitRole(old(Contents()), dropListing, admittedListing, pass).raised
      ensures !raised ==> blocked == VisitRole(old(Contents()), dropListing, admittedListing, pass).blocked
    {
      blocked, raised := VisitPhase(InDrop, dropListing, pass);
      if raised {
        return;
      }
      var stuck;
      stuck, raised := VisitPhase(InAdmitted, admittedListing, pass);
      blocked := blocked || stuck || marked;
    }
  }

  /** The pass's index of its snapshot: the last record of the role under each bundle name. */
  method ByBundle(durable: seq<Admission>, role: Role) returns (records: map<BundleName, Admission>)
    ensures forall name :: name in records ==> records[name] in durable && records[name].role == role && records[name].bundle == name
    ensures forall a :: a in durable && a.role == role ==> a.bundle in records
    ensures (forall i, j :: 0 <= i < j < |durable| ==> durable[i].bundle != durable[j].bundle)
            ==> forall a :: a in durable && a.role == role ==> records[a.bundle] == a
  {
    records := map[];
    for i := 0 to |durable|
      invariant forall name :: name in records ==> records[name] in durable[..i] && records[name].role == role && records[name].bundle == name
      invariant forall j :: 0 <= j < i && durable[j].role == role ==> durable[j].bundle in records
    {
      assert durable[..i + 1] == durable[..i] + [durable[i]];
      if durable[i].role == role {
        records := records[durable[i].bundle := durable[i]];
      }
    }
    assert durable[..|durable|] == durable;
  }

  // -------------------------------------------------------------- theorems

  /** The entry `file` is a well-formed bundle of this role. */
  predicate WellFormed(disk: Disk, phase: Phase, file: FileName, role: Role) {
    file in disk.Under(phase) && ReadLease(role, file, disk.Under(phase)[file]).Some?
  }

  /** The admission record, in the pass's snapshot, lets the bundle go. */
  predicate MayLeave(disk: Disk, phase: Phase, file: FileName, pass: Pass)
    requires WellFormed(disk, phase, file, pass.role)
  {
    var lease := disk.Under(phase)[file].lease;
    var record := Record(pass, file);
    && Agrees(lease, record)
    && (HandedOver(phase, record) || (Expired(lease, record, pass.now, pass.boot) && !Shielded(lease, record, pass.active)))
  }

  function Other(phase: Phase): Phase {
    if phase.InDrop? then InAdmitted else InDrop
  }

  /** `d` differs from `disk` by at most one entry taken out of one phase. */
  ghost predicate OnlyTakes(disk: Disk, d: Disk, phase: Phase, file: FileName) {
    && d.Under(Other(phase)) == disk.Under(Other(phase))
    && disk.quarantine <= d.quarantine
    && (d.Under(phase) == disk.Under(phase) || d.Under(phase) == disk.Under(phase) - {file})
  }

  lemma ApplyRowFrame(disk: Disk, request: RequestId, revision: nat, expected: AdmissionState, to: AdmissionState)
    ensures var d := ApplyRow(disk, request, revision, expected, to).disk; d == disk.(rows := d.rows)
  {
  }

  lemma WithoutOnlyTakes(disk: Disk, phase: Phase, file: FileName)
    ensures OnlyTakes(disk, disk.Without(phase, file), phase, file)
  {
  }

  /** What stands beside the directories does not matter. */
  lemma OnlyTakesBeside(disk: Disk, d: Disk, d': Disk, phase: Phase, file: FileName)
    requires OnlyTakes(disk, d, phase, file)
    requires d'.drop == d.drop && d'.admitted == d.admitted && d.quarantine <= d'.quarantine
    ensures OnlyTakes(disk, d', phase, file)
  {
  }

  lemma MovesOnlyTake(disk: Disk, phase: Phase, file: FileName, pass: Pass)
    requires file in disk.Under(phase)
    ensures OnlyTakes(disk, Isolated(disk, phase, file, pass).disk, phase, file)
    ensures OnlyTakes(disk, Removed(disk, phase, file, pass).disk, phase, file)
    ensures OnlyTakes(disk, Marked(disk, file, pass).disk, phase, file)
  {
    var base := if StaysPut(pass, file) then disk else disk.Without(phase, file);
    WithoutOnlyTakes(disk, phase, file);
    assert OnlyTakes(disk, disk, phase, file);
    OnlyTakesBeside(disk, base, Isolated(disk, phase, file, pass).disk, phase, file);
    OnlyTakesBeside(disk, base, Removed(disk, phase, file, pass).disk, phase, file);
    OnlyTakesBeside(disk, disk, Marked(disk, file, pass).disk, phase, file);
  }

  /** Up to the rows, a visit leaves the disk alone, marks it, moves the entry or removes it. */
  lemma VisitShape(disk: Disk, phase: Phase, file: FileName, pass: Pass)
    requires file in disk.Under(phase)
    ensures var d := Visit(disk, phase, file, pass).disk;
            || d == disk.(rows := d.rows) || d == Marked(disk, file, pass).disk.(rows := d.rows)
            || d == Isolated(disk, phase, file, pass).disk.(rows := d.rows)
            || d == Removed(disk, phase, file, pass).disk.(rows := d.rows)
  {
    var record := Record(pass, file);
    if record.Some? {
      ApplyRowFrame(Removed(disk, phase, file, pass).disk, record.value.request, record.value.revision, DurablyAdmitted, Consumed);
      if record.value.request in disk.rows {
        ApplyRowFrame(Isolated(disk, phase, file, pass).disk, record.value.request, record.value.revision,
                      disk.rows[record.value.request].state, Quarantined);
      }
    }
  }

  /** One visit touches only its own entry. */
  lemma VisitFrame(disk: Disk, phase: Phase, file: FileName, pass: Pass)
    requires file in disk.Under(phase)
    ensures OnlyTakes(disk, Visit(disk, phase, file, pass).disk, phase, file)
  {
    MovesOnlyTake(disk, phase, file, pass);
    VisitShape(disk, phase, file, pass);
  }

  lemma VisitLeaves(disk: Disk, phase: Phase, file: FileName, pass: Pass)
    requires file in disk.Under(phase)
    ensures var d := Visit(disk, phase, file, pass).disk;
            && (file !in d.Under(phase) ==>
                  || Held(file, disk.Under(phase)[file]) in d.quarantine
                  || (WellFormed(disk, phase, file, pass.role) && HandedOver(phase, Record(pass, file))
                      && Agrees(disk.Under(phase)[file].lease, Record(pass, file))))
            && (WellFormed(disk, phase, file, pass.role) ==>
                  (file !in d.Under(phase) <==> MayLeave(disk, phase, file, pass) && !StaysPut(pass, file)))
  {
    if WellFormed(disk, phase, file, pass.role) {
      DecideByAuthority(phase, disk.Under(phase)[file].lease, Record(pass, file), pass.active, pass.now, pass.boot);
    }
  }

  /** A pass over a phase never touches the other phase, adds nothing, and alters no entry it leaves. */
  lemma {:induction false} VisitAllFrame(disk: Disk, phase: Phase, listing: seq<FileName>, pass: Pass)
    ensures var d := VisitAll(disk, phase, listing, pass).disk;
            && d.Under(Other(phase)) == disk.Under(Other(phase))
            && disk.quarantine <= d.quarantine
            && forall f :: f in d.Under(phase) ==> f in disk.Under(phase) && d.Under(phase)[f] == disk.Under(phase)[f]
    decreases |listing|
  {
    if listing != [] {
      if listing[0] !in disk.Under(phase) {
        VisitAllFrame(disk, phase, listing[1..], pass);
      } else {
        VisitFrame(disk, phase, listing[0], pass);
        VisitAllFrame(Visit(disk, phase, listing[0], pass).disk, phase, listing[1..], pass);
      }
    }
  }

  /**
   A pass lets a well-formed bundle go only if its record, matching it, has
   handed it over, or it has expired unshielded; and a completed pass that met
   no fault on it did let it go in exactly those cases.
   */
  lemma {:induction false} PassMovesExactlyWhatItMay(disk: Disk, phase: Phase, listing: seq<FileName>, pass: Pass, file: FileName)
    requires WellFormed(disk, phase, file, pass.role)
    ensures var after := VisitAll(disk, phase, listing, pass);
            && (file !in after.disk.Under(phase) ==> MayLeave(disk, phase, file, pass) && !StaysPut(pass, file) && file in listing)
            && (!after.raised && file in listing && MayLeave(disk, phase, file, pass) && !StaysPut(pass, file)
                ==> file !in after.disk.Under(phase))
    decreases |listing|
  {
    if listing != [] {
      assert listing == [listing[0]] + listing[1..];
      if listing[0] !in disk.Under(phase) {
        PassMovesExactlyWhatItMay(disk, phase, listing[1..], pass, file);
      } else {
        var d := Visit(disk, phase, listing[0], pass).disk;
        VisitFrame(disk, phase, listing[0], pass);
        VisitLeaves(disk, phase, listing[0], pass);
        if file in d.Under(phase) {
          PassMovesExactlyWhatItMay(d, phase, listing[1..], pass, file);
        } else {
          VisitAllFrame(d, phase, listing[1..], pass);
        }
      }
    }
  }

  /**
   Nothing disappears: an entry that left is whole in quarantine, or is a bundle
   whose matching record names the job that holds its bytes.
   */
  lemma {:induction false} PassLosesNothing(disk: Disk, phase: Phase, listing: seq<FileName>, pass: Pass, file: FileName)
    requires file in disk.Under(phase)
    ensures var d := VisitAll(disk, phase, listing, pass).disk;
            || (file in d.Under(phase) && d.Under(phase)[file] == disk.Under(phase)[file])
            || Held(file, disk.Under(phase)[file]) in d.quarantine
            || (WellFormed(disk, phase, file, pass.role) && Agrees(disk.Under(phase)[file].lease, Record(pass, file))
                && HandedOver(phase, Record(pass, file)))
    decreases |listing|
  {
    if listing != [] {
      if listing[0] !in disk.Under(phase) {
        PassLosesNothing(disk, phase, listing[1..], pass, file);
      } else {
        var d := Visit(disk, phase, listing[0], pass).disk;
        VisitFrame(disk, phase, listing[0], pass);
        VisitLeaves(disk, phase, listing[0], pass);
        VisitAllFrame(d, phase, listing[1..], pass);
        if file in d.Under(phase) {
          PassLosesNothing(d, phase, listing[1..], pass, file);
        }
      }
    }
  }

  /** While a request is active, the bundle of its absent, decoded or claimed admission stays where it is. */
  lemma ActiveRequestKeepsItsBundle(disk: Disk, phase: Phase, listing: seq<FileName>, pass: Pass, file: FileName)
    requires WellFormed(disk, phase, file, pass.role)
    requires Shielded(disk.Under(phase)[file].lease, Record(pass, file), pass.active)
    ensures var d := VisitAll(disk, phase, listing, pass).disk;
            file in d.Under(phase) && d.Under(phase)[file] == disk.Under(phase)[file]
  {
    PassMovesExactlyWhatItMay(disk, phase, listing, pass, file);
    VisitAllFrame(disk, phase, listing, pass);
  }

  /** Over the whole role: an entry of either directory is untouched, whole in quarantine, or handed over to a job. */
  lemma RolePassLosesNothing(disk: Disk, dropListing: seq<FileName>, admittedListing: seq<FileName>, pass: Pass,
                             phase: Phase, file: FileName)
    requires file in disk.Under(phase)
    ensures var d := VisitRole(disk, dropListing, admittedListing, pass).disk;
            || (file in d.Under(phase) && d.Under(phase)[file] == disk.Under(phase)[file])
            || Held(file, disk.Under(phase)[file]) in d.quarantine
            || (WellFormed(disk, phase, file, pass.role) && Agrees(disk.Under(phase)[file].lease, Record(pass, file))
                && HandedOver(phase, Record(pass, file)))
  {
    var first := VisitAll(disk, InDrop, dropListing, pass).disk;
    VisitAllFrame(disk, InDrop, dropListing, pass);
    VisitAllFrame(first, InAdmitted, admittedListing, pass);
    if phase.InDrop? {
      PassLosesNothing(disk, InDrop, dropListing, pass, file);
    } else {
      PassLosesNothing(first, InAdmitted, admittedListing, pass, file);
    }
  }

  // ------------------------------------ rows, markers and errors of a pass

  /** No two records of the snapshot are of one request: the table has one row each. */
  predicate RecordsApart(pass: Pass) {
    forall m, n :: m in pass.records && n in pass.records && m != n ==> pass.records[m].request != pass.records[n].request
  }

  /** The entry is a well-formed bundle that leaves without a fault, and its record is not consumed yet. */
  predicate RowDue(disk: Disk, phase: Phase, file: FileName, pass: Pass) {
    && WellFormed(disk, phase, file, pass.role) && MayLeave(disk, phase, file, pass) && file !in pass.faults
    && Record(pass, file).Some? && !Record(pass, file).value.state.Consumed?
  }

  /** Consumed once the job holds the bytes, set aside once expired. */
  function StateDue(phase: Phase, record: Admission): AdmissionState {
    if HandedOver(phase, Some(record)) then Consumed else Quarantined
  }

  /** The row is still the one the snapshot read, and in a state the table lets go there. */
  predicate RowAccepts(rows: map<RequestId, Admission>, phase: Phase, record: Admission) {
    && record.request in rows
    && var row := rows[record.request];
    && row.revision == record.revision
    && if HandedOver(phase, Some(record)) then row.state.DurablyAdmitted? else Early(row.state)
  }

  function Advanced(row: Admission, to: AdmissionState): Admission {
    row.(state := to, revision := row.revision + 1)
  }

  /** Something about the entry needs an operator: it contradicts its record, or moving it failed. */
  predicate Troubled(disk: Disk, phase: Phase, file: FileName, pass: Pass) {
    && file in disk.Under(phase)
    && if !WellFormed(disk, phase, file, pass.role) then file in pass.faults
       else
         var lease, record := disk.Under(phase)[file].lease, Record(pass, file);
         (!Agrees(lease, record) && !Shielded(lease, record, pass.active)) || (MayLeave(disk, phase, file, pass) && file in pass.faults)
  }

  /** The entry ends the pass: its marker cannot be written, or its row is not what the snapshot read. */
  predicate Breaks(disk: Disk, phase: Phase, file: FileName, pass: Pass) {
    || (Troubled(disk, phase, file, pass) && file in pass.markerFails)
    || (RowDue(disk, phase, file, pass) && !RowAccepts(disk.rows, phase, Record(pass, file).value))
  }

  function RowsAfter(disk: Disk, phase: Phase, file: FileName, pass: Pass): map<RequestId, Admission> {
    if RowDue(disk, phase, file, pass) && Record(pass, file).value.request in disk.rows
    then
      var record := Record(pass, file).value;
      disk.rows[record.request := Advanced(disk.rows[record.request], StateDue(phase, record))]
    else disk.rows
  }

  lemma ApplyRowExactly(disk: Disk, phase: Phase, record: Admission)
    ensures var request := record.request;
            HandedOver(phase, Some(record)) && !record.state.Consumed? ==>
              var v := ApplyRow(disk, request, record.revision, DurablyAdmitted, Consumed);
              && (v.raised <==> !RowAccepts(disk.rows, phase, record)) && !v.blocked
              && (!v.raised ==> v.disk == disk.(rows := disk.rows[request := Advanced(disk.rows[request], Consumed)]))
    ensures var request := record.request;
            !HandedOver(phase, Some(record)) && request in disk.rows ==>
              var v := ApplyRow(disk, request, record.revision, disk.rows[request].state, Quarantined);
              && (v.raised <==> !RowAccepts(disk.rows, phase, record)) && !v.blocked
              && (!v.raised ==> v.disk == disk.(rows := disk.rows[request := Advanced(disk.rows[request], Quarantined)]))
  {
  }

  /** One visit: when it raises, blocks and marks, and what it does to the rows. */
  lemma VisitExactly(disk: Disk, phase: Phase, file: FileName, pass: Pass)
    requires file in disk.Under(phase)
    ensures var v := Visit(disk, phase, file, pass);
            && (v.raised <==> Breaks(disk, phase, file, pass))
            && (!v.raised ==> (v.blocked <==> Troubled(disk, phase, file, pass)))
            && (!v.raised ==> (v.disk.marked <==> disk.marked || Troubled(disk, phase, file, pass)))
            && (!v.raised ==> v.disk.rows == RowsAfter(disk, phase, file, pass))
  {
    if WellFormed(disk, phase, file, pass.role) {
      WellFormedVisitExactly(disk, phase, file, pass);
    }
  }

  lemma WellFormedVisitExactly(disk: Disk, phase: Phase, file: FileName, pass: Pass)
    requires WellFormed(disk, phase, file, pass.role)
    ensures var v := Visit(disk, phase, file, pass);
            && (v.raised <==> Breaks(disk, phase, file, pass))
            && (!v.raised ==> (v.blocked <==> Troubled(disk, phase, file, pass)))
            && (!v.raised ==> (v.disk.marked <==> disk.marked || Troubled(disk, phase, file, pass)))
            && (!v.raised ==> v.disk.rows == RowsAfter(disk, phase, file, pass))
  {
    var record := Record(pass, file);
    DecideByAuthority(phase, disk.Under(phase)[file].lease, record, pass.active, pass.now, pass.boot);
    if record.Some? && file !in pass.faults {
      ApplyRowExactly(Removed(disk, phase, file, pass).disk, phase, record.value);
      ApplyRowExactly(Isolated(disk, phase, file, pass).disk, phase, record.value);
    }
  }

  lemma RecordsOfOthers(pass: Pass, file: FileName, other: FileName)
    requires RecordsApart(pass) && file != other && Record(pass, file).Some? && Record(pass, other).Some?
    ensures Record(pass, file).value.request != Record(pass, other).value.request
  {
  }

  /** A visit changes nothing about how other entries are judged. */
  lemma OthersJudgedAlike(disk: Disk, phase: Phase, first: FileName, file: FileName, pass: Pass)
    requires RecordsApart(pass) && first in disk.Under(phase) && file != first && !Visit(disk, phase, first, pass).raised
    ensures var d := Visit(disk, phase, first, pass).disk;
            && (Troubled(d, phase, file, pass) <==> Troubled(disk, phase, file, pass))
            && (RowDue(d, phase, file, pass) <==> RowDue(disk, phase, file, pass))
            && (Breaks(d, phase, file, pass) <==> Breaks(disk, phase, file, pass))
            && (Record(pass, file).Some? ==>
                  var request := Record(pass, file).value.request;
                  (request in d.rows <==> request in disk.rows) && (request in d.rows ==> d.rows[request] == disk.rows[request]))
  {
    var d := Visit(disk, phase, first, pass).disk;
    VisitFrame(disk, phase, first, pass);
    VisitExactly(disk, phase, first, pass);
    assert file in d.Under(phase) <==> file in disk.Under(phase);
    assert file in d.Under(phase) ==> d.Under(phase)[file] == disk.Under(phase)[file];
    if Record(pass, file).Some? && Record(pass, first).Some? {
      RecordsOfOthers(pass, file, first);
    }
  }

  /** An entry that was visited without an error does not end the pass when it is met again. */
  lemma VisitedJudgedAgain(disk: Disk, phase: Phase, file: FileName, pass: Pass)
    requires file in disk.Under(phase) && !Visit(disk, phase, file, pass).raised
    ensures var d := Visit(disk, phase, file, pass).disk;
            && !Breaks(d, phase, file, pass) && !RowDue(d, phase, file, pass)
            && (Troubled(d, phase, file, pass) ==> Troubled(disk, phase, file, pass))
  {
    VisitFrame(disk, phase, file, pass);
    VisitExactly(disk, phase, file, pass);
    VisitLeaves(disk, phase, file, pass);
  }

  ghost predicate SomeBreaks(disk: Disk, phase: Phase, listing: seq<FileName>, pass: Pass) {
    exists f :: f in listing && Breaks(disk, phase, f, pass)
  }

  ghost predicate SomeTroubled(disk: Disk, phase: Phase, listing: seq<FileName>, pass: Pass) {
    exists f :: f in listing && Troubled(disk, phase, f, pass)
  }

  /** How the rest of a listing is judged after its first entry was visited. */
  lemma RestJudgedAlike(disk: Disk, phase: Phase, listing: seq<FileName>, pass: Pass)
    requires RecordsApart(pass) && listing != [] && listing[0] in disk.Under(phase) && !Visit(disk, phase, listing[0], pass).raised
    ensures var d := Visit(disk, phase, listing[0], pass).disk;
            && (SomeBreaks(disk, phase, listing, pass) <==> SomeBreaks(d, phase, listing[1..], pass))
            && (SomeTroubled(disk, phase, listing, pass) <==>
                  Troubled(disk, phase, listing[0], pass) || SomeTroubled(d, phase, listing[1..], pass))
  {
    var first, rest := listing[0], listing[1..];
    var d := Visit(disk, phase, first, pass).disk;
    assert listing == [first] + rest;
    VisitExactly(disk, phase, first, pass);
    VisitedJudgedAgain(disk, phase, first, pass);
    forall f | f != first
      ensures Breaks(d, phase, f, pass) <==> Breaks(disk, phase, f, pass)
      ensures Troubled(d, phase, f, pass) <==> Troubled(disk, phase, f, pass)
    {
      OthersJudgedAlike(disk, phase, first, f, pass);
    }
    if SomeTroubled(disk, phase, listing, pass) && !Troubled(disk, phase, first, pass) {
      var f :| f in listing && Troubled(disk, phase, f, pass);
      assert f in rest && Troubled(d, phase, f, pass);
    }
    if SomeTroubled(d, phase, rest, pass) {
      var f :| f in rest && Troubled(d, phase, f, pass);
      assert f in listing && Troubled(disk, phase, f, pass);
    }
    if SomeBreaks(disk, phase, listing, pass) {
      var f :| f in listing && Breaks(disk, phase, f, pass);
      assert f in rest && Breaks(d, phase, f, pass);
    }
    if SomeBreaks(d, phase, rest, pass) {
      var f :| f in rest && Breaks(d, phase, f, pass);
      assert f in listing && Breaks(disk, phase, f, pass);
    }
  }

  /** An entry that is not in the directory is passed over. */
  lemma AbsentIsPassedOver(disk: Disk, phase: Phase, listing: seq<FileName>, pass: Pass)
    requires listing != [] && listing[0] !in disk.Under(phase)
    ensures SomeBreaks(disk, phase, listing, pass) <==> SomeBreaks(disk, phase, listing[1..], pass)
    ensures SomeTroubled(disk, phase, listing, pass) <==> SomeTroubled(disk, phase, listing[1..], pass)
  {
    assert listing == [listing[0]] + listing[1..];
  }

  /**
   A pass over a directory raises exactly when some listed entry ends it. If it
   does not, it blocks the role exactly when some listed entry is troubled, and
   leaves a marker exactly then or if one was there.
   */
  lemma {:induction false} PassEndsExactly(disk: Disk, phase: Phase, listing: seq<FileName>, pass: Pass)
    requires RecordsApart(pass)
    ensures var after := VisitAll(disk, phase, listing, pass);
            && (after.raised <==> SomeBreaks(disk, phase, listing, pass))
            && (!after.raised ==> (after.blocked <==> SomeTroubled(disk, phase, listing, pass)))
            && (!after.raised ==> (after.disk.marked <==> disk.marked || SomeTroubled(disk, phase, listing, pass)))
    decreases |listing|
  {
    if listing != [] {
      if listing[0] !in disk.Under(phase) {
        AbsentIsPassedOver(disk, phase, listing, pass);
        PassEndsExactly(disk, phase, listing[1..], pass);
      } else {
        var v := Visit(disk, phase, listing[0], pass);
        VisitExactly(disk, phase, listing[0], pass);
        if v.raised {
          assert listing[0] in listing;
        } else {
          RestJudgedAlike(disk, phase, listing, pass);
          PassEndsExactly(v.disk, phase, listing[1..], pass);
        }
      }
    }
  }

  /** No listed entry is due to change the row of this request. */
  ghost predicate RowNotDue(disk: Disk, phase: Phase, listing: seq<FileName>, pass: Pass, request: RequestId) {
    forall f :: f in listing && RowDue(disk, phase, f, pass) ==> Record(pass, f).value.request != request
  }

  predicate SameRow(rows: map<RequestId, Admission>, rows': map<RequestId, Admission>, request: RequestId) {
    (request in rows' <==> request in rows) && (request in rows ==> rows'[request] == rows[request])
  }

  /** A completed pass leaves every row alone that no listed entry is due to change. */
  lemma {:induction false} PassKeepsOtherRows(disk: Disk, phase: Phase, listing: seq<FileName>, pass: Pass, request: RequestId)
    requires RecordsApart(pass) && RowNotDue(disk, phase, listing, pass, request) && !VisitAll(disk, phase, listing, pass).raised
    ensures SameRow(disk.rows, VisitAll(disk, phase, listing, pass).disk.rows, request)
    decreases |listing|
  {
    if listing != [] {
      var first, rest := listing[0], listing[1..];
      if first !in disk.Under(phase) {
        PassKeepsOtherRows(disk, phase, rest, pass, request);
      } else {
        var d := Visit(disk, phase, first, pass).disk;
        assert first in listing;
        VisitExactly(disk, phase, first, pass);
        VisitedJudgedAgain(disk, phase, first, pass);
        forall f | f in rest && RowDue(d, phase, f, pass) ensures Record(pass, f).value.request != request {
          assert f in listing && f != first;
          OthersJudgedAlike(disk, phase, first, f, pass);
        }
        PassKeepsOtherRows(d, phase, rest, pass, request);
      }
    }
  }

  /**
   After a completed pass, the row of a listed bundle that left is consumed if its
   record was durably admitted and it lay in admitted, set aside if it expired,
   and its revision is one up.
   */
  lemma {:induction false} PassSetsItsRows(disk: Disk, phase: Phase, listing: seq<FileName>, pass: Pass, file: FileName)
    requires RecordsApart(pass) && file in listing && RowDue(disk, phase, file, pass) && !VisitAll(disk, phase, listing, pass).raised
    ensures var record := Record(pass, file).value; var rows := VisitAll(disk, phase, listing, pass).disk.rows;
            && record.request in disk.rows && record.request in rows
            && rows[record.request] == Advanced(disk.rows[record.request], StateDue(phase, record))
    decreases |listing|
  {
    var first, rest := listing[0], listing[1..];
    assert listing == [first] + rest;
    if first !in disk.Under(phase) {
      PassSetsItsRows(disk, phase, rest, pass, file);
    } else {
      var d := Visit(disk, phase, first, pass).disk;
      VisitExactly(disk, phase, first, pass);
      if file == first {
        VisitedJudgedAgain(disk, phase, first, pass);
        forall f | f in rest && RowDue(d, phase, f, pass)
          ensures Record(pass, f).value.request != Record(pass, file).value.request
        {
          RecordsOfOthers(pass, f, file);
        }
        PassKeepsOtherRows(d, phase, rest, pass, Record(pass, file).value.request);
      } else {
        OthersJudgedAlike(disk, phase, first, file, pass);
        PassSetsItsRows(d, phase, rest, pass, file);
      }
    }
  }

  /** A completed pass sets every listed entry aside that is not a well-formed bundle, unless it could not be moved. */
  lemma {:induction false} PassSetsMalformedAside(disk: Disk, phase: Phase, listing: seq<FileName>, pass: Pass, file: FileName)
    requires file in listing && file in disk.Under(phase) && !WellFormed(disk, phase, file, pass.role) && !StaysPut(pass, file)
    requires !VisitAll(disk, phase, listing, pass).raised
    ensures var d := VisitAll(disk, phase, listing, pass).disk;
            file !in d.Under(phase) && Held(file, disk.Under(phase)[file]) in d.quarantine
    decreases |listing|
  {
    var first, rest := listing[0], listing[1..];
    assert listing == [first] + rest;
    if first !in disk.Under(phase) {
      PassSetsMalformedAside(disk, phase, rest, pass, file);
    } else {
      var d := Visit(disk, phase, first, pass).disk;
      VisitFrame(disk, phase, first, pass);
      if file == first {
        assert Visit(disk, phase, file, pass) == Isolated(disk, phase, file, pass);
        VisitAllFrame(d, phase, rest, pass);
      } else {
        PassSetsMalformedAside(d, phase, rest, pass, file);
      }
    }
  }

  // --------------------------------------------------------- the whole role

  /** No entry lies in both directories. */
  predicate DirectoriesApart(disk: Disk) {
    forall f :: f in disk.drop ==> f !in disk.admitted
  }

  /** Entries of the other directory are judged alike after a pass. */
  lemma OtherPhaseJudgedAlike(disk: Disk, d: Disk, phase: Phase, file: FileName, pass: Pass)
    requires d.Under(phase) == disk.Under(phase)
    ensures Troubled(d, phase, file, pass) <==> Troubled(disk, phase, file, pass)
    ensures RowDue(d, phase, file, pass) <==> RowDue(disk, phase, file, pass)
  {
  }

  /** Over the whole role: blocked exactly by a marker that was there or a troubled entry in either directory. */
  lemma RolePassBlocksExactly(disk: Disk, dropListing: seq<FileName>, admittedListing: seq<FileName>, pass: Pass)
    requires RecordsApart(pass) && !VisitRole(disk, dropListing, admittedListing, pass).raised
    ensures VisitRole(disk, dropListing, admittedListing, pass).blocked <==>
              disk.marked || SomeTroubled(disk, InDrop, dropListing, pass) || SomeTroubled(disk, InAdmitted, admittedListing, pass)
  {
    var d := VisitAll(disk, InDrop, dropListing, pass).disk;
    VisitAllFrame(disk, InDrop, dropListing, pass);
    PassEndsExactly(disk, InDrop, dropListing, pass);
    PassEndsExactly(d, InAdmitted, admittedListing, pass);
    forall f ensures Troubled(d, InAdmitted, f, pass) <==> Troubled(disk, InAdmitted, f, pass) {
      OtherPhaseJudgedAlike(disk, d, InAdmitted, f, pass);
    }
  }

  /** Over the whole role: the row of every listed bundle that left is what its record and its directory call for. */
  lemma RolePassSetsItsRows(disk: Disk, dropListing: seq<FileName>, admittedListing: seq<FileName>, pass: Pass,
                            phase: Phase, file: FileName)
    requires RecordsApart(pass) && DirectoriesApart(disk) && !VisitRole(disk, dropListing, admittedListing, pass).raised
    requires file in (if phase.InDrop? then dropListing else admittedListing) && RowDue(disk, phase, file, pass)
    ensures var record := Record(pass, file).value; var rows := VisitRole(disk, dropListing, admittedListing, pass).disk.rows;
            && record.request in disk.rows && record.request in rows
            && rows[record.request] == Advanced(disk.rows[record.request], StateDue(phase, record))
  {
    var d := VisitAll(disk, InDrop, dropListing, pass).disk;
    var request := Record(pass, file).value.request;
    VisitAllFrame(disk, InDrop, dropListing, pass);
    if phase.InDrop? {
      PassSetsItsRows(disk, InDrop, dropListing, pass, file);
      forall f | f in admittedListing && RowDue(d, InAdmitted, f, pass) ensures Record(pass, f).value.request != request {
        RecordsOfOthers(pass, f, file);
      }
      PassKeepsOtherRows(d, InAdmitted, admittedListing, pass, request);
    } else {
      forall f | f in dropListing && RowDue(disk, InDrop, f, pass) ensures Record(pass, f).value.request != request {
        RecordsOfOthers(pass, f, file);
      }
      PassKeepsOtherRows(disk, InDrop, dropListing, pass, request);
      OtherPhaseJudgedAlike(disk, d, InAdmitted, file, pass);
      PassSetsItsRows(d, InAdmitted, admittedListing, pass, file);
    }
  }
}
