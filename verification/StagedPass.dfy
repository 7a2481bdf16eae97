/**
 The reconcile steps of the admission machine are the visits of a pass: what a
 step does to a bundle and, with the row update it owes, to the table, follows
 from the bundle's authority alone, and is what the pass over the directories
 does to the same bundle.
 */
module StagedPass {
  import opened Wrappers
  import opened StagingRecords
  import opened StagedAdmission
  import R = StagingReconciliation

  function Directory(w: World, phase: R.Phase): map<BundleName, Lease> {
    if phase.InDrop? then w.dirs.drop else w.dirs.admitted
  }

  /** The bundle may go: it cannot be read, its job has its bytes, or it has expired unshielded. */
  predicate MayGo(lease: Lease, record: Option<Admission>, phase: R.Phase, active: set<RequestId>, now: nat, boot: BootId,
                  unreadable: bool)
  {
    || unreadable
    || (R.Agrees(lease, record)
        && (R.HandedOver(phase, record) || (R.Expired(lease, record, now, boot) && !R.Shielded(lease, record, active))))
  }

  /** It is deleted only because its job has its bytes. */
  predicate Deleted(record: Option<Admission>, phase: R.Phase, unreadable: bool) {
    !unreadable && R.HandedOver(phase, record)
  }

  /** The bundle goes in this step. */
  predicate Goes(w: World, pass: Pass, phase: R.Phase, name: BundleName, now: nat, boot: BootId, faults: VisitFaults)
    requires name in Directory(w, phase)
  {
    && MayGo(Directory(w, phase)[name], Record(pass, name), phase, pass.active, now, boot, faults.unreadable)
    && faults.move != Some(R.NotMoved)
  }

  lemma StepChooses(w: World, pass: Pass, phase: R.Phase, name: BundleName, now: nat, boot: BootId, faults: VisitFaults)
    requires pass.pending.None? && name in Directory(w, phase) && Binds(name, Directory(w, phase)[name])
    ensures var w' := VisitBundle(w, pass, phase, name, now, boot, faults).0;
            w' == if !Goes(w, pass, phase, name, now, boot, faults) then w
                  else if Deleted(Record(pass, name), phase, faults.unreadable) then RemoveBundle(w, phase, name)
                  else IsolateBundle(w, phase, name)
  {
    R.DecideByAuthority(phase, Directory(w, phase)[name], Record(pass, name), pass.active, now, boot);
  }

  lemma StepOwes(w: World, pass: Pass, phase: R.Phase, name: BundleName, now: nat, boot: BootId, faults: VisitFaults)
    requires pass.pending.None? && name in Directory(w, phase) && Binds(name, Directory(w, phase)[name])
    ensures var record := Record(pass, name);
            VisitBundle(w, pass, phase, name, now, boot, faults).1 == pass.(pending :=
              if Goes(w, pass, phase, name, now, boot, faults) && !faults.unreadable && faults.move.None?
                 && record.Some? && !record.value.state.Consumed?
              then Some(Pending(name.request, record.value.revision, R.StateDue(phase, record.value))) else None)
  {
    R.DecideByAuthority(phase, Directory(w, phase)[name], Record(pass, name), pass.active, now, boot);
  }

  /** A step of a pass on one bundle, by its authority: what leaves, and where it goes; nothing else moves. */
  lemma StepByAuthority(w: World, pass: Pass, phase: R.Phase, name: BundleName, now: nat, boot: BootId, faults: VisitFaults)
    requires pass.pending.None? && name in Directory(w, phase) && Binds(name, Directory(w, phase)[name])
    ensures var w' := VisitBundle(w, pass, phase, name, now, boot, faults).0;
            var goes := Goes(w, pass, phase, name, now, boot, faults);
            && Directory(w', phase) == (if goes then Directory(w, phase) - {name} else Directory(w, phase))
            && Directory(w', R.Other(phase)) == Directory(w, R.Other(phase))
            && w'.dirs.quarantine == (if goes && !Deleted(Record(pass, name), phase, faults.unreadable)
                                      then w.dirs.quarantine[name := Directory(w, phase)[name]] else w.dirs.quarantine)
            && w'.admissions == w.admissions
  {
    StepChooses(w, pass, phase, name, now, boot, faults);
  }

  /** The row update: it goes through exactly on the row the snapshot read, in a state the table lets go there. */
  lemma SettleByTable(w: World, pass: Pass)
    requires pass.pending.Some? && (pass.pending.value.to.Consumed? || pass.pending.value.to.Quarantined?)
    requires forall r :: r in w.admissions ==> w.admissions[r].request == r
    ensures var (w', pass') := SettleRow(w, pass); var owed := pass.pending.value;
            var accepted := && owed.request in w.admissions && w.admissions[owed.request].revision == owed.revision
                            && (if owed.to.Consumed? then w.admissions[owed.request].state.DurablyAdmitted?
                                else R.Early(w.admissions[owed.request].state));
            && w' == (if accepted
                      then w.(admissions := w.admissions[owed.request := R.Advanced(w.admissions[owed.request], owed.to)]) else w)
            && pass' == (if accepted then Some(pass.(pending := None)) else None)
  {
  }

  // ------------------------------------------------------- as in the pass

  /** The directories and the table as the pass over them sees this bundle. */
  ghost predicate Sees(d: R.Disk, q: R.Pass, w: World, pass: Pass, phase: R.Phase, name: BundleName, now: nat, boot: BootId,
                       faults: VisitFaults)
  {
    var file := R.Stage(name);
    && pass.pending.None? && name in Directory(w, phase) && Binds(name, Directory(w, phase)[name])
    && file in d.Under(phase) && d.rows == w.admissions
    && d.Under(phase)[file] == (if faults.unreadable then R.Malformed else R.Bundle(Directory(w, phase)[name]))
    && q.role == name.role && R.Record(q, file) == Record(pass, name) && q.active == pass.active && q.now == now && q.boot == boot
    && (if faults.move.Some? then file in q.faults && q.faults[file] == faults.move.value else file !in q.faults)
    && file !in q.markerFails
    && (Record(pass, name).Some? ==> Record(pass, name).value.request == name.request)
  }

  lemma StepLeavesAsPass(d: R.Disk, q: R.Pass, w: World, pass: Pass, phase: R.Phase, name: BundleName, now: nat, boot: BootId,
                         faults: VisitFaults)
    requires Sees(d, q, w, pass, phase, name, now, boot, faults)
    ensures var file := R.Stage(name); var v := R.Visit(d, phase, file, q).disk;
            var w' := VisitBundle(w, pass, phase, name, now, boot, faults).0;
            && (name in Directory(w', phase) <==> file in v.Under(phase))
            && (file !in v.Under(phase) && !Deleted(Record(pass, name), phase, faults.unreadable) ==>
                  name in w'.dirs.quarantine && R.Held(file, d.Under(phase)[file]) in v.quarantine)
  {
    StepByAuthority(w, pass, phase, name, now, boot, faults);
    R.VisitLeaves(d, phase, R.Stage(name), q);
    if faults.unreadable {
      assert R.Visit(d, phase, R.Stage(name), q) == R.Isolated(d, phase, R.Stage(name), q);
    }
  }

  /** The step owes an update exactly when the pass has one to make, and it is the same. */
  lemma OwesAsPass(d: R.Disk, q: R.Pass, w: World, pass: Pass, phase: R.Phase, name: BundleName, now: nat, boot: BootId,
                   faults: VisitFaults)
    requires Sees(d, q, w, pass, phase, name, now, boot, faults)
    ensures var pass1 := VisitBundle(w, pass, phase, name, now, boot, faults).1;
            if R.RowDue(d, phase, R.Stage(name), q)
            then var record := R.Record(q, R.Stage(name)).value;
                 record.request == name.request
                 && pass1.pending == Some(Pending(name.request, record.revision, R.StateDue(phase, record)))
            else pass1.pending.None?
  {
    StepOwes(w, pass, phase, name, now, boot, faults);
  }

  lemma SettlesAsAccepted(w: World, pass: Pass, phase: R.Phase, record: Admission)
    requires forall r :: r in w.admissions ==> w.admissions[r].request == r
    requires pass.pending == Some(Pending(record.request, record.revision, R.StateDue(phase, record)))
    ensures var (w', pass') := SettleRow(w, pass);
            && w'.dirs == w.dirs && (pass'.Some? <==> R.RowAccepts(w.admissions, phase, record))
            && (pass'.Some? ==>
                  w'.admissions == w.admissions[record.request := R.Advanced(w.admissions[record.request], R.StateDue(phase, record))])
  {
    SettleByTable(w, pass);
  }

  /** With the update it owes, the step leaves the table as the visit does, and ends the pass exactly when the visit raises. */
  lemma StepSettlesAsPass(d: R.Disk, q: R.Pass, w: World, pass: Pass, phase: R.Phase, name: BundleName, now: nat, boot: BootId,
                          faults: VisitFaults)
    requires Sees(d, q, w, pass, phase, name, now, boot, faults)
    requires forall r :: r in w.admissions ==> w.admissions[r].request == r
    ensures var v := R.Visit(d, phase, R.Stage(name), q);
            var (w1, pass1) := VisitBundle(w, pass, phase, name, now, boot, faults);
            var (w2, pass2) := SettleRow(w1, pass1);
            && w2.dirs == w1.dirs && (pass2.None? <==> v.raised) && (!v.raised ==> w2.admissions == v.disk.rows)
  {
    var file := R.Stage(name);
    var (w1, pass1) := VisitBundle(w, pass, phase, name, now, boot, faults);
    RowsStay(w, pass, phase, name, now, boot, faults);
    OwesAsPass(d, q, w, pass, phase, name, now, boot, faults);
    R.VisitExactly(d, phase, file, q);
    if R.RowDue(d, phase, file, q) {
      SettlesAsAccepted(w1, pass1, phase, R.Record(q, file).value);
    }
  }

  lemma RowsStay(w: World, pass: Pass, phase: R.Phase, name: BundleName, now: nat, boot: BootId, faults: VisitFaults)
    requires pass.pending.None? && name in Directory(w, phase) && Binds(name, Directory(w, phase)[name])
    ensures VisitBundle(w, pass, phase, name, now, boot, faults).0.admissions == w.admissions
  {
    StepChooses(w, pass, phase, name, now, boot, faults);
  }
}
