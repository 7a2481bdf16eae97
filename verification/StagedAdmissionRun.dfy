/**
 One staged request served from publication to its reply, as a run of the
 admission machine: the theorems about runs are not about stuck machines.
 */
module StagedAdmissionRun {
  import opened Wrappers
  import opened StagingRecords
  import opened StagedAdmission
  import R = StagingReconciliation

  /** A bundle, the lease it is published with, and the request that names it. */
  datatype Order = Order(name: BundleName, lease: Lease, arguments: Digest)
  {
    ghost predicate Valid() {
      Binds(name, lease) && lease.state.PublishedUnsent?
    }

    function Sent(): Lease {
      lease.(state := DispatchUncertain)
    }

    function Envelope(): Envelope {
      StagedAdmission.Envelope(name, arguments)
    }

    function Ticket(): Ticket {
      StagedAdmission.Ticket(name.request, name.role)
    }

    function Command(): Command {
      StagedAdmission.Command(name.request, name.role, Envelope())
    }

    function Row(state: AdmissionState, revision: nat): Admission {
      Decoded(name, lease).(state := state, revision := revision,
                            job := if state.DurablyAdmitted? || state.Consumed? then Some(Job()) else None)
    }

    function Job(): JobId {
      JobId(name.request, name.role)
    }

    function Record(): Job {
      StagedAdmission.Job(name.request, name.role, name, arguments, Some(lease.payload.digest))
    }

    /** One handler, no pass, and the owner idle. */
    function At(w: World, pc: Pc, queue: set<Command>): State {
      State(w, true, map[0 := Handler(name.request, name.role, Envelope(), pc)], queue, Idle, map[])
    }

    function SentWorld(): World {
      World(map[name := lease], Directories(map[name := Sent()], map[], map[]), map[], map[], map[], map[], {})
    }

    function DecodedWorld(): World {
      SentWorld().(bound := map[Ticket() := Envelope()], admissions := map[name.request := Row(RequestDecoded, 0)])
    }

    function ClaimedWorld(): World {
      DecodedWorld().(dirs := Directories(map[], map[name := Sent()], map[]),
                      admissions := map[name.request := Row(Claimed, 1)])
    }

    function AdmittedWorld(): World {
      ClaimedWorld().(admissions := map[name.request := Row(DurablyAdmitted, 2)], jobs := map[Job() := Record()],
                      store := map[Job() := lease.payload.digest])
    }

    function ServedWorld(): World {
      AdmittedWorld().(dirs := Directories(map[], map[], map[]), admissions := map[name.request := Row(Consumed, 3)],
                       replies := {Reply(name.request, name.role, Envelope(), Job())})
    }
  }

  const MOVE := HandlerMoves(0)

  const NO_FAULTS := ImportFaults(false, false, false)

  lemma SendAndArrive(o: Order)
    requires o.Valid()
    ensures Next(Next(Next(Next(INITIAL, Publish(o.name, o.lease)), Transfer(o.name)), Start),
                 Arrive(0, o.name.request, o.name.role, o.Envelope()))
         == o.At(o.SentWorld(), Arrived, {})
  {
    var s1 := Next(INITIAL, Publish(o.name, o.lease));
    assert s1.world == EMPTY.(published := map[o.name := o.lease], dirs := Directories(map[o.name := o.lease], map[], map[]));
    var s2 := Next(s1, Transfer(o.name));
    assert s2.world == o.SentWorld();
  }

  lemma DecodeRequest(o: Order)
    requires o.Valid()
    ensures Next(Next(Next(o.At(o.SentWorld(), Arrived, {}), MOVE), MOVE), MOVE)
         == o.At(o.DecodedWorld(), Registered(o.Row(RequestDecoded, 0)), {})
  {
    var w1 := o.SentWorld().(bound := map[o.Ticket() := o.Envelope()]);
    var s1 := Next(o.At(o.SentWorld(), Arrived, {}), MOVE);
    assert s1 == o.At(w1, Bound, {});
    var s2 := Next(s1, MOVE);
    assert s2 == o.At(w1, Validated(o.Sent()), {});
    assert Decoded(o.name, o.Sent()) == o.Row(RequestDecoded, 0);
  }

  lemma RowIsRead(o: Order)
    requires o.Valid()
    ensures Next(o.At(o.DecodedWorld(), Registered(o.Row(RequestDecoded, 0)), {}), MOVE)
         == o.At(o.DecodedWorld(), Claiming(o.Row(RequestDecoded, 0)), {})
  {
  }

  lemma BundleIsRenamed(o: Order)
    requires o.Valid()
    ensures Next(o.At(o.DecodedWorld(), Claiming(o.Row(RequestDecoded, 0)), {}), MOVE)
         == o.At(o.DecodedWorld().(dirs := Directories(map[], map[o.name := o.Sent()], map[])), Renamed(o.Row(RequestDecoded, 0)), {})
  {
  }

  lemma ClaimRow(o: Order)
    requires o.Valid()
    ensures Next(Next(Next(o.At(o.DecodedWorld(), Registered(o.Row(RequestDecoded, 0)), {}), MOVE), MOVE), MOVE)
         == o.At(o.ClaimedWorld(), Ready, {})
  {
    RowIsRead(o);
    BundleIsRenamed(o);
  }

  lemma SubmitCommand(o: Order)
    requires o.Valid()
    ensures Next(o.At(o.ClaimedWorld(), Ready, {}), MOVE) == o.At(o.ClaimedWorld(), Waiting, {o.Command()})
  {
  }

  lemma TakeCommand(o: Order)
    requires o.Valid()
    ensures Next(Next(o.At(o.ClaimedWorld(), Waiting, {o.Command()}), OwnerPicks(o.Command())), OwnerChecks)
         == o.At(o.ClaimedWorld(), Waiting, {o.Command()}).(owner := Checked(o.Command(), o.Row(Claimed, 1)))
  {
  }

  lemma ImportAndCommit(o: Order)
    requires o.Valid()
    ensures Next(Next(o.At(o.ClaimedWorld(), Waiting, {o.Command()}).(owner := Checked(o.Command(), o.Row(Claimed, 1))),
                      OwnerImports(NO_FAULTS)), OwnerCommits(true))
         == o.At(o.AdmittedWorld(), Waiting, {o.Command()})
  {
    var s := o.At(o.ClaimedWorld(), Waiting, {o.Command()});
    var s1 := Next(s.(owner := Checked(o.Command(), o.Row(Claimed, 1))), OwnerImports(NO_FAULTS));
    var stored := o.ClaimedWorld().(store := map[o.Job() := o.lease.payload.digest]);
    assert s1 == s.(world := stored, owner := Imported(o.Command(), o.Row(Claimed, 1), true));
    assert CommitPossible(stored, o.Command(), o.Row(Claimed, 1));
    assert CommitStaged(stored, o.Command()) == o.AdmittedWorld();
  }

  lemma Confirm(o: Order)
    requires o.Valid()
    ensures Next(Next(o.At(o.AdmittedWorld(), Waiting, {o.Command()}), MOVE), MOVE)
         == o.At(o.AdmittedWorld(), Consuming(o.Row(DurablyAdmitted, 2), o.Job()), {o.Command()})
  {
    var s1 := Next(o.At(o.AdmittedWorld(), Waiting, {o.Command()}), MOVE);
    assert s1 == o.At(o.AdmittedWorld(), Answered, {o.Command()});
  }

  lemma ReadAgain(o: Order)
    requires o.Valid()
    ensures var row := o.Row(DurablyAdmitted, 2);
            Next(o.At(o.AdmittedWorld(), Consuming(row, o.Job()), {o.Command()}), MOVE)
            == o.At(o.AdmittedWorld(), Clearing(row, row, o.Job()), {o.Command()})
  {
  }

  lemma Clear(o: Order)
    requires o.Valid()
    ensures var row := o.Row(DurablyAdmitted, 2);
            Next(o.At(o.AdmittedWorld(), Clearing(row, row, o.Job()), {o.Command()}), MOVE)
            == o.At(o.AdmittedWorld().(dirs := Directories(map[], map[], map[])), Removed(row, o.Job()), {o.Command()})
  {
    assert RemoveBundle(o.AdmittedWorld(), R.InAdmitted, o.name) == o.AdmittedWorld().(dirs := Directories(map[], map[], map[]));
  }

  lemma ReplyTo(o: Order)
    requires o.Valid()
    ensures Next(o.At(o.AdmittedWorld().(dirs := Directories(map[], map[], map[])), Removed(o.Row(DurablyAdmitted, 2), o.Job()),
                      {o.Command()}), MOVE)
         == o.At(o.ServedWorld(), Replied, {o.Command()})
  {
    var emptied := o.AdmittedWorld().(dirs := Directories(map[], map[], map[]));
    assert Transition(o.Row(DurablyAdmitted, 2), 2, DurablyAdmitted, Consumed) == Some(o.Row(Consumed, 3));
    assert Answer(SetRow(emptied, o.Row(Consumed, 3)), Reply(o.name.request, o.name.role, o.Envelope(), o.Job()))
        == o.ServedWorld();
  }

  lemma {:induction false} RunInParts(s: State, first: seq<Step>, second: seq<Step>)
    ensures Run(s, first + second) == Run(Run(s, first), second)
    decreases |first|
  {
    if first == [] {
      assert first + second == second;
    } else {
      assert (first + second)[1..] == first[1..] + second;
      RunInParts(Next(s, first[0]), first[1..], second);
    }
  }

  lemma RunOne(s: State, a: Step)
    ensures Run(s, [a]) == Next(s, a)
  {
    assert [a][1..] == [] && Run(Next(s, a), []) == Next(s, a);
  }

  lemma RunTwo(s: State, a: Step, b: Step)
    ensures Run(s, [a, b]) == Next(Next(s, a), b)
  {
    assert [a, b][1..] == [b];
    assert Run(Next(Next(s, a), b), [b][1..]) == Next(Next(s, a), b);
  }

  lemma RunThree(s: State, a: Step, b: Step, c: Step)
    ensures Run(s, [a, b, c]) == Next(Next(Next(s, a), b), c)
  {
    assert [a, b, c][1..] == [b, c];
    RunTwo(Next(s, a), b, c);
  }

  /** Every valid order can be served: decoded, claimed, admitted with its bytes, consumed and answered. */
  lemma EveryOrderCanBeServed(o: Order)
    requires o.Valid()
    ensures exists steps :: Run(INITIAL, steps) == o.At(o.ServedWorld(), Replied, {o.Command()})
  {
    var waiting := o.At(o.ClaimedWorld(), Waiting, {o.Command()});
    ServedToClaim(o);
    TakeCommand(o);
    ImportAndCommit(o);
    Confirm(o);
    ReadAgain(o);
    Clear(o);
    ReplyTo(o);
    var steps :| Run(INITIAL, steps) == waiting;
    RunTwo(waiting, OwnerPicks(o.Command()), OwnerChecks);
    Extend(steps, waiting, [OwnerPicks(o.Command()), OwnerChecks]);
    steps := steps + [OwnerPicks(o.Command()), OwnerChecks];
    var checked := waiting.(owner := Checked(o.Command(), o.Row(Claimed, 1)));
    RunTwo(checked, OwnerImports(NO_FAULTS), OwnerCommits(true));
    Extend(steps, checked, [OwnerImports(NO_FAULTS), OwnerCommits(true)]);
    steps := steps + [OwnerImports(NO_FAULTS), OwnerCommits(true)];
    var admitted := o.At(o.AdmittedWorld(), Waiting, {o.Command()});
    RunTwo(admitted, MOVE, MOVE);
    Extend(steps, admitted, [MOVE, MOVE]);
    steps := steps + [MOVE, MOVE];
    var consuming := o.At(o.AdmittedWorld(), Consuming(o.Row(DurablyAdmitted, 2), o.Job()), {o.Command()});
    RunThree(consuming, MOVE, MOVE, MOVE);
    Extend(steps, consuming, [MOVE, MOVE, MOVE]);
  }

  lemma Extend(steps: seq<Step>, s: State, more: seq<Step>)
    requires Run(INITIAL, steps) == s
    ensures Run(INITIAL, steps + more) == Run(s, more)
  {
    RunInParts(INITIAL, steps, more);
  }

  lemma DecodedIsReachable(o: Order)
    requires o.Valid()
    ensures exists steps :: Run(INITIAL, steps) == o.At(o.DecodedWorld(), Registered(o.Row(RequestDecoded, 0)), {})
  {
    var arrive := Arrive(0, o.name.request, o.name.role, o.Envelope());
    SendAndArrive(o);
    DecodeRequest(o);
    var sent := Next(Next(INITIAL, Publish(o.name, o.lease)), Transfer(o.name));
    RunTwo(INITIAL, Publish(o.name, o.lease), Transfer(o.name));
    RunTwo(sent, Start, arrive);
    var steps := [Publish(o.name, o.lease), Transfer(o.name)];
    Extend(steps, sent, [Start, arrive]);
    steps := steps + [Start, arrive];
    var arrived := o.At(o.SentWorld(), Arrived, {});
    RunThree(arrived, MOVE, MOVE, MOVE);
    Extend(steps, arrived, [MOVE, MOVE, MOVE]);
  }

  lemma ServedToClaim(o: Order)
    requires o.Valid()
    ensures exists steps :: Run(INITIAL, steps) == o.At(o.ClaimedWorld(), Waiting, {o.Command()})
  {
    DecodedIsReachable(o);
    ClaimRow(o);
    SubmitCommand(o);
    var decoded := o.At(o.DecodedWorld(), Registered(o.Row(RequestDecoded, 0)), {});
    var steps :| Run(INITIAL, steps) == decoded;
    RunThree(decoded, MOVE, MOVE, MOVE);
    Extend(steps, decoded, [MOVE, MOVE, MOVE]);
    steps := steps + [MOVE, MOVE, MOVE];
    var ready := o.At(o.ClaimedWorld(), Ready, {});
    RunOne(ready, MOVE);
    Extend(steps, ready, [MOVE]);
  }
}
