/**
 The schema migration ledger, under any interleaving of migration runs.

 A run is a chain of transactions: bootstrap the ledger table, verify the rows,
 apply each packaged migration, verify completeness. Other runs may commit
 between any two of them, and a run may fail or crash in any of them; a failed
 transaction leaves the database as it was. `Run` interleaves them freely, and
 the theorems at the end hold of every state of every such interleaving.
 */
module Migrations {
  import opened Wrappers

  datatype Row = Row(name: string, sha256: string)

  datatype Migration = Migration(version: nat, row: Row)

  type Ledger = map<nat, Row>

  /** The ledger table, absent before the first bootstrap, and the migrations whose SQL committed. */
  datatype Database = Database(table: Option<Ledger>, executed: seq<nat>) {
    function Ledger(): Ledger {
      if table.Some? then table.value else map[]
    }
  }

  datatype Fault = Unknown(version: nat) | Altered(version: nat) | Missing(version: nat) | Rejected

  /** The packaged list as loaded: one migration per version, in ascending order. */
  predicate Packaged(ms: seq<Migration>) {
    forall i, j :: 0 <= i < j < |ms| ==> ms[i].version < ms[j].version
  }

  /** The packaged list keyed by version. */
  function LedgerOf(ms: seq<Migration>): Ledger
    decreases |ms|
  {
    if ms == [] then map[] else LedgerOf(ms[..|ms| - 1])[ms[|ms| - 1].version := ms[|ms| - 1].row]
  }

  lemma {:induction false} LedgerOfIsPackage(ms: seq<Migration>)
    requires Packaged(ms)
    ensures forall i :: 0 <= i < |ms| ==> ms[i].version in LedgerOf(ms) && LedgerOf(ms)[ms[i].version] == ms[i].row
    ensures forall v :: v in LedgerOf(ms) ==> exists i :: 0 <= i < |ms| && ms[i].version == v
    decreases |ms|
  {
    if ms != [] {
      var n := |ms| - 1;
      var front := ms[..n];
      LedgerOfIsPackage(front);
      assert LedgerOf(ms) == LedgerOf(front)[ms[n].version := ms[n].row];
      forall v | v in LedgerOf(ms) ensures exists i :: 0 <= i < |ms| && ms[i].version == v {
        if v != ms[n].version {
          assert v in LedgerOf(front);
          var i :| 0 <= i < |front| && front[i].version == v;
          assert ms[i].version == v;
        }
      }
      forall i | 0 <= i < |ms| ensures ms[i].version in LedgerOf(ms) && LedgerOf(ms)[ms[i].version] == ms[i].row {
        if i < n {
          assert front[i] == ms[i] && ms[i].version < ms[n].version;
        }
      }
    }
  }

  // -------------------------------------------------------- transactions

  function Bootstrap(db: Database): Database {
    Database(Some(db.Ledger()), db.executed)
  }

  /** No row of the ledger is unknown to the package or differs from it. */
  predicate Recognised(ledger: Ledger, ms: seq<Migration>) {
    forall v :: v in ledger ==> exists i :: 0 <= i < |ms| && ms[i].version == v && ms[i].row == ledger[v]
  }

  predicate Complete(ledger: Ledger, ms: seq<Migration>) {
    forall i :: 0 <= i < |ms| ==> ms[i].version in ledger
  }

  predicate Insertable(ledger: Ledger, m: Migration) {
    m.version > 0 && m.version !in ledger && forall v :: v in ledger ==> ledger[v].name != m.row.name
  }

  /**
   One apply transaction: an existing row is only compared; otherwise the
   statements and the row commit together, or nothing does.
   */
  function Apply(db: Database, m: Migration, statementsSucceed: bool): Result<Database, Fault> {
    var ledger := db.Ledger();
    if m.version in ledger then
      if ledger[m.version] == m.row then Ok(db) else Err(Altered(m.version))
    else if statementsSucceed && Insertable(ledger, m) then
      Ok(Database(Some(ledger[m.version := m.row]), db.executed + [m.version]))
    else Err(Rejected)
  }

  // ------------------------------------------------------ the row loops

  datatype StoredRow = StoredRow(version: nat, row: Row)

  /** The select the loop runs over: every row once, by ascending version. */
  predicate Lists(rows: seq<StoredRow>, ledger: Ledger) {
    && (forall i, j :: 0 <= i < j < |rows| ==> rows[i].version < rows[j].version)
    && (forall i :: 0 <= i < |rows| ==> rows[i].version in ledger && ledger[rows[i].version] == rows[i].row)
    && (forall v :: v in ledger ==> exists i :: 0 <= i < |rows| && rows[i].version == v)
  }

  /** A stored row that names no packaged migration, or names one with another identity. */
  predicate Explains(fault: Fault, ledger: Ledger, ms: seq<Migration>) {
    match fault
    case Unknown(v) => v in ledger && v !in LedgerOf(ms)
    case Altered(v) => v in ledger && v in LedgerOf(ms) && ledger[v] != LedgerOf(ms)[v]
    case Missing(v) => v !in ledger && v in LedgerOf(ms)
    case Rejected => false
  }

  /** The ledger is packaged row by row. */
  lemma RecognisedIsInclusion(ledger: Ledger, ms: seq<Migration>)
    requires Packaged(ms)
    ensures Recognised(ledger, ms) <==> forall v :: v in ledger ==> v in LedgerOf(ms) && LedgerOf(ms)[v] == ledger[v]
  {
    LedgerOfIsPackage(ms);
    if forall v :: v in ledger ==> v in LedgerOf(ms) && LedgerOf(ms)[v] == ledger[v] {
      forall v | v in ledger ensures exists i :: 0 <= i < |ms| && ms[i].version == v && ms[i].row == ledger[v] {
        var i :| 0 <= i < |ms| && ms[i].version == v;
        assert ms[i].row == LedgerOf(ms)[ms[i].version];
      }
    }
  }

  predicate RowMatches(row: StoredRow, packagedByVersion: Ledger) {
    row.version in packagedByVersion && packagedByVersion[row.version] == row.row
  }

  /** A listing of matching rows is a recognised ledger, and conversely. */
  lemma ListedRowsDecide(rows: seq<StoredRow>, ledger: Ledger, ms: seq<Migration>)
    requires Lists(rows, ledger) && Packaged(ms)
    ensures Recognised(ledger, ms) <==> forall i :: 0 <= i < |rows| ==> RowMatches(rows[i], LedgerOf(ms))
  {
    RecognisedIsInclusion(ledger, ms);
    if forall i :: 0 <= i < |rows| ==> RowMatches(rows[i], LedgerOf(ms)) {
      forall v | v in ledger ensures v in LedgerOf(ms) && LedgerOf(ms)[v] == ledger[v] {
        var i :| 0 <= i < |rows| && rows[i].version == v;
        assert RowMatches(rows[i], LedgerOf(ms));
      }
    }
  }

  /** The loop over the stored rows; the answer is the highest stored version. */
  method VerifyRows(rows: seq<StoredRow>, ghost ledger: Ledger, ms: seq<Migration>) returns (r: Result<nat, Fault>)
    requires Lists(rows, ledger) && Packaged(ms)
    ensures r.Ok? <==> Recognised(ledger, ms)
    ensures r.Ok? ==> if rows == [] then r.value == 0 else r.value == rows[|rows| - 1].version
    ensures r.Err? ==> Explains(r.error, ledger, ms) && !r.error.Missing?
  {
    ListedRowsDecide(rows, ledger, ms);
    var packagedByVersion, highest := LedgerOf(ms), 0;
    for k := 0 to |rows|
      invariant forall i :: 0 <= i < k ==> RowMatches(rows[i], packagedByVersion)
      invariant if k == 0 then highest == 0 else highest == rows[k - 1].version
    {
      if rows[k].version !in packagedByVersion {
        return Err(Unknown(rows[k].version));
      }
      if packagedByVersion[rows[k].version] != rows[k].row {
        return Err(Altered(rows[k].version));
      }
      highest := rows[k].version;
    }
    return Ok(highest);
  }

  /** Both verification loops: nothing unknown or altered and, when asked, nothing missing. */
  method VerifyLedger(rows: seq<StoredRow>, ghost ledger: Ledger, ms: seq<Migration>, requireComplete: bool)
    returns (r: Result<nat, Fault>)
    requires Lists(rows, ledger) && Packaged(ms)
    ensures r.Ok? <==> Recognised(ledger, ms) && (requireComplete ==> Complete(ledger, ms))
    ensures r.Ok? ==> (forall v :: v in ledger ==> v <= r.value) && (ledger != map[] ==> r.value in ledger)
    ensures r.Err? ==> Explains(r.error, ledger, ms) && (r.error.Missing? ==> requireComplete)
  {
    r := VerifyRows(rows, ledger, ms);
    if r.Err? {
      return;
    }
    assert r.value in ledger || rows == [];
    if requireComplete {
      LedgerOfIsPackage(ms);
      for k := 0 to |ms|
        invariant forall i :: 0 <= i < k ==> ms[i].version in ledger
      {
        if !exists i :: 0 <= i < |rows| && rows[i].version == ms[k].version {
          return Err(Missing(ms[k].version));
        }
      }
    }
  }

  lemma RecognisedCompleteIsPackage(ledger: Ledger, ms: seq<Migration>)
    requires Packaged(ms) && Recognised(ledger, ms) && Complete(ledger, ms)
    ensures ledger == LedgerOf(ms)
  {
    LedgerOfIsPackage(ms);
    RecognisedIsInclusion(ledger, ms);
  }

  /** Applying a packaged migration adds its row and no other. */
  lemma ApplyGrowsByRecognisedRow(db: Database, k: nat, succeed: bool, ms: seq<Migration>)
    requires k < |ms| && Apply(db, ms[k], succeed).Ok?
    ensures var after := Apply(db, ms[k], succeed).value.Ledger();
            && ms[k].version in after
            && (forall v :: v in db.Ledger() ==> v in after)
            && (Recognised(db.Ledger(), ms) ==> Recognised(after, ms))
  {
  }

  // ------------------------------------------------------ one connection

  /** What the table and the package must allow for a run to get through. */
  predicate Appliable(ms: seq<Migration>) {
    && Packaged(ms)
    && (forall i, j :: 0 <= i < j < |ms| ==> ms[i].row.name != ms[j].row.name)
    && (forall i :: 0 <= i < |ms| ==> ms[i].version > 0)
  }

  lemma ApplicableApplies(db: Database, k: nat, ms: seq<Migration>)
    requires Appliable(ms) && k < |ms| && Recognised(db.Ledger(), ms)
    ensures Apply(db, ms[k], true).Ok?
  {
    var ledger := db.Ledger();
    forall v | v in ledger 
      ensures if v == ms[k].version then ledger[v] == ms[k].row else ledger[v].name != ms[k].row.name
    {
      var i :| 0 <= i < |ms| && ms[i].version == v && ms[i].row == ledger[v];
      assert i < k || i == k || k < i;
    }
  }

  /** Every migration that is not in the ledger yet has statements that succeed. */
  predicate GoesThrough(initial: Ledger, succeed: seq<bool>, ms: seq<Migration>)
    requires |succeed| == |ms|
  {
    forall k :: 0 <= k < |ms| ==> ms[k].version in initial || succeed[k]
  }

  /** Where an undisturbed run that started on `initial` stands after `k` migrations. */
  ghost predicate Reached(ledger: Ledger, initial: Ledger, k: nat, succeed: seq<bool>, ms: seq<Migration>) {
    && k <= |ms| == |succeed| && Recognised(ledger, ms)
    && (forall v :: v in initial ==> v in ledger)
    && (forall i :: 0 <= i < k ==> ms[i].version in ledger && (ms[i].version in initial || succeed[i]))
    && (forall i :: k <= i < |ms| && ms[i].version in ledger ==> ms[i].version in initial)
  }

  lemma ReachesNext(db: Database, initial: Ledger, k: nat, succeed: seq<bool>, ms: seq<Migration>)
    requires Packaged(ms) && Reached(db.Ledger(), initial, k, succeed, ms) && k < |ms| && Apply(db, ms[k], succeed[k]).Ok?
    ensures Reached(Apply(db, ms[k], succeed[k]).value.Ledger(), initial, k + 1, succeed, ms)
  {
    ApplyGrowsByRecognisedRow(db, k, succeed[k], ms);
  }

  /** Of an appliable list, a migration stops the run only if it is new and its statements fail. */
  lemma StopsOnlyOnFailure(db: Database, initial: Ledger, k: nat, succeed: seq<bool>, ms: seq<Migration>)
    requires Appliable(ms) && Reached(db.Ledger(), initial, k, succeed, ms) && k < |ms| && Apply(db, ms[k], succeed[k]).Err?
    ensures !GoesThrough(initial, succeed, ms)
  {
    ApplicableApplies(db, k, ms);
    assert Recognised(db.Ledger(), ms);
  }

  lemma ReachedTheEnd(ledger: Ledger, initial: Ledger, succeed: seq<bool>, ms: seq<Migration>)
    requires Packaged(ms) && Reached(ledger, initial, |ms|, succeed, ms)
    ensures ledger == LedgerOf(ms) && GoesThrough(initial, succeed, ms)
  {
    RecognisedCompleteIsPackage(ledger, ms);
  }

  class Connection {
    var table: Option<Ledger>
    var executed: seq<nat>

    ghost function Contents(): (db: Database)
      reads this
    {
      Database(table, executed)
    }

    constructor (existing: Option<Ledger>)
      ensures Contents() == Database(existing, [])
    {
      table, executed := existing, [];
    }

    /** The statements run before the row is inserted; any failure rolls both back. */
    method ApplyMigration(m: Migration, statementsSucceed: bool) returns (fault: Option<Fault>)
      modifies this
      ensures match Apply(old(Contents()), m, statementsSucceed)
              case Ok(db) => fault == None && Contents() == db
              case Err(e) => fault == Some(e) && Contents() == old(Contents())
    {
      var ledger := if table.Some? then table.value else map[];
      if m.version in ledger {
        return if ledger[m.version] == m.row then None else Some(Altered(m.version));
      }
      var savedTable, savedExecuted := table, executed;
      executed := executed + [m.version];
      if !statementsSucceed || !Insertable(ledger, m) {
        table, executed := savedTable, savedExecuted;
        return Some(Rejected);
      }
      table := Some(ledger[m.version := m.row]);
      return None;
    }

    /**
     One run with nothing in between: it succeeds only with the packaged list in
     place, and on an appliable list exactly when no row is bad and the statements
     of every migration not yet in the ledger succeed.
     */
    method Migrate(ms: seq<Migration>, statementsSucceed: seq<bool>) returns (fault: Option<Fault>)
      requires Packaged(ms) && |statementsSucceed| == |ms|
      modifies this
      ensures fault == None ==> Contents().Ledger() == LedgerOf(ms)
      ensures !Recognised(old(Contents().Ledger()), ms) ==>
                fault.Some? && executed == old(executed) && Contents().Ledger() == old(Contents().Ledger())
      ensures Appliable(ms) ==>
                (fault == None <==>
                   Recognised(old(Contents().Ledger()), ms) && GoesThrough(old(Contents().Ledger()), statementsSucceed, ms))
    {
      ghost var initial := Contents().Ledger();
      table := Some(if table.Some? then table.value else map[]);
      if !Recognised(table.value, ms) {
        return Some(Rejected);
      }
      for k := 0 to |ms|
        invariant table.Some? && Reached(table.value, initial, k, statementsSucceed, ms)
      {
        ghost var before := Contents();
        fault := ApplyMigration(ms[k], statementsSucceed[k]);
        if fault.Some? {
          if Appliable(ms) {
            StopsOnlyOnFailure(before, initial, k, statementsSucceed, ms);
          }
          return;
        }
        ReachesNext(before, initial, k, statementsSucceed, ms);
      }
      ReachedTheEnd(table.value, initial, statementsSucceed, ms);
      return None;
    }
  }

  // -------------------------------------------------- interleaved runs

  /** Where one run stands; `Applying(k)` has `k` migrations behind it. */
  datatype Pc = Bootstrapping | Verifying | Applying(k: nat) | Finishing | Returned | Stopped

  type RunId = nat

  datatype State = State(db: Database, runs: map<RunId, Pc>)

  /** Begin a run, take its next transaction, or lose it inside a transaction that rolls back. */
  datatype Step = Begin(id: RunId) | Transact(id: RunId, statementsSucceed: bool) | Lose(id: RunId)

  function Next(s: State, step: Step, ms: seq<Migration>): State {
    match step
    case Begin(id) => if id in s.runs then s else s.(runs := s.runs[id := Bootstrapping])
    case Lose(id) => if id in s.runs && !s.runs[id].Returned? then s.(runs := s.runs[id := Stopped]) else s
    case Transact(id, succeed) => if id in s.runs then Transacted(s, id, s.runs[id], succeed, ms) else s
  }

  function Transacted(s: State, id: RunId, pc: Pc, succeed: bool, ms: seq<Migration>): State {
    var ledger := s.db.Ledger();
    match pc
    case Bootstrapping => State(Bootstrap(s.db), s.runs[id := Verifying])
    case Verifying => s.(runs := s.runs[id := if Recognised(ledger, ms) then Applying(0) else Stopped])
    case Applying(k) =>
      if k < |ms| then
        var applied := Apply(s.db, ms[k], succeed);
        if applied.Ok? then State(applied.value, s.runs[id := Applying(k + 1)])
        else s.(runs := s.runs[id := Stopped])
      else s.(runs := s.runs[id := Finishing])
    case Finishing =>
      s.(runs := s.runs[id := if Recognised(ledger, ms) && Complete(ledger, ms) then Returned else Stopped])
    case Returned => s
    case Stopped => s
  }

  function Run(s: State, steps: seq<Step>, ms: seq<Migration>): State
    decreases |steps|
  {
    if steps == [] then s else Run(Next(s, steps[0], ms), steps[1..], ms)
  }

  // ----------------------------------------------------------- invariant

  predicate Distinct(vs: seq<nat>) {
    forall i, j :: 0 <= i < j < |vs| ==> vs[i] != vs[j]
  }

  /** The ledger is the initial one plus a row for each executed migration, once. */
  ghost predicate Accounted(db: Database, initial: Ledger, ms: seq<Migration>) {
    var ledger := db.Ledger();
    && Distinct(db.executed)
    && (forall v :: v in ledger <==> v in initial || v in db.executed)
    && (forall v :: v in initial ==> v in ledger && ledger[v] == initial[v])
    && (forall v :: v in db.executed ==> v !in initial && v in LedgerOf(ms) && ledger[v] == LedgerOf(ms)[v])
  }

  /** What a run has established, given the ledger as it is now. */
  ghost predicate Established(pc: Pc, ledger: Ledger, ms: seq<Migration>) {
    match pc
    case Applying(k) => Recognised(ledger, ms) && k <= |ms| && forall i :: 0 <= i < k ==> ms[i].version in ledger
    case Finishing => Recognised(ledger, ms) && Complete(ledger, ms)
    case Returned => Recognised(ledger, ms) && Complete(ledger, ms)
    case _ => true
  }

  ghost predicate AllEstablished(runs: map<RunId, Pc>, ledger: Ledger, ms: seq<Migration>) {
    forall id :: id in runs ==> Established(runs[id], ledger, ms)
  }

  ghost predicate Inv(s: State, initial: Ledger, ms: seq<Migration>) {
    && Accounted(s.db, initial, ms)
    && AllEstablished(s.runs, s.db.Ledger(), ms)
    && (!Recognised(initial, ms) ==> s.db.executed == [])
  }

  lemma ApplyKeepsAccounts(db: Database, m: nat, succeed: bool, initial: Ledger, ms: seq<Migration>)
    requires Packaged(ms) && m < |ms| && Accounted(db, initial, ms) && Apply(db, ms[m], succeed).Ok?
    ensures var db' := Apply(db, ms[m], succeed).value;
            Accounted(db', initial, ms)
  {
    LedgerOfIsPackage(ms);
    var db' := Apply(db, ms[m], succeed).value;
    if db' != db {
      assert db'.executed == db.executed + [ms[m].version];
      assert forall v :: v in db'.executed <==> v in db.executed || v == ms[m].version;
    }
  }

  /** A ledger that only grows by recognised rows keeps what every run established. */
  lemma EstablishedGrows(runs: map<RunId, Pc>, before: Ledger, after: Ledger, ms: seq<Migration>)
    requires AllEstablished(runs, before, ms)
    requires forall v :: v in before ==> v in after
    requires Recognised(before, ms) ==> Recognised(after, ms)
    ensures AllEstablished(runs, after, ms)
  {
    forall id | id in runs ensures Established(runs[id], after, ms) {
      assert Established(runs[id], before, ms);
    }
  }

  lemma RecognisedPart(initial: Ledger, ledger: Ledger, ms: seq<Migration>)
    requires Recognised(ledger, ms)
    requires forall v :: v in initial ==> v in ledger && ledger[v] == initial[v]
    ensures Recognised(initial, ms)
  {
  }

  lemma ApplyKeepsInv(s: State, id: RunId, k: nat, succeed: bool, initial: Ledger, ms: seq<Migration>)
    requires Packaged(ms) && Inv(s, initial, ms)
    requires id in s.runs && s.runs[id] == Applying(k) && k < |ms| && Apply(s.db, ms[k], succeed).Ok?
    ensures Inv(State(Apply(s.db, ms[k], succeed).value, s.runs[id := Applying(k + 1)]), initial, ms)
  {
    assert Established(s.runs[id], s.db.Ledger(), ms);
    ApplyKeepsAccounts(s.db, k, succeed, initial, ms);
    ApplyGrowsByRecognisedRow(s.db, k, succeed, ms);
    AdvanceKeepsInv(s, id, k, Apply(s.db, ms[k], succeed).value, initial, ms);
  }

  lemma AdvanceKeepsInv(s: State, id: RunId, k: nat, db: Database, initial: Ledger, ms: seq<Migration>)
    requires Inv(s, initial, ms) && Accounted(db, initial, ms) && k < |ms|
    requires Established(Applying(k), s.db.Ledger(), ms) && ms[k].version in db.Ledger()
    requires forall v :: v in s.db.Ledger() ==> v in db.Ledger()
    requires Recognised(db.Ledger(), ms)
    ensures Inv(State(db, s.runs[id := Applying(k + 1)]), initial, ms)
  {
    EstablishedGrows(s.runs, s.db.Ledger(), db.Ledger(), ms);
    RecognisedPart(initial, db.Ledger(), ms);
  }

  lemma NextKeepsInv(s: State, step: Step, initial: Ledger, ms: seq<Migration>)
    requires Packaged(ms) && Inv(s, initial, ms)
    ensures Inv(Next(s, step, ms), initial, ms)
  {
    var s' := Next(s, step, ms);
    if step.Transact? && step.id in s.runs && s.runs[step.id].Applying? && s.runs[step.id].k < |ms|
       && Apply(s.db, ms[s.runs[step.id].k], step.statementsSucceed).Ok? {
      ApplyKeepsInv(s, step.id, s.runs[step.id].k, step.statementsSucceed, initial, ms);
    } else {
      assert s'.db.Ledger() == s.db.Ledger() && s'.db.executed == s.db.executed;
    }
  }

  lemma {:induction false} RunKeepsInv(s: State, steps: seq<Step>, initial: Ledger, ms: seq<Migration>)
    requires Packaged(ms) && Inv(s, initial, ms)
    ensures Inv(Run(s, steps, ms), initial, ms)
    decreases |steps|
  {
    if steps != [] {
      NextKeepsInv(s, steps[0], initial, ms);
      RunKeepsInv(Next(s, steps[0], ms), steps[1..], initial, ms);
    }
  }

  /** No run yet, and any ledger left by earlier services: nothing executed so far. */
  function Start(table: Option<Ledger>): State {
    State(Database(table, []), map[])
  }

  // ------------------------------------------------------------ theorems

  /**
   Each migration's statements commit at most once, and the committed ones are
   exactly those whose row is new in the ledger.
   */
  lemma StatementsCommitOnceWithTheirRow(table: Option<Ledger>, steps: seq<Step>, ms: seq<Migration>)
    requires Packaged(ms)
    ensures var db := Run(Start(table), steps, ms).db; var initial := Start(table).db.Ledger();
            && Distinct(db.executed)
            && (forall v :: v in db.executed <==> v in db.Ledger() && v !in initial)
            && (forall v :: v in initial ==> v in db.Ledger() && db.Ledger()[v] == initial[v])
            && (forall v :: v in db.executed ==> v in LedgerOf(ms) && db.Ledger()[v] == LedgerOf(ms)[v])
  {
    RunKeepsInv(Start(table), steps, Start(table).db.Ledger(), ms);
  }

  /** A run that returned leaves exactly the packaged list, whatever commits around it. */
  lemma ReturnedMeansPackaged(table: Option<Ledger>, steps: seq<Step>, ms: seq<Migration>, id: RunId)
    requires Packaged(ms)
    requires var s := Run(Start(table), steps, ms); id in s.runs && s.runs[id].Returned?
    ensures Run(Start(table), steps, ms).db.Ledger() == LedgerOf(ms)
  {
    RunKeepsInv(Start(table), steps, Start(table).db.Ledger(), ms);
    RecognisedCompleteIsPackage(Run(Start(table), steps, ms).db.Ledger(), ms);
  }

  /** An unknown or altered row stops every run before any migration SQL. */
  lemma BadRowStopsEveryRun(table: Option<Ledger>, steps: seq<Step>, ms: seq<Migration>)
    requires Packaged(ms) && !Recognised(Start(table).db.Ledger(), ms)
    ensures var s := Run(Start(table), steps, ms);
            && s.db.executed == [] && s.db.Ledger() == Start(table).db.Ledger()
            && forall id :: id in s.runs ==> s.runs[id].Bootstrapping? || s.runs[id].Verifying? || s.runs[id].Stopped?
  {
    var initial, s := Start(table).db.Ledger(), Run(Start(table), steps, ms);
    RunKeepsInv(Start(table), steps, initial, ms);
    assert forall v :: v in s.db.Ledger() <==> v in initial;
    if Recognised(s.db.Ledger(), ms) {
      RecognisedPart(initial, s.db.Ledger(), ms);
    }
  }

  /** `n` transactions of one run in a row, each with SQL that succeeds. */
  function Alone(id: RunId, n: nat): seq<Step> {
    seq(n, _ => Transact(id, true))
  }

  /** The run has returned, and the ledger is the packaged list. */
  predicate ReturnsPackaged(s: State, id: RunId, ms: seq<Migration>) {
    id in s.runs && s.runs[id].Returned? && s.db.Ledger() == LedgerOf(ms)
  }

  /** With nothing left to apply, two more transactions return. */
  lemma LastTwoReturn(s: State, id: RunId, ms: seq<Migration>)
    requires Packaged(ms) && id in s.runs && s.runs[id] == Applying(|ms|)
    requires Recognised(s.db.Ledger(), ms) && Complete(s.db.Ledger(), ms)
    ensures ReturnsPackaged(Run(s, Alone(id, 2), ms), id, ms)
  {
    var step := Transact(id, true);
    var s1 := Next(s, step, ms);
    var s2 := Next(s1, step, ms);
    assert Alone(id, 2)[0] == step && Alone(id, 2)[1..] == [step] && [step][1..] == [];
    assert Run(s2, [], ms) == s2;
    RecognisedCompleteIsPackage(s.db.Ledger(), ms);
  }

  lemma RunAlone(s: State, id: RunId, n: nat, ms: seq<Migration>)
    ensures Run(s, Alone(id, n + 1), ms) == Run(Next(s, Transact(id, true), ms), Alone(id, n), ms)
  {
    assert Alone(id, n + 1)[0] == Transact(id, true) && Alone(id, n + 1)[1..] == Alone(id, n);
  }

  lemma OneMoreApplied(s: State, id: RunId, k: nat, ms: seq<Migration>)
    requires Appliable(ms) && id in s.runs && s.runs[id] == Applying(k) && k < |ms|
    requires Recognised(s.db.Ledger(), ms) && forall i :: 0 <= i < k ==> ms[i].version in s.db.Ledger()
    ensures var s' := Next(s, Transact(id, true), ms);
            && id in s'.runs && s'.runs[id] == Applying(k + 1) && Recognised(s'.db.Ledger(), ms)
            && forall i :: 0 <= i < k + 1 ==> ms[i].version in s'.db.Ledger()
  {
    ApplicableApplies(s.db, k, ms);
    ApplyGrowsByRecognisedRow(s.db, k, true, ms);
  }

  /**
   A run left alone, on a ledger without a bad row, returns after applying the
   migrations it has left: the guard never stops a run that could go through.
   */
  lemma {:induction false} UndisturbedRunReturns(s: State, id: RunId, k: nat, ms: seq<Migration>)
    requires Appliable(ms) && id in s.runs && s.runs[id] == Applying(k) && k <= |ms|
    requires Recognised(s.db.Ledger(), ms) && forall i :: 0 <= i < k ==> ms[i].version in s.db.Ledger()
    ensures ReturnsPackaged(Run(s, Alone(id, |ms| - k + 2), ms), id, ms)
    decreases |ms| - k
  {
    if k == |ms| {
      LastTwoReturn(s, id, ms);
    } else {
      var s1 := Next(s, Transact(id, true), ms);
      OneMoreApplied(s, id, k, ms);
      UndisturbedRunReturns(s1, id, k + 1, ms);
      RunAlone(s, id, |ms| - k + 1, ms);
      assert |ms| - (k + 1) + 2 == |ms| - k + 1;
    }
  }
}
