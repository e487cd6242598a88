/**
 * The `__main__` block of src/structured_zone_transformer.py: process every claim row, write the
 * batch if the warning gate passes; then process every patient row, collecting the patient ids, and
 * write the batch if both the overlap gate and the warning gate pass.
 *
 * An exception escaping `process` or the overlap gate ends the script: that batch writes nothing
 * and nothing after it runs. The time each upsert reads and whether the database accepts it are
 * parameters indexed by the record's position in the batch; the warning and row totals the
 * warning gate reads are parameters too.
 */
module Ingest {
  import opened Json
  import opened ResourceProcessor
  import opened StructuredZone
  import P = PatientProcessor

  /** What `process(row, row_num)` does to each row, with the processor's origin 1. */
  function RowOutcomes(kind: Kind, rows: seq<Object>): (os: seq<Outcome>)
    ensures |os| == |rows|
  {
    seq(|rows|, j requires 0 <= j < |rows| => ProcessSpec(kind, rows[j], 1, j))
  }

  /** `outcomes` are what `process` does to each row; stated without unfolding `process` wherever an outcome is read. */
  ghost predicate OutcomesOf(kind: Kind, rows: seq<Object>, outcomes: seq<Outcome>)
  {
    && |outcomes| == |rows|
    && forall j {:trigger ProcessSpec(kind, rows[j], 1, j)} :: 0 <= j < |rows| ==> outcomes[j] == ProcessSpec(kind, rows[j], 1, j)
  }

  /** The records returned for the first `n` rows, or `None` when one of them raises. */
  function Completed(outcomes: seq<Outcome>, n: nat): (r: Option<seq<Object>>)
    requires n <= |outcomes|
    ensures r.Some? ==> |r.value| == n
  {
    if n == 0 then Some([])
    else
      match Completed(outcomes, n - 1)
      case None => None
      case Some(out) => if outcomes[n - 1].raised then None else Some(out + [outcomes[n - 1].record])
  }

  /** The records `process` returns for all the rows, or `None` when one of them raises. */
  function ProcessedRows(kind: Kind, rows: seq<Object>): Option<seq<Object>>
  {
    Completed(RowOutcomes(kind, rows), |rows|)
  }

  /** `patient_ids`: the `patient_id` of each processed record, in order. */
  function PatientIds(records: seq<Object>): (ids: seq<Json>)
    ensures |ids| == |records|
    ensures forall j :: 0 <= j < |records| ==> ids[j] == Field(records[j], "patient_id")
  {
    if records == [] then [] else PatientIds(records[..|records| - 1]) + [Field(records[|records| - 1], "patient_id")]
  }

  lemma PatientIdsSnoc(records: seq<Object>, record: Object)
    ensures PatientIds(records + [record]) == PatientIds(records) + [Field(record, "patient_id")]
  {
    assert (records + [record])[..|records|] == records;
  }

  /** The keyword arguments `upsert_patient(**processed_data)` passes, as the columns it writes. */
  function PatientValuesOf(record: Object): PatientValues
  {
    PatientValues(Field(record, "patient_id"), Field(record, "first_name"), Field(record, "last_name"))
  }

  /** The claims tables after `upsert_claim` of the first `n` records. */
  function UpsertClaimsUpTo(t: ClaimTables, records: seq<Object>, clock: nat -> int, accepts: nat -> bool, n: nat): ClaimTables
    requires n <= |records|
  {
    if n == 0 then t
    else UpsertClaimSpec(UpsertClaimsUpTo(t, records, clock, accepts, n - 1), records[n - 1], clock(n - 1), accepts(n - 1))
  }

  /** The patients tables after `upsert_patient` of the first `n` records. */
  function UpsertPatientsUpTo(t: PatientTables, records: seq<Object>, clock: nat -> int, accepts: nat -> bool, n: nat): PatientTables
    requires n <= |records|
  {
    if n == 0 then t
    else UpsertPatientSpec(UpsertPatientsUpTo(t, records, clock, accepts, n - 1), PatientValuesOf(records[n - 1]), clock(n - 1), accepts(n - 1))
  }

  /** How many of the first `n` upserts the database accepts. */
  function AcceptedCount(accepts: nat -> bool, n: nat): (c: nat)
    ensures c <= n
  {
    if n == 0 then 0 else AcceptedCount(accepts, n - 1) + (if accepts(n - 1) then 1 else 0)
  }

  /** Once a row raises, the script never gets past it: no longer prefix of the rows completes. */
  lemma {:induction false} RaisedStaysRaised(outcomes: seq<Outcome>, n: nat, m: nat)
    requires n <= m <= |outcomes| && Completed(outcomes, n).None?
    ensures Completed(outcomes, m).None?
  {
    if n < m {
      RaisedStaysRaised(outcomes, n, m - 1);
    }
  }

  /** A batch completes exactly when no row raises, and then its records are the rows' records, in order. */
  lemma {:induction false} CompletedRecords(outcomes: seq<Outcome>, n: nat)
    requires n <= |outcomes|
    ensures Completed(outcomes, n).Some? <==> forall j :: 0 <= j < n ==> !outcomes[j].raised
    ensures Completed(outcomes, n).Some? ==>
      forall j :: 0 <= j < n ==> Completed(outcomes, n).value[j] == outcomes[j].record
  {
    if n > 0 {
      CompletedRecords(outcomes, n - 1);
      if Completed(outcomes, n - 1).Some? && !outcomes[n - 1].raised {
        var out := Completed(outcomes, n - 1).value;
        forall j | 0 <= j < n
          ensures (out + [outcomes[n - 1].record])[j] == outcomes[j].record
        {
          if j < n - 1 {
            assert (out + [outcomes[n - 1].record])[j] == out[j];
          }
        }
      }
    }
  }

  /** No record the claim processor returns has a `claim_id`. */
  lemma ProcessedClaimsLackId(rows: seq<Object>)
    requires ProcessedRows(ClaimKind, rows).Some?
    ensures forall j :: 0 <= j < |rows| ==> "claim_id" !in Keys(ProcessedRows(ClaimKind, rows).value[j])
  {
    var outcomes := RowOutcomes(ClaimKind, rows);
    CompletedRecords(outcomes, |rows|);
    forall j | 0 <= j < |rows|
      ensures "claim_id" !in Keys(outcomes[j].record)
    {
      ProcessedClaim(rows[j], 1, j);
    }
  }

  /** Every record the patient processor returns has exactly the keyword arguments `upsert_patient` takes. */
  lemma ProcessedPatientsHaveKeys(rows: seq<Object>)
    requires ProcessedRows(PatientKind, rows).Some?
    ensures forall j :: 0 <= j < |rows| ==> Keys(ProcessedRows(PatientKind, rows).value[j]) == P.MappedKeys
  {
    var outcomes := RowOutcomes(PatientKind, rows);
    CompletedRecords(outcomes, |rows|);
    forall j | 0 <= j < |rows|
      ensures Keys(outcomes[j].record) == P.MappedKeys
    {
      ProcessedPatient(rows[j], 1, j);
    }
  }

  /** Upserting records without `claim_id` leaves the claims tables as they were, whatever the database does. */
  lemma {:induction false} ClaimsNeverLand(t: ClaimTables, records: seq<Object>, clock: nat -> int, accepts: nat -> bool, n: nat)
    requires n <= |records|
    requires forall j :: 0 <= j < n ==> "claim_id" !in Keys(records[j])
    ensures UpsertClaimsUpTo(t, records, clock, accepts, n) == t
  {
    if n > 0 {
      ClaimsNeverLand(t, records, clock, accepts, n - 1);
      NoClaimIdNoChange(t, records[n - 1], clock(n - 1), accepts(n - 1));
    }
  }

  /**
   * A batch of patient upserts appends one history row per accepted record and keeps the rows
   * already there; it preserves "every current row under its own id" and "no more current rows
   * than history rows".
   */
  lemma {:induction false} PatientBatchAppends(t: PatientTables, records: seq<Object>, clock: nat -> int, accepts: nat -> bool, n: nat)
    requires n <= |records|
    ensures var r := UpsertPatientsUpTo(t, records, clock, accepts, n);
      && |r.history| == |t.history| + AcceptedCount(accepts, n)
      && r.history[..|t.history|] == t.history
      && (PatientsKeyed(t) ==> PatientsKeyed(r))
      && (|t.current| <= |t.history| ==> |r.current| <= |r.history|)
  {
    if n > 0 {
      PatientBatchAppends(t, records, clock, accepts, n - 1);
      var before := UpsertPatientsUpTo(t, records, clock, accepts, n - 1);
      var v := PatientValuesOf(records[n - 1]);
      PatientUpsertAppends(before, v, clock(n - 1), accepts(n - 1));
      if PatientsKeyed(t) {
        PatientUpsertKeyed(before, v, clock(n - 1), accepts(n - 1));
      }
      if |t.current| <= |t.history| {
        PatientHistoryCoversCurrent(before, v, clock(n - 1), accepts(n - 1));
      }
      var r := UpsertPatientsUpTo(t, records, clock, accepts, n);
      assert r.history[..|before.history|] == before.history;
      assert r.history[..|t.history|] == before.history[..|t.history|];
    }
  }

  /**
   * The loop over the rows with one processor object: `process(row, row_num)` per row, appending
   * the result to `output` and, for patients, its `patient_id` to `patient_ids`. `None` when a row raises.
   */
  method ProcessRows(kind: Kind, rows: seq<Object>, ingestTs: int) returns (output: Option<seq<Object>>, ids: seq<Json>)
    ensures output == ProcessedRows(kind, rows)
    ensures output.Some? && kind.PatientKind? ==> ids == PatientIds(output.value)
  {
    var processor := new FhirProcessor(kind, ingestTs);
    ghost var outcomes := RowOutcomes(kind, rows);
    assert OutcomesOf(kind, rows, outcomes);
    output, ids := RowLoop(processor, outcomes, rows);
  }

  /** The loop itself, over a processor already built. */
  method RowLoop(processor: FhirProcessor, ghost outcomes: seq<Outcome>, rows: seq<Object>)
    returns (output: Option<seq<Object>>, ids: seq<Json>)
    requires processor.Valid() && processor.origin == 1 && OutcomesOf(processor.kind, rows, outcomes)
    modifies processor
    ensures output == Completed(outcomes, |rows|)
    ensures output.Some? && processor.kind.PatientKind? ==> ids == PatientIds(output.value)
  {
    var records: seq<Object> := [];
    ids := [];
    var i := 0;
    while i < |rows|
      invariant 0 <= i <= |rows|
      invariant processor.Valid()
      invariant Completed(outcomes, i) == Some(records)
      invariant processor.kind.PatientKind? ==> ids == PatientIds(records)
    {
      var processed := ProcessRow(processor, outcomes, rows, i);
      if processed.None? {
        RaisedStaysRaised(outcomes, i + 1, |rows|);
        return None, ids;
      }
      records, ids := AppendRow(records, ids, processed.value, processor.kind);
      i := i + 1;
    }
    output := Some(records);
  }

  /** `processor.process(row, row_num)` for row `i`: the record, or `None` when it raises. */
  method ProcessRow(processor: FhirProcessor, ghost outcomes: seq<Outcome>, rows: seq<Object>, i: nat)
    returns (processed: Option<Object>)
    requires processor.Valid() && processor.origin == 1
    requires OutcomesOf(processor.kind, rows, outcomes) && i < |rows|
    modifies processor
    ensures processor.Valid()
    ensures processed == (if outcomes[i].raised then None else Some(outcomes[i].record))
  {
    processed := processor.Process(rows[i], i);
  }

  /** `output.append(processed_data)`, and for patients `patient_ids.append(processed_data['patient_id'])`. */
  method AppendRow(records: seq<Object>, ids: seq<Json>, record: Object, kind: Kind)
    returns (records': seq<Object>, ids': seq<Json>)
    requires kind.PatientKind? ==> ids == PatientIds(records)
    ensures records' == records + [record]
    ensures kind.PatientKind? ==> ids' == PatientIds(records')
  {
    records' := records + [record];
    ids' := ids;
    if kind.PatientKind? {
      PatientIdsSnoc(records, record);
      ids' := ids + [Field(record, "patient_id")];
    }
  }

  /**
   * The claims half of `__main__`. `completed` is false when `process` raised, which ends the
   * script. The claims tables are what the upserts leave when the warning gate passes, and
   * untouched otherwise; since no processed claim has a `claim_id`, that is untouched in every case.
   */
  method IngestClaims(store: Store, rows: seq<Object>, ingestTs: int, totalWarnings: nat, totalRows: nat,
                      clock: nat -> int, accepts: nat -> bool)
    returns (completed: bool)
    modifies store`claims
    ensures var out := ProcessedRows(ClaimKind, rows);
      && completed == out.Some?
      && store.claims == (if out.Some? && WarningsBelowThreshold(totalWarnings, totalRows, 5)
                          then UpsertClaimsUpTo(old(store.claims), out.value, clock, accepts, |out.value|)
                          else old(store.claims))
    ensures store.claims == old(store.claims)
  {
    var output, _ := ProcessRows(ClaimKind, rows, ingestTs);
    if output.None? {
      return false;
    }
    completed := true;
    var records := output.value;
    ProcessedClaimsLackId(rows);
    ClaimsNeverLand(store.claims, records, clock, accepts, |records|);
    if WarningsBelowThreshold(totalWarnings, totalRows, 5) {
      var i := 0;
      while i < |records|
        invariant 0 <= i <= |records|
        invariant store.claims == UpsertClaimsUpTo(old(store.claims), records, clock, accepts, i)
      {
        store.UpsertClaim(records[i], clock(i), accepts(i));
        i := i + 1;
      }
    }
  }

  /**
   * The patients half of `__main__`. `completed` is false when `process` or the overlap gate raised.
   * The patients tables are what the upserts leave when both gates pass, and untouched otherwise.
   */
  method IngestPatients(store: Store, rows: seq<Object>, ingestTs: int, totalWarnings: nat, totalRows: nat,
                        clock: nat -> int, accepts: nat -> bool)
    returns (completed: bool)
    modifies store`patients
    ensures var out := ProcessedRows(PatientKind, rows);
      var history := old(store.patients.history);
      var overlap := if out.Some? then OverlapGate(|history|, MatchingRows(history, PatientIds(out.value)), |rows|, 20) else None;
      && completed == overlap.Some?
      && store.patients == (if overlap == Some(true) && WarningsBelowThreshold(totalWarnings, totalRows, 5)
                            then UpsertPatientsUpTo(old(store.patients), out.value, clock, accepts, |rows|)
                            else old(store.patients))
  {
    var output, ids := ProcessRows(PatientKind, rows, ingestTs);
    if output.None? {
      return false;
    }
    var records := output.value;
    var overlap := store.PercentOfPatientsAboveThreshold(ids, 20);
    if overlap.None? {
      return false;
    }
    completed := true;
    if overlap.value && WarningsBelowThreshold(totalWarnings, totalRows, 5) {
      ProcessedPatientsHaveKeys(rows);
      var i := 0;
      while i < |records|
        invariant 0 <= i <= |records|
        invariant store.patients == UpsertPatientsUpTo(old(store.patients), records, clock, accepts, i)
      {
        var record := records[i];
        store.UpsertPatient(Field(record, "patient_id"), Field(record, "first_name"), Field(record, "last_name"),
                            Field(record, "origin"), clock(i), accepts(i));
        i := i + 1;
      }
    }
  }

  /**
   * Whether the corrected script runs to its end: every claim row processes, every patient row
   * processes, and the overlap gate does not raise on `history`.
   */
  function RunCompletes(claimRows: seq<Object>, patientRows: seq<Object>, history: seq<PatientHistoryRow>): bool
  {
    && ProcessedRows(ClaimKind, claimRows).Some?
    && var out := ProcessedRows(PatientKind, patientRows);
       out.Some? && OverlapGate(|history|, MatchingRows(history, PatientIds(out.value)), |patientRows|, 20).Some?
  }

  /** The whole script: claims first, then patients, unless the claims half raised. */
  method Run(store: Store, claimRows: seq<Object>, patientRows: seq<Object>, ingestTs: int,
             claimWarnings: nat, claimTotal: nat, patientWarnings: nat, patientTotal: nat,
             claimClock: nat -> int, claimAccepts: nat -> bool, patientClock: nat -> int, patientAccepts: nat -> bool)
    returns (completed: bool)
    modifies store
    ensures store.claims == old(store.claims)
    ensures completed == RunCompletes(claimRows, patientRows, old(store.patients.history))
    ensures ProcessedRows(ClaimKind, claimRows).None? ==> store.patients == old(store.patients) && !completed
    ensures ProcessedRows(ClaimKind, claimRows).Some? ==>
      var out := ProcessedRows(PatientKind, patientRows);
      var history := old(store.patients.history);
      var overlap := if out.Some? then OverlapGate(|history|, MatchingRows(history, PatientIds(out.value)), |patientRows|, 20) else None;
      && completed == overlap.Some?
      && store.patients == (if overlap == Some(true) && WarningsBelowThreshold(patientWarnings, patientTotal, 5)
                            then UpsertPatientsUpTo(old(store.patients), out.value, patientClock, patientAccepts, |patientRows|)
                            else old(store.patients))
  {
    completed := IngestClaims(store, claimRows, ingestTs, claimWarnings, claimTotal, claimClock, claimAccepts);
    if completed {
      completed := IngestPatients(store, patientRows, ingestTs, patientWarnings, patientTotal, patientClock, patientAccepts);
    }
  }

  /**
   * `__main__` as written. No processor class defines `total_warnings_below_threshold`, so once
   * the claim rows are processed the call at line 242 raises `AttributeError`: no claim is
   * upserted, the patient file is never read, and both tables stay as they were.
   */
  method RunAsWritten(store: Store, claimRows: seq<Object>, ingestTs: int) returns (completed: bool)
    ensures store.claims == old(store.claims) && store.patients == old(store.patients)
    ensures !completed
  {
    var output, _ := ProcessRows(ClaimKind, claimRows, ingestTs);
    // Either a row raised in `process`, or the call to the missing method raises.
    completed := false;
  }

  /**
   * The corrected script completes on a first load (an empty patient history) whenever every row
   * of both files processes, while the script as written never completes.
   */
  lemma UndefinedGateDiscrepancy(claimRows: seq<Object>, patientRows: seq<Object>)
    requires ProcessedRows(ClaimKind, claimRows).Some? && ProcessedRows(PatientKind, patientRows).Some?
    ensures RunCompletes(claimRows, patientRows, [])
  {
  }
}
