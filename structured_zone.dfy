/**
 * The structured zone of src/structured_zone_transformer.py: the claims and patients tables, each a
 * current table keyed by the record's id plus an append-only history table, the two upserts that
 * write them inside one transaction, and the two batch gates.
 *
 * The tables are kept in memory. The time an upsert reads from `datetime.now()` is a parameter
 * `now`, and whether the database accepts the statements is a parameter `accepted`: a transaction
 * that fails is rolled back, so either both tables change or neither does.
 */
module StructuredZone {
  import opened Json

  /** The columns `upsert_claim` reads from a processed claim. */
  datatype ClaimValues = ClaimValues(
    claimId: Json, patientId: Json, billingStart: Json, billingEnd: Json, provider: Json,
    admittingDiagnosis: Json, insurance: Json, status: Json, amount: Json)

  /** A row of `claims`, keyed by its `claim_id`. */
  datatype ClaimRow = ClaimRow(values: ClaimValues, insertTs: int)

  /** A row of `claims_history`. */
  datatype ClaimHistoryRow = ClaimHistoryRow(values: ClaimValues, insertTs: int, changeTs: int)

  datatype ClaimTables = ClaimTables(current: map<Json, ClaimRow>, history: seq<ClaimHistoryRow>)

  /** The columns `upsert_patient` writes. */
  datatype PatientValues = PatientValues(patientId: Json, firstName: Json, lastName: Json)

  /** A row of `patients`, keyed by its `patient_id`. */
  datatype PatientRow = PatientRow(values: PatientValues, insertTs: int)

  /** A row of `patients_history`. */
  datatype PatientHistoryRow = PatientHistoryRow(values: PatientValues, insertTs: int, changeTs: int)

  datatype PatientTables = PatientTables(current: map<Json, PatientRow>, history: seq<PatientHistoryRow>)

  /**
   * The reads at the top of `upsert_claim`: every column is `claim_details[key]`, which raises
   * when the key is absent, except `admitting_diagnosis`, read with `.get`.
   */
  function ReadClaim(details: Object): Option<ClaimValues>
  {
    if "claim_id" in Keys(details) && "patient_id" in Keys(details) && "billing_start" in Keys(details)
       && "billing_end" in Keys(details) && "provider" in Keys(details) && "insurance" in Keys(details)
       && "status" in Keys(details) && "amount" in Keys(details)
    then
      Some(ClaimValues(
        Field(details, "claim_id"), Field(details, "patient_id"), Field(details, "billing_start"),
        Field(details, "billing_end"), Field(details, "provider"), Field(details, "admitting_diagnosis"),
        Field(details, "insurance"), Field(details, "status"), Field(details, "amount")))
    else None
  }

  /**
   * The `UPDATE claims` of an existing claim: the new provider, diagnosis, insurance, status and
   * amount with `insert_ts = now`; the patient and billing period stay those of the stored row.
   */
  function UpdatedClaim(stored: ClaimRow, v: ClaimValues, now: int): ClaimRow
  {
    ClaimRow(stored.values.(provider := v.provider, admittingDiagnosis := v.admittingDiagnosis,
                            insurance := v.insurance, status := v.status, amount := v.amount), now)
  }

  /**
   * `upsert_claim` as one transaction: nothing changes when a column is missing or the database
   * refuses the statements; otherwise the current row is updated or inserted and one history row
   * with the new values is appended, carrying the stored row's `insert_ts` (or `now`) and `change_ts = now`.
   */
  function UpsertClaimSpec(t: ClaimTables, details: Object, now: int, accepted: bool): ClaimTables
  {
    match ReadClaim(details)
    case None => t
    case Some(v) =>
      if !accepted then t
      else if v.claimId in t.current then
        var stored := t.current[v.claimId];
        ClaimTables(t.current[v.claimId := UpdatedClaim(stored, v, now)],
                    t.history + [ClaimHistoryRow(v, stored.insertTs, now)])
      else
        ClaimTables(t.current[v.claimId := ClaimRow(v, now)], t.history + [ClaimHistoryRow(v, now, now)])
  }

  /**
   * `upsert_patient` as one transaction: the current row gets the new names and `insert_ts = now`,
   * or is inserted; one history row with the new values, the stored `insert_ts` (or `now`) and
   * `change_ts = now` is appended. `origin` is accepted and ignored.
   */
  function UpsertPatientSpec(t: PatientTables, v: PatientValues, now: int, accepted: bool): PatientTables
  {
    if !accepted then t
    else if v.patientId in t.current then
      var stored := t.current[v.patientId];
      PatientTables(t.current[v.patientId := PatientRow(v, now)],
                    t.history + [PatientHistoryRow(v, stored.insertTs, now)])
    else
      PatientTables(t.current[v.patientId := PatientRow(v, now)], t.history + [PatientHistoryRow(v, now, now)])
  }

  /** Every stored row is filed under its own id. */
  ghost predicate ClaimsKeyed(t: ClaimTables)
  {
    forall k :: k in t.current ==> t.current[k].values.claimId == k
  }

  ghost predicate PatientsKeyed(t: PatientTables)
  {
    forall k :: k in t.current ==> t.current[k].values.patientId == k
  }

  /**
   * The claims history is append-only: a successful upsert adds exactly one row at the end and at
   * most one current row, and a failed one changes nothing.
   */
  lemma ClaimUpsertAppends(t: ClaimTables, details: Object, now: int, accepted: bool)
    ensures var r := UpsertClaimSpec(t, details, now, accepted);
      var ok := ReadClaim(details).Some? && accepted;
      && |r.history| == |t.history| + (if ok then 1 else 0)
      && r.history[..|t.history|] == t.history
      && |r.current| <= |t.current| + 1
      && (!ok ==> r == t)
  {
    var r := UpsertClaimSpec(t, details, now, accepted);
    assert r.history[..|t.history|] == t.history;
  }

  /** Hence "at least as many history rows as current rows" is an invariant of the claims tables. */
  lemma ClaimHistoryCoversCurrent(t: ClaimTables, details: Object, now: int, accepted: bool)
    requires |t.current| <= |t.history|
    ensures var r := UpsertClaimSpec(t, details, now, accepted);
      |r.current| <= |r.history|
  {
    ClaimUpsertAppends(t, details, now, accepted);
  }

  /** Upserts keep every current row filed under its own `claim_id`. */
  lemma ClaimUpsertKeyed(t: ClaimTables, details: Object, now: int, accepted: bool)
    requires ClaimsKeyed(t)
    ensures ClaimsKeyed(UpsertClaimSpec(t, details, now, accepted))
  {
  }

  /**
   * Updating an existing claim: the current row keeps its patient and billing period, takes the
   * new provider, diagnosis, insurance, status and amount, and is stamped `now`; the history row
   * has the new values, the previous `insert_ts` and `change_ts = now`.
   */
  lemma ClaimUpdateRule(t: ClaimTables, details: Object, now: int)
    requires ReadClaim(details).Some? && ReadClaim(details).value.claimId in t.current
    ensures var v := ReadClaim(details).value;
      var stored := t.current[v.claimId];
      var r := UpsertClaimSpec(t, details, now, true);
      var row := r.current[v.claimId];
      && row.values.patientId == stored.values.patientId
      && row.values.billingStart == stored.values.billingStart
      && row.values.billingEnd == stored.values.billingEnd
      && row.values.provider == Field(details, "provider")
      && row.values.admittingDiagnosis == Field(details, "admitting_diagnosis")
      && row.values.insurance == Field(details, "insurance")
      && row.values.status == Field(details, "status")
      && row.values.amount == Field(details, "amount")
      && row.insertTs == now
      && r.history[|r.history| - 1] == ClaimHistoryRow(v, stored.insertTs, now)
      && (forall k :: k in t.current && k != v.claimId ==> k in r.current && r.current[k] == t.current[k])
      && r.current.Keys == t.current.Keys
  {
  }

  /** Inserting a new claim: the current row and the history row both carry the record's values and `now`. */
  lemma ClaimInsertRule(t: ClaimTables, details: Object, now: int)
    requires ReadClaim(details).Some? && ReadClaim(details).value.claimId !in t.current
    ensures var v := ReadClaim(details).value;
      var r := UpsertClaimSpec(t, details, now, true);
      && r.current == t.current[v.claimId := ClaimRow(v, now)]
      && r.history == t.history + [ClaimHistoryRow(v, now, now)]
      && r.current.Keys == t.current.Keys + {v.claimId}
  {
  }

  /**
   * Upserting the same claim twice into tables that do not hold it leaves one current row and two
   * history rows; the second history row's `insert_ts` is the first call's `now`.
   */
  lemma ClaimUpsertTwice(t: ClaimTables, details: Object, now1: int, now2: int)
    requires ReadClaim(details).Some? && ReadClaim(details).value.claimId !in t.current
    ensures var v := ReadClaim(details).value;
      var r := UpsertClaimSpec(UpsertClaimSpec(t, details, now1, true), details, now2, true);
      && r.current.Keys == t.current.Keys + {v.claimId}
      && r.current[v.claimId].insertTs == now2
      && r.history == t.history + [ClaimHistoryRow(v, now1, now1), ClaimHistoryRow(v, now1, now2)]
  {
    var v := ReadClaim(details).value;
    var r1 := UpsertClaimSpec(t, details, now1, true);
    assert r1.current[v.claimId] == ClaimRow(v, now1);
    assert UpdatedClaim(ClaimRow(v, now1), v, now2) == ClaimRow(v, now2);
  }

  /** A record without `claim_id`, as every record of the claim processor is, leaves the tables as they were. */
  lemma NoClaimIdNoChange(t: ClaimTables, details: Object, now: int, accepted: bool)
    requires "claim_id" !in Keys(details)
    ensures UpsertClaimSpec(t, details, now, accepted) == t
  {
  }

  /** The patients history is append-only in the same way as the claims history. */
  lemma PatientUpsertAppends(t: PatientTables, v: PatientValues, now: int, accepted: bool)
    ensures var r := UpsertPatientSpec(t, v, now, accepted);
      && |r.history| == |t.history| + (if accepted then 1 else 0)
      && r.history[..|t.history|] == t.history
      && |r.current| <= |t.current| + 1
      && (!accepted ==> r == t)
  {
    var r := UpsertPatientSpec(t, v, now, accepted);
    assert r.history[..|t.history|] == t.history;
  }

  lemma PatientHistoryCoversCurrent(t: PatientTables, v: PatientValues, now: int, accepted: bool)
    requires |t.current| <= |t.history|
    ensures var r := UpsertPatientSpec(t, v, now, accepted);
      |r.current| <= |r.history|
  {
    PatientUpsertAppends(t, v, now, accepted);
  }

  lemma PatientUpsertKeyed(t: PatientTables, v: PatientValues, now: int, accepted: bool)
    requires PatientsKeyed(t)
    ensures PatientsKeyed(UpsertPatientSpec(t, v, now, accepted))
  {
  }

  /**
   * Updating an existing patient changes only the names and `insert_ts` of its current row; the
   * history row has the new names, the previous `insert_ts` and `change_ts = now`.
   */
  lemma PatientUpdateRule(t: PatientTables, v: PatientValues, now: int)
    requires PatientsKeyed(t) && v.patientId in t.current
    ensures var stored := t.current[v.patientId];
      var r := UpsertPatientSpec(t, v, now, true);
      var row := r.current[v.patientId];
      && row.values.patientId == stored.values.patientId
      && row.values.firstName == v.firstName && row.values.lastName == v.lastName
      && row.insertTs == now
      && r.history[|r.history| - 1] == PatientHistoryRow(v, stored.insertTs, now)
      && (forall k :: k in t.current && k != v.patientId ==> k in r.current && r.current[k] == t.current[k])
      && r.current.Keys == t.current.Keys
  {
  }

  /** Upserting the same patient twice: one current row, two history rows, the second stamped with the first `now`. */
  lemma PatientUpsertTwice(t: PatientTables, v: PatientValues, now1: int, now2: int)
    requires v.patientId !in t.current
    ensures var r := UpsertPatientSpec(UpsertPatientSpec(t, v, now1, true), v, now2, true);
      && r.current.Keys == t.current.Keys + {v.patientId}
      && r.current[v.patientId] == PatientRow(v, now2)
      && r.history == t.history + [PatientHistoryRow(v, now1, now1), PatientHistoryRow(v, now1, now2)]
  {
  }

  /** The number of history rows whose `patient_id` is in `ids`: rows are counted, not distinct ids. */
  function MatchingRows(history: seq<PatientHistoryRow>, ids: seq<Json>): (n: nat)
    ensures n <= |history|
  {
    if history == [] then 0
    else (if history[0].values.patientId in ids then 1 else 0) + MatchingRows(history[1..], ids)
  }

  /** A patient with several history rows counts once per row. */
  lemma {:induction false} MatchingRowsAppend(a: seq<PatientHistoryRow>, b: seq<PatientHistoryRow>, ids: seq<Json>)
    ensures MatchingRows(a + b, ids) == MatchingRows(a, ids) + MatchingRows(b, ids)
  {
    if a != [] {
      assert (a + b)[1..] == a[1..] + b;
      MatchingRowsAppend(a[1..], b, ids);
    } else {
      assert a + b == b;
    }
  }

  /**
   * `percent_of_patients_above_threshold` as written: `True` on an empty history, otherwise
   * `(matching / len(ids)) * 100 > threshold / 100`, compared exactly; `None` where it raises,
   * which is an empty id list against a non-empty history.
   */
  function OverlapAsWritten(historyCount: nat, matching: nat, numIds: nat, threshold: int): (r: Option<bool>)
    ensures r.None? <==> historyCount > 0 && numIds == 0
  {
    if historyCount == 0 then Some(true)
    else if numIds == 0 then None
    else Some(matching * 100 * 100 > threshold * numIds)
  }

  /**
   * The gate with the comparison its documentation and its caller describe: the percentage of
   * ids found in the history is above `threshold`, a percentage from 0 to 100.
   */
  function OverlapGate(historyCount: nat, matching: nat, numIds: nat, threshold: int): (r: Option<bool>)
    ensures r.None? <==> historyCount > 0 && numIds == 0
  {
    if historyCount == 0 then Some(true)
    else if numIds == 0 then None
    else Some(matching * 100 > threshold * numIds)
  }

  /** The integer comparison of the as-written gate is the division the source performs. */
  lemma OverlapAsWrittenMeans(historyCount: nat, matching: nat, numIds: nat, threshold: int)
    requires historyCount > 0 && numIds > 0
    ensures OverlapAsWritten(historyCount, matching, numIds, threshold)
      == Some((matching as real / numIds as real) * 100.0 > threshold as real / 100.0)
  {
    RatioAbove(matching, numIds, threshold, 100);
  }

  /** The corrected gate passes exactly when the percentage of matches is above the threshold. */
  lemma OverlapGateMeans(historyCount: nat, matching: nat, numIds: nat, threshold: int)
    requires historyCount > 0 && numIds > 0
    ensures OverlapGate(historyCount, matching, numIds, threshold)
      == Some((matching as real / numIds as real) * 100.0 > threshold as real)
  {
    RatioAbove(matching, numIds, threshold, 1);
  }

  /** `(m / n) * 100 > t / scale` holds exactly when `m * 100 * scale > t * n`. */
  lemma RatioAbove(m: nat, n: nat, t: int, scale: nat)
    requires n > 0 && scale > 0
    ensures (m as real / n as real) * 100.0 > t as real / scale as real <==> m * 100 * scale > t * n
  {
    var q := m as real / n as real;
    assert q * n as real == m as real;
    var lhs := q * 100.0;
    var rhs := t as real / scale as real;
    assert rhs * scale as real == t as real;
    assert lhs > rhs <==> lhs * (n as real) * (scale as real) > rhs * (n as real) * (scale as real);
    assert lhs * (n as real) * (scale as real) == (m * 100 * scale) as real;
    assert rhs * (n as real) * (scale as real) == (t * n) as real;
  }

  /**
   * The gate as written divides the threshold by 100 once too often: with `threshold=20` a batch in
   * which 1 id of 100 was seen before (1%) passes, though the check is meant to ask for 20%.
   */
  lemma OverlapThresholdScaled()
    ensures OverlapAsWritten(1, 1, 100, 20) == Some(true)
    ensures OverlapGate(1, 1, 100, 20) == Some(false)
  {
  }

  /** The three cases of the gate's tests: 2 of 3 at 33, 0 of 3 at 100, and an empty history at 20. */
  lemma OverlapTests()
    ensures OverlapAsWritten(2, 2, 3, 33) == Some(true) && OverlapGate(2, 2, 3, 33) == Some(true)
    ensures OverlapAsWritten(2, 0, 3, 100) == Some(false) && OverlapGate(2, 0, 3, 100) == Some(false)
    ensures OverlapAsWritten(0, 0, 3, 20) == Some(true) && OverlapGate(0, 0, 3, 20) == Some(true)
  {
  }

  /** More matches never turn a passing gate into a failing one, and a lower threshold never does either. */
  lemma OverlapGateMonotone(historyCount: nat, matching: nat, numIds: nat, threshold: int, m2: nat, t2: int)
    requires OverlapGate(historyCount, matching, numIds, threshold) == Some(true)
    requires matching <= m2 && t2 <= threshold
    ensures OverlapGate(historyCount, m2, numIds, t2) == Some(true)
  {
    if historyCount > 0 {
      assert threshold * numIds >= t2 * numIds by {
        assert (threshold - t2) * numIds >= 0;
      }
    }
  }

  /**
   * The corrected gate is the stricter one: both raise on the same inputs, and every batch it
   * passes also passes the comparison as written.
   */
  lemma OverlapGateStricter(historyCount: nat, matching: nat, numIds: nat, threshold: int)
    ensures OverlapGate(historyCount, matching, numIds, threshold).None?
      <==> OverlapAsWritten(historyCount, matching, numIds, threshold).None?
    ensures OverlapGate(historyCount, matching, numIds, threshold) == Some(true)
      ==> OverlapAsWritten(historyCount, matching, numIds, threshold) == Some(true)
  {
    if historyCount > 0 && numIds > 0 && matching * 100 > threshold * numIds {
      if threshold >= 0 {
        assert threshold * numIds * 100 >= threshold * numIds by {
          assert threshold * numIds >= 0;
        }
        assert matching * 100 * 100 > threshold * numIds * 100;
      } else {
        assert threshold * numIds < 0;
      }
    }
  }

  /**
   * `total_warnings_below_threshold(threshold)`: the warnings are fewer than `threshold` percent of
   * the rows processed; a batch of no rows passes, since nothing in it can be flagged.
   */
  function WarningsBelowThreshold(totalWarnings: nat, totalRows: nat, threshold: int): bool
  {
    totalRows == 0 || totalWarnings * 100 < threshold * totalRows
  }

  /**
   * An empty batch passes whatever its warnings; a non-empty one passes iff the percentage of
   * warnings is below the threshold.
   */
  lemma WarningsBelowThresholdMeans(totalWarnings: nat, totalRows: nat, threshold: int)
    ensures totalRows == 0 ==> WarningsBelowThreshold(totalWarnings, totalRows, threshold)
    ensures totalRows > 0 ==>
      (WarningsBelowThreshold(totalWarnings, totalRows, threshold)
       <==> (totalWarnings as real / totalRows as real) * 100.0 < threshold as real)
  {
    if totalRows > 0 {
      var q := totalWarnings as real / totalRows as real;
      assert q * totalRows as real == totalWarnings as real;
      assert q * 100.0 < threshold as real <==> q * 100.0 * totalRows as real < threshold as real * totalRows as real;
    }
  }

  /** The four cases of the method's tests. */
  lemma WarningsThresholdTests()
    ensures WarningsBelowThreshold(30, 100, 50)
    ensures !WarningsBelowThreshold(60, 100, 50)
    ensures WarningsBelowThreshold(0, 100, 10)
    ensures !WarningsBelowThreshold(100, 100, 90)
    ensures WarningsBelowThreshold(100, 0, 5)
  {
  }

  /** The database: the claims and the patients tables. */
  class Store {
    var claims: ClaimTables
    var patients: PatientTables

    constructor(claims: ClaimTables, patients: PatientTables)
      ensures this.claims == claims && this.patients == patients
    {
      this.claims := claims;
      this.patients := patients;
    }

    /**
     * `upsert_claim(claim_details)`: read the columns, look the claim up, update or insert it, append
     * the history row, and commit; a missing column or a refused statement rolls back.
     */
    method UpsertClaim(details: Object, now: int, accepted: bool)
      modifies this`claims
      ensures claims == UpsertClaimSpec(old(claims), details, now, accepted)
    {
      var read := ReadClaim(details);
      if read.None? {
        return;
      }
      var v := read.value;
      var current := claims.current;
      var history := claims.history;
      var insertTs := now;
      if v.claimId in current {
        var stored := current[v.claimId];
        insertTs := stored.insertTs;
        current := current[v.claimId := UpdatedClaim(stored, v, now)];
      } else {
        current := current[v.claimId := ClaimRow(v, now)];
      }
      history := history + [ClaimHistoryRow(v, insertTs, now)];
      if accepted {
        claims := ClaimTables(current, history);
      }
    }

    /**
     * `upsert_patient(patient_id, first_name, last_name, origin)`: look the patient up, update or
     * insert it, append the history row, and commit; a refused statement rolls back.
     */
    method UpsertPatient(patientId: Json, firstName: Json, lastName: Json, origin: Json, now: int, accepted: bool)
      modifies this`patients
      ensures patients == UpsertPatientSpec(old(patients), PatientValues(patientId, firstName, lastName), now, accepted)
    {
      var v := PatientValues(patientId, firstName, lastName);
      var current := patients.current;
      var history := patients.history;
      var insertTs := now;
      if patientId in current {
        insertTs := current[patientId].insertTs;
      }
      current := current[patientId := PatientRow(v, now)];
      history := history + [PatientHistoryRow(v, insertTs, now)];
      if accepted {
        patients := PatientTables(current, history);
      }
    }

    /**
     * `percent_of_patients_above_threshold(patient_ids, threshold)`: count the history, then the
     * history rows whose `patient_id` is among `ids`.
     */
    method PercentOfPatientsAboveThreshold(ids: seq<Json>, threshold: int) returns (r: Option<bool>)
      ensures r == OverlapGate(|patients.history|, MatchingRows(patients.history, ids), |ids|, threshold)
    {
      var history := patients.history;
      if |history| == 0 {
        return Some(true);
      }
      var matching := 0;
      var i := 0;
      while i < |history|
        invariant 0 <= i <= |history|
        invariant matching + MatchingRows(history[i..], ids) == MatchingRows(history, ids)
      {
        assert history[i..][1..] == history[i + 1..];
        if history[i].values.patientId in ids {
          matching := matching + 1;
        }
        i := i + 1;
      }
      assert history[i..] == [];
      if |ids| == 0 {
        return None;
      }
      return Some(matching * 100 > threshold * |ids|);
    }
  }
}
