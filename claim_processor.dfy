/**
 * `FHIRClaimProcessor` (src/field_mappers/claim_processor.py): its field lists, its extra
 * resource-type check, the mapping table with the admitting-diagnosis rule, and `normalize`.
 * The steps are specified here as functions; resource_processor.dfy runs them in place.
 */
module ClaimProcessor {
  import opened Json
  import opened Text
  import opened JsonPath
  import opened EnumNormalizer
  import opened FieldMappersBase

  const RequiredFields: seq<string> :=
    ["billablePeriod", "contained", "created", "id", "patient", "provider", "resourceType", "status", "total", "insurance"]
  const DateFields: seq<string> := ["billablePeriod.start", "billablePeriod.end"]
  const DatetimeFields: seq<string> := ["created"]

  const AdmittingDest: string := "admitting_diagnosis"
  const AdmittingSource: string := "diagnosis[0].diagnosisCodeableConcept.coding[0].code"
  const AdmittingTypePath: string := "diagnosis" + "[" + "0].diagnosisCodeableConcept.type[0].coding[0].code"

  /** The `mapping` dict of `map_values`, in its literal order. */
  const Mapping: seq<MappingEntry> := [
    MappingEntry("patient_id", "patient.reference"),
    MappingEntry("billing_start", "billablePeriod.start"),
    MappingEntry("billing_end", "billablePeriod.end"),
    MappingEntry("provider", "provider.reference"),
    MappingEntry(AdmittingDest, AdmittingSource),
    MappingEntry("insurance", "insurance[0].coverage.identifier.value"),
    MappingEntry("status", "status"),
    MappingEntry("amount", "total.value")
  ]

  /** The keys of a mapped claim record, in order. */
  const MappedKeys: seq<string> :=
    ["origin", "patient_id", "billing_start", "billing_end", "provider", AdmittingDest, "insurance", "status", "amount"]

  /**
   * The check `FHIRClaimProcessor.validate` adds: `self.data["resourceType"]` raises when the key is
   * absent, `.lower()` raises on a non-string, and anything but `claim` in any case logs a warning.
   */
  function ResourceTypeVerdict(data: Object): Verdict
  {
    match Lookup(data, "resourceType")
    case None => Throw
    case Some(JStr(s)) => if Lower(s) == "claim" then Pass else Flag
    case Some(_) => Throw
  }

  /**
   * Whether the first diagnosis is of the admitting type: `None` when its type resolves to a value
   * that is neither null nor a string, on which `.lower()` raises.
   */
  function AdmittingTypeCheck(data: Object): Option<bool>
  {
    var t := GetValueAtJsonPath(JObject(data), AdmittingTypePath);
    if t.JNull? then Some(false)
    else if t.JStr? then Some(Lower(t.s) == "admitting")
    else None
  }

  /** The value `map_values` stores for one mapping entry, given the outcome of the admitting check. */
  function Kept(resolve: string -> Json, admitting: Option<bool>, e: MappingEntry): Json
  {
    if e.dest == AdmittingDest && admitting != Some(true) then JNull
    else resolve(e.source)
  }

  /** The record built, the warnings logged, and whether the loop raised. */
  datatype MapResult = MapResult(members: Object, warnings: seq<WarningEvent>, raised: bool)

  /**
   * The loop of `map_values` from `instance_dict == acc` over `entries`: each entry's value is
   * resolved, a null one logs a warning, and the admitting entry may then raise. `admitting` is
   * `AdmittingTypeCheck(data)`, which the loop evaluates on reaching that entry; `data` does not
   * change meanwhile, so it is passed in once.
   */
  function MapEntries(acc: Object, resolve: string -> Json, admitting: Option<bool>, entries: seq<MappingEntry>, row: nat): MapResult
    decreases |entries|
  {
    if entries == [] then MapResult(acc, [], false)
    else
      var e := entries[0];
      var logged :=
        if resolve(e.source) == JNull then [MissingValue(e.dest, e.source, row)] else [];
      if e.dest == AdmittingDest && admitting.None? then MapResult(acc, logged, true)
      else
        var rest := MapEntries(Assign(acc, e.dest, Kept(resolve, admitting, e)), resolve, admitting, entries[1..], row);
        MapResult(rest.members, logged + rest.warnings, rest.raised)
  }


  /** A reference list of the missing-value warnings: one per entry whose path resolves to null. */
  function MissingValueWarnings(resolve: string -> Json, entries: seq<MappingEntry>, row: nat): seq<WarningEvent>
  {
    if entries == [] then []
    else
      var e := entries[0];
      (if resolve(e.source) == JNull then [MissingValue(e.dest, e.source, row)] else [])
      + MissingValueWarnings(resolve, entries[1..], row)
  }

  /** The entries up to and including the first admitting-diagnosis entry. */
  function UpToAdmitting(entries: seq<MappingEntry>): seq<MappingEntry>
  {
    if entries == [] then []
    else if entries[0].dest == AdmittingDest then [entries[0]]
    else [entries[0]] + UpToAdmitting(entries[1..])
  }

  /** The loop raises exactly when it reaches the admitting entry and the diagnosis type is not a string or null. */
  lemma {:induction false} MapEntriesRaises(acc: Object, resolve: string -> Json, admitting: Option<bool>, entries: seq<MappingEntry>, row: nat)
    ensures MapEntries(acc, resolve, admitting, entries, row).raised <==>
      AdmittingDest in Dests(entries) && admitting.None?
    decreases |entries|
  {
    if entries != [] {
      var e := entries[0];
      if !(e.dest == AdmittingDest && admitting.None?) {
        MapEntriesRaises(Assign(acc, e.dest, Kept(resolve, admitting, e)), resolve, admitting, entries[1..], row);
      }
    }
  }

  /** The warnings are those of the reference list, cut after the admitting entry when the loop raised there. */
  lemma {:induction false} MapEntriesWarnings(acc: Object, resolve: string -> Json, admitting: Option<bool>, entries: seq<MappingEntry>, row: nat)
    ensures var r := MapEntries(acc, resolve, admitting, entries, row);
      r.warnings == MissingValueWarnings(resolve, if r.raised then UpToAdmitting(entries) else entries, row)
    decreases |entries|
  {
    if entries != [] {
      var e := entries[0];
      if e.dest == AdmittingDest && admitting.None? {
        assert UpToAdmitting(entries) == [e];
        assert MissingValueWarnings(resolve, [e], row) == MapEntries(acc, resolve, admitting, entries, row).warnings by {
          assert [e][1..] == [];
        }
      } else {
        MapEntriesWarnings(Assign(acc, e.dest, Kept(resolve, admitting, e)), resolve, admitting, entries[1..], row);
        if e.dest == AdmittingDest {
          MapEntriesRaises(Assign(acc, e.dest, Kept(resolve, admitting, e)), resolve, admitting, entries[1..], row);
          assert UpToAdmitting(entries) == [e];
          assert [e][1..] == [];
        }
      }
    }
  }

  /** Keys the loop does not write keep their values. */
  lemma {:induction false} MapEntriesPreserves(acc: Object, resolve: string -> Json, admitting: Option<bool>, entries: seq<MappingEntry>, row: nat, k: string)
    requires forall i :: 0 <= i < |entries| ==> entries[i].dest != k
    ensures var r := MapEntries(acc, resolve, admitting, entries, row); !r.raised ==> Lookup(r.members, k) == Lookup(acc, k)
    decreases |entries|
  {
    if entries != [] {
      var e := entries[0];
      if !(e.dest == AdmittingDest && admitting.None?) {
        MapEntriesPreserves(Assign(acc, e.dest, Kept(resolve, admitting, e)), resolve, admitting, entries[1..], row, k);
      }
    }
  }

  /** Each output key ends up holding the value stored for its own entry. */
  lemma {:induction false} MapEntriesValue(acc: Object, resolve: string -> Json, admitting: Option<bool>, entries: seq<MappingEntry>, row: nat, i: nat)
    requires DistinctDests(entries) && i < |entries|
    ensures var r := MapEntries(acc, resolve, admitting, entries, row);
      !r.raised ==> Lookup(r.members, entries[i].dest) == Some(Kept(resolve, admitting, entries[i]))
    decreases |entries|
  {
    var e := entries[0];
    if i == 0 {
      MapEntriesValueFirst(acc, resolve, admitting, entries, row);
    } else if !(e.dest == AdmittingDest && admitting.None?) {
      var next := Assign(acc, e.dest, Kept(resolve, admitting, e));
      assert entries[1..][i - 1] == entries[i];
      DistinctTail(entries);
      MapEntriesValue(next, resolve, admitting, entries[1..], row, i - 1);
      MapEntriesOneStep(acc, resolve, admitting, entries, row);
    }
  }

  /** Past a first entry that does not raise, the loop continues from the record that entry produced. */
  lemma MapEntriesOneStep(acc: Object, resolve: string -> Json, admitting: Option<bool>, entries: seq<MappingEntry>, row: nat)
    requires entries != [] && !(entries[0].dest == AdmittingDest && admitting.None?)
    ensures var r := MapEntries(acc, resolve, admitting, entries, row);
      var rest := MapEntries(Assign(acc, entries[0].dest, Kept(resolve, admitting, entries[0])), resolve, admitting, entries[1..], row);
      r.members == rest.members && r.raised == rest.raised
  {
  }

  /** The warnings of a first entry that does not raise come before those of the rest of the loop. */
  lemma MapEntriesLogStep(acc: Object, resolve: string -> Json, admitting: Option<bool>, entries: seq<MappingEntry>, row: nat)
    requires entries != [] && !(entries[0].dest == AdmittingDest && admitting.None?)
    ensures var e := entries[0];
      var logged := if resolve(e.source) == JNull then [MissingValue(e.dest, e.source, row)] else [];
      var rest := MapEntries(Assign(acc, e.dest, Kept(resolve, admitting, e)), resolve, admitting, entries[1..], row);
      MapEntries(acc, resolve, admitting, entries, row) == MapResult(rest.members, logged + rest.warnings, rest.raised)
  {
  }

  /** An admitting entry whose type check raises ends the loop with the record unchanged. */
  lemma MapEntriesRaiseStep(acc: Object, resolve: string -> Json, admitting: Option<bool>, entries: seq<MappingEntry>, row: nat)
    requires entries != [] && entries[0].dest == AdmittingDest && admitting.None?
    ensures var e := entries[0];
      var logged := if resolve(e.source) == JNull then [MissingValue(e.dest, e.source, row)] else [];
      MapEntries(acc, resolve, admitting, entries, row) == MapResult(acc, logged, true)
  {
  }

  /** The first entry's key keeps the value it was given: later entries write other keys. */
  lemma MapEntriesValueFirst(acc: Object, resolve: string -> Json, admitting: Option<bool>, entries: seq<MappingEntry>, row: nat)
    requires DistinctDests(entries) && entries != []
    ensures var r := MapEntries(acc, resolve, admitting, entries, row);
      !r.raised ==> Lookup(r.members, entries[0].dest) == Some(Kept(resolve, admitting, entries[0]))
  {
    var e := entries[0];
    if !(e.dest == AdmittingDest && admitting.None?) {
      var next := Assign(acc, e.dest, Kept(resolve, admitting, e));
      FirstNotRepeated(entries);
      MapEntriesPreserves(next, resolve, admitting, entries[1..], row, e.dest);
    }
  }

  /** Starting from a record that has none of the output keys, they are appended in table order. */
  lemma {:induction false} MapEntriesKeys(acc: Object, resolve: string -> Json, admitting: Option<bool>, entries: seq<MappingEntry>, row: nat)
    requires DistinctDests(entries)
    requires forall i :: 0 <= i < |entries| ==> entries[i].dest !in Keys(acc)
    ensures var r := MapEntries(acc, resolve, admitting, entries, row); !r.raised ==> Keys(r.members) == Keys(acc) + Dests(entries)
    decreases |entries|
  {
    if entries == [] {
      assert Keys(acc) + Dests(entries) == Keys(acc);
    } else {
      var e := entries[0];
      if !(e.dest == AdmittingDest && admitting.None?) {
        var next := Assign(acc, e.dest, Kept(resolve, admitting, e));
        AssignNewKey(acc, e.dest, Kept(resolve, admitting, e));
        FreshTail(Keys(acc), entries);
        MapEntriesKeys(next, resolve, admitting, entries[1..], row);
        var r := MapEntries(next, resolve, admitting, entries[1..], row);
        if !r.raised {
          KeysStep(Keys(acc), Keys(next), Keys(r.members), entries);
        }
      }
    }
  }

  /** The mapping table's destinations are distinct, as the keys of a dict literal are. */
  lemma MappingDistinct()
    ensures DistinctDests(Mapping)
  {
    forall i, j | 0 <= i < j < |Mapping| ensures Mapping[i].dest != Mapping[j].dest {
      assert |Mapping[i].dest| != |Mapping[j].dest| || Mapping[i].dest[0] != Mapping[j].dest[0];
    }
  }

  /** The mapped keys after `origin` are the table's destinations. */
  lemma MappingDests()
    ensures Dests(Mapping) == MappedKeys[1..]
  {
    forall i | 0 <= i < |Mapping| ensures Dests(Mapping)[i] == MappedKeys[1..][i] {
      assert MappedKeys[1..][i] == MappedKeys[i + 1];
    }
  }

  /** No destination of the table is `origin`. */
  lemma OriginNotMapped()
    ensures forall i :: 0 <= i < |Mapping| ==> Mapping[i].dest != "origin"
  {
    forall i | 0 <= i < |Mapping| ensures Mapping[i].dest != "origin" {
      assert Mapping[i].dest[0] != 'o';
    }
  }

  /** Neither `claim_id` nor `created` is a mapped key. */
  lemma ClaimIdNotMapped()
    ensures "claim_id" !in MappedKeys && "created" !in MappedKeys
  {
    forall i | 0 <= i < |MappedKeys| ensures MappedKeys[i] != "claim_id" && MappedKeys[i] != "created" {
      assert MappedKeys[i][0] != 'c';
    }
  }

  /** The entries up to the first admitting-diagnosis one are the first five. */
  lemma MappingUpToAdmitting()
    ensures UpToAdmitting(Mapping) == Mapping[..5]
  {
    var m := Mapping;
    assert m[0].dest != AdmittingDest && m[1].dest != AdmittingDest;
    assert m[2].dest != AdmittingDest && m[3].dest != AdmittingDest;
    assert m[4].dest == AdmittingDest;
    assert UpToAdmitting(m[4..]) == [m[4]];
    assert m[3..][1..] == m[4..];
    assert UpToAdmitting(m[3..]) == [m[3], m[4]];
    assert m[2..][1..] == m[3..];
    assert UpToAdmitting(m[2..]) == [m[2], m[3], m[4]];
    assert m[1..][1..] == m[2..];
    assert UpToAdmitting(m[1..]) == [m[1], m[2], m[3], m[4]];
    assert UpToAdmitting(m) == [m[0], m[1], m[2], m[3], m[4]];
  }

  /**
   * `map_values` run with a given outcome of the admitting check; `ClaimMapped` supplies the real
   * one. The lemmas below hold whatever that outcome is, except `AdmittingRule`, which is about it.
   */
  function ClaimMappedWith(data: Object, admitting: Option<bool>, origin: int, row: nat): MapResult
  {
    MapEntries([Member("origin", JInt(origin))], Resolver(data), admitting, Mapping, row)
  }

  /** `map_values` on `data`, starting from `{'origin': origin}`. */
  function ClaimMapped(data: Object, origin: int, row: nat): MapResult
  {
    ClaimMappedWith(data, AdmittingTypeCheck(data), origin, row)
  }

  /** The mapped record's keys are `origin` and the eight destinations, in order; `claim_id` and `created` are not among them. */
  lemma ClaimMappedKeys(data: Object, admitting: Option<bool>, origin: int, row: nat)
    ensures var r := ClaimMappedWith(data, admitting, origin, row);
      !r.raised ==> Keys(r.members) == MappedKeys && "claim_id" !in Keys(r.members) && "created" !in Keys(r.members)
  {
    MappingDistinct();
    MappingDests();
    OriginNotMapped();
    ClaimIdNotMapped();
    var acc := [Member("origin", JInt(origin))];
    assert Keys(acc) == ["origin"];
    MapEntriesKeys(acc, Resolver(data), admitting, Mapping, row);
    assert ["origin"] + MappedKeys[1..] == MappedKeys;
  }

  /** `origin` keeps the processor's origin. */
  lemma ClaimMappedOrigin(data: Object, admitting: Option<bool>, origin: int, row: nat)
    ensures var r := ClaimMappedWith(data, admitting, origin, row);
      !r.raised ==> Lookup(r.members, "origin") == Some(JInt(origin))
  {
    OriginNotMapped();
    MapEntriesPreserves([Member("origin", JInt(origin))], Resolver(data), admitting, Mapping, row, "origin");
  }

  /** Every destination other than the admitting diagnosis holds the value its path resolves to. */
  lemma ClaimMappedValues(data: Object, admitting: Option<bool>, origin: int, row: nat, i: nat)
    requires i < |Mapping| && Mapping[i].dest != AdmittingDest
    ensures var r := ClaimMappedWith(data, admitting, origin, row);
      !r.raised ==> Lookup(r.members, Mapping[i].dest) == Some(GetValueAtJsonPath(JObject(data), Mapping[i].source))
  {
    MappingDistinct();
    MapEntriesValue([Member("origin", JInt(origin))], Resolver(data), admitting, Mapping, row, i);
  }

  /**
   * One missing-value warning per mapping entry whose path resolves to null, in table order; when
   * the admitting check raises, the entries after it log nothing.
   */
  lemma ClaimMappedWarnings(data: Object, admitting: Option<bool>, origin: int, row: nat)
    ensures var r := ClaimMappedWith(data, admitting, origin, row);
      r.warnings == MissingValueWarnings(Resolver(data), if r.raised then Mapping[..5] else Mapping, row)
  {
    MappingUpToAdmitting();
    MapEntriesWarnings([Member("origin", JInt(origin))], Resolver(data), admitting, Mapping, row);
  }

  /**
   * The admitting diagnosis is kept only when the diagnosis type lower-cases to `admitting`; a null
   * or other string type gives null; a type that is neither null nor a string raises.
   */
  lemma AdmittingRule(data: Object, origin: int, row: nat)
    ensures var r := ClaimMapped(data, origin, row);
      var t := GetValueAtJsonPath(JObject(data), AdmittingTypePath);
      && (r.raised <==> !(t.JNull? || t.JStr?))
      && (!r.raised ==>
            Lookup(r.members, AdmittingDest) ==
            Some(if t.JStr? && Lower(t.s) == "admitting" then GetValueAtJsonPath(JObject(data), AdmittingSource) else JNull))
  {
    MappingDistinct();
    MappingDests();
    var adm := AdmittingTypeCheck(data);
    MapEntriesRaises([Member("origin", JInt(origin))], Resolver(data), adm, Mapping, row);
    assert Dests(Mapping)[4] == AdmittingDest;
    MapEntriesValue([Member("origin", JInt(origin))], Resolver(data), adm, Mapping, row, 4);
  }

  /** Without a `diagnosis` key the diagnosis type resolves to null. */
  lemma NoDiagnosisType(data: Object)
    requires "diagnosis" !in Keys(data)
    ensures AdmittingTypeCheck(data) == Some(false)
  {
    var rest := "[" + "0].diagnosisCodeableConcept.type[0].coding[0].code";
    assert rest[0] == '[';
    assert AdmittingTypePath == "diagnosis" + rest;
    AbsentHeadMisses(data, "diagnosis", rest);
  }

  /** When the diagnosis type is null, the mapping never raises and the admitting diagnosis is null. */
  lemma NullTypeNoRaise(data: Object, origin: int, row: nat)
    ensures var r := ClaimMappedWith(data, Some(false), origin, row);
      !r.raised && Lookup(r.members, AdmittingDest) == Some(JNull)
  {
    MappingDistinct();
    MapEntriesRaises([Member("origin", JInt(origin))], Resolver(data), Some(false), Mapping, row);
    MapEntriesValue([Member("origin", JInt(origin))], Resolver(data), Some(false), Mapping, row, 4);
  }

  /** Without a `diagnosis` key the mapping never raises and the admitting diagnosis is null. */
  lemma NoDiagnosisNoRaise(data: Object, origin: int, row: nat)
    requires "diagnosis" !in Keys(data)
    ensures var r := ClaimMapped(data, origin, row);
      !r.raised && Lookup(r.members, AdmittingDest) == Some(JNull)
  {
    NoDiagnosisType(data);
    NullTypeNoRaise(data, origin, row);
  }

  /** Without a `patient` key, the path `patient.reference` resolves to null. */
  lemma PatientReferenceMisses(data: Object)
    requires "patient" !in Keys(data)
    ensures GetValueAtJsonPath(JObject(data), Mapping[0].source) == JNull
  {
    var source := Mapping[0].source;
    assert source == "patient" + ".reference";
    AbsentHeadMisses(data, "patient", ".reference");
  }

  /** Without a `patient` key, `patient_id` is null (the unit test on a claim without `patient.reference`). */
  lemma MissingPatientReferenceIsNull(data: Object, admitting: Option<bool>, origin: int, row: nat)
    requires "patient" !in Keys(data)
    ensures var r := ClaimMappedWith(data, admitting, origin, row);
      !r.raised ==> Lookup(r.members, "patient_id") == Some(JNull)
  {
    PatientReferenceMisses(data);
    ClaimMappedValues(data, admitting, origin, row, 0);
  }

  /** Without a `patient` key, a missing-value warning is logged for `patient_id`. */
  lemma MissingPatientReferenceWarns(data: Object, admitting: Option<bool>, origin: int, row: nat)
    requires "patient" !in Keys(data)
    ensures var r := ClaimMappedWith(data, admitting, origin, row);
      MissingValue("patient_id", "patient.reference", row) in r.warnings
  {
    PatientReferenceMisses(data);
    ClaimMappedWarnings(data, admitting, origin, row);
    var r := ClaimMappedWith(data, admitting, origin, row);
    var entries := if r.raised then Mapping[..5] else Mapping;
    assert entries[0] == Mapping[0] == MappingEntry("patient_id", "patient.reference");
    assert MissingValueWarnings(Resolver(data), entries, row)[0] == MissingValue(Mapping[0].dest, Mapping[0].source, row);
  }

  /** The record `normalize` leaves, and whether it raised. */
  datatype NormalizeResult = NormalizeResult(record: Object, raised: bool)

  /**
   * `FHIRClaimProcessor.normalize`: `gender` goes through the gender normalizer and `diagnosis` is
   * upper-cased, each in place; a non-string value raises at `.strip()` or `.upper()`, and an
   * already normalized gender stays normalized.
   */
  function ClaimNormalize(record: Object): NormalizeResult
  {
    var gender := Lookup(record, "gender");
    if gender.Some? && !gender.value.JStr? then NormalizeResult(record, true)
    else
      var r1 := if gender.Some? then Assign(record, "gender", JStr(Label(Normalize(gender.value.s)))) else record;
      var diagnosis := Lookup(r1, "diagnosis");
      if diagnosis.Some? && !diagnosis.value.JStr? then NormalizeResult(r1, true)
      else if diagnosis.Some? then NormalizeResult(Assign(r1, "diagnosis", JStr(Upper(diagnosis.value.s))), false)
      else NormalizeResult(r1, false)
  }

  /**
   * `normalize` keeps the keys and their order, touches no key but `gender` and `diagnosis`, raises
   * exactly when one of them is present and not a string, and otherwise stores their normal forms.
   */
  lemma ClaimNormalizeEffect(record: Object, k: string)
    ensures var r := ClaimNormalize(record);
      var gender := Lookup(record, "gender");
      var diagnosis := Lookup(record, "diagnosis");
      && Keys(r.record) == Keys(record)
      && (k != "gender" && k != "diagnosis" ==> Lookup(r.record, k) == Lookup(record, k))
      && (r.raised <==> (gender.Some? && !gender.value.JStr?) || (diagnosis.Some? && !diagnosis.value.JStr?))
      && (!r.raised && gender.Some? ==> Lookup(r.record, "gender") == Some(JStr(Label(Normalize(gender.value.s)))))
      && (!r.raised && diagnosis.Some? ==> Lookup(r.record, "diagnosis") == Some(JStr(Upper(diagnosis.value.s))))
  {
  }

  /** The unit test: `{"gender": "M"}` becomes `{"gender": "Male"}`. */
  lemma GenderExample(record: Object)
    requires record == [Member("gender", JStr("M"))]
    ensures ClaimNormalize(record) == NormalizeResult([Member("gender", JStr("Male"))], false)
  {
    Examples();
    assert Lookup(record, "diagnosis").None?;
  }

  /** A mapped claim record has neither `gender` nor `diagnosis`, so `normalize` returns it unchanged. */
  lemma MappedClaimNormalizesToItself(data: Object, admitting: Option<bool>, origin: int, row: nat)
    ensures var r := ClaimMappedWith(data, admitting, origin, row);
      !r.raised ==> ClaimNormalize(r.members) == NormalizeResult(r.members, false)
  {
    ClaimMappedKeys(data, admitting, origin, row);
    NormalizedKeysNotMapped();
    var r := ClaimMappedWith(data, admitting, origin, row);
    if !r.raised {
      assert Lookup(r.members, "gender").None? && Lookup(r.members, "diagnosis").None?;
    }
  }

  /** `gender` and `diagnosis` are not mapped keys. */
  lemma NormalizedKeysNotMapped()
    ensures "gender" !in MappedKeys && "diagnosis" !in MappedKeys
  {
    forall i | 0 <= i < |MappedKeys| ensures MappedKeys[i] != "gender" && MappedKeys[i] != "diagnosis" {
      assert MappedKeys[i][0] != 'g' && MappedKeys[i][0] != 'd';
    }
  }
}
