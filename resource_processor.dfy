/**
 * The processor objects of src/field_mappers: `FHIRResourceProcessor.process` and the steps it
 * runs on `self.data`, for the claim and the patient processor. `FHIRClaimProcessor` and
 * `FHIRPatientProcessor` differ only in their field lists and their overrides, so one class with a
 * constant `kind` stands for both. Each step is a method that updates the object's fields in place
 * and is proved against the functions, from the modules it imports, that state that step; `ProcessSpec` chains
 * them, and the lemmas at the end state what a processed record looks like.
 */
module ResourceProcessor {
  import opened Json
  import opened Text
  import opened JsonPath
  import opened DateChecks
  import opened EnumNormalizer
  import opened FieldMappersBase
  import C = ClaimProcessor
  import P = PatientProcessor

  /** Which subclass of `FHIRResourceProcessor` an object is. */
  datatype Kind = ClaimKind | PatientKind

  function RequiredFieldsOf(kind: Kind): seq<string>
  {
    match kind
    case ClaimKind => C.RequiredFields
    case PatientKind => P.RequiredFields
  }

  function DateFieldsOf(kind: Kind): seq<string>
  {
    match kind
    case ClaimKind => C.DateFields
    case PatientKind => P.DateFields
  }

  function DatetimeFieldsOf(kind: Kind): seq<string>
  {
    match kind
    case ClaimKind => C.DatetimeFields
    case PatientKind => P.DatetimeFields
  }

  /** `validate` of each subclass: the base checks, then, for claims, the resource-type check. */
  function ValidateSpec(kind: Kind, data: Object, row: nat): Effect
  {
    var base := ValidateEffect(data, RequiredFieldsOf(kind), DateFieldsOf(kind), DatetimeFieldsOf(kind), row);
    if kind.PatientKind? || base.raised then base
    else
      match C.ResourceTypeVerdict(data)
      case Pass => base
      case Flag => Effect(base.warnings + [WrongResourceType(row)], false)
      case Throw => Effect(base.warnings, true)
  }

  /** `map_values` of each subclass; the patient loop never raises and never warns. */
  function MapSpec(kind: Kind, data: Object, origin: int, row: nat): C.MapResult
  {
    match kind
    case ClaimKind => C.ClaimMapped(data, origin, row)
    case PatientKind => C.MapResult(P.PatientMapped(data, origin), [], false)
  }

  /** `normalize` of each subclass; the patient's does nothing. */
  function NormalizeSpec(kind: Kind, record: Object): C.NormalizeResult
  {
    match kind
    case ClaimKind => C.ClaimNormalize(record)
    case PatientKind => C.NormalizeResult(record, false)
  }

  /** What `process` leaves in `self.data`, the warnings it logs, and whether it raised. */
  datatype Outcome = Outcome(record: Object, warnings: seq<WarningEvent>, raised: bool)

  /**
   * `process(data, row_num)`: `validate`, then `map_values`, then `normalize`, stopping at the first
   * exception. `map_values` replaces `self.data` only when its loop completes.
   */
  function ProcessSpec(kind: Kind, data: Object, origin: int, row: nat): Outcome
  {
    var v := ValidateSpec(kind, data, row);
    if v.raised then Outcome(data, v.warnings, true)
    else
      var m := MapSpec(kind, data, origin, row);
      if m.raised then Outcome(data, v.warnings + m.warnings, true)
      else
        var n := NormalizeSpec(kind, m.members);
        Outcome(n.record, v.warnings + m.warnings, n.raised)
  }

  /** A `FHIRClaimProcessor` or `FHIRPatientProcessor`; `warnings` is the log the steps append to. */
  class FhirProcessor {
    const kind: Kind
    const ingestTs: int
    const origin: int
    const requiredFields: seq<string>
    const dateFields: seq<string>
    const datetimeFields: seq<string>
    var data: Object
    var rowNum: nat
    var warnings: seq<WarningEvent>

    /** `__init__(ingest_ts)`: an empty record, origin 1, row 0, and the subclass's field lists. */
    constructor(kind: Kind, ingestTs: int)
      ensures this.kind == kind && this.ingestTs == ingestTs && origin == 1
      ensures requiredFields == RequiredFieldsOf(kind) && dateFields == DateFieldsOf(kind)
      ensures datetimeFields == DatetimeFieldsOf(kind)
      ensures data == [] && rowNum == 0 && warnings == []
    {
      this.kind := kind;
      this.ingestTs := ingestTs;
      origin := 1;
      requiredFields := RequiredFieldsOf(kind);
      dateFields := DateFieldsOf(kind);
      datetimeFields := DatetimeFieldsOf(kind);
      data := [];
      rowNum := 0;
      warnings := [];
    }

    /** The field lists are the ones of the object's subclass. */
    ghost predicate Valid()
      reads this
    {
      requiredFields == RequiredFieldsOf(kind) && dateFields == DateFieldsOf(kind)
      && datetimeFields == DatetimeFieldsOf(kind)
    }

    /** `log_warning(msg)`: one more entry in the log, nothing else changes. */
    method LogWarning(w: WarningEvent)
      modifies this`warnings
      ensures warnings == old(warnings) + [w]
    {
      warnings := warnings + [w];
    }

    /** The loop over `required_fields` in `validate`. */
    method CheckRequiredFields()
      modifies this`warnings
      ensures warnings == old(warnings) + RequiredFieldWarnings(data, requiredFields, rowNum)
    {
      var i := 0;
      while i < |requiredFields|
        invariant 0 <= i <= |requiredFields|
        invariant old(warnings) + RequiredFieldWarnings(data, requiredFields, rowNum)
          == warnings + RequiredFieldWarnings(data, requiredFields[i..], rowNum)
      {
        var field := requiredFields[i];
        assert requiredFields[i..][0] == field && requiredFields[i..][1..] == requiredFields[i + 1..];
        ghost var before := warnings;
        ghost var step: seq<WarningEvent> := [];
        if field !in Keys(data) || NestedFieldDne(data, field) == Some(true) {
          LogWarning(MissingRequiredField(field, rowNum));
          step := [MissingRequiredField(field, rowNum)];
        }
        AppendAssoc(before, step, RequiredFieldWarnings(data, requiredFields[i + 1..], rowNum));
        i := i + 1;
      }
      assert requiredFields[i..] == [];
    }

    /** `validate_dates`: the date checks, which may raise, then the date-time checks. */
    method ValidateDates() returns (raised: bool)
      modifies this`warnings
      ensures var e := ValidateDatesEffect(data, dateFields, datetimeFields);
        raised == e.raised && warnings == old(warnings) + e.warnings
    {
      var doc := data;
      raised := CheckDateFields(doc, dateFields);
      if raised {
        return;
      }
      CheckDatetimeFields(doc, datetimeFields);
      AppendAssoc(old(warnings), DateFieldsEffect(doc, dateFields).warnings, DatetimeFieldsWarnings(doc, datetimeFields));
    }

    /** The loop over `date_fields`, reading the record `doc`: it stops at the first check that raises. */
    method CheckDateFields(doc: Object, fields: seq<string>) returns (raised: bool)
      modifies this`warnings
      ensures var e := DateFieldsEffect(doc, fields);
        raised == e.raised && warnings == old(warnings) + e.warnings
    {
      ghost var dates := DateFieldsEffect(doc, fields);
      assert fields[0..] == fields;
      var i := 0;
      while i < |fields|
        invariant 0 <= i <= |fields|
        invariant var rest := DateFieldsEffect(doc, fields[i..]);
          dates.raised == rest.raised && old(warnings) + dates.warnings == warnings + rest.warnings
      {
        var field := fields[i];
        assert fields[i..][0] == field && fields[i..][1..] == fields[i + 1..];
        ghost var before := warnings;
        var verdict := ValidateDateString(JObject(doc), field);
        if verdict == Raises {
          assert DateFieldsEffect(doc, fields[i..]) == Effect([], true);
          return true;
        }
        ghost var step: seq<WarningEvent> := [];
        if verdict == Warning {
          LogWarning(InvalidDate(field));
          step := [InvalidDate(field)];
        }
        AppendAssoc(before, step, DateFieldsEffect(doc, fields[i + 1..]).warnings);
        i := i + 1;
      }
      assert fields[i..] == [];
      raised := false;
    }

    /** The loop over `datetime_fields`, reading the record `doc`. */
    method CheckDatetimeFields(doc: Object, fields: seq<string>)
      modifies this`warnings
      ensures warnings == old(warnings) + DatetimeFieldsWarnings(doc, fields)
    {
      assert fields[0..] == fields;
      var j := 0;
      while j < |fields|
        invariant 0 <= j <= |fields|
        invariant old(warnings) + DatetimeFieldsWarnings(doc, fields) == warnings + DatetimeFieldsWarnings(doc, fields[j..])
      {
        assert fields[j..][0] == fields[j] && fields[j..][1..] == fields[j + 1..];
        ghost var before := warnings;
        CheckDatetimeField(doc, fields[j]);
        AppendAssoc(before, DatetimeFieldWarning(doc, fields[j]), DatetimeFieldsWarnings(doc, fields[j + 1..]));
        j := j + 1;
      }
      assert fields[j..] == [];
    }

    /** One turn of that loop: a warning when the field's value is set but is not an ISO 8601 date-time. */
    method CheckDatetimeField(doc: Object, field: string)
      modifies this`warnings
      ensures warnings == old(warnings) + DatetimeFieldWarning(doc, field)
    {
      if ValidateDatetimeString(JObject(doc), field) == Warned {
        LogWarning(InvalidDateTime(field));
      }
    }

    /** `validate` of the object's subclass. */
    method Validate() returns (raised: bool)
      requires Valid()
      modifies this`warnings
      ensures var e := ValidateSpec(kind, data, rowNum);
        raised == e.raised && warnings == old(warnings) + e.warnings
    {
      raised := ValidateBase();
      if raised || kind.PatientKind? {
        return;
      }
      ghost var base := warnings;
      raised := CheckResourceType(data);
      ghost var verdict := C.ResourceTypeVerdict(data);
      if verdict == Flag {
        AppendAssoc(old(warnings), base[|old(warnings)|..], [WrongResourceType(rowNum)]);
      }
    }

    /** `FHIRResourceProcessor.validate`: the required-field check, then `validate_dates`. */
    method ValidateBase() returns (raised: bool)
      modifies this`warnings
      ensures var e := ValidateEffect(data, requiredFields, dateFields, datetimeFields, rowNum);
        raised == e.raised && warnings == old(warnings) + e.warnings
    {
      CheckRequiredFields();
      raised := ValidateDates();
      AppendAssoc(old(warnings), RequiredFieldWarnings(data, requiredFields, rowNum),
                  ValidateDatesEffect(data, dateFields, datetimeFields).warnings);
    }

    /**
     * The claim's own check: `self.data["resourceType"].lower() != "claim"` warns, and a missing
     * or non-string `resourceType` raises.
     */
    method CheckResourceType(doc: Object) returns (raised: bool)
      modifies this`warnings
      ensures var v := C.ResourceTypeVerdict(doc);
        raised == (v == Throw) && warnings == old(warnings) + (if v == Flag then [WrongResourceType(rowNum)] else [])
    {
      var resourceType := Lookup(doc, "resourceType");
      if resourceType.None? || !resourceType.value.JStr? {
        return true;
      }
      if Lower(resourceType.value.s) != "claim" {
        LogWarning(WrongResourceType(rowNum));
      }
      return false;
    }

    /** `FHIRClaimProcessor.map_values`: fill `instance_dict` entry by entry, then replace `data`. */
    method MapClaimValues() returns (raised: bool)
      requires kind.ClaimKind?
      modifies this`data, this`warnings
      ensures var m := C.ClaimMapped(old(data), origin, rowNum);
        raised == m.raised && warnings == old(warnings) + m.warnings
        && data == (if raised then old(data) else m.members)
    {
      var instance;
      instance, raised := ClaimMappingLoop(data, [Member("origin", JInt(origin))], C.Mapping);
      if !raised {
        data := instance;
      }
    }

    /**
     * The `for dest, source in mapping.items()` loop of the claim `map_values`, from `instance_dict`
     * equal to `start`, over `entries`, reading the record `doc`.
     */
    method ClaimMappingLoop(doc: Object, start: Object, entries: seq<MappingEntry>) returns (instance: Object, raised: bool)
      modifies this`warnings
      ensures var r := C.MapEntries(start, Resolver(doc), C.AdmittingTypeCheck(doc), entries, rowNum);
        raised == r.raised && (!raised ==> instance == r.members) && warnings == old(warnings) + r.warnings
    {
      instance := start;
      ghost var total := C.MapEntries(start, Resolver(doc), C.AdmittingTypeCheck(doc), entries, rowNum);
      assert entries[0..] == entries;
      var i := 0;
      while i < |entries|
        invariant 0 <= i <= |entries|
        invariant var rest := C.MapEntries(instance, Resolver(doc), C.AdmittingTypeCheck(doc), entries[i..], rowNum);
          total.members == rest.members && total.raised == rest.raised
          && old(warnings) + total.warnings == warnings + rest.warnings
      {
        ghost var before := warnings;
        var next;
        ghost var logged;
        next, raised, logged := ClaimMappingStep(doc, instance, entries, i);
        if raised {
          return instance, true;
        }
        AppendAssoc(before, logged, C.MapEntries(next, Resolver(doc), C.AdmittingTypeCheck(doc), entries[i + 1..], rowNum).warnings);
        instance := next;
        i := i + 1;
      }
      assert entries[i..] == [];
      raised := false;
    }

    /**
     * One turn of that loop, on `entries[i]`: resolve the entry's path and warn when it is null;
     * for the admitting entry, check the diagnosis type, which raises when it is neither null nor a
     * string and otherwise keeps the value only for `admitting`. `logged` is what the turn logs.
     */
    method ClaimMappingStep(doc: Object, instance: Object, entries: seq<MappingEntry>, i: nat)
      returns (next: Object, raised: bool, ghost logged: seq<WarningEvent>)
      requires i < |entries|
      modifies this`warnings
      ensures warnings == old(warnings) + logged
      ensures var resolve := Resolver(doc);
        var admitting := C.AdmittingTypeCheck(doc);
        var here := C.MapEntries(instance, resolve, admitting, entries[i..], rowNum);
        var rest := C.MapEntries(next, resolve, admitting, entries[i + 1..], rowNum);
        here == if raised then C.MapResult(instance, logged, true) else C.MapResult(rest.members, logged + rest.warnings, rest.raised)
    {
      ghost var resolve := Resolver(doc);
      ghost var admitting := C.AdmittingTypeCheck(doc);
      var e := entries[i];
      assert entries[i..][0] == e && entries[i..][1..] == entries[i + 1..];
      var value := GetValueAtJsonPath(JObject(doc), e.source);
      logged := [];
      if value == JNull {
        LogWarning(MissingValue(e.dest, e.source, rowNum));
        logged := [MissingValue(e.dest, e.source, rowNum)];
      }
      if e.dest == C.AdmittingDest {
        var diagnosisType := GetValueAtJsonPath(JObject(doc), C.AdmittingTypePath);
        if !diagnosisType.JNull? && !diagnosisType.JStr? {
          C.MapEntriesRaiseStep(instance, resolve, admitting, entries[i..], rowNum);
          return instance, true, logged;
        }
        if !(diagnosisType.JStr? && Lower(diagnosisType.s) == "admitting") {
          value := JNull;
        }
      }
      next := Assign(instance, e.dest, value);
      raised := false;
      C.MapEntriesLogStep(instance, resolve, admitting, entries[i..], rowNum);
    }

    /** `FHIRPatientProcessor.map_values`: fill `instance_dict` entry by entry, then replace `data`. */
    method MapPatientValues()
      requires kind.PatientKind?
      modifies this`data
      ensures data == P.PatientMapped(old(data), origin)
    {
      data := PatientMappingLoop(data, [Member("origin", JInt(origin))], P.Mapping);
    }

    /**
     * The `for dest, source in mapping.items()` loop of the patient `map_values`, from
     * `instance_dict` equal to `start`, over `entries`, reading the record `doc`.
     */
    method PatientMappingLoop(doc: Object, start: Object, entries: seq<MappingEntry>) returns (instance: Object)
      ensures instance == P.AssignEntries(start, Resolver(doc), entries)
    {
      instance := start;
      ghost var resolve := Resolver(doc);
      ghost var total := P.AssignEntries(start, resolve, entries);
      assert entries[0..] == entries;
      var i := 0;
      while i < |entries|
        invariant 0 <= i <= |entries|
        invariant total == P.AssignEntries(instance, resolve, entries[i..])
      {
        var e := entries[i];
        assert entries[i..][0] == e && entries[i..][1..] == entries[i + 1..];
        var value := GetValueAtJsonPath(JObject(doc), e.source);
        assert resolve(e.source) == value;
        instance := Assign(instance, e.dest, value);
        i := i + 1;
      }
      assert entries[i..] == [];
    }

    /** `FHIRClaimProcessor.normalize`: rewrite `gender` and `diagnosis` in place when present. */
    method NormalizeClaim() returns (raised: bool)
      modifies this`data
      ensures var n := C.ClaimNormalize(old(data));
        raised == n.raised && data == n.record
    {
      raised := false;
      var gender := Lookup(data, "gender");
      if gender.Some? {
        if !gender.value.JStr? {
          return true;
        }
        data := Assign(data, "gender", JStr(Label(Normalize(gender.value.s))));
      }
      var diagnosis := Lookup(data, "diagnosis");
      if diagnosis.Some? {
        if !diagnosis.value.JStr? {
          return true;
        }
        data := Assign(data, "diagnosis", JStr(Upper(diagnosis.value.s)));
      }
    }

    /** `self.map_values()`: the override of the object's subclass. */
    method MapValues() returns (raised: bool)
      modifies this`data, this`warnings
      ensures var m := MapSpec(kind, old(data), origin, rowNum);
        raised == m.raised && warnings == old(warnings) + m.warnings
        && data == (if raised then old(data) else m.members)
    {
      if kind.ClaimKind? {
        raised := MapClaimValues();
      } else {
        MapPatientValues();
        raised := false;
      }
    }

    /** `self.normalize()`: the override of the object's subclass. */
    method NormalizeValues() returns (raised: bool)
      modifies this`data
      ensures var n := NormalizeSpec(kind, old(data));
        raised == n.raised && data == n.record
    {
      if kind.ClaimKind? {
        raised := NormalizeClaim();
      } else {
        raised := false;
      }
    }

    /** `process(data, row_num)`: returns `self.data`, or `None` where the source raises. */
    method Process(doc: Object, row: nat) returns (result: Option<Object>)
      requires Valid()
      modifies this
      ensures var o := ProcessSpec(kind, doc, origin, row);
        && result == (if o.raised then None else Some(o.record))
        && data == o.record
        && warnings == old(warnings) + o.warnings
      ensures rowNum == row
    {
      data := doc;
      rowNum := row;
      ghost var v := ValidateSpec(kind, doc, row);
      ghost var m := MapSpec(kind, doc, origin, row);
      var raised := Validate();
      if raised {
        return None;
      }
      AppendAssoc(old(warnings), v.warnings, m.warnings);
      raised := MapValues();
      if raised {
        return None;
      }
      raised := NormalizeValues();
      result := if raised then None else Some(data);
    }
  }

  /**
   * Over a whole `validate`, the missing-field warnings name exactly the required fields that are
   * not top-level keys; a nested field that resolves to nothing is not reported.
   */
  lemma ValidateWarnsMissing(kind: Kind, data: Object, row: nat, field: string)
    ensures MissingRequiredField(field, row) in ValidateSpec(kind, data, row).warnings
      <==> field in RequiredFieldsOf(kind) && field !in Keys(data)
  {
    var base := ValidateEffect(data, RequiredFieldsOf(kind), DateFieldsOf(kind), DatetimeFieldsOf(kind), row);
    ValidateEffectWarnsMissing(data, RequiredFieldsOf(kind), DateFieldsOf(kind), DatetimeFieldsOf(kind), row, field);
    var w := MissingRequiredField(field, row);
    assert w in base.warnings + [WrongResourceType(row)] <==> w in base.warnings;
  }

  /** When `validate` raises, `process` stops there: the record is untouched and only its warnings are logged. */
  lemma ValidateRaisesFirst(kind: Kind, data: Object, origin: int, row: nat)
    requires ValidateSpec(kind, data, row).raised
    ensures ProcessSpec(kind, data, origin, row) == Outcome(data, ValidateSpec(kind, data, row).warnings, true)
  {
  }

  /**
   * The claim `validate` raises whenever `resourceType` is absent: either a base check raised, or
   * the resource-type check reaches the missing key.
   */
  lemma ClaimValidateRaises(data: Object, row: nat)
    requires "resourceType" !in Keys(data)
    ensures ValidateSpec(ClaimKind, data, row).raised
  {
    if !ValidateEffect(data, RequiredFieldsOf(ClaimKind), DateFieldsOf(ClaimKind), DatetimeFieldsOf(ClaimKind), row).raised {
      assert C.ResourceTypeVerdict(data).Throw?;
    }
  }

  /** Looks a field up in the claim processor's required fields. */
  lemma RequiredByClaims(field: string, i: nat)
    requires i < |C.RequiredFields| && C.RequiredFields[i] == field
    ensures field in RequiredFieldsOf(ClaimKind)
  {
  }

  /** A claim whose `resourceType` is a string other than `claim` in any case gets one more warning, last. */
  lemma WrongResourceTypeWarns(data: Object, row: nat, s: string)
    requires Lookup(data, "resourceType") == Some(JStr(s)) && Lower(s) != "claim"
    requires !ValidateDatesEffect(data, C.DateFields, C.DatetimeFields).raised
    ensures var v := ValidateSpec(ClaimKind, data, row);
      !v.raised && |v.warnings| > 0 && v.warnings[|v.warnings| - 1] == WrongResourceType(row)
  {
  }

  /**
   * A claim that `process` returns has the mapped keys in order, without `claim_id` or `created`,
   * and is exactly what `map_values` built: `normalize` finds nothing to change in it.
   */
  lemma ProcessedClaim(data: Object, origin: int, row: nat)
    ensures var o := ProcessSpec(ClaimKind, data, origin, row);
      !o.raised ==>
        && o.record == C.ClaimMapped(data, origin, row).members
        && Keys(o.record) == C.MappedKeys
        && "claim_id" !in Keys(o.record) && "created" !in Keys(o.record)
        && Lookup(o.record, "origin") == Some(JInt(origin))
  {
    var admitting := C.AdmittingTypeCheck(data);
    C.MappedClaimNormalizesToItself(data, admitting, origin, row);
    C.ClaimMappedKeys(data, admitting, origin, row);
    C.ClaimMappedOrigin(data, admitting, origin, row);
  }

  /**
   * A patient record raises only in `validate`; otherwise `process` returns the mapped record,
   * with the keys `origin`, `first_name`, `last_name`, `patient_id`, and logs only validation warnings.
   */
  lemma ProcessedPatient(data: Object, origin: int, row: nat)
    ensures var o := ProcessSpec(PatientKind, data, origin, row);
      var v := ValidateSpec(PatientKind, data, row);
      && o.raised == v.raised
      && o.warnings == v.warnings
      && (!o.raised ==> o.record == P.PatientMapped(data, origin) && Keys(o.record) == P.MappedKeys)
  {
    P.PatientMappedKeys(data, origin);
    var v := ValidateSpec(PatientKind, data, row);
    assert v.warnings + [] == v.warnings;
  }

  /** The unit test on a patient without `id`: processing it logs the missing-field warning. */
  lemma PatientWithoutIdWarns(data: Object, origin: int, row: nat)
    requires "id" !in Keys(data)
    ensures MissingRequiredField("id", row) in ProcessSpec(PatientKind, data, origin, row).warnings
  {
    assert P.RequiredFields[1] == "id";
    ValidateWarnsMissing(PatientKind, data, row, "id");
    ProcessedPatient(data, origin, row);
  }
}
