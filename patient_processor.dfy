/**
 * `FHIRPatientProcessor` (src/field_mappers/patient_processor.py): its field lists and the mapping
 * that projects a patient resource onto a flat record. It adds no check of its own, logs no
 * missing-value warnings and its `normalize` does nothing.
 */
module PatientProcessor {
  import opened Json
  import opened JsonPath
  import opened DateChecks
  import opened FieldMappersBase

  const RequiredFields: seq<string> := ["name", "id"]
  const DateFields: seq<string> := ["birthDate"]
  const DatetimeFields: seq<string> := ["meta.lastUpdated"]

  /** The `mapping` dict of `map_values`, in its literal order. */
  const Mapping: seq<MappingEntry> := [
    MappingEntry("first_name", "name[0].given[0]"),
    MappingEntry("last_name", "name[0].family"),
    MappingEntry("patient_id", "id")
  ]

  /** The keys of a mapped patient record, in order; they are the parameters of `upsert_patient`. */
  const MappedKeys: seq<string> := ["origin", "first_name", "last_name", "patient_id"]

  /** The loop of `map_values`: `instance_dict[dest] = get_value_at_json_path(self.data, source)` per entry. */
  function AssignEntries(acc: Object, resolve: string -> Json, entries: seq<MappingEntry>): Object
    decreases |entries|
  {
    if entries == [] then acc
    else AssignEntries(Assign(acc, entries[0].dest, resolve(entries[0].source)), resolve, entries[1..])
  }

  /** `map_values` on `data`, starting from `{'origin': origin}`; it never raises. */
  function PatientMapped(data: Object, origin: int): Object
  {
    AssignEntries([Member("origin", JInt(origin))], Resolver(data), Mapping)
  }

  /** Keys the loop does not write keep their values. */
  lemma {:induction false} AssignEntriesPreserves(acc: Object, resolve: string -> Json, entries: seq<MappingEntry>, k: string)
    requires forall i :: 0 <= i < |entries| ==> entries[i].dest != k
    ensures Lookup(AssignEntries(acc, resolve, entries), k) == Lookup(acc, k)
    decreases |entries|
  {
    if entries != [] {
      AssignEntriesPreserves(Assign(acc, entries[0].dest, resolve(entries[0].source)), resolve, entries[1..], k);
    }
  }

  /** Each output key ends up holding the value its path resolves to. */
  lemma {:induction false} AssignEntriesValue(acc: Object, resolve: string -> Json, entries: seq<MappingEntry>, i: nat)
    requires DistinctDests(entries) && i < |entries|
    ensures Lookup(AssignEntries(acc, resolve, entries), entries[i].dest) == Some(resolve(entries[i].source))
    decreases |entries|
  {
    var v := resolve(entries[0].source);
    var next := Assign(acc, entries[0].dest, v);
    assert AssignEntries(acc, resolve, entries) == AssignEntries(next, resolve, entries[1..]);
    if i == 0 {
      FirstNotRepeated(entries);
      AssignEntriesPreserves(next, resolve, entries[1..], entries[0].dest);
      assert Lookup(next, entries[0].dest) == Some(v);
    } else {
      assert entries[1..][i - 1] == entries[i];
      DistinctTail(entries);
      AssignEntriesValue(next, resolve, entries[1..], i - 1);
    }
  }

  /** Starting from a record that has none of the output keys, they are appended in table order. */
  lemma {:induction false} AssignEntriesKeys(acc: Object, resolve: string -> Json, entries: seq<MappingEntry>)
    requires DistinctDests(entries)
    requires forall i :: 0 <= i < |entries| ==> entries[i].dest !in Keys(acc)
    ensures Keys(AssignEntries(acc, resolve, entries)) == Keys(acc) + Dests(entries)
    decreases |entries|
  {
    if entries == [] {
      assert Keys(acc) + Dests(entries) == Keys(acc);
    } else {
      var e := entries[0];
      var next := Assign(acc, e.dest, resolve(e.source));
      AssignNewKey(acc, e.dest, resolve(e.source));
      FreshTail(Keys(acc), entries);
      AssignEntriesKeys(next, resolve, entries[1..]);
      KeysStep(Keys(acc), Keys(next), Keys(AssignEntries(next, resolve, entries[1..])), entries);
    }
  }

  /** The mapping table's destinations are distinct, and none of them is `origin`. */
  lemma MappingDistinct()
    ensures DistinctDests(Mapping)
    ensures forall i :: 0 <= i < |Mapping| ==> Mapping[i].dest != "origin"
  {
    forall i, j | 0 <= i < j < |Mapping| ensures Mapping[i].dest != Mapping[j].dest {
      assert |Mapping[i].dest| != |Mapping[j].dest| || Mapping[i].dest[0] != Mapping[j].dest[0];
    }
    forall i | 0 <= i < |Mapping| ensures Mapping[i].dest != "origin" {
      assert Mapping[i].dest[0] != 'o';
    }
  }

  /** The mapped keys after `origin` are the table's destinations. */
  lemma MappingDests()
    ensures Dests(Mapping) == MappedKeys[1..]
  {
    forall i | 0 <= i < |Mapping| ensures Dests(Mapping)[i] == MappedKeys[1..][i] {
      assert MappedKeys[1..][i] == MappedKeys[i + 1];
    }
  }

  /** The mapped record's keys are exactly `origin`, `first_name`, `last_name`, `patient_id`, in that order. */
  lemma PatientMappedKeys(data: Object, origin: int)
    ensures Keys(PatientMapped(data, origin)) == MappedKeys
  {
    MappingDistinct();
    MappingDests();
    SeededKeys(Member("origin", JInt(origin)), Resolver(data), Mapping, MappedKeys);
  }

  /** Starting from a one-key record, a table with fresh distinct destinations yields that key then those destinations. */
  lemma {:induction false} SeededKeys(first: Member, resolve: string -> Json, entries: seq<MappingEntry>, keys: seq<string>)
    requires DistinctDests(entries) && (forall i :: 0 <= i < |entries| ==> entries[i].dest != first.key)
    requires |keys| >= 1 && keys[0] == first.key && Dests(entries) == keys[1..]
    ensures Keys(AssignEntries([first], resolve, entries)) == keys
  {
    assert Keys([first]) == [first.key];
    AssignEntriesKeys([first], resolve, entries);
    assert [keys[0]] + keys[1..] == keys;
  }

  /** `origin` holds the processor's origin and each other key the value its path resolves to. */
  lemma PatientMappedValues(data: Object, origin: int, i: nat)
    requires i < |Mapping|
    ensures Lookup(PatientMapped(data, origin), "origin") == Some(JInt(origin))
    ensures Lookup(PatientMapped(data, origin), Mapping[i].dest) == Some(GetValueAtJsonPath(JObject(data), Mapping[i].source))
  {
    MappingDistinct();
    AssignEntriesPreserves([Member("origin", JInt(origin))], Resolver(data), Mapping, "origin");
    AssignEntriesValue([Member("origin", JInt(origin))], Resolver(data), Mapping, i);
  }

  /** Without an `id`, the record's `patient_id` is null. */
  lemma MissingIdIsNull(data: Object, origin: int)
    requires "id" !in Keys(data)
    ensures Lookup(PatientMapped(data, origin), "patient_id") == Some(JNull)
  {
    IdPathMisses(data);
    PatientMappedValues(data, origin, 2);
  }

  /** The `id` path of a record without `id` resolves to null. */
  lemma IdPathMisses(data: Object)
    requires "id" !in Keys(data)
    ensures GetValueAtJsonPath(JObject(data), Mapping[2].source) == JNull
  {
    assert Mapping[2].source == "id" + "";
    AbsentHeadMisses(data, "id", "");
  }

  /** The unit test on a record without `id`: the required-field check warns about `id`. */
  lemma MissingIdWarns(data: Object, row: nat)
    requires "id" !in Keys(data)
    ensures MissingRequiredField("id", row) in ValidateEffect(data, RequiredFields, DateFields, DatetimeFields, row).warnings
  {
    RequiredFieldWarningsExact(data, RequiredFields, row, MissingRequiredField("id", row));
  }

  /** The unit test on a record with `name` and `id`: no required-field warning. */
  lemma AllRequiredPresent(data: Object, row: nat)
    requires "name" in Keys(data) && "id" in Keys(data)
    ensures RequiredFieldWarnings(data, RequiredFields, row) == []
  {
    NoWarningsWhenAllPresent(data, RequiredFields, row);
  }

  /** A single date field holding a string that is no calendar date gives exactly one date warning. */
  lemma OneBadDate(data: Object, key: string, value: string)
    requires IsWord(key) && Field(data, key) == JStr(value) && value != [] && !IsCalendarDate(value)
    ensures DateFieldsEffect(data, [key]) == Effect([InvalidDate(key)], false)
  {
    KeyPath(data, key);
    DateCheckOnString(JObject(data), key, value);
    assert [key][1..] == [];
  }

  /** A single date-time field whose path resolves to null gives no warning. */
  lemma AbsentDatetime(data: Object, path: string)
    requires GetValueAtJsonPath(JObject(data), path) == JNull
    ensures DatetimeFieldsWarnings(data, [path]) == []
  {
    assert [path][1..] == [];
  }

  /** The record of the `birthDate` unit test fails the date check once. */
  lemma BirthDateBadDate(data: Object, value: string)
    requires value == "MM-YY" && data == [Member("birthDate", JStr(value))]
    ensures DateFieldsEffect(data, DateFields) == Effect([InvalidDate(DateFields[0])], false)
  {
    MalformedDatesWarn(value);
    OneBadDate(data, DateFields[0], value);
  }

  /** The record of the `birthDate` unit test has no `meta`, so the date-time check is silent. */
  lemma BirthDateNoDatetime(data: Object, value: string)
    requires data == [Member("birthDate", JStr(value))]
    ensures DatetimeFieldsWarnings(data, DatetimeFields) == []
  {
    assert DatetimeFields[0] == "meta" + ".lastUpdated";
    assert "meta"[0] != "birthDate"[0];
    AbsentHeadMisses(data, "meta", ".lastUpdated");
    AbsentDatetime(data, DatetimeFields[0]);
  }

  /** The unit test `birthDate = "MM-YY"`: one date warning, nothing else from the date checks. */
  lemma MalformedBirthDateWarns(data: Object, value: string)
    requires value == "MM-YY" && data == [Member("birthDate", JStr(value))]
    ensures ValidateDatesEffect(data, DateFields, DatetimeFields) == Effect([InvalidDate(DateFields[0])], false)
  {
    BirthDateBadDate(data, value);
    BirthDateNoDatetime(data, value);
    assert [InvalidDate(DateFields[0])] + [] == [InvalidDate(DateFields[0])];
  }

  /** A single date field that is absent gives nothing. */
  lemma AbsentDate(data: Object, key: string)
    requires IsWord(key) && key !in Keys(data)
    ensures DateFieldsEffect(data, [key]) == Effect([], false)
  {
    KeyPath(data, key);
    assert [key][1..] == [];
  }

  /** A single date-time field that fails the check gives exactly one date-time warning. */
  lemma OneBadDatetime(data: Object, path: string)
    requires ValidateDatetimeString(JObject(data), path) == Warned
    ensures DatetimeFieldsWarnings(data, [path]) == [InvalidDateTime(path)]
  {
    assert [path][1..] == [];
  }

  /** The record of the `meta.lastUpdated` unit test has no `birthDate`, so the date check is silent. */
  lemma LastUpdatedNoDate(data: Object, value: string)
    requires data == [Member("meta", JObject([Member("lastUpdated", JStr(value))]))]
    ensures DateFieldsEffect(data, DateFields) == Effect([], false)
  {
    assert "meta"[0] != DateFields[0][0];
    AbsentDate(data, DateFields[0]);
  }

  /** The record of the `meta.lastUpdated` unit test fails the date-time check once. */
  lemma LastUpdatedBadDatetime(data: Object, value: string)
    requires value == "2022-02-30TAA:00:00Z"
    requires data == [Member("meta", JObject([Member("lastUpdated", JStr(value))]))]
    ensures DatetimeFieldsWarnings(data, DatetimeFields) == [InvalidDateTime(DatetimeFields[0])]
  {
    LastUpdatedPath(data, value);
    BadHourWarns(JObject(data), DatetimeFields[0], value);
    OneBadDatetime(data, DatetimeFields[0]);
  }

  /** `meta.lastUpdated` reaches into the nested `meta` object. */
  lemma LastUpdatedPath(data: Object, value: string)
    requires data == [Member("meta", JObject([Member("lastUpdated", JStr(value))]))]
    ensures GetValueAtJsonPath(JObject(data), DatetimeFields[0]) == JStr(value)
  {
    assert DatetimeFields[0] == "meta" + "." + "lastUpdated";
    DottedKeyPath(data, "meta", "lastUpdated", [Member("lastUpdated", JStr(value))]);
  }

  /** The unit test `meta.lastUpdated = "2022-02-30TAA:00:00Z"`: one date-time warning, nothing else. */
  lemma MalformedLastUpdatedWarns(data: Object, value: string)
    requires value == "2022-02-30TAA:00:00Z"
    requires data == [Member("meta", JObject([Member("lastUpdated", JStr(value))]))]
    ensures ValidateDatesEffect(data, DateFields, DatetimeFields) == Effect([InvalidDateTime(DatetimeFields[0])], false)
  {
    LastUpdatedNoDate(data, value);
    LastUpdatedBadDatetime(data, value);
    assert [] + [InvalidDateTime(DatetimeFields[0])] == [InvalidDateTime(DatetimeFields[0])];
  }
}
