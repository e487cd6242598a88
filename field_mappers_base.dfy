/**
 * The validation steps `FHIRResourceProcessor` (src/field_mappers/base.py) runs on one record:
 * the required-field check, then the date and date-time checks. Each is specified here as a
 * function of the record; the processor class in resource_processor.dfy runs them as loops.
 */
module FieldMappersBase {
  import opened Json
  import opened JsonPath
  import opened DateChecks

  /** The warnings the processors log, one constructor per message. */
  datatype WarningEvent =
    | MissingRequiredField(field: string, row: nat)
    | InvalidDate(key: string)
    | InvalidDateTime(key: string)
    | WrongResourceType(row: nat)
    | MissingValue(dest: string, source: string, row: nat)

  /** The warnings a step logs, and whether it ended by raising an exception. */
  datatype Effect = Effect(warnings: seq<WarningEvent>, raised: bool)

  /** What a single check does: nothing, log a warning, or raise. */
  datatype Verdict = Pass | Flag | Throw

  /**
   * `_nested_field_dne(field)`: `False` for a dotted or bracketed field whose value is falsy,
   * `None` otherwise. Either way the answer is falsy.
   */
  function NestedFieldDne(data: Object, field: string): (r: Option<bool>)
    ensures r != Some(true)
  {
    if ('.' in field || '[' in field) && !Truthy(GetValueAtJsonPath(JObject(data), field)) then Some(false)
    else None
  }

  /** The condition `field not in self.data or self._nested_field_dne(field)`. */
  predicate MissingRequired(data: Object, field: string)
  {
    field !in Keys(data) || NestedFieldDne(data, field) == Some(true)
  }

  /** The warnings of the loop over `required_fields` in `validate`, in field order. */
  function RequiredFieldWarnings(data: Object, fields: seq<string>, row: nat): seq<WarningEvent>
  {
    if fields == [] then []
    else
      (if MissingRequired(data, fields[0]) then [MissingRequiredField(fields[0], row)] else [])
      + RequiredFieldWarnings(data, fields[1..], row)
  }

  /**
   * The required-field check warns exactly about the listed fields that are not top-level keys:
   * a nested field that resolves to nothing adds no warning of its own.
   */
  lemma {:induction false} RequiredFieldWarningsExact(data: Object, fields: seq<string>, row: nat, w: WarningEvent)
    ensures w in RequiredFieldWarnings(data, fields, row) <==>
      w.MissingRequiredField? && w.row == row && w.field in fields && w.field !in Keys(data)
  {
    if fields != [] {
      RequiredFieldWarningsExact(data, fields[1..], row, w);
      assert fields == [fields[0]] + fields[1..];
    }
  }

  /** With every required field present, the check logs nothing. */
  lemma {:induction false} NoWarningsWhenAllPresent(data: Object, fields: seq<string>, row: nat)
    requires forall f :: f in fields ==> f in Keys(data)
    ensures RequiredFieldWarnings(data, fields, row) == []
  {
    if fields != [] {
      assert fields[0] in fields;
      NoWarningsWhenAllPresent(data, fields[1..], row);
    }
  }

  /** The loop over `date_fields` in `validate_dates`: it stops at the first check that raises. */
  function DateFieldsEffect(data: Object, fields: seq<string>): Effect
  {
    if fields == [] then Effect([], false)
    else
      var rest := DateFieldsEffect(data, fields[1..]);
      match ValidateDateString(JObject(data), fields[0])
      case NoWarning => rest
      case Warning => Effect([InvalidDate(fields[0])] + rest.warnings, rest.raised)
      case Raises => Effect([], true)
  }

  /** The loop over `datetime_fields` in `validate_dates`; this check never raises. */
  function DatetimeFieldsWarnings(data: Object, fields: seq<string>): seq<WarningEvent>
  {
    if fields == [] then []
    else DatetimeFieldWarning(data, fields[0]) + DatetimeFieldsWarnings(data, fields[1..])
  }

  /** What the date-time check of one field logs. */
  function DatetimeFieldWarning(data: Object, field: string): seq<WarningEvent>
  {
    if ValidateDatetimeString(JObject(data), field) == Warned then [InvalidDateTime(field)] else []
  }

  /** `validate_dates`: the date fields first, then the date-time fields. */
  function ValidateDatesEffect(data: Object, dateFields: seq<string>, datetimeFields: seq<string>): Effect
  {
    var d := DateFieldsEffect(data, dateFields);
    if d.raised then d else Effect(d.warnings + DatetimeFieldsWarnings(data, datetimeFields), false)
  }

  /** `FHIRResourceProcessor.validate`: the required-field warnings, then `validate_dates`. */
  function ValidateEffect(data: Object, required: seq<string>, dateFields: seq<string>,
                          datetimeFields: seq<string>, row: nat): Effect
  {
    var d := ValidateDatesEffect(data, dateFields, datetimeFields);
    Effect(RequiredFieldWarnings(data, required, row) + d.warnings, d.raised)
  }

  /**
   * The date loop raises exactly when some listed field's value is a number, a boolean, or a
   * ten-element list or dict; otherwise it warns about exactly the fields whose check warns.
   */
  lemma {:induction false} DateFieldsEffectExact(data: Object, fields: seq<string>, key: string)
    ensures DateFieldsEffect(data, fields).raised <==>
      exists i :: 0 <= i < |fields| && ValidateDateString(JObject(data), fields[i]) == Raises
    ensures !DateFieldsEffect(data, fields).raised ==>
      (InvalidDate(key) in DateFieldsEffect(data, fields).warnings <==>
       key in fields && ValidateDateString(JObject(data), key) == Warning)
  {
    if fields != [] {
      DateFieldsEffectExact(data, fields[1..], key);
      var v := ValidateDateString(JObject(data), fields[0]);
      if v == Raises {
        assert exists i :: 0 <= i < |fields| && ValidateDateString(JObject(data), fields[i]) == Raises by {
          assert fields[0] == fields[0];
        }
      } else {
        if exists i :: 0 <= i < |fields| && ValidateDateString(JObject(data), fields[i]) == Raises {
          var i :| 0 <= i < |fields| && ValidateDateString(JObject(data), fields[i]) == Raises;
          assert fields[i] == fields[1..][i - 1];
        }
        if exists i :: 0 <= i < |fields[1..]| && ValidateDateString(JObject(data), fields[1..][i]) == Raises {
          var i :| 0 <= i < |fields[1..]| && ValidateDateString(JObject(data), fields[1..][i]) == Raises;
          assert fields[1..][i] == fields[i + 1];
        }
      }
    }
  }

  /** The date-time loop warns about exactly the listed fields whose value is truthy and does not match. */
  lemma {:induction false} DatetimeFieldsWarningsExact(data: Object, fields: seq<string>, w: WarningEvent)
    ensures w in DatetimeFieldsWarnings(data, fields) <==>
      w.InvalidDateTime? && w.key in fields && ValidateDatetimeString(JObject(data), w.key) == Warned
  {
    if fields != [] {
      DatetimeFieldsWarningsExact(data, fields[1..], w);
    }
  }

  /** `validate_dates` logs only date and date-time warnings, never a missing-field one. */
  lemma {:induction false} DateWarningKinds(data: Object, dateFields: seq<string>, datetimeFields: seq<string>, w: WarningEvent)
    requires w in ValidateDatesEffect(data, dateFields, datetimeFields).warnings
    ensures w.InvalidDate? || w.InvalidDateTime?
  {
    DateFieldsKinds(data, dateFields, w);
    if w in DatetimeFieldsWarnings(data, datetimeFields) {
      DatetimeFieldsWarningsExact(data, datetimeFields, w);
    }
  }

  /**
   * Over the whole base `validate`, the missing-field warnings name exactly the required fields
   * that are not top-level keys; a nested field that resolves to nothing is not reported.
   */
  lemma ValidateEffectWarnsMissing(data: Object, required: seq<string>, dateFields: seq<string>,
                                   datetimeFields: seq<string>, row: nat, field: string)
    ensures MissingRequiredField(field, row) in ValidateEffect(data, required, dateFields, datetimeFields, row).warnings
      <==> field in required && field !in Keys(data)
  {
    var w := MissingRequiredField(field, row);
    var missing := RequiredFieldWarnings(data, required, row);
    var dates := ValidateDatesEffect(data, dateFields, datetimeFields);
    RequiredFieldWarningsExact(data, required, row, w);
    if w in dates.warnings {
      DateWarningKinds(data, dateFields, datetimeFields, w);
    }
    assert w in missing + dates.warnings <==> w in missing || w in dates.warnings;
  }

  /** The date loop's warnings are all date warnings. */
  lemma {:induction false} DateFieldsKinds(data: Object, fields: seq<string>, w: WarningEvent)
    ensures w in DateFieldsEffect(data, fields).warnings ==> w.InvalidDate?
  {
    if fields != [] {
      DateFieldsKinds(data, fields[1..], w);
    }
  }

  /**
   * `get_value_at_json_path(self.data, path)` as a function of the path alone; the mapping loops
   * read a document that does not change while they run.
   */
  function Resolver(data: Object): string -> Json
  {
    path => GetValueAtJsonPath(JObject(data), path)
  }

  /** One row of a processor's `mapping` table: the output key and the path it is read from. */
  datatype MappingEntry = MappingEntry(dest: string, source: string)

  /** The output keys of a mapping table, in table order. */
  function Dests(entries: seq<MappingEntry>): (ds: seq<string>)
    ensures |ds| == |entries|
    ensures forall i :: 0 <= i < |entries| ==> ds[i] == entries[i].dest
  {
    if entries == [] then [] else [entries[0].dest] + Dests(entries[1..])
  }

  /** No output key appears twice, as in a dict literal. */
  predicate DistinctDests(entries: seq<MappingEntry>)
  {
    forall i, j :: 0 <= i < j < |entries| ==> entries[i].dest != entries[j].dest
  }

  /**
   * After a mapping loop from a record holding none of the table's keys writes the first key, the
   * rest of the table is still distinct and still absent from the keys so far.
   */
  lemma FreshTail(keys: seq<string>, entries: seq<MappingEntry>)
    requires entries != [] && DistinctDests(entries)
    requires forall i :: 0 <= i < |entries| ==> entries[i].dest !in keys
    ensures DistinctDests(entries[1..])
    ensures forall i :: 0 <= i < |entries| - 1 ==> entries[1..][i].dest !in keys + [entries[0].dest]
    ensures Dests(entries) == [entries[0].dest] + Dests(entries[1..])
  {
    var tail := entries[1..];
    forall i, j | 0 <= i < j < |tail| ensures tail[i].dest != tail[j].dest {
      assert tail[i] == entries[i + 1] && tail[j] == entries[j + 1];
    }
    forall i | 0 <= i < |tail| ensures tail[i].dest !in keys + [entries[0].dest] {
      assert tail[i] == entries[i + 1];
    }
  }

  /** The rest of a table with distinct destinations is distinct. */
  lemma DistinctTail(entries: seq<MappingEntry>)
    requires entries != [] && DistinctDests(entries)
    ensures DistinctDests(entries[1..])
  {
    var tail := entries[1..];
    forall i, j | 0 <= i < j < |tail| ensures tail[i].dest != tail[j].dest {
      assert tail[i] == entries[i + 1] && tail[j] == entries[j + 1];
    }
  }

  /** The rest of a table with distinct destinations never repeats the first one. */
  lemma FirstNotRepeated(entries: seq<MappingEntry>)
    requires entries != [] && DistinctDests(entries)
    ensures forall i :: 0 <= i < |entries| - 1 ==> entries[1..][i].dest != entries[0].dest
  {
    forall i | 0 <= i < |entries| - 1 ensures entries[1..][i].dest != entries[0].dest {
      assert entries[1..][i] == entries[i + 1];
    }
  }

  /** The keys after one more step of a mapping loop, as sequence algebra. */
  lemma KeysStep(before: seq<string>, after: seq<string>, result: seq<string>, entries: seq<MappingEntry>)
    requires entries != []
    requires after == before + [entries[0].dest] && result == after + Dests(entries[1..])
    ensures result == before + Dests(entries)
  {
    var rest := Dests(entries[1..]);
    assert Dests(entries) == [entries[0].dest] + rest;
    AppendAssoc(before, [entries[0].dest], rest);
  }

  lemma AppendAssoc<T>(a: seq<T>, b: seq<T>, c: seq<T>)
    ensures (a + b) + c == a + (b + c)
  {
  }
}
