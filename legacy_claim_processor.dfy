/**
 * The older claims processor (field_mappers/claim_processor.py) with the driver of its base class
 * (field_mappers/base.py): warn about missing top-level fields, shorten the names of the patients
 * contained in the claim, and re-write the billing period dates, which are kept as they are.
 */
module LegacyClaimProcessor {
  import opened Json
  import FieldMappersBase

  /** The warnings this processor logs; its info message about a missing patient is not kept. */
  datatype LegacyWarning = MissingField(field: string) | ClaimIdMissing

  /** The twelve top-level keys `validate` expects. */
  const RequiredFields: seq<string> :=
    ["billablePeriod", "contained", "created", "diagnosis", "id", "patient",
     "provider", "resourceType", "status", "total", "type", "use"]

  /** One warning per listed field that is not a top-level key, in list order. */
  function MissingFieldWarnings(data: Object, fields: seq<string>): seq<LegacyWarning>
  {
    if fields == [] then []
    else
      (if fields[0] !in Keys(data) then [MissingField(fields[0])] else [])
      + MissingFieldWarnings(data, fields[1..])
  }

  /** The claim-id rule: only a claim that names its patient is checked for an `id`. */
  function ClaimIdWarning(data: Object): seq<LegacyWarning>
  {
    if "patient" !in Keys(data) then []
    else if "id" !in Keys(data) then [ClaimIdMissing]
    else []
  }

  /** Everything `validate` logs as a warning, in order. */
  function ValidateWarnings(data: Object): seq<LegacyWarning>
  {
    MissingFieldWarnings(data, RequiredFields) + ClaimIdWarning(data)
  }

  /** A missing-field warning is logged exactly for the listed fields that are absent. */
  lemma {:induction false} MissingFieldWarningsExact(data: Object, fields: seq<string>, f: string)
    ensures MissingField(f) in MissingFieldWarnings(data, fields) <==> f in fields && f !in Keys(data)
    ensures ClaimIdMissing !in MissingFieldWarnings(data, fields)
    ensures |MissingFieldWarnings(data, fields)| <= |fields|
  {
    if fields != [] {
      MissingFieldWarningsExact(data, fields[1..], f);
      assert fields == [fields[0]] + fields[1..];
    }
  }

  /** `validate` warns about a field exactly when it is one of the twelve and not a top-level key. */
  lemma ValidateWarnsMissing(data: Object, f: string)
    ensures MissingField(f) in ValidateWarnings(data) <==> f in RequiredFields && f !in Keys(data)
  {
    MissingFieldWarningsExact(data, RequiredFields, f);
  }

  /** "Claim ID is missing" is logged exactly when the patient is there and the id is not. */
  lemma ClaimIdRule(data: Object)
    ensures ClaimIdMissing in ValidateWarnings(data) <==> "patient" in Keys(data) && "id" !in Keys(data)
    ensures |ValidateWarnings(data)| <= 13
  {
    MissingFieldWarningsExact(data, RequiredFields, "id");
  }

  /** Python's `s[:n]`: the first `n` characters, or all of a shorter string. */
  function Head(s: string, n: nat): (r: string)
    ensures |r| == (if |s| <= n then |s| else n)
    ensures r == s[..|r|]
  {
    if |s| <= n then s else s[..n]
  }

  /** The f-string `given[:10], family[:15]`: never longer than 27 characters. */
  function ShortName(given: string, family: string): (r: string)
    ensures |r| <= 27
    ensures |r| == |Head(given, 10)| + 2 + |Head(family, 15)|
    ensures |given| <= 10 && |family| <= 15 ==> r == given + ", " + family
  {
    Head(given, 10) + ", " + Head(family, 15)
  }

  /** Long names are cut: the first name to ten characters, the family name to fifteen. */
  lemma ShortNameExample()
    ensures ShortName("Maximiliano", "Featherstonehaugh") == "Maximilian, Featherstonehau"
  {
    assert Head("Maximiliano", 10) == "Maximilian";
    assert Head("Featherstonehaugh", 15) == "Featherstonehau";
  }

  /** `x[0]` inside the f-string: a list's first item or a string's first character; otherwise it raises. */
  function FirstItem(j: Json): Option<Json>
  {
    match j
    case JArray(items) => if items == [] then None else Some(items[0])
    case JStr(s) => if s == [] then None else Some(JStr([s[0]]))
    case _ => None
  }

  /**
   * The dict `name[0]` of a patient entry and the short name the f-string evaluates to, or `None`
   * when evaluating it raises (a missing key, an empty list, a value of the wrong type).
   */
  function NameParts(entry: Object): Option<(Object, string)>
  {
    match Lookup(entry, "name")
    case Some(JArray(names)) =>
      if names == [] || !names[0].JObject? then None
      else
        var first := names[0].members;
        (match (Lookup(first, "given"), Lookup(first, "family"))
         case (Some(g), Some(JStr(family))) =>
           (match FirstItem(g)
            case Some(JStr(given)) => Some((first, ShortName(given, family)))
            case _ => None)
         case _ => None)
    case _ => None
  }

  /**
   * One turn of the loop in `map_values`: a patient entry gets `name[0]["text"]` set to its short
   * name, any other dict is left alone, and an entry that is not a dict raises at `.get`.
   */
  function ShortenEntry(entry: Json): Option<Json>
  {
    match entry
    case JObject(m) =>
      if Lookup(m, "resourceType") != Some(JStr("Patient")) then Some(entry)
      else
        (match NameParts(m)
         case None => None
         case Some((first, text)) =>
           var names := Lookup(m, "name").value.items;
           Some(JObject(Assign(m, "name", JArray(names[0 := JObject(Assign(first, "text", JStr(text)))])))))
    case _ => None
  }

  /** The `contained` list after the loop, and whether the loop raised part-way. */
  datatype Entries = Entries(items: seq<Json>, raised: bool)

  /** The loop over `contained`: entries are rewritten in order until one raises; later ones are untouched. */
  function ShortenEntries(items: seq<Json>): (r: Entries)
    ensures |r.items| == |items|
  {
    if items == [] then Entries([], false)
    else
      match ShortenEntry(items[0])
      case None => Entries(items, true)
      case Some(e) =>
        var rest := ShortenEntries(items[1..]);
        Entries([e] + rest.items, rest.raised)
  }

  /** One turn of the loop, as a fact about the list it starts on. */
  lemma ShortenEntriesCons(items: seq<Json>)
    requires items != []
    ensures ShortenEntry(items[0]).None? ==> ShortenEntries(items) == Entries(items, true)
    ensures ShortenEntry(items[0]).Some? ==>
      var rest := ShortenEntries(items[1..]);
      ShortenEntries(items) == Entries([ShortenEntry(items[0]).value] + rest.items, rest.raised)
  {
  }

  /** The record after `map_values`, and whether it raised. */
  datatype Step = Step(data: Object, raised: bool)

  /**
   * `map_values`: loop over `data.get("contained", [])`. A missing list changes nothing; iterating
   * a non-empty dict or string yields strings, which have no `.get`; null, booleans and numbers
   * cannot be iterated.
   */
  function MapNames(data: Object): Step
  {
    match Lookup(data, "contained")
    case None => Step(data, false)
    case Some(JArray(items)) =>
      var r := ShortenEntries(items);
      Step(Assign(data, "contained", JArray(r.items)), r.raised)
    case Some(JObject(ms)) => Step(data, ms != [])
    case Some(JStr(s)) => Step(data, s != [])
    case Some(_) => Step(data, true)
  }

  /**
   * What shortening a patient entry changes: inside the entry only `name`, inside `name` only the
   * first dict, and inside that only `text`, which becomes `text`. Keys keep their order.
   */
  ghost predicate OnlyTextChanged(m: Object, m2: Object, text: string)
  {
    Keys(m2) == Keys(m)
    && (forall k :: k != "name" ==> Lookup(m2, k) == Lookup(m, k))
    && Lookup(m, "name").Some? && Lookup(m, "name").value.JArray?
    && Lookup(m2, "name").Some? && Lookup(m2, "name").value.JArray?
    && var ns := Lookup(m, "name").value.items;
       var ns2 := Lookup(m2, "name").value.items;
       |ns2| == |ns| > 0 && ns2[1..] == ns[1..]
       && ns[0].JObject? && ns2[0].JObject?
       && Lookup(ns2[0].members, "text") == Some(JStr(text))
       && (forall k :: k != "text" ==> Lookup(ns2[0].members, k) == Lookup(ns[0].members, k))
  }

  /**
   * A patient entry is rewritten exactly when its name parts can be read; the rewrite sets only
   * `name[0]["text"]`, to at most 27 characters.
   */
  lemma ShortenPatientEntry(m: Object)
    requires Lookup(m, "resourceType") == Some(JStr("Patient"))
    ensures ShortenEntry(JObject(m)).Some? <==> NameParts(m).Some?
    ensures NameParts(m).Some? ==>
      var text := NameParts(m).value.1;
      |text| <= 27 && ShortenEntry(JObject(m)).value.JObject?
      && OnlyTextChanged(m, ShortenEntry(JObject(m)).value.members, text)
  {
    if NameParts(m).Some? {
      var (first, text) := NameParts(m).value;
      var names := Lookup(m, "name").value.items;
      var names2 := names[0 := JObject(Assign(first, "text", JStr(text)))];
      assert names2[1..] == names[1..];
    }
  }

  /** A dict that is not a patient passes the loop unchanged. */
  lemma OtherEntryUnchanged(m: Object)
    requires Lookup(m, "resourceType") != Some(JStr("Patient"))
    ensures ShortenEntry(JObject(m)) == Some(JObject(m))
  {
  }

  /** A rewritten entry is a fixed point: the name parts it reads are not the key it writes. */
  lemma ShortenEntryIdempotent(e: Json)
    requires ShortenEntry(e).Some?
    ensures ShortenEntry(ShortenEntry(e).value) == ShortenEntry(e)
  {
    var m := e.members;
    if Lookup(m, "resourceType") == Some(JStr("Patient")) {
      var (first, text) := NameParts(m).value;
      var names := Lookup(m, "name").value.items;
      var first2 := Assign(first, "text", JStr(text));
      var names2 := names[0 := JObject(first2)];
      RewrittenNameParts(m, first, text, names);
      AssignTwice(first, "text", JStr(text), JStr(text));
      assert names2[0 := JObject(first2)] == names2;
      AssignTwice(m, "name", JArray(names2), JArray(names2));
    }
  }

  /** After the rewrite the entry is still a patient, and its name parts read the same. */
  lemma RewrittenNameParts(m: Object, first: Object, text: string, names: seq<Json>)
    requires NameParts(m) == Some((first, text)) && Lookup(m, "name") == Some(JArray(names))
    ensures var first2 := Assign(first, "text", JStr(text));
      var m2 := Assign(m, "name", JArray(names[0 := JObject(first2)]));
      NameParts(m2) == Some((first2, text)) && Lookup(m2, "resourceType") == Lookup(m, "resourceType")
  {
    assert "name" != "resourceType" by { assert "name"[0] != "resourceType"[0]; }
    assert "text" != "given" by { assert "text"[0] != "given"[0]; }
    assert "text" != "family" by { assert "text"[0] != "family"[0]; }
  }

  /** Running the loop over its own output gives the same list and the same outcome. */
  lemma {:induction false} ShortenEntriesIdempotent(items: seq<Json>)
    ensures ShortenEntries(ShortenEntries(items).items) == ShortenEntries(items)
  {
    if items != [] {
      match ShortenEntry(items[0])
      case None =>
      case Some(e) =>
        ShortenEntryIdempotent(items[0]);
        ShortenEntriesIdempotent(items[1..]);
        var r := ShortenEntries(items);
        assert r.items[0] == e && r.items[1..] == ShortenEntries(items[1..]).items;
    }
  }

  /** `map_values` is idempotent, whether or not it raised the first time. */
  lemma MapNamesIdempotent(data: Object)
    ensures MapNames(MapNames(data).data) == MapNames(data)
  {
    match Lookup(data, "contained")
    case Some(JArray(items)) =>
      var r := ShortenEntries(items);
      ShortenEntriesIdempotent(items);
      AssignTwice(data, "contained", JArray(r.items), JArray(r.items));
    case _ =>
  }

  /** `map_values` keeps the record's keys and every top-level value but `contained`. */
  lemma MapNamesFrame(data: Object)
    ensures Keys(MapNames(data).data) == Keys(data)
    ensures forall k :: k != "contained" ==> Lookup(MapNames(data).data, k) == Lookup(data, k)
  {
  }

  /** Without a `contained` list there is nothing to rewrite. */
  lemma NoContainedNoChange(data: Object)
    requires "contained" !in Keys(data)
    ensures MapNames(data) == Step(data, false)
  {
  }

  /** A list whose entries are all dicts other than patients comes out of the loop unchanged. */
  lemma {:induction false} NoPatientsUnchanged(items: seq<Json>)
    requires forall i :: 0 <= i < |items| ==>
      items[i].JObject? && Lookup(items[i].members, "resourceType") != Some(JStr("Patient"))
    ensures ShortenEntries(items) == Entries(items, false)
  {
    if items != [] {
      NoPatientsUnchanged(items[1..]);
      assert items == [items[0]] + items[1..];
    }
  }

  /** `normalize` raises when `billablePeriod` is present but is not a dict holding `start` and `end`. */
  predicate NormalizeRaises(data: Object)
  {
    match Lookup(data, "billablePeriod")
    case None => false
    case Some(JObject(period)) => "start" !in Keys(period) || "end" !in Keys(period)
    case Some(_) => true
  }

  /** What `process` leaves: the record, the warnings logged, and whether an exception escaped. */
  datatype LegacyOutcome = LegacyOutcome(record: Object, warnings: seq<LegacyWarning>, raised: bool)

  /** `process`: validate, then `map_values`, then `normalize`, which only runs when the mapping did not raise. */
  function LegacyProcess(doc: Object): LegacyOutcome
  {
    var warnings := ValidateWarnings(doc);
    var mapped := MapNames(doc);
    if mapped.raised then LegacyOutcome(mapped.data, warnings, true)
    else LegacyOutcome(mapped.data, warnings, NormalizeRaises(mapped.data))
  }

  /** A processed record processed again is unchanged, and logs the same warnings. */
  lemma ProcessStable(doc: Object)
    requires !LegacyProcess(doc).raised
    ensures LegacyProcess(LegacyProcess(doc).record) == LegacyProcess(doc)
  {
    var mapped := MapNames(doc);
    MapNamesIdempotent(doc);
    MapNamesFrame(doc);
    MapNamesFrame(mapped.data);
    assert "billablePeriod" != "contained" by { assert "billablePeriod"[0] != "contained"[0]; }
    ValidateSameKeys(doc, mapped.data, RequiredFields);
  }

  /** The warnings of `validate` depend only on the record's keys. */
  lemma {:induction false} ValidateSameKeys(a: Object, b: Object, fields: seq<string>)
    requires Keys(a) == Keys(b)
    ensures MissingFieldWarnings(a, fields) == MissingFieldWarnings(b, fields)
    ensures ClaimIdWarning(a) == ClaimIdWarning(b)
  {
    if fields != [] {
      ValidateSameKeys(a, b, fields[1..]);
    }
  }

  /** The processor: the record being processed and the warnings logged so far. */
  class LegacyClaimsProcessor {
    const ingestTs: string
    var data: Object
    var warnings: seq<LegacyWarning>

    constructor (ingestTs: string)
      ensures this.ingestTs == ingestTs && data == [] && warnings == []
    {
      this.ingestTs := ingestTs;
      data := [];
      warnings := [];
    }

    /** `validate`: a warning per missing required field, then the claim-id rule. */
    method Validate()
      modifies this`warnings
      ensures warnings == old(warnings) + ValidateWarnings(data)
    {
      WarnMissing(RequiredFields);
      ghost var before := warnings;
      if "patient" !in Keys(data) {
      } else if "id" !in Keys(data) {
        warnings := warnings + [ClaimIdMissing];
      }
      assert warnings == before + ClaimIdWarning(data);
      FieldMappersBase.AppendAssoc(old(warnings), MissingFieldWarnings(data, RequiredFields), ClaimIdWarning(data));
    }

    /** The loop over the required fields: one warning per field that is not a top-level key. */
    method WarnMissing(fields: seq<string>)
      modifies this`warnings
      ensures warnings == old(warnings) + MissingFieldWarnings(data, fields)
    {
      var doc := data;
      assert fields[0..] == fields;
      var i := 0;
      while i < |fields|
        invariant 0 <= i <= |fields|
        invariant old(warnings) + MissingFieldWarnings(doc, fields)
          == warnings + MissingFieldWarnings(doc, fields[i..])
      {
        var field := fields[i];
        assert fields[i..][0] == field && fields[i..][1..] == fields[i + 1..];
        ghost var before := warnings;
        ghost var step: seq<LegacyWarning> := [];
        if field !in Keys(doc) {
          warnings := warnings + [MissingField(field)];
          step := [MissingField(field)];
        }
        FieldMappersBase.AppendAssoc(before, step, MissingFieldWarnings(doc, fields[i + 1..]));
        i := i + 1;
      }
      assert fields[i..] == [];
    }

    /** `map_values`: rewrite the contained patients' names in place, entry by entry. */
    method MapValues() returns (raised: bool)
      modifies this`data
      ensures Step(data, raised) == MapNames(old(data))
    {
      var contained := Lookup(data, "contained");
      if contained.None? {
        return false;
      }
      match contained.value
      case JArray(items) =>
        var shortened;
        shortened, raised := ShortenLoop(items);
        data := Assign(data, "contained", JArray(shortened));
      case JObject(members) =>
        return members != [];
      case JStr(s) =>
        return s != [];
      case _ =>
        return true;
    }

    /** The loop of `map_values` over a `contained` list: the list it leaves and whether an entry raised. */
    method ShortenLoop(items: seq<Json>) returns (current: seq<Json>, raised: bool)
      ensures Entries(current, raised) == ShortenEntries(items)
    {
      current := items;
      assert items[0..] == items;
      var i := 0;
      while i < |items|
        invariant 0 <= i <= |items| && |current| == |items|
        invariant current[i..] == items[i..]
        invariant var rest := ShortenEntries(items[i..]);
          ShortenEntries(items) == Entries(current[..i] + rest.items, rest.raised)
      {
        assert items[i..][0] == items[i] && items[i..][1..] == items[i + 1..];
        ShortenEntriesCons(items[i..]);
        var entry := ShortenEntry(current[i]);
        if entry.None? {
          assert current == current[..i] + items[i..];
          return current, true;
        }
        ghost var done := current[..i];
        current := current[i := entry.value];
        assert current[..i + 1] == done + [entry.value];
        FieldMappersBase.AppendAssoc(done, [entry.value], ShortenEntries(items[i + 1..]).items);
        i := i + 1;
      }
      assert current[..i] == current && items[i..] == [];
      return current, false;
    }

    /**
     * `normalize`: write `billablePeriod.start` and `.end` back through `_normalize_date`, which
     * returns its argument, so the record never changes; a missing part raises.
     */
    method Normalize() returns (raised: bool)
      modifies this`data
      ensures data == old(data)
      ensures raised == NormalizeRaises(data)
    {
      var period := Lookup(data, "billablePeriod");
      if period.None? {
        return false;
      }
      if !period.value.JObject? {
        return true;
      }
      var members := period.value.members;
      if "start" !in Keys(members) {
        return true;
      }
      var start := NormalizeDate(Lookup(members, "start").value);
      AssignSameValue(members, "start");
      members := Assign(members, "start", start);
      AssignSameValue(data, "billablePeriod");
      data := Assign(data, "billablePeriod", JObject(members));
      if "end" !in Keys(members) {
        return true;
      }
      var end := NormalizeDate(Lookup(members, "end").value);
      AssignSameValue(members, "end");
      members := Assign(members, "end", end);
      data := Assign(data, "billablePeriod", JObject(members));
      return false;
    }

    /** `_normalize_date`: dates are assumed to be in the right format already. */
    function NormalizeDate(date: Json): Json
    {
      date
    }

    /** `process`: store the record, then validate, map and normalize it; `None` when an exception escapes. */
    method Process(doc: Object) returns (result: Option<Object>)
      modifies this
      ensures var r := LegacyProcess(doc);
        data == r.record && warnings == old(warnings) + r.warnings
        && result == (if r.raised then None else Some(r.record))
    {
      data := doc;
      Validate();
      var raised := MapValues();
      if raised {
        return None;
      }
      raised := Normalize();
      if raised {
        return None;
      }
      return Some(data);
    }
  }
}
