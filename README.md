# FHIR ingest into the structured zone, modelled in Dafny

This project models the ingest pipeline of fhir-ingest-curamatic. FHIR `Claim` and `Patient`
resources, one JSON object per ndjson line, each pass through a resource processor in three steps:

- `validate` logs a warning for each missing required field and each malformed date or ISO 8601 datetime.
- `map_values` rebuilds the record as a flat row for the structured zone.
- `normalize` cleans enumerated values such as gender.

The driver then upserts the rows into the `claims`/`patients` tables. Each upsert also appends a row
to `claims_history`/`patients_history`. The driver means two quality gates to decide whether a file
is loaded at all:

- The warning rate must stay below 5 %.
- For patients, enough of the file's ids must already appear in the history table.

As written, the warning gate calls a method no processor defines, so the script raises there
(see Findings). The model keeps that behaviour in `Ingest.RunAsWritten` and models the intended
gate everywhere else.

The legacy claims processor under `field_mappers/` is modelled beside the current one. Its `validate`
logs missing fields, its `map_values` shortens contained patients' display names in place, and its
`normalize` rewrites the billing dates, which leaves them unchanged.

Modules, one per source concern:

- `Json`: JSON values with insertion-ordered objects, as Python dicts behave.
  - `Lookup` returns `None` for an absent key.
  - `Field` is `dict.get`.
  - `Assign` is `d[k] = v`: it overwrites in place or appends a new key.
- `Text`: digit strings and their values, and ASCII `lower`/`upper`/`strip`.
- `JsonPath`: `get_value_at_json_path`.
  - `Tokens` is the `re.split` on `.`, `[` and `]` followed by dropping empty strings.
  - `Step` looks up one dict key or list index. List indices may be negative, as in Python.
  - `Resolve` folds `Step` over the tokens.
- `DateChecks`: `validate_date_string` (a 10-character `%Y-%m-%d` calendar date) and
  `validate_datetime_string` (the `ISO8601_MATCH` regular expression, written out as a predicate).
- `FieldMappersBase`: the checks behind `validate` and the mapping tables as data. It has three parts:
  - the required-field scan;
  - the date and datetime scans;
  - `_nested_field_dne`, which never returns `True`.
- `ClaimProcessor` and `PatientProcessor`: `map_values` and `normalize` as functions on records.
- `EnumNormalizer`: `GenderNormalizer.normalize`.
- `ResourceProcessor`: the class `FhirProcessor`. Its fields are the ones `FHIRResourceProcessor`
  updates in place: `data`, `row_num` and the field lists. A further field, `warnings`, records the
  `log_warning` calls, which in the source only write to the log.
  - Each method is proved against the function that states its step.
  - `process` is proved against `ProcessSpec`.
- `LegacyClaimProcessor`: the legacy processor as the class `LegacyClaimsProcessor`, with
  `process` (from the legacy `field_mappers/base.py`) inlined.
- `StructuredZone`: `upsert_claim`, `upsert_patient` and `percent_of_patients_above_threshold`.
  - The four tables are in-memory maps and sequences on a `Store` object.
  - The SELECT/UPDATE/INSERT logic is a pure function per upsert.
  - Rejection by the database is an `accepted` flag, and the transaction then rolls back.
- `Ingest`: the `__main__` block as methods.
  - Processing a whole file is proved equal to a fold over the per-row outcomes.
  - The claims load and the patients load are each proved against their gates.

A Python exception is modelled as a `raised` flag or a `None` result. An exception inside a
processor propagates and stops the program. An exception inside an upsert after the connection
is open is caught and rolls the transaction back; a failure to connect is not modelled (see Left out).
Warnings are a sequence of events rather than log text.

Where the source's own docstrings, comments or tests disagree with its code, the model follows the code:

- `get_value_at_json_path` returns `None` both for a missing path and for a JSON `null`. The model
  returns `JNull` for both.
- The claim `map_values` produces no `claim_id` column. `upsert_claim` reads `claim_details['claim_id']`,
  so every processed claim raises `KeyError` there and is rolled back. `Ingest.IngestClaims` proves
  that the claims tables never change.
- The comparison in `percent_of_patients_above_threshold` divides the threshold by 100, although its
  docstring gives the threshold as a percentage from 0 to 100 (src/structured_zone_transformer.py:194-196)
  and the driver's comment says "above 20%" (line 262). This is modelled as written (`StructuredZone.OverlapAsWritten`) and listed under Findings. The store's
  overlap method and the driver use the corrected comparison instead, which is stricter; see Left out.

## Model

| member | source | states |
|---|---|---|
| JsonPath.TokensAreWords | src/field_mappers/base.py:32-33 | every path token is non-empty and contains no `.`, `[` or `]` |
| JsonPath.TokensAtSeparator | src/field_mappers/base.py:32-33 | splitting at a separator splits the token list: `Tokens(a + [c] + b) == Tokens(a) + Tokens(b)` |
| JsonPath.TokensOfWord | src/field_mappers/base.py:32-33 | a separator-free non-empty key is a single token |
| JsonPath.EquivalentSpellings | src/field_mappers/base.py:32-33 | `a[i].c`, `a.i.c` and `a..i.c` tokenize alike, because empty pieces are dropped |
| JsonPath.StepMisses | src/field_mappers/base.py:36-55 | one step misses exactly when the key is absent from a dict, the token is not an integer, the index is out of range, or the node is a scalar |
| JsonPath.ResolveAppend | src/field_mappers/base.py:36-58 | resolving a concatenated path resolves the first part, then the rest from there; a miss stops the walk |
| JsonPath.AbsentHeadMisses | src/field_mappers/base.py:48-51 | a path whose first key is absent from the document yields null |
| JsonPath.KeyPath | src/field_mappers/base.py:48-52 | a plain key resolves to `dict.get(key)` |
| JsonPath.DottedKeyPath | src/field_mappers/base.py:48-52 | `outer.inner` resolves to the inner dict's value |
| JsonPath.EmptyPathIsDocument | src/field_mappers/base.py:32-33 | a path made only of separators returns the whole document |
| JsonPath.ParseDecimal | src/field_mappers/base.py:40 | `int()` reads back the decimal text of n and of -n |
| JsonPath.IndexFromFront | src/field_mappers/base.py:37-47 | index k selects item k when it is in range, otherwise it misses |
| JsonPath.IndexFromEnd | src/field_mappers/base.py:40-41 | index -k selects item `len-k` when `k <= len`, as Python's negative indices do |
| JsonPath.NestedDictExample | tests/field_mappers/test_traverse_json.py:3-5 | `person.name` in the test document is `"John"` |
| JsonPath.NestedListExample | tests/field_mappers/test_traverse_json.py:7-14 | `users[0].age` in the test document is `30` |
| JsonPath.EmptyDictExample | src/field_mappers/base.py:48-51 | `a.b` on an empty dict is a miss |
| DateChecks.FormatDateRoundTrip | src/field_mappers/base.py:121 | a formatted date reads back its year, month and day; it is a valid date iff year ≥ 1, month 1-12 and day within the month (leap years included) |
| DateChecks.CalendarDateIsFormatted | src/field_mappers/base.py:118-121 | every string accepted as `%Y-%m-%d` is the formatting of its own fields, so accepted dates are exactly formatted valid dates |
| DateChecks.DateCheckOnString | src/field_mappers/base.py:114-126 | a non-empty string value warns iff it is not a calendar date |
| DateChecks.CalendarExamples | src/field_mappers/base.py:121 | 2022-02-30 and 1900-02-29 and year 0 are rejected; 2022-01-01 and 2024-02-29 are accepted |
| DateChecks.MalformedDatesWarn | src/field_mappers/base.py:118-121 | `01-2022-01`, `2022-1-1` and `MM-YY` are rejected |
| DateChecks.FormattedDateTimeMatches | src/field_mappers/base.py:8-12 | every `YYYY-MM-DDTHH:MM:SSZ` with fields in range matches the ISO 8601 pattern |
| DateChecks.SignedYearMatches | src/field_mappers/base.py:9 | a leading `-` on the year is accepted |
| DateChecks.LongYearMatches | src/field_mappers/base.py:9 | a fifth year digit is accepted iff it is not a leading zero |
| DateChecks.BadHourWarns | src/field_mappers/base.py:133-141 | a value with hour `AA` logs the ISO 8601 warning |
| DateChecks.BadHourNoMatch | src/field_mappers/base.py:8-12 | the pattern rejects hour `AA` |
| FieldMappersBase.NestedFieldDne | src/field_mappers/base.py:86-91 | `_nested_field_dne` never returns `True` |
| FieldMappersBase.RequiredFieldWarningsExact | src/field_mappers/base.py:100-102 | a missing-field warning is logged for field f iff f is required and not a top-level key |
| FieldMappersBase.NoWarningsWhenAllPresent | src/field_mappers/base.py:100-102 | no warning when every required field is present |
| FieldMappersBase.DateFieldsEffectExact | src/field_mappers/base.py:81-82 | the date scan raises iff some field's check raises; otherwise it warns for a key iff the key is a date field whose check warns |
| FieldMappersBase.DatetimeFieldsWarningsExact | src/field_mappers/base.py:83-84 | the datetime scan warns for a key iff it is a datetime field whose value fails the pattern |
| FieldMappersBase.DateWarningKinds | src/field_mappers/base.py:77-84 | `validate_dates` logs only date and datetime warnings |
| FieldMappersBase.DateFieldsKinds | src/field_mappers/base.py:81-82 | the date scan logs only date warnings |
| FieldMappersBase.ValidateEffectWarnsMissing | src/field_mappers/base.py:93-104 | `validate` logs a missing-field warning iff the field is required and absent, even when a date check raises later |
| ClaimProcessor.MapEntriesRaises | src/field_mappers/claim_processor.py:45-51 | the mapping loop raises iff it reaches `admitting_diagnosis` and the diagnosis type is neither null nor a string (`.lower()` fails) |
| ClaimProcessor.MapEntriesWarnings | src/field_mappers/claim_processor.py:41-44 | one missing-value warning per visited entry whose source resolves to null, up to the raise if there is one |
| ClaimProcessor.MapEntriesPreserves | src/field_mappers/claim_processor.py:41-52 | keys that no entry targets keep their value |
| ClaimProcessor.MapEntriesValue | src/field_mappers/claim_processor.py:41-52 | each destination holds its resolved value, or null for a non-admitting diagnosis |
| ClaimProcessor.MapEntriesKeys | src/field_mappers/claim_processor.py:38-52 | the row's keys are the seed keys followed by the destinations in mapping order |
| ClaimProcessor.MappingDistinct | src/field_mappers/claim_processor.py:28-37 | the mapping's destinations are distinct |
| ClaimProcessor.MappingDests | src/field_mappers/claim_processor.py:28-40 | the destinations are the mapped row's columns after `origin` |
| ClaimProcessor.ClaimIdNotMapped | src/field_mappers/claim_processor.py:28-37 | `claim_id` and `created` are not columns of a mapped claim |
| ClaimProcessor.ClaimMappedKeys | src/field_mappers/claim_processor.py:28-53 | a mapped claim has exactly `origin` and the eight mapped columns, and no `claim_id` |
| ClaimProcessor.ClaimMappedOrigin | src/field_mappers/claim_processor.py:38-40 | `origin` is the processor's origin |
| ClaimProcessor.ClaimMappedValues | src/field_mappers/claim_processor.py:41-52 | every column except `admitting_diagnosis` is the value at its FHIR path |
| ClaimProcessor.ClaimMappedWarnings | src/field_mappers/claim_processor.py:41-44 | the warnings are the null lookups of all entries, or of the first five when the mapping raises |
| ClaimProcessor.AdmittingRule | src/field_mappers/claim_processor.py:45-52 | raises iff the diagnosis type is neither null nor a string; otherwise the admitting diagnosis is the code when the type lower-cases to `admitting`, else null |
| ClaimProcessor.NoDiagnosisType | src/field_mappers/claim_processor.py:47 | without `diagnosis` the type check finds no type |
| ClaimProcessor.NullTypeNoRaise | src/field_mappers/claim_processor.py:47-51 | a missing diagnosis type does not raise and stores null |
| ClaimProcessor.NoDiagnosisNoRaise | src/field_mappers/claim_processor.py:45-51 | a claim without `diagnosis` maps without raising, with a null admitting diagnosis |
| ClaimProcessor.MissingPatientReferenceIsNull | tests/field_mappers/test_fhir_claim_processor.py:12-21 | without `patient` the row's `patient_id` is null |
| ClaimProcessor.MissingPatientReferenceWarns | src/field_mappers/claim_processor.py:42-44 | without `patient` a missing-value warning names `patient_id` and `patient.reference` |
| ClaimProcessor.ClaimNormalizeEffect | src/field_mappers/claim_processor.py:56-60 | keeps every key; rewrites only `gender` (normalized) and `diagnosis` (upper-cased); raises iff either is present and not a string |
| ClaimProcessor.GenderExample | tests/field_mappers/test_fhir_claim_processor.py:23-31 | gender `M` normalizes to `Male` |
| ClaimProcessor.MappedClaimNormalizesToItself | src/field_mappers/claim_processor.py:53-60 | `normalize` leaves a mapped claim unchanged and does not raise |
| ClaimProcessor.NormalizedKeysNotMapped | src/field_mappers/claim_processor.py:28-40 | `gender` and `diagnosis` are not mapped columns |
| PatientProcessor.AssignEntriesPreserves | src/field_mappers/patient_processor.py:34-35 | keys no entry targets keep their value |
| PatientProcessor.AssignEntriesValue | src/field_mappers/patient_processor.py:34-35 | each destination holds the value at its source path |
| PatientProcessor.AssignEntriesKeys | src/field_mappers/patient_processor.py:31-35 | the keys are the seed keys followed by the destinations |
| PatientProcessor.MappingDistinct | src/field_mappers/patient_processor.py:26-30 | the destinations are distinct and none is `origin` |
| PatientProcessor.MappingDests | src/field_mappers/patient_processor.py:26-33 | the destinations are the mapped row's columns after `origin` |
| PatientProcessor.PatientMappedKeys | src/field_mappers/patient_processor.py:26-36 | a mapped patient has exactly `origin`, `first_name`, `last_name`, `patient_id` |
| PatientProcessor.PatientMappedValues | src/field_mappers/patient_processor.py:31-35 | `origin` is the processor's origin, and each column is the value at its FHIR path |
| PatientProcessor.MissingIdIsNull | src/field_mappers/patient_processor.py:29-35 | without `id` the `patient_id` column is null |
| PatientProcessor.MissingIdWarns | tests/field_mappers/test_fhir_patient_processor.py:24-31 | without `id` validate logs the missing-field warning for `id` |
| PatientProcessor.AllRequiredPresent | tests/field_mappers/test_fhir_patient_processor.py:12-21 | with `name` and `id` present no missing-field warning is logged |
| PatientProcessor.MalformedBirthDateWarns | tests/field_mappers/test_fhir_patient_processor.py:34-39 | `birthDate` `MM-YY` yields exactly one invalid-date warning and no raise |
| PatientProcessor.MalformedLastUpdatedWarns | tests/field_mappers/test_fhir_patient_processor.py:42-47 | `meta.lastUpdated` with hour `AA` yields exactly one invalid-datetime warning |
| EnumNormalizer.StripIgnoresPadding | src/normalizers/enum_normalizer.py:24 | `strip` removes any surrounding whitespace |
| EnumNormalizer.CaseInsensitive | src/normalizers/enum_normalizer.py:24 | inputs equal up to case normalize alike |
| EnumNormalizer.PaddingInsensitive | src/normalizers/enum_normalizer.py:24 | inputs equal up to surrounding whitespace normalize alike |
| EnumNormalizer.Idempotent | src/normalizers/enum_normalizer.py:24-32 | normalizing a normalized label gives the same label |
| EnumNormalizer.Aliases | src/normalizers/enum_normalizer.py:27-30 | the four male spellings give `Male` and the four female spellings give `Female`, in any case |
| EnumNormalizer.Examples | src/normalizers/enum_normalizer.py:27-32 | `male` (normalizers/tests/test_enum_normalizer.py:10-11) and `M` (tests/field_mappers/test_fhir_claim_processor.py:23-31) give `Male`; a value matching no alias, such as `unknown`, gives `Other` |
| ResourceProcessor.FhirProcessor.constructor | src/field_mappers/base.py:62-75 | empty data, row 0, origin 1, no warnings, and the field lists of the processor kind |
| ResourceProcessor.FhirProcessor.LogWarning | src/field_mappers/base.py:106-107 | appends one warning tagged with the row |
| ResourceProcessor.FhirProcessor.CheckRequiredFields | src/field_mappers/base.py:100-102 | appends the required-field warnings |
| ResourceProcessor.FhirProcessor.ValidateDates | src/field_mappers/base.py:77-84 | appends the date and datetime warnings; raises as the date scan does |
| ResourceProcessor.FhirProcessor.CheckDateFields | src/field_mappers/base.py:81-82 | runs the date scan over the fields, stopping at a raise |
| ResourceProcessor.FhirProcessor.CheckDatetimeFields | src/field_mappers/base.py:83-84 | runs the datetime scan over the fields |
| ResourceProcessor.FhirProcessor.CheckDatetimeField | src/field_mappers/base.py:128-141 | logs the datetime warning of one field |
| ResourceProcessor.FhirProcessor.ValidateBase | src/field_mappers/base.py:93-104 | the base `validate`: required fields, then dates |
| ResourceProcessor.FhirProcessor.CheckResourceType | src/field_mappers/claim_processor.py:21-22 | raises when `resourceType` is absent or not a string, and warns when it is not `claim` in any case |
| ResourceProcessor.FhirProcessor.Validate | src/field_mappers/claim_processor.py:19-22 | the kind's `validate`: the base checks, then for claims the resource-type check |
| ResourceProcessor.FhirProcessor.MapClaimValues | src/field_mappers/claim_processor.py:23-53 | replaces `data` with the mapped claim, or leaves it when the mapping raises |
| ResourceProcessor.FhirProcessor.ClaimMappingLoop | src/field_mappers/claim_processor.py:41-52 | the loop computes the mapping's row, warnings and raise |
| ResourceProcessor.FhirProcessor.ClaimMappingStep | src/field_mappers/claim_processor.py:42-52 | one loop iteration: the warning it logs, the assignment, or the raise |
| ResourceProcessor.FhirProcessor.MapPatientValues | src/field_mappers/patient_processor.py:21-36 | replaces `data` with the mapped patient |
| ResourceProcessor.FhirProcessor.PatientMappingLoop | src/field_mappers/patient_processor.py:34-35 | the loop computes the mapped row |
| ResourceProcessor.FhirProcessor.NormalizeClaim | src/field_mappers/claim_processor.py:56-60 | applies the claim `normalize` to `data` |
| ResourceProcessor.FhirProcessor.MapValues | src/field_mappers/base.py:173 | dispatches `map_values` on the processor kind |
| ResourceProcessor.FhirProcessor.NormalizeValues | src/field_mappers/base.py:174 | dispatches `normalize`; the patient `normalize` does nothing |
| ResourceProcessor.FhirProcessor.Process | src/field_mappers/base.py:166-175 | `process` sets data and row, runs validate, map and normalize, stops at the first raise; result, data, row and warnings follow `ProcessSpec` |
| ResourceProcessor.ValidateWarnsMissing | src/field_mappers/base.py:100-102 | for either kind, a missing-field warning is logged iff the field is required and absent |
| ResourceProcessor.ValidateRaisesFirst | src/field_mappers/base.py:172-174 | when `validate` raises, `process` stops with the input data and validate's warnings |
| ResourceProcessor.ClaimValidateRaises | src/field_mappers/claim_processor.py:19-22 | a claim without `resourceType` raises in `validate`, whatever its other fields |
| ResourceProcessor.WrongResourceTypeWarns | src/field_mappers/claim_processor.py:21-22 | a string `resourceType` other than `claim` in any case ends validate with the wrong-type warning |
| ResourceProcessor.ProcessedClaim | src/field_mappers/claim_processor.py:38-53 | a processed claim is the mapped row, with exactly the mapped keys, no `claim_id`, and the processor's origin |
| ResourceProcessor.ProcessedPatient | src/field_mappers/patient_processor.py:21-40 | a patient raises and warns as its `validate`; otherwise it is the mapped row with the mapped keys |
| ResourceProcessor.PatientWithoutIdWarns | tests/field_mappers/test_fhir_patient_processor.py:24-31 | processing a patient always logs the missing-`id` warning when `id` is absent |
| LegacyClaimProcessor.MissingFieldWarningsExact | field_mappers/claim_processor.py:19-21 | a warning for f iff f is listed and absent; at most one per field |
| LegacyClaimProcessor.ValidateWarnsMissing | field_mappers/claim_processor.py:17-21 | `validate` warns for f iff f is one of the twelve required fields and absent |
| LegacyClaimProcessor.ClaimIdRule | field_mappers/claim_processor.py:23-27 | the claim-id warning appears iff `patient` is present and `id` is absent; at most 13 warnings |
| LegacyClaimProcessor.Head | field_mappers/claim_processor.py:40 | `s[:n]` is the prefix of length `min(len, n)` |
| LegacyClaimProcessor.ShortName | field_mappers/claim_processor.py:40 | the display name is at most 27 characters, and it is `given, family` unchanged when both are short |
| LegacyClaimProcessor.ShortNameExample | field_mappers/claim_processor.py:40 | a long name is cut to 10 and 15 characters |
| LegacyClaimProcessor.ShortenEntries | field_mappers/claim_processor.py:38-40 | the loop keeps the number of contained entries |
| LegacyClaimProcessor.ShortenPatientEntry | field_mappers/claim_processor.py:39-40 | a patient entry is rewritten iff its name parts exist; only `name[0].text` changes, to at most 27 characters |
| LegacyClaimProcessor.OtherEntryUnchanged | field_mappers/claim_processor.py:39 | a non-patient entry is left as it is |
| LegacyClaimProcessor.ShortenEntryIdempotent | field_mappers/claim_processor.py:40 | shortening an entry twice is shortening it once |
| LegacyClaimProcessor.ShortenEntriesIdempotent | field_mappers/claim_processor.py:38-40 | the loop is idempotent |
| LegacyClaimProcessor.MapNamesIdempotent | field_mappers/claim_processor.py:38-40 | `map_values` applied twice equals once |
| LegacyClaimProcessor.MapNamesFrame | field_mappers/claim_processor.py:38-40 | `map_values` keeps the record's keys and changes nothing outside `contained` |
| LegacyClaimProcessor.NoContainedNoChange | field_mappers/claim_processor.py:38 | without `contained` the record is unchanged and nothing raises |
| LegacyClaimProcessor.NoPatientsUnchanged | field_mappers/claim_processor.py:38-39 | contained entries that are not patients are left unchanged |
| LegacyClaimProcessor.ProcessStable | field_mappers/base.py:44-52 | a record that processes without raising is a fixed point of `process`, with the same warnings |
| LegacyClaimProcessor.ValidateSameKeys | field_mappers/claim_processor.py:19-27 | `validate`'s warnings depend only on the record's keys |
| LegacyClaimProcessor.LegacyClaimsProcessor.constructor | field_mappers/base.py:2-10 | keeps the ingest timestamp, with empty data |
| LegacyClaimProcessor.LegacyClaimsProcessor.Validate | field_mappers/claim_processor.py:10-27 | appends `validate`'s warnings |
| LegacyClaimProcessor.LegacyClaimsProcessor.WarnMissing | field_mappers/claim_processor.py:19-21 | appends one warning per absent listed field |
| LegacyClaimProcessor.LegacyClaimsProcessor.MapValues | field_mappers/claim_processor.py:31-40 | rewrites `data` as the name-shortening step does, or raises |
| LegacyClaimProcessor.LegacyClaimsProcessor.ShortenLoop | field_mappers/claim_processor.py:38-40 | the loop over contained entries computes the shortened entries |
| LegacyClaimProcessor.LegacyClaimsProcessor.Normalize | field_mappers/claim_processor.py:44-55 | leaves `data` unchanged; raises iff `billablePeriod` is present without a dict holding `start` and `end` |
| LegacyClaimProcessor.LegacyClaimsProcessor.Process | field_mappers/base.py:44-52 | validate, map, normalize: data, warnings and result follow `LegacyProcess` |
| StructuredZone.ClaimUpsertAppends | src/structured_zone_transformer.py:120-144 | an upsert appends exactly one history row when the claim is readable and accepted, keeps the old history as a prefix, and otherwise changes nothing |
| StructuredZone.ClaimHistoryCoversCurrent | src/structured_zone_transformer.py:120-138 | the current table never outgrows the history table |
| StructuredZone.ClaimUpsertKeyed | src/structured_zone_transformer.py:107-128 | every current row stays stored under its own claim id |
| StructuredZone.ClaimUpdateRule | src/structured_zone_transformer.py:107-135 | an update keeps patient and billing columns, takes the new provider, diagnosis, insurance, status and amount, stamps `now`, logs the old insert time, and leaves other claims alone |
| StructuredZone.ClaimInsertRule | src/structured_zone_transformer.py:103-135 | an insert adds the row under the new id, and history gets one row whose insert and change times are both `now` |
| StructuredZone.ClaimUpsertTwice | src/structured_zone_transformer.py:103-135 | upserting a new claim twice leaves one current row with the second time and two history rows that chain the times |
| StructuredZone.NoClaimIdNoChange | src/structured_zone_transformer.py:86 | a record without `claim_id` raises and rolls back, so no table changes |
| StructuredZone.PatientUpsertAppends | src/structured_zone_transformer.py:159-184 | one history row per accepted upsert, with the old history kept as a prefix |
| StructuredZone.PatientHistoryCoversCurrent | src/structured_zone_transformer.py:166-180 | the current table never outgrows the history table |
| StructuredZone.PatientUpsertKeyed | src/structured_zone_transformer.py:153-172 | every current row stays stored under its own patient id |
| StructuredZone.PatientUpdateRule | src/structured_zone_transformer.py:153-178 | an update takes the new names, stamps `now`, logs the old insert time, leaves every other patient's row as it was, and keeps the same ids |
| StructuredZone.PatientUpsertTwice | src/structured_zone_transformer.py:153-178 | upserting a new patient twice leaves one row and two chained history rows |
| StructuredZone.MatchingRows | src/structured_zone_transformer.py:212-216 | the count of matching history rows never exceeds the history size |
| StructuredZone.MatchingRowsAppend | src/structured_zone_transformer.py:212-216 | the count is additive over history |
| StructuredZone.OverlapAsWritten | src/structured_zone_transformer.py:206-225 | raises exactly when history is non-empty and the id list is empty |
| StructuredZone.OverlapGate | src/structured_zone_transformer.py:192-225 | the corrected gate fails exactly as the source does |
| StructuredZone.OverlapAsWrittenMeans | src/structured_zone_transformer.py:221-225 | as written, the gate compares the matching percentage with `threshold / 100` |
| StructuredZone.OverlapGateMeans | src/structured_zone_transformer.py:192-198 | the corrected gate holds iff the matching percentage exceeds `threshold` |
| StructuredZone.OverlapThresholdScaled | src/structured_zone_transformer.py:221-225 | with 1 match among 100 ids and threshold 20, the source lets the file through and the corrected gate does not |
| StructuredZone.OverlapTests | tests/structured_zone_transformer_test.py:66-103 | both versions pass 2 of 3 at 33, fail 0 of 3 at 100, and pass on an empty history |
| StructuredZone.OverlapGateStricter | src/structured_zone_transformer.py:221-225 | the corrected gate raises exactly when the source does, and every batch it passes the source passes too |
| StructuredZone.OverlapGateMonotone | src/structured_zone_transformer.py:221-225 | more matches or a lower threshold keep a passing gate passing |
| StructuredZone.WarningsBelowThresholdMeans | tests/field_mappers/test_base.py:10-18 | a batch of no rows passes; otherwise the warning gate holds iff warnings are under `threshold` percent of rows |
| StructuredZone.WarningsThresholdTests | tests/field_mappers/test_base.py:10-18 | the four cases of the parametrized test, and a batch of no rows passing |
| StructuredZone.Store.UpsertClaim | src/structured_zone_transformer.py:74-144 | the claim tables become the upsert of the record |
| StructuredZone.Store.UpsertPatient | src/structured_zone_transformer.py:146-189 | the patient tables become the upsert of the values; `origin` is ignored |
| StructuredZone.Store.PercentOfPatientsAboveThreshold | src/structured_zone_transformer.py:192-228 | the counting loop over history returns the corrected overlap gate |
| Ingest.PatientIds | src/structured_zone_transformer.py:259 | one id per processed row, each the row's `patient_id` |
| Ingest.RaisedStaysRaised | src/structured_zone_transformer.py:239-241 | once a row raises, the file's processing has failed |
| Ingest.CompletedRecords | src/structured_zone_transformer.py:237-241 | a file completes iff no row raises, and its output lists every row's record in order |
| Ingest.ProcessedClaimsLackId | src/structured_zone_transformer.py:239-241 | no processed claim carries `claim_id` |
| Ingest.ProcessedPatientsHaveKeys | src/structured_zone_transformer.py:257-260 | every processed patient has exactly the four keys `upsert_patient(**…)` takes |
| Ingest.ClaimsNeverLand | src/structured_zone_transformer.py:243-244 | upserting rows that lack `claim_id` leaves the claim tables unchanged |
| Ingest.PatientBatchAppends | src/structured_zone_transformer.py:266-267 | a patient batch appends one history row per accepted upsert, keeps the prefix, and preserves keying and the size bound |
| Ingest.ProcessRows | src/structured_zone_transformer.py:237-260 | the processing loop returns the file's processed rows, or fails, and the collected patient ids |
| Ingest.RowLoop | src/structured_zone_transformer.py:239-241 | the loop's output is the fold over the per-row outcomes |
| Ingest.ProcessRow | src/structured_zone_transformer.py:240 | one `process` call yields its row's outcome |
| Ingest.AppendRow | src/structured_zone_transformer.py:259-260 | appending a row keeps the ids list in step with the output |
| Ingest.IngestClaims | src/structured_zone_transformer.py:236-246 | claims are upserted only when processing completes and the warning gate passes, and in fact the claim tables never change |
| Ingest.IngestPatients | src/structured_zone_transformer.py:253-269 | patients are upserted only when the overlap gate and the warning gate both pass; a failing overlap query stops the run |
| Ingest.RunCompletes | src/structured_zone_transformer.py:231-269 | the intended script runs to its end exactly when both files process and the overlap query does not raise |
| Ingest.Run | src/structured_zone_transformer.py:231-269 | the claim tables never change; `completed` is `RunCompletes`; a claim that raises stops the run before any patient is loaded; otherwise the patient tables and `completed` are those of the patients half over the patient file |
| Ingest.RunAsWritten | src/structured_zone_transformer.py:236-242 | as written, the script never completes and leaves both tables unchanged: processing raises, or the undefined warning gate does |
| Ingest.UndefinedGateDiscrepancy | src/structured_zone_transformer.py:242 | on a first load where every row of both files processes, the intended script completes, while the script as written does not |

## Left out

- File, environment and database I/O are not modelled: `load_fhir_data`, `write_to_file`, `write_to_db`, connection dictionaries and credentials. The tables are in-memory values on `Store`.
- SQL text, cursors and connection lifecycle are replaced by the function each statement computes. A statement the database rejects after the connection is open, such as a NOT NULL violation, is the `accepted = false` case, which rolls back.
- A failure to connect is not modelled. In the source it ends the script, with no later claims and no patient half: `upsert_claim` connects outside its `try` (src/structured_zone_transformer.py:82), and `upsert_patient`'s handler calls `conn.rollback()` on an unbound `conn` (lines 149 and 183), which raises again. `Ingest.Run` assumes every connection opens.
- Ids that are JSON `null` are not modelled faithfully. The source's lookups `WHERE claim_id = %s` and `WHERE patient_id = %s` (src/structured_zone_transformer.py:98 and 153) never match a SQL NULL, so each such upsert would insert afresh, while the model's map keys `JNull` like any other id. Under a NOT NULL key column the insert is refused, which is the `accepts` parameter being false for those rows.
- `datetime.now()` is a parameter (`now`, or a per-row `clock`); database acceptance is a per-row `accepts` parameter.
- `str()` of ids and the quoting in the SQL `IN` list are not modelled; ids are compared as JSON values.
- The float division in `percent_of_patients_above_threshold` is replaced by exact integer comparison; rounding of the float quotient is not modelled.
- `total_warnings_below_threshold` is called (src/structured_zone_transformer.py:242 and 265) but no processor class defines it, so as written the script raises `AttributeError` at line 242 once the claim rows are processed: no claim is upserted and the patient file is never read (`Ingest.RunAsWritten`, see Findings). Ingest.IngestClaims, Ingest.IngestPatients and Ingest.Run model the intended gate instead, taken from tests/field_mappers/test_base.py:10-18 as `warnings / rows * 100 < threshold`; a batch of no rows passes, since an empty batch has nothing to flag and the test has no zero-row case. The warning and row totals are parameters of the driver because the processors keep no counter.
- Log text, log levels and `LOG.info` messages are not modelled; warnings are events carrying the row, field or key.
- StructuredZone.Store.PercentOfPatientsAboveThreshold: returns the corrected comparison `percentage > threshold`, not the source's `percentage > threshold / 100` (see Findings). Both raise on the same inputs, and `OverlapGateStricter` proves that every batch the corrected comparison passes, the source passes too. A batch whose overlap lies between `threshold / 100` and `threshold` percent, such as 1 of 100 ids at threshold 20, passes in the source and fails here.
- Ingest.IngestPatients: gates on that corrected comparison, so a batch in that band is loaded by the source and left out of the patient tables by the model.
- Ingest.Run: inherits the corrected patient gate from `IngestPatients`.
- `ingest_ts` is stored but never used by the processors, so it plays no part.
- Exception classes (`KeyError`, `TypeError`, `AttributeError`, `ValueError`) are not distinguished: each is a raise.
- `lower`, `upper` and `strip` are ASCII-only; `int()` accepts an optional `+` or `-` and ASCII digits only (no underscores, surrounding whitespace or non-ASCII digits); `strptime` is modelled for the 10-character `%Y-%m-%d` form only.
- DateChecks.IsCalendarDate: `strptime(s, '%Y-%m-%d')` also accepts a space-padded day (`2022-01- 5` passes with no warning) and non-ASCII decimal digits; the model rejects both, so `DateCheckOnString` warns on them where the source does not.
- DateChecks.Iso8601Match: the regular expression's `$` also matches before a final newline, so `ISO8601_MATCH` accepts `2022-01-01T00:00:00Z` followed by `\n`; the model rejects it, so the modelled `validate_datetime_string` warns on it where the source does not.
- JSON parsing of ndjson lines is not modelled; records arrive as JSON objects, and a line holding a non-object JSON value is not modelled. Floats are opaque values.
- LegacyClaimProcessor.NameParts: a `given` item or `family` that is a list is formatted by Python's f-string as the list's text; the model treats it as raising.
- LegacyClaimProcessor.LegacyClaimsProcessor.MapValues: the in-place mutation of the caller's dict (aliasing) is modelled on values; the record after the call is the same as the model's.
- The legacy `_normalize_date` is the identity and is inlined into `Normalize`.
- `structured_zone_transformer.py` at the repository root, `src/structured_zone_validations.py` and `src/common/utils.py` are not part of this model.

## Findings

| source | as written | input that shows it | evidently intended | confidence | as-written member | corrected member |
|---|---|---|---|---|---|---|
| src/structured_zone_transformer.py:221-225 | `percentage > (threshold / 100)` compares a 0-100 percentage with the threshold divided by 100 | non-empty history, 1 of 100 ids already seen, `threshold=20`: returns True at 1 % | `percentage > threshold`, as the docstring's 0-100 range and the "above 20%" comment say | not executed; high | StructuredZone.OverlapThresholdScaled | StructuredZone.OverlapGate |
| src/structured_zone_transformer.py:242 and 265 | `processor.total_warnings_below_threshold(5)` calls a method that neither processor class nor `FHIRResourceProcessor` defines, so it raises `AttributeError` | any claim file whose rows all process (for instance an empty one): the script stops at line 242 with nothing upserted and the patient file unread | the warning-rate gate of tests/field_mappers/test_base.py:10-18, `warnings / rows * 100 < threshold` | not executed; high | Ingest.RunAsWritten | Ingest.Run |
