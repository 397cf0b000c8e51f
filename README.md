# ahnung schema engine, modelled in Dafny

ahnung turns schema-less, nested documents (MongoDB extended JSON) into
fixed-schema rows for machine learning. This project models and proves the
core of that engine:

- **Value classification and coercion** (`TypeUtils`, type_utils.dfy).
  - `ahnungTypeAndValue` / `ahnungType` classify a raw value as int, float, string, date, dict or unknown.
  - A Python bool is classified as int, as `isinstance(True, int)` makes it, and is kept as a bool.
  - They unwrap the single-key wrappers `$numberInt`, `$numberLong`, `$numberDouble` and `$date`.
  - The `convert_*` helpers fall back to a default and raise a failure counter instead of raising an exception.
- **Flattening** (`Flattening`, flattening.dfy).
  - `flattenDoc` walks a nested document and writes each scalar's canonical value into a flat dict under its dotted path.
  - It skips `_id` at every level and drops unknown values.
  - The walk is specified once, as the sequence of scalars it meets (`Observations`).
- **Corpus statistics** (`Statistics`, statistics.dfy).
  - `count_attrpath`, `incr_attr_type`, `incr_attr_value` and `analyzeDoc` keep one record per path.
  - A record holds a presence count, a type histogram (with its insertion order), a value histogram keyed by `str(value)`, a running mode, and counts of strings that `int()` or `float()` accept.
  - The schema table and the flat document are classes updated in place.
- **Schema decision** (`Validation`, validation.dfy).
  - `validateSchemaTypes` decides per path: keep it (type, Numerical/Categorical sense, mode, label encoder) or reject it (reason and counts).
  - It rewrites each record's type histogram and distinct-value count in place.
- **Median and mean** (`Numerics`, numerics.dfy).
  - `calcAttrMedianMeanInt` / `calcAttrMedianMeanFloat` rebuild the list of values a histogram counted.
  - numpy's median and mean over that list are modelled on exact reals, NaN on an empty list.
- **Defaults** (`Defaults`, defaults.dfy).
  - `calcDefaultVals`, `calcPathDefaultNumerical` and `calcPathDefaultCategorical` pick one fill value per kept path.
  - A categorical path fetches its label encoder from the estimator vehicle by direct dict indexing, so a categorical path without one raises KeyError.
  - Validation registers no encoder for the target of an estimator that is neither a regression nor a classification, so its target raises there.
- **Record normalisation** (`Cleanup`, cleanup.dfy).
  - `normalizeToList` aligns a flattened record to an ordered path list.
  - It fills defaults and converts mismatched types.
  - It rejects the record when the target is missing, a value is unclassifiable, or more than `1 + n // 10` defaults were used.

Python built-ins are parameters: `int()` and `float()` on strings, `datetime.fromisoformat`, `str()`, and `LabelEncoder.fit`.
They are gathered in the datatype `TypeUtils.Py`. `TypeUtils.Wf` states the few facts the proofs rely on:
- `float()` accepts every string `int()` accepts;
- `str()` of a string is that string;
- `int(str(i)) == i`;
- `fit` enumerates its labels without duplicates.

Loops over Python dicts whose order cannot matter (validateSchemaTypes, calcDefaultVals, calcAttrMedianMean*) pick keys in an unspecified order. Document walks keep document order, which decides which of two colliding paths wins.

## Model

| member | source | states |
|---|---|---|
| TypeUtils.Trunc | schema/type_utils.py:98 | `int()` of a float truncates toward zero: the result is within one of the float, on the side of zero |
| TypeUtils.ConvertInt | schema/type_utils.py:94-104 | an unchanged counter means an int result; a raised counter means exactly `(default, counter + 1)`; an int passes through; a bool becomes 1 or 0; a float becomes its truncation toward zero; a string succeeds iff `int()` parses it, with the parsed value; any other value fails |
| TypeUtils.ConvertFloat | schema/type_utils.py:110-120 | an unchanged counter means a float result, otherwise `(default, counter + 1)`; a float passes through, an int becomes its float, a bool 1.0 or 0.0; a string succeeds iff `float()` parses it, with the parsed value; any other value fails |
| TypeUtils.ConvertDate | schema/type_utils.py:126-145 | the counter moves by at most one and only together with `default`; a value that is neither str nor dict gives `default` with the counter unchanged; a str succeeds iff fromisoformat parses it, with the parsed date; a dict that is not a sole `$numberLong` pair fails; a `$numberLong` int timestamp becomes that date, a float one the date of its floor, any other payload fails |
| TypeUtils.ConvertString | schema/type_utils.py:151-161 | never moves the counter and always gives a string; a string is returned as itself |
| TypeUtils.AhnungType | schema/type_utils.py:168-194 | always equals the type component of `AhnungTypeAndValue`, for every choice of built-ins |
| TypeUtils.AhnungTypeAndValue | schema/type_utils.py:200-232 | int and bool are int, float is float and str is string, each returned unchanged; any other non-dict value is unknown and unchanged; a dict that is not a marker wrapper is a dict and unchanged; a wrapper's marker decides the type; an int or float wrapper carries the `int()` / `float()` of its payload, or MISSING_INT / MISSING_FLOAT when that fails; a `$date` wrapper carries convert_date of its payload with MISSING_DATE, which is MISSING_DATE when the conversion fails or the payload is neither str nor dict; each type's value has that type's shape; the type is never long |
| TypeUtils.CanonicalValueReclassifies | schema/type_utils.py:200-232 | the canonical value of an int, float or string classifies to the same pair again; a date's canonical value (a datetime) classifies as unknown |
| TypeUtils.AhnungTypeAndValueAsWritten | schema/type_utils.py:212-218 | as written for Python 3: raises exactly on one-pair dicts, and otherwise agrees with `AhnungTypeAndValue` |
| TypeUtils.AhnungTypeAsWritten | schema/type_utils.py:178-183 | as written for Python 3: raises exactly on one-pair dicts, and otherwise agrees with `AhnungType` |
| TypeUtils.ConvertDateAsWritten | schema/type_utils.py:132-143 | as written: every dict gives `(default, counter + 1)`, because the caught TypeError hides the `$numberLong` branch; any other value is handled as `ConvertDate` handles it |
| TypeUtils.SingleFieldDocumentAsWritten | schema/type_utils.py:214-230 | `{"city": "Oslo"}` crashes the classifier as written but is a plain dict for the corrected one; `{"$numberInt": 7}` crashes `ahnungType` as written but unwraps to `(int, 7)` |
| TypeUtils.NumberLongDateAsWritten | schema/type_utils.py:133-137 | a `$numberLong` timestamp never becomes a date as written, and always does in the corrected convert_date |
| Flattening.ObservationsWellFormed | schema/schema_analysis.py:26-46 | every scalar the walk records has a scalar type and the classifier's canonical value; its path is the keys joined with `.` under the prefix (the key alone at top level); no key on its way down, at any level, is `_id` |
| Flattening.VisitWellFormed | schema/schema_analysis.py:30-46 | the same, for one key/value pair: `_id` and values of unknown type give nothing; a scalar gives exactly one observation, its canonical value under the joined path; every observation lies under the pair's key |
| Flattening.StoreKeys | schema/schema_analysis.py:39-41 | the flat document only gains entries: its keys become the old keys plus the paths written |
| Flattening.StoreLastWins | schema/schema_analysis.py:41 | a written path holds the canonical value of the last scalar written to it |
| Flattening.StoreKeepsOthers | schema/schema_analysis.py:28-46 | a path no scalar is written to keeps its old value |
| Flattening.FlattenDoc | schema/schema_analysis.py:26-46 | the in-place walk leaves the flat document equal to the old one with every scalar of the walk stored in order |
| Statistics.IncrementsTouchOneKey | schema/schema_analysis.py:79-100 | incr_attr_type and incr_attr_value raise exactly one key by one (an absent key becomes 1) and leave every other key unchanged; values are keyed by `str(value)`; a new type joins the end of the insertion order |
| Statistics.SetCountWf | schema/schema_analysis.py:81-86 | setting one type's count keeps the histogram well formed (distinct insertion order naming exactly the counted types) and changes only that count |
| Statistics.SetCountTotal | schema/schema_analysis.py:81-86 | setting one type's count moves the histogram total by the difference between the new and the old count |
| Statistics.CountObservation | schema/schema_analysis.py:106-151 | the mode is always a counted value, and it is either the new value or the previous mode |
| Statistics.CountObservationEffect | schema/schema_analysis.py:108-129 | one observation adds exactly 1 to the presence count, one to its type and one to its value's string form; a new record starts from empty histograms with the value as mode |
| Statistics.NumericStringsCounted | schema/schema_analysis.py:135-151 | the int-string counter rises by one exactly for a string observation `int()` accepts; the float-string counter rises by one exactly for a string observation `int()` refuses and `float()` accepts; neither moves otherwise |
| Statistics.ModeStaysMostFrequent | schema/schema_analysis.py:116-133 | after one more observation every counted value has a positive count no greater than the mode's: the mode is still a most frequent value |
| Statistics.ModeReplacedOnlyWhenExceeded | schema/schema_analysis.py:110-133 | the first observation of a path is its mode; later the value becomes the mode when its new count is strictly greater than the current mode's count, and on a tie or less the earlier mode stays |
| Statistics.CountObservationInv | schema/schema_analysis.py:106-151 | each observation keeps the record invariant: presence equals the type total, distinct values never exceed presences, `intstr + floatstr <= types[string]`, and the mode is a most frequent value |
| Statistics.CountAllInv | schema/schema_analysis.py:217-238 | counting any sequence of observations keeps every record's invariant |
| Statistics.CountAllKeys | schema/schema_analysis.py:230-236 | the table holds exactly the old paths plus the observed ones |
| Statistics.CountAllPresence | schema/schema_analysis.py:121-126 | a path's presence count grows by exactly the number of observations at it; an unobserved path keeps its record |
| Statistics.CountedPathsAreStored | schema/schema_analysis.py:230-233 | the table and the flat document end up with the same paths when they start with the same paths |
| Statistics.CountAttrPath | schema/schema_analysis.py:106-151 | updates the path's record in place to the counted record, leaves every other path alone, and keeps the table invariant |
| Statistics.UpdatedEntry | schema/schema_analysis.py:108-151 | the imperative record update computes exactly the counted record |
| Statistics.AnalyzeDoc | schema/schema_analysis.py:217-238 | the in-place walk counts every scalar of the document into the table and stores it into the flat document, in document order, keeping the table invariant |
| Statistics.AnalyzeEntry | schema/schema_analysis.py:219-238 | one key/value pair is skipped (`_id`, unknown), counted and stored (scalar), or walked (dict) |
| Validation.EncoderRoundTrip | schema/schema_analysis.py:473-477 | the encoder fitted on an attribute's values encodes exactly those values, decodes each code back to its value, and each class is encoded as its own index |
| Validation.ExtendTypesCounts | schema/schema_analysis.py:418-436 | the effective INT count is `INT + intstr`, the effective FLOAT count is `FLOAT + intstr + floatstr`, and every other count stays; the old insertion order is a prefix of the new one |
| Validation.ExtendTypesWf | schema/schema_analysis.py:435-436 | the rewritten histogram stays well formed, with INT and FLOAT present |
| Validation.ScanFromFacts | schema/schema_analysis.py:439-444 | the scan from any position returns a count no smaller than its start and bounding every later count, held by the first type reaching it, or it keeps its start |
| Validation.MaxTypeScanIsFirstMax | schema/schema_analysis.py:438-444 | the scan finds the largest count and the first type in insertion order holding it; no type exactly when every count is 0 |
| Validation.ScanMaxType | schema/schema_analysis.py:439-444 | the loop computes the scan's result |
| Validation.DecideFacts | schema/schema_analysis.py:405-511 | the target is always kept: as encoded string/Categorical for a classification, as float/Numerical for a regression, and otherwise as its preferred type (int without one), Categorical, without encoder; a sufficient non-target path whose preferred type is numeric is kept as that type, Numerical, with its mode; a non-target path is rejected exactly when it is not sufficient or has neither a numeric preferred type nor few enough values; any other kept path is categorical only as a string with few enough values and an encoder; a rejection keeps the presence and distinct-value counts and names its reason, each reason under its exact condition |
| Validation.DecideAll | schema/schema_analysis.py:397-511 | the verdict on every path: the target is kept, other kept paths are sufficient, an encoder exactly for categorical non-target paths, the counted mode kept |
| Validation.Decisions | schema/schema_analysis.py:383-513 | valTypes, valSenses and pathModes have one key set; kept and rejected paths partition the table; every kept path's type and sense, every rejected path's statistics and every encoder are the ones the per-path verdict gives; the target is kept; encoders only on kept paths, and on a non-target path exactly when categorical; the modes are the counted ones |
| Validation.SummarizeAdd | schema/schema_analysis.py:452-511 | recording one more verdict adds its path to exactly the result dicts its branch writes |
| Validation.EffectiveTypes | schema/schema_analysis.py:418-436 | the in-place rewrite of the type histogram computes the effective counts |
| Validation.ValidateAttr | schema/schema_analysis.py:397-511 | the loop body computes the verdict and rewrites the record with the effective histogram and the distinct-value count |
| Validation.ValidateOne | schema/schema_analysis.py:397-511 | one pass decides its path as the verdict says and rewrites that record in the table |
| Validation.ValidatePaths | schema/schema_analysis.py:397-513 | the loop over the table returns the summary of all verdicts and leaves every record rewritten |
| Validation.ValidateSchemaTypes | schema/schema_analysis.py:383-513 | returns the validation result (`Decisions`) and rewrites each record's type histogram and distinct-value count in place |
| Validation.AllStringsPreferString | schema/schema_analysis.py:418-447 | an attribute seen only as strings keeps STRING as its scanned type, even when every string is numeric, because the INT and FLOAT counts the strings lend only tie with it |
| Validation.AllStringsNeverNumerical | schema/schema_analysis.py:438-486 | hence such a non-target attribute, if kept, is categorical |
| Validation.PresenceIsStrict | schema/schema_analysis.py:407-409 | minPresent is a strict bound: 8 of 10 documents at 0.8 is insufficient, 9 of 10 is sufficient |
| Numerics.Insert | schema/schema_analysis.py:568 | inserting into a sorted list keeps it sorted and adds exactly that value |
| Numerics.Sort | schema/schema_analysis.py:568 | the sorted list is ascending and a permutation of the input |
| Numerics.SortedUnique | schema/schema_analysis.py:568 | two ascending arrangements of the same values are equal |
| Numerics.MedianMeanPermutation | schema/schema_analysis.py:555-571 | median and mean depend only on the multiset of values, not on the dict's iteration order |
| Numerics.MedianBounds | schema/schema_analysis.py:568 | the median of a non-empty list is a number between its least and greatest value |
| Numerics.MeanBounds | schema/schema_analysis.py:569 | the mean of a non-empty list is a number between its least and greatest value |
| Numerics.ConstantList | schema/schema_analysis.py:565-569 | `[x] * n` with n > 0 has median and mean x |
| Numerics.RebuiltRemove | schema/schema_analysis.py:555-565 | the rebuilt values are one key's `count` copies plus the rest, whichever key is walked first |
| Numerics.RebuiltSkipsUnparsable | schema/schema_analysis.py:559-564 | a key `int()` (or `float()`) rejects contributes nothing |
| Numerics.RebuiltMembers | schema/schema_analysis.py:555-565 | a value occurs exactly when some key counted at least once parses to it |
| Numerics.RebuiltMultiplicity | schema/schema_analysis.py:564-565 | a key whose value no other key parses to contributes that value exactly `count` times |
| Numerics.MedianMeanNaN | schema/schema_analysis.py:567-569 | median and mean are NaN exactly when no counted key parses |
| Numerics.MedianOfValues | schema/schema_analysis.py:567-571 | with at least one parsed value the median is a number between the least and greatest of them |
| Numerics.RebuildValues | schema/schema_analysis.py:553-565 | the list-building loop produces exactly the rebuilt multiset |
| Numerics.CalcAttrMedianMeanInt | schema/schema_analysis.py:551-571 | returns the median and mean of the int-parsable values, each repeated as often as counted |
| Numerics.CalcAttrMedianMeanFloat | schema/schema_analysis.py:578-598 | returns the median and mean of the float-parsable values, each repeated as often as counted |
| Defaults.CalcPathDefaultNumerical | schema/schema_analysis.py:605-627 | the numerical default: the median when one exists, else the mean, else the mode, else 0 (0.0 for FLOAT); TypeError for a numeric type on a path missing from the table |
| Defaults.CalcPathDefaultCategorical | schema/schema_analysis.py:633-649 | the mode whenever it is not None; else the encoder's first class; else `int()` of the int median; an exception only when there is no mode |
| Defaults.CalcDefaultAt | schema/schema_analysis.py:664-700 | the default of one path chosen by its sense: numerical, categorical (KeyError when the vehicle has no transform for the path), else the mode, else the type's zero |
| Defaults.CalcDefaultVals | schema/schema_analysis.py:658-702 | returns normally iff every path's default does, and otherwise raises an exception some path raises; the keys are a subset of valTypes, exactly the paths whose default is not None, each with that default |
| Defaults.NaNDefaultAsWritten | schema/schema_analysis.py:620-625 | as written, a numerical path none of whose values parse gets NaN although it has a mode; the corrected default is the mode |
| Defaults.NumericalDefaultIsMedian | schema/schema_analysis.py:612-621 | with at least one parsable value the default is the median of the values, between their least and greatest, as written and corrected alike |
| Defaults.NumericalDefaultFallsBack | schema/schema_analysis.py:620-627 | with no parsable value, or for a non-numeric type, the corrected default is the mode, else the zero of the type |
| Defaults.KeptPathGetsDefault | schema/schema_analysis.py:669-700 | on what validation leaves behind, a kept path with a mode raises exactly when it is categorical without a transform, and then raises KeyError; otherwise it gets a default that is not None; a categorical one with a transform gets its mode |
| Defaults.ValidatedSchemaGetsDefaults | schema/schema_analysis.py:658-702 | on the result of validateSchemaTypes, every kept path with a mode gets a default without an exception, except the target of an estimator that is neither a regression nor a classification, which raises KeyError |
| Cleanup.NormalizeValue | cleanup/dataset_cleanup.py:33-64 | a path fails iff a missing target or an unclassifiable value; a missing non-target value takes the default and one more default count; a value of the required type is its canonical value at no cost; a value of another known type goes through the convert_* helper of the required type, applied to the raw value; either way the count is unchanged or the default is used at a cost of one |
| Cleanup.NormalizePrefix | cleanup/dataset_cleanup.py:31-67 | after n paths the list has n values and at most n defaults were used |
| Cleanup.NormalizeOne | cleanup/dataset_cleanup.py:33-64 | the loop body fails exactly when the path fails, and otherwise gives the path's value and default count |
| Cleanup.NormalizeAt | cleanup/dataset_cleanup.py:31-67 | one pass extends the list and the dict by the path's value, or fails exactly when the record fails at that path |
| Cleanup.NormalizeToList | cleanup/dataset_cleanup.py:22-79 | returns the normalised dict and list, or `(None, None)`; the two are None together |
| Cleanup.FailStays | cleanup/dataset_cleanup.py:40-53 | once the record fails (break) it stays failed |
| Cleanup.FailedRecord | cleanup/dataset_cleanup.py:37-53 | a record that fails at any path is rejected as a whole |
| Cleanup.CompletedRecord | cleanup/dataset_cleanup.py:69-77 | a record that passes every path is kept exactly when `defCount <= 1 + n // 10`: exactly budget-many defaults is accepted |
| Cleanup.TargetMissingRejected | cleanup/dataset_cleanup.py:35-41 | a listed target with no value rejects the record |
| Cleanup.UnknownValueRejected | cleanup/dataset_cleanup.py:48-53 | a present value the classifier calls unknown, at any listed path, rejects the record |
| Cleanup.DefaultsCover | cleanup/dataset_cleanup.py:42-45 | every missing value costs one default, so the default count is at least the number of missing values |
| Cleanup.TooManyAbsentRejected | cleanup/dataset_cleanup.py:70-71 | a record missing more values than the budget allows is rejected |
| Cleanup.AcceptedShape | cleanup/dataset_cleanup.py:66-67 | an accepted record has one value per path, the dict's keys are exactly the listed paths, and with distinct paths `list[i] == doc[pathList[i]]` |
| Cleanup.DocOfShape | cleanup/dataset_cleanup.py:66 | the dict built path by path has the listed paths as keys and, for distinct paths, each path's value at its position |
| Cleanup.CleanRecordUnchanged | cleanup/dataset_cleanup.py:63-79 | a record with every path present in its required type and canonical form comes back unchanged, in path order, with no default used |

## Left out

- Persistence and I/O are not modelled:
  - `analyze`, `analyzeEst` and `saveStats` (MongoDB reads and writes);
  - the estimator vehicle's cache, replaced by plain maps (`Defaults.Vehicle`, and the `transforms` map of `Validation.Snapshot` for `setAttrTransform`);
  - configuration loading;
  - every `print` diagnostic.
- `validateSchemaTypes_Aug03` (schema/schema_analysis.py:261-362) is superseded and never called; the `convert_flat_*` helpers (schema/schema_analysis.py:158-207) are unused.
- The other files are not part of this model: predict/serve_rest.py, model/explore_hypotheses.py, vehicle.py, config.py, mongo_utils.py, run_pipeline.py and examples/.
  - model/explore_hypotheses.py unpacks `normalizeToList`'s result in swapped order; that bug lies in the consumer, outside this model.
- The grammars of Python's `int()` and `float()`, `datetime.fromisoformat` and `str()` are abstract functions. Dates are opaque integers.
  - `float()` of "nan" or "inf" cannot yield a finite real, so the model cannot express a histogram key that parses to NaN or infinity.
- sklearn's `LabelEncoder` is an abstract duplicate-free enumeration of the labels; its sorting of classes is not modelled.
- numpy is modelled on exact reals:
  - no float64 rounding;
  - no `int32` conversion of the int list (overflow for values outside 32 bits is not modelled);
  - the median of an int array is a float, as in numpy.
- Validation.ValidateSchemaTypes: requires `docCount > 0`; the source divides by it (schema/schema_analysis.py:409, 446).
- Defaults.CalcDefaultVals: the `docCount` and `allVals` arguments of `calcIntDefault` and friends are unused by the source and dropped; those helpers are the constant zeros of `Defaults.TypeDefault`.
- Cleanup.NormalizeToList: requires every listed path to have a default and a required type in {int, float, date, string}. Otherwise the source raises KeyError or reuses a stale `normValue` (cleanup/dataset_cleanup.py:33-34, 54-62).
- Statistics.UpdatedEntry: requires an existing record's mode to be a key of its value histogram (always true under `StatsInv`). Otherwise the source compares an int with None.
- The iteration order of validateSchemaTypes, calcDefaultVals and calcAttrMedianMean* over their dicts is left unspecified: the loops pick any remaining key. Their results are maps, or are proved order-independent (`Numerics.MedianMeanPermutation`).
- ahnungType, ahnungTypeAndValue and convert_date do not raise the Python 3 TypeError of `items()[0]` in the main model; the as-written behaviour is kept beside it (see Findings).
- calcPathDefaultNumerical's NaN default is replaced by the intended fallback in the main model; the as-written behaviour is kept beside it (see Findings).

## Findings

| source | as written | input that shows it | evidently intended | confidence | as-written member | corrected member |
|---|---|---|---|---|---|---|
| schema/type_utils.py:214-216 | `vitems = tValue.items()` then `vitems[0][0]`: a dict view cannot be indexed in Python 3, so every one-pair dict raises an uncaught TypeError | a document with a single-field sub-document such as `{"address": {"city": "Oslo"}}`, or any `{"$numberInt": 7}` wrapper | read the sole key/value pair: walk the single-field sub-document, unwrap the wrapper | not executed; high | TypeUtils.AhnungTypeAndValueAsWritten, TypeUtils.SingleFieldDocumentAsWritten | TypeUtils.AhnungTypeAndValue |
| schema/type_utils.py:180-182 | the same indexing in `ahnungType` | `{"$numberInt": 7}` | read the sole pair, so the wrapper classifies as int | not executed; high | TypeUtils.AhnungTypeAsWritten, TypeUtils.SingleFieldDocumentAsWritten | TypeUtils.AhnungType |
| schema/type_utils.py:133-135 | the same indexing in `convert_date`; there the TypeError is caught, so every dict counts as a failure | `{"$numberLong": 1600000000}` as a date payload | a `$numberLong` timestamp becomes a date without a failure | not executed; high | TypeUtils.ConvertDateAsWritten, TypeUtils.NumberLongDateAsWritten | TypeUtils.ConvertDate |
| schema/schema_analysis.py:620-625 | `if None != attrMedian` holds for numpy's NaN median of an empty list, so the mean and mode fallbacks are dead and the default is NaN | a regression target (always FLOAT/Numerical) whose values are all non-numeric strings, e.g. a value histogram `{"high": 3, "low": 2}` with mode "high" | fall back to the mean, then the mode, then 0 | not executed; medium | Defaults.NumericalDefaultAsWritten, Defaults.NaNDefaultAsWritten | Defaults.CalcPathDefaultNumerical, Defaults.NumericalDefaultFallsBack |
