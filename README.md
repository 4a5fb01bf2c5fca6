# Material data service: row normaliser and lazy caches

This project models the core of the ENZDB data service, `server/services/dataService.js`. The service reads an optical-materials spreadsheet and answers requests for its sheet names and for the rows of one sheet. The model has two parts.

**The row normaliser** (lines 36-64) turns each loosely keyed spreadsheet row into a fixed eleven-field record. These parts are pure functions:

- **`JsValues`**: the cell values and the JavaScript semantics the normaliser relies on:
  - nullishness, for the `??` chains;
  - truthiness, for the `||` chain;
  - `String(v)`.
- **`NumberParsing`**: the `getNumber` closure:
  - the character filter `/[^0-9.+-eE]/g`;
  - `parseFloat`, read as the longest decimal prefix;
  - the dispatch over null, numbers and everything else.
- **`RowNormalizer`**:
  - column lookup (`row[key]`);
  - the case-insensitive label searches for `materialKey` and `wavelengthKey`;
  - the alias chains of every field;
  - `json.map` over the rows.

**The two module-level caches** (lines 7-8, 10-19, 25-31, 66) live in `DataService`:

- `workbookCache` is filled by the first successful read of the data file.
- `sheetCache` maps a sheet name to its normalised rows. An entry is filled on the first request for that sheet and never evicted.

Both caches are fields of the class `DataService.Service`:

- `GetWorkbook`, `GetSheetNames` and `LoadMaterialData` update those fields.
- They are proved against the cache-free function `LoadSheet`.
- They keep the invariant `Valid()`: every cached sheet is the normalisation of that sheet of the cached workbook, and the file was read successfully at most once.

The file read is a parameter of these methods. `disk: Option<Workbook>` is what `XLSX.readFile` would return at that moment, and `None` means it throws. A workbook is its list of sheet names plus a map from sheet name to the rows that `sheet_to_json` makes of it.

Each row is a sequence of cells (label, value) in `Object.keys` order.

**The character filter.** The source comment at line 46 describes the filter as removing non-numeric characters, and it is natural to read the class as "digits, `.`, `+`, `-`, `e`, `E`". JavaScript reads it differently: `+-e` is a range from `'+'` (0x2B) to `'e'` (0x65). So the filter also keeps `,`, `/`, `:`…`@`, `A`…`Z`, `[`…`` ` `` and `a`…`e`. The model follows the code (`NumberParsing.IsKept`, `NumberParsing.KeptIsRange`). The lemmas `GetNumberKeepsLessThan`, `GetNumberKeepsComma` and `GetNumberOfBool` show what this does to real inputs.

## Model

| member | source | states |
|---|---|---|
| JsValues.NullishImpliesFalsy | server/services/dataService.js:52-53 | null and undefined are falsy; the only falsy values that are not nullish are 0, "" and false, which is where `??` and logical-or differ |
| JsValues.CoalesceIndex | server/services/dataService.js:53 | `??` stops at the first operand that is not null/undefined; every earlier operand is nullish; only the last operand can be nullish and still be chosen |
| JsValues.OrIndex | server/services/dataService.js:52 | the logical-or chain stops at the first truthy operand; every earlier operand is falsy; only the last operand can be falsy and still be chosen |
| JsValues.CoalesceFirstPresent | server/services/dataService.js:56-62 | the first present operand of a `??` chain is its value, even when it is 0 or "" |
| JsValues.CoalesceLast | server/services/dataService.js:53 | when all operands but the last are nullish, the chain yields the last operand |
| JsValues.CoalesceAllNullish | server/services/dataService.js:54-62 | a `??` chain of nullish operands is nullish |
| JsValues.OrFirstTruthy | server/services/dataService.js:52 | the first truthy operand of a logical-or chain is its value; falsy ones before it are skipped |
| JsValues.OrTruthyBefore | server/services/dataService.js:52 | a truthy operand before the last one makes the chain stop there or earlier, with a truthy result |
| JsValues.OrNoneTruthy | server/services/dataService.js:52 | with no truthy operand before the last, a logical-or chain yields its last operand, whatever it is |
| JsValues.Coalesce | server/services/dataService.js:53 | `vs[0] ?? ... ?? vs[n-1]`: the operand at `CoalesceIndex`; CoalesceFirstPresent, CoalesceLast and CoalesceAllNullish state its value |
| JsValues.Or | server/services/dataService.js:52 | `vs[0] … vs[n-1]` joined by logical-or: the operand at `OrIndex`; OrFirstTruthy, OrTruthyBefore and OrNoneTruthy state its value |
| NumberParsing.KeptIsRange | server/services/dataService.js:47 | the class `[0-9.+-eE]` is exactly the range '+'..'e' |
| NumberParsing.IsKept | server/services/dataService.js:47 | membership in `[0-9.+-eE]` as JavaScript reads it; KeptIsRange proves it is the range '+'..'e' |
| NumberParsing.Filter | server/services/dataService.js:47 | the filtered string is no longer than the input, holds only kept characters, and is unchanged when every character is kept |
| NumberParsing.FilterAppend | server/services/dataService.js:47 | filtering distributes over concatenation |
| NumberParsing.FilterCounts | server/services/dataService.js:47 | every kept character occurs in the output as often as in the input, and no removed character occurs at all |
| NumberParsing.FilterIdempotent | server/services/dataService.js:47 | filtering twice is filtering once |
| NumberParsing.FilterNoneKept | server/services/dataService.js:47 | a string such as " nm" or "µm" with no kept character filters to "" |
| NumberParsing.DigitsValue | server/services/dataService.js:47 | a string of n decimal digits denotes a natural number below 10^n |
| NumberParsing.DigitsValueAppend | server/services/dataService.js:47 | the value of digits a followed by digits b is value(a) * 10^len(b) + value(b) |
| NumberParsing.MantissaAt | server/services/dataService.js:47 | the mantissa is the longest one at the front of the input: its text is the input's prefix, its integer digits are the whole leading digit run, the point is taken exactly when it follows them, and the fraction is the whole digit run after it, and empty when there is no point; there is none exactly when the input starts with neither a digit nor '.' and a digit |
| NumberParsing.ExponentAt | server/services/dataService.js:47 | an exponent part is 'e' or 'E', an optional sign and the whole digit run that follows, spelled by the input's prefix; it is negative exactly when the sign is '-'; it is taken whenever such digits follow, and is otherwise empty with length 0 |
| NumberParsing.Scan | server/services/dataService.js:47 | the prefix `parseFloat` reads: the sign is negative exactly when the string starts with '-'; the mantissa is the longest one after the sign and spells those characters; the exponent is the longest one after the mantissa; there is none exactly when no mantissa follows the sign |
| NumberParsing.ParseFloatNaNIff | server/services/dataService.js:48 | on a filtered string, `parseFloat` gives NaN exactly when the string does not start, after an optional sign, with a digit or with '.' and a digit |
| NumberParsing.ParseFloat | server/services/dataService.js:47 | `parseFloat` on a filtered string, as the exact value of the prefix `Scan` reads, NaN when there is none; ParseFloatNaNIff, ParseFloatDigits, ParseFloatDigitsThen and ParseFloatNegate state its results |
| NumberParsing.ParseFloatDigitsThen | server/services/dataService.js:47 | digits followed by text that cannot continue a number parse as the value of the digits (the longest prefix is read) |
| NumberParsing.ParseFloatDigits | server/services/dataService.js:47 | a string of digits parses as its decimal value |
| NumberParsing.ScanNegate | server/services/dataService.js:47 | a leading '-' changes the recognised prefix only in its sign |
| NumberParsing.ParseFloatNegate | server/services/dataService.js:47 | a leading '-' negates the parsed value and keeps NaN as NaN |
| NumberParsing.GetNumber | server/services/dataService.js:43-49 | null/undefined gives null; a number is returned unchanged; a string gives null exactly when its filtered form does not start like a number |
| NumberParsing.FilterTrue | server/services/dataService.js:47 | "true" filters to "e" |
| NumberParsing.FilterFalse | server/services/dataService.js:47 | "false" filters to "ae" |
| NumberParsing.ParseFloatLetterFirst | server/services/dataService.js:47-48 | a filtered string that starts with a lower-case letter parses as NaN |
| NumberParsing.GetNumberOfBool | server/services/dataService.js:43-49 | a boolean cell never becomes a number, so `getNumber` gives null |
| NumberParsing.GetNumberUnitSuffix | server/services/dataService.js:46-48 | digits followed by a unit made of removed characters read as the digits alone |
| NumberParsing.GetNumberNanometres | server/services/dataService.js:46-48 | "600nm" filters to "600" and reads as 600 |
| NumberParsing.GetNumberKeepsLessThan | server/services/dataService.js:47-48 | "<600" keeps its '<' (inside '+'..'e'), parses as NaN and becomes null |
| NumberParsing.GetNumberKeepsComma | server/services/dataService.js:47-48 | "1,5" keeps its ',' and reads as 1 |
| RowNormalizer.Labels | server/services/dataService.js:37 | `Object.keys(row)` lists the row's labels, one per cell, in order |
| RowNormalizer.Lookup | server/services/dataService.js:52-53 | `row[key]` is the cell of the column with that label, or undefined when there is no such column |
| RowNormalizer.LookupIsCell | server/services/dataService.js:52-53 | a lookup that finds something returns the value of a cell whose label is exactly the key |
| RowNormalizer.ContainsFolded | server/services/dataService.js:40 | the case-insensitive regex test holds exactly when the pattern occurs at some offset, ignoring case |
| RowNormalizer.FindIndex | server/services/dataService.js:40-41 | `keys.find` returns the first matching label: it matches, and no earlier label does; no result means no label matches |
| RowNormalizer.MaterialKey | server/services/dataService.js:40 | `materialKey`: the first label matching /material/i, else the first matching /mat/i; MaterialKeyMissingIff states when it is missing and FoundKeyIsLabel that it is a label |
| RowNormalizer.WavelengthKey | server/services/dataService.js:41 | `wavelengthKey`: the first label matching wavelength, lambda or λ ignoring case; FindIndex states that it is the first such label |
| RowNormalizer.FoundKeyIsLabel | server/services/dataService.js:40-41 | the key found by the search is one of the row's labels |
| RowNormalizer.MaterialContainsMat | server/services/dataService.js:40 | a label that matches /material/i also matches /mat/i |
| RowNormalizer.MaterialAliasesContainMat | server/services/dataService.js:52 | each of "Material", "material" and "MAT" matches /mat/i |
| RowNormalizer.MaterialDefault | server/services/dataService.js:52 | the last operand of the material chain: the `materialKey` cell, or "Unknown" without a key; MaterialFallback states when it is used |
| RowNormalizer.Material | server/services/dataService.js:52 | the material chain over Material, material and MAT and the default; MaterialFirstTruthyAlias, MaterialFallback, MaterialUnknownWithoutMatLabel and MaterialFromCellWithMatLabel state its value |
| RowNormalizer.WavelengthDefault | server/services/dataService.js:53 | the last operand of the wavelength chain: the `wavelengthKey` cell, or null without a key; WavelengthFallback states when it is used |
| RowNormalizer.WavelengthValue | server/services/dataService.js:53 | the wavelength chain over Wavelength, wavelength, λ and lambda and the default; WavelengthFirstPresentAlias and WavelengthFallback state its value |
| RowNormalizer.NumericField | server/services/dataService.js:54-62 | `getNumber` of a `??` chain over a fixed alias list; NumericFieldFirstPresent and NumericFieldAllAbsent state its value |
| RowNormalizer.NormalizeRow | server/services/dataService.js:51-63 | the `json.map` callback: one record built from the chains above; SingleLabelFields, UnrecognisedRow and GoldRow state whole records |
| RowNormalizer.MaterialKeyMissingIff | server/services/dataService.js:40 | `materialKey` is missing exactly when no label contains "mat", ignoring case |
| RowNormalizer.MaterialFirstTruthyAlias | server/services/dataService.js:52 | the first truthy value among Material, material and MAT is the material |
| RowNormalizer.MaterialFallback | server/services/dataService.js:40-52 | with no truthy fixed alias, the material is the cell under `materialKey` (even null); with no `materialKey` it is "Unknown" |
| RowNormalizer.MaterialUnknownWithoutMatLabel | server/services/dataService.js:40-52 | a row with no label containing "mat" (any case) has material "Unknown" |
| RowNormalizer.MaterialFromAliasCell | server/services/dataService.js:52 | when some fixed material alias is truthy, the material is the value of one of the row's cells |
| RowNormalizer.MaterialFromMatchedCell | server/services/dataService.js:40-52 | when the label search supplies the material, it is the value of one of the row's cells |
| RowNormalizer.MaterialFromCellWithMatLabel | server/services/dataService.js:40-52 | if some label contains "mat", the material comes from the row's own cells, so "Unknown" appears only if a cell holds it |
| RowNormalizer.NullMatchedCell | server/services/dataService.js:52 | when no fixed alias is truthy and the cell under the label `materialKey` finds is null, the material is null, not "Unknown" |
| RowNormalizer.BlankMaterialCell | server/services/dataService.js:52 | in a row whose only material column is a null "Material" cell, the material is null, not "Unknown" |
| RowNormalizer.TruthyAliasAfterBlankMaterial | server/services/dataService.js:52 | a truthy "material" cell wins over a null "Material" cell, because the chain skips falsy operands |
| RowNormalizer.NumericFieldFirstPresent | server/services/dataService.js:56-62 | the first alias whose cell is present decides a numeric field, even if it holds 0 or "", and later aliases are ignored |
| RowNormalizer.NumericFieldAllAbsent | server/services/dataService.js:56-62 | a numeric field whose aliases are all null/undefined is null |
| RowNormalizer.SingleLabelFields | server/services/dataService.js:54-60 | `n`, `k`, `Q`, `PL` and `Con` each read exactly one fixed label |
| RowNormalizer.WavelengthFirstPresentAlias | server/services/dataService.js:53 | the first present fixed wavelength alias decides the wavelength; the label search is not consulted |
| RowNormalizer.WavelengthFallback | server/services/dataService.js:41-53 | only when all four fixed aliases are null/undefined does the first label matching wavelength, lambda or λ (any case) supply the wavelength; without such a label it is null |
| RowNormalizer.AliasesAbsent | server/services/dataService.js:56-62 | when none of a field's aliases is a label of the row, every lookup is undefined and the field is null |
| RowNormalizer.Normalize | server/services/dataService.js:36-64 | exactly one record per raw row, in the same order, each the normalisation of its row |
| RowNormalizer.UnrecognisedRow | server/services/dataService.js:36-64 | a row with no known label and no label matching the patterns (the empty row among them) normalises to material "Unknown" with every number null, not an error |
| RowNormalizer.UnrecognisedWavelength | server/services/dataService.js:41-53 | with no wavelength alias and no matching label, the wavelength is null |
| RowNormalizer.UnrecognisedSingleLabels | server/services/dataService.js:54-60 | with none of the known labels, `n`, `k`, `Q`, `PL` and `Con` are null |
| RowNormalizer.UnrecognisedMultiLabels | server/services/dataService.js:56-62 | with none of the known labels, `Re_e`, `Im_e`, `Q_PL` and `Q_con` are null |
| RowNormalizer.GoldRow | server/services/dataService.js:51-63 | the row Material="Gold", Wavelength="600nm", n=0.2, k=3.5 normalises to material "Gold", wavelength 600, n 0.2, k 3.5 and every other field null |
| DataService.ResolveSheetName | server/services/dataService.js:28 | a non-empty argument is the sheet name; a missing or empty argument selects the first sheet, and finds none when the workbook has no sheets |
| DataService.LoadSheet | server/services/dataService.js:25-71 | what a request resolves to without any cache: `FileReadError` without a workbook, `SheetNotFound` when the name cannot be resolved or is not a sheet, else the normalised sheet; LoadMaterialData and CacheHitIsLoad are proved against it |
| DataService.Coherent | server/services/dataService.js:29-31 | every cached sheet is the normalisation of that sheet of the workbook; CoherentInsert proves that storing a fresh result keeps it |
| DataService.Service.Valid | server/services/dataService.js:7-8 | the invariant of the two caches: at most one successful file read, and a coherent sheet cache; every method of the class keeps it |
| DataService.CoherentInsert | server/services/dataService.js:66 | storing a freshly normalised sheet keeps every cache entry equal to the normalisation of its sheet |
| DataService.CacheHitIsLoad | server/services/dataService.js:29-31 | on a coherent cache, a hit gives the same records as loading the sheet afresh |
| DataService.Service.constructor | server/services/dataService.js:7-8 | the service starts with no workbook, an empty sheet cache and no file read |
| DataService.Service.GetWorkbook | server/services/dataService.js:10-15 | the file is read only while no workbook is cached; once one is cached it is returned and the file is ignored; at most one successful read; the sheet cache is untouched |
| DataService.Service.GetSheetNames | server/services/dataService.js:17-19 | the effective workbook's sheet names, or the read failure |
| DataService.Service.LoadMaterialData | server/services/dataService.js:25-71 | the result is what loading the sheet without a cache gives; a hit returns the stored records and leaves the cache unchanged; a successful miss stores the result under the resolved name only; a failure leaves the sheet cache unchanged |
| DataService.Service.StoreSheet | server/services/dataService.js:66 | `sheetCache.set` adds or replaces exactly one entry and keeps the cache coherent |
| DataService.LoadTwice | server/services/dataService.js:25-71 | once a request has got past reading the workbook, repeating it gives an equal result, whatever the file holds by then |
| DataService.SheetNamesTwice | server/services/dataService.js:10-19 | once the sheet names have been read, a second call returns the same list, and the file has been read successfully at most once |

## Left out

- `XLSX.readFile`, `XLSX.utils.sheet_to_json` and the data file are not part of this model. The outcome of reading the file is the `disk` parameter. A workbook is a list of sheet names plus a map from name to rows, with `defval: null` blank cells already present as `Null`. For a requested sheet that is absent from the workbook, the code itself does not fail: `workbook.Sheets[name]` (line 33) is `undefined`, and what happens next depends on `sheet_to_json`. The model assumes the library rejects it, giving a `SheetNotFound` failure that leaves the sheet cache unchanged. If `sheet_to_json` returns `[]` for an undefined sheet instead, the real code resolves to an empty list and line 66 caches that `[]` under the name. The model does not capture that case.
- `Promise.resolve` and `Promise.reject` (lines 30, 67, 69) become a `Result`. A thrown error becomes `Failure(FileReadError)` or `Failure(SheetNotFound)`.
- NumberParsing.ParseFloat: IEEE-754 floating point is not modelled. `parseFloat` returns the exact decimal value (a `real`), with no rounding, overflow to Infinity or negative zero. `Infinity` cannot occur, because its 'n' never survives the filter. JavaScript's skipping of leading whitespace is not modelled either, because no whitespace character survives the filter; `ParseFloat` is only ever applied to filtered strings.
- JsValues.Value: a numeric cell is a `real`, so NaN and infinite cell values cannot be expressed.
- RowNormalizer.Fold: the `/i` case folding covers ASCII capitals and Greek capital lambda. These are all the letters the five patterns use. Other Unicode case pairs in labels are not modelled.
- RowNormalizer.Row: the integer-like-keys-first ordering of `Object.keys` is taken as given by the order of the cells. Inherited prototype properties such as `row['constructor']` are not modelled; a label that is not a column reads as undefined.
- Concurrent requests are not modelled, including the duplicate work when two requests miss the same sheet. Each method runs to completion.
- `toNumber` (lines 73-76) is not modelled because nothing calls it.
- server/routes/data.js (query parsing, JSON output, the 500 response) and server/app.js (CORS, static files, `listen`) are not part of this model.
- The configured path `DATA_FILE` (line 5) is not modelled. Only what reading it yields matters, and that is the `disk` parameter.
