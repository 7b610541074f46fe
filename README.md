# Oura daily-data join and CSV export, in Dafny

This project models the two pure pieces of the Personalized Sleeping Coach backend.

**The per-day join of `fetchAndOrganizeData`** (`backend/ouraDataFetcher.js`):
- The five category arrays come from the wearable-data API: daily sleep, readiness, activity, cardiovascular age and stress.
- They become one flat `DailyRecord` per sleep entry, in sleep order.
- The seven sleep fields come from the sleep entry itself, through `contributors?.<field> || 0` and `score || 0`.
- Each of the other four fields is the property of the *first* entry of that category with the same `day` (`Array.prototype.find`), or `0` through `|| 0`.
- A failed request reaches the join as `[]`.
- A payload that is not an array makes the step throw its one generic error (for the four non-sleep categories, only when there is at least one sleep entry).

**`convertToCSV`** (`backend/csvConverter.js`):
- The guard rejects a falsy value, a non-array and an empty array.
- A fixed, ordered list of twelve column names is passed to the `json2csv` parser together with the raw array; the parser picks the columns listed in `fields` from every object and renders the CSV text.
- A failure there becomes the one generic conversion error.
- The model splits the parser's work in two: the column selection is `Project`/`Tabulate`, and the rendering of the selected table is the parameter `render`.

Modules:
- `Wrappers`: `Option` (a property that is `undefined`/`null`) and `Result` (a value, or a thrown `Error` with its message).
- `OuraDataFetcher`: entries, payloads, the `|| 0` default, `find` by day, the join and its error wrapper. It also holds an equivalent formulation with one day-to-entry index per category.
- `CsvConverter`: the input guard, the column list, the projection, and reading a row back against its header.
- `CsvExport`: the object literal a record becomes, and what the converter makes of the join's output.

An upstream object is modelled as `Entry(day, fields, contributors)`:
- `fields` maps property names to integers.
- A name that is absent stands for a property that is `undefined`, `null` or a falsy non-number (`NaN`, `""`, `false`).
- On integers, JavaScript's `v || 0` is `OrZero`: absent or `0` gives `0`, and any other value is kept, negative ones included.

One behaviour of the code is easy to miss:
- The join throws on a non-array readiness, activity, cardiovascular or stress payload only when there is at least one sleep entry.
- With an empty sleep array the `map` callback never runs, so no `find` is evaluated and the result is `[]`.
- `Organize` states exactly this.

`FetchAndOrganize` composes `FetchData` for the five categories with `Organize`. It has no contract of its own; its behaviour is stated through `FetchData`, `Organize` and `FailedFetchDefaultsToZero`.

## Model

| member | source | states |
|---|---|---|
| OuraDataFetcher.FetchData | backend/ouraDataFetcher.js:13-26 | A failed request yields the empty array. Otherwise the body's `data` payload is passed on unchanged. |
| OuraDataFetcher.OrZero | backend/ouraDataFetcher.js:68-78 | The `or 0` default: the result is `0` exactly when the value is missing or zero. A non-zero result is the value itself. |
| OuraDataFetcher.FindByDay | backend/ouraDataFetcher.js:75-78 | `find` by day: `None` exactly when no entry has that day. Otherwise the result is the entry at the first position with that day. |
| OuraDataFetcher.FirstOnDayUnique | backend/ouraDataFetcher.js:75-78 | The first position of a day in a category is unique. |
| OuraDataFetcher.Join | backend/ouraDataFetcher.js:46-81 | The join has as many records as there are sleep entries, and record i carries the day of sleep entry i. |
| OuraDataFetcher.Organize | backend/ouraDataFetcher.js:46-87 | Fails, always with "Failed to fetch and organize Oura data.", exactly when the sleep payload is not an array, or when there is a sleep entry and some other payload is not an array. Empty sleep data gives `[]` whatever the other categories hold. On success the length and days follow the sleep entries in order. |
| OuraDataFetcher.FirstMatchValueUnique | backend/ouraDataFetcher.js:75-78 | The first-match rule determines at most one value, so it fixes each category field. |
| OuraDataFetcher.LookupMeetsFirstMatchValue | backend/ouraDataFetcher.js:75-78 | The looked-up value satisfies the first-match rule, which is stated without `find`. |
| OuraDataFetcher.OrganizeRecordSpec | backend/ouraDataFetcher.js:66-80 | With all payloads arrays, each record i has sleep entry i's day. Its six contributor fields and its sleep score are those properties, or `0` when `contributors` or the property is absent or zero. Its readiness, activity, cardiovascular-age and stress fields follow the first-match rule for `score`, `score`, `vascular_age` and `stress_high`. |
| OuraDataFetcher.OrganizeKeepsSleepDays | backend/ouraDataFetcher.js:46-67 | The set of days in the result equals the set of sleep days. A day found only in another category never appears. |
| OuraDataFetcher.FailedFetchDefaultsToZero | backend/ouraDataFetcher.js:22-25 | When requests fail, the step still succeeds. Each failed category's field is `0` in every record. A failed sleep request gives no records. |
| OuraDataFetcher.FindOnDays | backend/ouraDataFetcher.js:75-78 | For a day in the given set, `find` over only the entries on those days returns what `find` over the whole category returns. |
| OuraDataFetcher.LookupOnDays | backend/ouraDataFetcher.js:75-78 | Two categories that agree on their entries for the given days contribute the same value for each of those days. |
| OuraDataFetcher.JoinIgnoresOtherDays | backend/ouraDataFetcher.js:46-81 | The joined records depend only on the other categories' entries that fall on sleep days. |
| OuraDataFetcher.OrganizeIgnoresOtherDays | backend/ouraDataFetcher.js:75-78 | Adding, removing or reordering entries whose days are not sleep days, in any of the four other categories, leaves the result unchanged. |
| OuraDataFetcher.OnDaysDropsOtherDays | backend/ouraDataFetcher.js:75-78 | Entries on other days, inserted anywhere in a category, are exactly what the sleep-day filter removes. |
| OuraDataFetcher.FindAgreesWithIndex | backend/ouraDataFetcher.js:75-78 | A linear `find` equals a lookup in a day-to-first-entry index built once. |
| OuraDataFetcher.JoinAgreesWithIndexedJoin | backend/ouraDataFetcher.js:46-81 | The join built on per-category indexes produces the same records as the join built on repeated linear scans. |
| OuraDataFetcher.SingleSleepDayScenario | backend/ouraDataFetcher.js:66-80 | The input is one sleep entry (score 70, contributors 80/20/15/90/5/60) and four empty categories. The result is that one record, with the four other fields `0`. |
| OuraDataFetcher.ReadinessScenario | backend/ouraDataFetcher.js:75 | A readiness entry of the same day with score 87 gives readiness score 87, ahead of a later entry of that day. |
| CsvConverter.FieldsDistinct | backend/csvConverter.js:16-30 | There are exactly twelve column names, and they are pairwise different. |
| CsvConverter.Project | backend/csvConverter.js:16-33 | The row has one cell per column, in header order. A cell holds a value exactly when the object has that property, and then holds that property's value. |
| CsvConverter.ConvertToCsv | backend/csvConverter.js:9-38 | Rejected with "Invalid or empty data provided for CSV conversion." exactly when the input is falsy, not an array, or empty. Past the guard, the result is the rendering of the projected table when the renderer succeeds, and "CSV conversion failed." when it fails. |
| CsvConverter.TabulateShape | backend/csvConverter.js:16-33 | The header is the twelve names in order, whatever the objects hold. There is one row per object, in input order, and each row is that object's twelve column values. |
| CsvConverter.ExtraPropertiesDropped | backend/csvConverter.js:16-33 | Objects that agree on the columns give the same row, so extra properties are dropped. |
| CsvConverter.ObjectOfProject | backend/csvConverter.js:16-33 | Reading a projected row back against the header gives the object restricted to the column names. |
| CsvConverter.ProjectObjectOf | backend/csvConverter.js:16-33 | With distinct column names, projecting the object a row describes gives the row back. |
| CsvExport.RecordKeysAreFields | backend/ouraDataFetcher.js:66-78 | The twelve property names of the join's object literal are the converter's twelve column names, in the same order. |
| CsvExport.ExportRowRoundTrip | backend/ouraDataFetcher.js:66-80 | A joined record's CSV row has a value in all twelve columns and reads back as the same record. |
| CsvExport.ExportOfOrganize | backend/csvConverter.js:10-12 | Exporting a successful join is rejected by the guard exactly when the sleep data was empty. Otherwise the result is the rendered table, or the conversion error when rendering fails, and there is one complete row per sleep day, in order, and each reads back as that day's record. |

## Left out

- The network request inside `fetchData`: axios, the bearer token and `dotenv` configuration. Only its outcome is modelled, as a `Response` that is `Failed` or carries the body's `data` payload.
- The concurrent `Promise.all` fan-out: the five requests are independent, and only their results enter the join.
- `saveDataToCSV`, which serializes without a column list and writes a file; it is file I/O.
- The commented-out heart-rate averaging, which is dead code using floating-point division.
- The text rendering and quoting done by the `json2csv` parser, a library not in the repository. It is the parameter `render`, which may fail.
- The column selection inside `json2csv`: the converter hands the parser the raw array and the `fields` list (backend/csvConverter.js:32-33), and the model assumes the parser selects columns as `Project` does: one row per array element, a listed property that is missing gives an empty cell, and unlisted properties are ignored. `TabulateShape`, `ExtraPropertiesDropped` and the export lemmas rest on that assumption, and `render` sees only the selected table.
- Non-integer property values:
  - JavaScript strings, booleans and `NaN` are not numbers in the model. Falsy ones behave like an absent property under `|| 0`, and truthy non-numbers are not represented.
  - Fractional values are not represented either.
- `null` elements inside a category array, and entries without a `day`. The upstream API always sends objects with a `day`, and the `find` callback's throw on a `null` element is not modelled.
- The HTTP surface (Express routes, responses, the file write and download) and the browser page: no logic beyond calling the fetcher and then the converter.
- The fixed start and end dates and the API base URL, which are configuration constants.
- The `console.error` logging in `fetchData` and in the organize step's `catch`: it is a side effect with no bearing on the results.
