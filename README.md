# fbadscli core, modelled in Dafny

fbadscli is a small command-line tool. It fetches ad insights from the
Facebook Marketing API, flattens each ad's `insights.data[0]` object into a
row, optionally sorts the rows by a numeric field, and prints them as JSON
Lines, a JSON array or delimited text. This project models the part between
fetching and printing, and proves properties of it:

- `client.go` `getInsights`, the current normaliser. It skips records without
  insights. It keeps a string `ad_id` as text, turns other numeric strings
  into numbers and renders nested objects as text. It replaces the `actions`
  array by one numeric column named after the requested action type, where
  the last matching element wins (module `Client`).
- `main.go` `getInsights`, the older normaliser without those two special
  cases (module `Legacy`).
- `main.go` `InsightsSlice.Swap`, `ByFloat64.Less` and `sort.Sort` /
  `sort.Reverse` over them (module `Ordering`).
- `main.go` `main` after the fetch: the `\t` separator rule, the field list
  and CSV header, the sort dispatch and the format dispatch (module `Cli`).
- `printer.go`, the three serialisers, as functions that return the printed
  lines (module `Printer`).
- How the two normalisers relate to each other (module `Variants`).

Decoded JSON is the datatype `Values.Value` (`Num | Str | Arr | Obj | Bool |
Null`). A row is a `map<string, Value>`, and a missing key reads as `Null`,
as Go's nil does. Some library behaviour is passed in as the function fields
of `Values.Primitives`, and every property holds for any choice of them:
`strconv.ParseFloat`, `%v` of a float64, `%v` of a map, and `json.Marshal`.
Other library behaviour is written out, because the properties depend on it:
`strings.Join`, `strings.Split` on `","`, `int(f)` truncation, `%d`, and `%v`
of a string or a bool (module `Strings`).

The imperative code is imperative here too. Each `getInsights` is a method
with a loop over the records. It builds each row in a loop over the map's
keys, taken in an arbitrary order as Go's map iteration takes them, and the
`actions` scan is a separate loop. The sort works in place on an
`array<Row>`, through `Swap` and `Less`. Every method is proved equal to
a specification function (`RowOf`, `NormalizeAll`), or its `ensures` state
the result or the new array contents outright, and the lemmas are about
those functions.

Three behaviours of the code worth noting:

- `client.go:34` writes `row[action] = 0.0` whenever `actions` is an array,
  even when no action was requested (then `action` is `""`). The model does
  the same.
- In `ByFloat64.Less(i, j)`, when row i's sort value is neither a number
  nor a string (a missing key, say), the comparison is `0 < 0`, false, with
  no error, whatever row j holds (`main.go:35-38`, `main.go:54`). When row i
  holds a number and row j does not, the type assertion at `main.go:41`
  panics. When row i holds a string that parses and row j does not hold a
  string, the type assertion in the `ParseFloat` call at `main.go:48`
  panics. The model excludes those two cases by a precondition.
- A string that does not parse aborts the run (`main.go:43-50`). A string
  in row i that does not parse aborts it before row j is looked at, so
  whatever row j holds.

## Model

| member | source | states |
|---|---|---|
| `Values.InsightsOf` | client.go:19-22 | a record yields insights only when `insights` is an object whose `data` is a non-empty array whose first element is an object, and then that object |
| `Client.NormalizeField` | client.go:46-65 | a string `ad_id` is kept verbatim; any other string becomes `Num(f)` when the parser accepts it and stays the same string otherwise; an object becomes `Str` of its `%v` text; numbers, arrays, bools and null are unchanged; the result is never an object |
| `Client.ScanActions` | client.go:34-45 | the action column is set to 0 and then holds `ActionValue` of the elements: the last contributing element's value |
| `Client.Visit` | client.go:27-65 | handling one more insights field turns the row built from the fields seen so far into the row built from those fields plus this one, whichever field it is |
| `Client.BuildRow` | client.go:24-66 | visiting the insights keys in any order builds exactly `RowOf(insights)` |
| `Client.GetInsights` | client.go:13-72 | the result is `NormalizeAll(records)`: one row per record with insights, in record order |
| `Client.RowKeys` | client.go:26-34 | the row's keys are the insights keys; when `actions` is an array, `actions` is removed and the action column added, and nothing else changes |
| `Client.RowValues` | client.go:26-65 | every field but the `actions` array holds its normalised value under its own name; the action column holds the action value; no row value is an object |
| `Client.AdIdVerbatim` | client.go:48-52 | a string `ad_id` appears in the row exactly as received |
| `Client.LastMatchWins` | client.go:36-44 | the action value is that of a contributing element followed by no contributing element (last match wins) |
| `Client.LastMatchFrom` | client.go:36-44 | a non-default action value always comes from a contributing element after which none contributes |
| `Client.NoMatchDefault` | client.go:34-45 | no element contributes exactly when no match is found, and then the column is 0 |
| `Client.NonContributingKeeps` | client.go:39-43 | an element of another type, or a match without a value under the attribution window, leaves the action value unchanged |
| `Client.NormalizeAllAppend` | client.go:16-69 | normalising concatenated record lists concatenates the row lists (order is kept, pages accumulate) |
| `Client.NormalizeOne` | client.go:19-22 | a record without insights yields no row; any other record yields exactly its row |
| `Client.NormalizeAllCount` | client.go:16-68 | the number of rows equals the number of records that have insights |
| `Client.ExampleRow` | client.go:46-60 | `{"ad_id": "998877", "spend": "12.5", "nested": {"a":1}}` gives `ad_id` text `"998877"`, `spend` the number 12.5 and `nested` the map's text |
| `Client.ExampleLastWins` | client.go:36-44 | of two matching elements with values x and y, the column takes y |
| `Legacy.NormalizeValue` | main.go:71-86 | objects become their `%v` text; every string parses to a number when it can (including `ad_id`); everything else, arrays included, is unchanged; never an object |
| `Legacy.BuildRow` | main.go:68-87 | visiting the keys in any order builds exactly `RowOf(insights)` |
| `Legacy.GetInsights` | main.go:57-93 | the result is `NormalizeAll(records)` |
| `Legacy.RowShape` | main.go:70-87 | the row's keys equal the insights keys, and each holds its normalised value |
| `Legacy.AdIdParsed` | main.go:74-81 | a numeric-looking `ad_id` string becomes a number |
| `Legacy.NormalizeAllAppend` | main.go:60-90 | the older normaliser also keeps record order and accumulates over concatenation |
| `Legacy.NormalizeOne` | main.go:63-66 | a record without insights yields no row, any other exactly its row |
| `Ordering.LessAbortsFirst` | main.go:42-45 | a string in row i that does not parse makes the comparison abort naming that string, even when row j holds a number |
| `Ordering.Less` | main.go:34-55 | fails exactly when row i holds a string that does not parse, whatever row j holds, or row i's string parses and row j's string does not (naming the string that failed); otherwise it is `a < b` on the numbers when row i holds a number or a string, and false when it holds neither |
| `Ordering.OrderLess` | main.go:230-236 | the comparison the ascending sort or `sort.Reverse` (arguments swapped) makes: on a well-typed column it aborts exactly when one of the two values does not parse, and otherwise is `<` on the weights, negated for descending |
| `Ordering.Swap` | main.go:25-27 | exactly rows i and j are exchanged; the rows are a permutation of the old ones |
| `Ordering.CompareAndSwap` | main.go:25-55 | one comparison of a row with its left neighbour: it either aborts with the array unchanged (some row does not parse), stops with the array unchanged and rows 0..i ordered and parsed, or exchanges exactly rows j-1 and j and keeps the pass's invariant |
| `Ordering.Insert` | main.go:230-236 | one insertion pass keeps a permutation, leaves the rows after i as they were, extends the sorted prefix by one row, and fails only when some row does not parse |
| `Ordering.SortRows` | main.go:230-236 | the result is a permutation; it aborts exactly when there are at least two rows and some value does not parse; otherwise the weights are non-decreasing, or non-increasing under `sort.Reverse` |
| `Ordering.ColumnTypedPerm` | main.go:38-52 | whether the sort column is well typed does not depend on row order |
| `Ordering.AllParsePerm` | main.go:42-51 | whether every value parses does not depend on row order |
| `Strings.SplitOn` | main.go:229 | `strings.Split` on one character gives at least one piece, and no piece contains the separator |
| `Strings.SplitCount` | main.go:229 | there is one more piece than there are separators |
| `Strings.JoinPrefix` | main.go:241 | `strings.Join` of nothing is empty; a join starts with its first element, followed by the separator when there are more |
| `Strings.JoinLength` | main.go:241 | a join is as long as its elements together plus one separator fewer than there are elements |
| `Strings.JoinSplit` | main.go:229 | joining the pieces with the separator gives back the text |
| `Strings.SplitJoin` | printer.go:78 | splitting a join of separator-free pieces gives back the pieces |
| `Strings.Truncate` | printer.go:66 | `int(f)` truncates toward zero |
| `Strings.Digits` | printer.go:66 | `%d` digits are decimal digits without a leading zero |
| `Strings.Decimal` | printer.go:66 | the rendering starts with `-` exactly for negative numbers |
| `Strings.DecimalRoundTrip` | printer.go:66 | the `%d` rendering reads back as the integer printed |
| `Printer.JsonlLines` | printer.go:10-24 | one line per row, in row order, each the row's JSON encoding |
| `Printer.PrintAsJsonl` | printer.go:26-30 | prints exactly those lines |
| `Printer.PrintAsJson` | printer.go:32-49 | n+2 lines: `[`, then each encoding indented by two spaces with a comma after every one but the last, then `]` |
| `Printer.JsonFramedIsArray` | printer.go:37-46 | any output framed like that is the array lines built by recursion over the rows |
| `Printer.JsonDocument` | printer.go:32-49 | the printed text, every line ended by a newline, is `[`, newline, `]`, newline for no rows, and otherwise the encodings joined by `,`, newline, two spaces, between a `[` line and a `]` line |
| `Printer.Cell` | printer.go:56-75 | a missing or nil value gives an empty cell; a string is printed as is, a bool as `true`/`false`, a numeric `ad_id` as `%d` of its integer part, any other number by `%v`, an array by its JSON encoding, a map by its `%v` text |
| `Printer.Cells` | printer.go:55-76 | one cell per key, in key order, each the chosen cell text |
| `Printer.PrintAsCsv` | printer.go:51-79 | one line per row, each the row's cells for the keys joined by the separator |
| `Printer.CsvLineSplits` | printer.go:51-79 | with a one-character separator no cell contains, every line splits back into exactly `len(keys)` cells |
| `Printer.AdIdCell` | printer.go:64-67 | a numeric `ad_id` cell reads back as the number's integer part |
| `Cli.Colsep` | main.go:190-192 | the two characters `\t` become a tab, everything else is unchanged; the result is never the two-character `\t` |
| `Cli.Keys` | main.go:229 | the keys are the comma-separated field names: one more than there are commas, none containing a comma, joined back they give the field list |
| `Cli.Header` | main.go:241 | with `,` as separator the header is the field list verbatim |
| `Cli.HeaderSplits` | main.go:241 | with a one-character separator absent from the field list, the header splits back into the keys |
| `Cli.SortDispatch` | main.go:230-236 | no sort key leaves the rows untouched; otherwise a permutation, non-increasing for `desc` and non-decreasing for any other order, or an abort exactly when there are at least two rows and some value does not parse |
| `Cli.SortedRows` | main.go:227-236 | the same at the level of `main`'s row slice |
| `Cli.Render` | main.go:238-245 | `json` prints the framed array, `csv` the header followed by one line per row, anything else JSON Lines |
| `Cli.Run` | main.go:227-245 | the printed rows are a permutation of the normalised rows, unchanged without a sort key, ordered as asked; an abort prints nothing; `json` prints `[`, each row's encoding indented with a comma after all but the last, and `]`; `csv` prints the header and then each row's cells in those rows' order; anything else prints the encodings |
| `Variants.FieldsAgree` | client.go:46-65 | outside `ad_id` and the `actions` array both normalisers store a field alike |
| `Variants.RowsAgree` | client.go:24-66 | without a string `ad_id` and without an `actions` array both normalisers build the same row |
| `Variants.AdIdDiffers` | client.go:48-52 | a numeric string `ad_id` stays text in the current normaliser and prints verbatim in CSV, while the older one makes it a number printed as its integer part |
| `Variants.SameRowCount` | client.go:16-22 | both normalisers skip the same records |

## Left out

- HTTP: building the URL and query, the token, sending the request, reading
  and decoding the response, and taking its `data` array (`main.go:194-225`,
  `buildRequest` in `client.go:74-104`). The records are a parameter. The
  format string at `client.go:88` has three `%s` verbs and two arguments;
  it is not modelled.
- Flag parsing and the `FB_ACCESS_TOKEN` environment variable
  (`main.go:168-188`, `main.go:194-197`). The settings are the `Cli.Config`
  parameter.
- Paging: the sources fetch one page. `Client.NormalizeAllAppend` states how
  rows of successive pages would accumulate.
- The exact results of `strconv.ParseFloat`, of `%v` on a float64 or a map,
  and of `json.Marshal`. They are arbitrary functions in `Values.Primitives`.
  Numbers are `real`, so NaN and infinities do not occur. The `log.Fatal`
  calls on a `json.Marshal` error (`printer.go:16-18`, `printer.go:59-61`)
  are not modelled, because the encoder is total.
- Go's map iteration order beyond what the model's arbitrary key choice
  covers. A result that depends on the order needs `action` to equal an
  insights key when `actions` is an array. `Client.InsightsTyped` excludes
  that case.
- The panics of the type assertions are preconditions, not modelled
  behaviour. A non-object `actions` element (`client.go:37`) and a
  non-number value under the attribution window (`client.go:42`) are
  excluded by `Client.ElementTyped`. For one comparison, the pairs that
  panic at `main.go:41` and `main.go:48` are excluded by
  `Ordering.Comparable`; for the sort, a column mixing kinds is excluded by
  `Ordering.ColumnTyped`.
- Ordering.SortRows: Go's `sort.Sort` is pdqsort, and which pairs it
  compares is not specified. The model sorts by insertion through `Less` and
  `Swap`, so the order of equal rows is that algorithm's. The precondition
  covers every pair: all numbers, all strings, or all neither. Go panics only
  when some pair it actually compares is mixed.
- Strings.Truncate: does not model the out-of-range result of `int(f)` for
  values beyond the 64-bit integer range, because it is unbounded.
- `InsightsSlice.Len` has no member of its own. The sort uses the array's
  `Length`.
- The copies of the serialisers in `main.go` (`getJsonlLines`, `printAsJsonl`,
  `printAsJson`, `printAsCsv` at `main.go:95-165`) are textually the same as
  those of `printer.go`. They are modelled once, in `Printer`, and `Cli.Render`
  uses them.
- `fmt.Println` output and incremental printing. The printers return the
  sequence of lines they would print.
