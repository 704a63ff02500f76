# Pet health dashboard: summary cards

This project models the summary cards on the home page of a pet-care
dashboard. The page keeps the bathroom statistics it fetched, `bathroomData`.
From them it derives three cards:

- **Average Urination** and **Average Defecation**: each is the total of one
  per-day count series divided by `Math.max(1, length)`.
- **Most Common Time** (`getMostCommonTime`): the pee counts and the poop
  counts are joined into one array. If their average is zero, the card reads
  "N/A" / "No data available". Otherwise it finds the first position of the
  largest count and looks that position up in the pee labels. The description
  is "Most active on " followed by that label.

Counts are `nat`. A series is `Series(data, labels)`. The card's value is
`MostCommon(time, description)`, where `time` is an `Option<string>` and
`None` stands for the JavaScript `undefined` that the lookup can produce.
The JavaScript built-ins the card uses are modelled in module `ArrayOps`:
the adding `reduce` (`Sum`), `Math.max(...xs)` (`Max`) and `indexOf`
(`IndexOf`). Module `Home` holds the page's computation.

Every member is a function of the statistics value. So the computation
reads `bathroomData` and returns a fresh value, and it cannot modify
`bathroomData`.

The guard compares the average with zero, as the source does. The average
is modelled as an exact `real` quotient. `Average` proves that this quotient
is zero exactly when the integer total is zero.

## Model

| member | source | states |
|---|---|---|
| `ArrayOps.Sum` | src/pages/Home.jsx:58 | The total of the counts is zero exactly when every count is zero, and no count exceeds it |
| `ArrayOps.SumAppend` | src/pages/Home.jsx:57-58 | The total of a joined array is the sum of the two parts' totals |
| `ArrayOps.Max` | src/pages/Home.jsx:63 | `Math.max` of a non-empty array is one of its counts and is at least every count |
| `ArrayOps.IndexOf` | src/pages/Home.jsx:63 | `indexOf` gives -1 exactly when the value is absent; otherwise it gives an in-range position holding the value, with no earlier position holding it |
| `ArrayOps.FirstPeakUnique` | src/pages/Home.jsx:63 | Only one position can be a first occurrence of the maximum |
| `ArrayOps.PeakIndex` | src/pages/Home.jsx:63 | `indexOf(Math.max(...))` on a non-empty array is a first peak: it is in range, no count is larger, and every earlier count is strictly smaller |
| `Home.AllData` | src/pages/Home.jsx:57 | The joined series has length equal to the sum of both lengths; the pee counts come first and the poop counts follow, in order |
| `Home.AllDataTotal` | src/pages/Home.jsx:57-58 | The joined total is the pee total plus the poop total |
| `Home.Divisor` | src/pages/Home.jsx:59 | The divisor (`length`, or 1 when the length is 0, as in `Math.max(1, length)`) is always at least 1, equals the length when the series is non-empty, and is 1 when it is empty |
| `Home.Average` | src/pages/Home.jsx:142-150 | An average card's exact value is never negative and is zero exactly when the series' total is zero; an empty series averages zero with no division by zero |
| `Home.Lookup` | src/pages/Home.jsx:64 | Array indexing `labels[i]`: a label exactly when `0 <= i < length`, and then the label at `i`; `undefined` (`None`) for any other index, including -1 and positions past the end |
| `Home.Show` | src/pages/Home.jsx:68 | The template literal's `${time}`: a string renders as itself and `undefined` renders as the word "undefined" |
| `Home.MostCommonTime` | src/pages/Home.jsx:56-70 | The card is "N/A" / "No data available" exactly when the joined total is zero. Otherwise some first peak `k` of the joined series exists; the time is `pee.labels[k]` when `k` is within the pee labels and `undefined` otherwise; the description is "Most active on " followed by that time |
| `Home.MostCommonTimeAt` | src/pages/Home.jsx:63-69 | For any first peak `k` of a non-zero joined series, the card is exactly `(pee.labels[k], "Most active on " + pee.labels[k])` when `k` is within the pee labels, and `(undefined, "Most active on undefined")` otherwise |
| `Home.NoDataIffAveragesZero` | src/pages/Home.jsx:58-61 | The card shows "No data available" exactly when both exact averages (before `toFixed` rounding) are zero; src/pages/Home.jsx:142 and 150 compute those averages |
| `Home.PoopPeakHasNoLabel` | src/pages/Home.jsx:63-64 | Suppose a poop count is positive and beats every pee count, and the pee labels are no longer than the pee counts. Then the time is `undefined` and the description is "Most active on undefined" |
| `Home.PeePeakIsLabelled` | src/pages/Home.jsx:63-69 | Suppose the first maximum of the pee counts is positive, no poop count exceeds it, and every pee day has a label. Then the card names that pee day's label |
| `Home.MostCommonTimeLabelled` | src/pages/Home.jsx:56-70 | Corrected card: same guard and same first peak, but the label is taken from the series the peak lies in. When every day of both series has a label, the time is always defined |
| `Home.PoopOnlyDayExample` | src/pages/Home.jsx:64 | With pee `[0]`/`["Mon"]` and poop `[3]`/`["Mon"]`, the card as written gives `undefined`, and the corrected card gives "Mon" |

## Left out

- Fetching and posting bathroom logs (`fetchBathroomData`, `handleAddBathroomLog`), the React state setters they call and the error banner. These are network I/O and UI state.
- The `consistency` series of `bathroomData`. It only feeds the pie chart, which renders it unchanged.
- Floating-point rounding of the averages and their `toFixed(1)` display. `Average` is the exact quotient. For whole counts it is zero under IEEE-754 division exactly when the exact quotient is zero, so the guard is unaffected.
- JavaScript number limits: counts are unbounded `nat`, so sums beyond 2^53 are not rounded as they would be in the page.
- Max: does not model engine argument limits. `Math.max(...allData)` (src/pages/Home.jsx:63) throws a RangeError once the spread passes the engine's argument limit. `Max` returns a value for a series of any length.
- Array elements that are not numbers, and labels that are not strings. The backend's payload is taken to hold whole counts and string labels.
- Rendering: a `time` of `undefined` renders as an empty card title. The model only records the value.

## Findings

| source | as written | input that shows it | evidently intended | confidence | as-written member | corrected member |
|---|---|---|---|---|---|---|
| src/pages/Home.jsx:63-64 | The peak's index into the joined pee-then-poop series is looked up in `pee.labels` alone. A peak in the poop half reads past the end of the pee labels, so the card shows `undefined` and "Most active on undefined" | pee `{data: [0], labels: ["Mon"]}`, poop `{data: [3], labels: ["Mon"]}` | The peak is labelled by its own series' day label, here "Mon" | medium: the intended label is inferred from the card's wording; not executed | `Home.PoopPeakHasNoLabel` | `Home.MostCommonTimeLabelled` |
