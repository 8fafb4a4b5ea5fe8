# Crypto portfolio tracker: bookkeeping and valuation model

This project models the portfolio logic of a single-page crypto portfolio dashboard
(`src/App.js`). The user records holdings. A holding is a symbol, an amount and a purchase
price. The dashboard shows summary figures, a distribution pie chart and a holdings table,
priced against a symbol-to-price table. The model covers:

- **Holding list** (`holdings.dfy`, module `Holdings`): the entry form (`Draft`), the
  session state (`Session`), adding a holding from the form and removing holdings by id.
- **Summary figures** (`valuation.dfy`, module `Valuation`): the fold that yields total
  value, total invested, total P&L and the guarded P&L percentage. An unknown symbol is
  priced at 0.
- **Pie chart data** (`distribution.dfy`, module `Distribution`): one slice per holding,
  with its value and its share of the total value.
- **Holdings table** (`rows.dfy`, module `Rows`): the per-row metrics. Holdings whose
  symbol has no price entry are skipped.
- `wrappers.dfy` (module `Wrappers`): the `Option` type.

Modelling choices:

- React state is an explicit `Session` value passed into and returned from pure functions.
- JavaScript numbers are exact `real`s.
- `parseFloat` is the parameter `parse: string -> real`. The add operation checks only that
  the three form fields are non-empty, so the model does not claim that non-numeric input
  is rejected.
- The `Date.now()` id and the `toLocaleDateString()` date are parameters of `AddHolding`.
  Timestamp ids are not guaranteed to be unique. Lemmas that need unique ids take
  `UniqueIds` or `Fresh` as a precondition.
- The price table is an arbitrary `map<string, PriceEntry>`. The lookup
  `cryptoData[symbol]?.price || 0` becomes `CurrentPrice`: the entry's price, or 0 when the
  symbol is absent. A stored price of 0 gives 0 either way.
- The table row's P&L percentage divides by the invested value with no guard. Here it is
  an `Option<real>` that is `None` exactly when that divisor is 0. The summary percentage
  is guarded in the source and is a plain `real` here.

Three behaviours of the code that the model keeps as written:

- The add operation rejects only empty fields. Non-numeric text still reaches `parse`
  (src/App.js:73-80). In the running app the amount and price fields are number inputs
  (src/App.js:290, 299), and a browser reports an invalid number there as "", which the
  emptiness guard then refuses.
- The summary percentage's guard is `totalInvested > 0` (src/App.js:107), so a negative
  invested total also gives 0.
- Ids come from `Date.now()` (src/App.js:77) and can repeat. Removal drops every holding
  with the id. The list shrinks by the number of holdings that carry the id (`RemoveHolding`),
  so by exactly one when one holding carries it. `RemoveUnique` states this for every id of a
  list with unique ids.

## Model

| member | source | states |
|---|---|---|
| Holdings.AddHolding | src/App.js:72-86 | An incomplete draft (any empty field) leaves the portfolio and the draft unchanged. Otherwise exactly one holding is appended after the unchanged earlier holdings. It has the given id and date, the upper-cased symbol and the parsed amount and purchase price. The draft is reset to three empty strings. |
| Holdings.UpperChar | src/App.js:78 | Lower-case ASCII letters map to their upper-case letter. Every other character is unchanged. No lower-case letter remains. |
| Holdings.ToUpper | src/App.js:78 | The upper-cased symbol has the same length, contains no lower-case letter, and agrees with the input character by character up to case. |
| Holdings.ToUpperFixesUpper | src/App.js:78 | Upper-casing a symbol that has no lower-case letter returns it unchanged. |
| Holdings.ToUpperIdempotent | src/App.js:78 | Upper-casing twice equals upper-casing once. |
| Holdings.RemoveHolding | src/App.js:88-90 | No holding carrying the id is left, and the length drops by exactly the number of holdings that carried it. When no holding has that id, the list is returned unchanged. |
| Holdings.RemoveMembers | src/App.js:88-89 | A holding is kept exactly when it was in the list and its id differs from the removed id. |
| Holdings.RemoveDistributes | src/App.js:88-89 | Filtering a concatenation equals concatenating the filtered parts, so kept holdings stay in their original order. |
| Holdings.RemoveIdempotent | src/App.js:88-89 | Removing the same id twice equals removing it once. |
| Holdings.UniqueIdsCons | src/App.js:77 | A non-empty list has unique ids exactly when its head's id is fresh for the tail and the tail has unique ids. |
| Holdings.AddKeepsIdsUnique | src/App.js:76-84 | If ids are unique and the new id is fresh, they are still unique after an add. |
| Holdings.RemoveKeepsIdsUnique | src/App.js:88-89 | Removal keeps unique ids unique. |
| Holdings.RemoveSplit | src/App.js:88-89 | Removing the id of x from a + [x] + b, when neither a nor b holds that id, leaves exactly a + b. |
| Holdings.RemoveUnique | src/App.js:88-89 | With unique ids, removing the id of the holding at position k gives the list without that one holding. The length drops by exactly one. |
| Holdings.RemoveUndoesAdd | src/App.js:76-89 | Removing the fresh id of a just-added holding gives back the portfolio as it was before the add. |
| Holdings.AddKeepsSelectedSymbol | src/App.js:78 | A draft symbol with no lower-case letter is stored unchanged. This is the case for a symbol picked from the upper-case price-table keys. |
| Valuation.TotalsAppend | src/App.js:96-103 | The total value and the invested total of a concatenation are the sums of the parts' totals. |
| Valuation.CalculatePortfolioStats | src/App.js:92-110 | The one-pass accumulation over the holdings gives exactly the four summary figures defined from the recursive sums. Total value is the sum of amount × (price or 0). Invested is the sum of amount × purchase price. |
| Valuation.StatsMeaning | src/App.js:105-107 | The P&L is total value minus invested. The percentage is 0 when the invested total is not positive. Otherwise percentage × invested = P&L × 100. |
| Valuation.EmptyPortfolioStats | src/App.js:93-109 | An empty portfolio gives all four summary figures 0. |
| Valuation.InvestedIgnoresPrices | src/App.js:96-102 | The invested total is the same under any two price tables. |
| Valuation.UnknownSymbolCounts | src/App.js:97-102 | Appending a holding whose symbol has no price leaves the total value unchanged. It raises the invested total by amount × purchase price and lowers the P&L by the same amount. |
| Valuation.AddHoldingStats | src/App.js:76-102 | A successful add raises the total value by parsed amount × price of the upper-cased symbol. It raises the invested total by parsed amount × parsed purchase price. |
| Valuation.RemoveHoldingStats | src/App.js:88-102 | With unique ids, removing the holding at position k lowers the total value by that holding's current value and the invested total by its invested amount. |
| Valuation.PercentageSign | src/App.js:105-107 | When the invested total is positive, the percentage is non-negative exactly when the P&L is. The summary card colours both figures by this sign. |
| Valuation.BitcoinScenario | src/App.js:92-110 | One BTC bought at 40000 and priced at 43250 gives value 43250, invested 40000, P&L 3250 and percentage 8.125. |
| Distribution.Slices | src/App.js:115-123 | There is one slice per holding, in order. Each slice has name = symbol, value = amount × (price or 0), and a percentage equal to its share of the given total, or 0 when the total is not positive. |
| Distribution.PortfolioDistribution | src/App.js:115-123 | The chart data has one slice per holding in input order. Each slice is named by the symbol, valued with the same price-or-0 lookup as the total, and carries its share of the summary's total value (0 when that total is not positive). |
| Distribution.SlicesValuesSum | src/App.js:97-120 | Slice values sum to the total value, whatever total the percentages are measured against. |
| Distribution.SlicesPercentagesSum | src/App.js:121 | Against a positive total, the slice percentages sum to the total value / total × 100. |
| Distribution.DistributionValuesSum | src/App.js:97-120 | The chart's slice values sum to the summary's total value. |
| Distribution.DistributionPercentagesSum | src/App.js:121 | The slice percentages sum to 100 when the total value is positive. Otherwise every percentage is 0. |
| Distribution.EmptyDistribution | src/App.js:115-123 | An empty portfolio has no slices. |
| Rows.RowMetrics | src/App.js:342-349 | There is no row exactly when the symbol has no price entry. Otherwise: current value = amount × entry price, invested = amount × purchase price, and P&L + invested = current value. The percentage exists exactly when invested ≠ 0, and then percentage × invested = P&L × 100. |
| Rows.RowAgreesWithSummary | src/App.js:97-99 | For a priced holding, the row's current value and invested value equal the amounts the summary adds for it. |
| Rows.TableRows | src/App.js:341-343 | The number of rows equals the number of holdings whose symbol has a price entry. Every row belongs to a holding of the list and equals that holding's metrics. Every holding with a priced symbol has its row. |
| Rows.TableRowsDistribute | src/App.js:341 | Rows of a concatenation are the concatenated rows of the parts, so rows follow holding order. |
| Rows.RowValuesMatchTotal | src/App.js:97-101 | The table's current values sum to the summary's total value. Skipped holdings are also valued at 0 in the total. |
| Rows.RowInvestedGap | src/App.js:99-102 | The table's invested values plus what was paid for unpriced holdings equal the summary's invested total. This is the table/summary asymmetry. |
| Rows.UnknownSymbolScenario | src/App.js:93-103 | Two units of an unpriced symbol bought at 10 give total value 0, invested 20 and an empty table. |
| Rows.AddedSelectionHasRow | src/App.js:76-84 | Adding from a draft whose symbol is an upper-case key of the price table adds exactly one table row. |

## Left out

- Rendering: JSX markup, styling classes, the line and pie charts and the icons (src/App.js:127-426). Colour choices and display conditionals are not modelled. This covers the sign tests on P&L, percentages and the 24-hour change (src/App.js:164, 184, 383, 390, 399, 405) and the pie colour index `index % COLORS.length` (src/App.js:250). `Valuation.PercentageSign` relates the two summary cards' signs only when the invested total is positive. When it is not, the percentage card shows 0 whatever the sign of the P&L.
- `tailwind.config.js`: build-time styling configuration with no logic.
- `generatePriceHistory` and the effect that seeds the chart (src/App.js:44-70). They depend on `Math.random` and the clock and produce mock data only.
- The mock price table contents (src/App.js:35-41): the price table is an arbitrary input.
- React `useState` plumbing: state is an explicit `Session` value.
- `Date.now()` ids and `toLocaleDateString()` dates: these are parameters.
- `parseFloat`, NaN, infinities and floating-point rounding: numbers are exact reals and parsing is the opaque `parse` parameter.
- `toFixed` display formatting.
- Holdings.UpperChar: maps only ASCII `a`-`z` and leaves every other character unchanged. JavaScript's `toUpperCase` also upper-cases non-ASCII lower-case letters.
- Holdings.ToUpper: handles ASCII letters only. JavaScript's `toUpperCase` also maps other Unicode letters, sometimes to longer strings. In the running app, symbols come from a select over the price table's upper-case keys.
- Rows.RowMetrics: the unguarded per-row division yields Infinity or NaN in JavaScript when the invested value is 0. The model gives `None` there instead of a non-finite number.
- Object-property lookup on the price table is modelled as map membership. Inherited properties of JavaScript objects are not modelled. Upper-cased symbols cannot name them anyway.
