# Party supply estimator — a Dafny model of the estimation engine

The repository is a one-page calculator that estimates how much beer,
liquor ("booze"), cannabis ("za") and cocaine ("bag") a party needs. The
user gives a headcount, a vibe (`chill`, `pregame` or `fullsend`) and four
participation shares in percent. The engine turns these into:

- a participant count per substance: the headcount times the share, rounded
  half up to a whole person;
- a raw total: that count times the vibe's per-person rate;
- packaging units: cans (the ceiling of the beer total), half-barrel kegs
  (165 servings), fifths (17 shots), handles (39 shots), ounces (28 g) and
  eighths (3.5 g), each rounded to two decimals;
- a result record with the headcount, the vibe, four top-line totals and a
  five-row breakdown (beer, kegs, booze, za, bag).

The summary line shows the vibe key with a space inserted before each
capital letter.

The model is pure, like the source. JavaScript numbers become exact Dafny
`real`s, and rounding is written out:

- `Math.round(x)` is `(x + 0.5).Floor`, which rounds a half toward +infinity
  as JavaScript does, negatives included;
- `Math.ceil` is the least integer not below its argument;
- `round(n)` is `Math.round(n * 100) / 100`.

Modules, one per concern of `src/App.jsx`:

- `Wrappers`: `Option`.
- `Rounding`: the three rounding operations and their laws.
- `Presets`: the vibe enumeration, the rate table, string-key lookup and the
  intensity order.
- `Inputs`: `clampPercent` and the headcount floor.
- `VibeDisplay`: the display transform of the vibe key, and its inverse.
- `Estimation`: `calculate`, with the per-substance figures, the breakdown
  rows and the result record.
- `EstimationProperties`: the lemmas about the whole engine.

The engine is a Dafny function, so the same input always gives the same
estimate. No lemma is needed for that.

Two details of the code that the model keeps:

- `Spaced` puts a space before every capital, a leading one included, as
  `replace(/([A-Z])/g, ' $1')` does (src/App.jsx:170).
- `kegs` divides the unrounded beer total (src/App.jsx:38). That total is
  always whole, so rounding it first would change nothing
  (`BeerRoundedExact`).

## Model

| member | source | states |
|---|---|---|
| `Rounding.RoundHalfUp` | src/App.jsx:11 | Math.round gives the integer within half of its argument, a half going up: `x - 0.5 < r <= x + 0.5` |
| `Rounding.RoundHalfUpMonotone` | src/App.jsx:11 | Math.round never decreases as its argument grows |
| `Rounding.Ceil` | src/App.jsx:37 | Math.ceil gives the least integer not below its argument |
| `Rounding.CeilMonotone` | src/App.jsx:37 | Math.ceil never decreases as its argument grows |
| `Rounding.CeilOfWhole` | src/App.jsx:37 | Math.ceil leaves a whole number unchanged |
| `Rounding.Round2` | src/App.jsx:10-12 | round gives a whole number of hundredths within 0.005 of its argument (above by at most 0.005, below by less than 0.005); a non-negative argument gives a non-negative result |
| `Rounding.Round2OfCents` | src/App.jsx:10-12 | round leaves a value that is already at two decimals unchanged |
| `Rounding.Round2Idempotent` | src/App.jsx:10-12 | rounding twice is rounding once |
| `Rounding.Round2OfWhole` | src/App.jsx:10-12 | round leaves a whole number unchanged |
| `Rounding.Round2Monotone` | src/App.jsx:10-12 | round never decreases as its argument grows |
| `Rounding.Round2NonNegative` | src/App.jsx:10-12 | round of a non-negative value is non-negative |
| `Rounding.Round2Zero` | src/App.jsx:10-12 | round of zero is zero |
| `Presets.Preset` | src/App.jsx:4-8 | every rate in the table is positive, and the beer and drink rates are whole numbers |
| `Presets.Key` | src/App.jsx:4-8 | each vibe has its own table key, and looking that key up finds the vibe again |
| `Presets.VibeOfKey` | src/App.jsx:32 | a key is found exactly when it is `chill`, `pregame` or `fullsend` |
| `Presets.PresetsOrdered` | src/App.jsx:4-8 | along chill, pregame, fullsend no rate ever goes down |
| `Presets.PresetsStrictlyOrdered` | src/App.jsx:4-8 | a more intense vibe has a strictly higher rate for every substance |
| `Inputs.ClampPercent` | src/App.jsx:14-19 | the share lies in [0, 100]; a value already in range is kept; NaN becomes 0, below 0 becomes 0, above 100 becomes 100 |
| `Inputs.ClampPercentIdempotent` | src/App.jsx:14-19 | clamping a clamped share changes nothing |
| `Inputs.Head` | src/App.jsx:31 | the headcount used is at least 1; it equals the input when the input is at least 1, and is 1 otherwise |
| `Inputs.HeadMonotone` | src/App.jsx:31 | a larger headcount input never gives a smaller headcount |
| `VibeDisplay.Spaced` | src/App.jsx:170 | the display form is longer than the key by its number of capitals, and never starts with a capital |
| `VibeDisplay.UnspacedSpaced` | src/App.jsx:170 | removing each space that stands before a capital gives back the key, so the display form determines the key |
| `VibeDisplay.SpacedCapitalsPreceded` | src/App.jsx:170 | every capital in the display form has a space right before it |
| `VibeDisplay.SpacedWithoutCapitals` | src/App.jsx:170 | a key without capitals is displayed unchanged |
| `Estimation.KeyShownAsIs` | src/App.jsx:170 | each of the three preset keys is displayed unchanged |
| `Estimation.Estimate.VibeLabel` | src/App.jsx:170 | the summary shows the vibe exactly as its key |
| `Estimation.Participants` | src/App.jsx:35 | for a headcount of at least 1 and a share in [0, 100], a participant count (`Math.round(head * (share / 100))`, as on lines 35, 41, 48 and 53) lies between 0 and the headcount |
| `Estimation.BeerPlan` | src/App.jsx:36-38 | the can count is the ceiling of the beer total; kegs are whole hundredths; with no negative count or rate, beers, cans and kegs are not negative |
| `Estimation.LiquorPlan` | src/App.jsx:42-45 | fifths and handles are whole hundredths; with no negative count or rate, shots, fifths and handles are not negative |
| `Estimation.WeedPlan` | src/App.jsx:49-50 | the cannabis grams and ounces are whole hundredths; with no negative count or rate, neither is negative |
| `Estimation.CokePlan` | src/App.jsx:54-55 | the cocaine grams and eighths are whole hundredths; with no negative count or rate, neither is negative |
| `Estimation.Calculate` | src/App.jsx:30-93 | the result has five rows in the order beer, kegs, booze, za, bag; the table repeats the summary's totals; the headcount is at least 1 and equals the input when that is at least 1; the vibe is echoed |
| `EstimationProperties.ParticipantsMonotone` | src/App.jsx:35 | a larger headcount or share never gives fewer participants |
| `EstimationProperties.ParticipantsOfNoShare` | src/App.jsx:35 | a share of 0 gives no participants |
| `EstimationProperties.ParticipantsOfFullShare` | src/App.jsx:35 | a share of 100 makes every guest a participant |
| `EstimationProperties.BeerTotalsWhole` | src/App.jsx:36-37 | with a whole per-person rate, the beer total is a whole number and the can count equals it |
| `EstimationProperties.LiquorShotsWhole` | src/App.jsx:42-43 | with a whole per-person rate, the shot total is a whole number |
| `EstimationProperties.BeerRoundedExact` | src/App.jsx:60-65 | rounding the beer total and the keg count again, as the beer and keg rows do, changes neither |
| `EstimationProperties.LiquorRoundedExact` | src/App.jsx:70 | rounding the shot total again, as the booze row does, changes nothing |
| `EstimationProperties.ReroundingChangesNothing` | src/App.jsx:85-93 | the result's beer and shot totals and the keg row are exactly the unrounded figures |
| `EstimationProperties.PackagingRatios` | src/App.jsx:35-55 | the beer and shot totals are whole and there is one can per beer; kegs, fifths, handles, ounces and eighths are round(total / 165, 17, 39, 28, 3.5) of the totals the summary shows |
| `EstimationProperties.BreakdownLabels` | src/App.jsx:57-83 | the five rows carry the item labels "Beer (12 oz servings)", "Kegs (half-barrel = ~165 cans)", "Booze (standard drinks/shots)", "Za" and "Bag", in that order (`Estimation.Row.Item`) |
| `EstimationProperties.NonNegativeEstimate` | src/App.jsx:30-93 | with every share in [0, 100], no figure of the result is negative: totals, counts, rates or packaging units |
| `EstimationProperties.BeerOfNobody` | src/App.jsx:36-38 | no beer drinkers means no beers, cans or kegs |
| `EstimationProperties.LiquorOfNobody` | src/App.jsx:42-45 | no drinkers means no drinks, shots, fifths or handles |
| `EstimationProperties.WeedOfNobody` | src/App.jsx:49-50 | no users means no grams and no ounces |
| `EstimationProperties.CokeOfNobody` | src/App.jsx:54-55 | no users means no grams and no eighths |
| `EstimationProperties.ZeroShareZeroQuantities` | src/App.jsx:35-55 | a substance with share 0 gets no participants and zero of every quantity derived from it, whatever the headcount and vibe |
| `EstimationProperties.BeerMonotone` | src/App.jsx:36-38 | more drinkers or a higher rate never lowers beers, cans or kegs |
| `EstimationProperties.LiquorMonotone` | src/App.jsx:42-45 | more drinkers or a higher rate never lowers shots, fifths or handles |
| `EstimationProperties.WeedMonotone` | src/App.jsx:49-50 | more users or a higher rate never lowers grams or ounces |
| `EstimationProperties.CokeMonotone` | src/App.jsx:54-55 | more users or a higher rate never lowers grams or eighths |
| `EstimationProperties.CountsMonotone` | src/App.jsx:31-53 | a larger headcount or larger shares never lower any participant count |
| `EstimationProperties.EstimateMonotone` | src/App.jsx:30-93 | a larger headcount, larger shares or a more intense vibe (chill, pregame, fullsend) never lower any figure of the result |
| `EstimationProperties.DefaultScenario` | src/App.jsx:22-93 | the initial form state `DefaultInput` (lines 22-27: 25 guests, chill, 60/30/25/5) gives 15 drinkers, 30 beers, 30 cans, 0.18 kegs; 8 drinkers, 8 shots, 0.47 fifths, 0.21 handles; 6 users, 3 g, 0.11 oz; 1 user, 0.1 g, 0.03 eighths |
| `EstimationProperties.SingleGuestFullSend` | src/App.jsx:30-93 | one guest, every share at 100 and fullsend give one participant per substance and exactly the rates: 5 beers, 3 drinks, 2 g, 0.5 g |

## Left out

- React state, `useEffect` recomputation, `setResults`, the JSX form and table, and the stylesheet. These are presentation only. The caller is assumed to call `Calculate` again after every input change.
- `parseFloat` and `parseInt` (src/App.jsx:15, 113), which parse strings in the JavaScript runtime. `ClampPercent` takes the parsed value as `Option<real>`, with `None` standing for NaN. Infinite values, which `parseFloat` can also return, are not modelled. The headcount is an `int`, which is all the form's handler ever stores.
- IEEE-754 doubles. The model computes on exact reals. At rounding boundaries a double can land on the other side, for example `Math.round(1.005 * 100)` gives 100 in JavaScript. The model's figures are those of exact arithmetic.
- An unknown vibe key. The JavaScript throws for most unknown keys, and gives NaN figures for a name inherited from `Object.prototype` such as `toString`. The three-option select (src/App.jsx:117-125) supplies neither. `Calculate` takes a `Vibe` from a closed enumeration, and `VibeOfKey` returns `None` for any other string.
- The text of the `quantity` and `notes` columns and of the summary line. These depend on JavaScript's number-to-string formatting. Each breakdown row is modelled as the numbers it shows plus its fixed item label. The keg row's fixed note is left out.
- The disclaimer footer (src/App.jsx:194-198), which is static text.
