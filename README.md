# Solar estimation engine for Swedish homes — a Dafny model

This project models the core of a lead-generation site for residential solar power in Sweden. A household enters its roof area, roof tilt, compass orientation and yearly electricity use, and gets back an estimate:

- a recommended system size in kWp;
- the installed cost in SEK;
- the expected yearly production in kWh;
- the payback time in years;
- the avoided CO₂ in kg per year.

The model covers three parts:

- **The estimation engine** (`lib/calculations.ts`), in `calculations.dfy`. It holds the orientation table with its 0.9 fallback, the tilt step function around 35°, production (kWp × 950 × orientation × tilt, rounded), sizing (min of roof and consumption bounds, clamped to [1.5, 50], one decimal), cost, payback with its 99-year sentinel, CO₂ at 25 g/kWh, and the pipeline `RunSolarCalculation` that chains them.
- **The calculator's input schemas** (`lib/types.ts`), in `validation.dfy`. A schema check either accepts the input or lists one issue, with its Swedish message, per failing check. `postal_codes.dfy` holds the postal-code shape `^\d{3}\s?\d{2}$` and the wizard's postal-code normaliser (`app/kalkylator/page.tsx`).
- **The product-selection rule** of the result page (`components/CalculatorResultDisplay.tsx`), in `product_matching.dfy`. It shows the products within 2 kWp of the recommendation, or else the first three.

`validated_estimate.dfy` models the calculate endpoint (`app/api/calculate/route.ts`), which parses the form and runs the engine at default prices. The endpoint rejects exactly the forms with a failing field. At default prices the estimate stays within realistic bounds; this holds for every input, accepted or not. Only the orientation lemma there needs the form to be accepted. `rounding.dfy` and `wrappers.dfy` hold the rounding primitives and an `Option`/`Result` pair.

All three core files are pure, so everything is modelled with datatypes, functions and lemmas. Numbers are exact `real`s. JavaScript's `Math.round(x)` is modelled as `Floor(x + 1/2)`, which is exactly its rule (halves go towards +∞), negatives included. Optional parameters (`pricePerKwpSek`, `electricityPriceSekPerKwh`) are `Option<real>` values whose absence selects the default constant. The only input-dependent external behaviour is `String.prototype.toUpperCase`. It is modelled for `a`–`z`, `å`, `ä`, `ö` and `ſ` (U+017F, which upper-cases to `S`), and as the identity elsewhere.

Two behaviours of the source are worth knowing, and the model states both as the code has them:

- `paybackYears(0, 1000)` is 0, not the 99-year sentinel. At the default 2.2 SEK/kWh, 1000 kWh is a positive saving of 2200 SEK, so the result is `round(min(99, 0 / 2200) × 10) / 10 = 0`. Only a saving ≤ 0 gives 99 (lib/calculations.ts:82-85). `PaybackOfZeroInvestment` and `PaybackWithoutProduction` state this.
- `Math.round` (lib/calculations.ts:41) rounds halves towards +∞, not away from zero, so `Math.round(-2.5) == -2`. The two rules agree on the non-negative values the engine sees from accepted input.

## Model

| member | source | states |
|---|---|---|
| `Rounding.Round` | lib/calculations.ts:41 | `Math.round(x)` is the unique integer in (x − ½, x + ½] |
| `Rounding.RoundTenth` | lib/calculations.ts:57 | `Math.round(x*10)/10` has one decimal and lies within 0.05 of x |
| `Calculations.UpperChar` | lib/calculations.ts:39 | `toUpperCase` on one character leaves no modelled lower-case letter, changes every lower-case letter and nothing else |
| `Calculations.ToUpperCase` | lib/calculations.ts:39 | the upper-cased code has the same length, no lower-case letter, and every other character in place |
| `Calculations.OrientationFactor` | lib/calculations.ts:39 | the factor lies in [0.55, 1.0]; it is 0.9 exactly when the upper-cased code is not a table key |
| `Calculations.OrientationFactorIgnoresCase` | lib/calculations.ts:39 | a code and its upper-cased form get the same factor |
| `Calculations.OrientationRanking` | lib/calculations.ts:7-16 | S > SV = SÖ > V = Ö > NV = NÖ > N |
| `Calculations.UnknownOrientationFallsBack` | lib/calculations.ts:39 | an unknown code ("X", "") gets 0.9 instead of failing |
| `Calculations.TiltFactor` | lib/calculations.ts:19-26 | the factor lies in [0.78, 1.0]; it is 1.0 exactly when the tilt is within 10° of 35° |
| `Calculations.TiltFactorSymmetric` | lib/calculations.ts:19-26 | tilting d° steeper or d° flatter than 35° gives the same factor |
| `Calculations.TiltFactorNonIncreasing` | lib/calculations.ts:19-26 | a tilt further from 35° never gets a larger factor |
| `Calculations.TiltFactorBands` | lib/calculations.ts:22-25 | deviations ≤10°, ≤25°, ≤45° and above get 1.0, 0.95, 0.88 and 0.78 |
| `Calculations.RawProductionBounds` | lib/calculations.ts:41 | for kWp ≥ 0 the unrounded yield lies between 0 and kWp × 950 |
| `Calculations.EstimateAnnualProductionKwh` | lib/calculations.ts:34-42 | production is the nearest whole kWh to kWp × 950 × orientation factor × tilt factor (halves upwards); for kWp ≥ 0 it lies between 0 and round(kWp × 950) |
| `Calculations.ProductionAtOptimum` | lib/calculations.ts:34-42 | at 35° facing "S", production is exactly round(kWp × 950) |
| `Calculations.ProductionMonotoneInSize` | lib/calculations.ts:41 | a larger system never yields less on the same roof |
| `Calculations.ProductionFollowsOrientationFactor` | lib/calculations.ts:39-41 | for kWp ≥ 0, a larger orientation factor never yields less |
| `Calculations.ProductionOrientationRanking` | lib/calculations.ts:34-42 | for kWp ≥ 0, production for S ≥ SV ≥ V ≥ NV ≥ N |
| `Calculations.ProductionDependsOnFactorOnly` | lib/calculations.ts:39-41 | orientation affects production only through its factor |
| `Calculations.ProductionEastWestMirror` | lib/calculations.ts:9-14 | SÖ, Ö and NÖ yield exactly what SV, V and NV yield |
| `Calculations.RecommendSystemKwp` | lib/calculations.ts:48-58 | the size lies in [1.5, 50], has one decimal, and lies in (target − 0.05, target + 0.05] for target = clamp(min(area × 0.18, consumption / 800), 1.5, 50), i.e. the target rounded half-up to a tenth |
| `Calculations.SizingIgnoresGeometry` | lib/calculations.ts:48-57 | the size does not depend on roof angle or orientation |
| `Calculations.SizingMonotone` | lib/calculations.ts:54-57 | a larger roof or consumption never gives a smaller size |
| `Calculations.SizingNeverOversizes` | lib/calculations.ts:54-57 | the size exceeds max(1.5, min(roof bound, consumption bound)) by at most rounding |
| `Calculations.SizingExample` | lib/calculations.ts:54-57 | 80 m² and 8000 kWh give 10.0 kWp |
| `Calculations.EstimateCostSek` | lib/calculations.ts:63-67 | the cost is the nearest whole SEK to kWp × price, the price defaulting to 16 500 |
| `Calculations.CostDefaultPrice` | lib/calculations.ts:63-65 | omitting the price equals passing 16 500 SEK/kWp |
| `Calculations.CostMonotone` | lib/calculations.ts:65-67 | at a non-negative price, a larger system never costs less |
| `Calculations.PaybackYears` | lib/calculations.ts:72-86 | payback ≤ 99 with one decimal; exactly 99 when savings ≤ 0; ≥ 0 for investment ≥ 0; otherwise in (c − 0.05, c + 0.05] for c = min(99, investment / savings), i.e. c rounded half-up to a tenth; electricity price defaults to 2.2 |
| `Calculations.PaybackWithoutProduction` | lib/calculations.ts:82-83 | zero production gives the 99-year sentinel whatever the investment |
| `Calculations.PaybackOfZeroInvestment` | lib/calculations.ts:82-85 | zero investment with positive savings pays back in 0 years |
| `Calculations.PaybackMonotoneInInvestment` | lib/calculations.ts:84-85 | with positive savings, a larger investment never pays back sooner |
| `Calculations.PaybackCapped` | lib/calculations.ts:84-85 | an investment of at least 99 years of savings reports exactly 99 |
| `Calculations.Co2ReductionKg` | lib/calculations.ts:91-95 | the CO₂ is the nearest whole kg to production × 25 / 1000, and non-negative for non-negative production |
| `Calculations.Co2Monotone` | lib/calculations.ts:93-95 | more production never avoids less CO₂ |
| `Calculations.RunSolarCalculation` | lib/calculations.ts:117-153 | the size is in [1.5, 50] with one decimal; production lies between 0 and round(size × 950); CO₂ ≥ 0; payback ≤ 99; cost and payback ≥ 0 at a non-negative price; payback is 99 when savings ≤ 0 |
| `Calculations.PipelineUsesRecommendedSize` | lib/calculations.ts:127-144 | cost and production are computed from the recommended size; payback from (cost, production); CO₂ from production |
| `Calculations.WorkedExample` | lib/calculations.ts:117-153 | 80 m², 35°, "S", 8000 kWh give 10.0 kWp, 165 000 SEK, payback 7.9, 9500 kWh, 238 kg |
| `PostalCodes.StripWhitespace` | app/kalkylator/page.tsx:107 | the result contains no whitespace and is no longer than the input |
| `PostalCodes.StripWhitespaceAppend` | app/kalkylator/page.tsx:107 | stripping a concatenation strips each part, so the kept characters stay in their order |
| `PostalCodes.StripWhitespaceCounts` | app/kalkylator/page.tsx:107 | every non-whitespace character is kept as often as it occurs; whitespace occurs zero times |
| `PostalCodes.FirstDigitRun` | app/kalkylator/page.tsx:107 | the result is the leftmost start of five consecutive digits, or none exists |
| `PostalCodes.NormalisePostalCode` | app/kalkylator/page.tsx:107 | the result is the whitespace-free input with at most one character added |
| `PostalCodes.NormaliseKeepsNonWhitespace` | app/kalkylator/page.tsx:107 | normalising changes only whitespace |
| `PostalCodes.NormaliseIdempotent` | app/kalkylator/page.tsx:107 | normalising twice equals normalising once |
| `PostalCodes.NormaliseFiveDigits` | app/kalkylator/page.tsx:107 | five digits with any whitespace in between normalise to "DDD DD", which the postal-code rule accepts |
| `PostalCodes.IsPostalCode` | lib/types.ts:6 | every code the regex accepts is five digits once its whitespace is removed |
| `PostalCodes.NormaliseAcceptedIff` | lib/types.ts:6 | the normalised code is accepted exactly when the input, whitespace removed, is five digits |
| `Validation.Utf16Length` | lib/types.ts:5-7 | a string's JS length is its character count plus the number of characters outside the BMP; so it lies between the count and twice the count |
| `Validation.FieldAccepted` | lib/types.ts:5-19 | address and city are accepted exactly when their JS length (characters plus non-BMP characters) reaches 3 and 2; an orientation exactly when it is a key of the engine's table |
| `Validation.FieldIssues` | lib/types.ts:5-19 | a field gets an issue exactly when it fails its check, and the issues name no other field |
| `Validation.AddressStepIssues` | lib/types.ts:4-8 | the fields with issues are exactly the failing address, postal-code and city fields |
| `Validation.RoofStepIssues` | lib/types.ts:10-16 | the fields with issues are exactly the failing area, angle and orientation fields |
| `Validation.ConsumptionStepIssues` | lib/types.ts:18-20 | there is an issue exactly when the consumption is out of range |
| `Validation.ParseCalculator` | lib/types.ts:22-24 | success, with the input itself, exactly when no field fails; otherwise a non-empty issue list naming exactly the failing fields |
| `Validation.AddressStepAcceptsIff` | lib/types.ts:4-8 | the address step passes iff address length ≥ 3, the postal code has the shape DDD[ws]DD, and city length ≥ 2 |
| `Validation.RoofStepAcceptsIff` | lib/types.ts:10-16 | the roof step passes iff 10 ≤ area ≤ 500, 0 ≤ angle ≤ 90 and the orientation is one of the eight codes |
| `Validation.ConsumptionStepAcceptsIff` | lib/types.ts:18-20 | the consumption step passes iff 1000 ≤ kWh ≤ 50 000 |
| `Validation.AcceptedOrientationsAreTableKeys` | lib/types.ts:13 | the accepted codes are exactly the keys of the engine's orientation table |
| `Validation.AcceptedOrientationHasTableFactor` | lib/calculations.ts:39 | an accepted code gets its table factor, never the 0.9 fallback |
| `ProductMatching.MatchesSize` | components/CalculatorResultDisplay.tsx:73 | a product matches exactly when its size lies in [recommended − 2, recommended + 2] kWp |
| `ProductMatching.MatchingProducts` | components/CalculatorResultDisplay.tsx:71-74 | every match is within 2 kWp of the recommendation; each matching product appears as often as in the catalogue and nothing else appears |
| `ProductMatching.MatchingIsSubsequence` | components/CalculatorResultDisplay.tsx:71-74 | the matches keep catalogue order: a subsequence of the catalogue |
| `ProductMatching.MatchingIsComplete` | components/CalculatorResultDisplay.tsx:71-74 | every catalogue product within 2 kWp is among the matches |
| `ProductMatching.MatchesExistIff` | components/CalculatorResultDisplay.tsx:71-76 | there are matches iff some catalogue product is within 2 kWp |
| `ProductMatching.DisplayProducts` | components/CalculatorResultDisplay.tsx:75-76 | the shown products are no more than the catalogue's; either every one matches or they are the first min(3, n) of the catalogue |
| `ProductMatching.DisplayShowsMatches` | components/CalculatorResultDisplay.tsx:75-76 | when some product matches, exactly the matches are shown |
| `ProductMatching.DisplayFallsBackToFirstThree` | components/CalculatorResultDisplay.tsx:76 | when none matches, the first min(3, n) catalogue products are shown |
| `ProductMatching.EmptyCatalogShowsNothing` | components/CalculatorResultDisplay.tsx:41 | an empty catalogue shows nothing |
| `ProductMatching.DisplayIsSubsequence` | components/CalculatorResultDisplay.tsx:71-76 | what is shown is a subsequence of the catalogue |
| `ValidatedEstimate.EngineInput` | app/api/calculate/route.ts:23-28 | the engine gets the form's area, angle, orientation and consumption unchanged, and no price overrides |
| `ValidatedEstimate.RawProductionAtLeast` | lib/calculations.ts:39-41 | whatever the tilt and orientation, the unrounded yield is at least kWp × 950 × 0.55 × 0.78 |
| `ValidatedEstimate.DefaultCostBounds` | lib/calculations.ts:63-67 | a size in [1.5, 50] kWp costs between 24 750 and 825 000 SEK at the default price |
| `ValidatedEstimate.ProductionAtLeast` | lib/calculations.ts:34-42 | a system of at least 1.5 kWp yields at least 611 kWh |
| `ValidatedEstimate.DefaultPaybackBound` | lib/calculations.ts:77-86 | at default prices, the cost of a size over its guaranteed production pays back within 18.5 years |
| `ValidatedEstimate.DefaultPriceEstimate` | lib/calculations.ts:117-153 | for any input at default prices: cost in [24 750, 825 000] SEK, production ≥ 611 kWh, payback in [0, 18.5] (never the sentinel), CO₂ ≥ 15 kg |
| `ValidatedEstimate.CalculateRoute` | app/api/calculate/route.ts:9-28 | the endpoint succeeds exactly when no field fails, and otherwise reports issues naming exactly the failing fields; on success the value is the engine run on the form's four fields at default prices, with the default-price bounds above |
| `ValidatedEstimate.ValidatedOrientationUsesTable` | app/api/calculate/route.ts:9-28 | an accepted form's orientation never reaches the 0.9 fallback |

## Left out

- IEEE-754 double arithmetic: numbers are exact reals. Float effects on values within an ulp of a rounding half, and NaN or infinities, are not modelled.
- `toUpperCase` is modelled only for `a`–`z`, `å`, `ä`, `ö` and `ſ`. No other character upper-cases to one of the letters S, V, N, Ö used by the table keys. Expansions such as `ß` → `SS` never produce a key, so the choice between table entry and fallback is unaffected.
- `z.coerce.number()`: the string-to-number coercion and zod's NaN rejection are not modelled; numeric fields arrive as numbers.
- zod's handling of unknown keys, and the fact that the parsed value is a fresh object, are not modelled. A successful parse returns the input.
- The wizard's optional chaining `postalCode?.` leaves an absent code absent. The model normalises strings only, since the form's default is `""`.
- `Number(p.totalKwp)` on catalogue products is not modelled: `totalKwp` is a real.
- An absent `products` prop defaults to `[]` (components/CalculatorResultDisplay.tsx:41). The model takes that case as the input `[]`.
- `leadSchema` and `productFiltersSchema` are not modelled, because they rely on zod's e-mail check and on coercion.
- The per-step dispatch in the wizard (`validateStep`), `setError`, and the `fetch` calls to the calculate and products endpoints are not modelled: they are UI state and asynchronous I/O.
- The server-side product query (`minKwp`/`maxKwp`) is not modelled: the database runs it.
- HTTP handling in app/api/calculate/route.ts (JSON parsing, status codes, the flattened error body, the input fields echoed into the response) is not modelled. `CalculateRoute` models only its chaining of the schema into the engine.
- Rendering and `Intl.NumberFormat`/`toLocaleString` formatting are not modelled.
- `Calculations.RunSolarCalculation` does not re-validate ranges, as in the source. Out-of-range input gives well-defined but meaningless figures (e.g. a negative cost at a negative price).
- `ProductMatching.DisplayProducts`: its own contract only says that the shown products all match or are the catalogue prefix. `DisplayShowsMatches` and `DisplayFallsBackToFirstThree` state which case applies.
