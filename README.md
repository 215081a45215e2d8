# Sizing engine model

A Dafny model of the deterministic garment-sizing engine of a shopping
assistant, and of the static catalog it computes over. Given a shopper's
profile (fit preference, material, optional body measurements, optional
free-text "brand + size" baseline), the engine:

1. infers a waist from the baseline text (`mapBaselineToDimensions`):
   lower-case the text, read the first run of digits, then apply
   prioritised rules — `levi`/`denim` means an inch-tagged waist (× 2.54),
   `zara`/`eu` means a European size (table 34..42 → 62..78 cm, otherwise
   × 1.8), `small`/`medium`/`large` mean 68/74/82 cm;
2. merges it under the direct measurements (a direct nonzero waist wins)
   and converts an inch record to cm (`normalizeMeasurements`);
3. stops with no results when no waist remains; otherwise, for every
   brand in catalog order, scans the brand's chart for the entry nearest
   to the waist (earliest entry on ties, entries without a waist skipped);
4. adjusts the match (`adjustForFactors`): score 92, +3 for a stretch
   blend, −8 and a warning for rigid denim worn tight, one entry up and a
   warning for a baggy preference unless already at the largest entry,
   score capped at 100;
5. emits `{recommended_size, confidence = score/100, heatmap, explanation, sku}`
   with `sku = "<brand id>-<size>"`, the explanation coming from an
   external text service.

Files:

- `values.dfy` (`Values`): optional values and JavaScript number
  truthiness (present and nonzero), `||`, `Math.abs`, `Math.min`.
- `text.dfy` (`Text`): ASCII `toLowerCase`, `includes`, the first match
  of `/\d+/` and `parseInt` on it.
- `types.dfy` (`Types`): measurements, profile, brand, size entry, product.
- `catalog.dfy` (`Catalog`): the three brands, six products and the unit
  factors, with the catalog's data invariants.
- `engine.dfy` (`SizingEngine`): the engine. The pure parts (baseline
  inference, normalisation, merging) are functions; the chart scan,
  `adjustForFactors` and the per-brand loop are methods proved against
  specification predicates and functions (`IsNearest`, `AdjustedSize`,
  `AdjustedWarnings`, `AdjustedScore`, `RecommendsFor`), whose properties
  are lemmas.
- `scenarios.dfy` (`Scenarios`): the engine on concrete inputs.

Modelling choices:

- Numbers are `real`; 2.54, 1.8 and `score / 100` are exact.
- The engine reads `brand.size_chart` while the data declares only
  `sizeChart`; the model reads `Brand.sizeChart` (see "Left out").
- The result record is the one the engine builds, not the
  `FitRecommendation` interface declared beside the types, whose field
  names differ. The engine computes warnings and then drops them from
  the result; the model does the same.
- The chart scan's `minDiff = Infinity` is the state "nothing found yet".
- `unit: base.unit || 'cm'` is the identity here, because the unit tag is
  always set.
- The explanation service is a function parameter `explain(profile,
  brand name, final size)`; its prompt text is not modelled.

Behaviour of the code that the model keeps as written: the base score is
92 and the rigid-denim penalty 8, giving 84; the warning texts are
"Rigid denim - limited stretch" and "Upsized for baggy aesthetic";
"Medium" without a number infers nothing, because the digit check
returns `{}` before the size words are tested, so the one-letter tests
`"s"`, `"m"`, `"l"` can never fire; a European size is looked up by
exact key, with the × 1.8 fallback; a missing waist gives an empty
result list for all brands at once; a failure of the explanation
service is not caught.

One behaviour of the code as written is stated as a lemma
(`SizingEngine.InchRecordRescalesBaselineWaist`): when the direct
measurements are in inches and carry no waist, the merged record takes
the baseline waist, already in cm, under the inch tag, and the
normaliser multiplies it by 2.54 a second time.

## Model

| member | source | states |
|---|---|---|
| Text.LowerChar | services/sizingEngine.ts:12 | an ASCII capital becomes the small letter 32 code points above it; every other character is kept |
| Text.ToLower | services/sizingEngine.ts:12 | lower-casing keeps the length and maps each character, ASCII capitals to small letters |
| Text.ToLowerIdempotent | services/sizingEngine.ts:12 | lower-casing twice is lower-casing once, and it changes no character's being a digit |
| Text.Contains | services/sizingEngine.ts:19 | `includes` finds the empty text in any text and never a text longer than the one searched |
| Text.ContainsIff | services/sizingEngine.ts:19 | the `includes` scan is true exactly when some start position holds the searched text |
| Text.DigitRunLength | services/sizingEngine.ts:13 | the run of digits at the start of a text is all digits and maximal |
| Text.FirstDigitRun | services/sizingEngine.ts:13 | the regex match is absent iff the text has no digit; otherwise it starts at the first digit and is a maximal run of digits |
| Text.FirstDigitRunIs | services/sizingEngine.ts:13 | any span with those properties is the one the regex matches |
| Text.DigitsValue | services/sizingEngine.ts:14 | `parseInt` on a digit string, read left to right; the value has no more decimal digits than the string |
| Text.DigitsValueLeading | services/sizingEngine.ts:14 | read from the other end, the leading digit weighs 10 to the number of digits after it, so leading zeros do not change the value |
| Text.FirstNumber | services/sizingEngine.ts:13-14 | the parsed number is absent exactly when the text has no digit |
| Catalog.AscendingOrdered | constants.ts:10-46 | in a chart ascending by neighbours, a later entry always has a larger waist |
| Catalog.LevisChartWellFormed | constants.ts:10-19 | the Levi's chart is non-empty, strictly ascending by waist, with distinct labels |
| Catalog.ZaraChartWellFormed | constants.ts:26-32 | the Zara chart is non-empty, strictly ascending by waist, with distinct labels |
| Catalog.UniqloChartWellFormed | constants.ts:39-46 | the Uniqlo chart is non-empty, strictly ascending by waist, with distinct labels |
| Catalog.ChartsWellFormed | constants.ts:4-48 | every brand's chart is non-empty, ascending by waist and has distinct labels, so `chart[0]` is defined and "next entry" means "larger size" |
| Catalog.CatalogReferences | constants.ts:50-99 | brand ids are distinct and every product's brand id names a brand |
| SizingEngine.MapBaselineToDimensions | services/sizingEngine.ts:11-42 | the result is `{}` or a positive waist tagged cm, and never anything but `{}` without a nonzero number in the lower-cased text |
| SizingEngine.BaselineRules | services/sizingEngine.ts:13-41 | on the lower-cased text: `{}` or a positive cm waist, and `{}` unless the first number is nonzero |
| SizingEngine.EuWaist | services/sizingEngine.ts:29-31 | positive for a positive size; a table key gives its table value (no value is 0, so `||` never falls through), any other size n × 1.8 |
| SizingEngine.BaselineNeedsNumber | services/sizingEngine.ts:13-16 | no digit run, or a run reading 0, gives `{}` whatever size words the text holds |
| SizingEngine.BaselineDenimRule | services/sizingEngine.ts:19-24 | lower-cased text naming levi or denim gives waist n × 2.54 cm, ahead of every other rule |
| SizingEngine.BaselineEuRule | services/sizingEngine.ts:27-34 | otherwise lower-cased text naming zara or eu gives the European table's waist for n |
| SizingEngine.EuWaistTable | services/sizingEngine.ts:29-31 | the table maps 34/36/38/40/42 to 62/66/70/74/78 cm and any other n to n × 1.8 |
| SizingEngine.BaselineSizeWordRule | services/sizingEngine.ts:37-41 | with a number and no brand word, small/medium/large give 68/74/82 cm in that priority, and none of them gives `{}` |
| SizingEngine.SingleLetterUnreachable | services/sizingEngine.ts:37-39 | the exact tests for "s", "m", "l" never fire: such a text has no digit and yields `{}` |
| SizingEngine.InchFieldToCm | services/sizingEngine.ts:114-118 | a field is present after conversion exactly when it was present and nonzero, is never 0, and is the inch value × 2.54 |
| SizingEngine.NormalizeMeasurements | services/sizingEngine.ts:110-121 | the result is tagged cm, a cm record is returned unchanged, shoulders is carried over |
| SizingEngine.NormalizeIdempotent | services/sizingEngine.ts:110-121 | normalising twice equals normalising once |
| SizingEngine.NormalizeInchFields | services/sizingEngine.ts:112-120 | for an inch record each present nonzero length field other than shoulders becomes value × 2.54, an absent or zero one becomes absent (never 0), shoulders is unchanged |
| SizingEngine.InferredMeasurements | services/sizingEngine.ts:51-54 | an absent or empty baseline infers nothing; otherwise the result is `{}` or a positive cm waist |
| SizingEngine.MergeMeasurements | services/sizingEngine.ts:56-61 | the waist is the direct one when present and nonzero, otherwise the inferred one; every other field and the unit are the direct record's (cm when there is none) |
| SizingEngine.DirectWaistWins | services/sizingEngine.ts:56-63 | a direct nonzero waist makes the baseline irrelevant to the normalised measurements |
| SizingEngine.BaselineWaistUsed | services/sizingEngine.ts:51-63 | without direct measurements the waist is the baseline's inferred waist |
| SizingEngine.InchRecordRescalesBaselineWaist | services/sizingEngine.ts:56-63 | an inch record without a waist takes the cm baseline waist and the normaliser scales it by 2.54 again |
| SizingEngine.NearestUnique | services/sizingEngine.ts:70-80 | the nearest entry with earliest-wins tie-break is unique |
| SizingEngine.ExactWaistMatchesEntry | services/sizingEngine.ts:70-80 | on an ascending chart a waist equal to an entry's waist matches that entry |
| SizingEngine.ZaraChartAgreesWithEuTable | constants.ts:27-31 | each Zara label read as a number is a key of the European baseline table, with the chart's waist as its value |
| SizingEngine.ZaraSizeRoundTrip | services/sizingEngine.ts:27-33 | a Zara size from the chart, read through the baseline table, is matched back to that Zara size |
| SizingEngine.NearestByWaist | services/sizingEngine.ts:70-80 | the scan returns an entry with a waist at minimum distance, strictly closer than every earlier entry, or the first entry when none has a waist |
| SizingEngine.FindSize | services/sizingEngine.ts:137 | findIndex returns -1 iff the label is absent, else the first position holding it |
| SizingEngine.FindSizeOfEntry | services/sizingEngine.ts:137 | with distinct labels, findIndex on an entry's label is that entry's position |
| SizingEngine.ScoreRange | services/sizingEngine.ts:126-144 | the score is 95 iff stretch blend, 84 iff denim worn tight, else 92, and lies in [0, 100] |
| SizingEngine.BaggyMovesToNextEntry | services/sizingEngine.ts:135-142 | baggy below the largest entry moves to the next entry, which has a larger waist, and adds the upsizing warning |
| SizingEngine.BaggyCappedAtLargest | services/sizingEngine.ts:138 | baggy at the largest entry keeps the label and adds no upsizing warning |
| SizingEngine.SizeChangesOnlyWhenUpsized | services/sizingEngine.ts:124-142 | the label changes only for baggy and then with the upsizing warning; other preferences keep the label and add no upsizing warning |
| SizingEngine.AdjustForFactors | services/sizingEngine.ts:123-145 | final size, warnings and score are the adjusted size, warnings and capped score of the rules above |
| SizingEngine.ConfidenceBounded | services/sizingEngine.ts:100 | every confidence is 0.84, 0.92 or 0.95, within [0, 1] |
| SizingEngine.AdjustedSizeFromChart | services/sizingEngine.ts:135-142 | the final size is the matched entry's size or, for baggy, the next entry's |
| SizingEngine.RecommendForBrand | services/sizingEngine.ts:69-104 | for one brand with a non-empty chart, the record is the adjusted nearest size with confidence score/100, heatmap waist green, the service's explanation and sku brand-id "-" size |
| SizingEngine.RecommendForBrands | services/sizingEngine.ts:68-105 | one such record per brand, in the brands' order |
| SizingEngine.CalculateRecommendations | services/sizingEngine.ts:47-108 | no waist after merging and normalising gives no results; otherwise one result per brand in catalog order, each the adjusted nearest size with confidence score/100, sku brand-id "-" size and the service's explanation |
| Scenarios.LevisBaseline | services/sizingEngine.ts:19-24 | "Levi's 32" infers a waist of 81.28 cm |
| Scenarios.ZaraBaseline | services/sizingEngine.ts:27-33 | "Zara 38" infers a waist of 70 cm |
| Scenarios.ZaraBaselineFallback | services/sizingEngine.ts:31 | "Zara 35" infers 63 cm by the × 1.8 fallback |
| Scenarios.MediumWithoutNumber | services/sizingEngine.ts:16 | "Medium" infers nothing |
| Scenarios.SmallWithNumber | services/sizingEngine.ts:37 | "Small 28" infers 68 cm |
| Scenarios.TieGoesToEarlierEntry | services/sizingEngine.ts:76 | at 78.5 cm, equidistant from 76 and 81, the earlier size 30 wins |
| Scenarios.LevisMatchAt81 | services/sizingEngine.ts:70-80 | an 81 cm waist matches Levi's size 32 |
| Scenarios.DenimTightAtLevis | services/sizingEngine.ts:82-104 | denim worn tight at 81 cm gives Levi's size 32, confidence 0.84, sku "levis-32" and the rigid denim warning |

## Left out

- The user interface, file reading and rendering: not part of the engine.
- The calls to the external model service (virtual try-on, photo
  analysis, input validation, explanation text): the explanation is a
  function parameter; the others are not used by the engine.
- The prompt text passed to the explanation service and its
  `Math.round`: prompt wording, not behaviour.
- `async`/`await`: the engine is modelled as sequential evaluation.
- SizingEngine.CalculateRecommendations: the code as written reads
  `brand.size_chart`, a property no brand record has (the records and
  the `Brand` type declare `sizeChart`), so `brand.size_chart[0]` throws
  and every call that gets past the missing-waist check rejects; the
  model reads the evidently intended `sizeChart`.
- SizingEngine.CalculateRecommendations: a failing explanation call, which makes the whole call reject in the code, is not modelled; `explain` is total.
- IEEE floating point: rounding, NaN and infinities are not modelled.
- Text.FirstNumber: `parseInt` of a very long digit run, which becomes a rounded or infinite float in the code, is an unbounded exact `nat` here.
- Text.ToLower: only ASCII letters are lower-cased; Unicode case mapping is not modelled.
- `CM_TO_INCH` is transcribed but the engine never uses it.
- The product records carry no size chart of their own, so there is no
  product-level matching to model.
