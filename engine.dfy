/** The deterministic sizing engine: baseline inference, unit
    normalisation, nearest-waist matching against each brand's chart,
    fit adjustment, and the per-brand aggregation of recommendations. */
module SizingEngine {
  import opened Values
  import opened Text
  import opened Types
  import opened Catalog

  // ---------------------------------------------------------------------
  // Baseline inference: "brand + size" free text to a waist in cm
  // ---------------------------------------------------------------------

  /** European (Zara/H&M) size number to waist in cm. */
  const EU_WAIST_CM: map<nat, real> := map[34 := 62.0, 36 := 66.0, 38 := 70.0, 40 := 74.0, 42 := 78.0]
  /** Rough linear scale for European sizes missing from the table. */
  const EU_FALLBACK_FACTOR: real := 1.8
  const SMALL_WAIST_CM: real := 68.0
  const MEDIUM_WAIST_CM: real := 74.0
  const LARGE_WAIST_CM: real := 82.0

  function CmWaist(waist: real): PartialMeasurements {
    PartialMeasurements(Some(waist), Some(Cm))
  }

  /** `zaraMap[n] || n * 1.8`: every table value is nonzero, so a table
      key always gives its table value, and any other size the linear
      fallback. */
  function EuWaist(n: nat): (r: real)
    ensures n > 0 ==> r > 0.0
    ensures n in EU_WAIST_CM ==> r == EU_WAIST_CM[n]
    ensures n !in EU_WAIST_CM ==> r == n as real * 1.8
  {
    if n in EU_WAIST_CM && EU_WAIST_CM[n] != 0.0 then EU_WAIST_CM[n] else n as real * EU_FALLBACK_FACTOR
  }

  /** The baseline text is lower-cased and then read by the size rules. */
  function MapBaselineToDimensions(baseline: string): (r: PartialMeasurements)
    ensures r == EMPTY_PARTIAL || (r.unit == Some(Cm) && r.waist.Some? && r.waist.value > 0.0)
    ensures r != EMPTY_PARTIAL ==>
      FirstNumber(ToLower(baseline)).Some? && FirstNumber(ToLower(baseline)).value > 0
  {
    BaselineRules(ToLower(baseline))
  }

  /** The size rules on the lower-cased text: the first number is read,
      then the brand/category words are tested in priority order:
      inch-tagged denim, European sizes, the letter sizes. Nothing is
      inferred without a nonzero number. */
  function BaselineRules(lower: string): (r: PartialMeasurements)
    ensures r == EMPTY_PARTIAL || (r.unit == Some(Cm) && r.waist.Some? && r.waist.value > 0.0)
    ensures r != EMPTY_PARTIAL ==> FirstNumber(lower).Some? && FirstNumber(lower).value > 0
  {
    var sizeNum := FirstNumber(lower);
    if sizeNum.None? || sizeNum.value == 0 then EMPTY_PARTIAL
    else
      var n := sizeNum.value;
      if Contains(lower, "levi") || Contains(lower, "denim") then CmWaist(n as real * INCH_TO_CM)
      else if Contains(lower, "zara") || Contains(lower, "eu") then CmWaist(EuWaist(n))
      else if Contains(lower, "small") || lower == "s" then CmWaist(SMALL_WAIST_CM)
      else if Contains(lower, "medium") || lower == "m" then CmWaist(MEDIUM_WAIST_CM)
      else if Contains(lower, "large") || lower == "l" then CmWaist(LARGE_WAIST_CM)
      else EMPTY_PARTIAL
  }

  /** Without a nonzero number in the text nothing is inferred, whatever
      size words it holds. */
  lemma BaselineNeedsNumber(lower: string)
    requires FirstNumber(lower) in {None, Some(0)}
    ensures BaselineRules(lower) == EMPTY_PARTIAL
  {
  }

  /** Inch-tagged denim sizes are converted at 2.54 cm per inch, ahead of
      every other rule. */
  lemma BaselineDenimRule(lower: string, n: nat)
    requires FirstNumber(lower) == Some(n) && n > 0
    requires Contains(lower, "levi") || Contains(lower, "denim")
    ensures BaselineRules(lower) == CmWaist(n as real * 2.54)
  {
  }

  /** European sizes go through the size table, ahead of the letter sizes. */
  lemma BaselineEuRule(lower: string, n: nat)
    requires FirstNumber(lower) == Some(n) && n > 0
    requires !Contains(lower, "levi") && !Contains(lower, "denim")
    requires Contains(lower, "zara") || Contains(lower, "eu")
    ensures BaselineRules(lower) == CmWaist(EuWaist(n))
  {
  }

  /** The table maps 34, 36, ..., 42 to 62, 66, ..., 78 cm (4 cm per
      size step); any other size number is scaled by 1.8. */
  lemma EuWaistTable(n: nat)
    ensures n in {34, 36, 38, 40, 42} ==> EuWaist(n) == 62.0 + 2.0 * (n as real - 34.0)
    ensures n !in {34, 36, 38, 40, 42} ==> EuWaist(n) == n as real * 1.8
  {
  }

  /** With a nonzero number and no brand word, the size words apply in
      the order small, medium, large; a text with none of them yields
      `{}`. */
  lemma BaselineSizeWordRule(lower: string, n: nat)
    requires FirstNumber(lower) == Some(n) && n > 0
    requires !Contains(lower, "levi") && !Contains(lower, "denim")
    requires !Contains(lower, "zara") && !Contains(lower, "eu")
    ensures Contains(lower, "small") ==> BaselineRules(lower) == CmWaist(68.0)
    ensures !Contains(lower, "small") && Contains(lower, "medium") ==>
      BaselineRules(lower) == CmWaist(74.0)
    ensures !Contains(lower, "small") && !Contains(lower, "medium") && Contains(lower, "large") ==>
      BaselineRules(lower) == CmWaist(82.0)
    ensures !Contains(lower, "small") && !Contains(lower, "medium") && !Contains(lower, "large") ==>
      BaselineRules(lower) == EMPTY_PARTIAL
  {
    var (i, j) := FirstDigitRun(lower).value;
    assert IsDigit(lower[i]);
    assert lower != "s" && lower != "m" && lower != "l";
  }

  /** The exact one-letter tests can never fire: a lone letter holds no
      digit, so the early return has already produced `{}`. */
  lemma SingleLetterUnreachable(lower: string)
    requires lower in {"s", "m", "l"}
    ensures BaselineRules(lower) == EMPTY_PARTIAL
  {
    assert !IsDigit(lower[0]);
    assert FirstNumber(lower).None?;
  }

  // ---------------------------------------------------------------------
  // Unit normalisation
  // ---------------------------------------------------------------------

  /** One inch field: `x ? x * 2.54 : undefined`. */
  function InchFieldToCm(x: Option<real>): (r: Option<real>)
    ensures Truthy(r) <==> Truthy(x)
    ensures r != Some(0.0)
    ensures Truthy(x) ==> r.value == x.value * 2.54
  {
    if Truthy(x) then Some(x.value * INCH_TO_CM) else None
  }

  function NormalizeMeasurements(m: BodyMeasurements): (r: BodyMeasurements)
    ensures r.unit == Cm
    ensures m.unit == Cm ==> r == m
    ensures r.shoulders == m.shoulders
  {
    if m.unit == Cm then m
    else m.(
      height := InchFieldToCm(m.height),
      waist := InchFieldToCm(m.waist),
      hips := InchFieldToCm(m.hips),
      chest := InchFieldToCm(m.chest),
      inseam := InchFieldToCm(m.inseam),
      unit := Cm)
  }

  /** The numeric fields of a measurement record, for stating field-wise facts. */
  datatype Field = Height | Waist | Hips | Chest | Shoulders | Inseam

  function Get(m: BodyMeasurements, f: Field): Option<real> {
    match f
    case Height => m.height
    case Waist => m.waist
    case Hips => m.hips
    case Chest => m.chest
    case Shoulders => m.shoulders
    case Inseam => m.inseam
  }

  /** Normalising twice is normalising once. */
  lemma NormalizeIdempotent(m: BodyMeasurements)
    ensures NormalizeMeasurements(NormalizeMeasurements(m)) == NormalizeMeasurements(m)
  {
  }

  /** For an inch record every length field other than shoulders is
      scaled by 2.54 when present and nonzero and becomes absent
      otherwise (never 0); shoulders is carried over unscaled. */
  lemma NormalizeInchFields(m: BodyMeasurements, f: Field)
    requires m.unit == Inch
    ensures f != Shoulders && Truthy(Get(m, f)) ==>
      Get(NormalizeMeasurements(m), f) == Some(Get(m, f).value * 2.54)
    ensures f != Shoulders && !Truthy(Get(m, f)) ==> Get(NormalizeMeasurements(m), f) == None
    ensures f == Shoulders ==> Get(NormalizeMeasurements(m), f) == Get(m, f)
    ensures f != Shoulders ==> Get(NormalizeMeasurements(m), f) != Some(0.0)
  {
  }

  // ---------------------------------------------------------------------
  // Merging direct measurements with the baseline inference
  // ---------------------------------------------------------------------

  /** A non-empty baseline string is parsed; otherwise nothing is inferred. */
  function InferredMeasurements(profile: UserProfile): (r: PartialMeasurements)
    ensures profile.baseline.None? || profile.baseline.value == "" ==> r == EMPTY_PARTIAL
    ensures r == EMPTY_PARTIAL || (r.unit == Some(Cm) && r.waist.Some? && r.waist.value > 0.0)
  {
    if profile.baseline.Some? && profile.baseline.value != "" then
      MapBaselineToDimensions(profile.baseline.value)
    else EMPTY_PARTIAL
  }

  /** The direct measurements (or an empty cm record) with the waist
      replaced by `direct.waist || inferred.waist`. */
  function MergeMeasurements(profile: UserProfile): (r: BodyMeasurements)
    ensures var base := profile.measurements.GetOr(NO_MEASUREMENTS);
      && (Truthy(base.waist) ==> r.waist == base.waist)
      && (!Truthy(base.waist) ==> r.waist == InferredMeasurements(profile).waist)
      && r.height == base.height && r.hips == base.hips && r.chest == base.chest
      && r.shoulders == base.shoulders && r.inseam == base.inseam && r.unit == base.unit
    ensures profile.measurements.None? ==> r.unit == Cm
  {
    var base := profile.measurements.GetOr(NO_MEASUREMENTS);
    base.(waist := Or(base.waist, InferredMeasurements(profile).waist))
  }

  /** A direct nonzero waist wins: the baseline string has no influence
      on the measurements the matcher sees. */
  lemma DirectWaistWins(profile: UserProfile, baseline: Option<string>)
    requires profile.measurements.Some? && Truthy(profile.measurements.value.waist)
    ensures NormalizeMeasurements(MergeMeasurements(profile.(baseline := baseline)))
         == NormalizeMeasurements(profile.measurements.value)
  {
  }

  /** Without direct measurements the inferred waist is used as it is
      (it is already in cm). */
  lemma BaselineWaistUsed(profile: UserProfile)
    requires profile.measurements.None?
    ensures NormalizeMeasurements(MergeMeasurements(profile)).waist == InferredMeasurements(profile).waist
  {
  }

  /** An inch record without a waist gets the baseline's waist, which is
      already in cm, and the normaliser scales it by 2.54 a second time. */
  lemma InchRecordRescalesBaselineWaist(profile: UserProfile, w: real)
    requires profile.measurements.Some? && profile.measurements.value.unit == Inch
    requires !Truthy(profile.measurements.value.waist)
    requires InferredMeasurements(profile).waist == Some(w) && w != 0.0
    ensures NormalizeMeasurements(MergeMeasurements(profile)).waist == Some(w * 2.54)
  {
    MergeTakesInferredWaist(profile, w);
    InchWaistScaled(MergeMeasurements(profile), w);
  }

  lemma MergeTakesInferredWaist(profile: UserProfile, w: real)
    requires profile.measurements.Some? && !Truthy(profile.measurements.value.waist)
    requires InferredMeasurements(profile).waist == Some(w)
    ensures MergeMeasurements(profile).waist == Some(w)
    ensures MergeMeasurements(profile).unit == profile.measurements.value.unit
  {
  }

  lemma InchWaistScaled(m: BodyMeasurements, w: real)
    requires m.unit == Inch && m.waist == Some(w) && w != 0.0
    ensures NormalizeMeasurements(m).waist == Some(w * 2.54)
  {
  }

  // ---------------------------------------------------------------------
  // Nearest-size matching
  // ---------------------------------------------------------------------

  predicate HasWaist(e: BrandSize) {
    Truthy(e.waist)
  }

  function Distance(e: BrandSize, waist: real): real {
    Abs(e.waist.GetOr(0.0) - waist)
  }

  /** `k` is the entry the chart scan settles on: among the entries with
      a waist, one at minimum distance from `waist`, and strictly closer
      than every earlier one (the earliest wins ties); the first entry
      when no entry has a waist. */
  predicate IsNearest(chart: seq<BrandSize>, waist: real, k: int) {
    && 0 <= k < |chart|
    && if HasWaist(chart[k]) then
         && (forall j :: 0 <= j < |chart| && HasWaist(chart[j]) ==>
               Distance(chart[k], waist) <= Distance(chart[j], waist))
         && (forall j :: 0 <= j < k && HasWaist(chart[j]) ==>
               Distance(chart[k], waist) < Distance(chart[j], waist))
       else k == 0 && forall j :: 0 <= j < |chart| ==> !HasWaist(chart[j])
  }

  /** The nearest entry is determined uniquely. */
  lemma NearestUnique(chart: seq<BrandSize>, waist: real, k1: int, k2: int)
    requires IsNearest(chart, waist, k1) && IsNearest(chart, waist, k2)
    ensures k1 == k2
  {
  }

  /** On a chart ascending by waist, a user waist equal to an entry's
      waist is matched to that entry. */
  lemma ExactWaistMatchesEntry(chart: seq<BrandSize>, k: nat)
    requires Ascending(chart) && k < |chart|
    ensures IsNearest(chart, chart[k].waist.value, k)
  {
    var w := chart[k].waist.value;
    forall j | 0 <= j < |chart| && j != k
      ensures Distance(chart[k], w) < Distance(chart[j], w)
    {
      if j < k {
        AscendingOrdered(chart, j, k);
      } else {
        AscendingOrdered(chart, k, j);
      }
    }
  }

  /** The Zara chart and the European baseline table agree: each Zara
      label, read as a number, is a table key whose waist is the chart's. */
  lemma ZaraChartAgreesWithEuTable()
    ensures forall k :: 0 <= k < |ZARA.sizeChart| ==>
      var e := ZARA.sizeChart[k];
      && (forall p :: 0 <= p < |e.size| ==> IsDigit(e.size[p]))
      && DigitsValue(e.size) in EU_WAIST_CM
      && Some(EU_WAIST_CM[DigitsValue(e.size)]) == e.waist
  {
    forall k | 0 <= k < |ZARA.sizeChart|
      ensures var e := ZARA.sizeChart[k];
        && (forall p :: 0 <= p < |e.size| ==> IsDigit(e.size[p]))
        && DigitsValue(e.size) in EU_WAIST_CM
        && Some(EU_WAIST_CM[DigitsValue(e.size)]) == e.waist
    {
      var e := ZARA.sizeChart[k];
      assert |e.size| == 2 && IsDigit(e.size[0]) && IsDigit(e.size[1]);
      assert e.size == [e.size[0], e.size[1]];
      TwoDigitsValue(e.size[0], e.size[1]);
    }
  }

  /** A shopper who reports a Zara size from the chart is matched to that
      same Zara size. */
  lemma ZaraSizeRoundTrip(k: nat)
    requires k < |ZARA.sizeChart|
    ensures forall p :: 0 <= p < |ZARA.sizeChart[k].size| ==> IsDigit(ZARA.sizeChart[k].size[p])
    ensures IsNearest(ZARA.sizeChart, EuWaist(DigitsValue(ZARA.sizeChart[k].size)), k)
  {
    ZaraChartAgreesWithEuTable();
    ZaraChartWellFormed();
    ExactWaistMatchesEntry(ZARA.sizeChart, k);
  }

  /** The inner loop of the recommendation: a linear scan keeping the
      best entry and its distance; entries without a waist are skipped
      and only a strictly smaller distance replaces the best. The
      initial `Infinity` is the state `!found`. */
  method NearestByWaist(chart: seq<BrandSize>, waist: real) returns (k: nat)
    requires |chart| > 0
    ensures IsNearest(chart, waist, k)
  {
    k := 0;
    var found := false;
    var minDiff := 0.0;
    for i := 0 to |chart|
      invariant k < |chart|
      invariant found <==> exists j :: 0 <= j < i && HasWaist(chart[j])
      invariant !found ==> k == 0
      invariant found ==> k < i && HasWaist(chart[k]) && minDiff == Distance(chart[k], waist)
      invariant found ==> forall j :: 0 <= j < i && HasWaist(chart[j]) ==> minDiff <= Distance(chart[j], waist)
      invariant forall j :: 0 <= j < k && HasWaist(chart[j]) ==> minDiff < Distance(chart[j], waist)
    {
      if !HasWaist(chart[i]) {
        continue;
      }
      var diff := Abs(chart[i].waist.value - waist);
      if !found || diff < minDiff {
        minDiff := diff;
        k := i;
        found := true;
      }
    }
  }

  // ---------------------------------------------------------------------
  // Fit adjustment
  // ---------------------------------------------------------------------

  const BASE_SCORE: int := 92
  const STRETCH_BONUS: int := 3
  const RIGID_PENALTY: int := 8
  const MAX_SCORE: int := 100
  const RIGID_WARNING: string := "Rigid denim - limited stretch"
  const BAGGY_WARNING: string := "Upsized for baggy aesthetic"

  /** Array.prototype.findIndex on the size labels: the first position
      holding `size`, or -1. */
  function FindSize(chart: seq<BrandSize>, size: string): (r: int)
    ensures -1 <= r < |chart|
    ensures r == -1 <==> forall i :: 0 <= i < |chart| ==> chart[i].size != size
    ensures r != -1 ==> chart[r].size == size && forall i :: 0 <= i < r ==> chart[i].size != size
  {
    if chart == [] then -1
    else if chart[0].size == size then 0
    else
      var r := FindSize(chart[1..], size);
      if r == -1 then -1 else r + 1
  }

  predicate IsRigid(profile: UserProfile) {
    profile.material == Denim && profile.fitPreference == Tight
  }

  /** A baggy preference moves to the entry after `size` when `size`
      is in the chart and not its last entry. */
  predicate Upsizes(chart: seq<BrandSize>, size: string, preference: FitPreference) {
    preference == Baggy && FindSize(chart, size) != -1 && FindSize(chart, size) < |chart| - 1
  }

  function AdjustedSize(chart: seq<BrandSize>, size: string, preference: FitPreference): string {
    if Upsizes(chart, size, preference) then chart[FindSize(chart, size) + 1].size else size
  }

  function AdjustedWarnings(chart: seq<BrandSize>, size: string, profile: UserProfile): seq<string> {
    (if IsRigid(profile) then [RIGID_WARNING] else [])
    + (if Upsizes(chart, size, profile.fitPreference) then [BAGGY_WARNING] else [])
  }

  function AdjustedScore(profile: UserProfile): int {
    var raw := if profile.material == StretchBlend then BASE_SCORE + STRETCH_BONUS
               else if IsRigid(profile) then BASE_SCORE - RIGID_PENALTY
               else BASE_SCORE;
    Min(MAX_SCORE, raw)
  }

  /** The score takes one of three values, all within [0, 100]: 95 for a
      stretch blend, 84 for rigid denim worn tight, 92 otherwise. */
  lemma ScoreRange(profile: UserProfile)
    ensures 0 <= AdjustedScore(profile) <= 100
    ensures AdjustedScore(profile) == 95 <==> profile.material == StretchBlend
    ensures AdjustedScore(profile) == 84 <==> profile.material == Denim && profile.fitPreference == Tight
    ensures AdjustedScore(profile) in {84, 92, 95}
  {
  }

  /** In a chart with distinct labels, findIndex on an entry's size
      finds that very entry. */
  lemma FindSizeOfEntry(chart: seq<BrandSize>, k: nat)
    requires LabelsDistinct(chart) && k < |chart|
    ensures FindSize(chart, chart[k].size) == k
  {
  }

  /** Baggy on a well-formed chart moves exactly one entry up, to a
      strictly larger waist, and says so. */
  lemma BaggyMovesToNextEntry(chart: seq<BrandSize>, k: nat, profile: UserProfile)
    requires WellFormedChart(chart) && k < |chart| - 1
    requires profile.fitPreference == Baggy
    ensures AdjustedSize(chart, chart[k].size, Baggy) == chart[k + 1].size
    ensures chart[k].waist.value < chart[k + 1].waist.value
    ensures AdjustedWarnings(chart, chart[k].size, profile) == [BAGGY_WARNING]
  {
    FindSizeOfEntry(chart, k);
  }

  /** Baggy never goes past the last entry: the largest size stays and no
      upsizing warning is added. */
  lemma BaggyCappedAtLargest(chart: seq<BrandSize>, profile: UserProfile)
    requires WellFormedChart(chart)
    ensures AdjustedSize(chart, chart[|chart| - 1].size, profile.fitPreference) == chart[|chart| - 1].size
    ensures BAGGY_WARNING !in AdjustedWarnings(chart, chart[|chart| - 1].size, profile)
  {
    FindSizeOfEntry(chart, |chart| - 1);
  }

  /** The size changes only for a baggy preference, and then only to the
      size of a later entry of the chart. */
  lemma SizeChangesOnlyWhenUpsized(chart: seq<BrandSize>, size: string, profile: UserProfile)
    ensures AdjustedSize(chart, size, profile.fitPreference) != size ==>
      profile.fitPreference == Baggy && BAGGY_WARNING in AdjustedWarnings(chart, size, profile)
    ensures profile.fitPreference != Baggy ==>
      AdjustedSize(chart, size, profile.fitPreference) == size
      && BAGGY_WARNING !in AdjustedWarnings(chart, size, profile)
  {
  }

  /** adjustForFactors: start at 92, apply the material rule, size up one
      chart entry for baggy, cap the score at 100. */
  method AdjustForFactors(brand: Brand, base: BrandSize, profile: UserProfile)
    returns (finalSize: string, warnings: seq<string>, score: int)
    ensures finalSize == AdjustedSize(brand.sizeChart, base.size, profile.fitPreference)
    ensures warnings == AdjustedWarnings(brand.sizeChart, base.size, profile)
    ensures score == AdjustedScore(profile)
  {
    finalSize := base.size;
    warnings := [];
    score := BASE_SCORE;

    if profile.material == StretchBlend {
      score := score + STRETCH_BONUS;
    } else if profile.material == Denim && profile.fitPreference == Tight {
      warnings := warnings + [RIGID_WARNING];
      score := score - RIGID_PENALTY;
    }

    if profile.fitPreference == Baggy {
      var idx := FindSize(brand.sizeChart, finalSize);
      if idx != -1 && idx < |brand.sizeChart| - 1 {
        finalSize := brand.sizeChart[idx + 1].size;
        warnings := warnings + [BAGGY_WARNING];
      }
    }

    score := Min(MAX_SCORE, score);
  }

  // ---------------------------------------------------------------------
  // Aggregation over the catalog
  // ---------------------------------------------------------------------

  /** The object the engine pushes per brand. */
  datatype Recommendation = Recommendation(
    recommendedSize: string,
    confidence: real,
    heatmap: map<string, string>,
    explanation: string,
    sku: string)

  const WAIST_GREEN: map<string, string> := map["waist" := "green"]

  /** The external explanation service, given the profile, the brand name
      and the final size. */
  type Explainer = (UserProfile, string, string) -> string

  /** `r` is the recommendation for `brand` at the user waist `waist`:
      the nearest entry adjusted for material and preference, the
      score as a fraction of 100, and the SKU "<brand id>-<size>". */
  ghost predicate RecommendsFor(brand: Brand, profile: UserProfile, waist: real, explain: Explainer, r: Recommendation) {
    exists k :: IsNearest(brand.sizeChart, waist, k)
      && r.recommendedSize == AdjustedSize(brand.sizeChart, brand.sizeChart[k].size, profile.fitPreference)
      && r.confidence == AdjustedScore(profile) as real / 100.0
      && r.heatmap == WAIST_GREEN
      && r.explanation == explain(profile, brand.name, r.recommendedSize)
      && r.sku == brand.id + "-" + r.recommendedSize
  }

  /** calculateRecommendations: merge and normalise the measurements;
      without a waist there are no results, otherwise one result per
      brand in catalog order. */
  method CalculateRecommendations(profile: UserProfile, explain: Explainer) returns (results: seq<Recommendation>)
    ensures var m := NormalizeMeasurements(MergeMeasurements(profile));
      && (!Truthy(m.waist) ==> results == [])
      && (Truthy(m.waist) ==>
            |results| == |BRANDS|
            && forall i :: 0 <= i < |BRANDS| ==> RecommendsFor(BRANDS[i], profile, m.waist.value, explain, results[i]))
  {
    var measurements := NormalizeMeasurements(MergeMeasurements(profile));
    if !Truthy(measurements.waist) {
      return [];
    }
    ChartsWellFormed();
    results := RecommendForBrands(BRANDS, profile, measurements.waist.value, explain);
  }

  /** The loop over the brands at a known waist: one recommendation per
      brand, in order. Each chart must have an entry, since the scan
      starts from `size_chart[0]`. */
  method RecommendForBrands(brands: seq<Brand>, profile: UserProfile, waist: real, explain: Explainer)
    returns (results: seq<Recommendation>)
    requires forall i :: 0 <= i < |brands| ==> |brands[i].sizeChart| > 0
    ensures |results| == |brands|
    ensures forall i :: 0 <= i < |brands| ==> RecommendsFor(brands[i], profile, waist, explain, results[i])
  {
    results := [];
    for b := 0 to |brands|
      invariant |results| == b
      invariant forall i :: 0 <= i < b ==> RecommendsFor(brands[i], profile, waist, explain, results[i])
    {
      var r := RecommendForBrand(brands[b], profile, waist, explain);
      assert forall i :: 0 <= i < b ==> (results + [r])[i] == results[i];
      results := results + [r];
    }
  }

  /** The body of the loop for one brand: scan, adjust, explain, and
      build the record. */
  method RecommendForBrand(brand: Brand, profile: UserProfile, waist: real, explain: Explainer)
    returns (r: Recommendation)
    requires |brand.sizeChart| > 0
    ensures RecommendsFor(brand, profile, waist, explain, r)
  {
    var k := NearestByWaist(brand.sizeChart, waist);
    var finalSize, warnings, score := AdjustForFactors(brand, brand.sizeChart[k], profile);
    var reasoning := explain(profile, brand.name, finalSize);
    r := Recommendation(finalSize, score as real / 100.0, WAIST_GREEN, reasoning, brand.id + "-" + finalSize);
  }

  /** Every recommendation's confidence is the score over 100: one of
      0.84, 0.92, 0.95, and within [0, 1]. */
  lemma ConfidenceBounded(brand: Brand, profile: UserProfile, waist: real, explain: Explainer, r: Recommendation)
    requires RecommendsFor(brand, profile, waist, explain, r)
    ensures 0.0 <= r.confidence <= 1.0
    ensures r.confidence in {0.84, 0.92, 0.95}
  {
    ScoreRange(profile);
  }

  /** The final size is the matched entry's own size or, for a baggy
      preference, the size of the entry right after it. */
  lemma AdjustedSizeFromChart(chart: seq<BrandSize>, k: nat, preference: FitPreference)
    requires LabelsDistinct(chart) && k < |chart|
    ensures || AdjustedSize(chart, chart[k].size, preference) == chart[k].size
            || (preference == Baggy && k + 1 < |chart|
                && AdjustedSize(chart, chart[k].size, preference) == chart[k + 1].size)
  {
    FindSizeOfEntry(chart, k);
  }
}
