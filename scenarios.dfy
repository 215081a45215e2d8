/** Worked examples of the engine on concrete inputs: baseline texts for
    each size rule, the tie-break of the chart scan, and one
    recommendation against the Levi's chart. */
module Scenarios {
  import opened Values
  import opened Text
  import opened Types
  import opened Catalog
  import opened SizingEngine

  /** What the parser reads in "levi's 32": the number 32 and the word "levi". */
  lemma LevisText(lower: string)
    requires lower == "levi's 32"
    ensures FirstNumber(lower) == Some(32) && Contains(lower, "levi")
  {
    assert forall p | 0 <= p < 7 :: !IsDigit(lower[p]);
    FirstDigitRunIs(lower, 7, 9);
    assert lower[7..9] == ['3', '2'];
    TwoDigitsValue('3', '2');
    assert lower[..4] == "levi";
  }

  /** "Levi's 32" is a 32-inch waist: 81.28 cm. */
  lemma LevisBaseline()
    ensures MapBaselineToDimensions("Levi's 32") == CmWaist(81.28)
  {
    var lower := ToLower("Levi's 32");
    assert lower == "levi's 32";
    LevisText(lower);
    BaselineDenimRule(lower, 32);
  }

  /** What the parser reads in "zara 3x": the number and the brand words. */
  lemma ZaraText(lower: string, d: char)
    requires IsDigit(d) && lower == "zara 3" + [d]
    ensures FirstNumber(lower) == Some(30 + DigitValue(d))
    ensures !Contains(lower, "levi") && !Contains(lower, "denim") && Contains(lower, "zara")
  {
    assert forall p | 0 <= p < 5 :: !IsDigit(lower[p]);
    FirstDigitRunIs(lower, 5, 7);
    assert lower[5..7] == ['3', d];
    TwoDigitsValue('3', d);
    MissingCharNotContained(lower, "levi", 0);
    MissingCharNotContained(lower, "denim", 0);
    assert lower[..4] == "zara";
  }

  /** "Zara 38" is looked up in the European table: 70 cm. */
  lemma ZaraBaseline()
    ensures MapBaselineToDimensions("Zara 38") == CmWaist(70.0)
  {
    var lower := ToLower("Zara 38");
    assert lower == "zara 3" + ['8'];
    ZaraText(lower, '8');
    BaselineEuRule(lower, 38);
    EuWaistTable(38);
  }

  /** "Zara 35" is not a table key and falls back to 35 * 1.8 = 63 cm. */
  lemma ZaraBaselineFallback()
    ensures MapBaselineToDimensions("Zara 35") == CmWaist(63.0)
  {
    var lower := ToLower("Zara 35");
    assert lower == "zara 3" + ['5'];
    ZaraText(lower, '5');
    BaselineEuRule(lower, 35);
    EuWaistTable(35);
  }

  /** "Medium" has no number, so the early return yields `{}` before the
      letter-size rule is reached. */
  lemma MediumWithoutNumber()
    ensures MapBaselineToDimensions("Medium") == EMPTY_PARTIAL
  {
    var lower := ToLower("Medium");
    assert lower == "medium";
    assert forall p | 0 <= p < |lower| :: !IsDigit(lower[p]);
    BaselineNeedsNumber(lower);
  }

  /** What the parser reads in "small 28": the number, no brand word,
      and the word "small". */
  lemma SmallText(lower: string)
    requires lower == "small 28"
    ensures FirstNumber(lower) == Some(28)
    ensures !Contains(lower, "levi") && !Contains(lower, "denim")
    ensures !Contains(lower, "zara") && !Contains(lower, "eu")
    ensures Contains(lower, "small")
  {
    assert forall p | 0 <= p < 6 :: !IsDigit(lower[p]);
    FirstDigitRunIs(lower, 6, 8);
    assert lower[6..8] == ['2', '8'];
    TwoDigitsValue('2', '8');
    MissingCharNotContained(lower, "levi", 2);
    MissingCharNotContained(lower, "denim", 0);
    MissingCharNotContained(lower, "zara", 0);
    MissingCharNotContained(lower, "eu", 0);
    assert lower[..5] == "small";
  }

  /** With a number present the letter-size rule applies: "Small 28" is 68 cm. */
  lemma SmallWithNumber()
    ensures MapBaselineToDimensions("Small 28") == CmWaist(68.0)
  {
    var lower := ToLower("Small 28");
    assert lower == "small 28";
    SmallText(lower);
    BaselineSizeWordRule(lower, 28);
  }

  const TIE_CHART: seq<BrandSize> := [
    Entry("28", 71.0, 0.0),
    Entry("30", 76.0, 0.0),
    Entry("32", 81.0, 0.0),
    Entry("34", 86.0, 0.0)
  ]

  /** A waist of 78.5 is 2.5 from both 76 and 81; the earlier entry, size
      30, is the match. */
  lemma TieGoesToEarlierEntry(k: int)
    requires IsNearest(TIE_CHART, 78.5, k)
    ensures TIE_CHART[k].size == "30"
  {
    assert HasWaist(TIE_CHART[0]);
    assert IsNearest(TIE_CHART, 78.5, 1);
    NearestUnique(TIE_CHART, 78.5, k, 1);
  }

  const DENIM_TIGHT: UserProfile := UserProfile(Female, Jeans, Tight, Denim,
    Some(BodyMeasurements(None, Some(81.0), None, None, None, None, Cm)), None, [])

  /** An 81 cm waist is matched to the Levi's entry of that waist, size 32. */
  lemma LevisMatchAt81(k: int)
    requires IsNearest(LEVIS.sizeChart, 81.0, k)
    ensures k == 7 && LEVIS.sizeChart[k].size == "32"
  {
    LevisChartWellFormed();
    ExactWaistMatchesEntry(LEVIS.sizeChart, 7);
    NearestUnique(LEVIS.sizeChart, 81.0, k, 7);
  }

  /** Rigid denim worn tight at an 81 cm waist: the Levi's recommendation
      is size 32 with confidence 0.84 and SKU "levis-32", and the rigid
      denim warning is raised. */
  lemma DenimTightAtLevis(explain: Explainer, r: Recommendation)
    requires RecommendsFor(LEVIS, DENIM_TIGHT, 81.0, explain, r)
    ensures r.recommendedSize == "32"
    ensures r.confidence == 0.84
    ensures r.sku == "levis-32"
    ensures AdjustedWarnings(LEVIS.sizeChart, "32", DENIM_TIGHT) == [RIGID_WARNING]
  {
    var k :| IsNearest(LEVIS.sizeChart, 81.0, k)
      && r.recommendedSize == AdjustedSize(LEVIS.sizeChart, LEVIS.sizeChart[k].size, Tight)
      && r.confidence == AdjustedScore(DENIM_TIGHT) as real / 100.0
      && r.sku == LEVIS.id + "-" + r.recommendedSize;
    LevisMatchAt81(k);
    assert AdjustedScore(DENIM_TIGHT) == 84;
  }
}
