/** The static catalog: three brands with their waist/hip size charts,
    six products that point at them, and the unit conversion factors. */
module Catalog {
  import opened Values
  import opened Types

  const INCH_TO_CM: real := 2.54
  const CM_TO_INCH: real := 0.393701

  function Entry(size: string, waist: real, hips: real): BrandSize {
    BrandSize(size, Some(waist), Some(hips), None, None)
  }

  const LEVIS: Brand := Brand("levis", "Levi's", "True to size", "https://logo.clearbit.com/levis.com", [
    Entry("24", 61.0, 86.0),
    Entry("25", 63.5, 89.0),
    Entry("26", 66.0, 91.0),
    Entry("27", 68.5, 94.0),
    Entry("28", 71.0, 96.5),
    Entry("29", 73.5, 99.0),
    Entry("30", 76.0, 101.5),
    Entry("32", 81.0, 106.5)
  ])

  const ZARA: Brand := Brand("zara", "Zara", "Runs small", "https://logo.clearbit.com/zara.com", [
    Entry("34", 62.0, 90.0),
    Entry("36", 66.0, 94.0),
    Entry("38", 70.0, 98.0),
    Entry("40", 74.0, 102.0),
    Entry("42", 78.0, 106.0)
  ])

  const UNIQLO: Brand := Brand("uniqlo", "Uniqlo", "Generous fit", "https://logo.clearbit.com/uniqlo.com", [
    Entry("23", 58.5, 85.0),
    Entry("24", 61.0, 87.5),
    Entry("25", 63.5, 90.0),
    Entry("26", 66.0, 92.5),
    Entry("27", 68.5, 95.0),
    Entry("28", 71.0, 97.5)
  ])

  /** The brands in catalog order; results are emitted in this order. */
  const BRANDS: seq<Brand> := [LEVIS, ZARA, UNIQLO]

  const PRODUCTS: seq<Product> := [
    Product("p1", "501® Original Fit Jeans", "levis", "$98.00",
      "https://images.unsplash.com/photo-1542272604-787c3835535d?auto=format&fit=crop&q=80&w=400", Jeans),
    Product("p2", "721 High Rise Skinny", "levis", "$89.50",
      "https://images.unsplash.com/photo-1541099649105-f69ad21f3246?auto=format&fit=crop&q=80&w=400", Jeans),
    Product("p3", "Premium Marine Straight", "zara", "$59.90",
      "https://images.unsplash.com/photo-1582552938357-32b906df40cb?auto=format&fit=crop&q=80&w=400", Jeans),
    Product("p4", "TRF Wide Leg Denim", "zara", "$49.90",
      "https://images.unsplash.com/photo-1604176354204-9268737828e4?auto=format&fit=crop&q=80&w=400", Jeans),
    Product("p5", "Selvedge Regular Fit", "uniqlo", "$49.90",
      "https://images.unsplash.com/photo-1516762689617-e1cffcef479d?auto=format&fit=crop&q=80&w=400", Jeans),
    Product("p6", "Ultra Stretch Skinny", "uniqlo", "$39.90",
      "https://images.unsplash.com/photo-1555529669-2269763671c0?auto=format&fit=crop&q=80&w=400", Jeans)
  ]

  /** Every entry has a waist and each waist is larger than the one before. */
  predicate Ascending(chart: seq<BrandSize>) {
    && (forall i :: 0 <= i < |chart| ==> Truthy(chart[i].waist))
    && (forall i :: 0 < i < |chart| ==> chart[i - 1].waist.value < chart[i].waist.value)
  }

  /** No size label appears twice in a chart. */
  predicate LabelsDistinct(chart: seq<BrandSize>) {
    forall i, j :: 0 <= i < j < |chart| ==> chart[i].size != chart[j].size
  }

  /** What the engine needs of a brand's chart. */
  predicate WellFormedChart(chart: seq<BrandSize>) {
    |chart| > 0 && Ascending(chart) && LabelsDistinct(chart)
  }

  predicate IdsDistinct(brands: seq<Brand>) {
    forall i, j :: 0 <= i < j < |brands| ==> brands[i].id != brands[j].id
  }

  predicate HasBrand(brands: seq<Brand>, id: string) {
    exists i :: 0 <= i < |brands| && brands[i].id == id
  }

  /** Ascending by neighbours is ascending between any two positions, so
      "a later entry" always means "a larger waist". */
  lemma {:induction false} AscendingOrdered(chart: seq<BrandSize>, i: nat, j: nat)
    requires Ascending(chart)
    requires i < j < |chart|
    ensures chart[i].waist.value < chart[j].waist.value
    decreases j - i
  {
    if i + 1 < j {
      AscendingOrdered(chart, i + 1, j);
    }
  }

  lemma LevisChartWellFormed()
    ensures WellFormedChart(LEVIS.sizeChart)
  {
    assert Ascending(LEVIS.sizeChart);
    assert LabelsDistinct(LEVIS.sizeChart);
  }

  lemma ZaraChartWellFormed()
    ensures WellFormedChart(ZARA.sizeChart)
  {
    assert Ascending(ZARA.sizeChart);
    assert LabelsDistinct(ZARA.sizeChart);
  }

  lemma UniqloChartWellFormed()
    ensures WellFormedChart(UNIQLO.sizeChart)
  {
    assert Ascending(UNIQLO.sizeChart);
    assert LabelsDistinct(UNIQLO.sizeChart);
  }

  /** Every brand's chart is non-empty, ascending by waist and free of
      repeated labels. */
  lemma ChartsWellFormed()
    ensures forall i :: 0 <= i < |BRANDS| ==> WellFormedChart(BRANDS[i].sizeChart)
  {
    LevisChartWellFormed();
    ZaraChartWellFormed();
    UniqloChartWellFormed();
  }

  /** Brand ids are distinct and every product names an existing brand. */
  lemma CatalogReferences()
    ensures IdsDistinct(BRANDS)
    ensures forall i :: 0 <= i < |PRODUCTS| ==> HasBrand(BRANDS, PRODUCTS[i].brandId)
  {
    assert HasBrand(BRANDS, "levis") by { assert BRANDS[0].id == "levis"; }
    assert HasBrand(BRANDS, "zara") by { assert BRANDS[1].id == "zara"; }
    assert HasBrand(BRANDS, "uniqlo") by { assert BRANDS[2].id == "uniqlo"; }
  }
}
