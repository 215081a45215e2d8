/** The records the sizing engine consumes: body measurements, the user
    profile and the catalog shapes. */
module Types {
  import opened Values

  datatype Gender = Male | Female | Unisex

  datatype ClothingCategory = Jeans | Tops | Dresses | Jackets

  datatype FitPreference = Tight | Regular | Baggy

  datatype MaterialType = Denim | Cotton | StretchBlend | Linen

  datatype Unit = Cm | Inch

  /** Body measurements: every numeric field is optional; `height` is
      not declared on the record but the normaliser writes it. */
  datatype BodyMeasurements = BodyMeasurements(
    height: Option<real>,
    waist: Option<real>,
    hips: Option<real>,
    chest: Option<real>,
    shoulders: Option<real>,
    inseam: Option<real>,
    unit: Unit)

  /** The `{ unit: 'cm' }` record used when a profile has no measurements. */
  const NO_MEASUREMENTS: BodyMeasurements :=
    BodyMeasurements(None, None, None, None, None, None, Cm)

  /** A `Partial<BodyMeasurements>` as the baseline parser returns it:
      either `{}` or a waist with its unit. */
  datatype PartialMeasurements = PartialMeasurements(waist: Option<real>, unit: Option<Unit>)

  const EMPTY_PARTIAL: PartialMeasurements := PartialMeasurements(None, None)

  datatype UserProfile = UserProfile(
    gender: Gender,
    category: ClothingCategory,
    fitPreference: FitPreference,
    material: MaterialType,
    measurements: Option<BodyMeasurements>,
    baseline: Option<string>,
    images: seq<string>)

  /** One row of a size chart. */
  datatype BrandSize = BrandSize(
    size: string,
    waist: Option<real>,
    hips: Option<real>,
    chest: Option<real>,
    inseam: Option<real>)

  /** A brand; `sizeChart` is ordered from the smallest size up. */
  datatype Brand = Brand(
    id: string,
    name: string,
    tendency: string,
    logo: string,
    sizeChart: seq<BrandSize>)

  datatype Product = Product(
    id: string,
    name: string,
    brandId: string,
    price: string,
    image: string,
    category: ClothingCategory)
}
