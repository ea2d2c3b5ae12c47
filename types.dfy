/**
 * The data model of the coffee companion app: beans, brewing methods and their
 * steps, brewing and tasting records. Optional TypeScript fields become `Option`,
 * numbers become `int` (scores, seconds, millilitres) and `Date` timestamps are
 * not part of this model.
 */
module Types {

  datatype Option<+T> = None | Some(value: T)

  /** One note of a flavour profile: a name, an intensity 1-5 and a category. */
  datatype FlavorNote = FlavorNote(name: string, intensity: int, category: string)

  /** Flavour characteristics of a bean; the numeric fields are 1-5 scores. */
  datatype FlavorProfile = FlavorProfile(
    aroma: seq<FlavorNote>,
    flavor: seq<FlavorNote>,
    acidity: int,
    body: int,
    aftertaste: int,
    sweetness: int,
    bitterness: int)

  datatype CoffeeBean = CoffeeBean(
    id: string,
    name: string,
    origin: string,
    roastLevel: string,
    processingMethod: string,
    flavorProfile: FlavorProfile,
    price: Option<int>,
    imageUrl: Option<string>,
    description: Option<string>)

  /** A piece of brewing equipment; `kind` is the source's `type` field
      ('Pour Over', 'Espresso', 'French Press', 'AeroPress', 'Cold Brew', or
      any other string a caller forces through). */
  datatype Equipment = Equipment(
    id: string,
    name: string,
    kind: string,
    brand: Option<string>,
    model: Option<string>,
    imageUrl: Option<string>)

  /** One instructed phase of a brew; `duration` is in seconds and advisory. */
  datatype BrewingStep = BrewingStep(
    id: int,
    title: string,
    instruction: string,
    duration: int,
    waterAmount: Option<int>,
    temperature: Option<int>,
    tips: Option<string>)

  datatype BrewingParameters = BrewingParameters(
    grindSize: string,
    coffeeAmount: int,
    waterAmount: int,
    waterTemp: int,
    brewTime: int,
    ratio: string,
    pourPattern: Option<string>)

  /** A recipe: equipment, steps and parameters. */
  datatype BrewingMethod = BrewingMethod(
    id: string,
    name: string,
    equipment: Equipment,
    difficulty: int,
    estimatedTime: int,
    steps: seq<BrewingStep>,
    parameters: BrewingParameters)

  datatype BrewingResult = BrewingResult(
    actualTime: int,
    yieldAmount: int,  // the source's `yield` (a Dafny keyword), in ml
    extractionRate: Option<int>,
    photos: Option<seq<string>>)

  datatype BrewingRecord = BrewingRecord(
    id: string,
    userId: string,
    recipeId: string,
    coffeeBeanId: string,
    parameters: BrewingParameters,
    result: BrewingResult,
    rating: int,
    notes: string)

  /** Intensities on the tasting flavour wheel. */
  datatype FlavorWheelData = FlavorWheelData(
    floral: int,
    fruity: int,
    sweet: int,
    nutty: int,
    chocolate: int,
    spicy: int,
    acidic: int,
    bitter: int)

  /** `flavorScore` is the mean of three wheel values, kept exact as a `real`. */
  datatype TastingRecord = TastingRecord(
    id: string,
    userId: string,
    brewingRecordId: string,
    overallScore: int,
    aromaScore: int,
    flavorScore: real,
    acidityScore: int,
    bodyScore: int,
    aftertasteScore: int,
    flavorWheel: FlavorWheelData,
    notes: string,
    photos: Option<seq<string>>)
}
