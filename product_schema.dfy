/** src/app/schemas/product.py: the product detail response and its nested
    records, with their default values. Amounts are Python floats, taken
    here as reals. */
module ProductSchema {
  import opened Wrappers
  import opened Http

  /** One nutrient entry of a list field: exactly `amount`, `name`, `unit`. */
  datatype NutrientBase = NutrientBase(amount: real, name: string, unit: string)

  datatype AminoAcids = AminoAcids(essential: real, condEssential: real, nonessential: real)

  datatype PolyunsaturatedFats = PolyunsaturatedFats(total: real, omega3: real, omega6: real)

  datatype FatsDetail = FatsDetail(saturated: real, monounsaturated: real, polyunsaturated: PolyunsaturatedFats,
                                   cholesterol: real)

  datatype CarbsDetail = CarbsDetail(fiber: real, sugar: real)

  datatype ProteinsSchema = ProteinsSchema(total: real, aminoAcids: AminoAcids)

  datatype FatsSchema = FatsSchema(total: real, breakdown: FatsDetail)

  datatype CarbsSchema = CarbsSchema(total: real, breakdown: CarbsDetail)

  datatype VitaminsSchema = VitaminsSchema(vits: seq<NutrientBase>)

  datatype VitaminLikeSchema = VitaminLikeSchema(vitslk: seq<NutrientBase>)

  datatype MineralsSchema = MineralsSchema(macro: seq<NutrientBase>, micro: seq<NutrientBase>)

  datatype OtherSchema = OtherSchema(oths: seq<NutrientBase>)

  /** `ProductDetailResponse`: no `water` and no `energy_value` field. */
  datatype ProductDetailResponse = ProductDetailResponse(
    id: int,
    title: string,
    groupName: string,
    proteins: ProteinsSchema,
    fats: FatsSchema,
    carbs: CarbsSchema,
    vitamins: VitaminsSchema,
    vitaminLike: VitaminLikeSchema,
    minerals: MineralsSchema,
    other: OtherSchema)

  /** The defaults of lines 12-65. */
  const DefaultAminoAcids := AminoAcids(0.0, 0.0, 0.0)
  const DefaultPolyunsaturated := PolyunsaturatedFats(0.0, 0.0, 0.0)
  const DefaultFatsDetail := FatsDetail(0.0, 0.0, DefaultPolyunsaturated, 0.0)
  const DefaultCarbsDetail := CarbsDetail(0.0, 0.0)

  /** `ProductDetailResponse(id=…, title=…, group_name=…)`: every other field
      takes its default, every number 0.0 and every list empty. */
  function NewResponse(id: int, title: string, groupName: string): (r: ProductDetailResponse)
    ensures r.id == id && r.title == title && r.groupName == groupName
    ensures r.proteins.total == 0.0 && r.fats.total == 0.0 && r.carbs.total == 0.0
    ensures r.proteins.aminoAcids == AminoAcids(0.0, 0.0, 0.0)
    ensures r.fats.breakdown == FatsDetail(0.0, 0.0, PolyunsaturatedFats(0.0, 0.0, 0.0), 0.0)
    ensures r.carbs.breakdown == CarbsDetail(0.0, 0.0)
    ensures r.vitamins.vits == [] && r.vitaminLike.vitslk == []
    ensures r.minerals.macro == [] && r.minerals.micro == [] && r.other.oths == []
  {
    ProductDetailResponse(id, title, groupName,
      ProteinsSchema(0.0, DefaultAminoAcids),
      FatsSchema(0.0, DefaultFatsDetail),
      CarbsSchema(0.0, DefaultCarbsDetail),
      VitaminsSchema([]), VitaminLikeSchema([]), MineralsSchema([], []), OtherSchema([]))
  }

  /** Validation of a schema constructor call as written: every schema
      here inherits `BaseSchema`'s required `id: int`
      (src/app/schemas/base.py:4-5), so a call whose keyword arguments
      lack `id` raises `ValidationError`. */
  function ValidateInheritedId(kwargs: set<string>): (r: Option<Failure>)
    ensures r.None? <==> "id" in kwargs
    ensures r.Some? ==> r.value == Raised("ValidationError", "id")
  {
    if "id" in kwargs then None else Some(Raised("ValidationError", "id"))
  }

  /** The defaults `AminoAcids()`, `PolyunsaturatedFats()`, … are such calls
      without arguments, as is each `NutrientBase(name=…, amount=…, unit=…)`
      of the mapping; all of them raise as written. */
  lemma NestedConstructionsRaiseAsWritten()
    ensures ValidateInheritedId({}) == Some(Raised("ValidationError", "id"))
    ensures ValidateInheritedId({"name", "amount", "unit"}) == Some(Raised("ValidationError", "id"))
    ensures ValidateInheritedId({"id", "title", "group_name"}) == None
  {
  }
}
