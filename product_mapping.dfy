/** src/app/utils/product.py: `map_to_schema` folds a product's nutrient
    associations into the detail response. Each association is the
    nutrient's name, unit and category with the association's amount. */
module ProductMapping {
  import opened Wrappers
  import opened Strings
  import opened Http
  import opened ProductSchema

  /** `NutrientCategory` (src/app/db/models/nutrient.py:9-24). */
  datatype NutrientCategory =
    | Macro | EnergyValue | NonessentialAmino | EssentialAmino | CondEssentialAmino
    | SaturatedFats | MonounsaturatedFats | PolyunsaturatedFatsCategory | Fats | Carbs
    | Vitamins | VitaminLike | MineralsMacro | MineralsMicro | Other

  datatype Assoc = Assoc(name: string, unit: string, category: NutrientCategory, amount: real)

  /** The response field an association is routed to by the `elif` chain
      of lines 28-100; `NoField` where no branch matches. */
  datatype Target =
    | ProteinsTotal | FatsTotal | CarbsTotal | Water
    | Essential | CondEssential | Nonessential
    | Cholesterol | Saturated | Monounsaturated
    | PolyTotal | Omega3 | Omega6
    | Fiber | Sugar
    | VitaminsList | VitaminLikeList | MacroMinerals | MicroMinerals | OtherList
    | NoField

  /** Fields that keep the last routed amount. */
  predicate Assigned(t: Target) {
    t in {ProteinsTotal, FatsTotal, CarbsTotal, Cholesterol, PolyTotal, Omega3, Omega6, Fiber, Sugar}
  }

  /** Fields that add the routed amounts up. */
  predicate Accumulated(t: Target) {
    t in {Essential, CondEssential, Nonessential, Saturated, Monounsaturated}
  }

  /** Fields that list the routed associations. */
  predicate Listed(t: Target) {
    t in {VitaminsList, VitaminLikeList, MacroMinerals, MicroMinerals, OtherList}
  }

  /** `keyword in name.lower()`. */
  predicate Mentions(name: string, keyword: string) {
    Contains(Lower(name), keyword)
  }

  /** Where one association goes. The first matching keyword decides
      within a category; only the `вода` keyword of a macronutrient,
      without an earlier macronutrient keyword, reaches `water`. */
  function Classify(a: Assoc): (t: Target)
    ensures t == Water <==> a.category == Macro && !Mentions(a.name, "белки") && !Mentions(a.name, "жиры")
                             && !Mentions(a.name, "углеводы") && Mentions(a.name, "вода")
  {
    match a.category
    case Macro =>
      if Mentions(a.name, "белки") then ProteinsTotal
      else if Mentions(a.name, "жиры") then FatsTotal
      else if Mentions(a.name, "углеводы") then CarbsTotal
      else if Mentions(a.name, "вода") then Water
      else NoField
    case EssentialAmino => Essential
    case CondEssentialAmino => CondEssential
    case NonessentialAmino => Nonessential
    case SaturatedFats => if Mentions(a.name, "холестерин") then Cholesterol else Saturated
    case MonounsaturatedFats => Monounsaturated
    case PolyunsaturatedFatsCategory =>
      if Mentions(a.name, "полиненасыщенные") then PolyTotal
      else if Mentions(a.name, "омега-3") then Omega3
      else if Mentions(a.name, "омега-6") then Omega6
      else NoField
    case Carbs =>
      if Mentions(a.name, "клетчатка") then Fiber
      else if Mentions(a.name, "сахар") then Sugar
      else NoField
    case Vitamins => VitaminsList
    case VitaminLike => VitaminLikeList
    case MineralsMacro => MacroMinerals
    case MineralsMicro => MicroMinerals
    case Other => OtherList
    case EnergyValue => NoField
    case Fats => NoField
  }

  /** Energy values and the `fats` category reach no field; a
      macronutrient reaches a total, `water` or nothing. */
  lemma ClassifyCases(a: Assoc)
    ensures a.category in {EnergyValue, Fats} ==> Classify(a) == NoField
    ensures a.category == Macro ==> Classify(a) in {ProteinsTotal, FatsTotal, CarbsTotal, Water, NoField}
    ensures a.category == SaturatedFats ==> (Classify(a) == Cholesterol <==> Mentions(a.name, "холестерин"))
    ensures a.category == SaturatedFats ==> Classify(a) in {Cholesterol, Saturated}
  {
  }

  /** The amount of the last association routed to `t`, or the default. */
  function Last(s: seq<Assoc>, t: Target): real {
    if s == [] then 0.0
    else if Classify(s[|s| - 1]) == t then s[|s| - 1].amount
    else Last(s[..|s| - 1], t)
  }

  /** The sum of the amounts routed to `t`, starting from the default. */
  function Sum(s: seq<Assoc>, t: Target): real {
    if s == [] then 0.0
    else Sum(s[..|s| - 1], t) + (if Classify(s[|s| - 1]) == t then s[|s| - 1].amount else 0.0)
  }

  function Entry(a: Assoc): NutrientBase {
    NutrientBase(a.amount, a.name, a.unit)
  }

  /** One entry per association routed to `t`, in order. */
  function Entries(s: seq<Assoc>, t: Target): seq<NutrientBase> {
    if s == [] then []
    else Entries(s[..|s| - 1], t) + (if Classify(s[|s| - 1]) == t then [Entry(s[|s| - 1])] else [])
  }

  /** The content of one response field. */
  datatype FieldValue = Num(x: real) | Items(items: seq<NutrientBase>) | Absent

  /** Each field of the response, determined by the associations routed to
      it alone: the last amount, the sum of the amounts, or the list of
      entries. */
  function Aggregate(s: seq<Assoc>, t: Target): FieldValue {
    if Assigned(t) then Num(Last(s, t))
    else if Accumulated(t) then Num(Sum(s, t))
    else if Listed(t) then Items(Entries(s, t))
    else Absent
  }

  /** The response field `t` names. */
  function Field(r: ProductDetailResponse, t: Target): (v: FieldValue)
    ensures Assigned(t) || Accumulated(t) <==> v.Num?
    ensures Listed(t) <==> v.Items?
  {
    match t
    case ProteinsTotal => Num(r.proteins.total)
    case FatsTotal => Num(r.fats.total)
    case CarbsTotal => Num(r.carbs.total)
    case Essential => Num(r.proteins.aminoAcids.essential)
    case CondEssential => Num(r.proteins.aminoAcids.condEssential)
    case Nonessential => Num(r.proteins.aminoAcids.nonessential)
    case Cholesterol => Num(r.fats.breakdown.cholesterol)
    case Saturated => Num(r.fats.breakdown.saturated)
    case Monounsaturated => Num(r.fats.breakdown.monounsaturated)
    case PolyTotal => Num(r.fats.breakdown.polyunsaturated.total)
    case Omega3 => Num(r.fats.breakdown.polyunsaturated.omega3)
    case Omega6 => Num(r.fats.breakdown.polyunsaturated.omega6)
    case Fiber => Num(r.carbs.breakdown.fiber)
    case Sugar => Num(r.carbs.breakdown.sugar)
    case VitaminsList => Items(r.vitamins.vits)
    case VitaminLikeList => Items(r.vitaminLike.vitslk)
    case MacroMinerals => Items(r.minerals.macro)
    case MicroMinerals => Items(r.minerals.micro)
    case OtherList => Items(r.other.oths)
    case Water => Absent
    case NoField => Absent
  }

  /** The effect of an association on field `t`: assignment, `+=` or
      `append`. */
  function Apply(r: ProductDetailResponse, t: Target, a: Assoc): ProductDetailResponse {
    var x := a.amount;
    match t
    case ProteinsTotal => r.(proteins := r.proteins.(total := x))
    case FatsTotal => r.(fats := r.fats.(total := x))
    case CarbsTotal => r.(carbs := r.carbs.(total := x))
    case Essential => r.(proteins := r.proteins.(aminoAcids := r.proteins.aminoAcids.(essential := r.proteins.aminoAcids.essential + x)))
    case CondEssential => r.(proteins := r.proteins.(aminoAcids := r.proteins.aminoAcids.(condEssential := r.proteins.aminoAcids.condEssential + x)))
    case Nonessential => r.(proteins := r.proteins.(aminoAcids := r.proteins.aminoAcids.(nonessential := r.proteins.aminoAcids.nonessential + x)))
    case Cholesterol => r.(fats := r.fats.(breakdown := r.fats.breakdown.(cholesterol := x)))
    case Saturated => r.(fats := r.fats.(breakdown := r.fats.breakdown.(saturated := r.fats.breakdown.saturated + x)))
    case Monounsaturated => r.(fats := r.fats.(breakdown := r.fats.breakdown.(monounsaturated := r.fats.breakdown.monounsaturated + x)))
    case PolyTotal => r.(fats := r.fats.(breakdown := r.fats.breakdown.(polyunsaturated := r.fats.breakdown.polyunsaturated.(total := x))))
    case Omega3 => r.(fats := r.fats.(breakdown := r.fats.breakdown.(polyunsaturated := r.fats.breakdown.polyunsaturated.(omega3 := x))))
    case Omega6 => r.(fats := r.fats.(breakdown := r.fats.breakdown.(polyunsaturated := r.fats.breakdown.polyunsaturated.(omega6 := x))))
    case Fiber => r.(carbs := r.carbs.(breakdown := r.carbs.breakdown.(fiber := x)))
    case Sugar => r.(carbs := r.carbs.(breakdown := r.carbs.breakdown.(sugar := x)))
    case VitaminsList => r.(vitamins := r.vitamins.(vits := r.vitamins.vits + [Entry(a)]))
    case VitaminLikeList => r.(vitaminLike := r.vitaminLike.(vitslk := r.vitaminLike.vitslk + [Entry(a)]))
    case MacroMinerals => r.(minerals := r.minerals.(macro := r.minerals.macro + [Entry(a)]))
    case MicroMinerals => r.(minerals := r.minerals.(micro := r.minerals.micro + [Entry(a)]))
    case OtherList => r.(other := r.other.(oths := r.other.oths + [Entry(a)]))
    case Water => r
    case NoField => r
  }

  /** The effect of one association on the field it is routed to. */
  function Touch(r: ProductDetailResponse, a: Assoc): ProductDetailResponse {
    Apply(r, Classify(a), a)
  }

  /** The response after the associations of `s`, one `Touch` each. */
  function Folded(id: int, title: string, groupName: string, s: seq<Assoc>): ProductDetailResponse {
    if s == [] then NewResponse(id, title, groupName)
    else Touch(Folded(id, title, groupName, s[..|s| - 1]), s[|s| - 1])
  }

  /** Reading `response.water` on a schema without that field. */
  const WaterError := Raised("AttributeError", "'ProductDetailResponse' object has no attribute 'water'")

  predicate HasWater(s: seq<Assoc>) {
    exists i :: 0 <= i < |s| && Classify(s[i]) == Water
  }

  /** What `map_to_schema` returns: the folded response, or the
      `AttributeError` once an association is routed to `water`. */
  function MapSpec(id: int, title: string, groupName: string, s: seq<Assoc>): Result<ProductDetailResponse, Failure> {
    if HasWater(s) then Failure(WaterError) else Success(Folded(id, title, groupName, s))
  }

  /** One association changes only the field it is routed to, in the way
      that field's kind prescribes. */
  lemma TouchOneField(r: ProductDetailResponse, a: Assoc, t: Target)
    ensures t != Classify(a) ==> Field(Touch(r, a), t) == Field(r, t)
    ensures t == Classify(a) && Assigned(t) ==> Field(Touch(r, a), t) == Num(a.amount)
    ensures t == Classify(a) && Accumulated(t) ==> Field(Touch(r, a), t) == Num(Field(r, t).x + a.amount)
    ensures t == Classify(a) && Listed(t) ==> Field(Touch(r, a), t) == Items(Field(r, t).items + [Entry(a)])
    ensures Touch(r, a).id == r.id && Touch(r, a).title == r.title && Touch(r, a).groupName == r.groupName
  {
    var c := Classify(a);
    if t != c {
      ApplyOtherFields(r, c, a, t);
    } else {
      ApplyOwnField(r, a, t);
    }
  }

  lemma ApplyOwnField(r: ProductDetailResponse, a: Assoc, t: Target)
    ensures Assigned(t) ==> Field(Apply(r, t, a), t) == Num(a.amount)
    ensures Accumulated(t) ==> Field(Apply(r, t, a), t) == Num(Field(r, t).x + a.amount)
    ensures Listed(t) ==> Field(Apply(r, t, a), t) == Items(Field(r, t).items + [Entry(a)])
    ensures Apply(r, t, a).id == r.id && Apply(r, t, a).title == r.title && Apply(r, t, a).groupName == r.groupName
  {
  }

  lemma ApplyOtherFields(r: ProductDetailResponse, c: Target, a: Assoc, t: Target)
    requires t != c
    ensures Field(Apply(r, c, a), t) == Field(r, t)
    ensures Apply(r, c, a).id == r.id && Apply(r, c, a).title == r.title && Apply(r, c, a).groupName == r.groupName
  {
    match c
    case ProteinsTotal =>
    case FatsTotal =>
    case CarbsTotal =>
    case Essential =>
    case CondEssential =>
    case Nonessential =>
    case Cholesterol =>
    case Saturated =>
    case Monounsaturated =>
    case PolyTotal =>
    case Omega3 =>
    case Omega6 =>
    case Fiber =>
    case Sugar =>
    case VitaminsList =>
    case VitaminLikeList =>
    case MacroMinerals =>
    case MicroMinerals =>
    case OtherList =>
    case Water =>
    case NoField =>
  }

  /** The folded response agrees, field by field, with the aggregate
      description: last amount for the assigned fields, sum for the
      accumulated ones, entries in order for the lists. */
  lemma {:induction false} FoldedFields(id: int, title: string, groupName: string, s: seq<Assoc>, t: Target)
    ensures Field(Folded(id, title, groupName, s), t) == Aggregate(s, t)
    ensures Folded(id, title, groupName, s).id == id && Folded(id, title, groupName, s).title == title
    ensures Folded(id, title, groupName, s).groupName == groupName
  {
    if s != [] {
      var init := s[..|s| - 1];
      FoldedFields(id, title, groupName, init, t);
      TouchOneField(Folded(id, title, groupName, init), s[|s| - 1], t);
    }
  }

  /** Associations without a branch (energy value, the `FATS` category,
      and names matching no keyword) leave the response unchanged. */
  lemma UnroutedIgnored(r: ProductDetailResponse, a: Assoc)
    requires Classify(a) == NoField
    ensures Touch(r, a) == r
  {
  }

  lemma {:induction false} SumConcat(x: seq<Assoc>, y: seq<Assoc>, t: Target)
    ensures Sum(x + y, t) == Sum(x, t) + Sum(y, t)
    decreases |y|
  {
    if y == [] {
      assert x + y == x;
    } else {
      var y' := y[..|y| - 1];
      assert (x + y)[..|x + y| - 1] == x + y';
      SumConcat(x, y', t);
    }
  }

  lemma SumRemove(s: seq<Assoc>, k: int, t: Target)
    requires 0 <= k < |s|
    ensures multiset(s) == multiset(s[..k] + s[k + 1..]) + multiset{s[k]}
    ensures Sum(s, t) == Sum(s[..k] + s[k + 1..], t) + Sum([s[k]], t)
  {
    assert s == s[..k] + [s[k]] + s[k + 1..];
    SumConcat(s[..k] + [s[k]], s[k + 1..], t);
    SumConcat(s[..k], [s[k]], t);
    SumConcat(s[..k], s[k + 1..], t);
  }

  lemma MultisetCancel(x: multiset<Assoc>, y: multiset<Assoc>, a: Assoc)
    requires x + multiset{a} == y + multiset{a}
    ensures x == y
  {
    forall e
      ensures x[e] == y[e]
    {
      assert (x + multiset{a})[e] == (y + multiset{a})[e];
    }
  }

  /** The accumulated totals (amino acids, saturated and monounsaturated
      fats) do not depend on the order of the associations. */
  lemma {:induction false} SumOrderIndependent(s1: seq<Assoc>, s2: seq<Assoc>, t: Target)
    requires multiset(s1) == multiset(s2)
    ensures Sum(s1, t) == Sum(s2, t)
    decreases |s1|
  {
    if s1 == [] {
      assert |s2| == |multiset(s2)| == 0;
    } else {
      var a := s1[|s1| - 1];
      var init := s1[..|s1| - 1];
      assert s1 == init + [a];
      assert multiset(s1) == multiset(init) + multiset{a};
      assert a in multiset(s2);
      var k :| 0 <= k < |s2| && s2[k] == a;
      var rest := s2[..k] + s2[k + 1..];
      SumRemove(s2, k, t);
      MultisetCancel(multiset(init), multiset(rest), a);
      SumOrderIndependent(init, rest, t);
      SumConcat(init, [a], t);
    }
  }

  /** So is every accumulated field of the mapped response. */
  lemma AccumulatedFieldsOrderIndependent(id: int, title: string, groupName: string, s1: seq<Assoc>, s2: seq<Assoc>, t: Target)
    requires multiset(s1) == multiset(s2) && Accumulated(t)
    ensures Field(Folded(id, title, groupName, s1), t) == Field(Folded(id, title, groupName, s2), t)
  {
    FoldedFields(id, title, groupName, s1, t);
    FoldedFields(id, title, groupName, s2, t);
    SumOrderIndependent(s1, s2, t);
  }

  /** An assigned field holds the amount of the last association routed
      to it (for cholesterol: the last saturated fat named
      `холестерин`), and its default when there is none. */
  lemma {:induction false} LastWins(s: seq<Assoc>, t: Target, i: int)
    requires 0 <= i < |s| && Classify(s[i]) == t
    requires forall j :: i < j < |s| ==> Classify(s[j]) != t
    ensures Last(s, t) == s[i].amount
    decreases |s|
  {
    if i < |s| - 1 {
      var init := s[..|s| - 1];
      assert init[i] == s[i];
      forall j | i < j < |init|
        ensures Classify(init[j]) != t
      {
        assert init[j] == s[j];
      }
      LastWins(init, t, i);
    }
  }

  lemma {:induction false} LastDefault(s: seq<Assoc>, t: Target)
    requires forall j :: 0 <= j < |s| ==> Classify(s[j]) != t
    ensures Last(s, t) == 0.0
  {
    if s != [] {
      var init := s[..|s| - 1];
      forall j | 0 <= j < |init|
        ensures Classify(init[j]) != t
      {
        assert init[j] == s[j];
      }
      LastDefault(init, t);
    }
  }

  /** A list field holds one entry per routed association, in the order of
      the associations: the lists of two runs concatenate. */
  lemma {:induction false} EntriesConcat(x: seq<Assoc>, y: seq<Assoc>, t: Target)
    ensures Entries(x + y, t) == Entries(x, t) + Entries(y, t)
    decreases |y|
  {
    if y == [] {
      assert x + y == x;
    } else {
      var y' := y[..|y| - 1];
      assert (x + y)[..|x + y| - 1] == x + y';
      EntriesConcat(x, y', t);
    }
  }

  /** The entry list of one association: itself when routed there. */
  lemma EntriesSingle(a: Assoc, t: Target)
    ensures Entries([a], t) == if Classify(a) == t then [Entry(a)] else []
  {
    assert [a][..0] == [];
  }

  /** With no associations every field keeps its default. */
  lemma NoAssocsGivesDefaults(id: int, title: string, groupName: string)
    ensures MapSpec(id, title, groupName, []) == Success(NewResponse(id, title, groupName))
  {
  }

  /** One pass of the loop body of lines 23-100: the field the
      association is routed to is assigned, increased or appended to; the
      `вода` branch raises, given here as `None`. */
  method Route(current: ProductDetailResponse, assoc: Assoc) returns (r: Option<ProductDetailResponse>)
    ensures Classify(assoc) == Water ==> r.None?
    ensures Classify(assoc) != Water ==> r == Some(Touch(current, assoc))
  {
    var amount := assoc.amount;
    var entry := NutrientBase(amount, assoc.name, assoc.unit);
    var aa := current.proteins.aminoAcids;
    var b := current.fats.breakdown;
    match assoc.category
    case Macro =>
      r := RouteMacro(current, assoc);
    case EssentialAmino =>
      r := Some(current.(proteins := current.proteins.(aminoAcids := aa.(essential := aa.essential + amount))));
    case CondEssentialAmino =>
      r := Some(current.(proteins := current.proteins.(aminoAcids := aa.(condEssential := aa.condEssential + amount))));
    case NonessentialAmino =>
      r := Some(current.(proteins := current.proteins.(aminoAcids := aa.(nonessential := aa.nonessential + amount))));
    case SaturatedFats =>
      var next := RouteSaturated(current, assoc);
      r := Some(next);
    case MonounsaturatedFats =>
      r := Some(current.(fats := current.fats.(breakdown := b.(monounsaturated := b.monounsaturated + amount))));
    case PolyunsaturatedFatsCategory =>
      var next := RoutePolyunsaturated(current, assoc);
      r := Some(next);
    case Carbs =>
      var next := RouteCarbs(current, assoc);
      r := Some(next);
    case Vitamins =>
      r := Some(current.(vitamins := current.vitamins.(vits := current.vitamins.vits + [entry])));
    case VitaminLike =>
      r := Some(current.(vitaminLike := current.vitaminLike.(vitslk := current.vitaminLike.vitslk + [entry])));
    case MineralsMacro =>
      r := Some(current.(minerals := current.minerals.(macro := current.minerals.macro + [entry])));
    case MineralsMicro =>
      r := Some(current.(minerals := current.minerals.(micro := current.minerals.micro + [entry])));
    case Other =>
      r := Some(current.(other := current.other.(oths := current.other.oths + [entry])));
    case EnergyValue =>
      r := Some(current);
    case Fats =>
      r := Some(current);
  }

  /** The `macronutrients` branch (lines 28-36): the first keyword found
      in the lower-cased name picks the total; `вода` raises. */
  method RouteMacro(current: ProductDetailResponse, assoc: Assoc) returns (r: Option<ProductDetailResponse>)
    requires assoc.category == Macro
    ensures Classify(assoc) == Water ==> r.None?
    ensures Classify(assoc) != Water ==> r == Some(Touch(current, assoc))
  {
    var response := current;
    var amount := assoc.amount;
    var name := Lower(assoc.name);
    if Contains(name, "белки") {
      assert Classify(assoc) == ProteinsTotal;
      response := response.(proteins := response.proteins.(total := amount));
    } else if Contains(name, "жиры") {
      assert Classify(assoc) == FatsTotal;
      response := response.(fats := response.fats.(total := amount));
    } else if Contains(name, "углеводы") {
      assert Classify(assoc) == CarbsTotal;
      response := response.(carbs := response.carbs.(total := amount));
    } else if Contains(name, "вода") {
      return None;
    } else {
      assert Classify(assoc) == NoField;
    }
    return Some(response);
  }

  /** The saturated-fat branch: cholesterol is assigned, the rest added up. */
  method RouteSaturated(current: ProductDetailResponse, assoc: Assoc) returns (r: ProductDetailResponse)
    requires assoc.category == SaturatedFats
    ensures r == Touch(current, assoc)
  {
    var amount := assoc.amount;
    var b := current.fats.breakdown;
    if Contains(Lower(assoc.name), "холестерин") {
      assert Classify(assoc) == Cholesterol;
      r := current.(fats := current.fats.(breakdown := b.(cholesterol := amount)));
    } else {
      assert Classify(assoc) == Saturated;
      r := current.(fats := current.fats.(breakdown := b.(saturated := b.saturated + amount)));
    }
  }

  /** The polyunsaturated branch: total, omega-3 or omega-6 by keyword. */
  method RoutePolyunsaturated(current: ProductDetailResponse, assoc: Assoc) returns (r: ProductDetailResponse)
    requires assoc.category == PolyunsaturatedFatsCategory
    ensures r == Touch(current, assoc)
  {
    var amount := assoc.amount;
    var name := Lower(assoc.name);
    var b := current.fats.breakdown;
    var p := b.polyunsaturated;
    r := current;
    if Contains(name, "полиненасыщенные") {
      assert Classify(assoc) == PolyTotal;
      r := current.(fats := current.fats.(breakdown := b.(polyunsaturated := p.(total := amount))));
    } else if Contains(name, "омега-3") {
      assert Classify(assoc) == Omega3;
      r := current.(fats := current.fats.(breakdown := b.(polyunsaturated := p.(omega3 := amount))));
    } else if Contains(name, "омега-6") {
      assert Classify(assoc) == Omega6;
      r := current.(fats := current.fats.(breakdown := b.(polyunsaturated := p.(omega6 := amount))));
    } else {
      assert Classify(assoc) == NoField;
    }
  }

  /** The carbohydrate branch: fibre or sugar by keyword. */
  method RouteCarbs(current: ProductDetailResponse, assoc: Assoc) returns (r: ProductDetailResponse)
    requires assoc.category == Carbs
    ensures r == Touch(current, assoc)
  {
    var amount := assoc.amount;
    var name := Lower(assoc.name);
    var b := current.carbs.breakdown;
    r := current;
    if Contains(name, "клетчатка") {
      assert Classify(assoc) == Fiber;
      r := current.(carbs := current.carbs.(breakdown := b.(fiber := amount)));
    } else if Contains(name, "сахар") {
      assert Classify(assoc) == Sugar;
      r := current.(carbs := current.carbs.(breakdown := b.(sugar := amount)));
    } else {
      assert Classify(assoc) == NoField;
    }
  }

  lemma FoldedPrefix(id: int, title: string, groupName: string, s: seq<Assoc>, i: int)
    requires 0 <= i < |s|
    ensures Folded(id, title, groupName, s[..i + 1]) == Touch(Folded(id, title, groupName, s[..i]), s[i])
  {
    assert s[..i + 1][..i] == s[..i];
  }

  /** `map_to_schema`: the loop of lines 22-100 over the associations. */
  method MapToSchema(id: int, title: string, groupName: string, assocs: seq<Assoc>)
    returns (r: Result<ProductDetailResponse, Failure>)
    ensures r == MapSpec(id, title, groupName, assocs)
  {
    var response := NewResponse(id, title, groupName);
    assert assocs[..0] == [];
    for i := 0 to |assocs|
      invariant response == Folded(id, title, groupName, assocs[..i])
      invariant forall j :: 0 <= j < i ==> Classify(assocs[j]) != Water
    {
      FoldedPrefix(id, title, groupName, assocs, i);
      var next := Route(response, assocs[i]);
      if next.None? {
        assert HasWater(assocs) by {
          assert Classify(assocs[i]) == Water;
        }
        return Failure(WaterError);
      }
      response := next.value;
    }
    assert assocs[..|assocs|] == assocs;
    r := Success(response);
  }
}
