/**
 * The non-rendering logic of components/NutritionDetailModal.tsx: the
 * attribute lookup `getNutrientValue`, the macro energy percentages, the
 * choice of header image, and the meal-type buttons. What the modal shows
 * is gathered into a `DetailView` value; layout and styling are not modelled.
 */
module NutritionDetailModal {
  import opened Wrappers
  import Js
  import opened Nutritionix

  // Attribute ids of the rows read from `full_nutrients`.
  const SaturatedFatId := 606
  const TransFatId := 605
  const VitaminDId := 324
  const CalciumId := 301
  const IronId := 303

  /** `getNutrientValue`: 0 without `full_nutrients`, else the value of the
      first entry with the id, or 0 when none has it. */
  function GetNutrientValue(item: NutritionInfo, attrId: int): (r: real)
    ensures item.full_nutrients.None? ==> r == 0.0
    ensures item.full_nutrients.Some? ==> FirstMatchValue(item.full_nutrients.value, attrId, r)
  {
    match item.full_nutrients
    case None => 0.0
    case Some(entries) => NutrientValue(entries, attrId)
  }

  datatype Macro = Protein | Carbs | Fat {
    /** Energy per gram: 4 kcal for protein and carbohydrate, 9 for fat. */
    function KcalPerGram(): int {
      match this
      case Protein => 4
      case Carbs => 4
      case Fat => 9
    }

    function Grams(item: NutritionInfo): real {
      match this
      case Protein => item.protein_g
      case Carbs => item.carbs_g
      case Fat => item.fat_g
    }
  }

  /** The JavaScript number a percentage evaluates to: an integer, or an
      infinity after a division by zero calories. */
  datatype Shown = Finite(value: int) | Infinite(positive: bool)

  /** `Math.round((grams * kcalPerGram / calories) * 100) || 0`. With zero
      calories, `0 / 0` is NaN and `|| 0` turns it into 0, while a non-zero
      numerator gives an infinity. */
  function EnergyPercentage(grams: real, kcalPerGram: int, calories: real): (r: Shown)
    ensures calories != 0.0 ==>
      && r.Finite?
      && grams * kcalPerGram as real * 100.0 / calories - 1.0 / 2.0 < r.value as real
      && r.value as real <= grams * kcalPerGram as real * 100.0 / calories + 1.0 / 2.0
    ensures calories == 0.0 && grams * kcalPerGram as real == 0.0 ==> r == Finite(0)
    ensures calories == 0.0 && grams * kcalPerGram as real != 0.0 ==> r == Infinite(grams * kcalPerGram as real > 0.0)
  {
    var energy := grams * kcalPerGram as real;
    if calories == 0.0 then
      if energy == 0.0 then Finite(0) else Infinite(energy > 0.0)
    else
      assert energy / calories * 100.0 == energy * 100.0 / calories;
      Finite(Js.Round(energy / calories * 100.0))
  }

  /** The share shown on a macro's circle. */
  function MacroPercentage(item: NutritionInfo, macro: Macro): Shown {
    EnergyPercentage(macro.Grams(item), macro.KcalPerGram(), item.calories)
  }

  /** When the macro's energy is part of the calories, its share is a whole
      percentage between 0 and 100. */
  lemma {:induction false} EnergyPercentageInRange(grams: real, kcalPerGram: int, calories: real)
    requires calories > 0.0 && 0.0 <= grams * kcalPerGram as real <= calories
    ensures var r := EnergyPercentage(grams, kcalPerGram, calories); r.Finite? && 0 <= r.value <= 100
  {
    var energy := grams * kcalPerGram as real;
    var x := energy / calories * 100.0;
    assert 0.0 <= energy / calories <= 1.0 by {
      assert energy / calories * calories == energy;
    }
    assert 0.0 <= x <= 100.0;
    Js.RoundMonotone(0.0, x);
    Js.RoundMonotone(x, 100.0);
    assert Js.Round(0.0) == 0;
    assert Js.Round(100.0) == 100;
  }

  /** A food with neither calories nor the macro shows 0%. */
  lemma ZeroFoodShowsZero(item: NutritionInfo, macro: Macro)
    requires item.calories == 0.0 && macro.Grams(item) == 0.0
    ensures MacroPercentage(item, macro) == Finite(0)
  {
  }

  /** The header of the modal: the food's photo, or its initial on a tile. */
  datatype FoodImage = PhotoImage(uri: string) | Placeholder(initial: string)

  /** The photo is shown only when `photo.thumb` is truthy, and then the
      high-resolution image is preferred; otherwise the upper-cased first
      character of the name is shown. */
  function HeaderImage(item: NutritionInfo): (r: FoodImage)
    ensures r.PhotoImage? <==> Js.Truthy(item.photo.thumb)
    ensures r.PhotoImage? && Js.Truthy(item.photo.highres) ==> r.uri == item.photo.highres.value
    ensures r.PhotoImage? && !Js.Truthy(item.photo.highres) ==> r.uri == item.photo.thumb.value
    ensures r.Placeholder? ==> |r.initial| == (if |item.name| == 0 then 0 else 1)
    ensures r.Placeholder? && |item.name| > 0 ==> r.initial[0] == Js.UpperChar(item.name[0])
  {
    if Js.Truthy(item.photo.thumb) then
      PhotoImage(Js.OrElse(item.photo.highres, item.photo.thumb.value))
    else
      Placeholder(Js.ToUpper(if |item.name| == 0 then "" else item.name[..1]))
  }

  /** The meal types offered, in button order. */
  const MealTypes := ["Breakfast", "Lunch", "Dinner", "Snack"]

  /** What the modal renders for an item. */
  datatype DetailView = DetailView(
    image: FoodImage,
    proteinPercentage: Shown,
    carbsPercentage: Shown,
    fatPercentage: Shown,
    saturatedFat: real,
    transFat: real,
    vitaminD: real,
    calcium: real,
    iron: real,
    mealTypeButtons: seq<string>)

  /** The modal's render: nothing without an item; the add-to-meal-log
      buttons only when a handler was passed. */
  function Render(item: Option<NutritionInfo>, canAddToMealLog: bool): (r: Option<DetailView>)
    ensures r.None? <==> item.None?
    ensures r.Some? ==> r.value.image == HeaderImage(item.value)
    ensures r.Some? ==> r.value.mealTypeButtons == (if canAddToMealLog then MealTypes else [])
    ensures r.Some? ==> r.value.proteinPercentage == EnergyPercentage(item.value.protein_g, 4, item.value.calories)
    ensures r.Some? ==> r.value.carbsPercentage == EnergyPercentage(item.value.carbs_g, 4, item.value.calories)
    ensures r.Some? ==> r.value.fatPercentage == EnergyPercentage(item.value.fat_g, 9, item.value.calories)
    ensures r.Some? ==>
      && r.value.saturatedFat == GetNutrientValue(item.value, SaturatedFatId)
      && r.value.transFat == GetNutrientValue(item.value, TransFatId)
      && r.value.vitaminD == GetNutrientValue(item.value, VitaminDId)
      && r.value.calcium == GetNutrientValue(item.value, CalciumId)
      && r.value.iron == GetNutrientValue(item.value, IronId)
    ensures r.Some? && item.value.full_nutrients.None? ==>
      r.value.saturatedFat == r.value.transFat == r.value.vitaminD == r.value.calcium == r.value.iron == 0.0
  {
    match item
    case None => None
    case Some(info) =>
      Some(DetailView(
        HeaderImage(info),
        MacroPercentage(info, Protein),
        MacroPercentage(info, Carbs),
        MacroPercentage(info, Fat),
        GetNutrientValue(info, SaturatedFatId),
        GetNutrientValue(info, TransFatId),
        GetNutrientValue(info, VitaminDId),
        GetNutrientValue(info, CalciumId),
        GetNutrientValue(info, IronId),
        if canAddToMealLog then MealTypes else []))
  }

  /** The calls a button press makes, in order. */
  datatype ModalEffect = AddToMealLog(item: NutritionInfo, mealType: string) | CloseModal

  /** Pressing the button of `mealType`: log the item under that type, then close. */
  function PressMealType(item: NutritionInfo, mealType: string): (r: seq<ModalEffect>)
    ensures |r| == 2 && r[1] == CloseModal
    ensures r[0].AddToMealLog? && r[0].item == item && r[0].mealType == mealType
  {
    [AddToMealLog(item, mealType), CloseModal]
  }
}
