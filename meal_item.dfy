/**
 * The non-rendering logic of components/MealItem.tsx: the macro bars, the
 * thumbnail or its placeholder initial, the time label, and the expanded
 * flag the header toggles. The flag is the component's one state cell, so
 * it is a class field that `ToggleExpanded` flips in place.
 */
module MealItem {
  import opened Wrappers
  import Js

  /** The store's server timestamp: whole seconds since the epoch. */
  datatype Timestamp = Timestamp(seconds: int)

  /** The fields of a logged meal the card reads. */
  datatype Meal = Meal(
    name: string,
    mealType: Option<string>,
    photoUrl: Option<string>,
    timestamp: Option<Timestamp>,
    calories: real,
    protein_g: real,
    carbs_g: real,
    fat_g: real)

  /** `MacroIndicator`'s bar width: `value / total * 100`, or 0 when the
      total is not positive, so there is never a division by zero. */
  function MacroShare(value: int, total: int): (r: real)
    ensures total <= 0 ==> r == 0.0
    ensures total > 0 ==> r * total as real == value as real * 100.0
  {
    if total > 0 then value as real / total as real * 100.0 else 0.0
  }

  /** A part of a positive total fills between none and all of the bar. */
  lemma {:induction false} MacroShareInRange(value: int, total: int)
    requires 0 <= value <= total && total > 0
    ensures 0.0 <= MacroShare(value, total) <= 100.0
  {
    var ratio := value as real / total as real;
    assert ratio * total as real == value as real;
    assert 0.0 <= ratio <= 1.0;
  }

  /** The total every indicator of the card divides by:
      `Math.round(protein_g + carbs_g + fat_g)`. */
  function MacroTotal(meal: Meal): int {
    Js.Round(meal.protein_g + meal.carbs_g + meal.fat_g)
  }

  datatype Indicator = Indicator(caption: string, value: int, total: int, share: real)

  /** The three indicators, protein, carbs and fat, each with its rounded
      amount and the card's common total. */
  function Indicators(meal: Meal): (r: seq<Indicator>)
    ensures |r| == 3
    ensures r[0].caption == "Protein" && r[1].caption == "Carbs" && r[2].caption == "Fat"
    ensures r[0].value == Js.Round(meal.protein_g)
    ensures r[1].value == Js.Round(meal.carbs_g)
    ensures r[2].value == Js.Round(meal.fat_g)
    ensures forall k :: 0 <= k < 3 ==> r[k].total == MacroTotal(meal) && r[k].share == MacroShare(r[k].value, r[k].total)
  {
    var total := MacroTotal(meal);
    [ Indicator("Protein", Js.Round(meal.protein_g), total, MacroShare(Js.Round(meal.protein_g), total)),
      Indicator("Carbs", Js.Round(meal.carbs_g), total, MacroShare(Js.Round(meal.carbs_g), total)),
      Indicator("Fat", Js.Round(meal.fat_g), total, MacroShare(Js.Round(meal.fat_g), total)) ]
  }

  /** With non-negative macros, no single bar overflows: a rounded part
      never exceeds the rounded total. */
  lemma {:induction false} IndicatorsInRange(meal: Meal, k: int)
    requires meal.protein_g >= 0.0 && meal.carbs_g >= 0.0 && meal.fat_g >= 0.0
    requires 0 <= k < 3
    ensures 0.0 <= Indicators(meal)[k].share <= 100.0
  {
    var ind := Indicators(meal);
    var sum := meal.protein_g + meal.carbs_g + meal.fat_g;
    var part := if k == 0 then meal.protein_g else if k == 1 then meal.carbs_g else meal.fat_g;
    assert ind[k].value == Js.Round(part);
    Js.RoundMonotone(0.0, part);
    Js.RoundMonotone(part, sum);
    assert Js.Round(0.0) == 0;
    if ind[k].total > 0 {
      MacroShareInRange(ind[k].value, ind[k].total);
    }
  }

  /** The bars need not add up to 100%: each macro is rounded on its own. */
  lemma SharesMayExceedWhole()
    ensures var ind := Indicators(Meal("", None, None, None, 0.0, 0.5, 0.5, 0.0));
      ind[0].share + ind[1].share + ind[2].share == 200.0
  {
    var meal := Meal("", None, None, None, 0.0, 0.5, 0.5, 0.0);
    assert Js.Round(0.5) == 1 && Js.Round(0.0) == 0 && Js.Round(1.0) == 1;
    assert MacroTotal(meal) == 1;
  }

  /** `meal.mealType?.charAt(0) || 'M'`. */
  function PlaceholderInitial(mealType: Option<string>): (r: string)
    ensures mealType.None? || mealType == Some("") ==> r == "M"
    ensures mealType.Some? && mealType.value != "" ==> r == [mealType.value[0]]
    ensures |r| == 1
  {
    match mealType
    case Some(t) => Js.OrElse(Some(if |t| == 0 then "" else [t[0]]), "M")
    case None => "M"
  }

  datatype Thumbnail = MealPhoto(uri: string) | Initial(letter: string)

  /** The photo when `photoUrl` is truthy, else the placeholder initial. */
  function MealThumbnail(meal: Meal): (r: Thumbnail)
    ensures r.MealPhoto? <==> Js.Truthy(meal.photoUrl)
    ensures r.MealPhoto? ==> r.uri == meal.photoUrl.value
    ensures r.Initial? ==> r.letter == PlaceholderInitial(meal.mealType)
  {
    if Js.Truthy(meal.photoUrl) then MealPhoto(meal.photoUrl.value) else Initial(PlaceholderInitial(meal.mealType))
  }

  /** `formattedTime`: the locale time of the timestamp, in milliseconds,
      or the empty string when the meal has none. The locale formatting is
      a parameter. */
  function FormattedTime(timestamp: Option<Timestamp>, toLocaleTime: int -> string): (r: string)
    ensures timestamp.None? ==> r == ""
    ensures timestamp.Some? ==> r == toLocaleTime(timestamp.value.seconds * 1000)
  {
    match timestamp
    case None => ""
    case Some(t) => toLocaleTime(t.seconds * 1000)
  }

  /** The card's `expanded` state. */
  class MealCard {
    var expanded: bool

    constructor ()
      ensures !expanded
    {
      expanded := false;
    }

    /** `toggleExpanded`. */
    method ToggleExpanded()
      modifies this
      ensures expanded == !old(expanded)
    {
      expanded := !expanded;
    }
  }

  /** Toggling twice restores the state. */
  method ToggleTwice(card: MealCard)
    modifies card
    ensures card.expanded == old(card.expanded)
  {
    card.ToggleExpanded();
    card.ToggleExpanded();
  }
}
