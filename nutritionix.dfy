/**
 * The two food-lookup response normalisers of services/nutritionix.ts.
 * `searchFoods` reads the instant-search shape, whose nutrients live in a
 * `full_nutrients` array keyed by numeric attribute id; `getNutritionFromText`
 * reads the natural-language shape, whose nutrients are flat `nf_*` fields.
 * Both produce the one canonical `NutritionInfo` record. The HTTP request is
 * not modelled: each function receives the reply it would have read.
 */
module Nutritionix {
  import opened Wrappers

  /** One element of `full_nutrients`. */
  datatype Nutrient = Nutrient(attr_id: int, value: real)

  datatype Photo = Photo(thumb: Option<string>, highres: Option<string>)

  /** The canonical record both normalisers produce. */
  datatype NutritionInfo = NutritionInfo(
    name: string,
    calories: real,
    protein_g: real,
    carbs_g: real,
    fat_g: real,
    fiber_g: real,
    sugar_g: real,
    sodium_mg: real,
    potassium_mg: real,
    cholesterol_mg: real,
    serving_qty: real,
    serving_unit: string,
    serving_weight_grams: real,
    full_nutrients: Option<seq<Nutrient>>,
    photo: Photo)

  /** An element of the instant-search reply's `common` array. */
  datatype InstantItem = InstantItem(
    food_name: string,
    serving_qty: real,
    serving_unit: string,
    serving_weight_grams: real,
    full_nutrients: Option<seq<Nutrient>>,
    photo: Option<Photo>)

  /** An element of the natural-language reply's `foods` array. */
  datatype NaturalItem = NaturalItem(
    food_name: string,
    nf_calories: Option<real>,
    nf_protein: Option<real>,
    nf_total_carbohydrate: Option<real>,
    nf_total_fat: Option<real>,
    nf_dietary_fiber: Option<real>,
    nf_sugars: Option<real>,
    nf_sodium: Option<real>,
    nf_potassium: Option<real>,
    nf_cholesterol: Option<real>,
    serving_qty: real,
    serving_unit: string,
    serving_weight_grams: real,
    full_nutrients: Option<seq<Nutrient>>,
    photo: Option<Photo>)

  /** The HTTP reply: its status flag and the result array of its JSON body
      (`None` when the body has no such array). */
  datatype Reply<T> = Reply(ok: bool, items: Option<seq<T>>)

  /** Why a lookup rejects: the thrown `Error` for a non-2xx status, or the
      `TypeError` raised while reading a field of an absent object. */
  datatype LookupError = HttpFailure(message: string) | MalformedBody

  const SearchFailedMessage := "Failed to fetch food data"
  const TextFailedMessage := "Failed to fetch nutrition data"

  // The attribute ids of the instant-search shape.
  const CaloriesId := 208
  const ProteinId := 203
  const CarbsId := 205
  const FatId := 204
  const FiberId := 291
  const SugarId := 269
  const SodiumId := 307
  const PotassiumId := 306
  const CholesterolId := 601

  /** `v` is what `entries.find(n => n.attr_id === id)?.value || 0` yields:
      the value of the first entry with that id, or 0 when there is none. */
  ghost predicate FirstMatchValue(entries: seq<Nutrient>, id: int, v: real) {
    || (exists i :: 0 <= i < |entries| && entries[i].attr_id == id && v == entries[i].value
                    && forall j :: 0 <= j < i ==> entries[j].attr_id != id)
    || ((forall j :: 0 <= j < |entries| ==> entries[j].attr_id != id) && v == 0.0)
  }

  /** The position `Array.prototype.find` stops at. */
  function FindIndex(entries: seq<Nutrient>, id: int): (r: Option<nat>)
    ensures r.Some? ==> r.value < |entries| && entries[r.value].attr_id == id
    ensures r.Some? ==> forall j :: 0 <= j < r.value ==> entries[j].attr_id != id
    ensures r.None? ==> forall j :: 0 <= j < |entries| ==> entries[j].attr_id != id
  {
    if |entries| == 0 then None
    else if entries[0].attr_id == id then Some(0)
    else match FindIndex(entries[1..], id)
      case None => None
      case Some(k) => Some(k + 1)
  }

  /** The nutrient lookup of the instant-search normaliser. */
  function NutrientValue(entries: seq<Nutrient>, id: int): (r: real)
    ensures FirstMatchValue(entries, id, r)
  {
    match FindIndex(entries, id)
    case None => 0.0
    case Some(i) => entries[i].value
  }

  /** The lookup has one answer: any two values it could be are equal. */
  lemma FirstMatchValueUnique(entries: seq<Nutrient>, id: int, v: real, w: real)
    requires FirstMatchValue(entries, id, v) && FirstMatchValue(entries, id, w)
    ensures v == w
  {
    if i :| 0 <= i < |entries| && entries[i].attr_id == id && v == entries[i].value
            && forall j :: 0 <= j < i ==> entries[j].attr_id != id {
      var k :| 0 <= k < |entries| && entries[k].attr_id == id && w == entries[k].value
               && forall j :: 0 <= j < k ==> entries[j].attr_id != id;
      assert !(i < k) && !(k < i);
    }
  }

  /** The mapping lambda of `searchFoods` for one element of `common`.
      Reading `item.full_nutrients.find` or `item.photo.thumb` of an absent
      object throws, so those items make the whole call reject. */
  function NormaliseInstant(item: InstantItem): (r: Result<NutritionInfo, LookupError>)
    ensures r.Success? <==> item.full_nutrients.Some? && item.photo.Some?
    ensures r.Failure? ==> r.error == MalformedBody
    ensures r.Success? ==> var info := r.value; var fn := item.full_nutrients.value;
      && info.name == item.food_name
      && FirstMatchValue(fn, 208, info.calories)
      && FirstMatchValue(fn, 203, info.protein_g)
      && FirstMatchValue(fn, 205, info.carbs_g)
      && FirstMatchValue(fn, 204, info.fat_g)
      && FirstMatchValue(fn, 291, info.fiber_g)
      && FirstMatchValue(fn, 269, info.sugar_g)
      && FirstMatchValue(fn, 307, info.sodium_mg)
      && FirstMatchValue(fn, 306, info.potassium_mg)
      && FirstMatchValue(fn, 601, info.cholesterol_mg)
      && info.serving_qty == item.serving_qty
      && info.serving_unit == item.serving_unit
      && info.serving_weight_grams == item.serving_weight_grams
      && info.full_nutrients == item.full_nutrients
      && info.photo == item.photo.value
  {
    match (item.full_nutrients, item.photo)
    case (Some(fn), Some(photo)) =>
      Success(NutritionInfo(
        item.food_name,
        NutrientValue(fn, CaloriesId),
        NutrientValue(fn, ProteinId),
        NutrientValue(fn, CarbsId),
        NutrientValue(fn, FatId),
        NutrientValue(fn, FiberId),
        NutrientValue(fn, SugarId),
        NutrientValue(fn, SodiumId),
        NutrientValue(fn, PotassiumId),
        NutrientValue(fn, CholesterolId),
        item.serving_qty,
        item.serving_unit,
        item.serving_weight_grams,
        item.full_nutrients,
        Photo(photo.thumb, photo.highres)))
    case _ => Failure(MalformedBody)
  }

  /** `common.map(...)`: one record per element, in order, or the first
      element's failure. */
  function NormaliseAllInstant(items: seq<InstantItem>): (r: Result<seq<NutritionInfo>, LookupError>)
    ensures r.Success? <==> forall i :: 0 <= i < |items| ==> NormaliseInstant(items[i]).Success?
    ensures r.Success? ==> |r.value| == |items|
    ensures r.Success? ==> forall i :: 0 <= i < |items| ==> Success(r.value[i]) == NormaliseInstant(items[i])
    ensures r.Failure? ==> r.error == MalformedBody
  {
    if |items| == 0 then Success([])
    else match (NormaliseInstant(items[0]), NormaliseAllInstant(items[1..]))
      case (Success(head), Success(tail)) => Success([head] + tail)
      case (Failure(e), _) => Failure(e)
      case (_, Failure(e)) => Failure(e)
  }

  /** `searchFoods` once the reply is in: a non-2xx status rejects with the
      fixed message; otherwise `common` is normalised element by element. */
  function SearchFoods(reply: Reply<InstantItem>): (r: Result<seq<NutritionInfo>, LookupError>)
    ensures !reply.ok ==> r == Failure(HttpFailure(SearchFailedMessage))
    ensures reply.ok && reply.items.None? ==> r == Failure(MalformedBody)
    ensures r.Success? ==> reply.ok && reply.items.Some? && |r.value| == |reply.items.value|
    ensures r.Success? ==> forall i :: 0 <= i < |r.value| ==>
      Success(r.value[i]) == NormaliseInstant(reply.items.value[i])
    ensures reply.ok && reply.items.Some? ==>
      (r.Success? <==> forall i :: 0 <= i < |reply.items.value| ==>
        reply.items.value[i].full_nutrients.Some? && reply.items.value[i].photo.Some?)
  {
    if !reply.ok then Failure(HttpFailure(SearchFailedMessage))
    else match reply.items
      case None => Failure(MalformedBody)
      case Some(common) => NormaliseAllInstant(common)
  }

  /** `x || 0` on an optional number. */
  function OrZero(x: Option<real>): (r: real)
    ensures x.None? ==> r == 0.0
    ensures x.Some? ==> r == x.value
  {
    x.GetOr(0.0)
  }

  /** The mapping lambda of `getNutritionFromText`; `item.photo?.thumb`
      tolerates an absent photo, so it never fails. */
  function NormaliseNatural(item: NaturalItem): (r: NutritionInfo)
    ensures r.name == item.food_name
    ensures r.calories == OrZero(item.nf_calories)
    ensures r.protein_g == OrZero(item.nf_protein)
    ensures r.carbs_g == OrZero(item.nf_total_carbohydrate)
    ensures r.fat_g == OrZero(item.nf_total_fat)
    ensures r.fiber_g == OrZero(item.nf_dietary_fiber)
    ensures r.sugar_g == OrZero(item.nf_sugars)
    ensures r.sodium_mg == OrZero(item.nf_sodium)
    ensures r.potassium_mg == OrZero(item.nf_potassium)
    ensures r.cholesterol_mg == OrZero(item.nf_cholesterol)
    ensures r.serving_qty == item.serving_qty && r.serving_unit == item.serving_unit
    ensures r.serving_weight_grams == item.serving_weight_grams
    ensures r.full_nutrients == item.full_nutrients
    ensures item.photo.None? ==> r.photo == Photo(None, None)
    ensures item.photo.Some? ==> r.photo == item.photo.value
  {
    var photo := match item.photo
      case None => Photo(None, None)
      case Some(p) => Photo(p.thumb, p.highres);
    NutritionInfo(
      item.food_name,
      OrZero(item.nf_calories),
      OrZero(item.nf_protein),
      OrZero(item.nf_total_carbohydrate),
      OrZero(item.nf_total_fat),
      OrZero(item.nf_dietary_fiber),
      OrZero(item.nf_sugars),
      OrZero(item.nf_sodium),
      OrZero(item.nf_potassium),
      OrZero(item.nf_cholesterol),
      item.serving_qty,
      item.serving_unit,
      item.serving_weight_grams,
      item.full_nutrients,
      photo)
  }

  /** `getNutritionFromText` once the reply is in. */
  function NutritionFromText(reply: Reply<NaturalItem>): (r: Result<seq<NutritionInfo>, LookupError>)
    ensures !reply.ok ==> r == Failure(HttpFailure(TextFailedMessage))
    ensures reply.ok && reply.items.None? ==> r == Failure(MalformedBody)
    ensures reply.ok && reply.items.Some? ==> r.Success? && |r.value| == |reply.items.value|
    ensures r.Success? ==> reply.ok && reply.items.Some?
    ensures r.Success? ==> forall i :: 0 <= i < |r.value| ==>
      r.value[i] == NormaliseNatural(reply.items.value[i])
  {
    if !reply.ok then Failure(HttpFailure(TextFailedMessage))
    else match reply.items
      case None => Failure(MalformedBody)
      case Some(foods) => Success(seq(|foods|, i requires 0 <= i < |foods| => NormaliseNatural(foods[i])))
  }

  /** The natural-language item that carries, as flat fields, exactly what
      the instant-search lookup finds in `full_nutrients`. */
  predicate DescribesSameFood(inst: InstantItem, text: NaturalItem) {
    && inst.full_nutrients.Some? && inst.photo.Some?
    && text.food_name == inst.food_name
    && text.serving_qty == inst.serving_qty
    && text.serving_unit == inst.serving_unit
    && text.serving_weight_grams == inst.serving_weight_grams
    && text.full_nutrients == inst.full_nutrients
    && text.photo == inst.photo
    && var fn := inst.full_nutrients.value;
    && OrZero(text.nf_calories) == NutrientValue(fn, CaloriesId)
    && OrZero(text.nf_protein) == NutrientValue(fn, ProteinId)
    && OrZero(text.nf_total_carbohydrate) == NutrientValue(fn, CarbsId)
    && OrZero(text.nf_total_fat) == NutrientValue(fn, FatId)
    && OrZero(text.nf_dietary_fiber) == NutrientValue(fn, FiberId)
    && OrZero(text.nf_sugars) == NutrientValue(fn, SugarId)
    && OrZero(text.nf_sodium) == NutrientValue(fn, SodiumId)
    && OrZero(text.nf_potassium) == NutrientValue(fn, PotassiumId)
    && OrZero(text.nf_cholesterol) == NutrientValue(fn, CholesterolId)
  }

  /** Given field values that agree, both normalisers put them in the same
      places: the instant and natural-language shapes give the same record. */
  lemma CanonicalAcrossShapes(inst: InstantItem, text: NaturalItem)
    requires DescribesSameFood(inst, text)
    ensures NormaliseInstant(inst) == Success(NormaliseNatural(text))
  {
  }

  /** An instant-search item without an entry for an id gets 0 for that
      nutrient, not an absent value (sodium, id 307, for one). */
  lemma MissingIdDefaultsToZero(item: InstantItem, id: int)
    requires item.full_nutrients.Some? && item.photo.Some?
    requires forall j :: 0 <= j < |item.full_nutrients.value| ==> item.full_nutrients.value[j].attr_id != id
    ensures NutrientValue(item.full_nutrients.value, id) == 0.0
    ensures id == SodiumId ==> NormaliseInstant(item).value.sodium_mg == 0.0
  {
  }
}
