/** What the result card derives from a nutrition record: the colour of the health-score
    badge, whether the allergen block appears, and the items of the allergen, pros, cons
    and tips lists. Layout, icons and styling are not modelled. */
module AnalysisResult {
  import opened Wrappers
  import opened FoodTypes

  /** The badge variants the `Badge` component accepts. */
  datatype Variant = Success | Warning | Error | Info | Neutral

  datatype Badge = Badge(variant: Variant, content: string)

  /** A rendered list element with its React `key`. */
  datatype Keyed<T> = Keyed(key: nat, item: T)

  /** The variant of the health-score badge: above 70 success, above 40 warning, else error. */
  function ScoreVariant(score: real): (v: Variant)
    ensures v == Success <==> score > 70.0
    ensures v == Warning <==> 40.0 < score <= 70.0
    ensures v == Error <==> score <= 40.0
  {
    if score > 70.0 then Success else if score > 40.0 then Warning else Error
  }

  /** How good a score variant is: error < warning < success. */
  function Grade(v: Variant): nat
    requires v in {Error, Warning, Success}
  {
    match v
    case Error => 0
    case Warning => 1
    case Success => 2
  }

  /** A higher score never gets a worse badge. */
  lemma ScoreVariantMonotone(a: real, b: real)
    requires a <= b
    ensures Grade(ScoreVariant(a)) <= Grade(ScoreVariant(b))
  {
  }

  /** `xs.map((x, i) => ...)`: one element per input, in order, keyed by its index. */
  function MapIndexed<T, U>(xs: seq<T>, f: T -> U): (r: seq<Keyed<U>>)
    ensures |r| == |xs|
    ensures forall i :: 0 <= i < |xs| ==> r[i] == Keyed(i, f(xs[i]))
    decreases |xs|
  {
    if |xs| == 0 then []
    else MapIndexed(xs[..|xs| - 1], f) + [Keyed(|xs| - 1, f(xs[|xs| - 1]))]
  }

  /** The allergen block: present only for a non-empty list, holding one error badge per
      allergen, in order. */
  function AllergenBlock(allergens: seq<string>): (block: Option<seq<Keyed<Badge>>>)
    ensures block.Some? <==> |allergens| > 0
    ensures block.Some? ==> |block.value| == |allergens|
    ensures block.Some? ==> forall i :: 0 <= i < |allergens| ==> block.value[i] == Keyed(i, Badge(Error, allergens[i]))
  {
    if |allergens| > 0 then Some(MapIndexed(allergens, a => Badge(Error, a))) else None
  }

  /** The items of the pros, cons or tips list: each element's text unchanged, in order. */
  function ListItems(texts: seq<string>): (items: seq<Keyed<string>>)
    ensures |items| == |texts|
    ensures forall i :: 0 <= i < |texts| ==> items[i] == Keyed(i, texts[i])
  {
    MapIndexed(texts, t => t)
  }

  /** The parts of the result card that depend on the record's values; `chartProps` is the
      `data` prop handed to the macro chart. */
  datatype ResultView = ResultView(
    title: string,
    scoreBadge: Variant,
    levelBadge: Badge,
    chartProps: Macros,
    allergens: Option<seq<Keyed<Badge>>>,
    pros: seq<Keyed<string>>,
    cons: seq<Keyed<string>>,
    tips: seq<Keyed<string>>)

  /** The card for a record. */
  function Render(rec: NutritionRecord): (view: ResultView)
    ensures view.title == rec.foodName
    ensures view.scoreBadge == Success <==> rec.healthScore > 70.0
    ensures view.scoreBadge == Warning <==> 40.0 < rec.healthScore <= 70.0
    ensures view.scoreBadge == Error <==> rec.healthScore <= 40.0
    ensures view.levelBadge == Badge(Info, rec.processingLevel)
    ensures view.chartProps == rec.macros
    ensures view.allergens.Some? <==> |rec.allergens| > 0
    ensures view.allergens.Some? ==> |view.allergens.value| == |rec.allergens|
    ensures view.allergens.Some? ==>
      forall i :: 0 <= i < |rec.allergens| ==> view.allergens.value[i] == Keyed(i, Badge(Error, rec.allergens[i]))
    ensures |view.pros| == |rec.pros| && |view.cons| == |rec.cons| && |view.tips| == |rec.tips|
    ensures forall i :: 0 <= i < |rec.pros| ==> view.pros[i] == Keyed(i, rec.pros[i])
    ensures forall i :: 0 <= i < |rec.cons| ==> view.cons[i] == Keyed(i, rec.cons[i])
    ensures forall i :: 0 <= i < |rec.tips| ==> view.tips[i] == Keyed(i, rec.tips[i])
  {
    ResultView(
      rec.foodName,
      ScoreVariant(rec.healthScore),
      Badge(Info, rec.processingLevel),
      rec.macros,
      AllergenBlock(rec.allergens),
      ListItems(rec.pros),
      ListItems(rec.cons),
      ListItems(rec.tips))
  }
}
