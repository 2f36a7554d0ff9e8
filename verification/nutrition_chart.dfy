/** The data of the macro pie chart: four fixed entries, each macro's value defaulting to
    zero, kept only when positive. */
module NutritionChart {
  import opened Wrappers
  import opened FoodTypes

  datatype ChartEntry = ChartEntry(name: string, value: real, color: string)

  const ProteinName := "Proteína"
  const CarbsName := "Carboidrato"
  const FatName := "Gordura"
  const FiberName := "Fibra"

  /** The fixed order of the chart's entries. */
  const ChartOrder := [ProteinName, CarbsName, FatName, FiberName]

  /** The colour that goes with each name. */
  const Palette := map[ProteinName := "#3b82f6", CarbsName := "#f59e0b", FatName := "#ef4444", FiberName := "#10b981"]

  /** `x || 0` on a number that may be missing: a missing or zero value becomes 0. */
  function OrZero(x: Option<real>): (v: real)
    ensures v == (if x.Some? then x.value else 0.0)
  {
    if x.Some? && x.value != 0.0 then x.value else 0.0
  }

  /** Position of a name in the chart order (4 for a name that is not a macro). */
  function Rank(name: string): (k: nat)
    ensures k <= 4
    ensures k < 4 <==> name in ChartOrder
    ensures k < 4 ==> ChartOrder[k] == name
  {
    if name == ProteinName then 0
    else if name == CarbsName then 1
    else if name == FatName then 2
    else if name == FiberName then 3
    else 4
  }

  /** Names follow the chart order strictly. */
  ghost predicate Ordered(entries: seq<ChartEntry>) {
    forall i, j :: 0 <= i < j < |entries| ==> Rank(entries[i].name) < Rank(entries[j].name)
  }

  /** Every entry is a macro with its own colour, and names follow the chart order strictly. */
  ghost predicate InChartOrder(entries: seq<ChartEntry>) {
    && (forall e :: e in entries ==> e.name in Palette && e.color == Palette[e.name])
    && Ordered(entries)
  }

  /** The four entries before filtering. */
  function AllEntries(m: Macros): (entries: seq<ChartEntry>)
    ensures InChartOrder(entries)
  {
    [ ChartEntry(ProteinName, OrZero(m.protein), Palette[ProteinName]),
      ChartEntry(CarbsName, OrZero(m.carbs), Palette[CarbsName]),
      ChartEntry(FatName, OrZero(m.fat), Palette[FatName]),
      ChartEntry(FiberName, OrZero(m.fiber), Palette[FiberName]) ]
  }

  /** `kept` is `entries` with some elements left out, the others in their original order. */
  ghost predicate IsSubsequence(kept: seq<ChartEntry>, entries: seq<ChartEntry>)
    decreases |entries|
  {
    || kept == []
    || (&& entries != []
        && ((kept[0] == entries[0] && IsSubsequence(kept[1..], entries[1..]))
            || IsSubsequence(kept, entries[1..])))
  }

  /** `.filter(d => d.value > 0)`: exactly the positive entries, each as often as in the
      input, in their original relative order. */
  function KeepPositive(entries: seq<ChartEntry>): (kept: seq<ChartEntry>)
    ensures |kept| <= |entries|
    ensures forall e :: e in kept <==> e in entries && e.value > 0.0
    ensures forall e :: multiset(kept)[e] == if e.value > 0.0 then multiset(entries)[e] else 0
    ensures IsSubsequence(kept, entries)
    decreases |entries|
  {
    if entries == [] then []
    else
      assert entries == [entries[0]] + entries[1..];
      var rest := KeepPositive(entries[1..]);
      if entries[0].value > 0.0 then
        assert ([entries[0]] + rest)[1..] == rest;
        [entries[0]] + rest
      else
        rest
  }

  /** A list in chart order stays in chart order once filtered. */
  lemma {:induction false} KeepPositiveOrdered(entries: seq<ChartEntry>)
    requires Ordered(entries)
    ensures Ordered(KeepPositive(entries))
    decreases |entries|
  {
    if entries != [] {
      var first, rest := entries[0], entries[1..];
      assert Ordered(rest) by {
        forall i, j | 0 <= i < j < |rest| ensures Rank(rest[i].name) < Rank(rest[j].name) {
          assert rest[i] == entries[i + 1] && rest[j] == entries[j + 1];
        }
      }
      assert forall e :: e in rest ==> Rank(first.name) < Rank(e.name) by {
        forall e | e in rest ensures Rank(first.name) < Rank(e.name) {
          var k :| 0 <= k < |rest| && rest[k] == e;
          assert entries[k + 1] == e;
        }
      }
      KeepPositiveOrdered(rest);
      var tailKept := KeepPositive(rest);
      if first.value > 0.0 {
        FirstBeforeRest(first, tailKept, rest);
      }
    }
  }

  /** An entry ranked before everything in `rest` can go in front of ordered entries from `rest`. */
  lemma FirstBeforeRest(first: ChartEntry, kept: seq<ChartEntry>, rest: seq<ChartEntry>)
    requires Ordered(kept)
    requires forall e :: e in kept ==> e in rest
    requires forall e :: e in rest ==> Rank(first.name) < Rank(e.name)
    ensures Ordered([first] + kept)
  {
  }

  /** `chartData`: the macros with a positive value, in the fixed order, each with its colour. */
  function ChartData(m: Macros): (data: seq<ChartEntry>)
    ensures |data| <= 4
    ensures InChartOrder(data)
    ensures forall e :: e in data ==> e.value > 0.0
    ensures ChartEntry(ProteinName, OrZero(m.protein), Palette[ProteinName]) in data <==> OrZero(m.protein) > 0.0
    ensures ChartEntry(CarbsName, OrZero(m.carbs), Palette[CarbsName]) in data <==> OrZero(m.carbs) > 0.0
    ensures ChartEntry(FatName, OrZero(m.fat), Palette[FatName]) in data <==> OrZero(m.fat) > 0.0
    ensures ChartEntry(FiberName, OrZero(m.fiber), Palette[FiberName]) in data <==> OrZero(m.fiber) > 0.0
  {
    var all := AllEntries(m);
    KeepPositiveOrdered(all);
    KeepPositive(all)
  }

  /** No name appears twice in the chart. */
  lemma ChartNamesDistinct(m: Macros)
    ensures var data := ChartData(m);
      forall i, j :: 0 <= i < j < |data| ==> data[i].name != data[j].name
  {
    OrderedNamesDistinct(ChartData(m));
  }

  /** Entries strictly in chart order never repeat a name. */
  lemma OrderedNamesDistinct(data: seq<ChartEntry>)
    requires Ordered(data)
    ensures forall i, j :: 0 <= i < j < |data| ==> data[i].name != data[j].name
  {
  }

  /** The defaulted value of the macro a chart name stands for. */
  function MacroValue(m: Macros, name: string): real
    requires name in ChartOrder
  {
    if name == ProteinName then OrZero(m.protein)
    else if name == CarbsName then OrZero(m.carbs)
    else if name == FatName then OrZero(m.fat)
    else OrZero(m.fiber)
  }

  /** The unfiltered entry with a given name carries that macro's value. */
  lemma AllEntriesByName(m: Macros, e: ChartEntry)
    requires e in AllEntries(m)
    ensures e.name in ChartOrder && e == AllEntries(m)[Rank(e.name)]
    ensures e.value == MacroValue(m, e.name)
  {
  }

  /** Each charted entry is a macro and carries that macro's defaulted value. */
  lemma ChartValues(m: Macros)
    ensures forall e :: e in ChartData(m) ==> e.name in ChartOrder && e.value == MacroValue(m, e.name)
  {
    forall e | e in ChartData(m) ensures e.name in ChartOrder && e.value == MacroValue(m, e.name) {
      AllEntriesByName(m, e);
    }
  }

  /** The `k`-th macro is charted, by name, iff its defaulted value is positive: a missing,
      zero or negative macro is dropped. */
  lemma MacroCharted(m: Macros, k: nat)
    requires k < 4
    ensures MacroValue(m, ChartOrder[k]) > 0.0 <==> exists e :: e in ChartData(m) && e.name == ChartOrder[k]
  {
    if MacroValue(m, ChartOrder[k]) > 0.0 {
      PositiveMacroCharted(m, k);
    } else {
      ChartValues(m);
    }
  }

  /** A macro with a positive value keeps its unfiltered entry in the chart. */
  lemma PositiveMacroCharted(m: Macros, k: nat)
    requires k < 4 && MacroValue(m, ChartOrder[k]) > 0.0
    ensures AllEntries(m)[k] in ChartData(m) && AllEntries(m)[k].name == ChartOrder[k]
  {
    var all := AllEntries(m);
    assert all[k].value == MacroValue(m, ChartOrder[k]);
  }
}
