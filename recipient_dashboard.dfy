/**
 * The recipient dashboard: the open donations shown as nearby items, and
 * the meals those donations stand for, by the weekday they were listed.
 */
module RecipientDashboard {
  import opened Wrappers
  import opened Dashboards

  predicate IsOpen(d: Listed) { d.status == "available" || d.status == "pending" }

  datatype NearbyItem = NearbyItem(id: int, name: string, place: string, distance: string, quantity: int)

  /** A number is falsy when it is 0 or NaN; it is absent when undefined. */
  predicate Truthy(distance: Option<string>)
  {
    distance.Some? && distance.value != "0" && distance.value != "NaN"
  }

  /** One card of the nearby list, with its fallbacks. */
  function ToItem(d: Listed): (item: NearbyItem)
    ensures item.id == d.id && item.name == d.title
    ensures item.place == if d.donorName.Some? then d.donorName.value else "Local Donor"
    ensures item.distance == if Truthy(d.distance) then d.distance.value + " km" else "Nearby"
    ensures item.quantity == QuantityOf(d)
  {
    NearbyItem(d.id, d.title, d.donorName.GetOr("Local Donor"),
               if Truthy(d.distance) then d.distance.value + " km" else "Nearby",
               QuantityOf(d))
  }

  /** `computeNearbyItems`: the first six open donations, in list order. */
  function ComputeNearbyItems(ds: seq<Listed>): (r: seq<NearbyItem>)
    ensures |r| == if |Filter(ds, IsOpen)| < 6 then |Filter(ds, IsOpen)| else 6
    ensures forall i :: 0 <= i < |r| ==> r[i] == ToItem(Filter(ds, IsOpen)[i])
  {
    var open := Filter(ds, IsOpen);
    var shown := if |open| < 6 then open else open[..6];
    seq(|shown|, i requires 0 <= i < |shown| => ToItem(shown[i]))
  }

  /**
   * An open donation preceded by fewer than six open donations is shown,
   * at the position given by how many open donations precede it.
   */
  lemma NearbyKeepsOrder(ds: seq<Listed>, k: int)
    requires 0 <= k < |ds| && IsOpen(ds[k])
    requires |Filter(ds[..k], IsOpen)| < 6
    ensures |Filter(ds[..k], IsOpen)| < |ComputeNearbyItems(ds)|
    ensures ComputeNearbyItems(ds)[|Filter(ds[..k], IsOpen)|] == ToItem(ds[k])
  {
    var before, after := ds[..k], ds[k + 1..];
    assert ds == before + ([ds[k]] + after);
    FilterAppend(before, [ds[k]] + after, IsOpen);
    FilterAppend([ds[k]], after, IsOpen);
    assert Filter([ds[k]], IsOpen) == [ds[k]];
    var open := Filter(ds, IsOpen);
    var shown := Filter(before, IsOpen);
    assert open == shown + ([ds[k]] + Filter(after, IsOpen));
    assert open[|shown|] == ds[k];
  }

  /**
   * `Math.round(kg * 2.5)` on hundredths of a kilogram: the whole number
   * nearest to q / 40, halves rounded up.
   */
  function Meals(q: int): (m: int)
    ensures 40 * m - 20 <= q < 40 * m + 20
  {
    (q + 20) / 40
  }

  lemma MealsExamples()
    ensures Meals(100) == 3 && Meals(1000) == 25 && Meals(0) == 0
  {
  }

  /** What one donation adds to the day map. */
  function MealEntry(d: Listed, offset: int): Entry
  {
    Entry(GetDay(d.createdAt, offset), Meals(QuantityOf(d)))
  }

  function MealEntries(ds: seq<Listed>, offset: int): (r: seq<Entry>)
    ensures |r| == |ds|
    ensures forall k :: 0 <= k < |r| ==> r[k] == MealEntry(ds[k], offset) && 0 <= r[k].day < 7
  {
    seq(|ds|, k requires 0 <= k < |ds| => MealEntry(ds[k], offset))
  }

  lemma MealEntriesStep(ds: seq<Listed>, k: int, offset: int)
    requires 0 <= k < |ds|
    ensures MealEntries(ds[..k + 1], offset) == MealEntries(ds[..k], offset) + [MealEntry(ds[k], offset)]
  {
  }

  /**
   * `computeMealsData`: the day map filled one donation at a time, then
   * listed Mon..Sun. Each donation adds its meals to exactly one weekday,
   * so the week adds up to the meals of the whole list.
   */
  method ComputeMealsData(ds: seq<Listed>, offset: int) returns (week: seq<DayValue>)
    ensures |week| == 7
    ensures forall i :: 0 <= i < 7 ==>
      week[i].day == WeekOrder[i] && week[i].value == Tally(MealEntries(ds, offset), ChartDay(i))
    ensures WeekTotal(week) == Amount(MealEntries(ds, offset))
  {
    var dayMap := [0, 0, 0, 0, 0, 0, 0];
    var k := 0;
    while k < |ds|
      invariant 0 <= k <= |ds|
      invariant |dayMap| == 7
      invariant forall d :: 0 <= d < 7 ==> dayMap[d] == Tally(MealEntries(ds[..k], offset), d)
    {
      var day := GetDay(ds[k].createdAt, offset);
      var meals := Meals(QuantityOf(ds[k]));
      MealEntriesStep(ds, k, offset);
      AddToBucket(dayMap, MealEntries(ds[..k], offset), MealEntry(ds[k], offset));
      dayMap := dayMap[day := dayMap[day] + meals];
      k := k + 1;
    }
    assert ds[..k] == ds;
    week := InWeekOrder(dayMap);
    WeekTotalOfTally(MealEntries(ds, offset), dayMap);
  }
}
