/**
 * The volunteer dashboard: counts of the volunteer's claims, the mission in
 * progress, and the deliveries of the last seven days by weekday.
 */
module VolunteerDashboard {
  import opened Wrappers
  import opened Dashboards

  /**
   * The fields of a claim the dashboard reads. `deliveredAt` is None when
   * `delivered_at` is null, empty or not a date.
   */
  datatype ListedClaim = ListedClaim(id: int, status: string, deliveredAt: Option<int>)

  predicate IsActive(c: ListedClaim) { c.status == "active" || c.status == "picked_up" }

  predicate IsCompleted(c: ListedClaim) { c.status == "delivered" }

  datatype VolunteerStats = VolunteerStats(activeClaims: nat, completedDeliveries: nat, currentMission: Option<ListedClaim>)

  /**
   * `computeRealVolunteerStats` without the kilogram total: the mission is
   * the first active claim in list order.
   */
  function ComputeVolunteerStats(cs: seq<ListedClaim>): (r: VolunteerStats)
    ensures r.activeClaims == |Filter(cs, IsActive)| && r.completedDeliveries == |Filter(cs, IsCompleted)|
    ensures r.activeClaims + r.completedDeliveries <= |cs|
    ensures r.currentMission.None? <==> forall i :: 0 <= i < |cs| ==> !IsActive(cs[i])
    ensures r.currentMission.Some? ==>
      exists i :: 0 <= i < |cs| && cs[i] == r.currentMission.value && IsActive(cs[i])
                  && forall j :: 0 <= j < i ==> !IsActive(cs[j])
  {
    var active := Filter(cs, IsActive);
    var completed := Filter(cs, IsCompleted);
    FilterDisjoint(cs, IsActive, IsCompleted);
    if active == [] then
      VolunteerStats(0, |completed|, None)
    else
      FilterHead(cs, IsActive);
      VolunteerStats(|active|, |completed|, Some(active[0]))
  }

  /** The "pickups pending" helper: `Math.min(activeClaims, 2)`. */
  function PendingPickups(activeClaims: nat): (r: nat)
    ensures r <= 2 && r <= activeClaims
    ensures r == 2 || r == activeClaims
  {
    if activeClaims < 2 then activeClaims else 2
  }

  predicate IsRecentDelivery(c: ListedClaim, weekAgo: int)
  {
    c.status == "delivered" && c.deliveredAt.Some? && c.deliveredAt.value >= weekAgo
  }

  /** The delivered claims whose delivery is no older than `weekAgo`, in list order. */
  function RecentDeliveries(cs: seq<ListedClaim>, weekAgo: int): (r: seq<ListedClaim>)
    ensures forall k :: 0 <= k < |r| ==> r[k] in cs && IsRecentDelivery(r[k], weekAgo)
    ensures forall k :: 0 <= k < |cs| && IsRecentDelivery(cs[k], weekAgo) ==> cs[k] in r
  {
    if cs == [] then []
    else if IsRecentDelivery(cs[0], weekAgo) then [cs[0]] + RecentDeliveries(cs[1..], weekAgo)
    else RecentDeliveries(cs[1..], weekAgo)
  }

  lemma {:induction false} RecentAreCompleted(cs: seq<ListedClaim>, weekAgo: int)
    ensures |RecentDeliveries(cs, weekAgo)| <= |Filter(cs, IsCompleted)|
    decreases |cs|
  {
    if cs != [] {
      RecentAreCompleted(cs[1..], weekAgo);
    }
  }

  /** What one recent delivery adds to the day map. */
  function DeliveryEntry(c: ListedClaim, offset: int): Entry
  {
    if c.deliveredAt.Some? then Entry(GetDay(c.deliveredAt.value, offset), 1) else Entry(0, 0)
  }

  function DeliveryEntries(recent: seq<ListedClaim>, offset: int): (r: seq<Entry>)
    ensures |r| == |recent|
    ensures forall k :: 0 <= k < |r| ==> r[k] == DeliveryEntry(recent[k], offset) && 0 <= r[k].day < 7
  {
    seq(|recent|, k requires 0 <= k < |recent| => DeliveryEntry(recent[k], offset))
  }

  lemma DeliveryEntriesStep(recent: seq<ListedClaim>, k: int, offset: int)
    requires 0 <= k < |recent|
    ensures DeliveryEntries(recent[..k + 1], offset) == DeliveryEntries(recent[..k], offset) + [DeliveryEntry(recent[k], offset)]
  {
  }

  /** Every recent delivery counts once. */
  lemma {:induction false} DeliveriesCountOnce(recent: seq<ListedClaim>, offset: int)
    requires forall k :: 0 <= k < |recent| ==> recent[k].deliveredAt.Some?
    ensures Amount(DeliveryEntries(recent, offset)) == |recent|
    decreases |recent|
  {
    if recent != [] {
      var init := recent[..|recent| - 1];
      assert DeliveryEntries(recent, offset)[..|recent| - 1] == DeliveryEntries(init, offset);
      DeliveriesCountOnce(init, offset);
    }
  }

  /**
   * `computeWeeklyData`: the day map filled one recent delivery at a time,
   * then listed Mon..Sun. Its total is the "this week" figure, which never
   * exceeds the completed deliveries.
   */
  method ComputeWeeklyData(cs: seq<ListedClaim>, now: int, offset: int) returns (week: seq<DayValue>)
    ensures |week| == 7
    ensures forall i :: 0 <= i < 7 ==>
      week[i].day == WeekOrder[i]
      && week[i].value == Tally(DeliveryEntries(RecentDeliveries(cs, now - 7 * DayMs), offset), ChartDay(i))
    ensures WeekTotal(week) == |RecentDeliveries(cs, now - 7 * DayMs)|
    ensures WeekTotal(week) <= ComputeVolunteerStats(cs).completedDeliveries
  {
    var recent := RecentDeliveries(cs, now - 7 * DayMs);
    var dayMap := [0, 0, 0, 0, 0, 0, 0];
    var k := 0;
    while k < |recent|
      invariant 0 <= k <= |recent|
      invariant |dayMap| == 7
      invariant forall d :: 0 <= d < 7 ==> dayMap[d] == Tally(DeliveryEntries(recent[..k], offset), d)
    {
      var c := recent[k];
      DeliveryEntriesStep(recent, k, offset);
      if c.deliveredAt.Some? {
        var day := GetDay(c.deliveredAt.value, offset);
        AddToBucket(dayMap, DeliveryEntries(recent[..k], offset), DeliveryEntry(c, offset));
        dayMap := dayMap[day := dayMap[day] + 1];
      } else {
        TallySnoc(DeliveryEntries(recent[..k], offset), DeliveryEntry(c, offset));
      }
      k := k + 1;
    }
    assert recent[..k] == recent;
    week := InWeekOrder(dayMap);
    WeekTotalOfTally(DeliveryEntries(recent, offset), dayMap);
    DeliveriesCountOnce(recent, offset);
    RecentAreCompleted(cs, now - 7 * DayMs);
  }
}
