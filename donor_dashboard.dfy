/**
 * The donor dashboard: the status breakdown of the donor's own donations
 * and the list of the five most recent ones.
 */
module DonorDashboard {
  import opened Text
  import S = Sorting
  import opened Dashboards

  predicate CountsAsPending(d: Listed) { d.status == "available" || d.status == "pending" }

  predicate CountsAsClaimed(d: Listed) { d.status == "reserved" || d.status == "claimed" || d.status == "picked_up" }

  predicate CountsAsDelivered(d: Listed) { d.status == "delivered" }

  /** Cancelled, expired and unknown statuses appear in no slice of the chart. */
  predicate Unrepresented(d: Listed) { !CountsAsPending(d) && !CountsAsClaimed(d) && !CountsAsDelivered(d) }

  /** `totalDonations`: the number of donations received. */
  function TotalDonations(ds: seq<Listed>): nat
  {
    |ds|
  }

  /** The three slices together with the unrepresented donations make up the whole list. */
  lemma {:induction false} StatusCountsPartition(ds: seq<Listed>)
    ensures |Filter(ds, CountsAsPending)| + |Filter(ds, CountsAsClaimed)| + |Filter(ds, CountsAsDelivered)|
            + |Filter(ds, Unrepresented)| == TotalDonations(ds)
    decreases |ds|
  {
    if ds != [] {
      StatusCountsPartition(ds[1..]);
    }
  }

  datatype StatusDatum = StatusDatum(name: string, value: nat, color: string)

  /** `computeStatusData`: Pending, Claimed and Delivered, in that order. */
  function ComputeStatusData(ds: seq<Listed>): (r: seq<StatusDatum>)
    ensures |r| == 3
    ensures r[0].name == "Pending" && r[1].name == "Claimed" && r[2].name == "Delivered"
    ensures r[0].color == "#94a3b8" && r[1].color == "#f59e0b" && r[2].color == "#10b981"
    ensures r[0].value + r[1].value + r[2].value <= TotalDonations(ds)
  {
    StatusCountsPartition(ds);
    [ StatusDatum("Pending", |Filter(ds, CountsAsPending)|, "#94a3b8"),
      StatusDatum("Claimed", |Filter(ds, CountsAsClaimed)|, "#f59e0b"),
      StatusDatum("Delivered", |Filter(ds, CountsAsDelivered)|, "#10b981") ]
  }

  /**
   * One more donation moves exactly the slice its status belongs to up by
   * one, and no slice at all when it is cancelled, expired or unknown.
   */
  lemma OneMoreDonation(ds: seq<Listed>, d: Listed)
    ensures ComputeStatusData(ds + [d])[0].value == ComputeStatusData(ds)[0].value + (if CountsAsPending(d) then 1 else 0)
    ensures ComputeStatusData(ds + [d])[1].value == ComputeStatusData(ds)[1].value + (if CountsAsClaimed(d) then 1 else 0)
    ensures ComputeStatusData(ds + [d])[2].value == ComputeStatusData(ds)[2].value + (if CountsAsDelivered(d) then 1 else 0)
  {
    FilterAppend(ds, [d], CountsAsPending);
    FilterAppend(ds, [d], CountsAsClaimed);
    FilterAppend(ds, [d], CountsAsDelivered);
  }

  function CreatedAt(d: Listed): int { d.createdAt }

  /** The five most recent donations, newest first. */
  function Recent(ds: seq<Listed>): (top: seq<Listed>)
    ensures |top| == if |ds| < 5 then |ds| else 5
    ensures S.SortedDesc(top, CreatedAt)
  {
    var sorted := S.SortDesc(ds, CreatedAt);
    sorted[..if |ds| < 5 then |ds| else 5]
  }

  /** Every donation kept comes from the list, and every donation left out is no newer than any kept. */
  lemma RecentKeepsNewest(ds: seq<Listed>)
    ensures multiset(Recent(ds)) <= multiset(ds)
    ensures forall x | x in multiset(ds) - multiset(Recent(ds)) ::
      forall k :: 0 <= k < |Recent(ds)| ==> x.createdAt <= Recent(ds)[k].createdAt
  {
    var sorted := S.SortDesc(ds, CreatedAt);
    var top := Recent(ds);
    var n := |top|;
    assert sorted == top + sorted[n..];
    assert multiset(sorted) == multiset(top) + multiset(sorted[n..]);
    forall x | x in multiset(ds) - multiset(top)
      ensures forall k :: 0 <= k < |top| ==> x.createdAt <= top[k].createdAt
    {
      assert x in multiset(sorted[n..]);
      var j :| 0 <= j < |sorted[n..]| && sorted[n..][j] == x;
      assert sorted[n + j] == x;
    }
  }

  const HourMs := 3_600_000

  /** How long ago something happened, from the elapsed milliseconds. */
  function TimeLabel(diffMs: int): (r: string)
    ensures diffMs < HourMs ==> r == "Just now"
    ensures HourMs <= diffMs < DayMs ==> r == NatToString(diffMs / HourMs) + "h ago"
    ensures r == "Yesterday" <==> DayMs <= diffMs < 2 * DayMs
    ensures 2 * DayMs <= diffMs ==> r == NatToString(diffMs / DayMs) + " days ago"
  {
    var hours := diffMs / HourMs;
    var days := diffMs / DayMs;
    if hours < 1 then "Just now"
    else if hours < 24 then
      var t := NatToString(hours) + "h ago";
      assert t[|t| - 1] == 'o';
      t
    else if days == 1 then "Yesterday"
    else
      var t := NatToString(days) + " days ago";
      assert t[|t| - 1] == 'o';
      t
  }

  lemma TimeLabelHours()
    ensures TimeLabel(3 * HourMs) == "3h ago"
  {
  }

  lemma TimeLabelDays()
    ensures TimeLabel(3 * DayMs) == "3 days ago"
  {
  }

  datatype Activity = Activity(title: string, time: string)

  /** `generateActivityFromDonations`: one item per recent donation, in the same order. */
  function GenerateActivity(ds: seq<Listed>, now: int): (r: seq<Activity>)
    ensures |r| <= 5 && |r| == |Recent(ds)|
    ensures forall i :: 0 <= i < |r| ==>
      r[i] == Activity("Donated: " + Recent(ds)[i].title, TimeLabel(now - Recent(ds)[i].createdAt))
  {
    var top := Recent(ds);
    seq(|top|, i requires 0 <= i < |top| => Activity("Donated: " + top[i].title, TimeLabel(now - top[i].createdAt)))
  }
}
