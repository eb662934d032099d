/**
 * What the three role dashboards share: unwrapping a query result into a
 * list whatever envelope it arrived in, order-preserving filters, and the
 * seven weekday buckets a chart is drawn from.
 */
module Dashboards {
  import opened Wrappers

  /**
   * The shapes a query result can take: an array; an object, with or
   * without a `data` property; or something that is not an object at all
   * (null, undefined, a string, a number).
   */
  datatype Payload<T> = Array(items: seq<T>) | Object(data: Option<Payload<T>>) | Scalar

  /**
   * `safeArrayExtract`: the array itself, the array under `data`, or the
   * array under `data.data`; anything else becomes the empty list.
   */
  function SafeArrayExtract<T>(response: Payload<T>): (r: seq<T>)
    ensures response.Array? ==> r == response.items
    ensures !response.Array? && r != [] ==>
      response.Object? && response.data.Some? &&
      (response.data.value.Array? ||
       (response.data.value.Object? && response.data.value.data.Some? && response.data.value.data.value.Array?))
  {
    match response
    case Array(items) => items
    case Object(Some(Array(items))) => items
    case Object(Some(Object(Some(Array(items))))) => items
    case _ => []
  }

  /** A list put inside `n` envelopes `{ data: ... }`. */
  function Wrapped<T>(items: seq<T>, n: nat): Payload<T>
  {
    if n == 0 then Array(items) else Object(Some(Wrapped(items, n - 1)))
  }

  /** Up to two envelopes are taken off; a deeper list is not found. */
  lemma ExtractUnwraps<T>(items: seq<T>, n: nat)
    ensures SafeArrayExtract(Wrapped(items, n)) == if n <= 2 then items else []
  {
    if n >= 3 {
      assert Wrapped(items, n) == Object(Some(Wrapped(items, n - 1)));
      assert Wrapped(items, n - 1) == Object(Some(Wrapped(items, n - 2)));
      assert Wrapped(items, n - 2) == Object(Some(Wrapped(items, n - 3)));
      var inner: Payload<T> := Object(Some(Wrapped(items, n - 3)));
      assert SafeArrayExtract(Object(Some(Object(Some(inner))))) == [];
    } else if n == 2 {
      assert Wrapped(items, 1) == Object(Some(Array(items)));
    }
  }

  /** `xs.filter(p)`. */
  function Filter<T>(s: seq<T>, p: T -> bool): (r: seq<T>)
    ensures |r| <= |s|
    ensures forall k :: 0 <= k < |r| ==> r[k] in s && p(r[k])
    ensures forall k :: 0 <= k < |s| && p(s[k]) ==> s[k] in r
  {
    if s == [] then []
    else if p(s[0]) then [s[0]] + Filter(s[1..], p)
    else Filter(s[1..], p)
  }

  /** Filtering keeps the order of the input: it distributes over concatenation. */
  lemma {:induction false} FilterAppend<T>(a: seq<T>, b: seq<T>, p: T -> bool)
    ensures Filter(a + b, p) == Filter(a, p) + Filter(b, p)
    decreases |a|
  {
    if a == [] {
      assert a + b == b;
    } else {
      assert (a + b)[0] == a[0];
      assert (a + b)[1..] == a[1..] + b;
      FilterAppend(a[1..], b, p);
      if p(a[0]) {
        assert Filter(a + b, p) == [a[0]] + (Filter(a[1..], p) + Filter(b, p));
      }
    }
  }

  /** The head of a filtered list is the first element of the input that passes. */
  lemma {:induction false} FilterHead<T>(s: seq<T>, p: T -> bool)
    requires Filter(s, p) != []
    ensures exists i :: 0 <= i < |s| && s[i] == Filter(s, p)[0] && p(s[i]) && forall j :: 0 <= j < i ==> !p(s[j])
    decreases |s|
  {
    if !p(s[0]) {
      FilterHead(s[1..], p);
      var i :| 0 <= i < |s[1..]| && s[1..][i] == Filter(s[1..], p)[0] && p(s[1..][i])
               && forall j :: 0 <= j < i ==> !p(s[1..][j]);
      assert s[i + 1] == s[1..][i];
      forall j | 0 <= j < i + 1
        ensures !p(s[j])
      {
        if j > 0 {
          assert s[j] == s[1..][j - 1];
        }
      }
    } else {
      assert s[0] == Filter(s, p)[0];
    }
  }

  /**
   * The fields of a listed donation the dashboards read. Quantities are in
   * hundredths of a kilogram; `createdAt` is the instant of the server's
   * `created_at` timestamp in milliseconds; `distance` is the decimal text
   * of the optional `distance` number.
   */
  datatype Listed = Listed(
    id: int,
    title: string,
    status: string,
    createdAt: int,
    quantityKg: Option<int>,
    quantity: Option<int>,
    donorName: Option<string>,
    distance: Option<string>)

  /** `quantity_kg ?? quantity ?? 0`. */
  function QuantityOf(d: Listed): (q: int)
    ensures d.quantityKg.Some? ==> q == d.quantityKg.value
    ensures d.quantityKg.None? && d.quantity.Some? ==> q == d.quantity.value
    ensures d.quantityKg.None? && d.quantity.None? ==> q == 0
  {
    OrElse(d.quantityKg, d.quantity).GetOr(0)
  }

  /** Two filters by predicates that never hold together keep no more than the list between them. */
  lemma {:induction false} FilterDisjoint<T>(s: seq<T>, p: T -> bool, q: T -> bool)
    requires forall x :: !(p(x) && q(x))
    ensures |Filter(s, p)| + |Filter(s, q)| <= |s|
    decreases |s|
  {
    if s != [] {
      FilterDisjoint(s[1..], p, q);
    }
  }

  // ---- weekdays ----

  /** `getDay()` indexes this list: Sunday is 0. */
  const DayNames: seq<string> := ["Sun", "Mon", "Tue", "Wed", "Thu", "Fri", "Sat"]

  /** The order the charts list the week in. */
  const WeekOrder: seq<string> := ["Mon", "Tue", "Wed", "Thu", "Fri", "Sat", "Sun"]

  const DayMs := 86_400_000

  /**
   * `new Date(ms).getDay()` for a local time `offset` milliseconds ahead of
   * UTC. The epoch fell on a Thursday.
   */
  function GetDay(ms: int, offset: int): (r: int)
    ensures 0 <= r < 7
  {
    ((ms + offset) / DayMs + 4) % 7
  }

  lemma EpochWasThursday()
    ensures DayNames[GetDay(0, 0)] == "Thu"
  {
  }

  /** One day later is the next weekday. */
  lemma NextDay(ms: int, offset: int)
    ensures GetDay(ms + DayMs, offset) == (GetDay(ms, offset) + 1) % 7
  {
    var q := (ms + offset) / DayMs;
    assert (ms + DayMs + offset) / DayMs == q + 1;
  }

  /** The `getDay()` index of the chart's i-th entry: Monday first, Sunday last. */
  function ChartDay(i: int): (d: int)
    requires 0 <= i < 7
    ensures 0 <= d < 7
  {
    if i == 6 then 0 else i + 1
  }

  /** The chart's i-th entry names the weekday with `getDay()` index `ChartDay(i)`. */
  lemma WeekOrderFollowsDayNames(i: int)
    requires 0 <= i < 7
    ensures WeekOrder[i] == DayNames[ChartDay(i)]
  {
  }

  datatype DayValue = DayValue(day: string, value: int)

  /** The day map rendered Mon..Sun, from counters indexed Sun..Sat. */
  function InWeekOrder(counters: seq<int>): (r: seq<DayValue>)
    requires |counters| == 7
    ensures |r| == 7
    ensures forall i :: 0 <= i < 7 ==> r[i].day == WeekOrder[i] && r[i].value == counters[ChartDay(i)]
  {
    seq(7, i requires 0 <= i < 7 => DayValue(WeekOrder[i], counters[ChartDay(i)]))
  }

  /** An amount filed under a weekday index. */
  datatype Entry = Entry(day: int, amount: int)

  /** What the day map holds for `day` once every entry has been added. */
  function Tally(entries: seq<Entry>, day: int): int
  {
    if entries == [] then 0
    else
      var last := entries[|entries| - 1];
      Tally(entries[..|entries| - 1], day) + (if last.day == day then last.amount else 0)
  }

  /** One more entry only adds to its own bucket. */
  lemma TallySnoc(entries: seq<Entry>, e: Entry)
    ensures forall d :: Tally(entries + [e], d) == Tally(entries, d) + (if e.day == d then e.amount else 0)
  {
    var s := entries + [e];
    assert s[..|s| - 1] == entries;
  }

  /** Adding an entry's amount to its bucket keeps a day map in step with the entries. */
  lemma AddToBucket(dayMap: seq<int>, entries: seq<Entry>, e: Entry)
    requires |dayMap| == 7 && 0 <= e.day < 7
    requires forall d :: 0 <= d < 7 ==> dayMap[d] == Tally(entries, d)
    ensures forall d :: 0 <= d < 7 ==> dayMap[e.day := dayMap[e.day] + e.amount][d] == Tally(entries + [e], d)
  {
    TallySnoc(entries, e);
  }

  function Amount(entries: seq<Entry>): int
  {
    if entries == [] then 0 else Amount(entries[..|entries| - 1]) + entries[|entries| - 1].amount
  }

  function WeekTotal(r: seq<DayValue>): int
    requires |r| == 7
  {
    r[0].value + r[1].value + r[2].value + r[3].value + r[4].value + r[5].value + r[6].value
  }

  /** Each entry lands in exactly one of the seven buckets. */
  lemma {:induction false} TallyPartition(entries: seq<Entry>)
    requires forall k :: 0 <= k < |entries| ==> 0 <= entries[k].day < 7
    ensures Tally(entries, 0) + Tally(entries, 1) + Tally(entries, 2) + Tally(entries, 3)
            + Tally(entries, 4) + Tally(entries, 5) + Tally(entries, 6) == Amount(entries)
    decreases |entries|
  {
    if entries != [] {
      TallyPartition(entries[..|entries| - 1]);
    }
  }

  /** The chart of a day map adds up to everything filed in it. */
  lemma {:induction false} WeekTotalOfTally(entries: seq<Entry>, counters: seq<int>)
    requires forall k :: 0 <= k < |entries| ==> 0 <= entries[k].day < 7
    requires |counters| == 7 && forall d :: 0 <= d < 7 ==> counters[d] == Tally(entries, d)
    ensures WeekTotal(InWeekOrder(counters)) == Amount(entries)
  {
    var r := InWeekOrder(counters);
    assert WeekTotal(r) == counters[1] + counters[2] + counters[3] + counters[4] + counters[5] + counters[6] + counters[0];
    TallyPartition(entries);
  }
}
