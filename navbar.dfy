/**
 * The breadcrumb trail of the dashboard's top bar: one crumb per non-empty
 * path segment, each linking to the path up to and including it, behind a
 * leading Dashboard crumb unless the path already starts there.
 */
module Navbar {
  import Text
  import F = Formatters

  datatype Crumb = Crumb(text: string, href: string)

  const DashboardCrumb := Crumb("Dashboard", "/dashboard")

  /** `pathname.split("/").filter(Boolean)`. */
  function Segments(pathname: string): (segs: seq<string>)
    ensures forall k :: 0 <= k < |segs| ==> segs[k] != "" && '/' !in segs[k]
  {
    var parts := Text.Split(pathname, '/');
    var segs := Text.NonEmpty(parts);
    forall k | 0 <= k < |segs|
      ensures '/' !in segs[k]
    {
      assert segs[k] in parts;
    }
    segs
  }

  /** `.replace(/-/g, " ")`. */
  function Spaced(s: string): (r: string)
    ensures |r| == |s| && '-' !in r
  {
    seq(|s|, i requires 0 <= i < |s| => if s[i] == '-' then ' ' else s[i])
  }

  /** The label of a segment: hyphens as spaces, words capitalised, trimmed. */
  function CrumbLabel(segment: string): string
  {
    Text.Trim(F.CapitalizeWords(Spaced(segment)))
  }

  /** The cumulative href after the given segments: "/" before each one. */
  function Cumulative(segs: seq<string>): string
  {
    if segs == [] then "" else Cumulative(segs[..|segs| - 1]) + "/" + segs[|segs| - 1]
  }

  /** Whether the leading Dashboard crumb is added. */
  predicate NeedsPrefix(segs: seq<string>)
  {
    segs == [] || segs[0] != "dashboard"
  }

  /** The crumbs of the segments, each linking to the path up to and including it. */
  function Trail(segs: seq<string>): (r: seq<Crumb>)
    ensures |r| == |segs|
  {
    if segs == [] then []
    else Trail(segs[..|segs| - 1]) + [Crumb(CrumbLabel(segs[|segs| - 1]), Cumulative(segs))]
  }

  /** The trail `buildBreadcrumbs` produces. */
  function Breadcrumbs(pathname: string): seq<Crumb>
  {
    var segs := Segments(pathname);
    (if NeedsPrefix(segs) then [DashboardCrumb] else []) + Trail(segs)
  }

  /** `buildBreadcrumbs`: one push per segment, growing the cumulative href as it goes. */
  method BuildBreadcrumbs(pathname: string) returns (crumbs: seq<Crumb>)
    ensures crumbs == Breadcrumbs(pathname)
  {
    var segments := Segments(pathname);
    crumbs := [];
    if segments == [] || segments[0] != "dashboard" {
      crumbs := crumbs + [DashboardCrumb];
    }
    var prefix := crumbs;
    var cumulative := "";
    var i := 0;
    while i < |segments|
      invariant 0 <= i <= |segments|
      invariant cumulative == Cumulative(segments[..i])
      invariant prefix == if NeedsPrefix(segments) then [DashboardCrumb] else []
      invariant crumbs == prefix + Trail(segments[..i])
    {
      var before := Trail(segments[..i]);
      TrailStep(segments, i);
      cumulative := cumulative + "/" + segments[i];
      assert cumulative == Cumulative(segments[..i + 1]);
      var crumb := Crumb(CrumbLabel(segments[i]), cumulative);
      assert Trail(segments[..i + 1]) == before + [crumb];
      Text.Regroup(prefix, before, [crumb]);
      crumbs := crumbs + [crumb];
      i := i + 1;
    }
    assert segments[..i] == segments;
  }

  lemma TrailStep(segs: seq<string>, i: int)
    requires 0 <= i < |segs|
    ensures Cumulative(segs[..i + 1]) == Cumulative(segs[..i]) + "/" + segs[i]
    ensures Trail(segs[..i + 1]) == Trail(segs[..i]) + [Crumb(CrumbLabel(segs[i]), Cumulative(segs[..i + 1]))]
  {
    assert segs[..i + 1][..i] == segs[..i];
  }

  /** The i-th crumb of the trail belongs to the i-th segment and links to the first i + 1 segments. */
  lemma {:induction false} TrailAt(segs: seq<string>, i: int)
    requires 0 <= i < |segs|
    ensures Trail(segs)[i] == Crumb(CrumbLabel(segs[i]), Cumulative(segs[..i + 1]))
    decreases |segs|
  {
    if i < |segs| - 1 {
      var init := segs[..|segs| - 1];
      TrailAt(init, i);
      assert init[..i + 1] == segs[..i + 1];
    } else {
      assert segs[..i + 1] == segs;
    }
  }

  /** One more segment extends the cumulative href by "/" and the segment. */
  lemma HrefExtends(segs: seq<string>, i: int)
    requires 0 <= i < |segs| - 1
    ensures Cumulative(segs[..i + 2]) == Cumulative(segs[..i + 1]) + "/" + segs[i + 1]
  {
    assert segs[..i + 2][..i + 1] == segs[..i + 1];
  }

  /** The cumulative href is "/" followed by the segments joined with "/". */
  lemma {:induction false} CumulativeIsJoin(segs: seq<string>)
    requires segs != []
    ensures Cumulative(segs) == "/" + Text.Join(segs, "/")
    decreases |segs|
  {
    var init := segs[..|segs| - 1];
    if |segs| > 1 {
      CumulativeIsJoin(init);
      JoinSnoc(init, segs[|segs| - 1]);
      assert init + [segs[|segs| - 1]] == segs;
    } else {
      assert Cumulative(init) == "";
    }
  }

  lemma {:induction false} JoinSnoc(parts: seq<string>, x: string)
    requires parts != []
    ensures Text.Join(parts + [x], "/") == Text.Join(parts, "/") + "/" + x
    decreases |parts|
  {
    if |parts| > 1 {
      assert (parts + [x])[1..] == parts[1..] + [x];
      JoinSnoc(parts[1..], x);
    } else {
      assert (parts + [x])[1..] == [x];
    }
  }

  /** The trail has a crumb per segment, plus the Dashboard crumb when that was added first. */
  lemma CrumbCount(pathname: string)
    ensures var segs := Segments(pathname);
      |Breadcrumbs(pathname)| == |segs| + (if NeedsPrefix(segs) then 1 else 0)
      && (NeedsPrefix(segs) ==> Breadcrumbs(pathname)[0] == DashboardCrumb)
  {
  }

  /** A slash separates segments. */
  lemma SegmentsAround(a: string, b: string)
    ensures Segments(a + "/" + b) == Segments(a) + Segments(b)
  {
    Text.SplitAround(a, b, '/');
    Text.NonEmptyAppend(Text.Split(a, '/'), Text.Split(b, '/'));
  }

  /** Empty segments are dropped: doubled, leading and trailing slashes change nothing. */
  lemma DoubledSlash(a: string, b: string)
    ensures Segments(a + "//" + b) == Segments(a + "/" + b)
  {
    assert a + "//" + b == a + "/" + ("" + "/" + b);
    SegmentsAround(a, "" + "/" + b);
    SegmentsAround("", b);
    SegmentsAround(a, b);
  }

  lemma OuterSlashes(p: string)
    ensures Segments("/" + p) == Segments(p)
    ensures Segments(p + "/") == Segments(p)
  {
    SegmentsAround("", p);
    SegmentsAround(p, "");
    assert "" + "/" + p == "/" + p;
    assert p + "/" + "" == p + "/";
  }

  /** Doubled, leading and trailing slashes leave the crumbs as they are: "//a//b/" reads as "/a/b". */
  lemma MessySlashes(a: string, b: string)
    ensures Breadcrumbs("//" + a + "//" + b + "/") == Breadcrumbs("/" + a + "/" + b)
  {
    var inner := "/" + a + "//" + b;
    assert "//" + a + "//" + b + "/" == "/" + (inner + "/");
    OuterSlashes(inner + "/");
    OuterSlashes(inner);
    assert inner == ("/" + a) + "//" + b;
    assert "/" + a + "/" + b == ("/" + a) + "/" + b;
    DoubledSlash("/" + a, b);
  }

  /** A single segment behind one slash. */
  lemma OneSegment(w: string)
    requires w != "" && '/' !in w
    ensures Segments("/" + w) == [w]
  {
    SegmentsAround("", w);
    assert "" + "/" + w == "/" + w;
    Text.SplitNoSeparator(w, '/');
    Text.SplitNoSeparator("", '/');
  }

  /** "/dashboard" gives one crumb linking to itself, and no leading duplicate. */
  lemma DashboardAlone()
    ensures |Breadcrumbs("/dashboard")| == 1
    ensures Breadcrumbs("/dashboard")[0].href == "/dashboard"
  {
    OneSegment("dashboard");
    assert Cumulative(["dashboard"]) == "/dashboard";
  }
}
