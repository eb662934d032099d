/**
 * The user menu's avatar initials and the name and e-mail shown beside it.
 */
module UserNav {
  import opened Wrappers
  import Text

  /** `!name`: no name, or the empty string. */
  predicate Falsy(name: Option<string>)
  {
    name.None? || name.value == ""
  }

  /** `part?.[0] ?? fallback`: the first character of a part, if there is one. */
  function FirstOr(part: string, fallback: char): (c: char)
    ensures part != "" ==> c == part[0]
    ensures part == "" ==> c == fallback
  {
    if part != "" then part[0] else fallback
  }

  /**
   * `getInitials`: "ZH" without a name; otherwise the first characters of
   * the first two space-separated parts of the trimmed name, 'Z' and 'H'
   * standing in for a missing one, upper-cased.
   */
  function GetInitials(name: Option<string>): (r: string)
    ensures |r| == 2
    ensures Falsy(name) ==> r == "ZH"
    ensures forall k :: 0 <= k < 2 ==> !Text.IsAsciiLower(r[k])
  {
    if Falsy(name) then "ZH"
    else
      var parts := Text.Split(Text.Trim(name.value), ' ');
      var second := if |parts| > 1 then FirstOr(parts[1], 'H') else 'H';
      Text.UpperString([FirstOr(parts[0], 'Z'), second])
  }

  /** The initials read the first two parts of the split, whatever follows them. */
  lemma InitialsOfParts(name: string, parts: seq<string>)
    requires name != ""
    requires Text.Split(Text.Trim(name), ' ') == parts && |parts| >= 2
    ensures GetInitials(Some(name)) == [Text.Upper(FirstOr(parts[0], 'Z')), Text.Upper(FirstOr(parts[1], 'H'))]
  {
  }

  /** A word with nothing to trim at its ends and no space in it. */
  predicate Word(w: string)
  {
    w != "" && ' ' !in w && !Text.IsJsWhitespace(w[0]) && !Text.IsJsWhitespace(w[|w| - 1])
  }

  /** A single word gives its own initial and 'H'. */
  lemma OneWord(w: string)
    requires Word(w)
    ensures GetInitials(Some(w)) == [Text.Upper(w[0]), 'H']
  {
    Text.TrimNoOp(w);
    Text.SplitNoSeparator(w, ' ');
  }

  /** Words joined by spaces need no trimming. */
  lemma JoinedNeedsNoTrim(a: string, gap: string, b: string)
    requires Word(a) && Word(b)
    ensures Text.Trim(a + gap + b) == a + gap + b
  {
    var name := a + gap + b;
    assert name[0] == a[0] && name[|name| - 1] == b[|b| - 1];
    Text.TrimNoOp(name);
  }

  lemma SplitTwo(a: string, b: string)
    requires Word(a) && Word(b)
    ensures Text.Split(a + " " + b, ' ') == [a, b]
  {
    Text.SplitAround(a, b, ' ');
    Text.SplitNoSeparator(a, ' ');
    Text.SplitNoSeparator(b, ' ');
  }

  lemma SplitDoubled(a: string, b: string)
    requires Word(a) && Word(b)
    ensures Text.Split(a + "  " + b, ' ') == [a, "", b]
  {
    assert a + "  " + b == a + " " + (" " + b);
    assert " " + b == [] + " " + b;
    Text.SplitAround(a, " " + b, ' ');
    Text.SplitAround([], b, ' ');
    Text.SplitNoSeparator(a, ' ');
    Text.SplitNoSeparator(b, ' ');
    Text.SplitNoSeparator([], ' ');
  }

  /** Two words separated by one space give both initials. */
  lemma TwoWords(a: string, b: string)
    requires Word(a) && Word(b)
    ensures GetInitials(Some(a + " " + b)) == [Text.Upper(a[0]), Text.Upper(b[0])]
  {
    JoinedNeedsNoTrim(a, " ", b);
    SplitTwo(a, b);
    InitialsOfParts(a + " " + b, [a, b]);
  }

  /** Two spaces leave an empty second part, so the second initial is 'H'. */
  lemma DoubleSpace(a: string, b: string)
    requires Word(a) && Word(b)
    ensures GetInitials(Some(a + "  " + b)) == [Text.Upper(a[0]), 'H']
  {
    JoinedNeedsNoTrim(a, "  ", b);
    SplitDoubled(a, b);
    InitialsOfParts(a + "  " + b, [a, "", b]);
  }

  lemma SingleNameExample()
    ensures GetInitials(Some("ahmed")) == "AH"
  {
    OneWord("ahmed");
  }

  lemma DoubleSpaceExample()
    ensures GetInitials(Some("a  b")) == "AH"
  {
    assert "a" + "  " + "b" == "a  b";
    DoubleSpace("a", "b");
  }

  /** A name of spaces is not falsy but trims to nothing: "ZH" again. */
  lemma BlankName(n: nat)
    requires n > 0
    ensures GetInitials(Some(seq(n, _ => ' '))) == "ZH"
  {
    var s := seq(n, _ => ' ');
    assert Text.Leading(s, Text.IsJsWhitespace) == n by {
      LeadingAllSpaces(s);
    }
    assert Text.Trim(s) == "";
  }

  lemma {:induction false} LeadingAllSpaces(s: string)
    requires forall k :: 0 <= k < |s| ==> s[k] == ' '
    ensures Text.Leading(s, Text.IsJsWhitespace) == |s|
    decreases |s|
  {
    if s != [] {
      LeadingAllSpaces(s[1..]);
    }
  }

  /** `user?.name ?? "ZeroHunger User"`: only a missing name is replaced; an empty one is shown as is. */
  function DisplayName(name: Option<string>): (r: string)
    ensures name.Some? ==> r == name.value
    ensures name.None? ==> r == "ZeroHunger User"
  {
    name.GetOr("ZeroHunger User")
  }

  /** `email && ...`: the e-mail line appears only for a non-empty address. */
  function EmailLine(email: Option<string>): (r: Option<string>)
    ensures r.Some? <==> email.Some? && email.value != ""
    ensures r.Some? ==> r.value == email.value
  {
    var e := email.GetOr("");
    if e != "" then Some(e) else None
  }
}
