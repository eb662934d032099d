/**
 * The pickup-code helpers and the claim form schemas of the web client.
 * A schema either accepts a value, producing its transformed output, or
 * rejects it with the messages of the failed checks, in the order the
 * checks are declared.
 */
module ClaimValidators {
  import opened Wrappers
  import Text
  import D = DonationsTable

  const PickupCodeLength: nat := 6

  /** A form value before parsing: a key that is missing, a string, or anything else. */
  /** A form value; `OtherValue` carries the type name zod reports for it ("number", "null", "object", ...). */
  datatype Value = Missing | Str(s: string) | Bool(b: bool) | OtherValue(received: string)

  datatype Parsed<T> = Accepted(value: T) | Rejected(issues: seq<string>)

  /** `/^\d{6}$/.test(code)`. */
  predicate IsValidPickupCode(code: string)
  {
    |code| == PickupCodeLength && forall i :: 0 <= i < |code| ==> Text.IsDigit(code[i])
  }

  /** The client accepts exactly the codes the server hands out. */
  lemma ValidCodesAreServerCodes(code: string)
    ensures IsValidPickupCode(code) <==> D.IsPickupCode(code)
  {
  }

  /** `code.replace(/\D/g, "")`: the digits of `code`, in order. */
  function Digits(code: string): (r: string)
    ensures |r| <= |code|
    ensures forall i :: 0 <= i < |r| ==> Text.IsDigit(r[i])
  {
    if code == [] then []
    else (if Text.IsDigit(code[0]) then [code[0]] else []) + Digits(code[1..])
  }

  lemma {:induction false} DigitsOfDigits(code: string)
    requires forall i :: 0 <= i < |code| ==> Text.IsDigit(code[i])
    ensures Digits(code) == code
  {
    if code != [] {
      DigitsOfDigits(code[1..]);
    }
  }

  lemma {:induction false} DigitsAppend(a: string, b: string)
    ensures Digits(a + b) == Digits(a) + Digits(b)
  {
    if a == [] {
      assert a + b == b;
    } else {
      assert (a + b)[1..] == a[1..] + b;
      DigitsAppend(a[1..], b);
    }
  }

  /** `cleanPickupCode`: the digits, cut to six. */
  function CleanPickupCode(code: string): (r: string)
    ensures |r| <= PickupCodeLength
    ensures forall i :: 0 <= i < |r| ==> Text.IsDigit(r[i])
  {
    Text.Take(Digits(code), PickupCodeLength)
  }

  /** Cleaning keeps the leading digits of the input, in order: a prefix of its digit sequence. */
  lemma CleanIsDigitPrefix(code: string)
    ensures CleanPickupCode(code) == Digits(code)[..|CleanPickupCode(code)|]
    ensures |CleanPickupCode(code)| == if |Digits(code)| < 6 then |Digits(code)| else 6
  {
  }

  lemma CleanIdempotent(code: string)
    ensures CleanPickupCode(CleanPickupCode(code)) == CleanPickupCode(code)
  {
    DigitsOfDigits(CleanPickupCode(code));
  }

  lemma ValidCodeIsClean(code: string)
    requires IsValidPickupCode(code)
    ensures CleanPickupCode(code) == code
  {
    DigitsOfDigits(code);
  }

  /** `formatPickupCode`: the cleaned code, split 3 + rest by one space once it is longer than three. */
  function FormatPickupCode(code: string): (r: string)
    ensures var c := CleanPickupCode(code);
      if |c| <= 3 then r == c else r == c[..3] + " " + c[3..]
  {
    var cleaned := CleanPickupCode(code);
    if |cleaned| <= 3 then cleaned else cleaned[..3] + " " + cleaned[3..]
  }

  /** Deleting the space from the display form gives back the submitted form. */
  lemma {:induction false} FormatThenRemoveSpace(code: string)
    ensures Text.Remove(FormatPickupCode(code), ' ') == CleanPickupCode(code)
  {
    var c := CleanPickupCode(code);
    assert forall k :: 0 <= k < |c| ==> c[k] != ' ';
    if |c| <= 3 {
      Text.RemoveAbsent(c, ' ');
    } else {
      assert ' ' !in c[..3] && ' ' !in c[3..] by {
        forall k | 0 <= k < |c[..3]| ensures c[..3][k] != ' ' { assert c[..3][k] == c[k]; }
        forall k | 0 <= k < |c[3..]| ensures c[3..][k] != ' ' { assert c[3..][k] == c[k + 3]; }
      }
      Text.RemoveAppend(c[..3] + " ", c[3..], ' ');
      Text.RemoveAppend(c[..3], " ", ' ');
      Text.RemoveAbsent(c[..3], ' ');
      Text.RemoveAbsent(c[3..], ' ');
      assert Text.Remove(" ", ' ') == "";
      assert c[..3] + c[3..] == c;
    }
  }

  // ---- schemas ----

  /** The message zod gives for a missing required key. */
  const RequiredMessage: string := "Required"

  /** The message zod gives when a string was expected and `v` came instead. */
  function WrongTypeMessage(v: Value): (m: string)
    requires !v.Missing? && !v.Str?
    ensures v.Bool? ==> m == "Expected string, received boolean"
    ensures v.OtherValue? ==> m == "Expected string, received " + v.received
  {
    "Expected string, received " + (if v.Bool? then "boolean" else v.received)
  }

  const LengthMessage: string := "Pickup code must be exactly 6 digits"
  const DigitsMessage: string := "Pickup code must contain only numbers"

  /** `pickupCodeSchema`: both checks run; the trim happens only on success. */
  function PickupCodeSchema(v: Value): (r: Parsed<string>)
    ensures r.Accepted? <==> v.Str? && IsValidPickupCode(v.s)
    ensures r.Accepted? ==> r.value == v.s
    ensures v.Str? && |v.s| != 6 ==> r.Rejected? && LengthMessage in r.issues
  {
    match v
    case Missing => Rejected([RequiredMessage])
    case Str(s) =>
      var issues := (if |s| != PickupCodeLength then [LengthMessage] else [])
                  + (if IsValidPickupCode(s) then [] else [DigitsMessage]);
      if issues == [] then
        assert Text.Trim(s) == s by { Text.TrimNoOp(s); }
        Accepted(Text.Trim(s))
      else Rejected(issues)
    case _ => Rejected([WrongTypeMessage(v)])
  }

  const NotesMaxLength: nat := 500
  const NotesMessage: string := "Notes cannot exceed 500 characters"

  /** `val?.trim() || undefined`: blank becomes absent. */
  function TrimOrAbsent(s: string): (r: Option<string>)
    ensures r.None? <==> Text.Trim(s) == ""
    ensures r.Some? ==> r.value == Text.Trim(s)
  {
    var t := Text.Trim(s);
    if t == "" then None else Some(t)
  }

  /** `deliverySchema.notes`. */
  function DeliveryNotesSchema(v: Value): (r: Parsed<Option<string>>)
    ensures v.Str? ==> (r.Accepted? <==> |v.s| <= 500)
    ensures v.Missing? ==> r == Accepted(None)
    ensures r.Accepted? && r.value.Some? ==> v.Str? && r.value.value == Text.Trim(v.s) && r.value.value != ""
  {
    match v
    case Missing => Accepted(None)
    case Str(s) => if |s| > NotesMaxLength then Rejected([NotesMessage]) else Accepted(TrimOrAbsent(s))
    case _ => Rejected([WrongTypeMessage(v)])
  }

  const ReasonMaxLength: nat := 250
  const ReasonMessage: string := "Reason cannot exceed 250 characters"
  /** The literal check's own message: `.describe` sets a description, not the error text. */
  const LiteralMessage: string := "Invalid literal value, expected true"

  datatype CancelValues = CancelValues(reason: Option<string>, confirmed: bool)

  /** `cancelClaimSchema`: the reason's issues, then the confirmation's. */
  function CancelClaimSchema(reason: Value, confirmed: Value): (r: Parsed<CancelValues>)
    ensures r.Accepted? <==> (reason.Missing? || (reason.Str? && |reason.s| <= 250)) && confirmed == Bool(true)
    ensures r.Accepted? ==> r.value.confirmed
    ensures reason.Str? && |reason.s| > 250 ==> r.Rejected? && |r.issues| > 0 && r.issues[0] == ReasonMessage
  {
    var reasonIssues := match reason
      case Missing => []
      case Str(s) => if |s| > ReasonMaxLength then [ReasonMessage] else []
      case _ => [WrongTypeMessage(reason)];
    var confirmIssues := if confirmed == Bool(true) then [] else [LiteralMessage];
    if reasonIssues + confirmIssues == [] then
      Accepted(CancelValues(if reason.Str? then TrimOrAbsent(reason.s) else None, true))
    else Rejected(reasonIssues + confirmIssues)
  }
}
