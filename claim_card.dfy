/**
 * The claim card a volunteer sees for each of their claims: the badge
 * status, the accent class, the pickup code shown and the actions offered.
 */
module ClaimCard {
  import opened Wrappers
  import Text
  import DT = DonationTypes
  import C = ClaimsTable
  import D = DonationsTable

  /** A JavaScript value that may be missing, null, a string or an integer. */
  datatype Js = Undefined | Null | Str(s: string) | Num(n: int)

  /** What the card reads of the donation embedded in a claim. */
  datatype CardDonation = CardDonation(
    id: int,
    status: Option<string>,
    /** `donation.claim.pickup_code` when the embedded claim carries that key, Undefined otherwise. */
    claimPickupCode: Js,
    pickupCode: Js)

  datatype CardClaim = CardClaim(id: int, status: string, donation: Option<CardDonation>)

  /** `mapClaimStatusToDonationStatus`. */
  function MapClaimStatusToDonationStatus(status: string): (r: DT.Status)
    ensures status == "active" <==> r == DT.Claimed
    ensures status == "picked_up" <==> r == DT.PickedUp
    ensures status == "delivered" <==> r == DT.Delivered
    ensures status == "cancelled" <==> r == DT.Cancelled
    ensures r in {DT.Claimed, DT.PickedUp, DT.Delivered, DT.Cancelled, DT.Pending}
  {
    if status == "active" then DT.Claimed
    else if status == "picked_up" then DT.PickedUp
    else if status == "delivered" then DT.Delivered
    else if status == "cancelled" then DT.Cancelled
    else DT.Pending
  }

  /** Every status the server writes maps to the donation status of the same name, active to Claimed. */
  lemma MapAgreesWithServer(s: C.Status)
    ensures MapClaimStatusToDonationStatus(C.StatusName(s)) != DT.Pending
    ensures s != C.Active ==> DT.Value(MapClaimStatusToDonationStatus(C.StatusName(s))) == C.StatusName(s)
  {
  }

  /** `donation?.status ?? mapClaimStatusToDonationStatus(claim.status)`. */
  function BadgeStatus(c: CardClaim): (r: string)
    ensures c.donation.Some? && c.donation.value.status.Some? ==> r == c.donation.value.status.value
    ensures c.donation.None? || c.donation.value.status.None? ==>
      r == DT.Value(MapClaimStatusToDonationStatus(c.status))
  {
    match c.donation
    case Some(d) => d.status.GetOr(DT.Value(MapClaimStatusToDonationStatus(c.status)))
    case None => DT.Value(MapClaimStatusToDonationStatus(c.status))
  }

  const FallbackAccent := "border-l-4 border-l-slate-300"

  /**
   * `statusAccent[claim.status] ?? fallback`, as an own-key lookup. The
   * component indexes an object literal, which would also reach an
   * inherited member such as `constructor`; no input gets there, since the
   * status comes from the claims table's enum column and is one of its four
   * words.
   */
  function StatusClass(status: string): (r: string)
    ensures status !in {"active", "picked_up", "delivered", "cancelled"} ==> r == FallbackAccent
    ensures status in {"active", "picked_up", "delivered", "cancelled"} ==> r != FallbackAccent
  {
    if status == "active" then "border-l-4 border-l-emerald-500"
    else if status == "picked_up" then "border-l-4 border-l-blue-500"
    else if status == "delivered" then "border-l-4 border-l-slate-400"
    else if status == "cancelled" then "border-l-4 border-l-rose-500"
    else FallbackAccent
  }

  /** The four statuses get four different accents. */
  lemma AccentsDistinguishStatuses(s: C.Status, t: C.Status)
    ensures StatusClass(C.StatusName(s)) == StatusClass(C.StatusName(t)) <==> s == t
  {
  }

  predicate Present(v: Js)
  {
    v != Null && v != Undefined
  }

  /** `[claim code, donation code, claim.id, donation?.id].find(v => v != null)`; claim.id is always present. */
  function CodeCandidate(c: CardClaim): (r: Js)
    ensures Present(r)
    ensures c.donation.Some? && Present(c.donation.value.claimPickupCode) ==> r == c.donation.value.claimPickupCode
    ensures c.donation.Some? && !Present(c.donation.value.claimPickupCode) && Present(c.donation.value.pickupCode) ==>
      r == c.donation.value.pickupCode
    ensures c.donation.None? || (!Present(c.donation.value.claimPickupCode) && !Present(c.donation.value.pickupCode)) ==>
      r == Num(c.id)
  {
    if c.donation.Some? && Present(c.donation.value.claimPickupCode) then c.donation.value.claimPickupCode
    else if c.donation.Some? && Present(c.donation.value.pickupCode) then c.donation.value.pickupCode
    else Num(c.id)
  }

  /** `String(v)` for a present value. */
  function JsString(v: Js): string
    requires Present(v)
  {
    match v
    case Str(s) => s
    case Num(n) => Text.IntToString(n)
  }

  /** `String(candidate).slice(-6).padStart(6, "0")`. */
  function PickupCode(c: CardClaim): (r: string)
    ensures |r| == 6
  {
    Text.PadStartZeros(Text.TakeLast(JsString(CodeCandidate(c)), 6), 6)
  }

  /**
   * A candidate of six characters or more shows its last six; a shorter one
   * is shown in full after enough zeros.
   */
  lemma PickupCodeOfCandidate(c: CardClaim)
    ensures var s := JsString(CodeCandidate(c));
      && (|s| >= 6 ==> PickupCode(c) == s[|s| - 6..])
      && (|s| < 6 ==> PickupCode(c) == seq(6 - |s|, _ => '0') + s)
  {
    var s := JsString(CodeCandidate(c));
    var t := Text.TakeLast(s, 6);
    var r := PickupCode(c);
    if |s| < 6 {
      assert t == s;
      assert r == r[..6 - |s|] + r[6 - |s|..];
      assert r[..6 - |s|] == seq(6 - |s|, _ => '0');
    }
  }

  /** A six-digit code the server handed out is shown exactly as issued. */
  lemma IssuedCodeShownAsIs(c: CardClaim, code: string)
    requires c.donation.Some? && c.donation.value.claimPickupCode == Str(code)
    requires D.IsPickupCode(code)
    ensures PickupCode(c) == code
  {
    assert JsString(CodeCandidate(c)) == code;
    assert |code| == 6;
    PickupCodeOfCandidate(c);
    assert code[|code| - 6..] == code;
  }

  /** The code is displayed for active and picked-up claims only. */
  predicate ShowsCode(c: CardClaim)
  {
    c.status == "active" || c.status == "picked_up"
  }

  datatype Action = VerifyPickup | Cancel | ConfirmDelivery

  /** The footer buttons for a status. */
  function OfferedActions(status: string): (r: set<Action>)
    ensures VerifyPickup in r <==> status == "active"
    ensures Cancel in r <==> status == "active"
    ensures ConfirmDelivery in r <==> status == "picked_up"
  {
    if status == "active" then {VerifyPickup, Cancel}
    else if status == "picked_up" then {ConfirmDelivery}
    else {}
  }

  /**
   * Every button leads to a request the server accepts from that status:
   * pickup is accepted only from Active, delivery only from PickedUp and
   * cancel from Active or PickedUp. The card offers no cancel for a
   * picked-up claim, which the server would still accept.
   */
  lemma ActionsWithinServerGuards(s: C.Status)
    ensures VerifyPickup in OfferedActions(C.StatusName(s)) <==> s == C.Active
    ensures ConfirmDelivery in OfferedActions(C.StatusName(s)) <==> s == C.PickedUp
    ensures Cancel in OfferedActions(C.StatusName(s)) ==> s == C.Active || s == C.PickedUp
    ensures s == C.PickedUp ==> Cancel !in OfferedActions(C.StatusName(s))
    ensures OfferedActions(C.StatusName(s)) != {} <==> ShowsCode(CardClaim(0, C.StatusName(s), None))
  {
  }
}
