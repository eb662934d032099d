/**
 * The web client's claim vocabulary: the label and colour tables keyed by
 * the server's claim statuses, and the claim predicates. Unlike the donation
 * predicates these compare the status string exactly, without lower-casing.
 */
module ClaimTypes {
  import opened Wrappers
  import C = ClaimsTable

  /** What the predicates read of a claim as the server sends it. */
  datatype Claim = Claim(id: int, donationId: int, volunteerId: int, status: string)

  /** `CLAIM_STATUS_LABELS`. */
  function Label(s: C.Status): string
  {
    match s
    case Active => "Claimed"
    case PickedUp => "Picked Up"
    case Delivered => "Delivered"
    case Cancelled => "Cancelled"
  }

  datatype Colors = Colors(bg: string, text: string)

  /** `CLAIM_STATUS_COLORS`. */
  function Colour(s: C.Status): Colors
  {
    match s
    case Active => Colors("bg-blue-100", "text-blue-800")
    case PickedUp => Colors("bg-purple-100", "text-purple-800")
    case Delivered => Colors("bg-green-100", "text-green-800")
    case Cancelled => Colors("bg-neutral-100", "text-neutral-800")
  }

  /** Each status gets its own label and its own badge colours. */
  lemma TablesDistinguishStatuses(s: C.Status, t: C.Status)
    ensures Label(s) == Label(t) <==> s == t
    ensures Colour(s) == Colour(t) <==> s == t
    ensures Colour(s).bg[..3] == "bg-" && Colour(s).text[..5] == "text-"
  {
  }

  /** `isClaimActive`: still open, that is active or picked up. */
  predicate IsClaimActive(c: Option<Claim>)
  {
    c.Some? && (c.value.status == "active" || c.value.status == "picked_up")
  }

  predicate IsClaimCompleted(c: Option<Claim>)
  {
    c.Some? && c.value.status == "delivered"
  }

  /** `isClaimOwner`: `!userId` is true for an absent id and for 0. */
  predicate IsClaimOwner(c: Option<Claim>, userId: Option<int>)
  {
    c.Some? && userId.Some? && userId.value != 0 && c.value.volunteerId == userId.value
  }

  /**
   * For a claim whose status is one the server writes, "active" on the client
   * is exactly the set of statuses from which the server accepts a cancel,
   * "completed" is exactly Delivered, and the two never hold together.
   */
  lemma PredicatesMatchServerStatuses(id: int, donation: int, volunteer: int, s: C.Status)
    ensures IsClaimActive(Some(Claim(id, donation, volunteer, C.StatusName(s)))) <==> s == C.Active || s == C.PickedUp
    ensures IsClaimCompleted(Some(Claim(id, donation, volunteer, C.StatusName(s)))) <==> s == C.Delivered
    ensures !(IsClaimActive(Some(Claim(id, donation, volunteer, C.StatusName(s))))
              && IsClaimCompleted(Some(Claim(id, donation, volunteer, C.StatusName(s)))))
  {
  }

  /** Nobody owns a missing claim, and an absent or zero user id owns nothing. */
  lemma OwnerNeedsBoth(c: Option<Claim>, userId: Option<int>)
    ensures IsClaimOwner(c, userId) ==> c.Some? && userId == Some(c.value.volunteerId) && c.value.volunteerId != 0
    ensures !IsClaimOwner(c, Some(0)) && !IsClaimOwner(c, None) && !IsClaimOwner(None, userId)
  {
  }
}
