/**
 * The web client's donation vocabulary: the `DonationStatus` and `FoodType`
 * string enums with their label tables, the status predicates and the status
 * normalisation. Status strings arrive from the server unchecked, so every
 * predicate takes a plain string and lower-cases it first.
 */
module DonationTypes {
  import opened Wrappers
  import Text

  datatype Status = Pending | Claimed | PickedUp | Delivered | Expired | Cancelled

  /** The enum's string values. */
  function Value(s: Status): string
  {
    match s
    case Pending => "pending"
    case Claimed => "claimed"
    case PickedUp => "picked_up"
    case Delivered => "delivered"
    case Expired => "expired"
    case Cancelled => "cancelled"
  }

  /** `DONATION_STATUS_LABELS`. */
  function Label(s: Status): string
  {
    match s
    case Pending => "Available"
    case Claimed => "Claimed"
    case PickedUp => "Picked Up"
    case Delivered => "Delivered"
    case Expired => "Expired"
    case Cancelled => "Cancelled"
  }

  /** `Object.values(DonationStatus).includes(v)`, as a lookup. */
  function StatusOfValue(v: string): (r: Option<Status>)
    ensures r.Some? ==> Value(r.value) == v
    ensures r.None? ==> forall s: Status :: Value(s) != v
  {
    if v == "pending" then Some(Pending)
    else if v == "claimed" then Some(Claimed)
    else if v == "picked_up" then Some(PickedUp)
    else if v == "delivered" then Some(Delivered)
    else if v == "expired" then Some(Expired)
    else if v == "cancelled" then Some(Cancelled)
    else None
  }

  datatype FoodType = CookedMeal | Groceries | Bakery | Vegetables | Canned | Dairy | Beverages | Other

  function FoodValue(f: FoodType): string
  {
    match f
    case CookedMeal => "cooked_meal"
    case Groceries => "groceries"
    case Bakery => "bakery"
    case Vegetables => "vegetables"
    case Canned => "canned"
    case Dairy => "dairy"
    case Beverages => "beverages"
    case Other => "other"
  }

  /** The enum's member names: the own keys of the `FoodType` object at run time. */
  function FoodKey(f: FoodType): string
  {
    match f
    case CookedMeal => "CookedMeal"
    case Groceries => "Groceries"
    case Bakery => "Bakery"
    case Vegetables => "Vegetables"
    case Canned => "Canned"
    case Dairy => "Dairy"
    case Beverages => "Beverages"
    case Other => "Other"
  }

  /** `FOOD_TYPE_LABELS`. */
  function FoodLabel(f: FoodType): string
  {
    match f
    case CookedMeal => "Cooked Meal"
    case Groceries => "Groceries"
    case Bakery => "Bakery"
    case Vegetables => "Vegetables"
    case Canned => "Canned Goods"
    case Dairy => "Dairy"
    case Beverages => "Beverages"
    case Other => "Other"
  }

  /** `Object.values(FoodType).includes(v)`, as a lookup. */
  function FoodTypeOfValue(v: string): (r: Option<FoodType>)
    ensures r.Some? ==> FoodValue(r.value) == v
    ensures r.None? ==> forall f: FoodType :: FoodValue(f) != v
  {
    if v == "cooked_meal" then Some(CookedMeal)
    else if v == "groceries" then Some(Groceries)
    else if v == "bakery" then Some(Bakery)
    else if v == "vegetables" then Some(Vegetables)
    else if v == "canned" then Some(Canned)
    else if v == "dairy" then Some(Dairy)
    else if v == "beverages" then Some(Beverages)
    else if v == "other" then Some(Other)
    else None
  }

  /** What the predicates read of a donation. */
  datatype Donation = Donation(id: int, donorId: int, status: string)

  /** `String(donation.status).toLowerCase()`. */
  function StatusText(d: Donation): string
  {
    Text.LowerString(d.status)
  }

  predicate IsDonationAvailable(d: Option<Donation>)
  {
    d.Some? && (StatusText(d.value) == "pending" || StatusText(d.value) == "available")
  }

  predicate IsDonationClaimed(d: Option<Donation>)
  {
    d.Some? && StatusText(d.value) == "claimed"
  }

  predicate IsDonationInProgress(d: Option<Donation>)
  {
    d.Some? && StatusText(d.value) in ["claimed", "picked_up"]
  }

  predicate IsDonationComplete(d: Option<Donation>)
  {
    d.Some? && StatusText(d.value) == "delivered"
  }

  /** `!userId` holds for an absent id and for 0. */
  predicate IsDonationOwner(d: Option<Donation>, userId: Option<int>)
  {
    d.Some? && userId.Some? && userId.value != 0 && d.value.donorId == userId.value
  }

  lemma StatusPredicates(d: Option<Donation>)
    ensures IsDonationClaimed(d) ==> IsDonationInProgress(d)
    ensures !(IsDonationInProgress(d) && IsDonationComplete(d))
    ensures d.None? ==> !IsDonationAvailable(d) && !IsDonationInProgress(d) && !IsDonationComplete(d)
  {
  }

  /** The server's `reserved` is neither claimed nor in progress for the client. */
  lemma ReservedIsNotInProgress(id: int, donor: int)
    ensures !IsDonationClaimed(Some(Donation(id, donor, "reserved")))
    ensures !IsDonationInProgress(Some(Donation(id, donor, "reserved")))
    ensures IsDonationAvailable(Some(Donation(id, donor, "AVAILABLE")))
  {
  }

  /** `normalizeDonationStatus`: the enum whose value is the lower-cased input, Pending otherwise. */
  function NormalizeDonationStatus(status: string): (r: Status)
    ensures StatusOfValue(Text.LowerString(status)).Some? ==> Value(r) == Text.LowerString(status)
    ensures StatusOfValue(Text.LowerString(status)).None? ==> r == Pending
  {
    var normalized := Text.LowerString(status);
    match StatusOfValue(normalized)
    case Some(s) => s
    case None => Pending
  }

  /** Case does not matter, each value maps to its own member, and normalising twice changes nothing. */
  lemma NormalizeProperties(status: string, s: Status)
    ensures NormalizeDonationStatus(Text.LowerString(status)) == NormalizeDonationStatus(status)
    ensures NormalizeDonationStatus(Value(s)) == s
    ensures NormalizeDonationStatus(Value(NormalizeDonationStatus(status))) == NormalizeDonationStatus(status)
  {
    Text.LowerStringIdempotent(status);
    assert Text.LowerString(Value(s)) == Value(s);
    var n := NormalizeDonationStatus(status);
    assert Text.LowerString(Value(n)) == Value(n);
  }

  /** The server's own status words for an open donation normalise to Pending. */
  lemma ServerWordsNormalizeToPending()
    ensures NormalizeDonationStatus("available") == Pending
    ensures NormalizeDonationStatus("reserved") == Pending
    ensures NormalizeDonationStatus("Picked_Up") == PickedUp
  {
    Text.LowerStringNoUpper("available");
    Text.LowerStringNoUpper("reserved");
    assert Text.LowerString("Picked_Up") == "picked_up";
  }
}
