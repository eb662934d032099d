/**
 * The JSON shape of one donation. Most keys copy a column; three are
 * conditional: `pickup_code` depends on who is asking, `distance` on whether
 * it was computed, and `donor`/`claim` on whether the relation is loaded.
 */
module DonationResource {
  import opened Wrappers
  import D = DonationsTable
  import C = ClaimsTable

  /** The state of a relation on a model instance. */
  datatype Relation<T> = Unloaded | Loaded(target: Option<T>)

  /** A donation instance as the resource receives it. */
  datatype Instance = Instance(
    id: D.Id,
    row: D.Donation,
    donorLoaded: bool,
    claim: Relation<C.Claim>,
    /** The `distance` attribute a radius query may have added. */
    distance: Option<int>)

  /**
   * The serialised donation. An `Option` field that is `None` is a key that
   * is left out of the JSON; `pickupCode: Some(None)` is the key present
   * with the value null.
   */
  datatype Json = Json(
    id: D.Id,
    title: string,
    description: Option<string>,
    quantityHundredths: int,
    status: string,
    pickupCode: Option<Option<string>>,
    latitudeE7: int,
    longitudeE7: int,
    expiresAt: Option<int>,
    isExpired: bool,
    isAvailable: bool,
    donor: Option<D.Id>,
    claim: Option<Option<C.Claim>>,
    distance: Option<int>,
    createdAt: int,
    updatedAt: int)

  /** What reading `$this->claim` yields: the loaded value, or the lazily fetched row. */
  function ResolveClaim(rel: Relation<C.Claim>, stored: Option<C.Claim>): Option<C.Claim>
  {
    match rel
    case Loaded(c) => c
    case Unloaded => stored
  }

  /** `$this->claim?->volunteer_id`: null when there is no claim. */
  function ClaimVolunteer(rel: Relation<C.Claim>, stored: Option<C.Claim>): (v: Option<nat>)
    ensures v.Some? <==> ResolveClaim(rel, stored).Some?
  {
    match ResolveClaim(rel, stored)
    case Some(c) => Some(c.volunteerId)
    case None => None
  }

  /**
   * The `when` condition for `pickup_code`, written with the strict
   * comparisons of the source: `null === null` holds, so an anonymous
   * viewer passes the second test on a donation without a claim.
   */
  predicate ShowsPickupCode(viewer: Option<nat>, inst: Instance, stored: Option<C.Claim>)
  {
    viewer == Some(inst.row.donorId) || viewer == ClaimVolunteer(inst.claim, stored)
  }

  /**
   * `toArray`. The `||` short-circuits: only when the viewer is not the
   * donor is `$this->claim` read, which loads the relation, so the `claim`
   * key then appears even if it was not eager-loaded. `isExpired` and
   * `isAvailable` are model methods whose bodies are not part of this model;
   * their values are inputs.
   */
  function ToArray(viewer: Option<nat>, inst: Instance, stored: Option<C.Claim>, isExpired: bool, isAvailable: bool): (j: Json)
    ensures j.pickupCode.Some? <==> ShowsPickupCode(viewer, inst, stored)
    ensures j.pickupCode.Some? ==> j.pickupCode.value == inst.row.pickupCode
    ensures j.distance == inst.distance
    ensures j.donor.Some? <==> inst.donorLoaded
    ensures j.claim.Some? <==> inst.claim.Loaded? || viewer != Some(inst.row.donorId)
    ensures j.claim.Some? ==> j.claim.value == ResolveClaim(inst.claim, stored)
    ensures j.status == D.StatusName(inst.row.status)
    ensures j.id == inst.id && j.quantityHundredths == inst.row.quantityHundredths
  {
    var row := inst.row;
    var isDonor := viewer == Some(row.donorId);
    var afterRead := if isDonor then inst.claim else Loaded(ResolveClaim(inst.claim, stored));
    Json(
      inst.id, row.title, row.description, row.quantityHundredths, D.StatusName(row.status),
      if ShowsPickupCode(viewer, inst, stored) then Some(row.pickupCode) else None,
      row.latitudeE7, row.longitudeE7, row.expiresAt, isExpired, isAvailable,
      if inst.donorLoaded then Some(row.donorId) else None,
      if afterRead.Loaded? then Some(afterRead.target) else None,
      inst.distance, row.createdAt, row.updatedAt)
  }

  /** The claim's volunteer sees the code; a third party on a claimed donation does not. */
  lemma CodeVisibleToClaimant(inst: Instance, stored: Option<C.Claim>, other: nat, e: bool, a: bool)
    requires ResolveClaim(inst.claim, stored).Some?
    requires other != inst.row.donorId && other != ResolveClaim(inst.claim, stored).value.volunteerId
    ensures var c := ResolveClaim(inst.claim, stored).value;
      ToArray(Some(c.volunteerId), inst, stored, e, a).pickupCode == Some(inst.row.pickupCode)
    ensures ToArray(Some(other), inst, stored, e, a).pickupCode == None
  {
  }

  /**
   * With no signed-in viewer and no claim, `null === null` makes the key
   * appear, holding whatever the column holds (null before any claim).
   */
  lemma AnonymousSeesUnclaimedCode(inst: Instance, stored: Option<C.Claim>, e: bool, a: bool)
    requires ResolveClaim(inst.claim, stored).None?
    ensures ToArray(None, inst, stored, e, a).pickupCode == Some(inst.row.pickupCode)
  {
  }

  /** A signed-in viewer who is neither donor nor claimant never sees the code. */
  lemma StrangerNeverSeesCode(inst: Instance, stored: Option<C.Claim>, viewer: nat, e: bool, a: bool)
    requires viewer != inst.row.donorId
    requires ResolveClaim(inst.claim, stored).Some? ==> viewer != ResolveClaim(inst.claim, stored).value.volunteerId
    ensures ToArray(Some(viewer), inst, stored, e, a).pickupCode == None
  {
  }
}
