/**
 * The `claims` table: one row per reservation of a donation by a volunteer.
 * The unique index on `donation_id` alone means a donation has at most one
 * claim row for its whole life, cancelled ones included.
 */
module ClaimsTable {
  import opened Wrappers
  import DonationsTable

  type Id = nat

  datatype Status = Active | PickedUp | Delivered | Cancelled

  function StatusName(s: Status): string
  {
    match s
    case Active => "active"
    case PickedUp => "picked_up"
    case Delivered => "delivered"
    case Cancelled => "cancelled"
  }

  function ParseStatus(name: string): (r: Option<Status>)
    ensures r.Some? ==> StatusName(r.value) == name
  {
    if name == "active" then Some(Active)
    else if name == "picked_up" then Some(PickedUp)
    else if name == "delivered" then Some(Delivered)
    else if name == "cancelled" then Some(Cancelled)
    else None
  }

  lemma ParseStatusName(s: Status)
    ensures ParseStatus(StatusName(s)) == Some(s)
  {
  }

  const DefaultStatus: Status := Active

  datatype Claim = Claim(
    donationId: DonationsTable.Id,
    volunteerId: Id,
    status: Status,
    pickedUpAt: Option<int>,
    deliveredAt: Option<int>,
    notes: Option<string>,
    createdAt: int,
    updatedAt: int)

  /** An insert naming donation, volunteer and status: the nullable columns start out null. */
  function NewRow(donationId: DonationsTable.Id, volunteerId: Id, now: int): (c: Claim)
    ensures c.status == Active && c.pickedUpAt == None && c.deliveredAt == None && c.notes == None
    ensures c.donationId == donationId && c.volunteerId == volunteerId
  {
    Claim(donationId, volunteerId, DefaultStatus, None, None, None, now, now)
  }

  /** The unique index on `donation_id`. */
  ghost predicate UniqueDonation(rows: map<Id, Claim>)
  {
    forall a, b :: a in rows && b in rows && rows[a].donationId == rows[b].donationId ==> a == b
  }

  /** Whether the unique index already holds a row for this donation. */
  predicate HasClaimFor(rows: map<Id, Claim>, donation: DonationsTable.Id)
  {
    exists id :: id in rows && rows[id].donationId == donation
  }

  /** Inserting a row for a donation that has none keeps the index unique. */
  lemma InsertKeepsUnique(rows: map<Id, Claim>, id: Id, c: Claim)
    requires UniqueDonation(rows)
    requires id !in rows
    requires !HasClaimFor(rows, c.donationId)
    ensures UniqueDonation(rows[id := c])
  {
  }

  /**
   * ON DELETE CASCADE on `donation_id` and on `volunteer_id`: a claim row
   * disappears with its donation or with its volunteer.
   */
  function CascadeDelete(rows: map<Id, Claim>, donations: set<DonationsTable.Id>, volunteer: Option<Id>): (r: map<Id, Claim>)
    ensures forall id :: id in r <==>
      id in rows && rows[id].donationId in donations && Some(rows[id].volunteerId) != volunteer
    ensures forall id :: id in r ==> r[id] == rows[id]
  {
    map id | id in rows && rows[id].donationId in donations && Some(rows[id].volunteerId) != volunteer :: rows[id]
  }
}
