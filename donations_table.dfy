/**
 * The `donations` table: one row per listed donation. Quantities are kept in
 * hundredths of a kilogram and coordinates in units of 1e-7 degrees, which
 * is exactly what the DECIMAL(8,2) and DECIMAL(10,7) columns can hold.
 */
module DonationsTable {
  import opened Wrappers
  import Text

  type Id = nat

  datatype Status = Available | Reserved | PickedUp | Delivered | Expired | Cancelled

  /** The ENUM column's labels. */
  function StatusName(s: Status): string
  {
    match s
    case Available => "available"
    case Reserved => "reserved"
    case PickedUp => "picked_up"
    case Delivered => "delivered"
    case Expired => "expired"
    case Cancelled => "cancelled"
  }

  /** What the ENUM column accepts: exactly the six labels. */
  function ParseStatus(name: string): (r: Option<Status>)
    ensures r.Some? ==> StatusName(r.value) == name
  {
    if name == "available" then Some(Available)
    else if name == "reserved" then Some(Reserved)
    else if name == "picked_up" then Some(PickedUp)
    else if name == "delivered" then Some(Delivered)
    else if name == "expired" then Some(Expired)
    else if name == "cancelled" then Some(Cancelled)
    else None
  }

  lemma ParseStatusName(s: Status)
    ensures ParseStatus(StatusName(s)) == Some(s)
  {
  }

  /** The column default. */
  const DefaultStatus: Status := Available

  /** Width of the `pickup_code` and `delivery_code` columns. */
  const CodeWidth: nat := 6

  /** What `Donation::generateCode` hands out: six ASCII digits, the column's full width. */
  predicate IsPickupCode(s: string)
  {
    |s| == CodeWidth && forall i :: 0 <= i < |s| ==> Text.IsDigit(s[i])
  }

  /** DECIMAL(8,2): at most eight digits, two after the point. */
  const MaxQuantityHundredths: int := 99_999_999

  /** DECIMAL(10,7): at most ten digits, seven after the point. */
  const MaxCoordinateUnits: int := 9_999_999_999

  datatype Donation = Donation(
    donorId: Id,
    title: string,
    description: Option<string>,
    quantityHundredths: int,
    status: Status,
    pickupCode: Option<string>,
    deliveryCode: Option<string>,
    latitudeE7: int,
    longitudeE7: int,
    expiresAt: Option<int>,
    createdAt: int,
    updatedAt: int)

  /** What the column types allow a row to hold. */
  ghost predicate FitsColumns(d: Donation)
  {
    && -MaxQuantityHundredths <= d.quantityHundredths <= MaxQuantityHundredths
    && (d.pickupCode.Some? ==> |d.pickupCode.value| <= CodeWidth)
    && (d.deliveryCode.Some? ==> |d.deliveryCode.value| <= CodeWidth)
    && -MaxCoordinateUnits <= d.latitudeE7 <= MaxCoordinateUnits
    && -MaxCoordinateUnits <= d.longitudeE7 <= MaxCoordinateUnits
  }

  /** An insert that names only the given columns: the others take their defaults. */
  function NewRow(donorId: Id, title: string, description: Option<string>, quantityHundredths: int,
                  latitudeE7: int, longitudeE7: int, expiresAt: Option<int>, now: int): (d: Donation)
    ensures d.status == Available && d.pickupCode == None && d.deliveryCode == None
    ensures d.donorId == donorId && d.createdAt == now && d.updatedAt == now
  {
    Donation(donorId, title, description, quantityHundredths, DefaultStatus, None, None,
             latitudeE7, longitudeE7, expiresAt, now, now)
  }

  /**
   * ON DELETE CASCADE on `donor_id`: deleting a user removes every donation
   * that user donated, and nothing else.
   */
  function CascadeDeleteDonor(rows: map<Id, Donation>, user: Id): (r: map<Id, Donation>)
    ensures forall id :: id in r <==> id in rows && rows[id].donorId != user
    ensures forall id :: id in r ==> r[id] == rows[id]
  {
    map id | id in rows && rows[id].donorId != user :: rows[id]
  }
}
