/**
 * The client-side schema of the donation form. Each field runs its checks
 * in order and every failing check adds an issue, so the result lists all
 * issues of all fields in declaration order, and the form is accepted
 * exactly when that list is empty.
 */
module DonationValidator {
  import opened Wrappers
  import DT = DonationTypes
  import R = Requests

  /** `z.coerce.number()` has already turned the input into a number, possibly NaN. */
  datatype Coerced = NaN | Value(x: real)

  datatype Form = Form(
    title: string,
    description: string,
    foodType: string,
    quantity: Coerced,
    pickupAddress: string,
    latitude: Coerced,
    longitude: Coerced,
    /** `new Date(expires_at)` as an instant, None for an invalid date. */
    expiresAt: Option<int>)

  datatype Field = Title | Description | FoodType | Quantity | PickupAddress | Latitude | Longitude | ExpiresAt

  /** The issue path zod reports. */
  function Path(f: Field): string
  {
    match f
    case Title => "title"
    case Description => "description"
    case FoodType => "food_type"
    case Quantity => "quantity"
    case PickupAddress => "pickup_address"
    case Latitude => "latitude"
    case Longitude => "longitude"
    case ExpiresAt => "expires_at"
  }

  datatype Issue = Issue(field: Field, message: string)

  const NotANumberMessage := "Expected number, received nan"

  function LengthIssues(s: string, min: nat, max: Option<nat>, short: string, long: string): (r: seq<string>)
    ensures r == [] <==> min <= |s| && (max.Some? ==> |s| <= max.value)
  {
    (if |s| < min then [short] else [])
    + (if max.Some? && |s| > max.value then [long] else [])
  }

  function TitleIssues(title: string): seq<string>
  {
    LengthIssues(title, 5, Some(100), "Title must be at least 5 characters", "Title cannot exceed 100 characters")
  }

  function DescriptionIssues(description: string): seq<string>
  {
    LengthIssues(description, 10, Some(250), "Description must be at least 10 characters",
                 "Description cannot exceed 250 characters")
  }

  function FoodTypeIssues(foodType: string): (r: seq<string>)
    ensures r == [] <==> DT.FoodTypeOfValue(foodType).Some?
  {
    if DT.FoodTypeOfValue(foodType).Some? then [] else ["Please select a valid food type"]
  }

  function QuantityIssues(q: Coerced): (r: seq<string>)
    ensures r == [] <==> q.Value? && 0.0 < q.x <= 1000.0
  {
    match q
    case NaN => [NotANumberMessage]
    case Value(x) =>
      (if x <= 0.0 then ["Quantity must be greater than 0"] else [])
      + (if x > 1000.0 then ["Quantity cannot exceed 1000kg"] else [])
  }

  function AddressIssues(address: string): seq<string>
  {
    LengthIssues(address, 5, None, "Pickup address is required (min 5 chars)", "")
  }

  /** `min`, `max`, then a refinement that still runs after a failed bound. */
  function CoordinateIssues(v: Coerced, bound: real, rangeMessage: string): (r: seq<string>)
    ensures r == [] <==> v.Value? && -bound <= v.x <= bound && v.x != 0.0
  {
    match v
    case NaN => [NotANumberMessage]
    case Value(x) =>
      (if x < -bound then [rangeMessage] else [])
      + (if x > bound then [rangeMessage] else [])
      + (if x == 0.0 then ["Please select a location on the map"] else [])
  }

  function ExpiryIssues(expiresAt: Option<int>, now: int): (r: seq<string>)
    ensures r == [] <==> expiresAt.Some? && expiresAt.value > now
  {
    if expiresAt.Some? && expiresAt.value > now then [] else ["Expiration time must be in the future"]
  }

  function At(path: Field, messages: seq<string>): (r: seq<Issue>)
    ensures |r| == |messages|
    ensures forall i :: 0 <= i < |r| ==> r[i] == Issue(path, messages[i])
  {
    seq(|messages|, i requires 0 <= i < |messages| => Issue(path, messages[i]))
  }

  /** The fields of the schema, in declaration order. */
  const Order: seq<Field> := [Title, Description, FoodType, Quantity, PickupAddress, Latitude, Longitude, ExpiresAt]

  /** The messages one field's checks produce. */
  function Checks(f: Form, now: int, field: Field): seq<string>
  {
    match field
    case Title => TitleIssues(f.title)
    case Description => DescriptionIssues(f.description)
    case FoodType => FoodTypeIssues(f.foodType)
    case Quantity => QuantityIssues(f.quantity)
    case PickupAddress => AddressIssues(f.pickupAddress)
    case Latitude => CoordinateIssues(f.latitude, 90.0, "Latitude must be between -90 and 90")
    case Longitude => CoordinateIssues(f.longitude, 180.0, "Longitude must be between -180 and 180")
    case ExpiresAt => ExpiryIssues(f.expiresAt, now)
  }

  /** The constraint each field states, written independently of the messages. */
  predicate Satisfies(f: Form, now: int, field: Field)
  {
    match field
    case Title => 5 <= |f.title| <= 100
    case Description => 10 <= |f.description| <= 250
    case FoodType => DT.FoodTypeOfValue(f.foodType).Some?
    case Quantity => f.quantity.Value? && 0.0 < f.quantity.x <= 1000.0
    case PickupAddress => |f.pickupAddress| >= 5
    case Latitude => f.latitude.Value? && -90.0 <= f.latitude.x <= 90.0 && f.latitude.x != 0.0
    case Longitude => f.longitude.Value? && -180.0 <= f.longitude.x <= 180.0 && f.longitude.x != 0.0
    case ExpiresAt => f.expiresAt.Some? && f.expiresAt.value > now
  }

  lemma ChecksPassIff(f: Form, now: int, field: Field)
    ensures Checks(f, now, field) == [] <==> Satisfies(f, now, field)
  {
  }

  /** The issues of the given fields, field after field. */
  function IssuesOf(f: Form, now: int, fields: seq<Field>): seq<Issue>
    decreases |fields|
  {
    if fields == [] then [] else At(fields[0], Checks(f, now, fields[0])) + IssuesOf(f, now, fields[1..])
  }

  /** `donationSchema.safeParse(form)`: the issues of every field, in declaration order. */
  function Validate(f: Form, now: int): seq<Issue>
  {
    IssuesOf(f, now, Order)
  }

  /** The fields an issue list reports against. */
  function Fields(issues: seq<Issue>): set<Field>
  {
    set i | 0 <= i < |issues| :: issues[i].field
  }

  lemma FieldsAppend(a: seq<Issue>, b: seq<Issue>)
    ensures Fields(a + b) == Fields(a) + Fields(b)
  {
    var ab := a + b;
    forall p | p in Fields(ab)
      ensures p in Fields(a) + Fields(b)
    {
      var i :| 0 <= i < |ab| && ab[i].field == p;
      if i >= |a| {
        assert b[i - |a|].field == p;
      }
    }
    forall p | p in Fields(a)
      ensures p in Fields(ab)
    {
      var i :| 0 <= i < |a| && a[i].field == p;
      assert ab[i] == a[i];
    }
    forall p | p in Fields(b)
      ensures p in Fields(ab)
    {
      var i :| 0 <= i < |b| && b[i].field == p;
      assert ab[|a| + i] == b[i];
    }
  }

  lemma FieldsAt(field: Field, messages: seq<string>)
    ensures Fields(At(field, messages)) == if messages == [] then {} else {field}
  {
    if messages != [] {
      assert At(field, messages)[0].field == field;
    }
  }

  lemma {:induction false} IssuesOfFields(f: Form, now: int, fields: seq<Field>)
    ensures forall p :: p in Fields(IssuesOf(f, now, fields)) <==> p in fields && !Satisfies(f, now, p)
    decreases |fields|
  {
    if fields != [] {
      var head := At(fields[0], Checks(f, now, fields[0]));
      FieldsAppend(head, IssuesOf(f, now, fields[1..]));
      FieldsAt(fields[0], Checks(f, now, fields[0]));
      ChecksPassIff(f, now, fields[0]);
      IssuesOfFields(f, now, fields[1..]);
      assert forall p :: p in fields <==> p == fields[0] || p in fields[1..];
    }
  }

  /** An issue is reported against a field exactly when that field breaks its constraint. */
  lemma FailingFields(f: Form, now: int)
    ensures forall p :: p in Fields(Validate(f, now)) <==> !Satisfies(f, now, p)
  {
    IssuesOfFields(f, now, Order);
    forall p: Field
      ensures p in Order
    {
      InOrder(p);
    }
  }

  lemma InOrder(p: Field)
    ensures p in Order
  {
    match p
    case Title => assert Order[0] == p;
    case Description => assert Order[1] == p;
    case FoodType => assert Order[2] == p;
    case Quantity => assert Order[3] == p;
    case PickupAddress => assert Order[4] == p;
    case Latitude => assert Order[5] == p;
    case Longitude => assert Order[6] == p;
    case ExpiresAt => assert Order[7] == p;
  }

  /** The form is accepted exactly when every field meets its constraint. */
  lemma ValidateAcceptsIff(f: Form, now: int)
    ensures Validate(f, now) == [] <==> forall p :: Satisfies(f, now, p)
  {
    FailingFields(f, now);
    var v := Validate(f, now);
    if v != [] {
      assert v[0].field in Fields(v);
    }
  }

  /**
   * The form and the API bound the quantity differently: 0.05 kg passes the
   * form (greater than 0) and fails the API's `min:0.1`.
   */
  lemma QuantityBoundsDiffer()
    ensures QuantityIssues(Value(0.05)) == []
    ensures !R.StoreQuantityOk(R.Number(5))
  {
  }

  /** A latitude the form accepts, scaled to the column's unit, passes the API's range check. */
  lemma AcceptedLatitudeFitsApi(n: int)
    requires CoordinateIssues(Value(n as real / 10_000_000.0), 90.0, "Latitude must be between -90 and 90") == []
    ensures R.LatitudeOk(R.Number(n))
  {
  }
}
