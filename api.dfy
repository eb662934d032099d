/**
 * The donation and claim endpoints of the API over one store holding the
 * `donations` and `claims` tables, the users' impact scores, the queue of
 * score jobs and the notifications sent. Each request is one atomic method:
 * the row lock and the transaction become the fact that nothing else runs
 * in between, and a rollback becomes "nothing changed".
 */
module Api {
  import opened Wrappers
  import Sorting
  import D = DonationsTable
  import C = ClaimsTable
  import R = Requests
  import Text
  import ImpactScore
  import ExceptionHandler

  /** The authenticated user: id and role names. */
  datatype Caller = Caller(id: nat, roles: set<string>)

  predicate HasRole(c: Caller, role: string)
  {
    role in c.roles
  }

  /**
   * Where the claim request throws, if it does. Inside the transaction the
   * writes are rolled back. After the commit the claim stays, and so does
   * whatever the steps before the throw did: `AfterCommit` throws in
   * `notify`, `AfterNotify` in the job dispatch, `AfterDispatch` while
   * loading the relations or building the resource.
   */
  datatype Fault =
    | NoFault
    | BeforeCommit(message: string)
    | AfterCommit(message: string)
    | AfterNotify(message: string)
    | AfterDispatch(message: string)

  datatype Notice =
    | DonationClaimed(donor: nat, donation: D.Id, volunteer: nat)
    | DonationDelivered(donor: nat, donation: D.Id, volunteer: nat)

  datatype Reply =
    /** A JSON body carrying a message. */
    | Message(code: int, message: string)
    /** An early return from a guard. */
    | Refused(code: int, message: string)
    /** A failed `validate`, rendered by the exception handler with these error keys. */
    | Invalid(fields: set<string>)
    /** A donation resource for this id. */
    | Resource(code: int, id: nat)
    /** The successful claim body: the donation and the code just written. */
    | Granted(donation: D.Id, pickupCode: string)
    /** The claim endpoint's catch block. */
    | Failed(error: Option<string>)
    /** Route-model binding found no row for the id in the URL. */
    | Missing

  /**
   * The HTTP status of a reply; exceptions go through the handler's
   * mapping. An unknown id goes through the corrected mapping, which
   * answers 404; the handler as written answers it 500
   * (`ExceptionHandler.UnknownIdAnswers500`).
   */
  function StatusCode(r: Reply): (code: int)
    ensures r.Invalid? ==> code == 422
    ensures r.Missing? ==> code == 404
    ensures r.Failed? ==> code == 500
    ensures r.Granted? ==> code == 200
  {
    match r
    case Message(c, _) => c
    case Refused(c, _) => c
    case Invalid(_) =>
      ExceptionHandler.HandleApiException(ExceptionHandler.ValidationException("The given data was invalid.", map[]), false).status
    case Resource(c, _) => c
    case Granted(_, _) => 200
    case Failed(_) => 500
    case Missing =>
      ExceptionHandler.HandleApiExceptionCorrected(ExceptionHandler.ModelNotFoundException("No query results for model"), false).status
  }

  /** The error text a duplicate insert on the unique `donation_id` index raises. */
  const UniqueViolation: string := "Integrity constraint violation: Duplicate entry for key 'claims_donation_id_unique'"

  // ---- listing queries ----

  /** The ids below `bound` that satisfy `keep`, in increasing order. */
  function IdsWhere(bound: nat, keep: nat -> bool): (r: seq<nat>)
    ensures forall i: nat :: i in r <==> i < bound && keep(i)
    ensures forall i, j :: 0 <= i < j < |r| ==> r[i] < r[j]
  {
    if bound == 0 then []
    else
      var prefix := IdsWhere(bound - 1, keep);
      assert forall k :: 0 <= k < |prefix| ==> prefix[k] < bound - 1 by {
        forall k | 0 <= k < |prefix| ensures prefix[k] < bound - 1 {
          assert prefix[k] in prefix;
        }
      }
      prefix + (if keep(bound - 1) then [bound - 1] else [])
  }

  function RowKey<T>(rows: map<nat, T>, key: T -> int): nat -> int
  {
    i => if i in rows then key(rows[i]) else 0
  }

  /** `where(...)->latest()->get()`: the matching rows' ids, newest first. */
  function Latest<T>(rows: map<nat, T>, bound: nat, keep: T -> bool, created: T -> int): (r: seq<nat>)
    ensures forall i: nat :: i in r <==> i < bound && i in rows && keep(rows[i])
    ensures Sorting.SortedDesc(r, RowKey(rows, created))
    ensures Sorting.Distinct(r)
  {
    var ids := IdsWhere(bound, i => i in rows && keep(rows[i]));
    var sorted := Sorting.SortDesc(ids, RowKey(rows, created));
    Sorting.PermutationKeepsDistinct(ids, sorted);
    assert forall i: nat :: i in sorted <==> i in ids by {
      forall i: nat ensures i in sorted <==> i in ids {
        assert i in sorted <==> i in multiset(sorted);
        assert i in ids <==> i in multiset(ids);
      }
    }
    sorted
  }

  function DonationCreated(d: D.Donation): int { d.createdAt }

  function ClaimCreated(c: C.Claim): int { c.createdAt }

  /** The public listing's filter: available and not yet expired. */
  predicate Listed(d: D.Donation, now: int)
  {
    d.status == D.Available && (d.expiresAt.None? || d.expiresAt.value > now)
  }

  /** `Claim::where('donation_id', ...)->where('volunteer_id', ...)->first()` finds a row. */
  predicate ClaimedBy(rows: map<C.Id, C.Claim>, donation: D.Id, volunteer: nat)
  {
    exists id :: id in rows && rows[id].donationId == donation && rows[id].volunteerId == volunteer
  }

  // ---- the store's invariant ----

  /**
   * The statuses this API ever writes to a donation, and the code each
   * carries: available rows have no code, reserved rows the six-digit code
   * handed out when they were claimed.
   */
  predicate Lifecycle(d: D.Donation)
  {
    && d.deliveryCode.None?
    && ((d.status == D.Available && d.pickupCode.None?)
        || (d.status == D.Reserved && d.pickupCode.Some? && D.IsPickupCode(d.pickupCode.value)))
  }

  ghost predicate Consistent(donations: map<D.Id, D.Donation>, claims: map<C.Id, C.Claim>, nextDonation: nat, nextClaim: nat)
  {
    && (forall id :: id in donations ==> id < nextDonation)
    && (forall id :: id in claims ==> id < nextClaim)
    && (forall id :: id in donations ==> D.FitsColumns(donations[id]) && Lifecycle(donations[id]))
    && (forall id :: id in claims ==> claims[id].donationId in donations && donations[claims[id].donationId].status == D.Reserved)
    && C.UniqueDonation(claims)
  }

  /** A donation that has left `available` keeps its status and its code. */
  ghost predicate StatusesKept(before: map<D.Id, D.Donation>, after: map<D.Id, D.Donation>)
  {
    forall id :: id in before && id in after && before[id].status != D.Available ==>
      after[id].status == before[id].status && after[id].pickupCode == before[id].pickupCode
  }

  /** Under the invariant, an available donation has no claim row at all. */
  lemma AvailableIsUnclaimed(donations: map<D.Id, D.Donation>, claims: map<C.Id, C.Claim>, nd: nat, nc: nat, id: D.Id)
    requires Consistent(donations, claims, nd, nc)
    requires id in donations && donations[id].status == D.Available
    ensures !C.HasClaimFor(claims, id)
    ensures forall v :: !ClaimedBy(claims, id, v)
  {
  }

  /** Reserving an available, unclaimed donation and inserting its claim keeps the invariant. */
  lemma ReserveKeepsConsistent(donations: map<D.Id, D.Donation>, claims: map<C.Id, C.Claim>, nd: nat, nc: nat,
                               id: D.Id, code: string, row: C.Claim)
    requires Consistent(donations, claims, nd, nc)
    requires id in donations && donations[id].status == D.Available && !C.HasClaimFor(claims, id)
    requires D.IsPickupCode(code) && row.donationId == id
    ensures Consistent(donations[id := donations[id].(status := D.Reserved, pickupCode := Some(code))],
                       claims[nc := row], nd, nc + 1)
    ensures StatusesKept(donations, donations[id := donations[id].(status := D.Reserved, pickupCode := Some(code))])
  {
    C.InsertKeepsUnique(claims, nc, row);
  }

  /** Rewriting a claim row without moving it to another donation keeps the invariant. */
  lemma ClaimRowKeepsConsistent(donations: map<D.Id, D.Donation>, claims: map<C.Id, C.Claim>, nd: nat, nc: nat,
                                cid: C.Id, c: C.Claim)
    requires Consistent(donations, claims, nd, nc)
    requires cid in claims && c.donationId == claims[cid].donationId
    ensures Consistent(donations, claims[cid := c], nd, nc)
  {
  }

  /** Adding a fresh row that fits its columns and starts available keeps the invariant. */
  lemma InsertDonationKeepsConsistent(donations: map<D.Id, D.Donation>, claims: map<C.Id, C.Claim>, nd: nat, nc: nat,
                                      d: D.Donation)
    requires Consistent(donations, claims, nd, nc)
    requires D.FitsColumns(d) && Lifecycle(d)
    ensures Consistent(donations[nd := d], claims, nd + 1, nc)
    ensures StatusesKept(donations, donations[nd := d])
  {
  }

  /** Rewriting an available donation into a row that fits and is still available keeps the invariant. */
  lemma UpdateKeepsConsistent(donations: map<D.Id, D.Donation>, claims: map<C.Id, C.Claim>, nd: nat, nc: nat,
                              id: D.Id, u: D.Donation)
    requires Consistent(donations, claims, nd, nc)
    requires id in donations && donations[id].status == D.Available
    requires u.status == D.Available && D.FitsColumns(u) && Lifecycle(u)
    ensures Consistent(donations[id := u], claims, nd, nc)
    ensures StatusesKept(donations, donations[id := u])
  {
  }

  /** The row an accepted store request inserts fits its columns and starts available. */
  lemma AcceptedRowFits(donor: nat, title: R.Input, description: R.Input, quantity: R.Input, latitude: R.Input,
                        longitude: R.Input, expiresAt: R.Input, now: int)
    requires R.StoreErrors(title, description, quantity, latitude, longitude, expiresAt, now) == {}
    ensures title.Str? && R.IsNumeric(quantity) && R.IsNumeric(latitude) && R.IsNumeric(longitude)
    ensures D.FitsColumns(D.NewRow(donor, title.s, OptionalText(description), R.NumberOf(quantity),
                                   R.NumberOf(latitude), R.NumberOf(longitude), OptionalDate(expiresAt), now))
    ensures Lifecycle(D.NewRow(donor, title.s, OptionalText(description), R.NumberOf(quantity),
                               R.NumberOf(latitude), R.NumberOf(longitude), OptionalDate(expiresAt), now))
  {
    R.StoreAcceptsOnlyInRange(title, description, quantity, latitude, longitude, expiresAt, now);
  }

  /**
   * A code the claim issued, sent back as the string it was given out as,
   * passes `required|string|size:6` and compares equal to the stored code,
   * whatever `numeric` would read in it.
   */
  lemma IssuedCodeAccepted(code: string, numeric: Option<int>, date: Option<int>)
    requires D.IsPickupCode(code)
    ensures R.PickupCodeOk(R.Prepare(R.Str(code, numeric, date)))
    ensures R.Prepare(R.Str(code, numeric, date)).s == code
  {
    Text.PhpTrimNoOp(code);
  }

  // ---- request payload helpers ----

  /** `$validated['x'] ?? null` for a nullable string field. */
  function OptionalText(v: R.Input): (r: Option<string>)
    ensures r.Some? <==> v.Str?
    ensures v.Str? ==> r.value == v.s
  {
    if v.Str? then Some(v.s) else None
  }

  /** `$validated['x'] ?? null` for a nullable date field. */
  function OptionalDate(v: R.Input): (r: Option<int>)
    ensures r.Some? <==> R.IsDate(v)
    ensures R.IsDate(v) ==> r == v.date
  {
    if R.IsDate(v) then v.date else None
  }

  /**
   * `$donation->update($validated)` where `$validated` holds only the keys
   * that were present: exactly those of title, description, quantity_kg and
   * expires_at change, and no other column.
   */
  function ApplyUpdate(d: D.Donation, title: R.Input, description: R.Input, quantity: R.Input, expiresAt: R.Input): (u: D.Donation)
    ensures u.donorId == d.donorId && u.status == d.status && u.pickupCode == d.pickupCode
    ensures u.deliveryCode == d.deliveryCode && u.latitudeE7 == d.latitudeE7 && u.longitudeE7 == d.longitudeE7
    ensures u.createdAt == d.createdAt && u.updatedAt == d.updatedAt
    ensures u.title == (if title.Str? then title.s else d.title)
    ensures u.description == (if description.Absent? then d.description else OptionalText(description))
    ensures u.quantityHundredths == (if R.IsNumeric(quantity) then R.NumberOf(quantity) else d.quantityHundredths)
    ensures u.expiresAt == (if expiresAt.Absent? then d.expiresAt else OptionalDate(expiresAt))
  {
    d.(title := if title.Str? then title.s else d.title,
       description := if description.Absent? then d.description else OptionalText(description),
       quantityHundredths := if R.IsNumeric(quantity) then R.NumberOf(quantity) else d.quantityHundredths,
       expiresAt := if expiresAt.Absent? then d.expiresAt else OptionalDate(expiresAt))
  }

  /** What `$request->validate(...)` leaves a controller with: the error bag, or the row to write. */
  datatype Validated = Rejected(errors: set<string>) | Accepted(row: D.Donation)

  /**
   * The store request as sent, prepared by the middleware and validated:
   * rejected with the failing keys, or the row `Donation::create` inserts
   * for this donor, which fits its columns and starts available.
   */
  function ValidateStore(donor: nat, title: R.Input, description: R.Input, quantity: R.Input, latitude: R.Input,
                         longitude: R.Input, expiresAt: R.Input, now: int): (v: Validated)
    ensures
      var t, de, q := R.Prepare(title), R.Prepare(description), R.Prepare(quantity);
      var la, lo, ex := R.Prepare(latitude), R.Prepare(longitude), R.Prepare(expiresAt);
      var errors := R.StoreErrors(t, de, q, la, lo, ex, now);
      && (v.Rejected? <==> errors != {})
      && (v.Rejected? ==> v.errors == errors)
      && (v.Accepted? ==> v.row == D.NewRow(donor, t.s, OptionalText(de), R.NumberOf(q), R.NumberOf(la),
                                             R.NumberOf(lo), OptionalDate(ex), now))
    ensures v.Accepted? ==> D.FitsColumns(v.row) && Lifecycle(v.row)
  {
    var t, de, q := R.Prepare(title), R.Prepare(description), R.Prepare(quantity);
    var la, lo, ex := R.Prepare(latitude), R.Prepare(longitude), R.Prepare(expiresAt);
    var errors := R.StoreErrors(t, de, q, la, lo, ex, now);
    if errors != {} then Rejected(errors)
    else
      AcceptedRowFits(donor, t, de, q, la, lo, ex, now);
      Accepted(D.NewRow(donor, t.s, OptionalText(de), R.NumberOf(q), R.NumberOf(la), R.NumberOf(lo),
                        OptionalDate(ex), now))
  }

  /**
   * The update request as sent, prepared and validated against donation
   * `d`: rejected with the failing keys, or `d` with the sent columns
   * changed, which still fits its columns and keeps its status and code.
   */
  function ValidateUpdate(d: D.Donation, title: R.Input, description: R.Input, quantity: R.Input,
                          expiresAt: R.Input, now: int): (v: Validated)
    ensures
      var t, de, q, ex := R.Prepare(title), R.Prepare(description), R.Prepare(quantity), R.Prepare(expiresAt);
      var errors := R.UpdateErrors(t, de, q, ex, now);
      && (v.Rejected? <==> errors != {})
      && (v.Rejected? ==> v.errors == errors)
      && (v.Accepted? ==> v.row == ApplyUpdate(d, t, de, q, ex))
    ensures v.Accepted? && D.FitsColumns(d) && Lifecycle(d) ==> D.FitsColumns(v.row) && Lifecycle(v.row)
  {
    var t, de, q, ex := R.Prepare(title), R.Prepare(description), R.Prepare(quantity), R.Prepare(expiresAt);
    var errors := R.UpdateErrors(t, de, q, ex, now);
    if errors != {} then Rejected(errors) else Accepted(ApplyUpdate(d, t, de, q, ex))
  }

  class Backend {
    var donations: map<D.Id, D.Donation>
    var claims: map<C.Id, C.Claim>
    /** `users.impact_score`; a user without an entry has 0. */
    var scores: map<nat, int>
    /** Dispatched ProcessImpactScore jobs, oldest first. */
    var jobs: seq<ImpactScore.Job>
    var notices: seq<Notice>
    var nextDonationId: nat
    var nextClaimId: nat

    ghost predicate Valid()
      reads this
    {
      Consistent(donations, claims, nextDonationId, nextClaimId)
    }

    constructor ()
      ensures Valid()
      ensures donations == map[] && claims == map[] && scores == map[] && jobs == [] && notices == []
    {
      donations, claims, scores, jobs, notices := map[], map[], map[], [], [];
      nextDonationId, nextClaimId := 0, 0;
    }

    function Score(user: nat): int
      reads this
    {
      if user in scores then scores[user] else 0
    }

    /** DonationController::index. */
    function Index(now: int): (r: seq<D.Id>)
      reads this
      requires Valid()
      ensures forall id :: id in r <==> id in donations && Listed(donations[id], now)
      ensures Sorting.SortedDesc(r, RowKey(donations, DonationCreated))
      ensures Sorting.Distinct(r)
    {
      Latest(donations, nextDonationId, (d: D.Donation) => Listed(d, now), DonationCreated)
    }

    /** DonationController::myDonations. */
    function MyDonations(caller: Caller): (r: seq<D.Id>)
      reads this
      requires Valid()
      ensures forall id :: id in r <==> id in donations && donations[id].donorId == caller.id
      ensures Sorting.SortedDesc(r, RowKey(donations, DonationCreated))
      ensures Sorting.Distinct(r)
    {
      Latest(donations, nextDonationId, (d: D.Donation) => d.donorId == caller.id, DonationCreated)
    }

    /** ClaimController::index. */
    function ClaimIndex(caller: Caller): (r: seq<C.Id>)
      reads this
      requires Valid()
      ensures forall id :: id in r <==> id in claims && claims[id].volunteerId == caller.id
      ensures Sorting.SortedDesc(r, RowKey(claims, ClaimCreated))
      ensures Sorting.Distinct(r)
    {
      Latest(claims, nextClaimId, (c: C.Claim) => c.volunteerId == caller.id, ClaimCreated)
    }

    /**
     * DonationController::store, on the request as sent; the controller sees
     * each value as the global middleware prepared it.
     */
    method StoreDonation(caller: Caller, title: R.Input, description: R.Input, quantity: R.Input,
                         latitude: R.Input, longitude: R.Input, expiresAt: R.Input, now: int)
      returns (r: Reply)
      requires Valid()
      modifies this
      ensures Valid()
      ensures StatusesKept(old(donations), donations)
      ensures !HasRole(caller, "donor") ==> r == Refused(403, "Only donors can create donations") && unchanged(this)
      ensures HasRole(caller, "donor") ==>
        match ValidateStore(caller.id, title, description, quantity, latitude, longitude, expiresAt, now)
        case Rejected(errors) => r == Invalid(errors) && unchanged(this)
        case Accepted(row) =>
          && r == Resource(201, old(nextDonationId))
          && donations == old(donations)[old(nextDonationId) := row]
          && nextDonationId == old(nextDonationId) + 1
          && claims == old(claims) && nextClaimId == old(nextClaimId)
          && scores == old(scores) && jobs == old(jobs) && notices == old(notices)
    {
      if !HasRole(caller, "donor") {
        return Refused(403, "Only donors can create donations");
      }
      var v := ValidateStore(caller.id, title, description, quantity, latitude, longitude, expiresAt, now);
      if v.Rejected? {
        return Invalid(v.errors);
      }
      var id := nextDonationId;
      Insert(v.row);
      return Resource(201, id);
    }

    /** The write of an accepted store request: one row under the next id, nothing else changed. */
    method Insert(row: D.Donation)
      requires Valid()
      requires D.FitsColumns(row) && Lifecycle(row)
      modifies this
      ensures Valid()
      ensures StatusesKept(old(donations), donations)
      ensures donations == old(donations)[old(nextDonationId) := row] && nextDonationId == old(nextDonationId) + 1
      ensures claims == old(claims) && nextClaimId == old(nextClaimId)
      ensures scores == old(scores) && jobs == old(jobs) && notices == old(notices)
    {
      InsertDonationKeepsConsistent(donations, claims, nextDonationId, nextClaimId, row);
      donations := donations[nextDonationId := row];
      nextDonationId := nextDonationId + 1;
    }

    /** DonationController::claim, with `code` the value `Donation::generateCode` returned. */
    method ClaimDonation(caller: Caller, id: D.Id, code: string, fault: Fault, debug: bool, now: int)
      returns (r: Reply)
      requires Valid()
      requires D.IsPickupCode(code)
      modifies this
      ensures Valid()
      ensures StatusesKept(old(donations), donations)
      ensures scores == old(scores) && nextDonationId == old(nextDonationId)
      ensures id !in old(donations) ==> r == Missing && unchanged(this)
      ensures id in old(donations) && !HasRole(caller, "volunteer") ==>
        r == Refused(403, "Only volunteers can claim donations") && unchanged(this)
      ensures id in old(donations) && HasRole(caller, "volunteer") && old(donations[id].status) != D.Available ==>
        r == Refused(409, "This donation is no longer available") && unchanged(this)
      ensures id in old(donations) && HasRole(caller, "volunteer") && old(donations[id].status) == D.Available ==>
        var d := old(donations[id]);
        match fault
        case BeforeCommit(m) =>
          r == Failed(if debug then Some(m) else None) && unchanged(this)
        case _ =>
          && donations == old(donations)[id := d.(status := D.Reserved, pickupCode := Some(code))]
          && claims == old(claims)[old(nextClaimId) := C.NewRow(id, caller.id, now)]
          && nextClaimId == old(nextClaimId) + 1
          && (fault.AfterCommit? ==>
                r == Failed(if debug then Some(fault.message) else None)
                && jobs == old(jobs) && notices == old(notices))
          && (fault.AfterNotify? ==>
                r == Failed(if debug then Some(fault.message) else None)
                && jobs == old(jobs) && notices == old(notices) + [DonationClaimed(d.donorId, id, caller.id)])
          && (fault.AfterDispatch? ==>
                r == Failed(if debug then Some(fault.message) else None)
                && notices == old(notices) + [DonationClaimed(d.donorId, id, caller.id)]
                && jobs == old(jobs) + [ImpactScore.Job(caller.id, d.quantityHundredths, "claim")])
          && (fault.NoFault? ==>
                r == Granted(id, code)
                && notices == old(notices) + [DonationClaimed(d.donorId, id, caller.id)]
                && jobs == old(jobs) + [ImpactScore.Job(caller.id, d.quantityHundredths, "claim")])
    {
      if id !in donations {
        return Missing;
      }
      if !HasRole(caller, "volunteer") {
        return Refused(403, "Only volunteers can claim donations");
      }
      var d := donations[id];
      if d.status != D.Available {
        return Refused(409, "This donation is no longer available");
      }
      AvailableIsUnclaimed(donations, claims, nextDonationId, nextClaimId, id);
      if ClaimedBy(claims, id, caller.id) {
        return Refused(409, "You have already claimed this donation");
      }
      if fault.BeforeCommit? {
        return Failed(if debug then Some(fault.message) else None);
      }
      if C.HasClaimFor(claims, id) {
        // the insert below would violate the unique index: rolled back
        return Failed(if debug then Some(UniqueViolation) else None);
      }
      Reserve(id, code, C.NewRow(id, caller.id, now));
      if fault.AfterCommit? {
        return Failed(if debug then Some(fault.message) else None);
      }
      notices := notices + [DonationClaimed(d.donorId, id, caller.id)];
      if fault.AfterNotify? {
        return Failed(if debug then Some(fault.message) else None);
      }
      jobs := jobs + [ImpactScore.NewJob(caller.id, d.quantityHundredths, Some("claim"))];
      if fault.AfterDispatch? {
        return Failed(if debug then Some(fault.message) else None);
      }
      return Granted(id, code);
    }

    /** The writes of a successful claim transaction: the donation reserved with its code, one claim row inserted. */
    method Reserve(id: D.Id, code: string, row: C.Claim)
      requires Valid()
      requires id in donations && donations[id].status == D.Available && !C.HasClaimFor(claims, id)
      requires D.IsPickupCode(code) && row.donationId == id
      modifies this
      ensures Valid()
      ensures StatusesKept(old(donations), donations)
      ensures donations == old(donations)[id := old(donations[id]).(status := D.Reserved, pickupCode := Some(code))]
      ensures claims == old(claims)[old(nextClaimId) := row] && nextClaimId == old(nextClaimId) + 1
      ensures scores == old(scores) && jobs == old(jobs) && notices == old(notices)
      ensures nextDonationId == old(nextDonationId)
    {
      ReserveKeepsConsistent(donations, claims, nextDonationId, nextClaimId, id, code, row);
      donations := donations[id := donations[id].(status := D.Reserved, pickupCode := Some(code))];
      claims := claims[nextClaimId := row];
      nextClaimId := nextClaimId + 1;
    }

    /** DonationController::update, on the request as sent, prepared by the global middleware. */
    method UpdateDonation(caller: Caller, id: D.Id, title: R.Input, description: R.Input,
                          quantity: R.Input, expiresAt: R.Input, now: int)
      returns (r: Reply)
      requires Valid()
      modifies this
      ensures Valid()
      ensures StatusesKept(old(donations), donations)
      ensures claims == old(claims) && scores == old(scores) && jobs == old(jobs) && notices == old(notices)
      ensures nextDonationId == old(nextDonationId) && nextClaimId == old(nextClaimId)
      ensures id !in old(donations) ==> r == Missing && unchanged(this)
      ensures id in old(donations) && old(donations[id].donorId) != caller.id ==>
        r == Refused(403, "Unauthorized") && unchanged(this)
      ensures id in old(donations) && old(donations[id].donorId) == caller.id && old(donations[id].status) != D.Available ==>
        r == Refused(409, "Cannot update donation that has already been claimed") && unchanged(this)
      ensures id in old(donations) && old(donations[id].donorId) == caller.id && old(donations[id].status) == D.Available ==>
        match ValidateUpdate(old(donations[id]), title, description, quantity, expiresAt, now)
        case Rejected(errors) => r == Invalid(errors) && unchanged(this)
        case Accepted(row) => r == Resource(200, id) && donations == old(donations)[id := row]
    {
      if id !in donations {
        return Missing;
      }
      var d := donations[id];
      if d.donorId != caller.id {
        return Refused(403, "Unauthorized");
      }
      if d.status != D.Available {
        return Refused(409, "Cannot update donation that has already been claimed");
      }
      var v := ValidateUpdate(d, title, description, quantity, expiresAt, now);
      if v.Rejected? {
        return Invalid(v.errors);
      }
      Rewrite(id, v.row);
      return Resource(200, id);
    }

    /** The write of an accepted update: that donation's row replaced, nothing else changed. */
    method Rewrite(id: D.Id, u: D.Donation)
      requires Valid()
      requires id in donations && donations[id].status == D.Available
      requires u.status == D.Available && D.FitsColumns(u) && Lifecycle(u)
      modifies this
      ensures Valid()
      ensures StatusesKept(old(donations), donations)
      ensures donations == old(donations)[id := u]
      ensures claims == old(claims) && scores == old(scores) && jobs == old(jobs) && notices == old(notices)
      ensures nextDonationId == old(nextDonationId) && nextClaimId == old(nextClaimId)
    {
      UpdateKeepsConsistent(donations, claims, nextDonationId, nextClaimId, id, u);
      donations := donations[id := u];
    }

    /** DonationController::destroy; the claims cascade has nothing to remove for an available donation. */
    method DestroyDonation(caller: Caller, id: D.Id) returns (r: Reply)
      requires Valid()
      modifies this
      ensures Valid()
      ensures StatusesKept(old(donations), donations)
      ensures claims == old(claims) && scores == old(scores) && jobs == old(jobs) && notices == old(notices)
      ensures nextDonationId == old(nextDonationId) && nextClaimId == old(nextClaimId)
      ensures id !in old(donations) ==> r == Missing && unchanged(this)
      ensures id in old(donations) && old(donations[id].donorId) != caller.id ==>
        r == Refused(403, "Unauthorized") && unchanged(this)
      ensures id in old(donations) && old(donations[id].donorId) == caller.id && old(donations[id].status) != D.Available ==>
        r == Refused(409, "Cannot delete donation that has been claimed") && unchanged(this)
      ensures id in old(donations) && old(donations[id].donorId) == caller.id && old(donations[id].status) == D.Available ==>
        r == Message(200, "Donation deleted successfully") && donations == old(donations) - {id}
    {
      if id !in donations {
        return Missing;
      }
      var d := donations[id];
      if d.donorId != caller.id {
        return Refused(403, "Unauthorized");
      }
      if d.status != D.Available {
        return Refused(409, "Cannot delete donation that has been claimed");
      }
      AvailableIsUnclaimed(donations, claims, nextDonationId, nextClaimId, id);
      var remaining := donations - {id};
      var kept := C.CascadeDelete(claims, remaining.Keys, None);
      assert kept == claims;
      donations, claims := remaining, kept;
      return Message(200, "Donation deleted successfully");
    }

    /** ClaimController::markPickedUp; the code is compared as the middleware trimmed it. */
    method MarkPickedUp(caller: Caller, claimId: C.Id, code: R.Input, now: int) returns (r: Reply)
      requires Valid()
      modifies this
      ensures Valid()
      ensures donations == old(donations) && scores == old(scores) && jobs == old(jobs) && notices == old(notices)
      ensures nextDonationId == old(nextDonationId) && nextClaimId == old(nextClaimId)
      ensures claimId !in old(claims) ==> r == Missing && unchanged(this)
      ensures claimId in old(claims) ==>
        var c := old(claims[claimId]);
        if c.volunteerId != caller.id then r == Refused(403, "Unauthorized") && unchanged(this)
        else if c.status != C.Active then r == Refused(409, "This claim cannot be marked as picked up") && unchanged(this)
        else if !R.PickupCodeOk(R.Prepare(code)) then r == Invalid({"pickup_code"}) && unchanged(this)
        else if old(donations[c.donationId].pickupCode) != Some(R.Prepare(code).s) then
          r == Refused(422, "Invalid pickup code") && unchanged(this)
        else (r == Message(200, "Marked as picked up successfully")
          && claims == old(claims)[claimId := c.(status := C.PickedUp, pickedUpAt := Some(now))])
    {
      if claimId !in claims {
        return Missing;
      }
      var c := claims[claimId];
      if c.volunteerId != caller.id {
        return Refused(403, "Unauthorized");
      }
      if c.status != C.Active {
        return Refused(409, "This claim cannot be marked as picked up");
      }
      var sent := R.Prepare(code);
      if !R.PickupCodeOk(sent) {
        return Invalid({"pickup_code"});
      }
      if donations[c.donationId].pickupCode != Some(sent.s) {
        return Refused(422, "Invalid pickup code");
      }
      ClaimRowKeepsConsistent(donations, claims, nextDonationId, nextClaimId, claimId,
                              c.(status := C.PickedUp, pickedUpAt := Some(now)));
      claims := claims[claimId := c.(status := C.PickedUp, pickedUpAt := Some(now))];
      return Message(200, "Marked as picked up successfully");
    }

    /** ClaimController::markDelivered; blank notes reach the controller as null and leave the old notes. */
    method MarkDelivered(caller: Caller, claimId: C.Id, notes: R.Input, now: int) returns (r: Reply)
      requires Valid()
      modifies this
      ensures Valid()
      ensures donations == old(donations) && scores == old(scores)
      ensures nextDonationId == old(nextDonationId) && nextClaimId == old(nextClaimId)
      ensures claimId !in old(claims) ==> r == Missing && unchanged(this)
      ensures claimId in old(claims) ==>
        var c := old(claims[claimId]);
        if c.volunteerId != caller.id then r == Refused(403, "Unauthorized") && unchanged(this)
        else if c.status != C.PickedUp then
          r == Refused(409, "Donation must be picked up before marking as delivered") && unchanged(this)
        else if !R.NotesOk(R.Prepare(notes)) then r == Invalid({"notes"}) && unchanged(this)
        else
          var d, n := old(donations[c.donationId]), R.Prepare(notes);
          && r == Message(200, "Marked as delivered successfully! Thank you for your service.")
          && claims == old(claims)[claimId := c.(notes := if n.Str? then Some(n.s) else c.notes,
                                                 status := C.Delivered, deliveredAt := Some(now))]
          && notices == old(notices) + [DonationDelivered(d.donorId, c.donationId, caller.id)]
          && jobs == old(jobs) + [ImpactScore.Job(caller.id, d.quantityHundredths, "delivery"),
                                  ImpactScore.Job(d.donorId, d.quantityHundredths, "donation")]
    {
      if claimId !in claims {
        return Missing;
      }
      var c := claims[claimId];
      if c.volunteerId != caller.id {
        return Refused(403, "Unauthorized");
      }
      if c.status != C.PickedUp {
        return Refused(409, "Donation must be picked up before marking as delivered");
      }
      var n := R.Prepare(notes);
      if !R.NotesOk(n) {
        return Invalid({"notes"});
      }
      if n.Str? {
        c := c.(notes := Some(n.s));
      }
      c := c.(status := C.Delivered, deliveredAt := Some(now));
      ClaimRowKeepsConsistent(donations, claims, nextDonationId, nextClaimId, claimId, c);
      claims := claims[claimId := c];
      var d := donations[c.donationId];
      notices := notices + [DonationDelivered(d.donorId, c.donationId, caller.id)];
      jobs := jobs + [ImpactScore.NewJob(caller.id, d.quantityHundredths, Some("delivery")),
                      ImpactScore.NewJob(d.donorId, d.quantityHundredths, Some("donation"))];
      return Message(200, "Marked as delivered successfully! Thank you for your service.");
    }

    /** ClaimController::cancel: the donation is left as it is. */
    method CancelClaim(caller: Caller, claimId: C.Id) returns (r: Reply)
      requires Valid()
      modifies this
      ensures Valid()
      ensures donations == old(donations) && scores == old(scores) && jobs == old(jobs) && notices == old(notices)
      ensures nextDonationId == old(nextDonationId) && nextClaimId == old(nextClaimId)
      ensures claimId !in old(claims) ==> r == Missing && unchanged(this)
      ensures claimId in old(claims) ==>
        var c := old(claims[claimId]);
        if c.volunteerId != caller.id then r == Refused(403, "Unauthorized") && unchanged(this)
        else if c.status != C.Active && c.status != C.PickedUp then
          r == Refused(409, "This claim cannot be cancelled") && unchanged(this)
        else (r == Message(200, "Claim cancelled successfully")
          && claims == old(claims)[claimId := c.(status := C.Cancelled)])
    {
      if claimId !in claims {
        return Missing;
      }
      var c := claims[claimId];
      if c.volunteerId != caller.id {
        return Refused(403, "Unauthorized");
      }
      if c.status != C.Active && c.status != C.PickedUp {
        return Refused(409, "This claim cannot be cancelled");
      }
      ClaimRowKeepsConsistent(donations, claims, nextDonationId, nextClaimId, claimId, c.(status := C.Cancelled));
      claims := claims[claimId := c.(status := C.Cancelled)];
      return Message(200, "Claim cancelled successfully");
    }

    /** A queue worker runs the oldest ProcessImpactScore job once. */
    method RunNextJob()
      requires Valid()
      modifies this
      ensures Valid()
      ensures donations == old(donations) && claims == old(claims) && notices == old(notices)
      ensures nextDonationId == old(nextDonationId) && nextClaimId == old(nextClaimId)
      ensures old(jobs) == [] ==> unchanged(this)
      ensures old(jobs) != [] ==>
        var j := old(jobs[0]);
        && jobs == old(jobs[1..])
        && scores == old(scores)[j.userId := old(Score(j.userId)) + ImpactScore.Points(j.quantityHundredths, j.action)]
    {
      if jobs == [] {
        return;
      }
      var j := jobs[0];
      scores := scores[j.userId := Score(j.userId) + ImpactScore.Points(j.quantityHundredths, j.action)];
      jobs := jobs[1..];
    }
  }

  /**
   * Two volunteers race for one available donation: the first claim wins
   * and the second, arriving after it, is refused with 409.
   */
  method SecondClaimFails(b: Backend, first: Caller, second: Caller, id: D.Id, code1: string, code2: string, now: int)
    returns (r1: Reply, r2: Reply)
    requires b.Valid()
    requires id in b.donations && b.donations[id].status == D.Available
    requires HasRole(first, "volunteer") && HasRole(second, "volunteer")
    requires D.IsPickupCode(code1) && D.IsPickupCode(code2)
    modifies b
    ensures b.Valid()
    ensures r1 == Granted(id, code1)
    ensures r2 == Refused(409, "This donation is no longer available") && StatusCode(r2) == 409
    ensures id in b.donations && b.donations[id].pickupCode == Some(code1)
  {
    r1 := b.ClaimDonation(first, id, code1, NoFault, false, now);
    r2 := b.ClaimDonation(second, id, code2, NoFault, false, now);
  }
}
