/**
 * The ProcessImpactScore job: points credited to a user for an action on a
 * quantity of food. Quantities are in hundredths of a kilogram, so
 * `ceil(quantityKg * multiplier)` is a ceiling division by 100.
 */
module ImpactScore {
  import opened Wrappers

  /** The constructor's default for `action`. */
  const DefaultAction: string := "delivery"

  /** Two points per kilogram for a delivery, one for anything else. */
  function Multiplier(action: string): (m: int)
    ensures m == 2 <==> action == "delivery"
    ensures action != "delivery" ==> m == 1
  {
    if action == "delivery" then 2 else 1
  }

  /** The smallest integer n with 100 * n >= x. */
  function CeilDiv100(x: int): (n: int)
    ensures 100 * n >= x && 100 * n < x + 100
  {
    -((-x) / 100)
  }

  /** `(int) ceil($quantityKg * $multiplier)`. */
  function Points(quantityHundredths: int, action: string): (p: int)
    ensures 100 * p >= quantityHundredths * Multiplier(action)
    ensures 100 * p < quantityHundredths * Multiplier(action) + 100
  {
    CeilDiv100(quantityHundredths * Multiplier(action))
  }

  /** Any positive quantity earns at least one point. */
  lemma PositiveQuantityEarnsPoint(q: int, action: string)
    requires q > 0
    ensures Points(q, action) >= 1
  {
  }

  /** More food never earns fewer points. */
  lemma PointsMonotone(q1: int, q2: int, action: string)
    requires q1 <= q2
    ensures Points(q1, action) <= Points(q2, action)
  {
    var m := Multiplier(action);
    assert q1 * m <= q2 * m by {
      if m == 2 { assert q1 * 2 <= q2 * 2; } else { assert m == 1; }
    }
  }

  /** 10.5 kg: 21 points for the courier's delivery, 11 for the donor's donation. */
  lemma ScenarioPoints()
    ensures Points(1050, "delivery") == 21
    ensures Points(1050, "donation") == 11
    ensures Points(1050, "claim") == 11
  {
  }

  /** A queued ProcessImpactScore job. */
  datatype Job = Job(userId: nat, quantityHundredths: int, action: string)

  /** `new ProcessImpactScore($user, $quantityKg, $action)` with `$action` optional. */
  function NewJob(userId: nat, quantityHundredths: int, action: Option<string>): (j: Job)
    ensures action.None? ==> j.action == "delivery"
    ensures action.Some? ==> j.action == action.value
    ensures j.userId == userId && j.quantityHundredths == quantityHundredths
  {
    Job(userId, quantityHundredths, action.GetOr(DefaultAction))
  }
}
