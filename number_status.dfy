/**
 * The number lifecycle: a status write and the fields derived from it. Any status
 * may follow any other; there is no forbidden transition.
 */
module NumberLifecycle {
  import opened Wrappers
  import opened Calendar
  import opened Schema

  /** The statuses that hand a number back to the pool and drop its rental. */
  predicate ReleasesNumber(s: NumberStatus) {
    s == ReturnedToQueue || s == Cancelled
  }

  /** The row after its status is set to s at time now. */
  function WithStatus(n: NumberRow, s: NumberStatus, now: Timestamp): (r: NumberRow)
    ensures r.status == s && r.updatedAt == now
    ensures r.completedAt.Some? <==> s == Completed
    ensures s == Completed ==> r.completedAt == Some(now)
    ensures ReleasesNumber(s) ==> r.buyerId.None? && r.rentedAt.None?
    ensures !ReleasesNumber(s) ==> r.buyerId == n.buyerId && r.rentedAt == n.rentedAt
    ensures r.id == n.id && r.phoneNumber == n.phoneNumber && r.country == n.country
    ensures r.numberType == n.numberType && r.sellerId == n.sellerId
    ensures r.price == n.price && r.createdAt == n.createdAt
  {
    n.(status := s,
       updatedAt := now,
       completedAt := if s == Completed then Some(now) else None,
       buyerId := if ReleasesNumber(s) then None else n.buyerId,
       rentedAt := if ReleasesNumber(s) then None else n.rentedAt)
  }

  /** Writing a status twice gives what writing it once gives, timestamps aside. */
  lemma WithStatusIdempotent(n: NumberRow, s: NumberStatus, t1: Timestamp, t2: Timestamp)
    ensures WithStatus(WithStatus(n, s, t1), s, t2) == WithStatus(n, s, t2)
  {
  }

  /** The outcome does not depend on the status the number had before. */
  lemma WithStatusIgnoresPriorStatus(n: NumberRow, prior: NumberStatus, s: NumberStatus, now: Timestamp)
    ensures WithStatus(n.(status := prior), s, now) == WithStatus(n, s, now)
  {
  }
}
