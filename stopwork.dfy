/**
 * Stopwork: the numbers a buyer holds in the accepted state are put back in the
 * queue, and the buyer is banned with a fixed reason.
 */
module Stopwork {
  import opened Wrappers
  import opened Calendar
  import opened Schema
  import NumberLifecycle

  const STOPWORK_REASON: string := "Stopwork applied - automatic ban to prevent future rentals"

  /** What the operation reports. A failure changes nothing. */
  datatype StopworkMessage =
    | BuyerNotFound(id: int)
    | BuyerAlreadyBanned(id: int)
    | StopworkDone(id: int, reclaimed: nat)

  datatype StopworkReply = StopworkReply(success: bool, message: StopworkMessage)

  predicate HeldAccepted(n: NumberRow, buyerId: int) {
    n.buyerId == Some(buyerId) && n.status == Accepted
  }

  /** The ids of the numbers the buyer holds in the accepted state. */
  function AcceptedBy(numbers: map<int, NumberRow>, buyerId: int): (ks: set<int>)
    ensures forall k :: k in ks <==> k in numbers && HeldAccepted(numbers[k], buyerId)
  {
    set k | k in numbers && HeldAccepted(numbers[k], buyerId)
  }

  /** A number put back in the queue: only status, buyerId and updatedAt are written,
      so rentedAt and completedAt survive. */
  function Reclaimed(n: NumberRow, now: Timestamp): (r: NumberRow)
    ensures r.status == ReturnedToQueue && r.buyerId.None? && r.updatedAt == now
    ensures r.id == n.id && r.phoneNumber == n.phoneNumber && r.country == n.country
    ensures r.numberType == n.numberType && r.sellerId == n.sellerId && r.price == n.price
    ensures r.rentedAt == n.rentedAt && r.completedAt == n.completedAt && r.createdAt == n.createdAt
  {
    n.(status := ReturnedToQueue, buyerId := None, updatedAt := now)
  }

  /** The numbers table after the bulk update of the buyer's accepted numbers. */
  function ReclaimAll(numbers: map<int, NumberRow>, buyerId: int, now: Timestamp): (r: map<int, NumberRow>)
    ensures r.Keys == numbers.Keys
  {
    map k | k in numbers :: if HeldAccepted(numbers[k], buyerId) then Reclaimed(numbers[k], now) else numbers[k]
  }

  /** Afterwards the buyer holds no accepted number. */
  lemma NoAcceptedLeft(numbers: map<int, NumberRow>, buyerId: int, now: Timestamp)
    ensures AcceptedBy(ReclaimAll(numbers, buyerId, now), buyerId) == {}
  {
    var after := ReclaimAll(numbers, buyerId, now);
    forall k | k in after ensures !HeldAccepted(after[k], buyerId) {
    }
  }

  /** Exactly the buyer's accepted numbers change, each to `returned_to_queue` with no buyer
      and its rental time, seller and price kept; other statuses of the buyer and every
      other buyer's numbers stay as they were. */
  lemma ReclaimAllChangesExactlyAccepted(numbers: map<int, NumberRow>, buyerId: int, now: Timestamp)
    ensures forall k :: k in numbers ==>
      (ReclaimAll(numbers, buyerId, now)[k] != numbers[k] <==> k in AcceptedBy(numbers, buyerId))
    ensures forall k :: k in numbers && numbers[k].buyerId != Some(buyerId) ==> ReclaimAll(numbers, buyerId, now)[k] == numbers[k]
    ensures forall k :: k in numbers && numbers[k].status != Accepted ==> ReclaimAll(numbers, buyerId, now)[k] == numbers[k]
    ensures forall k :: k in AcceptedBy(numbers, buyerId) ==> ReclaimAll(numbers, buyerId, now)[k] == Reclaimed(numbers[k], now)
    ensures forall k :: k in AcceptedBy(numbers, buyerId) ==>
      var r := ReclaimAll(numbers, buyerId, now)[k];
      && r.status == ReturnedToQueue && r.buyerId.None? && r.updatedAt == now
      && r.rentedAt == numbers[k].rentedAt && r.completedAt == numbers[k].completedAt
      && r.sellerId == numbers[k].sellerId && r.price == numbers[k].price && r.phoneNumber == numbers[k].phoneNumber
  {
  }

  /** The count in the message is the number of rows the update changed. */
  lemma ReclaimedCountIsChangedCount(numbers: map<int, NumberRow>, buyerId: int, now: Timestamp)
    ensures |AcceptedBy(numbers, buyerId)| == |set k | k in numbers && ReclaimAll(numbers, buyerId, now)[k] != numbers[k]|
  {
    ReclaimAllChangesExactlyAccepted(numbers, buyerId, now);
    var after := ReclaimAll(numbers, buyerId, now);
    var changed := set k | k in numbers && after[k] != numbers[k];
    forall k ensures k in AcceptedBy(numbers, buyerId) <==> k in changed {
      if k in numbers {
        assert after[k] != numbers[k] <==> k in AcceptedBy(numbers, buyerId);
      }
    }
    assert AcceptedBy(numbers, buyerId) == changed;
  }

  /** The reclaim keeps the table's keys and its unique phone numbers. */
  lemma ReclaimAllKeepsConstraints(numbers: map<int, NumberRow>, buyerId: int, now: Timestamp)
    requires NumbersKeyed(numbers) && UniquePhoneNumbers(numbers)
    ensures NumbersKeyed(ReclaimAll(numbers, buyerId, now)) && UniquePhoneNumbers(ReclaimAll(numbers, buyerId, now))
  {
  }

  /** Unlike a status write to returned_to_queue, the reclaim keeps the rental time. */
  lemma ReclaimKeepsRentalTime(n: NumberRow, now: Timestamp)
    ensures Reclaimed(n, now).rentedAt == n.rentedAt
    ensures NumberLifecycle.WithStatus(n, ReturnedToQueue, now).rentedAt.None?
    ensures n.rentedAt.Some? ==> Reclaimed(n, now) != NumberLifecycle.WithStatus(n, ReturnedToQueue, now)
  {
  }
}
