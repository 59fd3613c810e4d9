/**
 * The daily invoice of a buyer: the numbers whose rental time falls in one
 * calendar day, their count and the exact sum of their prices.
 */
module DailyInvoice {
  import opened Wrappers
  import opened Money
  import opened Calendar
  import opened Schema
  import Tables

  /** One listed number; its rental time is present by construction. */
  datatype InvoiceLine = InvoiceLine(
    id: int,
    phoneNumber: string,
    country: string,
    numberType: string,
    price: Cents,
    rentedAt: Timestamp,
    completedAt: Option<Timestamp>)

  /** The invoice; the total is in cents and is not bounded by the column precision. */
  datatype Invoice = Invoice(
    buyerId: int,
    buyerName: string,
    date: string,
    totalNumbersRented: nat,
    totalAmount: int,
    numbers: seq<InvoiceLine>)

  /** n is the buyer's and was rented in [start, end); a null rental time never is. */
  predicate RentedWithin(n: NumberRow, buyerId: int, start: Timestamp, end: Timestamp) {
    n.buyerId == Some(buyerId) && n.rentedAt.Some? && start <= n.rentedAt.value < end
  }

  /** l is the line of some number of the buyer rented in [start, end). */
  predicate LineOfRental(l: InvoiceLine, numbers: map<int, NumberRow>, buyerId: int, start: Timestamp, end: Timestamp) {
    exists k :: k in numbers && RentedWithin(numbers[k], buyerId, start, end) && l == Line(numbers[k])
  }

  /** The projection of a number row onto an invoice line. */
  function Line(n: NumberRow): (l: InvoiceLine)
    requires n.rentedAt.Some?
    ensures l.id == n.id && l.price == n.price && l.rentedAt == n.rentedAt.value
  {
    InvoiceLine(n.id, n.phoneNumber, n.country, n.numberType, n.price, n.rentedAt.value, n.completedAt)
  }

  /** The exact total of the lines' prices, in cents. */
  function SumPrices(lines: seq<InvoiceLine>): int {
    if lines == [] then 0 else SumPrices(lines[..|lines| - 1]) + lines[|lines| - 1].price
  }

  /** `lines.reduce((sum, n) => sum + n.price, acc)`: a running sum from the first line on. */
  function Reduce(acc: int, lines: seq<InvoiceLine>): (sum: int)
    ensures sum == acc + SumPrices(lines)
    decreases |lines|
  {
    if lines == [] then acc
    else
      SumHead(lines);
      Reduce(acc + lines[0].price, lines[1..])
  }

  /** The first second of the day the date names; the day ends SECONDS_PER_DAY later. */
  function DayBegin(date: string): (start: Timestamp)
    requires IsCalendarDate(date)
    ensures start + SECONDS_PER_DAY == DayStart(NextDay(ParseDate(date).value))
  {
    NextDayStartsOneDayLater(ParseDate(date).value);
    DayStart(ParseDate(date).value)
  }

  /** The lines of the buyer's numbers rented in [start, end), one per matching row. */
  function DayLines(numbers: map<int, NumberRow>, buyerId: int, start: Timestamp, end: Timestamp): (lines: seq<InvoiceLine>)
    ensures forall i :: 0 <= i < |lines| ==> LineOfRental(lines[i], numbers, buyerId, start, end)
    ensures forall k :: k in numbers && RentedWithin(numbers[k], buyerId, start, end) ==> Line(numbers[k]) in lines
    ensures |lines| == |set k | k in numbers && RentedWithin(numbers[k], buyerId, start, end)|
  {
    var within := n => RentedWithin(n, buyerId, start, end);
    var ids := Tables.Select(numbers, within);
    assert forall i :: 0 <= i < |ids| ==> ids[i] in ids;
    SelectedLines(numbers, ids, buyerId, start, end);
    SelectedCount(numbers, within, buyerId, start, end);
    Lines(numbers, ids)
  }

  /** The invoice of buyerId on date, or NotFound when there is no such buyer. */
  function GenerateDailyInvoice(buyers: map<int, Buyer>, numbers: map<int, NumberRow>, buyerId: int, date: string): (r: Result<Invoice, Error>)
    requires IsCalendarDate(date)
    ensures r.Failure? <==> buyerId !in buyers
    ensures r.Failure? ==> r.error == NotFound(BuyersTable, buyerId)
    ensures r.Success? ==> r.value.buyerId == buyerId && r.value.buyerName == buyers[buyerId].name && r.value.date == date
    ensures r.Success? ==> r.value.numbers == DayLines(numbers, buyerId, DayBegin(date), DayBegin(date) + SECONDS_PER_DAY)
    ensures r.Success? ==> r.value.totalNumbersRented == |r.value.numbers|
    ensures r.Success? ==> r.value.totalAmount == SumPrices(r.value.numbers)
  {
    if buyerId !in buyers then Failure(NotFound(BuyersTable, buyerId))
    else
      var lines := DayLines(numbers, buyerId, DayBegin(date), DayBegin(date) + SECONDS_PER_DAY);
      Success(Invoice(buyerId, buyers[buyerId].name, date, |lines|, Reduce(0, lines), lines))
  }

  function Lines(numbers: map<int, NumberRow>, ids: seq<int>): (lines: seq<InvoiceLine>)
    requires forall i :: 0 <= i < |ids| ==> ids[i] in numbers && numbers[ids[i]].rentedAt.Some?
    ensures |lines| == |ids| && forall i :: 0 <= i < |ids| ==> lines[i] == Line(numbers[ids[i]])
  {
    seq(|ids|, i requires 0 <= i < |ids| => Line(numbers[ids[i]]))
  }

  lemma SelectedLines(numbers: map<int, NumberRow>, ids: seq<int>, buyerId: int, start: Timestamp, end: Timestamp)
    requires forall i :: 0 <= i < |ids| ==> ids[i] in numbers && numbers[ids[i]].rentedAt.Some? && RentedWithin(numbers[ids[i]], buyerId, start, end)
    requires forall k :: k in numbers && RentedWithin(numbers[k], buyerId, start, end) ==> k in ids
    ensures forall i :: 0 <= i < |ids| ==> LineOfRental(Lines(numbers, ids)[i], numbers, buyerId, start, end)
    ensures forall k :: k in numbers && RentedWithin(numbers[k], buyerId, start, end) ==> Line(numbers[k]) in Lines(numbers, ids)
  {
    forall i | 0 <= i < |ids| ensures LineOfRental(Lines(numbers, ids)[i], numbers, buyerId, start, end) {
      var k := ids[i];
      assert k in numbers && RentedWithin(numbers[k], buyerId, start, end) && Lines(numbers, ids)[i] == Line(numbers[k]);
    }
    forall k | k in numbers && RentedWithin(numbers[k], buyerId, start, end) ensures Line(numbers[k]) in Lines(numbers, ids) {
      var i :| 0 <= i < |ids| && ids[i] == k;
      assert Lines(numbers, ids)[i] == Line(numbers[k]);
    }
  }

  lemma SelectedCount(numbers: map<int, NumberRow>, within: NumberRow -> bool, buyerId: int, start: Timestamp, end: Timestamp)
    requires forall n :: within(n) <==> RentedWithin(n, buyerId, start, end)
    ensures Tables.Where(numbers, within) == set k | k in numbers && RentedWithin(numbers[k], buyerId, start, end)
  {
  }

  /** The sum over a concatenation is the sum of the sums. */
  lemma {:induction false} SumAppend(a: seq<InvoiceLine>, b: seq<InvoiceLine>)
    ensures SumPrices(a + b) == SumPrices(a) + SumPrices(b)
    decreases |b|
  {
    if b == [] {
      assert a + b == a;
    } else {
      var c := b[..|b| - 1];
      SumAppend(a, c);
      assert (a + b)[..|a + b| - 1] == a + c;
      assert (a + b)[|a + b| - 1] == b[|b| - 1];
    }
  }

  /** The total does not depend on the order in which the query returns the rows. */
  lemma {:induction false} SumIgnoresOrder(a: seq<InvoiceLine>, b: seq<InvoiceLine>)
    requires multiset(a) == multiset(b)
    ensures SumPrices(a) == SumPrices(b)
    decreases |a|
  {
    if a == [] {
      assert |b| == |multiset(b)| == 0;
    } else {
      assert a[0] in multiset(b);
      var i :| 0 <= i < |b| && b[i] == a[0];
      var rest := b[..i] + b[i + 1..];
      RemoveOne(a, b, i);
      SumIgnoresOrder(a[1..], rest);
      SumWithout(b, i);
      SumHead(a);
    }
  }

  lemma RemoveOne(a: seq<InvoiceLine>, b: seq<InvoiceLine>, i: nat)
    requires a != [] && i < |b| && b[i] == a[0] && multiset(a) == multiset(b)
    ensures multiset(a[1..]) == multiset(b[..i] + b[i + 1..])
  {
    var x, rest := a[0], b[..i] + b[i + 1..];
    assert b == b[..i] + [x] + b[i + 1..];
    assert a == [x] + a[1..];
    assert multiset(rest) == multiset(b[..i]) + multiset(b[i + 1..]);
    assert multiset(a[1..]) == multiset(a) - multiset([x]);
    assert multiset(rest) == multiset(b) - multiset([x]);
  }

  /** The total is one line's price plus the total of the others. */
  lemma SumWithout(b: seq<InvoiceLine>, i: nat)
    requires i < |b|
    ensures SumPrices(b) == b[i].price + SumPrices(b[..i] + b[i + 1..])
  {
    var pre, x, post := b[..i], b[i], b[i + 1..];
    assert b == (pre + [x]) + post;
    SumAppend(pre + [x], post);
    SumAppend(pre, [x]);
    SumAppend(pre, post);
    SumOne(x);
  }

  lemma SumHead(lines: seq<InvoiceLine>)
    requires lines != []
    ensures SumPrices(lines) == lines[0].price + SumPrices(lines[1..])
  {
    assert lines == [lines[0]] + lines[1..];
    SumAppend([lines[0]], lines[1..]);
    SumOne(lines[0]);
  }

  lemma SumOne(x: InvoiceLine)
    ensures SumPrices([x]) == x.price
  {
    assert [x][..0] == [];
  }

  /** A day without rentals gives an empty invoice with total 0. */
  lemma EmptyDayIsZero(buyers: map<int, Buyer>, numbers: map<int, NumberRow>, buyerId: int, date: string)
    requires IsCalendarDate(date) && buyerId in buyers
    requires forall k :: k in numbers ==> !RentedWithin(numbers[k], buyerId, DayBegin(date), DayBegin(date) + SECONDS_PER_DAY)
    ensures GenerateDailyInvoice(buyers, numbers, buyerId, date).value.numbers == []
    ensures GenerateDailyInvoice(buyers, numbers, buyerId, date).value.totalAmount == 0
    ensures GenerateDailyInvoice(buyers, numbers, buyerId, date).value.totalNumbersRented == 0
  {
    var start := DayBegin(date);
    var none := set k | k in numbers && RentedWithin(numbers[k], buyerId, start, start + SECONDS_PER_DAY);
    forall k ensures k !in none {
      if k in numbers {
        assert !RentedWithin(numbers[k], buyerId, start, start + SECONDS_PER_DAY);
      }
    }
    assert none == {};
  }

  /** Whether a number is listed does not depend on its status. */
  lemma RentalIgnoresStatus(n: NumberRow, s: NumberStatus, buyerId: int, start: Timestamp, end: Timestamp)
    ensures RentedWithin(n.(status := s), buyerId, start, end) == RentedWithin(n, buyerId, start, end)
    ensures n.rentedAt.Some? ==> Line(n.(status := s)) == Line(n)
  {
  }
}
