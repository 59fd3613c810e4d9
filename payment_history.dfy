/**
 * A buyer's billing records, latest first, one page at a time.
 */
module PaymentHistory {
  import opened Schema
  import Tables

  /** Non-increasing in billing date. */
  predicate SortedDesc(s: seq<BillingRecord>) {
    forall i, j :: 0 <= i < j < |s| ==> s[i].billingDate >= s[j].billingDate
  }

  /** No record occurs twice. */
  ghost predicate Distinct<T>(s: seq<T>) {
    forall i, j :: 0 <= i < j < |s| ==> s[i] != s[j]
  }

  /** r placed before the first record that is not later than it. */
  function InsertDesc(r: BillingRecord, s: seq<BillingRecord>): (t: seq<BillingRecord>)
    requires SortedDesc(s)
    ensures SortedDesc(t) && multiset(t) == multiset(s) + multiset{r}
    decreases |s|
  {
    if s == [] then [r]
    else if r.billingDate >= s[0].billingDate then
      assert forall j :: 0 <= j < |s| ==> s[0].billingDate >= s[j].billingDate;
      [r] + s
    else
      var rest := InsertDesc(r, s[1..]);
      assert s == [s[0]] + s[1..];
      LaterThanAll(s[0], s[1..], r, rest);
      [s[0]] + rest
  }

  lemma LaterThanAll(head: BillingRecord, tail: seq<BillingRecord>, r: BillingRecord, rest: seq<BillingRecord>)
    requires SortedDesc([head] + tail) && SortedDesc(rest)
    requires r.billingDate < head.billingDate
    requires multiset(rest) == multiset(tail) + multiset{r}
    ensures SortedDesc([head] + rest)
  {
    var t := [head] + rest;
    forall x | x in rest ensures head.billingDate >= x.billingDate {
      assert x in multiset(rest);
      if x != r {
        assert x in multiset(tail);
        var m :| 0 <= m < |tail| && tail[m] == x;
        assert ([head] + tail)[m + 1] == tail[m] && ([head] + tail)[0] == head;
      }
    }
    forall i, j | 0 <= i < j < |t| ensures t[i].billingDate >= t[j].billingDate {
      assert t[j] == rest[j - 1];
      if i > 0 {
        assert t[i] == rest[i - 1];
      } else {
        assert rest[j - 1] in rest;
      }
    }
  }

  /** The records ordered latest first; records with equal dates keep no particular order. */
  function SortDesc(s: seq<BillingRecord>): (t: seq<BillingRecord>)
    ensures SortedDesc(t) && multiset(t) == multiset(s)
    decreases |s|
  {
    if s == [] then []
    else
      assert s == [s[0]] + s[1..];
      InsertDesc(s[0], SortDesc(s[1..]))
  }

  /** The slice that LIMIT limit OFFSET offset keeps. */
  function Page<T>(s: seq<T>, offset: nat, limit: nat): (p: seq<T>)
    ensures |p| == if offset >= |s| then 0 else if limit < |s| - offset then limit else |s| - offset
    ensures forall i :: 0 <= i < |p| ==> p[i] == s[offset + i]
  {
    if offset >= |s| then []
    else if limit < |s| - offset then s[offset..offset + limit]
    else s[offset..]
  }

  /** The stored records of one buyer, one per row. */
  function BuyerRecords(billing: map<int, BillingRecord>, buyerId: int): (rs: seq<BillingRecord>)
    ensures forall i :: 0 <= i < |rs| ==> rs[i] in billing.Values && rs[i].buyerId == buyerId
    ensures forall k :: k in billing && billing[k].buyerId == buyerId ==> billing[k] in rs
    ensures |rs| == |set k | k in billing && billing[k].buyerId == buyerId|
    ensures BillingKeyed(billing) ==> Distinct(rs)
  {
    var ofBuyer := (r: BillingRecord) => r.buyerId == buyerId;
    var ids := Tables.Select(billing, ofBuyer);
    RowsOfBuyer(billing, buyerId, ids);
    BuyerKeys(billing, buyerId, ofBuyer);
    Tables.Rows(billing, ids)
  }

  lemma BuyerKeys(billing: map<int, BillingRecord>, buyerId: int, ofBuyer: BillingRecord -> bool)
    requires forall r :: ofBuyer(r) <==> r.buyerId == buyerId
    ensures Tables.Where(billing, ofBuyer) == set k | k in billing && billing[k].buyerId == buyerId
  {
  }

  lemma RowsOfBuyer(billing: map<int, BillingRecord>, buyerId: int, ids: seq<int>)
    requires Tables.Increasing(ids)
    requires forall i :: 0 <= i < |ids| ==> ids[i] in billing
    requires forall k :: k in ids <==> k in billing && billing[k].buyerId == buyerId
    ensures forall i :: 0 <= i < |ids| ==> Tables.Rows(billing, ids)[i] in billing.Values && Tables.Rows(billing, ids)[i].buyerId == buyerId
    ensures forall k :: k in billing && billing[k].buyerId == buyerId ==> billing[k] in Tables.Rows(billing, ids)
    ensures BillingKeyed(billing) ==> Distinct(Tables.Rows(billing, ids))
  {
    var rows := Tables.Rows(billing, ids);
    forall i | 0 <= i < |rows| ensures rows[i] in billing.Values && rows[i].buyerId == buyerId {
      assert ids[i] in ids;
    }
    forall k | k in billing && billing[k].buyerId == buyerId ensures billing[k] in rows {
      assert k in ids;
      var i :| 0 <= i < |ids| && ids[i] == k;
      assert rows[i] == billing[k];
    }
    if BillingKeyed(billing) {
      forall i, j | 0 <= i < j < |rows| ensures rows[i] != rows[j] {
        assert rows[i].id == ids[i] && rows[j].id == ids[j];
      }
    }
  }

  /** One page of the buyer's records, latest first. */
  function GetPaymentHistory(billing: map<int, BillingRecord>, input: PaymentHistoryInput): (r: seq<BillingRecord>)
    ensures forall i :: 0 <= i < |r| ==> r[i] in billing.Values && r[i].buyerId == input.buyerId
    ensures SortedDesc(r)
    ensures |r| <= input.limit
    ensures r == Page(SortDesc(BuyerRecords(billing, input.buyerId)), input.offset, input.limit)
  {
    HistoryPage(billing, input.buyerId, input.offset, input.limit);
    Page(SortDesc(BuyerRecords(billing, input.buyerId)), input.offset, input.limit)
  }

  lemma HistoryPage(billing: map<int, BillingRecord>, buyerId: int, offset: nat, limit: nat)
    ensures var page := Page(SortDesc(BuyerRecords(billing, buyerId)), offset, limit);
      && (forall i :: 0 <= i < |page| ==> page[i] in billing.Values && page[i].buyerId == buyerId)
      && SortedDesc(page)
  {
    var rs := BuyerRecords(billing, buyerId);
    PageOfSorted(billing.Values, buyerId, rs, SortDesc(rs), offset, limit);
  }

  lemma PageOfSorted(stored: set<BillingRecord>, buyerId: int, rs: seq<BillingRecord>, sorted: seq<BillingRecord>, offset: nat, limit: nat)
    requires forall i :: 0 <= i < |rs| ==> rs[i] in stored && rs[i].buyerId == buyerId
    requires SortedDesc(sorted) && multiset(sorted) == multiset(rs)
    ensures forall i :: 0 <= i < |Page(sorted, offset, limit)| ==> Page(sorted, offset, limit)[i] in stored && Page(sorted, offset, limit)[i].buyerId == buyerId
    ensures SortedDesc(Page(sorted, offset, limit))
  {
    var page := Page(sorted, offset, limit);
    forall i | 0 <= i < |page| ensures page[i] in stored && page[i].buyerId == buyerId {
      assert page[i] == sorted[offset + i];
      assert sorted[offset + i] in multiset(rs);
      var m :| 0 <= m < |rs| && rs[m] == page[i];
    }
    forall i, j | 0 <= i < j < |page| ensures page[i].billingDate >= page[j].billingDate {
      assert page[i] == sorted[offset + i] && page[j] == sorted[offset + j];
    }
  }

  /** Two consecutive pages make one page twice as long. */
  lemma ConsecutivePages<T>(s: seq<T>, offset: nat, limit: nat)
    ensures Page(s, offset, limit) + Page(s, offset + limit, limit) == Page(s, offset, 2 * limit)
  {
    var a, b, c := Page(s, offset, limit), Page(s, offset + limit, limit), Page(s, offset, 2 * limit);
    assert |a + b| == |c|;
    forall i | 0 <= i < |c| ensures (a + b)[i] == c[i] {
      if i < |a| {
        assert (a + b)[i] == s[offset + i];
      } else {
        assert (a + b)[i] == b[i - |a|] == s[offset + limit + (i - |a|)];
      }
    }
  }

  /** Every record on a page is at least as late as every record on the next page. */
  lemma PagesAreOrdered(s: seq<BillingRecord>, offset: nat, limit: nat)
    requires SortedDesc(s)
    ensures forall x, y :: x in Page(s, offset, limit) && y in Page(s, offset + limit, limit) ==> x.billingDate >= y.billingDate
  {
    var a, b := Page(s, offset, limit), Page(s, offset + limit, limit);
    forall x, y | x in a && y in b ensures x.billingDate >= y.billingDate {
      var i :| 0 <= i < |a| && a[i] == x;
      var j :| 0 <= j < |b| && b[j] == y;
      assert x == s[offset + i] && y == s[offset + limit + j];
    }
  }

  /** A sequence is free of repeats iff its multiset counts every element at most once. */
  lemma {:induction false} DistinctByCount<T>(s: seq<T>)
    ensures Distinct(s) <==> forall x :: x in multiset(s) ==> multiset(s)[x] == 1
    decreases |s|
  {
    if s != [] {
      var x, t := s[0], s[1..];
      assert s == [x] + t;
      DistinctByCount(t);
      if Distinct(s) {
        assert Distinct(t) by {
          forall i, j | 0 <= i < j < |t| ensures t[i] != t[j] { assert t[i] == s[i + 1] && t[j] == s[j + 1]; }
        }
        forall m | 0 <= m < |t| ensures t[m] != x {
          assert t[m] == s[m + 1];
        }
        assert x !in t;
      } else {
        var i, j :| 0 <= i < j < |s| && s[i] == s[j];
        if i == 0 {
          assert s[j] == t[j - 1];
          assert x in multiset(t);
          assert multiset(s)[x] == multiset(t)[x] + 1;
        } else {
          assert s[i] == t[i - 1] && s[j] == t[j - 1];
          assert !Distinct(t);
          var y :| y in multiset(t) && multiset(t)[y] != 1;
          assert multiset(s)[y] >= multiset(t)[y];
        }
      }
    }
  }

  /** Sorting keeps a repeat-free list repeat-free. */
  lemma DistinctPermutation<T>(s: seq<T>, t: seq<T>)
    requires multiset(s) == multiset(t) && Distinct(s)
    ensures Distinct(t)
  {
    DistinctByCount(s);
    DistinctByCount(t);
  }

  /** In a repeat-free list, consecutive pages share no element. */
  lemma PagesAreDisjoint<T>(s: seq<T>, offset: nat, limit: nat)
    requires Distinct(s)
    ensures forall x :: x in Page(s, offset, limit) ==> x !in Page(s, offset + limit, limit)
  {
    var a, b := Page(s, offset, limit), Page(s, offset + limit, limit);
    forall x | x in a ensures x !in b {
      var i :| 0 <= i < |a| && a[i] == x;
      forall j | 0 <= j < |b| ensures b[j] != x {
        assert x == s[offset + i] && b[j] == s[offset + limit + j];
      }
    }
  }

  /** With a keyed table, the pages of a buyer's history never repeat a record. */
  lemma HistoryPagesAreDisjoint(billing: map<int, BillingRecord>, buyerId: int, offset: nat, limit: nat)
    requires BillingKeyed(billing)
    ensures forall x :: x in GetPaymentHistory(billing, PaymentHistoryInput(buyerId, limit, offset)) ==>
      x !in GetPaymentHistory(billing, PaymentHistoryInput(buyerId, limit, offset + limit))
  {
    var rs := BuyerRecords(billing, buyerId);
    DistinctPermutation(rs, SortDesc(rs));
    PagesAreDisjoint(SortDesc(rs), offset, limit);
  }

  /** No two different stored records of the buyer share a billing date. */
  predicate DistinctDates(billing: map<int, BillingRecord>, buyerId: int) {
    forall x, y :: x in billing.Values && y in billing.Values && x != y && x.buyerId == buyerId && y.buyerId == buyerId
      ==> x.billingDate != y.billingDate
  }

  /** Any order the query may use: latest first, holding exactly the buyer's records. */
  predicate IsHistoryOrder(billing: map<int, BillingRecord>, buyerId: int, order: seq<BillingRecord>) {
    SortedDesc(order) && multiset(order) == multiset(BuyerRecords(billing, buyerId))
  }

  /** Without ties, a list has only one latest-first arrangement. */
  lemma {:induction false} SortedDescUnique(a: seq<BillingRecord>, b: seq<BillingRecord>)
    requires SortedDesc(a) && SortedDesc(b) && multiset(a) == multiset(b)
    requires forall i, j :: 0 <= i < j < |a| ==> a[i].billingDate != a[j].billingDate
    ensures a == b
    decreases |a|
  {
    if a == [] {
      assert |b| == |multiset(b)| == 0;
    } else {
      SameLatest(a, b);
      TailMultiset(a, b);
      TailSortedDesc(a);
      TailSortedDesc(b);
      TailDistinctDates(a);
      SortedDescUnique(a[1..], b[1..]);
    }
  }

  /** Two tie-free latest-first arrangements of the same records start with the same record. */
  lemma SameLatest(a: seq<BillingRecord>, b: seq<BillingRecord>)
    requires a != [] && SortedDesc(a) && SortedDesc(b) && multiset(a) == multiset(b)
    requires forall i, j :: 0 <= i < j < |a| ==> a[i].billingDate != a[j].billingDate
    ensures b != [] && a[0] == b[0]
  {
    assert a[0] in multiset(b);
    var m :| 0 <= m < |b| && b[m] == a[0];
    assert b[0] in multiset(a);
    var n :| 0 <= n < |a| && a[n] == b[0];
    assert b[0].billingDate >= b[m].billingDate;
    assert a[0].billingDate >= a[n].billingDate;
  }

  lemma TailMultiset(a: seq<BillingRecord>, b: seq<BillingRecord>)
    requires a != [] && b != [] && a[0] == b[0] && multiset(a) == multiset(b)
    ensures multiset(a[1..]) == multiset(b[1..])
  {
    assert a == [a[0]] + a[1..] && b == [b[0]] + b[1..];
    assert multiset(a[1..]) == multiset(a) - multiset{a[0]};
    assert multiset(b[1..]) == multiset(b) - multiset{b[0]};
  }

  lemma TailDistinctDates(s: seq<BillingRecord>)
    requires s != []
    requires forall i, j :: 0 <= i < j < |s| ==> s[i].billingDate != s[j].billingDate
    ensures forall i, j :: 0 <= i < j < |s[1..]| ==> s[1..][i].billingDate != s[1..][j].billingDate
  {
    forall i, j | 0 <= i < j < |s[1..]| ensures s[1..][i].billingDate != s[1..][j].billingDate {
      assert s[1..][i] == s[i + 1] && s[1..][j] == s[j + 1];
    }
  }

  lemma TailSortedDesc(s: seq<BillingRecord>)
    requires s != [] && SortedDesc(s)
    ensures SortedDesc(s[1..])
  {
    forall i, j | 0 <= i < j < |s[1..]| ensures s[1..][i].billingDate >= s[1..][j].billingDate {
      assert s[1..][i] == s[i + 1] && s[1..][j] == s[j + 1];
    }
  }

  /**
   * When the buyer's records have distinct billing dates, the page does not depend on
   * how the database breaks ties: every order the query may use gives the same page.
   */
  lemma HistoryIgnoresTieOrder(billing: map<int, BillingRecord>, input: PaymentHistoryInput, order: seq<BillingRecord>)
    requires BillingKeyed(billing) && DistinctDates(billing, input.buyerId)
    requires IsHistoryOrder(billing, input.buyerId, order)
    ensures GetPaymentHistory(billing, input) == Page(order, input.offset, input.limit)
  {
    var rs := BuyerRecords(billing, input.buyerId);
    DistinctPermutation(rs, order);
    OrderHasNoTies(billing.Values, input.buyerId, rs, order);
    SortedDescUnique(order, SortDesc(rs));
  }

  lemma OrderHasNoTies(stored: set<BillingRecord>, buyerId: int, rs: seq<BillingRecord>, order: seq<BillingRecord>)
    requires forall i :: 0 <= i < |rs| ==> rs[i] in stored && rs[i].buyerId == buyerId
    requires forall x, y :: x in stored && y in stored && x != y && x.buyerId == buyerId && y.buyerId == buyerId ==>
      x.billingDate != y.billingDate
    requires multiset(order) == multiset(rs) && Distinct(order)
    ensures forall i, j :: 0 <= i < j < |order| ==> order[i].billingDate != order[j].billingDate
  {
    forall i, j | 0 <= i < j < |order| ensures order[i].billingDate != order[j].billingDate {
      assert order[i] in multiset(rs) && order[j] in multiset(rs);
      var p :| 0 <= p < |rs| && rs[p] == order[i];
      var q :| 0 <= q < |rs| && rs[q] == order[j];
    }
  }

  /**
   * Two history queries for consecutive pages, each free to order tied records its own
   * way, share no record when the buyer's billing dates are distinct.
   */
  lemma HistoryPagesAreDisjointAnyOrder(billing: map<int, BillingRecord>, buyerId: int,
                                        first: seq<BillingRecord>, second: seq<BillingRecord>, offset: nat, limit: nat)
    requires BillingKeyed(billing) && DistinctDates(billing, buyerId)
    requires IsHistoryOrder(billing, buyerId, first) && IsHistoryOrder(billing, buyerId, second)
    ensures forall x :: x in Page(first, offset, limit) ==> x !in Page(second, offset + limit, limit)
  {
    HistoryIgnoresTieOrder(billing, PaymentHistoryInput(buyerId, limit, offset), first);
    HistoryIgnoresTieOrder(billing, PaymentHistoryInput(buyerId, limit, offset + limit), second);
    HistoryPagesAreDisjoint(billing, buyerId, offset, limit);
  }

  /** A buyer without records, known or not, gets an empty list and no error. */
  lemma NoRecordsEmptyHistory(billing: map<int, BillingRecord>, input: PaymentHistoryInput)
    requires forall k :: k in billing ==> billing[k].buyerId != input.buyerId
    ensures GetPaymentHistory(billing, input) == []
  {
    var none := set k | k in billing && billing[k].buyerId == input.buyerId;
    forall k ensures k !in none {
      if k in billing { assert billing[k].buyerId != input.buyerId; }
    }
    assert none == {};
  }
}
