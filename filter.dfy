/**
 * The number search: optional criteria joined with AND, each switched on only
 * when its value is truthy in JavaScript terms.
 */
module NumberFilter {
  import opened Wrappers
  import opened Schema
  import opened Text
  import Tables

  /** The search input; every criterion may be omitted. */
  datatype FilterInput = FilterInput(
    country: Option<string>,
    numberType: Option<string>,
    status: Option<NumberStatus>,
    buyerId: Option<int>,
    sellerId: Option<int>,
    phoneNumber: Option<string>)

  /** `if (text)` in JavaScript: present and not the empty string. */
  predicate TruthyText(t: Option<string>) {
    t.Some? && t.value != ""
  }

  /** `if (id)` in JavaScript: present and not zero. */
  predicate TruthyId(t: Option<int>) {
    t.Some? && t.value != 0
  }

  /** No criterion is switched on. */
  predicate NoCriteria(input: FilterInput) {
    !TruthyText(input.country) && !TruthyText(input.numberType) && input.status.None?
    && !TruthyId(input.buyerId) && !TruthyId(input.sellerId) && !TruthyText(input.phoneNumber)
  }

  /** One SQL condition of the WHERE clause. A comparison with a null column is never true. */
  datatype Condition =
    | CountryIs(country: string)
    | TypeIs(numberType: string)
    | StatusIs(status: NumberStatus)
    | BuyerIs(buyerId: int)
    | SellerIs(sellerId: int)
    | PhoneLike(pattern: string)

  predicate Holds(c: Condition, n: NumberRow) {
    match c
    case CountryIs(x) => n.country == x
    case TypeIs(x) => n.numberType == x
    case StatusIs(x) => n.status == x
    case BuyerIs(x) => n.buyerId == Some(x)
    case SellerIs(x) => n.sellerId == Some(x)
    case PhoneLike(p) => ILike(n.phoneNumber, p)
  }

  /** The AND of a list of conditions; the empty list selects every row. */
  predicate AllHold(conds: seq<Condition>, n: NumberRow) {
    forall i :: 0 <= i < |conds| ==> Holds(conds[i], n)
  }

  predicate CountryOk(input: FilterInput, n: NumberRow) {
    TruthyText(input.country) ==> n.country == input.country.value
  }

  predicate TypeOk(input: FilterInput, n: NumberRow) {
    TruthyText(input.numberType) ==> n.numberType == input.numberType.value
  }

  predicate StatusOk(input: FilterInput, n: NumberRow) {
    input.status.Some? ==> n.status == input.status.value
  }

  predicate BuyerOk(input: FilterInput, n: NumberRow) {
    TruthyId(input.buyerId) ==> n.buyerId == input.buyerId
  }

  predicate SellerOk(input: FilterInput, n: NumberRow) {
    TruthyId(input.sellerId) ==> n.sellerId == input.sellerId
  }

  predicate PhoneOk(input: FilterInput, n: NumberRow) {
    TruthyText(input.phoneNumber) ==> ILike(n.phoneNumber, ContainsPattern(input.phoneNumber.value))
  }

  /** Reference meaning of the search: n satisfies every truthy criterion. */
  predicate Matches(input: FilterInput, n: NumberRow) {
    CountryOk(input, n) && TypeOk(input, n) && StatusOk(input, n)
    && BuyerOk(input, n) && SellerOk(input, n) && PhoneOk(input, n)
  }

  /** The AND of a concatenation is the AND of its parts. */
  lemma AllHoldConcat(a: seq<Condition>, b: seq<Condition>, n: NumberRow)
    ensures AllHold(a + b, n) <==> AllHold(a, n) && AllHold(b, n)
  {
    if AllHold(a, n) && AllHold(b, n) {
      forall i | 0 <= i < |a + b| ensures Holds((a + b)[i], n) {
        if i < |a| { assert (a + b)[i] == a[i]; } else { assert (a + b)[i] == b[i - |a|]; }
      }
    }
    if AllHold(a + b, n) {
      forall i | 0 <= i < |a| ensures Holds(a[i], n) {
        assert (a + b)[i] == a[i];
      }
      forall i | 0 <= i < |b| ensures Holds(b[i], n) {
        assert (a + b)[|a| + i] == b[i];
      }
    }
  }

  /** The condition one criterion contributes: one condition when it is truthy, none otherwise. */
  function Part(on: bool, c: Condition): seq<Condition> {
    if on then [c] else []
  }

  lemma AllHoldPart(on: bool, c: Condition, n: NumberRow)
    ensures AllHold(Part(on, c), n) <==> (on ==> Holds(c, n))
  {
    if on { assert Part(on, c)[0] == c; }
  }

  /**
   * The WHERE clause the handler builds, in its order: country, type, status,
   * buyer, seller, phone.
   */
  function Conditions(input: FilterInput): (conds: seq<Condition>) {
    Part(TruthyText(input.country), CountryIs(input.country.GetOr("")))
    + Part(TruthyText(input.numberType), TypeIs(input.numberType.GetOr("")))
    + Part(input.status.Some?, StatusIs(input.status.GetOr(Available)))
    + Part(TruthyId(input.buyerId), BuyerIs(input.buyerId.GetOr(0)))
    + Part(TruthyId(input.sellerId), SellerIs(input.sellerId.GetOr(0)))
    + Part(TruthyText(input.phoneNumber), PhoneLike(ContainsPattern(input.phoneNumber.GetOr(""))))
  }

  /** A row satisfies the built clause exactly when it satisfies every truthy criterion. */
  lemma {:induction false} ConditionsMeanMatches(input: FilterInput, n: NumberRow)
    ensures AllHold(Conditions(input), n) <==> Matches(input, n)
  {
    var c := Part(TruthyText(input.country), CountryIs(input.country.GetOr("")));
    var t := Part(TruthyText(input.numberType), TypeIs(input.numberType.GetOr("")));
    var st := Part(input.status.Some?, StatusIs(input.status.GetOr(Available)));
    var b := Part(TruthyId(input.buyerId), BuyerIs(input.buyerId.GetOr(0)));
    var se := Part(TruthyId(input.sellerId), SellerIs(input.sellerId.GetOr(0)));
    var ph := Part(TruthyText(input.phoneNumber), PhoneLike(ContainsPattern(input.phoneNumber.GetOr(""))));
    AllHoldConcat(c + t + st + b + se, ph, n);
    AllHoldConcat(c + t + st + b, se, n);
    AllHoldConcat(c + t + st, b, n);
    AllHoldConcat(c + t, st, n);
    AllHoldConcat(c, t, n);
    AllHoldPart(TruthyText(input.country), CountryIs(input.country.GetOr("")), n);
    AllHoldPart(TruthyText(input.numberType), TypeIs(input.numberType.GetOr("")), n);
    AllHoldPart(input.status.Some?, StatusIs(input.status.GetOr(Available)), n);
    AllHoldPart(TruthyId(input.buyerId), BuyerIs(input.buyerId.GetOr(0)), n);
    AllHoldPart(TruthyId(input.sellerId), SellerIs(input.sellerId.GetOr(0)), n);
    AllHoldPart(TruthyText(input.phoneNumber), PhoneLike(ContainsPattern(input.phoneNumber.GetOr(""))), n);
  }

  /** Grows the condition list one truthy criterion at a time. */
  method BuildConditions(input: FilterInput) returns (conds: seq<Condition>)
    ensures |conds| <= 6
    ensures conds == [] <==> NoCriteria(input)
    ensures forall n :: AllHold(conds, n) <==> Matches(input, n)
    ensures conds == Conditions(input)
  {
    ghost var c := Part(TruthyText(input.country), CountryIs(input.country.GetOr("")));
    ghost var t := Part(TruthyText(input.numberType), TypeIs(input.numberType.GetOr("")));
    ghost var st := Part(input.status.Some?, StatusIs(input.status.GetOr(Available)));
    ghost var b := Part(TruthyId(input.buyerId), BuyerIs(input.buyerId.GetOr(0)));
    ghost var se := Part(TruthyId(input.sellerId), SellerIs(input.sellerId.GetOr(0)));
    ghost var ph := Part(TruthyText(input.phoneNumber), PhoneLike(ContainsPattern(input.phoneNumber.GetOr(""))));
    conds := [];
    if TruthyText(input.country) {
      conds := conds + [CountryIs(input.country.value)];
    }
    assert conds == c;
    if TruthyText(input.numberType) {
      conds := conds + [TypeIs(input.numberType.value)];
    }
    assert conds == c + t;
    if input.status.Some? {
      conds := conds + [StatusIs(input.status.value)];
    }
    assert conds == c + t + st;
    if TruthyId(input.buyerId) {
      conds := conds + [BuyerIs(input.buyerId.value)];
    }
    assert conds == c + t + st + b;
    if TruthyId(input.sellerId) {
      conds := conds + [SellerIs(input.sellerId.value)];
    }
    assert conds == c + t + st + b + se;
    if TruthyText(input.phoneNumber) {
      conds := conds + [PhoneLike(ContainsPattern(input.phoneNumber.value))];
    }
    assert conds == Conditions(input);
    forall n ensures AllHold(conds, n) <==> Matches(input, n) {
      ConditionsMeanMatches(input, n);
    }
  }

  /** The rows of the numbers table that satisfy every truthy criterion, one per matching id. */
  method FilterNumbers(numbers: map<int, NumberRow>, input: FilterInput) returns (rows: seq<NumberRow>)
    ensures forall i :: 0 <= i < |rows| ==> rows[i] in numbers.Values && Matches(input, rows[i])
    ensures forall k :: k in numbers && Matches(input, numbers[k]) ==> numbers[k] in rows
    ensures |rows| == |set k | k in numbers && Matches(input, numbers[k])|
  {
    var conds := BuildConditions(input);
    var holds := n => AllHold(conds, n);
    var ids := Tables.Select(numbers, holds);
    rows := Tables.Rows(numbers, ids);
    forall i | 0 <= i < |ids| ensures Matches(input, numbers[ids[i]]) {
      assert ids[i] in ids;
      assert holds(numbers[ids[i]]);
    }
    forall k | k in numbers && Matches(input, numbers[k]) ensures k in ids {
      assert holds(numbers[k]);
    }
    SelectedRows(numbers, ids, input);
    SelectedCount(numbers, input, holds);
  }

  lemma SelectedRows(numbers: map<int, NumberRow>, ids: seq<int>, input: FilterInput)
    requires forall i :: 0 <= i < |ids| ==> ids[i] in numbers && Matches(input, numbers[ids[i]])
    requires forall k :: k in numbers && Matches(input, numbers[k]) ==> k in ids
    ensures forall i :: 0 <= i < |ids| ==> Tables.Rows(numbers, ids)[i] in numbers.Values && Matches(input, Tables.Rows(numbers, ids)[i])
    ensures forall k :: k in numbers && Matches(input, numbers[k]) ==> numbers[k] in Tables.Rows(numbers, ids)
  {
    var rows := Tables.Rows(numbers, ids);
    forall i | 0 <= i < |ids| ensures rows[i] in numbers.Values && Matches(input, rows[i]) {
      assert rows[i] == numbers[ids[i]];
    }
    forall k | k in numbers && Matches(input, numbers[k]) ensures numbers[k] in rows {
      assert k in ids;
      var i :| 0 <= i < |ids| && ids[i] == k;
      assert rows[i] == numbers[k];
    }
  }

  lemma SelectedCount(numbers: map<int, NumberRow>, input: FilterInput, holds: NumberRow -> bool)
    requires forall n :: holds(n) <==> Matches(input, n)
    ensures Tables.Where(numbers, holds) == set k | k in numbers && Matches(input, numbers[k])
  {
  }

  /** With every criterion off, every row matches. */
  lemma NoCriteriaMatchesAll(input: FilterInput, n: NumberRow)
    requires NoCriteria(input)
    ensures Matches(input, n)
  {
  }

  /** The input switching on only the i-th criterion of input. */
  function Single(input: FilterInput, i: nat): (r: FilterInput)
    requires i < 6
  {
    var none := FilterInput(None, None, None, None, None, None);
    if i == 0 then none.(country := input.country)
    else if i == 1 then none.(numberType := input.numberType)
    else if i == 2 then none.(status := input.status)
    else if i == 3 then none.(buyerId := input.buyerId)
    else if i == 4 then none.(sellerId := input.sellerId)
    else none.(phoneNumber := input.phoneNumber)
  }

  /** The search is the intersection of the single-criterion searches. */
  lemma MatchesIsIntersection(input: FilterInput, n: NumberRow)
    ensures Matches(input, n) <==> forall i :: 0 <= i < 6 ==> Matches(Single(input, i), n)
  {
    if forall i :: 0 <= i < 6 ==> Matches(Single(input, i), n) {
      assert Matches(Single(input, 0), n) && Matches(Single(input, 1), n) && Matches(Single(input, 2), n);
      assert Matches(Single(input, 3), n) && Matches(Single(input, 4), n) && Matches(Single(input, 5), n);
    }
  }

  /** finer keeps every criterion coarser switches on, and may switch on more. */
  predicate Narrows(finer: FilterInput, coarser: FilterInput) {
    (TruthyText(coarser.country) ==> finer.country == coarser.country)
    && (TruthyText(coarser.numberType) ==> finer.numberType == coarser.numberType)
    && (coarser.status.Some? ==> finer.status == coarser.status)
    && (TruthyId(coarser.buyerId) ==> finer.buyerId == coarser.buyerId)
    && (TruthyId(coarser.sellerId) ==> finer.sellerId == coarser.sellerId)
    && (TruthyText(coarser.phoneNumber) ==> finer.phoneNumber == coarser.phoneNumber)
  }

  /** Adding criteria never enlarges the result. */
  lemma NarrowingShrinks(finer: FilterInput, coarser: FilterInput, n: NumberRow)
    requires Narrows(finer, coarser) && Matches(finer, n)
    ensures Matches(coarser, n)
  {
  }

  /** An empty text or a zero id is the same as an omitted criterion. */
  lemma FalsyCriteriaIgnored(input: FilterInput, n: NumberRow)
    ensures Matches(input.(country := Some("")), n) == Matches(input.(country := None), n)
    ensures Matches(input.(numberType := Some("")), n) == Matches(input.(numberType := None), n)
    ensures Matches(input.(buyerId := Some(0)), n) == Matches(input.(buyerId := None), n)
    ensures Matches(input.(sellerId := Some(0)), n) == Matches(input.(sellerId := None), n)
    ensures Matches(input.(phoneNumber := Some("")), n) == Matches(input.(phoneNumber := None), n)
  {
  }

  /** A number with no buyer or seller never matches an id criterion. */
  lemma NullIdNeverMatches(input: FilterInput, n: NumberRow)
    ensures TruthyId(input.buyerId) && n.buyerId.None? ==> !Matches(input, n)
    ensures TruthyId(input.sellerId) && n.sellerId.None? ==> !Matches(input, n)
  {
  }

  /** For search text without wildcards, the phone criterion is a case-insensitive substring test. */
  lemma PhoneCriterionIsSubstring(input: FilterInput, n: NumberRow)
    requires TruthyText(input.phoneNumber) && IsLiteralText(input.phoneNumber.value)
    ensures Matches(input, n) <==> Matches(input.(phoneNumber := None), n) && ContainsIgnoreCase(n.phoneNumber, input.phoneNumber.value)
  {
    ContainsPatternIsSubstringSearch(n.phoneNumber, input.phoneNumber.value);
  }
}
