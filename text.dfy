/**
 * Case-insensitive pattern matching as used by the phone-number search
 * (SQL ILIKE), with ASCII case folding.
 */
module Text {

  function LowerChar(c: char): char {
    if 'A' <= c <= 'Z' then (c as int + 32) as char else c
  }

  function Lower(s: string): (r: string)
    ensures |r| == |s| && forall i :: 0 <= i < |s| ==> r[i] == LowerChar(s[i])
  {
    seq(|s|, i requires 0 <= i < |s| => LowerChar(s[i]))
  }

  predicate OccursAt(needle: string, hay: string, i: int) {
    0 <= i <= |hay| - |needle| && hay[i..i + |needle|] == needle
  }

  /** needle occurs somewhere in hay. */
  predicate IsSubstring(needle: string, hay: string) {
    exists i :: 0 <= i <= |hay| - |needle| && OccursAt(needle, hay, i)
  }

  /** The reference meaning of a case-insensitive substring search. */
  predicate ContainsIgnoreCase(hay: string, needle: string) {
    IsSubstring(Lower(needle), Lower(hay))
  }

  /** Text in which ILIKE sees no wildcard and no escape character. */
  predicate IsLiteralText(t: string) {
    forall i :: 0 <= i < |t| ==> t[i] != '%' && t[i] != '_' && t[i] != '\\'
  }

  /** s ILIKE p, for a pattern without escape characters: '%' matches any run of
      characters, '_' any single character, anything else itself up to case. */
  predicate ILike(s: string, p: string)
    ensures IsLiteralText(p) ==> (ILike(s, p) <==> Lower(s) == Lower(p))
    decreases |s| + |p|
  {
    if p == [] then s == []
    else if p[0] == '%' then ILike(s, p[1..]) || (s != [] && ILike(s[1..], p))
    else
      LowerTail(s);
      LowerTail(p);
      s != [] && (p[0] == '_' || LowerChar(s[0]) == LowerChar(p[0])) && ILike(s[1..], p[1..])
  }

  lemma LowerTail(s: string)
    ensures s != [] ==> Lower(s) == [LowerChar(s[0])] + Lower(s[1..])
  {
    if s != [] {
      assert Lower(s) == [LowerChar(s[0])] + Lower(s[1..]);
    }
  }

  /** The pattern '%' + t + '%' that the search builds around its text. */
  function ContainsPattern(t: string): string {
    "%" + t + "%"
  }

  lemma {:induction false} PercentMatchesAll(s: string)
    ensures ILike(s, "%")
    decreases |s|
  {
    if s != [] {
      PercentMatchesAll(s[1..]);
    }
  }

  predicate PrefixMatchesIgnoreCase(s: string, t: string) {
    |t| <= |s| && forall i :: 0 <= i < |t| ==> LowerChar(s[i]) == LowerChar(t[i])
  }

  /** s ILIKE t + '%' exactly when t, up to case, begins s. */
  lemma {:induction false} PrefixPattern(s: string, t: string)
    requires IsLiteralText(t)
    ensures ILike(s, t + "%") <==> PrefixMatchesIgnoreCase(s, t)
    decreases |t|
  {
    if t == [] {
      assert t + "%" == "%";
      PercentMatchesAll(s);
    } else {
      assert (t + "%")[1..] == t[1..] + "%";
      assert IsLiteralText(t[1..]);
      if s != [] {
        PrefixPattern(s[1..], t[1..]);
        if PrefixMatchesIgnoreCase(s, t) {
          forall i | 0 <= i < |t[1..]| ensures LowerChar(s[1..][i]) == LowerChar(t[1..][i]) {
            assert s[1..][i] == s[i + 1] && t[1..][i] == t[i + 1];
          }
        }
        if LowerChar(s[0]) == LowerChar(t[0]) && PrefixMatchesIgnoreCase(s[1..], t[1..]) {
          forall i | 0 <= i < |t| ensures LowerChar(s[i]) == LowerChar(t[i]) {
            if i > 0 {
              assert s[1..][i - 1] == s[i] && t[1..][i - 1] == t[i];
            }
          }
        }
      }
    }
  }

  /** s ILIKE '%' + q exactly when some suffix of s matches q. */
  lemma {:induction false} LeadingPercent(s: string, q: string)
    ensures ILike(s, "%" + q) <==> exists i :: 0 <= i <= |s| && ILike(s[i..], q)
    decreases |s|
  {
    var p := "%" + q;
    assert p != [] && p[0] == '%' && p[1..] == q;
    assert s[0..] == s;
    if s != [] {
      LeadingPercent(s[1..], q);
      assert ILike(s, p) <==> ILike(s, q) || ILike(s[1..], p);
      if ILike(s[1..], p) {
        var i :| 0 <= i <= |s[1..]| && ILike(s[1..][i..], q);
        assert s[1..][i..] == s[i + 1..];
      }
      if exists i :: 0 <= i <= |s| && ILike(s[i..], q) {
        var i :| 0 <= i <= |s| && ILike(s[i..], q);
        if i > 0 {
          assert s[1..][i - 1..] == s[i..];
          assert 0 <= i - 1 <= |s[1..]| && ILike(s[1..][i - 1..], q);
        }
      }
    }
  }

  /** For literal search text, the ILIKE pattern '%' + t + '%' is the case-insensitive
      substring search. */
  lemma ContainsPatternIsSubstringSearch(s: string, t: string)
    requires IsLiteralText(t)
    ensures ILike(s, ContainsPattern(t)) <==> ContainsIgnoreCase(s, t)
  {
    assert ContainsPattern(t) == "%" + (t + "%");
    LeadingPercent(s, t + "%");
    if ILike(s, ContainsPattern(t)) {
      var i :| 0 <= i <= |s| && ILike(s[i..], t + "%");
      MatchAtIsOccurrence(s, t, i);
    }
    if ContainsIgnoreCase(s, t) {
      var i :| 0 <= i <= |Lower(s)| - |Lower(t)| && OccursAt(Lower(t), Lower(s), i);
      OccurrenceIsMatchAt(s, t, i);
    }
  }

  lemma MatchAtIsOccurrence(s: string, t: string, i: nat)
    requires IsLiteralText(t) && i <= |s| && ILike(s[i..], t + "%")
    ensures ContainsIgnoreCase(s, t)
  {
    var ls, lt := Lower(s), Lower(t);
    PrefixPattern(s[i..], t);
    assert ls[i..i + |lt|] == lt;
    assert OccursAt(lt, ls, i);
  }

  lemma OccurrenceIsMatchAt(s: string, t: string, i: int)
    requires IsLiteralText(t) && OccursAt(Lower(t), Lower(s), i)
    ensures 0 <= i <= |s| && ILike(s[i..], t + "%")
  {
    var ls, lt := Lower(s), Lower(t);
    assert ls[i..i + |lt|] == lt;
    forall j | 0 <= j < |t| ensures LowerChar(s[i..][j]) == LowerChar(t[j]) {
      assert ls[i..i + |lt|][j] == lt[j];
    }
    PrefixPattern(s[i..], t);
  }
}
