/**
 * Case-insensitive "contains any of" tests and the ordering Python's
 * `sorted` uses on strings.
 *
 * The source matches with `s.str.lower().str.contains('|'.join(p).lower())`.
 * Here the joined pattern is read as a list of literal alternatives: a text
 * matches when its lower-cased form contains the lower-cased form of one of
 * them. An empty list joins to the empty pattern, which matches every text.
 */
module Text {
  import opened Sequences

  /** Lower-cases one ASCII letter; every other character is unchanged. */
  function LowerChar(c: char): (r: char)
    ensures 'A' <= c <= 'Z' ==> r as int == c as int + 32
    ensures !('A' <= c <= 'Z') ==> r == c
  {
    if 'A' <= c <= 'Z' then (c as int + 32) as char else c
  }

  function Lower(s: string): (r: string)
    ensures |r| == |s|
    ensures forall i :: 0 <= i < |s| ==> r[i] == LowerChar(s[i])
  {
    seq(|s|, i requires 0 <= i < |s| => LowerChar(s[i]))
  }

  /** Text without upper-case ASCII letters is its own lower-case form. */
  lemma LowerOfLowerCase(s: string)
    requires forall i :: 0 <= i < |s| ==> !('A' <= s[i] <= 'Z')
    ensures Lower(s) == s
  {
  }

  predicate IsPrefix(p: string, s: string)
  {
    |p| <= |s| && s[..|p|] == p
  }

  /** `sub` occurs in `s` at some position. */
  predicate Contains(s: string, sub: string)
    decreases |s|
  {
    IsPrefix(sub, s) || (|s| > 0 && Contains(s[1..], sub))
  }

  /** A pattern found in a suffix of the text is found in the text. */
  lemma {:induction false} ContainsInSuffix(s: string, sub: string, i: nat)
    requires i <= |s| && Contains(s[i..], sub)
    ensures Contains(s, sub)
  {
    if i > 0 {
      assert s[1..][i - 1..] == s[i..];
      ContainsInSuffix(s[1..], sub, i - 1);
    }
  }

  /** A pattern longer than the text never occurs in it. */
  lemma {:induction false} NotContainsLonger(s: string, sub: string)
    requires |sub| > |s|
    ensures !Contains(s, sub)
  {
    if |s| > 0 {
      NotContainsLonger(s[1..], sub);
    }
  }

  /** A pattern whose first character is absent from the text never occurs in it. */
  lemma {:induction false} NotContainsWithoutFirst(s: string, sub: string)
    requires |sub| > 0
    requires forall i :: 0 <= i < |s| ==> s[i] != sub[0]
    ensures !Contains(s, sub)
  {
    if |s| > 0 {
      assert !IsPrefix(sub, s) by {
        if |sub| <= |s| {
          assert s[..|sub|][0] == s[0];
        }
      }
      NotContainsWithoutFirst(s[1..], sub);
    }
  }

  /** `sub` occurs in `s` starting at index `i`. */
  predicate OccursAt(s: string, sub: string, i: int)
  {
    0 <= i <= |s| - |sub| && s[i..i + |sub|] == sub
  }

  /** `Contains` is the usual substring search: `sub` occurs somewhere in `s`. */
  lemma {:induction false} ContainsIffOccurs(s: string, sub: string)
    ensures Contains(s, sub) <==> exists i :: OccursAt(s, sub, i)
    decreases |s|
  {
    if IsPrefix(sub, s) {
      assert OccursAt(s, sub, 0);
    } else if |s| > 0 {
      ContainsIffOccurs(s[1..], sub);
      if exists i :: OccursAt(s, sub, i) {
        var i :| OccursAt(s, sub, i);
        assert i != 0;
        assert OccursAt(s[1..], sub, i - 1) by {
          assert s[1..][i - 1..i - 1 + |sub|] == s[i..i + |sub|];
        }
      }
      if exists i :: OccursAt(s[1..], sub, i) {
        var i :| OccursAt(s[1..], sub, i);
        assert OccursAt(s, sub, i + 1) by {
          assert s[1..][i..i + |sub|] == s[i + 1..i + 1 + |sub|];
        }
      }
    } else {
      assert |sub| > 0;
      assert forall i :: !OccursAt(s, sub, i);
    }
  }

  /**
   * The pandas test `text.lower()` contains `'|'.join(patterns).lower()`,
   * with each alternative read literally.
   */
  predicate MatchesAny(text: string, patterns: seq<string>)
  {
    |patterns| == 0 || exists k :: 0 <= k < |patterns| && Contains(Lower(text), Lower(patterns[k]))
  }

  /**
   * A text matches a pattern list iff the list is empty (the empty regular
   * expression matches everything) or some lower-cased pattern occurs at some
   * position of the lower-cased text.
   */
  lemma MatchesAnyOccurs(text: string, patterns: seq<string>)
    ensures MatchesAny(text, patterns) <==>
      |patterns| == 0 || exists k, i :: 0 <= k < |patterns| && OccursAt(Lower(text), Lower(patterns[k]), i)
  {
    forall k | 0 <= k < |patterns|
      ensures Contains(Lower(text), Lower(patterns[k])) <==> exists i :: OccursAt(Lower(text), Lower(patterns[k]), i)
    {
      ContainsIffOccurs(Lower(text), Lower(patterns[k]));
    }
  }

  /** Lexicographic order on code points, as Python compares `str` values. */
  predicate StrLess(a: string, b: string)
  {
    if |a| == 0 then |b| > 0
    else if |b| == 0 then false
    else if a[0] != b[0] then a[0] < b[0]
    else StrLess(a[1..], b[1..])
  }

  lemma {:induction false} StrLessIrreflexive(a: string)
    ensures !StrLess(a, a)
  {
    if |a| > 0 { StrLessIrreflexive(a[1..]); }
  }

  lemma {:induction false} StrLessTransitive(a: string, b: string, c: string)
    requires StrLess(a, b) && StrLess(b, c)
    ensures StrLess(a, c)
  {
    if |a| > 0 && |b| > 0 && |c| > 0 && a[0] == b[0] && b[0] == c[0] {
      StrLessTransitive(a[1..], b[1..], c[1..]);
    }
  }

  lemma {:induction false} StrLessTotal(a: string, b: string)
    ensures a == b || StrLess(a, b) || StrLess(b, a)
  {
    if |a| > 0 && |b| > 0 && a[0] == b[0] {
      StrLessTotal(a[1..], b[1..]);
      assert a == [a[0]] + a[1..] && b == [b[0]] + b[1..];
    }
  }

  lemma StrLessIsStrictTotalOrder()
    ensures StrictTotalOrder(StrLess)
  {
    forall a ensures !StrLess(a, a) { StrLessIrreflexive(a); }
    forall a, b, c | StrLess(a, b) && StrLess(b, c) ensures StrLess(a, c) {
      StrLessTransitive(a, b, c);
    }
    forall a, b ensures a == b || StrLess(a, b) || StrLess(b, a) { StrLessTotal(a, b); }
  }

  /** Order on (subject, visit) pairs: `sort_values([subject, visit])`. */
  predicate PairLess(a: (string, string), b: (string, string))
  {
    StrLess(a.0, b.0) || (a.0 == b.0 && StrLess(a.1, b.1))
  }

  lemma PairLessIsStrictTotalOrder()
    ensures StrictTotalOrder(PairLess)
  {
    StrLessIsStrictTotalOrder();
  }

  /** `sorted(set(xs))` for strings. */
  function SortedStrings(xs: seq<string>): (r: seq<string>)
    ensures Ascending(r, StrLess)
    ensures Elems(r) == Elems(xs)
    ensures forall x :: x in r <==> x in xs
  {
    StrLessIsStrictTotalOrder();
    var r := SortUnique(xs, StrLess);
    assert forall x :: x in r <==> x in Elems(r);
    assert forall x :: x in xs <==> x in Elems(xs);
    r
  }

  /** The distinct (subject, visit) pairs sorted by subject, then visit. */
  function SortedPairs(xs: seq<(string, string)>): (r: seq<(string, string)>)
    ensures Ascending(r, PairLess)
    ensures forall x :: x in r <==> x in xs
  {
    PairLessIsStrictTotalOrder();
    var r := SortUnique(xs, PairLess);
    assert forall x :: x in r <==> x in Elems(r);
    assert forall x :: x in xs <==> x in Elems(xs);
    r
  }
}
