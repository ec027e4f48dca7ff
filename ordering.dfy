/**
 * The order Rust's `Ord for str` uses: lexicographic on the UTF-8 bytes, which
 * coincides with lexicographic order on Unicode scalar values (Dafny's `char`).
 * `sort_unstable` and the discovery comparison rely on it.
 */
module Ordering {

  /** `a` sorts before or equal to `b`. */
  predicate Leq(a: string, b: string)
    decreases |a|
  {
    |a| == 0 || (|b| != 0 && (a[0] < b[0] || (a[0] == b[0] && Leq(a[1..], b[1..]))))
  }

  predicate Less(a: string, b: string) {
    Leq(a, b) && a != b
  }

  ghost predicate Sorted(s: seq<string>) {
    forall i, j | 0 <= i < j < |s| :: Leq(s[i], s[j])
  }

  ghost predicate StrictlyAscending(s: seq<string>) {
    forall i, j | 0 <= i < j < |s| :: Less(s[i], s[j])
  }

  ghost predicate Distinct<T>(s: seq<T>) {
    forall i, j | 0 <= i < j < |s| :: s[i] != s[j]
  }

  lemma {:induction false} LeqReflexive(a: string)
    ensures Leq(a, a)
  {
    if |a| != 0 {
      LeqReflexive(a[1..]);
    }
  }

  lemma {:induction false} LeqAntisymmetric(a: string, b: string)
    requires Leq(a, b) && Leq(b, a)
    ensures a == b
  {
    if |a| != 0 {
      LeqAntisymmetric(a[1..], b[1..]);
      assert a == [a[0]] + a[1..] && b == [b[0]] + b[1..];
    }
  }

  lemma {:induction false} LeqTransitive(a: string, b: string, c: string)
    requires Leq(a, b) && Leq(b, c)
    ensures Leq(a, c)
  {
    if |a| != 0 && a[0] == b[0] && b[0] == c[0] {
      LeqTransitive(a[1..], b[1..], c[1..]);
    }
  }

  lemma {:induction false} LeqTotal(a: string, b: string)
    ensures Leq(a, b) || Leq(b, a)
  {
    if |a| != 0 && |b| != 0 && a[0] == b[0] {
      LeqTotal(a[1..], b[1..]);
    }
  }

  /** Two strings that agree before position `k` and differ at `k` are ordered by that character. */
  lemma {:induction false} LessAt(a: string, b: string, k: nat)
    requires k < |a| && k < |b|
    requires a[..k] == b[..k] && a[k] < b[k]
    ensures Less(a, b)
  {
    if k != 0 {
      assert a[0] == a[..k][0] == b[..k][0] == b[0];
      assert a[1..][..k - 1] == a[1..k] == b[1..k] == b[1..][..k - 1];
      LessAt(a[1..], b[1..], k - 1);
      assert a != b by {
        assert a[1..] != b[1..];
      }
    }
  }

  /** A common prefix does not change the order. */
  lemma {:induction false} LessUnderPrefix(p: string, a: string, b: string)
    requires Less(a, b)
    ensures Less(p + a, p + b)
  {
    if |p| == 0 {
      assert p + a == a && p + b == b;
    } else {
      LessUnderPrefix(p[1..], a, b);
      assert (p + a)[1..] == p[1..] + a && (p + b)[1..] == p[1..] + b;
      assert (p + a)[0] == p[0] == (p + b)[0];
    }
  }

  /** Each element before the next is enough for the whole sequence to ascend strictly. */
  lemma {:induction false} AdjacentAscending(s: seq<string>)
    requires forall i | 0 <= i < |s| - 1 :: Less(s[i], s[i + 1])
    ensures StrictlyAscending(s)
  {
    if |s| > 1 {
      AdjacentAscending(s[1..]);
      forall j | 0 < j < |s| ensures Less(s[0], s[j]) {
        if j > 1 {
          assert Less(s[1..][0], s[1..][j - 1]);
          LeqTransitive(s[0], s[1], s[j]);
          if s[0] == s[j] {
            LeqAntisymmetric(s[0], s[1]);
          }
        }
      }
      forall i, j | 0 <= i < j < |s| ensures Less(s[i], s[j]) {
        if 0 < i {
          assert Less(s[1..][i - 1], s[1..][j - 1]);
        }
      }
    }
  }

  /** A strictly ascending sequence has no duplicates. */
  lemma AscendingDistinct(s: seq<string>)
    requires StrictlyAscending(s)
    ensures Sorted(s) && Distinct(s)
  {
  }

  /** The first element of a sorted sequence is below every element of it. */
  lemma SortedHeadLeast(s: seq<string>, x: string)
    requires Sorted(s) && x in multiset(s)
    ensures Leq(s[0], x)
  {
    var m :| 0 <= m < |s| && s[m] == x;
    if m == 0 {
      LeqReflexive(x);
    }
  }

  lemma MultisetTail(s: seq<string>)
    requires |s| != 0
    ensures multiset(s[1..]) == multiset(s) - multiset{s[0]}
  {
    assert s == [s[0]] + s[1..];
  }

  lemma SortedTail(s: seq<string>)
    requires Sorted(s) && |s| != 0
    ensures Sorted(s[1..])
  {
    forall i, j | 0 <= i < j < |s| - 1 ensures Leq(s[1..][i], s[1..][j]) {
      assert s[1..][i] == s[i + 1] && s[1..][j] == s[j + 1];
    }
  }

  /**
   * A sorted arrangement of a multiset is unique: sorting two sequences that hold the
   * same elements gives the same sequence, whether the sort is stable or not.
   */
  lemma {:induction false} SortedUnique(s: seq<string>, t: seq<string>)
    requires Sorted(s) && Sorted(t)
    requires multiset(s) == multiset(t)
    ensures s == t
  {
    if |s| == 0 {
      assert |multiset(t)| == 0;
    } else {
      assert |t| == |s| by {
        assert |t| == |multiset(t)| && |s| == |multiset(s)|;
      }
      assert s[0] in multiset(t) && t[0] in multiset(s) by {
        assert s[0] in multiset(s) && t[0] in multiset(t);
      }
      SortedHeadLeast(s, t[0]);
      SortedHeadLeast(t, s[0]);
      LeqAntisymmetric(s[0], t[0]);
      MultisetTail(s);
      MultisetTail(t);
      SortedTail(s);
      SortedTail(t);
      SortedUnique(s[1..], t[1..]);
      assert s == [s[0]] + s[1..] && t == [t[0]] + t[1..];
    }
  }
}
