/** The orders the SQL queries sort by: strings compare character by
    character, `NULL` sorts before every value, and a row key compares its
    first column, then its second. Sorting is a stable insertion sort. */
module Ordering {
  import opened Wrappers

  /** Lexicographic "strictly before" on strings. */
  predicate StrLt(a: string, b: string)
    decreases |a|
  {
    if a == [] then b != []
    else b != [] && (a[0] < b[0] || (a[0] == b[0] && StrLt(a[1..], b[1..])))
  }

  lemma {:induction false} StrLtIrreflexive(a: string)
    ensures !StrLt(a, a)
    decreases |a|
  {
    if a != [] {
      StrLtIrreflexive(a[1..]);
    }
  }

  lemma {:induction false} StrLtTransitive(a: string, b: string, c: string)
    requires StrLt(a, b) && StrLt(b, c)
    ensures StrLt(a, c)
    decreases |a|
  {
    if a != [] && a[0] == b[0] && b[0] == c[0] {
      StrLtTransitive(a[1..], b[1..], c[1..]);
    }
  }

  lemma {:induction false} StrLtTotal(a: string, b: string)
    ensures a == b || StrLt(a, b) || StrLt(b, a)
    decreases |a|
  {
    if a != [] && b != [] && a[0] == b[0] {
      StrLtTotal(a[1..], b[1..]);
      if a[1..] == b[1..] {
        assert a == [a[0]] + a[1..] && b == [b[0]] + b[1..];
      }
    }
  }

  /** A sort key of two columns; the first may be `NULL`. */
  datatype Key = Key(first: Option<string>, second: string)

  /** `NULL` first, then by string. */
  predicate OptLt(a: Option<string>, b: Option<string>) {
    match a
    case None => b.Some?
    case Some(x) => b.Some? && StrLt(x, b.value)
  }

  predicate KeyLt(a: Key, b: Key) {
    OptLt(a.first, b.first) || (a.first == b.first && StrLt(a.second, b.second))
  }

  predicate KeyLe(a: Key, b: Key) {
    a == b || KeyLt(a, b)
  }

  lemma OptLtIrreflexive(a: Option<string>)
    ensures !OptLt(a, a)
  {
    if a.Some? {
      StrLtIrreflexive(a.value);
    }
  }

  lemma OptLtTransitive(a: Option<string>, b: Option<string>, c: Option<string>)
    requires OptLt(a, b) && OptLt(b, c)
    ensures OptLt(a, c)
  {
    if a.Some? {
      StrLtTransitive(a.value, b.value, c.value);
    }
  }

  lemma KeyLtIrreflexive(a: Key)
    ensures !KeyLt(a, a)
  {
    StrLtIrreflexive(a.second);
    OptLtIrreflexive(a.first);
  }

  lemma KeyLtTransitive(a: Key, b: Key, c: Key)
    requires KeyLt(a, b) && KeyLt(b, c)
    ensures KeyLt(a, c)
  {
    if OptLt(a.first, b.first) && OptLt(b.first, c.first) {
      OptLtTransitive(a.first, b.first, c.first);
    } else if a.first == b.first && b.first == c.first {
      OptLtIrreflexive(a.first);
      StrLtTransitive(a.second, b.second, c.second);
    }
  }

  lemma KeyLeTransitive(a: Key, b: Key, c: Key)
    requires KeyLe(a, b) && KeyLe(b, c)
    ensures KeyLe(a, c)
  {
    if a != b && b != c {
      KeyLtTransitive(a, b, c);
    }
  }

  lemma KeyLeTotal(a: Key, b: Key)
    ensures KeyLe(a, b) || KeyLe(b, a)
  {
    StrLtTotal(a.second, b.second);
    if a.first.Some? && b.first.Some? {
      StrLtTotal(a.first.value, b.first.value);
    }
  }

  /** The two orders agree: `a` is at most `b` exactly when `b` is not strictly
      before `a`. */
  lemma KeyLeIffNotLt(a: Key, b: Key)
    ensures KeyLe(a, b) <==> !KeyLt(b, a)
  {
    KeyLeTotal(a, b);
    KeyLtIrreflexive(a);
    if KeyLt(a, b) && KeyLt(b, a) {
      KeyLtTransitive(a, b, a);
    }
  }

  predicate SortedBy<T>(s: seq<T>, key: T -> Key) {
    forall i, j | 0 <= i < j < |s| :: KeyLe(key(s[i]), key(s[j]))
  }

  /** Puts `x` before the first element whose key is not below it. */
  function Insert<T>(x: T, s: seq<T>, key: T -> Key): (r: seq<T>)
    ensures multiset(r) == multiset(s) + multiset{x}
  {
    if s == [] then [x]
    else if KeyLe(key(x), key(s[0])) then [x] + s
    else
      assert s == [s[0]] + s[1..];
      [s[0]] + Insert(x, s[1..], key)
  }

  /** Every key of a sequence is at least `lo`. */
  predicate AllAtLeast<T>(s: seq<T>, key: T -> Key, lo: Key) {
    forall j | 0 <= j < |s| :: KeyLe(lo, key(s[j]))
  }

  lemma PrependSorted<T>(y: T, s: seq<T>, key: T -> Key)
    requires SortedBy(s, key) && AllAtLeast(s, key, key(y))
    ensures SortedBy([y] + s, key)
  {
    forall i, j | 0 <= i < j < |s| + 1 ensures KeyLe(key(([y] + s)[i]), key(([y] + s)[j])) {
      if i > 0 {
        assert ([y] + s)[i] == s[i - 1] && ([y] + s)[j] == s[j - 1];
      }
    }
  }

  lemma {:induction false} InsertSorted<T>(x: T, s: seq<T>, key: T -> Key)
    requires SortedBy(s, key)
    ensures SortedBy(Insert(x, s, key), key)
    decreases |s|
  {
    if s == [] {
    } else if KeyLe(key(x), key(s[0])) {
      forall j | 0 <= j < |s| ensures KeyLe(key(x), key(s[j])) {
        KeyLeTransitive(key(x), key(s[0]), key(s[j]));
      }
      PrependSorted(x, s, key);
    } else {
      var tail := s[1..];
      assert SortedBy(tail, key) by {
        forall i, j | 0 <= i < j < |tail| ensures KeyLe(key(tail[i]), key(tail[j])) {
          assert tail[i] == s[i + 1] && tail[j] == s[j + 1];
        }
      }
      InsertSorted(x, tail, key);
      var rest := Insert(x, tail, key);
      KeyLeTotal(key(x), key(s[0]));
      forall j | 0 <= j < |rest| ensures KeyLe(key(s[0]), key(rest[j])) {
        assert rest[j] in multiset(rest);
        if rest[j] != x {
          assert rest[j] in multiset(tail);
          var k :| 0 <= k < |tail| && tail[k] == rest[j];
          assert s[k + 1] == rest[j];
        }
      }
      PrependSorted(s[0], rest, key);
    }
  }

  /** `ORDER BY`: a permutation of the rows in ascending key order. */
  function SortBy<T>(xs: seq<T>, key: T -> Key): (r: seq<T>)
    ensures multiset(r) == multiset(xs)
    ensures SortedBy(r, key)
    ensures |r| == |xs|
  {
    if xs == [] then []
    else
      assert xs == [xs[0]] + xs[1..];
      var sorted := SortBy(xs[1..], key);
      InsertSorted(xs[0], sorted, key);
      var r := Insert(xs[0], sorted, key);
      assert |r| == |multiset(r)|;
      r
  }

  /** `WHERE`: the rows satisfying `p`, in table order. */
  function Select<T(!new)>(xs: seq<T>, p: T -> bool): (r: seq<T>)
    ensures forall y :: multiset(r)[y] == if p(y) then multiset(xs)[y] else 0
    ensures forall y | y in r :: y in xs && p(y)
    ensures forall y | y in xs && p(y) :: y in r
    ensures |r| <= |xs|
  {
    if xs == [] then []
    else
      var rest := Select(xs[..|xs| - 1], p);
      var last := xs[|xs| - 1];
      assert xs == xs[..|xs| - 1] + [last];
      if p(last) then rest + [last] else rest
  }

  /** Nothing is selected when no row satisfies `p`. */
  lemma {:induction false} SelectNone<T(!new)>(xs: seq<T>, p: T -> bool)
    requires forall i | 0 <= i < |xs| :: !p(xs[i])
    ensures Select(xs, p) == []
  {
    if xs != [] {
      SelectNone(xs[..|xs| - 1], p);
    }
  }
}
