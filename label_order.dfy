/**
 * The order in which the selector lists data sources: by label, compared
 * case-insensitively. The host's `toLowerCase().localeCompare(...)` is modelled
 * as ASCII lower-casing followed by lexicographic comparison of characters, and
 * the host's (stable) `Array.prototype.sort` as a stable insertion sort.
 */
module LabelOrder {
  import opened Types

  function LowerChar(c: char): char {
    if 'A' <= c <= 'Z' then (c as int + 32) as char else c
  }

  /** `String.prototype.toLowerCase`, restricted to ASCII letters. */
  function Lower(s: string): (r: string)
    ensures |r| == |s|
    ensures forall i :: 0 <= i < |r| ==> !('A' <= r[i] <= 'Z')
    ensures forall i :: 0 <= i < |r| ==> r[i] == s[i] || ('A' <= s[i] <= 'Z' && r[i] as int == s[i] as int + 32)
  {
    seq(|s|, i requires 0 <= i < |s| => LowerChar(s[i]))
  }

  /** Lexicographic "less than or equal" on strings. */
  predicate LexLe(a: string, b: string) {
    |a| == 0 || (|b| > 0 && (a[0] < b[0] || (a[0] == b[0] && LexLe(a[1..], b[1..]))))
  }

  lemma {:induction false} LexLeReflexive(a: string)
    ensures LexLe(a, a)
  {
    if |a| > 0 {
      LexLeReflexive(a[1..]);
    }
  }

  lemma {:induction false} LexLeTotal(a: string, b: string)
    ensures LexLe(a, b) || LexLe(b, a)
  {
    if |a| > 0 && |b| > 0 && a[0] == b[0] {
      LexLeTotal(a[1..], b[1..]);
    }
  }

  lemma {:induction false} LexLeTransitive(a: string, b: string, c: string)
    requires LexLe(a, b) && LexLe(b, c)
    ensures LexLe(a, c)
  {
    if |a| > 0 && |b| > 0 && |c| > 0 && a[0] == b[0] && b[0] == c[0] {
      LexLeTransitive(a[1..], b[1..], c[1..]);
    }
  }

  lemma {:induction false} LexLeAntisymmetric(a: string, b: string)
    requires LexLe(a, b) && LexLe(b, a)
    ensures a == b
  {
    if |a| > 0 {
      LexLeAntisymmetric(a[1..], b[1..]);
      assert a == [a[0]] + a[1..] && b == [b[0]] + b[1..];
    }
  }

  /** The sort key of an option: its label (or "" when it has none), lower-cased. */
  function SortKey(o: DataSourceOption): string {
    Lower(o.labelText.GetOr(""))
  }

  /** The comparator `a.label.toLowerCase().localeCompare(b.label.toLowerCase()) <= 0`. */
  predicate KeyLe(x: DataSourceOption, y: DataSourceOption) {
    LexLe(SortKey(x), SortKey(y))
  }

  /** Non-decreasing along the list: each option compares <= its successor. */
  predicate Sorted(t: seq<DataSourceOption>) {
    forall i :: 0 < i < |t| ==> KeyLe(t[i - 1], t[i])
  }

  /** Inserts `x` in front of the first element whose key is not smaller than its own. */
  function Insert(x: DataSourceOption, t: seq<DataSourceOption>): (r: seq<DataSourceOption>)
    ensures multiset(r) == multiset(t) + multiset{x}
  {
    if |t| == 0 then [x]
    else if KeyLe(x, t[0]) then [x] + t
    else
      assert t == [t[0]] + t[1..];
      [t[0]] + Insert(x, t[1..])
  }

  /** Stable sort by `SortKey`. */
  function SortByLabel(s: seq<DataSourceOption>): (r: seq<DataSourceOption>)
    ensures multiset(r) == multiset(s)
  {
    if |s| == 0 then []
    else
      assert s == [s[0]] + s[1..];
      Insert(s[0], SortByLabel(s[1..]))
  }

  lemma {:induction false} InsertSorted(x: DataSourceOption, t: seq<DataSourceOption>)
    requires Sorted(t)
    ensures Sorted(Insert(x, t))
    ensures |Insert(x, t)| == |t| + 1
    ensures |t| > 0 ==> Insert(x, t)[0] == x || Insert(x, t)[0] == t[0]
  {
    if |t| > 0 && !KeyLe(x, t[0]) {
      var rest := Insert(x, t[1..]);
      InsertSorted(x, t[1..]);
      LexLeTotal(SortKey(x), SortKey(t[0]));
      assert KeyLe(t[0], rest[0]);
      var r := [t[0]] + rest;
      forall i | 0 < i < |r|
        ensures KeyLe(r[i - 1], r[i])
      {
        if i > 1 {
          assert r[i - 1] == rest[i - 2] && r[i] == rest[i - 1];
        }
      }
    }
  }

  /** The option list produced by `SortByLabel` is non-decreasing by lower-cased label. */
  lemma {:induction false} SortByLabelSorted(s: seq<DataSourceOption>)
    ensures Sorted(SortByLabel(s))
    ensures |SortByLabel(s)| == |s|
  {
    if |s| > 0 {
      SortByLabelSorted(s[1..]);
      InsertSorted(s[0], SortByLabel(s[1..]));
    }
  }

  lemma {:induction false} SortedChain(t: seq<DataSourceOption>, i: nat, j: nat)
    requires Sorted(t)
    requires i <= j < |t|
    ensures KeyLe(t[i], t[j])
    decreases j - i
  {
    if i == j {
      LexLeReflexive(SortKey(t[i]));
    } else {
      SortedChain(t, i, j - 1);
      LexLeTransitive(SortKey(t[i]), SortKey(t[j - 1]), SortKey(t[j]));
    }
  }

  /** Sorted along the list implies sorted between any two positions. */
  lemma SortedPairwise(t: seq<DataSourceOption>)
    requires Sorted(t)
    ensures forall i, j :: 0 <= i < j < |t| ==> KeyLe(t[i], t[j])
  {
    forall i, j | 0 <= i < j < |t|
      ensures KeyLe(t[i], t[j])
    {
      SortedChain(t, i, j);
    }
  }

  /** The elements of `s` whose sort key is `k`, in their order in `s`. */
  function WithKey(s: seq<DataSourceOption>, k: string): seq<DataSourceOption> {
    if |s| == 0 then []
    else Pick(s[0], k) + WithKey(s[1..], k)
  }

  /** `[o]` when `o` has sort key `k`, otherwise `[]`. */
  function Pick(o: DataSourceOption, k: string): seq<DataSourceOption> {
    if SortKey(o) == k then [o] else []
  }

  lemma WithKeyCons(a: DataSourceOption, u: seq<DataSourceOption>, k: string)
    ensures WithKey([a] + u, k) == Pick(a, k) + WithKey(u, k)
  {
    assert ([a] + u)[0] == a && ([a] + u)[1..] == u;
  }

  /** Putting `a` in front commutes with a pick of `x` when not both have key `k`. */
  lemma WithKeyCommute(a: DataSourceOption, x: DataSourceOption, v: seq<DataSourceOption>, u: seq<DataSourceOption>, k: string)
    requires Pick(a, k) == [] || Pick(x, k) == []
    requires WithKey(v, k) == Pick(x, k) + WithKey(u, k)
    ensures WithKey([a] + v, k) == Pick(x, k) + WithKey([a] + u, k)
  {
    WithKeyCons(a, v, k);
    WithKeyCons(a, u, k);
    if Pick(a, k) == [] {
      assert [] + WithKey(v, k) == WithKey(v, k);
      assert [] + WithKey(u, k) == WithKey(u, k);
    } else {
      assert Pick(x, k) + WithKey(u, k) == WithKey(u, k);
    }
  }

  lemma SameKeyLe(x: DataSourceOption, y: DataSourceOption)
    requires SortKey(x) == SortKey(y)
    ensures KeyLe(x, y)
  {
    LexLeReflexive(SortKey(x));
  }

  lemma {:induction false} InsertWithKey(x: DataSourceOption, t: seq<DataSourceOption>, k: string)
    ensures WithKey(Insert(x, t), k) == Pick(x, k) + WithKey(t, k)
  {
    if |t| == 0 {
      WithKeyCons(x, [], k);
      assert [x] + [] == [x];
    } else if KeyLe(x, t[0]) {
      WithKeyCons(x, t, k);
    } else {
      assert Insert(x, t) == [t[0]] + Insert(x, t[1..]);
      InsertWithKey(x, t[1..], k);
      if SortKey(x) == k && SortKey(t[0]) == k {
        SameKeyLe(x, t[0]);
        assert false;
      }
      WithKeyCommute(t[0], x, Insert(x, t[1..]), t[1..], k);
      assert [t[0]] + t[1..] == t;
    }
  }

  /** Sorting is stable: options with equal lower-cased labels keep their relative order. */
  lemma {:induction false} SortByLabelStable(s: seq<DataSourceOption>, k: string)
    ensures WithKey(SortByLabel(s), k) == WithKey(s, k)
  {
    if |s| > 0 {
      SortByLabelStable(s[1..], k);
      InsertWithKey(s[0], SortByLabel(s[1..]), k);
    }
  }
}
