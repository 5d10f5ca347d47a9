/** The order in which query results come back.

    A table is a map from primary key to row and has no order of its own. A scan of it
    visits the keys in ascending text order (`SortedKeys`, `Rows`), and an `ORDER BY` is
    a stable insertion sort of that scan (`Sort`), so rows whose sort keys tie come back
    in key order. `LIMIT`/`OFFSET` is `Page`. */
module Ordering {
  import opened Common

  /** `a <= b` for text under the byte-wise ("C") collation: lexicographic on characters,
      a proper prefix first. */
  predicate TextLe(a: string, b: string)
    decreases |a|
  {
    if a == [] then true
    else if b == [] then false
    else if a[0] != b[0] then a[0] < b[0]
    else TextLe(a[1..], b[1..])
  }

  lemma {:induction false} TextLeTotal(a: string, b: string)
    ensures TextLe(a, b) || TextLe(b, a)
    decreases |a|
  {
    if a != [] && b != [] && a[0] == b[0] {
      TextLeTotal(a[1..], b[1..]);
    }
  }

  lemma {:induction false} TextLeAntisymmetric(a: string, b: string)
    requires TextLe(a, b) && TextLe(b, a)
    ensures a == b
    decreases |a|
  {
    if a != [] && b != [] {
      TextLeAntisymmetric(a[1..], b[1..]);
      assert a == [a[0]] + a[1..] && b == [b[0]] + b[1..];
    }
  }

  lemma {:induction false} TextLeTransitive(a: string, b: string, c: string)
    requires TextLe(a, b) && TextLe(b, c)
    ensures TextLe(a, c)
    decreases |a|
  {
    if a != [] && a[0] == b[0] && b[0] == c[0] {
      TextLeTransitive(a[1..], b[1..], c[1..]);
    }
  }

  lemma TextLeAntisymmetricAll()
    ensures forall a, b :: TextLe(a, b) && TextLe(b, a) ==> a == b
  {
    forall a, b | TextLe(a, b) && TextLe(b, a) ensures a == b {
      TextLeAntisymmetric(a, b);
    }
  }

  ghost predicate IsLeast(m: string, s: set<string>) {
    m in s && forall x :: x in s ==> TextLe(m, x)
  }

  /** Every finite non-empty set of texts has a least element. */
  lemma {:induction false} LeastExists(s: set<string>)
    requires s != {}
    ensures exists m :: IsLeast(m, s)
    decreases |s|
  {
    var x :| x in s;
    TextLeTotal(x, x);
    if s != {x} {
      LeastExists(s - {x});
      var m :| IsLeast(m, s - {x});
      TextLeTotal(x, m);
      if TextLe(x, m) {
        forall y | y in s ensures TextLe(x, y) {
          if y != x {
            TextLeTransitive(x, m, y);
          }
        }
        assert IsLeast(x, s);
      } else {
        assert IsLeast(m, s);
      }
    } else {
      assert IsLeast(x, s);
    }
  }

  /** The least element of a non-empty set of texts. */
  function Least(s: set<string>): (m: string)
    requires s != {}
    ensures m in s
    ensures forall x :: x in s ==> TextLe(m, x)
  {
    LeastExists(s);
    TextLeAntisymmetricAll();
    var m :| m in s && forall x :: x in s ==> TextLe(m, x);
    m
  }

  /** Any element no greater than every element of `s` is `Least(s)`. */
  lemma LeastIsUnique(s: set<string>, m: string)
    requires m in s && forall x :: x in s ==> TextLe(m, x)
    ensures Least(s) == m
  {
    TextLeAntisymmetric(Least(s), m);
  }

  /** The elements of `s`, each once, in strictly ascending text order. */
  function SortedKeys(s: set<string>): (r: seq<string>)
    ensures |r| == |s|
    ensures forall k :: k in r <==> k in s
    ensures forall i, j :: 0 <= i < j < |r| ==> TextLe(r[i], r[j]) && r[i] != r[j]
    decreases |s|
  {
    if s == {} then []
    else
      var m := Least(s);
      [m] + SortedKeys(s - {m})
  }

  /** No row occurs twice in `s`. */
  ghost predicate Distinct<R>(s: seq<R>) {
    forall i, j :: 0 <= i < j < |s| ==> s[i] != s[j]
  }

  /** No two keys of `m` hold the same row, as on a table whose rows carry their key. */
  ghost predicate Injective<R>(m: map<Id, R>) {
    forall k, k' :: k in m && k' in m && m[k] == m[k'] ==> k == k'
  }

  /** A full scan of a table: every row once, in ascending key order. */
  function Rows<R(==,!new)>(m: map<Id, R>): (r: seq<R>)
    ensures |r| == |m|
    ensures forall v :: v in r <==> v in m.Values
    ensures Injective(m) ==> Distinct(r)
  {
    var ks := SortedKeys(m.Keys);
    var r := seq(|ks|, i requires 0 <= i < |ks| => m[ks[i]]);
    ScanOfKeys(m, ks, r);
    r
  }

  /** Reading the rows of `m` under keys `ks` that list every key once gives every row of
      `m`, and with distinct rows when distinct keys hold distinct rows. */
  lemma ScanOfKeys<R>(m: map<Id, R>, ks: seq<Id>, r: seq<R>)
    requires |r| == |ks|
    requires forall k :: k in ks <==> k in m
    requires forall i :: 0 <= i < |ks| ==> r[i] == m[ks[i]]
    requires forall i, j :: 0 <= i < j < |ks| ==> ks[i] != ks[j]
    ensures forall v :: v in r <==> v in m.Values
    ensures Injective(m) ==> Distinct(r)
  {
    forall v | v in m.Values ensures v in r {
      var k :| k in m && m[k] == v;
      var i :| 0 <= i < |ks| && ks[i] == k;
      assert r[i] == v;
    }
  }

  /** `WHERE keep(row)`: the rows of `s` that satisfy `keep`, in their order, each as often
      as in `s`. */
  function Filter<R(!new)>(s: seq<R>, keep: R -> bool): (r: seq<R>)
    ensures forall x :: x in r <==> x in s && keep(x)
    ensures forall x :: multiset(r)[x] == if keep(x) then multiset(s)[x] else 0
    ensures |r| <= |s|
    ensures Distinct(s) ==> Distinct(r)
  {
    if s == [] then []
    else
      assert s == [s[0]] + s[1..];
      var rest := Filter(s[1..], keep);
      assert multiset(s) == multiset{s[0]} + multiset(s[1..]);
      HeadNotInTail(s);
      (if keep(s[0]) then [s[0]] else []) + rest
  }

  /** The first row of a sequence without repeats does not occur again. */
  lemma HeadNotInTail<R>(s: seq<R>)
    requires s != []
    ensures Distinct(s) <==> s[0] !in s[1..] && Distinct(s[1..])
  {
    if s[0] !in s[1..] && Distinct(s[1..]) {
      forall i, j | 0 <= i < j < |s| ensures s[i] != s[j] {
        if i > 0 {
          assert s[i] == s[1..][i - 1] && s[j] == s[1..][j - 1];
        } else {
          assert s[j] == s[1..][j - 1];
        }
      }
    }
  }

  /** Prepending at most one row keeps a sequence free of repeats exactly when that row is
      new to it. */
  lemma DistinctPrepend<R>(head: seq<R>, rest: seq<R>)
    requires |head| <= 1
    ensures Distinct(head + rest) <==> Distinct(rest) && (head != [] ==> head[0] !in rest)
  {
    if head != [] {
      assert (head + rest)[1..] == rest;
      HeadNotInTail(head + rest);
    } else {
      assert head + rest == rest;
    }
  }

  /** A sequence has no repeats exactly when no row occurs in it more than once, so a
      permutation of a sequence without repeats has none either. */
  lemma {:induction false} DistinctIffSingles<R>(s: seq<R>)
    ensures Distinct(s) <==> forall x :: multiset(s)[x] <= 1
  {
    if s != [] {
      DistinctIffSingles(s[1..]);
      HeadNotInTail(s);
      assert s == [s[0]] + s[1..];
      var m, rest := multiset(s), multiset(s[1..]);
      assert m == multiset{s[0]} + rest;
      if Distinct(s) {
        assert rest[s[0]] == 0;
        forall x ensures m[x] <= 1 {
          if x != s[0] {
            assert m[x] == rest[x];
          }
        }
      }
      if forall x :: m[x] <= 1 {
        assert s[0] !in s[1..] by {
          assert m[s[0]] == 1 + rest[s[0]];
        }
        forall x ensures rest[x] <= 1 {
          assert rest[x] <= m[x];
        }
      }
    }
  }

  /** `le` compares any two rows. */
  ghost predicate Total<R(!new)>(le: (R, R) -> bool) {
    forall a, b :: le(a, b) || le(b, a)
  }

  /** Each row of `s` comes no later than the next one under `le`. */
  ghost predicate SortedBy<R>(s: seq<R>, le: (R, R) -> bool) {
    forall i :: 0 < i < |s| ==> le(s[i - 1], s[i])
  }

  /** Puts `x` before the first row of the sorted `s` that it may precede. */
  function Insert<R(!new)>(x: R, s: seq<R>, le: (R, R) -> bool): (r: seq<R>)
    requires Total(le) && SortedBy(s, le)
    ensures |r| == |s| + 1
    ensures multiset(r) == multiset(s) + multiset{x}
    ensures SortedBy(r, le)
    ensures r[0] == x || (|s| > 0 && r[0] == s[0])
  {
    if s == [] then [x]
    else if le(x, s[0]) then [x] + s
    else
      assert s == [s[0]] + s[1..];
      [s[0]] + Insert(x, s[1..], le)
  }

  /** `ORDER BY`: a permutation of `s` sorted by `le`. */
  function Sort<R(!new)>(s: seq<R>, le: (R, R) -> bool): (r: seq<R>)
    requires Total(le)
    ensures |r| == |s|
    ensures multiset(r) == multiset(s)
    ensures forall x :: x in r <==> x in s
    ensures SortedBy(r, le)
    ensures Distinct(s) ==> Distinct(r)
  {
    if s == [] then []
    else
      assert s == [s[0]] + s[1..];
      var r := Insert(s[0], Sort(s[1..], le), le);
      assert forall x :: x in r <==> x in multiset(r);
      DistinctIffSingles(s);
      DistinctIffSingles(r);
      r
  }

  function Min(a: int, b: int): int {
    if a <= b then a else b
  }

  /** `LIMIT limit OFFSET offset`: skips the first `offset` rows and keeps at most `limit`. */
  function Page<R>(s: seq<R>, limit: nat, offset: nat): (r: seq<R>)
    ensures |r| == if offset >= |s| then 0 else Min(limit, |s| - offset)
    ensures forall i :: 0 <= i < |r| ==> r[i] == s[offset + i]
    ensures Distinct(s) ==> Distinct(r)
  {
    if offset >= |s| then [] else s[offset..offset + Min(limit, |s| - offset)]
  }

  /** A page of a sorted sequence is sorted and holds only rows of that sequence. */
  lemma PageOfSorted<R>(s: seq<R>, limit: nat, offset: nat, le: (R, R) -> bool)
    requires SortedBy(s, le)
    ensures SortedBy(Page(s, limit, offset), le)
    ensures forall x :: x in Page(s, limit, offset) ==> x in s
  {
    var r := Page(s, limit, offset);
    forall i | 0 < i < |r| ensures le(r[i - 1], r[i]) {
      assert r[i - 1] == s[offset + i - 1] && r[i] == s[offset + i];
    }
    forall x | x in r ensures x in s {
      var i :| 0 <= i < |r| && r[i] == x;
      assert r[i] == s[offset + i];
    }
  }

  /** Reading two consecutive pages gives the same rows as reading one page as long as both. */
  lemma PagesConcatenate<R>(s: seq<R>, a: nat, b: nat, offset: nat)
    ensures Page(s, a, offset) + Page(s, b, offset + a) == Page(s, a + b, offset)
  {
    var p, q, whole := Page(s, a, offset), Page(s, b, offset + a), Page(s, a + b, offset);
    assert |p + q| == |whole|;
    forall i | 0 <= i < |whole| ensures (p + q)[i] == whole[i] {
      if i >= |p| {
        assert (p + q)[i] == q[i - |p|];
      }
    }
  }
}
