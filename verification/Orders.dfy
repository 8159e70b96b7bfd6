/** Orders, sorting and the uniqueness of sorted permutations. The source sorts
    with library routines; nothing below depends on which algorithm they use. */
module Orders {

  ghost predicate Transitive<T(!new)>(le: (T, T) -> bool) {
    forall x, y, z :: le(x, y) && le(y, z) ==> le(x, z)
  }

  ghost predicate Connected<T(!new)>(le: (T, T) -> bool) {
    forall x, y :: le(x, y) || le(y, x)
  }

  ghost predicate AntiSymmetric<T(!new)>(le: (T, T) -> bool) {
    forall x, y :: le(x, y) && le(y, x) ==> x == y
  }

  ghost predicate Preorder<T(!new)>(le: (T, T) -> bool) {
    Transitive(le) && Connected(le)
  }

  ghost predicate TotalOrder<T(!new)>(le: (T, T) -> bool) {
    Preorder(le) && AntiSymmetric(le)
  }

  ghost predicate SortedBy<T>(le: (T, T) -> bool, s: seq<T>) {
    forall i, j :: 0 <= i < j < |s| ==> le(s[i], s[j])
  }

  function Insert<T>(le: (T, T) -> bool, x: T, s: seq<T>): (r: seq<T>)
    ensures multiset(r) == multiset(s) + multiset{x}
  {
    if s == [] then [x]
    else if le(x, s[0]) then [x] + s
    else
      assert s == [s[0]] + s[1..];
      [s[0]] + Insert(le, x, s[1..])
  }

  function Sort<T>(le: (T, T) -> bool, s: seq<T>): (r: seq<T>)
    ensures multiset(r) == multiset(s)
  {
    if s == [] then []
    else
      assert s == s[..|s| - 1] + [s[|s| - 1]];
      Insert(le, s[|s| - 1], Sort(le, s[..|s| - 1]))
  }

  lemma {:induction false} InsertSorted<T(!new)>(le: (T, T) -> bool, x: T, s: seq<T>)
    requires Preorder(le) && SortedBy(le, s)
    ensures SortedBy(le, Insert(le, x, s))
  {
    if s == [] || le(x, s[0]) {
    } else {
      InsertSorted(le, x, s[1..]);
      var rest := Insert(le, x, s[1..]);
      forall j | 0 <= j < |rest| ensures le(s[0], rest[j]) {
        assert rest[j] in multiset(rest);
        assert rest[j] == x || rest[j] in s[1..];
      }
    }
  }

  lemma {:induction false} SortSorted<T(!new)>(le: (T, T) -> bool, s: seq<T>)
    requires Preorder(le)
    ensures SortedBy(le, Sort(le, s))
  {
    if s != [] {
      SortSorted(le, s[..|s| - 1]);
      InsertSorted(le, s[|s| - 1], Sort(le, s[..|s| - 1]));
    }
  }

  lemma FirstIsLeast<T(!new)>(le: (T, T) -> bool, s: seq<T>, x: T)
    requires Preorder(le) && SortedBy(le, s) && x in multiset(s)
    ensures s != [] && le(s[0], x)
  {
    var i :| 0 <= i < |s| && s[i] == x;
    assert le(s[0], s[0]);
  }

  /** Under a total order a multiset has one sorted arrangement only: the
      outcome of an unstable sort is determined. */
  lemma {:induction false} SortedPermutationsEqual<T(!new)>(le: (T, T) -> bool, a: seq<T>, b: seq<T>)
    requires TotalOrder(le)
    requires SortedBy(le, a) && SortedBy(le, b)
    requires multiset(a) == multiset(b)
    ensures a == b
  {
    assert |multiset(a)| == |a| && |multiset(b)| == |b|;
    if a != [] {
      FirstIsLeast(le, a, b[0]) by {
        assert b[0] in multiset(b);
      }
      FirstIsLeast(le, b, a[0]) by {
        assert a[0] in multiset(a);
      }
      assert a[0] == b[0];
      hide TotalOrder;
      assert a == [a[0]] + a[1..] && b == [b[0]] + b[1..];
      assert multiset(a[1..]) == multiset(a) - multiset{a[0]};
      assert multiset(b[1..]) == multiset(b) - multiset{b[0]};
      SortedPermutationsEqual(le, a[1..], b[1..]);
    }
  }

  /** `order` lists every member of `s` once: some order in which the source may
      range over a map. */
  ghost predicate Enumerates<T(!new)>(order: seq<T>, s: set<T>) {
    && (forall x :: x in order <==> x in s)
    && (forall i, j :: 0 <= i < j < |order| ==> order[i] != order[j])
  }

  function Map<A, B>(f: A -> B, s: seq<A>): (r: seq<B>)
    ensures |r| == |s| && forall i :: 0 <= i < |s| ==> r[i] == f(s[i])
  {
    seq(|s|, i requires 0 <= i < |s| => f(s[i]))
  }

  lemma MapWithout<A, B>(f: A -> B, s: seq<A>, k: nat)
    requires k < |s|
    ensures multiset(Map(f, s)) == multiset(Map(f, s[..k] + s[k + 1..])) + multiset{f(s[k])}
  {
    assert Map(f, s) == Map(f, s[..k]) + [f(s[k])] + Map(f, s[k + 1..]);
    assert Map(f, s[..k] + s[k + 1..]) == Map(f, s[..k]) + Map(f, s[k + 1..]);
  }

  lemma EnumerationEmpty<T(!new)>(order: seq<T>, s: set<T>)
    requires Enumerates(order, s)
    ensures order == [] <==> s == {}
  {
    if order != [] {
      assert order[0] in order;
    }
  }

  lemma {:induction false} EnumerationSize<T(!new)>(order: seq<T>, s: set<T>)
    requires Enumerates(order, s)
    ensures |order| == |s|
  {
    EnumerationEmpty(order, s);
    if order != [] {
      assert order[0] in order;
      DropEnumerated(order, s, 0);
      EnumerationSize(order[..0] + order[1..], s - {order[0]});
    }
  }

  /** Whatever order a set is listed in, the images are the same. */
  lemma {:induction false} EnumeratedImages<A(!new), B>(f: A -> B, a: seq<A>, b: seq<A>, s: set<A>)
    requires Enumerates(a, s) && Enumerates(b, s)
    ensures multiset(Map(f, a)) == multiset(Map(f, b))
  {
    if a == [] {
      EnumerationEmpty(a, s);
      EnumerationEmpty(b, s);
    } else {
      assert a[0] in a && a[0] in b;
      var k :| 0 <= k < |b| && b[k] == a[0];
      DropEnumerated(a, s, 0);
      DropEnumerated(b, s, k);
      EnumeratedImages(f, a[..0] + a[1..], b[..k] + b[k + 1..], s - {a[0]});
      MapWithout(f, a, 0);
      MapWithout(f, b, k);
    }
  }

  lemma DropEnumerated<T(!new)>(a: seq<T>, s: set<T>, k: nat)
    requires Enumerates(a, s) && k < |a|
    ensures Enumerates(a[..k] + a[k + 1..], s - {a[k]})
  {
    var rest := a[..k] + a[k + 1..];
    forall x ensures x in rest <==> x in s && x != a[k] {
      if x in s && x != a[k] {
        var i :| 0 <= i < |a| && a[i] == x;
        assert rest[if i < k then i else i - 1] == x;
      }
    }
  }

  /** Go's iteration over the keys of a map: any order. */
  method Range<T(==,!new)>(s: set<T>) returns (order: seq<T>)
    ensures Enumerates(order, s)
  {
    order := [];
    var todo := s;
    while todo != {}
      invariant todo <= s && Enumerates(order, s - todo)
    {
      var x :| x in todo;
      order := order + [x];
      todo := todo - {x};
    }
  }

  /** Lexicographic order on strings, the order of Go's string comparison. */
  predicate LexLe(a: string, b: string) {
    a == "" || (b != "" && (a[0] < b[0] || (a[0] == b[0] && LexLe(a[1..], b[1..]))))
  }

  /** A string comes before its extensions, and before the strings that are larger
      where the two first differ. */
  lemma {:induction false} LexLeMeans(a: string, b: string)
    ensures LexLe(a, b) <==> a <= b || exists k :: 0 <= k < |a| && DiffersAt(a, b, k) && a[k] < b[k]
  {
    if a != "" && b != "" {
      LexLeMeans(a[1..], b[1..]);
      var (c, d) := (a[1..], b[1..]);
      assert a == [a[0]] + c && b == [b[0]] + d;
      if a[0] == b[0] {
        forall k | 0 <= k < |c| ensures DiffersAt(c, d, k) <==> DiffersAt(a, b, k + 1) {
          if k < |d| {
            assert a[..k + 1] == [a[0]] + c[..k] && b[..k + 1] == [b[0]] + d[..k];
            assert a[..k + 1][1..] == c[..k] && b[..k + 1][1..] == d[..k];
          }
        }
        if k :| 0 <= k < |c| && DiffersAt(c, d, k) && c[k] < d[k] {
          assert DiffersAt(a, b, k + 1);
        }
        if k :| 0 <= k < |a| && DiffersAt(a, b, k) && a[k] < b[k] {
          assert DiffersAt(c, d, k - 1);
        }
      } else {
        assert DiffersAt(a, b, 0);
        if k :| 0 <= k < |a| && DiffersAt(a, b, k) && a[k] < b[k] {
          assert k > 0 ==> a[..k][0] == b[..k][0];
        }
      }
    }
  }

  /** `k` is the first place where the strings differ. */
  predicate DiffersAt(a: string, b: string, k: nat) {
    k < |a| && k < |b| && a[..k] == b[..k] && a[k] != b[k]
  }

  lemma {:induction false} LexConnected(a: string, b: string)
    ensures LexLe(a, b) || LexLe(b, a)
  {
    if a != "" && b != "" {
      LexConnected(a[1..], b[1..]);
    }
  }

  lemma {:induction false} LexAntiSymmetric(a: string, b: string)
    requires LexLe(a, b) && LexLe(b, a)
    ensures a == b
  {
    if a != "" && b != "" {
      LexAntiSymmetric(a[1..], b[1..]);
      assert a == [a[0]] + a[1..] && b == [b[0]] + b[1..];
    }
  }

  lemma {:induction false} LexTransitive(a: string, b: string, c: string)
    requires LexLe(a, b) && LexLe(b, c)
    ensures LexLe(a, c)
  {
    if a != "" && b != "" && c != "" && a[0] == b[0] && b[0] == c[0] {
      LexTransitive(a[1..], b[1..], c[1..]);
    }
  }

  lemma LexTotalOrder()
    ensures TotalOrder(LexLe)
  {
    forall a, b ensures LexLe(a, b) || LexLe(b, a) { LexConnected(a, b); }
    forall a, b | LexLe(a, b) && LexLe(b, a) ensures a == b { LexAntiSymmetric(a, b); }
    forall a, b, c | LexLe(a, b) && LexLe(b, c) ensures LexLe(a, c) { LexTransitive(a, b, c); }
  }
}
