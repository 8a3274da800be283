/** Strings in byte order, as the reconciler writes everything out
    (cli/internal/reconcile/render.go). */
module Sorting {

  predicate Before(a: string, b: string) {
    if b == [] then false
    else if a == [] then true
    else if a[0] != b[0] then a[0] < b[0]
    else Before(a[1..], b[1..])
  }

  lemma {:induction false} OneIsBefore(a: string, b: string)
    ensures a == b || Before(a, b) || Before(b, a)
  {
    if a != [] && b != [] && a[0] == b[0] {
      OneIsBefore(a[1..], b[1..]);
      assert a == [a[0]] + a[1..] && b == [b[0]] + b[1..];
    }
  }

  lemma {:induction false} NotBothBefore(a: string, b: string)
    ensures !(Before(a, b) && Before(b, a))
  {
    if a != [] && b != [] && a[0] == b[0] {
      NotBothBefore(a[1..], b[1..]);
    }
  }

  lemma {:induction false} BeforeBoth(a: string, b: string, c: string)
    requires Before(a, b) && Before(b, c)
    ensures Before(a, c)
  {
    if a != [] && b[0] == a[0] && b[0] == c[0] {
      BeforeBoth(a[1..], b[1..], c[1..]);
    }
  }

  predicate StrictlySorted(s: seq<string>) {
    forall i, j :: 0 <= i < j < |s| ==> Before(s[i], s[j])
  }

  predicate Sorted(s: seq<string>) {
    forall i, j :: 0 <= i < j < |s| ==> !Before(s[j], s[i])
  }

  /** Where x goes: after everything not past it. */
  function Place(s: seq<string>, x: string): (k: nat)
    ensures k <= |s| && (forall i :: 0 <= i < k ==> !Before(x, s[i])) && (k < |s| ==> Before(x, s[k]))
  {
    if s == [] || Before(x, s[0]) then 0 else 1 + Place(s[1..], x)
  }

  function Insert(s: seq<string>, x: string): seq<string> {
    s[..Place(s, x)] + [x] + s[Place(s, x)..]
  }

  function Sort(s: seq<string>): seq<string> {
    if s == [] then [] else Insert(Sort(s[..|s| - 1]), s[|s| - 1])
  }

  lemma NotBeforeBoth(a: string, b: string, c: string)
    requires !Before(b, a) && !Before(c, b)
    ensures !Before(c, a)
  {
    OneIsBefore(a, b);
    OneIsBefore(b, c);
    NotBothBefore(a, c);
    if Before(a, b) && Before(b, c) {
      BeforeBoth(a, b, c);
    }
  }

  lemma PlacedAfter(s: seq<string>, x: string, i: nat)
    requires Sorted(s) && Place(s, x) <= i < |s|
    ensures !Before(s[i], x)
  {
    var k := Place(s, x);
    NotBothBefore(x, s[k]);
    if k < i {
      NotBeforeBoth(x, s[k], s[i]);
    }
  }

  lemma InsertSorts(s: seq<string>, x: string)
    requires Sorted(s)
    ensures Sorted(Insert(s, x))
  {
    var k := Place(s, x);
    var t := Insert(s, x);
    assert t[..k] == s[..k] && t[k] == x && t[k + 1..] == s[k..];
    forall i, j | 0 <= i < j < |t|
      ensures !Before(t[j], t[i])
    {
      if i == k {
        assert t[j] == s[j - 1];
        PlacedAfter(s, x, j - 1);
      } else if j != k {
        assert t[i] == (if i < k then s[i] else s[i - 1]) && t[j] == (if j < k then s[j] else s[j - 1]);
      }
    }
  }

  lemma InsertAdds(s: seq<string>, x: string)
    ensures multiset(Insert(s, x)) == multiset(s) + multiset{x}
  {
    assert s == s[..Place(s, x)] + s[Place(s, x)..];
  }

  /** Sorting keeps every element and orders them. */
  lemma {:induction false} SortSorts(s: seq<string>)
    ensures Sorted(Sort(s)) && multiset(Sort(s)) == multiset(s)
  {
    if s != [] {
      SortSorts(s[..|s| - 1]);
      InsertSorts(Sort(s[..|s| - 1]), s[|s| - 1]);
      InsertAdds(Sort(s[..|s| - 1]), s[|s| - 1]);
      assert s == s[..|s| - 1] + [s[|s| - 1]];
    }
  }

  method SortStrings(s: seq<string>) returns (sorted: seq<string>)
    ensures sorted == Sort(s)
  {
    sorted := [];
    for i := 0 to |s|
      invariant sorted == Sort(s[..i])
    {
      assert s[..i + 1][..i] == s[..i];
      sorted := Insert(sorted, s[i]);
    }
    assert s[..|s|] == s;
  }

  lemma PlacedLast(s: seq<string>, x: string, i: nat)
    requires StrictlySorted(s) && x !in s && i < |s|
    ensures if i < Place(s, x) then Before(s[i], x) else Before(x, s[i])
  {
    var k := Place(s, x);
    if i < k {
      OneIsBefore(s[i], x);
    } else if k < i {
      BeforeBoth(x, s[k], s[i]);
    }
  }

  lemma InsertHolds(s: seq<string>, x: string, y: string)
    ensures y in Insert(s, x) <==> y in s || y == x
  {
    var k := Place(s, x);
    assert s == s[..k] + s[k..];
    assert y in s <==> y in s[..k] || y in s[k..];
  }

  lemma InsertNew(s: seq<string>, x: string)
    requires StrictlySorted(s) && x !in s
    ensures StrictlySorted(Insert(s, x))
    ensures forall y :: y in Insert(s, x) <==> y in s || y == x
  {
    var k, t := Place(s, x), Insert(s, x);
    forall y
      ensures y in t <==> y in s || y == x
    {
      InsertHolds(s, x, y);
    }
    forall i, j | 0 <= i < j < |t|
      ensures Before(t[i], t[j])
    {
      assert t[i] == (if i < k then s[i] else if i == k then x else s[i - 1]);
      assert t[j] == (if j < k then s[j] else if j == k then x else s[j - 1]);
      if j == k {
        PlacedLast(s, x, i);
      } else if i == k {
        PlacedLast(s, x, j - 1);
      }
    }
  }

  lemma FirstIsFirst(a: seq<string>, b: seq<string>)
    requires StrictlySorted(a) && StrictlySorted(b) && a != [] && b != []
    requires forall k :: k in a <==> k in b
    ensures a[0] == b[0]
  {
    assert a[0] in b && b[0] in a;
    var i :| 0 <= i < |b| && b[i] == a[0];
    var j :| 0 <= j < |a| && a[j] == b[0];
    if i > 0 && j > 0 {
      NotBothBefore(a[0], b[0]);
    }
  }

  /** One set of keys has one order, so what is written from it is always the same. */
  lemma {:induction false} OneOrder(a: seq<string>, b: seq<string>)
    requires StrictlySorted(a) && StrictlySorted(b)
    requires forall k :: k in a <==> k in b
    ensures a == b
    decreases |a|
  {
    if a != [] {
      assert a[0] in b;
    }
    if b != [] {
      assert b[0] in a;
      FirstIsFirst(a, b);
      forall k
        ensures k in a[1..] <==> k in b[1..]
      {
        RestWithout(a, k);
        RestWithout(b, k);
      }
      OneOrder(a[1..], b[1..]);
      assert a == [a[0]] + a[1..] && b == [b[0]] + b[1..];
    }
  }

  lemma RestWithout(s: seq<string>, k: string)
    requires StrictlySorted(s) && s != []
    ensures k in s[1..] <==> k in s && k != s[0]
  {
    if k in s[1..] {
      var i :| 0 <= i < |s[1..]| && s[1..][i] == k;
      NotBothBefore(s[0], s[i + 1]);
    }
  }

  /** The one order of a set of keys. */
  ghost function InOrder(keys: set<string>): (s: seq<string>)
    ensures StrictlySorted(s) && forall k :: k in s <==> k in keys
    decreases |keys|
  {
    if keys == {} then []
    else
      var k :| k in keys;
      InsertNew(InOrder(keys - {k}), k);
      Insert(InOrder(keys - {k}), k)
  }

  /** The keys of a map, in order, whatever order they were met in. */
  method SortedKeys(keys: set<string>) returns (s: seq<string>)
    ensures s == InOrder(keys)
  {
    s := [];
    var left := keys;
    while left != {}
      invariant left <= keys && StrictlySorted(s)
      invariant forall k :: k in s <==> k in keys && k !in left
      decreases |left|
    {
      var k :| k in left;
      InsertNew(s, k);
      s := Insert(s, k);
      left := left - {k};
    }
    OneOrder(s, InOrder(keys));
  }
}
