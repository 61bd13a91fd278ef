/** Sorting distinct elements under a strict order: the listing is unique, so
    what is written in sorted order depends only on the set of elements. */
module Ordering {
  import opened RaftTypes

  ghost predicate StrictOrder<T(!new)>(lt: (T, T) -> bool) {
    && (forall x :: !lt(x, x))
    && (forall x, y, z :: lt(x, y) && lt(y, z) ==> lt(x, z))
    && (forall x, y :: lt(x, y) || x == y || lt(y, x))
  }

  predicate Ascending<T>(lt: (T, T) -> bool, s: seq<T>) {
    forall i, j | 0 <= i < j < |s| :: lt(s[i], s[j])
  }

  /** `s` lists the elements of `all` in ascending order. */
  ghost predicate Lists<T>(lt: (T, T) -> bool, s: seq<T>, all: set<T>) {
    Ascending(lt, s) && (forall x | x in s :: x in all) && (forall x | x in all :: x in s)
  }

  lemma Least<T(!new)>(lt: (T, T) -> bool, s: seq<T>, x: T)
    requires StrictOrder(lt) && Ascending(lt, s) && x in s
    ensures x == s[0] || lt(s[0], x)
  {
  }

  lemma ListsNone<T>(lt: (T, T) -> bool, s: seq<T>, all: set<T>)
    requires Lists(lt, s, all)
    ensures s == [] <==> all == {}
  {
    if s != [] { assert s[0] in all; }
  }

  /** A set has one ascending listing. */
  lemma {:induction false} ListingUnique<T(!new)>(lt: (T, T) -> bool, a: seq<T>, b: seq<T>, all: set<T>)
    requires StrictOrder(lt) && Lists(lt, a, all) && Lists(lt, b, all)
    ensures a == b
    decreases |a|
  {
    ListsNone(lt, a, all);
    ListsNone(lt, b, all);
    if a != [] {
      assert a[0] in all && a[0] in b;
      assert b[0] in all && b[0] in a;
      Least(lt, a, b[0]);
      Least(lt, b, a[0]);
      assert a[0] == b[0];
      TailLists(lt, a, all);
      TailLists(lt, b, all);
      ListingUnique(lt, a[1..], b[1..], all - {a[0]});
      assert a == [a[0]] + a[1..] && b == [b[0]] + b[1..];
    }
  }

  lemma TailLists<T(!new)>(lt: (T, T) -> bool, a: seq<T>, all: set<T>)
    requires StrictOrder(lt) && Lists(lt, a, all) && a != []
    ensures Lists(lt, a[1..], all - {a[0]})
  {
    forall x | x in a[1..] ensures x in all - {a[0]} {
      var i :| 0 <= i < |a[1..]| && a[1..][i] == x;
      assert x == a[i + 1] && lt(a[0], x);
    }
    forall x | x in all - {a[0]} ensures x in a[1..] {
      var i :| 0 <= i < |a| && a[i] == x;
      assert a[1..][i - 1] == x;
    }
  }

  /** Insertion into an ascending sequence. */
  function Inserted<T>(lt: (T, T) -> bool, x: T, s: seq<T>): seq<T> {
    if s == [] || lt(x, s[0]) then [x] + s else [s[0]] + Inserted(lt, x, s[1..])
  }

  lemma {:induction false} InsertedElements<T>(lt: (T, T) -> bool, x: T, s: seq<T>)
    ensures forall y :: y in Inserted(lt, x, s) <==> y == x || y in s
    decreases |s|
  {
    if s != [] && !lt(x, s[0]) {
      InsertedElements(lt, x, s[1..]);
      assert s == [s[0]] + s[1..];
    }
  }

  lemma {:induction false} InsertedAscends<T(!new)>(lt: (T, T) -> bool, x: T, s: seq<T>)
    requires StrictOrder(lt) && Ascending(lt, s) && x !in s
    ensures Ascending(lt, Inserted(lt, x, s))
    decreases |s|
  {
    if s == [] {
    } else if lt(x, s[0]) {
      forall i, j | 0 <= i < j < |s| + 1 ensures lt(([x] + s)[i], ([x] + s)[j]) {
        if i == 0 && j > 1 { assert lt(s[0], s[j - 1]); }
      }
    } else {
      var t := Inserted(lt, x, s[1..]);
      InsertedAscends(lt, x, s[1..]);
      InsertedElements(lt, x, s[1..]);
      forall j | 0 <= j < |t| ensures lt(s[0], t[j]) {
        assert t[j] in t;
        if t[j] != x {
          var k :| 0 <= k < |s[1..]| && s[1..][k] == t[j];
          assert t[j] == s[k + 1];
        }
      }
      forall i, j | 0 <= i < j < |t| + 1 ensures lt(([s[0]] + t)[i], ([s[0]] + t)[j]) {
      }
    }
  }

  /** Collects a set in whatever order it is iterated, keeping it sorted. */
  method Sort<T(==, !new)>(lt: (T, T) -> bool, all: set<T>) returns (r: seq<T>)
    requires StrictOrder(lt)
    ensures Lists(lt, r, all)
  {
    r := [];
    var left := all;
    while left != {}
      invariant left <= all && Lists(lt, r, all - left)
      decreases |left|
    {
      var x :| x in left;
      InsertedAscends(lt, x, r);
      InsertedElements(lt, x, r);
      r := Inserted(lt, x, r);
      left := left - {x};
    }
  }

  // ----- the two orders in use -----

  predicate Below(a: nat, b: nat) { a < b }

  /** Byte-wise lexicographic order. */
  predicate Before(a: Bytes, b: Bytes)
    decreases |a|
  {
    if a == [] then b != []
    else b != [] && (a[0] < b[0] || (a[0] == b[0] && Before(a[1..], b[1..])))
  }

  lemma BelowOrders()
    ensures StrictOrder(Below)
  {
  }

  /** One byte string comes before another if it is shorter and the other extends
      it, or if it has the smaller byte where they first differ. */
  lemma {:induction false} BeforeMeans(a: Bytes, b: Bytes)
    ensures Before(a, b) <==> a < b || exists i: nat :: FirstDiffer(a, b, i) && a[i] < b[i]
    decreases |a|
  {
    if a != [] && b != [] {
      hide FirstDiffer;
      if a[0] == b[0] {
        BeforeMeans(a[1..], b[1..]);
        if i: nat :| FirstDiffer(a[1..], b[1..], i) && a[1..][i] < b[1..][i] { DifferLater(a, b, i + 1); }
        if i: nat :| FirstDiffer(a, b, i) && a[i] < b[i] { DifferLater(a, b, i); }
        assert a == [a[0]] + a[1..] && b == [b[0]] + b[1..];
      } else {
        DifferAtOnce(a, b);
      }
    }
  }

  predicate FirstDiffer(a: Bytes, b: Bytes, i: nat) {
    i < |a| && i < |b| && a[i] != b[i] && forall j | 0 <= j < i :: a[j] == b[j]
  }

  lemma DifferAtOnce(a: Bytes, b: Bytes)
    requires a != [] && b != [] && a[0] != b[0]
    ensures forall i: nat :: FirstDiffer(a, b, i) <==> i == 0
  {
  }

  lemma DifferLater(a: Bytes, b: Bytes, i: nat)
    requires a != [] && b != [] && a[0] == b[0]
    ensures FirstDiffer(a, b, i) <==> i > 0 && FirstDiffer(a[1..], b[1..], i - 1)
    ensures i > 0 && FirstDiffer(a, b, i) ==> a[i] == a[1..][i - 1] && b[i] == b[1..][i - 1]
  {
    if i > 0 && FirstDiffer(a[1..], b[1..], i - 1) {
      forall j | 0 <= j < i ensures a[j] == b[j] {
        if j > 0 { assert a[1..][j - 1] == b[1..][j - 1]; }
      }
    }
  }

  lemma {:induction false} BeforeIrreflexive(a: Bytes)
    ensures !Before(a, a)
    decreases |a|
  {
    if a != [] { BeforeIrreflexive(a[1..]); }
  }

  lemma {:induction false} BeforeTransitive(a: Bytes, b: Bytes, c: Bytes)
    requires Before(a, b) && Before(b, c)
    ensures Before(a, c)
    decreases |a|
  {
    if a != [] && a[0] == b[0] && b[0] == c[0] { BeforeTransitive(a[1..], b[1..], c[1..]); }
  }

  lemma {:induction false} BeforeTotal(a: Bytes, b: Bytes)
    ensures Before(a, b) || a == b || Before(b, a)
    decreases |a|
  {
    if a != [] && b != [] && a[0] == b[0] {
      BeforeTotal(a[1..], b[1..]);
      assert a == [a[0]] + a[1..] && b == [b[0]] + b[1..];
    }
  }

  lemma BeforeOrders()
    ensures StrictOrder(Before)
  {
    forall x: Bytes ensures !Before(x, x) { BeforeIrreflexive(x); }
    forall x: Bytes, y: Bytes, z: Bytes | Before(x, y) && Before(y, z) ensures Before(x, z) { BeforeTransitive(x, y, z); }
    forall x: Bytes, y: Bytes ensures Before(x, y) || x == y || Before(y, x) { BeforeTotal(x, y); }
  }
}
