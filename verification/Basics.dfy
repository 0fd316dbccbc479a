/** Small shared vocabulary: options, bytes, and the orders `BTreeMap` iterates in. */
module Basics {

  datatype Option<+T> = None | Some(value: T)

  type Byte = x: nat | x < 256
  type Bytes = seq<Byte>

  function Max(a: int, b: int): int { if a >= b then a else b }

  function Min(a: int, b: int): int { if a <= b then a else b }

  /** `saturating_sub` on an unsigned integer. */
  function SatSub(a: nat, b: nat): nat { if a >= b then a - b else 0 }

  /** The larger of a mark not yet made and `r`. */
  function Raise(o: Option<nat>, r: nat): Option<nat> {
    if o.None? then Some(r) else Some(Max(o.value, r))
  }

  /** `div_ceil`. */
  function DivCeil(a: nat, b: nat): nat
    requires b > 0
  {
    (a + b - 1) / b
  }

  lemma Quotient(a: nat, b: nat, q: nat)
    requires b > 0
    ensures a / b >= q <==> a >= q * b
  {
    var d := a / b;
    assert a == d * b + a % b;
    assert d >= q ==> d * b >= q * b;
    assert d < q ==> (d + 1) * b <= q * b;
  }

  // ---------------------------------------------------------------- finite sets

  function Members<T>(s: seq<T>): set<T> { set x | x in s }

  predicate Unique<T(==)>(s: seq<T>) {
    forall i, j :: 0 <= i < j < |s| ==> s[i] != s[j]
  }

  lemma SubsetSize<T>(a: set<T>, b: set<T>)
    requires a <= b
    ensures |a| <= |b|
    ensures |a| == |b| ==> a == b
  {
    assert b == a + (b - a);
    assert |b| == |a| + |b - a|;
  }

  /** `0..n` as a set. */
  function Range(n: nat): (r: set<nat>)
    ensures forall x: nat :: x in r <==> x < n
    ensures |r| == n
  {
    if n == 0 then {} else Range(n - 1) + {n - 1}
  }

  lemma RangeSize(s: set<nat>, n: nat)
    requires forall x :: x in s ==> x < n
    ensures |s| <= n
  {
    SubsetSize(s, Range(n));
  }

  lemma Remainder<T>(all: set<T>, a: set<T>)
    ensures |all - a| >= |all| - |a|
  {
    SubsetSize(all * a, a);
    assert all == (all - a) + (all * a);
    assert |all| == |all - a| + |all * a|;
  }

  function TheElement<T>(s: set<T>): (x: T)
    requires |s| == 1
    ensures s == {x}
  {
    var y :| y in s;
    assert |s - {y}| == 0;
    assert s == {y};
    y
  }

  // ---------------------------------------------------------------- ascending order

  ghost predicate Ascending(s: seq<nat>) {
    forall i, j :: 0 <= i < j < |s| ==> s[i] < s[j]
  }

  lemma HasLeast(s: set<nat>)
    requires s != {}
    ensures exists m :: m in s && forall x :: x in s ==> m <= x
  {
    var m :| m in s;
    if y :| y in s && y < m {
      var rest := s - {m};
      assert y in rest;
      HasLeast(rest);
      var l :| l in rest && forall x :: x in rest ==> l <= x;
      forall x | x in s ensures l <= x {
        if x != m { assert x in rest; }
      }
    }
  }

  function Least(s: set<nat>): (m: nat)
    requires s != {}
    ensures m in s && forall x :: x in s ==> m <= x
  {
    HasLeast(s);
    var m :| m in s && forall x :: x in s ==> m <= x;
    m
  }

  /** The keys of a `BTreeMap` in iteration order. */
  function Sorted(s: set<nat>): (r: seq<nat>)
    ensures Ascending(r)
    ensures forall x :: x in r <==> x in s
    decreases |s|
  {
    if s == {} then [] else
      var m := Least(s);
      var rest := Sorted(s - {m});
      assert forall x :: x in [m] + rest <==> x in s;
      [m] + rest
  }

  lemma HeadIn<T>(s: seq<T>)
    ensures s == [] || s[0] in s
  {
  }

  lemma {:induction false} AscendingUnique(a: seq<nat>, b: seq<nat>)
    requires Ascending(a) && Ascending(b)
    requires forall x :: x in a <==> x in b
    ensures a == b
  {
    if a == [] {
      HeadIn(b);
    } else {
      assert a[0] in b && b != [];
      assert b[0] in a;
      assert a[0] == b[0];
      forall x ensures x in a[1..] <==> x in b[1..] {
        if x in a[1..] {
          assert x in b && x != a[0];
        }
        if x in b[1..] {
          assert x in a && x != b[0];
        }
      }
      AscendingUnique(a[1..], b[1..]);
    }
  }

  // ---------------------------------------------------------------- lexicographic order

  /** `Vec`'s and byte arrays' `Ord`: lexicographic, a proper prefix first. */
  predicate LexLeq(a: seq<nat>, b: seq<nat>) {
    if a == [] then true
    else if b == [] then false
    else if a[0] != b[0] then a[0] < b[0]
    else LexLeq(a[1..], b[1..])
  }

  lemma {:induction false} LexTotal(a: seq<nat>, b: seq<nat>)
    ensures LexLeq(a, b) || LexLeq(b, a)
  {
    if a != [] && b != [] { LexTotal(a[1..], b[1..]); }
  }

  lemma {:induction false} LexAntisym(a: seq<nat>, b: seq<nat>)
    requires LexLeq(a, b) && LexLeq(b, a)
    ensures a == b
  {
    if a != [] && b != [] {
      LexAntisym(a[1..], b[1..]);
      assert a == [a[0]] + a[1..] && b == [b[0]] + b[1..];
    }
  }

  lemma {:induction false} LexTrans(a: seq<nat>, b: seq<nat>, c: seq<nat>)
    requires LexLeq(a, b) && LexLeq(b, c)
    ensures LexLeq(a, c)
  {
    if a != [] && a[0] == b[0] == c[0] { LexTrans(a[1..], b[1..], c[1..]); }
  }

  lemma LexBelowAll(y: Bytes, l: Bytes, rest: set<Bytes>)
    requires LexLeq(y, l) && forall x :: x in rest ==> LexLeq(l, x)
    ensures LexLeq(y, y) && forall x :: x in rest ==> LexLeq(y, x)
  {
    LexTotal(y, y);
    forall x | x in rest ensures LexLeq(y, x) { LexTrans(y, l, x); }
  }

  lemma LexHasLeast(s: set<Bytes>)
    requires s != {}
    ensures exists m :: m in s && forall x :: x in s ==> LexLeq(m, x)
    decreases |s|
  {
    var y :| y in s;
    var rest := s - {y};
    if rest == {} {
      LexTotal(y, y);
      assert s == {y};
    } else {
      LexHasLeast(rest);
      var l :| l in rest && forall x :: x in rest ==> LexLeq(l, x);
      LexTotal(l, y);
      if LexLeq(l, y) {
        assert forall x :: x in s ==> x == y || x in rest;
      } else {
        LexBelowAll(y, l, rest);
        assert forall x :: x in s ==> x == y || x in rest;
      }
    }
  }

  /** The first key of a `BTreeMap` keyed by byte strings. */
  function LexLeast(s: set<Bytes>): (m: Bytes)
    requires s != {}
    ensures m in s && forall x :: x in s ==> LexLeq(m, x)
  {
    LexHasLeast(s);
    assert forall a, b | a in s && b in s && (forall x :: x in s ==> LexLeq(a, x)) && (forall x :: x in s ==> LexLeq(b, x)) :: a == b by {
      forall a, b | a in s && b in s && (forall x :: x in s ==> LexLeq(a, x)) && (forall x :: x in s ==> LexLeq(b, x))
        ensures a == b
      {
        LexAntisym(a, b);
      }
    }
    var m :| m in s && forall x :: x in s ==> LexLeq(m, x);
    m
  }

  // ---------------------------------------------------------------- filtering

  function Filter<T(!new)>(s: seq<T>, p: T -> bool): (r: seq<T>)
    ensures forall x :: x in r <==> x in s && p(x)
  {
    if s == [] then []
    else
      assert forall x :: x in s <==> x == s[0] || x in s[1..];
      (if p(s[0]) then [s[0]] else []) + Filter(s[1..], p)
  }
}
