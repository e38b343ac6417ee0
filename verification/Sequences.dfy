/** Weighted sums over the slots of a container, and what one slot update does to
    them. Every conservation law of the models is an equation between such sums. */
module Sequences {

  datatype Option<+T> = None | Some(value: T)

  function Sum<T>(xs: seq<T>, w: T -> nat): nat
  {
    if xs == [] then 0 else Sum(xs[..|xs| - 1], w) + w(xs[|xs| - 1])
  }

  lemma SumAppend<T>(xs: seq<T>, x: T, w: T -> nat)
    ensures Sum(xs + [x], w) == Sum(xs, w) + w(x)
  {
    assert (xs + [x])[..|xs|] == xs;
  }

  /** Replacing one slot exchanges exactly that slot's weight. */
  lemma {:induction false} SumUpdate<T>(xs: seq<T>, i: nat, x: T, w: T -> nat)
    requires i < |xs|
    ensures Sum(xs[i := x], w) + w(xs[i]) == Sum(xs, w) + w(x)
  {
    var n := |xs| - 1;
    var ys := xs[i := x];
    if i == n {
      assert ys[..n] == xs[..n];
    } else {
      SumUpdate(xs[..n], i, x, w);
      assert ys[..n] == xs[..n][i := x];
    }
  }

  lemma {:induction false} SumTail<T>(xs: seq<T>, w: T -> nat)
    requires xs != []
    ensures Sum(xs, w) == w(xs[0]) + Sum(xs[1..], w)
  {
    var n := |xs| - 1;
    if n > 0 {
      SumTail(xs[..n], w);
      assert xs[1..][..n - 1] == xs[..n][1..];
    }
  }

  /** No slot weighs more than the whole. */
  lemma {:induction false} SumPart<T>(xs: seq<T>, i: nat, w: T -> nat)
    requires i < |xs|
    ensures w(xs[i]) <= Sum(xs, w)
  {
    if i < |xs| - 1 {
      SumPart(xs[..|xs| - 1], i, w);
    }
  }

  /** A positive whole has a slot with positive weight. */
  lemma {:induction false} SumSource<T>(xs: seq<T>, w: T -> nat) returns (i: nat)
    requires Sum(xs, w) > 0
    ensures i < |xs| && w(xs[i]) > 0
  {
    if w(xs[|xs| - 1]) > 0 {
      i := |xs| - 1;
    } else {
      i := SumSource(xs[..|xs| - 1], w);
    }
  }

  lemma {:induction false} SumBelow<T>(xs: seq<T>, v: T -> nat, w: T -> nat)
    requires forall x: T :: x in xs ==> v(x) <= w(x)
    ensures Sum(xs, v) <= Sum(xs, w)
  {
    if xs != [] {
      SumBelow(xs[..|xs| - 1], v, w);
    }
  }

  lemma {:induction false} SumZero<T>(xs: seq<T>, w: T -> nat)
    requires forall x: T :: x in xs ==> w(x) == 0
    ensures Sum(xs, w) == 0
  {
    if xs != [] {
      SumZero(xs[..|xs| - 1], w);
    }
  }

  lemma {:induction false} SumConcat<T>(xs: seq<T>, ys: seq<T>, w: T -> nat)
    ensures Sum(xs + ys, w) == Sum(xs, w) + Sum(ys, w)
  {
    if ys == [] {
      assert xs + ys == xs;
    } else {
      var n := |ys| - 1;
      assert (xs + ys)[..|xs| + n] == xs + ys[..n];
      SumConcat(xs, ys[..n], w);
    }
  }

  /** 0, 1, ..., n-1. */
  function Upto(n: nat): (s: seq<nat>)
    ensures |s| == n
    ensures forall i :: 0 <= i < n ==> s[i] == i
  {
    seq(n, i => i)
  }

  /** Counts one value. */
  function Is(id: nat): nat -> nat { (x: nat) => if x == id then 1 else 0 }

  lemma {:induction false} CountUpto(n: nat, id: nat)
    ensures Sum(Upto(n), Is(id)) == if id < n then 1 else 0
  {
    if n > 0 {
      CountUpto(n - 1, id);
      assert Upto(n)[..n - 1] == Upto(n - 1);
    }
  }

  /** Weights that agree on every slot give the same whole. */
  lemma SumSame<T>(xs: seq<T>, v: T -> nat, w: T -> nat)
    requires forall x: T :: x in xs ==> v(x) == w(x)
    ensures Sum(xs, v) == Sum(xs, w)
  {
    SumBelow(xs, v, w);
    SumBelow(xs, w, v);
  }

  /** The sequence after n moves of its head to its tail. */
  function Rotate<T>(xs: seq<T>, n: nat): (r: seq<T>)
    ensures |r| == |xs|
    decreases n
  {
    if n == 0 || xs == [] then xs else Rotate(xs[1..] + [xs[0]], n - 1)
  }

  lemma {:induction false} RotatePermutes<T>(xs: seq<T>, n: nat)
    ensures multiset(Rotate(xs, n)) == multiset(xs)
    decreases n
  {
    if n > 0 && xs != [] {
      RotatePermutes(xs[1..] + [xs[0]], n - 1);
      assert xs == [xs[0]] + xs[1..];
    }
  }

  lemma {:induction false} RotateNext<T>(xs: seq<T>, n: nat)
    requires xs != []
    ensures Rotate(xs, n + 1) == Rotate(xs, n)[1..] + [Rotate(xs, n)[0]]
    decreases n
  {
    if n > 0 {
      RotateNext(xs[1..] + [xs[0]], n - 1);
    }
  }

  /** Division and remainder as functions of their own, so that proofs can treat
      them as unknowns with the laws below. */
  function Quot(a: nat, m: nat): nat
    requires m > 0
  {
    a / m
  }

  function Rem(a: nat, m: nat): (r: nat)
    requires m > 0
    ensures r < m
  {
    a % m
  }

  lemma {:induction false} RotateTwice<T>(xs: seq<T>, m: nat, n: nat)
    ensures Rotate(Rotate(xs, m), n) == Rotate(xs, m + n)
    decreases n
  {
    if n == 0 || xs == [] {
      assert n == 0 ==> Rotate(Rotate(xs, m), 0) == Rotate(xs, m);
    } else {
      hide Rotate;
      RotateTwice(xs, m, n - 1);
      RotateNext(Rotate(xs, m), n - 1);
      RotateNext(xs, m + (n - 1));
      assert m + (n - 1) + 1 == m + n;
    }
  }

  /** Position i of the rotated sequence is position i + n of the original, around. */
  lemma {:induction false} RotateAt<T>(xs: seq<T>, n: nat, i: nat)
    requires i < |xs|
    ensures Rotate(xs, n)[i] == xs[Rem(i + n, |xs|)]
    decreases n
  {
    if n > 0 {
      RotateNext(xs, n - 1);
      if i + 1 < |xs| {
        RotateAt(xs, n - 1, i + 1);
      } else {
        RotateAt(xs, n - 1, 0);
        AddModulus(n - 1, |xs|);
      }
    }
  }

  lemma AddModulus(a: nat, m: nat)
    requires m > 0
    ensures (a + m) % m == a % m && (a + m) / m == a / m + 1
  {
    var q, r := a / m, a % m;
    assert a + m == m * (q + 1) + r;
    DivisionIsUnique(m, q + 1, r, (a + m) / m, (a + m) % m);
  }

  lemma NextDivision(a: nat, m: nat)
    requires m > 0
    ensures if Rem(a, m) + 1 < m then Quot(a + 1, m) == Quot(a, m) && Rem(a + 1, m) == Rem(a, m) + 1
            else Quot(a + 1, m) == Quot(a, m) + 1 && Rem(a + 1, m) == 0
  {
    var q, r := a / m, a % m;
    assert a + 1 == m * q + (r + 1);
    if r + 1 < m {
      DivisionIsUnique(m, q, r + 1, (a + 1) / m, (a + 1) % m);
    } else {
      assert a + 1 == m * (q + 1) + 0;
      DivisionIsUnique(m, q + 1, 0, (a + 1) / m, (a + 1) % m);
    }
  }

  lemma DivisionIsUnique(m: nat, q: int, r: int, q': int, r': int)
    requires m * q + r == m * q' + r' && 0 <= r < m && 0 <= r' < m
    ensures q == q' && r == r'
  {
    assert m * (q - q') == r' - r;
    if q > q' {
      Times(m, q - q');
    } else if q < q' {
      Times(m, q' - q);
    }
  }

  lemma Times(m: nat, d: int)
    requires d >= 1
    ensures m * d >= m
  {
  }
}
