/** Options and the few facts about finite sequences that the kernel model shares. */
module Prelude {

  datatype Option<+T> = None | Some(value: T)

  /** No element occurs twice. */
  ghost predicate NoDup<T>(s: seq<T>) {
    forall i, j :: 0 <= i < j < |s| ==> s[i] != s[j]
  }

  /** A column of `n` entries, all `x`. */
  function Fill<T>(n: nat, x: T): (r: seq<T>)
    ensures |r| == n && forall i :: 0 <= i < n ==> r[i] == x
  {
    seq(n, _ => x)
  }

  /** `s` with every member of `ks` taken out; what stays keeps its relative order. */
  ghost function Without<T(!new)>(s: seq<T>, ks: set<T>): (r: seq<T>)
    ensures forall x :: x in r <==> x in s && x !in ks
    ensures |r| <= |s|
  {
    if s == [] then []
    else if s[0] in ks then Without(s[1..], ks)
    else [s[0]] + Without(s[1..], ks)
  }

  ghost function Reverse<T(!new)>(s: seq<T>): (r: seq<T>)
    ensures |r| == |s|
    ensures forall x :: x in r <==> x in s
  {
    if s == [] then [] else Reverse(s[1..]) + [s[0]]
  }

  ghost function Elems<T>(s: seq<T>): set<T> {
    set x | x in s
  }

  lemma {:induction false} WithoutAppend<T(!new)>(a: seq<T>, b: seq<T>, ks: set<T>)
    ensures Without(a + b, ks) == Without(a, ks) + Without(b, ks)
  {
    if a == [] {
      assert a + b == b;
    } else {
      assert (a + b)[0] == a[0] && (a + b)[1..] == a[1..] + b;
      WithoutAppend(a[1..], b, ks);
    }
  }

  lemma {:induction false} WithoutAbsent<T(!new)>(s: seq<T>, ks: set<T>)
    requires forall x :: x in s ==> x !in ks
    ensures Without(s, ks) == s
  {
    if s != [] {
      assert s[0] in s;
      WithoutAbsent(s[1..], ks);
    }
  }

  lemma {:induction false} WithoutTwice<T(!new)>(s: seq<T>, ks: set<T>, ls: set<T>)
    ensures Without(Without(s, ks), ls) == Without(s, ks + ls)
  {
    if s != [] {
      WithoutTwice(s[1..], ks, ls);
    }
  }

  lemma {:induction false} WithoutNoDup<T(!new)>(s: seq<T>, ks: set<T>)
    requires NoDup(s)
    ensures NoDup(Without(s, ks))
  {
    if s != [] {
      WithoutNoDup(s[1..], ks);
    }
  }

  /** Taking out the element at one position of a duplicate-free sequence. */
  lemma {:induction false} WithoutAt<T(!new)>(s: seq<T>, i: nat)
    requires i < |s| && NoDup(s)
    ensures Without(s, {s[i]}) == s[..i] + s[i + 1..]
  {
    assert s == s[..i] + ([s[i]] + s[i + 1..]);
    WithoutAppend(s[..i], [s[i]] + s[i + 1..], {s[i]});
    WithoutAppend([s[i]], s[i + 1..], {s[i]});
    WithoutAbsent(s[..i], {s[i]});
    WithoutAbsent(s[i + 1..], {s[i]});
    assert Without([s[i]], {s[i]}) == [];
  }

  lemma NoDupConcat<T(!new)>(a: seq<T>, b: seq<T>)
    requires NoDup(a) && NoDup(b) && forall x :: x in a ==> x !in b
    ensures NoDup(a + b)
  {
    forall i, j | 0 <= i < j < |a + b| ensures (a + b)[i] != (a + b)[j] {
      if i < |a| <= j {
        assert a[i] in a && b[j - |a|] in b;
      }
    }
  }

  lemma {:induction false} ReverseAppend<T(!new)>(a: seq<T>, b: seq<T>)
    ensures Reverse(a + b) == Reverse(b) + Reverse(a)
  {
    if a == [] {
      assert a + b == b;
    } else {
      assert (a + b)[0] == a[0] && (a + b)[1..] == a[1..] + b;
      ReverseAppend(a[1..], b);
    }
  }

  lemma {:induction false} ReverseNoDup<T(!new)>(s: seq<T>)
    requires NoDup(s)
    ensures NoDup(Reverse(s))
  {
    if s != [] {
      ReverseNoDup(s[1..]);
      assert s[0] !in s[1..];
    }
  }

  lemma {:induction false} NoDupCount<T(!new)>(s: seq<T>)
    requires NoDup(s)
    ensures |Elems(s)| == |s|
  {
    if s != [] {
      NoDupCount(s[1..]);
      assert s == [s[0]] + s[1..];
      assert Elems(s) == {s[0]} + Elems(s[1..]);
      assert s[0] !in s[1..];
    } else {
      assert Elems(s) == {};
    }
  }

  lemma SubsetSize(a: set<nat>, b: set<nat>)
    requires a <= b
    ensures |a| <= |b|
  {
    assert b == a + (b - a);
  }

  // ---------------------------------------------------------------- remainders

  lemma {:induction false} Grows(n: nat, a: nat, b: nat)
    requires a < b
    ensures n * a + n <= n * b
    decreases b
  {
    assert n * b == n * (b - 1) + n;
    if a < b - 1 { Grows(n, a, b - 1); }
  }

  lemma Remainder(a: nat, n: nat, q: nat, r: nat)
    requires r < n && a == n * q + r
    ensures a % n == r
  {
    var q2, r2 := a / n, a % n;
    assert a == n * q2 + r2;
    if q2 < q { Grows(n, q2, q); }
    if q < q2 { Grows(n, q, q2); }
  }

  lemma ModNext(a: nat, n: nat)
    requires n > 0
    ensures (a + 1) % n == if a % n + 1 < n then a % n + 1 else 0
  {
    var q, r := a / n, a % n;
    assert a == n * q + r;
    if r + 1 < n {
      Remainder(a + 1, n, q, r + 1);
    } else {
      assert n * (q + 1) == n * q + n;
      Remainder(a + 1, n, q + 1, 0);
    }
  }

  lemma Small(a: nat, n: nat)
    requires a < n
    ensures a % n == a
  {
  }

  /** Two numbers less than `n` apart have different remainders. */
  lemma SameRemainder(a: nat, b: nat, n: nat)
    requires 0 < n && a <= b < a + n
    ensures a % n == b % n <==> a == b
  {
    if a < b && a % n == b % n {
      var q, p := a / n, b / n;
      assert a == n * q + a % n && b == n * p + b % n;
      if p <= q { if p < q { Grows(n, p, q); } } else { Grows(n, q, p); }
      assert false;
    }
  }
}
