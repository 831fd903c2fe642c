/**
 * The intrusive circular doubly linked lists of listx.h.
 *
 * A `list_head` is either a list's sentinel (Head) or the link embedded in a record
 * (Elem); one ListMemory holds every `list_head` of one family of lists, and its two
 * fields are the memory the C code writes.  The ghost field `rings` is what the
 * pointers mean: the sequence of records found from each sentinel.
 */
module Listx {
  import opened Prelude

  datatype Link = Head(h: nat) | Elem(i: nat)

  type Pointers = Link -> Link

  function Write(m: Pointers, at: Link, to: Link): Pointers {
    l => if l == at then to else m(l)
  }

  /** The j-th stop of a walk from sentinel `h` over contents `s` and back to `h`. */
  ghost function Stop(h: nat, s: seq<nat>, j: int): Link
    requires 0 <= j <= |s| + 1
  {
    if j == 0 || j == |s| + 1 then Head(h) else Elem(s[j - 1])
  }

  /** Following `next` from `h` visits exactly `s`, and `prev` undoes every step. */
  ghost predicate Ring(next: Pointers, prev: Pointers, h: nat, s: seq<nat>) {
    forall j {:trigger Stop(h, s, j)} :: 0 <= j <= |s| ==>
      next(Stop(h, s, j)) == Stop(h, s, j + 1) && prev(Stop(h, s, j + 1)) == Stop(h, s, j)
  }

  /** A ring none of whose links was written is still the same ring. */
  lemma RingFrame(next: Pointers, prev: Pointers, next': Pointers, prev': Pointers, g: nat, t: seq<nat>)
    requires Ring(next, prev, g, t)
    requires next'(Head(g)) == next(Head(g)) && prev'(Head(g)) == prev(Head(g))
    requires forall e :: e in t ==> next'(Elem(e)) == next(Elem(e)) && prev'(Elem(e)) == prev(Elem(e))
    ensures Ring(next', prev', g, t)
  {
    forall j {:trigger Stop(g, t, j)} | 0 <= j <= |t|
      ensures next'(Stop(g, t, j)) == Stop(g, t, j + 1) && prev'(Stop(g, t, j + 1)) == Stop(g, t, j)
    {
      assert next(Stop(g, t, j)) == Stop(g, t, j + 1);
    }
  }

  /** Stops of a ring are distinct, up to the sentinel being met again at the end. */
  lemma StopsDistinct(h: nat, s: seq<nat>, i: int, j: int)
    requires NoDup(s) && 0 <= i < j <= |s| + 1 && !(i == 0 && j == |s| + 1)
    ensures Stop(h, s, i) != Stop(h, s, j)
  {
  }

  /** Memory after linking `e` between stops `k` and `k + 1` of a ring. */
  ghost predicate Inserted(next: Pointers, prev: Pointers, next': Pointers, prev': Pointers,
                           h: nat, s: seq<nat>, k: nat, e: nat)
    requires k <= |s|
  {
    var a, b := Stop(h, s, k), Stop(h, s, k + 1);
    && next' == Write(Write(next, Elem(e), b), a, Elem(e))
    && prev' == Write(Write(prev, b, Elem(e)), Elem(e), a)
  }

  lemma InsertedRing(next: Pointers, prev: Pointers, next': Pointers, prev': Pointers,
                     h: nat, s: seq<nat>, k: nat, e: nat)
    requires Ring(next, prev, h, s) && NoDup(s) && k <= |s| && e !in s
    requires Inserted(next, prev, next', prev', h, s, k, e)
    ensures Ring(next', prev', h, s[..k] + [e] + s[k..])
    ensures NoDup(s[..k] + [e] + s[k..])
  {
    InsertedNoDup(s, k, e);
    var t := s[..k] + [e] + s[k..];
    hide Inserted, Stop, NoDup;
    forall j {:trigger Stop(h, t, j)} | 0 <= j <= |t|
      ensures next'(Stop(h, t, j)) == Stop(h, t, j + 1) && prev'(Stop(h, t, j + 1)) == Stop(h, t, j)
    {
      InsertedStop(next, prev, next', prev', h, s, k, e, j);
    }
  }

  lemma InsertedNoDup(s: seq<nat>, k: nat, e: nat)
    requires NoDup(s) && k <= |s| && e !in s
    ensures NoDup(s[..k] + [e] + s[k..])
  {
  }

  /** One stop of the longer ring. */
  lemma InsertedStop(next: Pointers, prev: Pointers, next': Pointers, prev': Pointers,
                     h: nat, s: seq<nat>, k: nat, e: nat, j: nat)
    requires Ring(next, prev, h, s) && NoDup(s) && k <= |s| && e !in s && j <= |s| + 1
    requires Inserted(next, prev, next', prev', h, s, k, e)
    ensures var t := s[..k] + [e] + s[k..];
            next'(Stop(h, t, j)) == Stop(h, t, j + 1) && prev'(Stop(h, t, j + 1)) == Stop(h, t, j)
  {
    var t := s[..k] + [e] + s[k..];
    if j < k {
      assert Stop(h, t, j) == Stop(h, s, j) && Stop(h, t, j + 1) == Stop(h, s, j + 1);
      assert next(Stop(h, s, j)) == Stop(h, s, j + 1);
      StopsDistinct(h, s, j, k);
      StopsDistinct(h, s, j + 1, k + 1);
    } else if j > k + 1 {
      assert Stop(h, t, j) == Stop(h, s, j - 1) && Stop(h, t, j + 1) == Stop(h, s, j);
      assert next(Stop(h, s, j - 1)) == Stop(h, s, j);
      StopsDistinct(h, s, k, j - 1);
      StopsDistinct(h, s, k + 1, j);
    } else {
      assert Stop(h, t, k) == Stop(h, s, k) && Stop(h, t, k + 1) == Elem(e);
      assert Stop(h, t, k + 2) == Stop(h, s, k + 1);
    }
  }

  /** Memory after making stops `k` and `k + 2` of a ring neighbours. */
  ghost predicate Bypassed(next: Pointers, prev: Pointers, next': Pointers, prev': Pointers,
                           h: nat, s: seq<nat>, k: nat)
    requires k < |s|
  {
    var a, b := Stop(h, s, k), Stop(h, s, k + 2);
    next' == Write(next, a, b) && prev' == Write(prev, b, a)
  }

  lemma BypassedRing(next: Pointers, prev: Pointers, next': Pointers, prev': Pointers,
                     h: nat, s: seq<nat>, k: nat)
    requires Ring(next, prev, h, s) && NoDup(s) && k < |s|
    requires Bypassed(next, prev, next', prev', h, s, k)
    ensures Ring(next', prev', h, s[..k] + s[k + 1..])
    ensures NoDup(s[..k] + s[k + 1..])
  {
    var t := s[..k] + s[k + 1..];
    forall j {:trigger Stop(h, t, j)} | 0 <= j <= |t|
      ensures next'(Stop(h, t, j)) == Stop(h, t, j + 1) && prev'(Stop(h, t, j + 1)) == Stop(h, t, j)
    {
      if j < k {
        assert Stop(h, t, j) == Stop(h, s, j) && Stop(h, t, j + 1) == Stop(h, s, j + 1);
        assert next(Stop(h, s, j)) == Stop(h, s, j + 1);
        StopsDistinct(h, s, j, k);
        StopsDistinct(h, s, j + 1, k + 2);
      } else if j > k {
        assert Stop(h, t, j) == Stop(h, s, j + 1) && Stop(h, t, j + 1) == Stop(h, s, j + 2);
        assert next(Stop(h, s, j + 1)) == Stop(h, s, j + 2);
        StopsDistinct(h, s, k, j + 1);
        StopsDistinct(h, s, k + 2, j + 2);
      } else {
        assert Stop(h, t, k) == Stop(h, s, k) && Stop(h, t, k + 1) == Stop(h, s, k + 2);
      }
    }
  }

  /** Where `i` steps along `next` lead. */
  ghost function Walk(next: Pointers, from: Link, i: nat): Link {
    if i == 0 then from else next(Walk(next, from, i - 1))
  }

  /** The `next` links after list_add, whether or not the record is in the list already. */
  function AddedNext(next: Pointers, h: nat, e: nat): Pointers {
    Write(Write(next, Elem(e), next(Head(h))), Head(h), Elem(e))
  }

  /** list_add of a record that is in the list already: a walk from the sentinel never comes back to it. */
  lemma {:induction false} AddedTwiceLoops(next: Pointers, prev: Pointers, h: nat, s: seq<nat>, k: nat, i: nat)
    requires Ring(next, prev, h, s) && NoDup(s) && k < |s|
    ensures exists m :: 0 <= m <= k && Walk(AddedNext(next, h, s[k]), Head(h), i + 1) == Elem(s[m])
  {
    var next' := AddedNext(next, h, s[k]);
    if i == 0 {
      assert Walk(next', Head(h), 1) == next'(Walk(next', Head(h), 0)) == Elem(s[k]);
    } else {
      AddedTwiceLoops(next, prev, h, s, k, i - 1);
      var m :| 0 <= m <= k && Walk(next', Head(h), i) == Elem(s[m]);
      assert next(Stop(h, s, 0)) == Stop(h, s, 1) && next(Stop(h, s, m + 1)) == Stop(h, s, m + 2);
      assert Walk(next', Head(h), i + 1) == Elem(s[if m == k then 0 else m + 1]);
    }
  }

  /** Every stop of a ring is its sentinel or one of its records. */
  lemma StopOwned(h: nat, s: seq<nat>, j: int)
    requires 0 <= j <= |s| + 1
    ensures Stop(h, s, j) == Head(h) || (Stop(h, s, j).Elem? && Stop(h, s, j).i in s)
  {
  }

  ghost predicate AllRings(next: Pointers, prev: Pointers, ready: set<nat>, rings: seq<seq<nat>>) {
    && (forall h :: h in ready ==> h < |rings| && Ring(next, prev, h, rings[h]))
    && (forall h :: 0 <= h < |rings| && h !in ready ==> rings[h] == [])
  }

  /** A record's link is in the ring its `owner` names, once, and in no other. */
  ghost predicate Owned(rings: seq<seq<nat>>, owner: seq<Option<nat>>) {
    && (forall h :: 0 <= h < |rings| ==> NoDup(rings[h]) && OwnedBy(rings[h], owner, h))
    && (forall e :: 0 <= e < |owner| && owner[e].Some? ==>
          owner[e].value < |rings| && e in rings[owner[e].value])
  }

  ghost predicate OwnedBy(s: seq<nat>, owner: seq<Option<nat>>, h: nat) {
    forall e :: e in s ==> e < |owner| && owner[e] == Some(h)
  }

  ghost predicate Solo(next: Pointers, prev: Pointers, solo: set<nat>, owner: seq<Option<nat>>) {
    forall e :: e in solo ==>
      e < |owner| && owner[e] == None && next(Elem(e)) == Elem(e) && prev(Elem(e)) == Elem(e)
  }

  /** A sentinel that was never initialised points where memory pointed it at the start. */
  ghost predicate Untouched(next: Pointers, start: Pointers, ready: set<nat>) {
    forall h: nat :: h !in ready ==> next(Head(h)) == start(Head(h))
  }

  /** Linking `e` at place `k` of ring `h`, in the terms of all the rings. */
  lemma InsertedAll(next: Pointers, prev: Pointers, next': Pointers, prev': Pointers, ready: set<nat>,
                    rings: seq<seq<nat>>, owner: seq<Option<nat>>, solo: set<nat>, h: nat, k: nat, e: nat)
    requires AllRings(next, prev, ready, rings) && Owned(rings, owner) && Solo(next, prev, solo, owner)
    requires h in ready && k <= |rings[h]| && e < |owner| && owner[e] == None
    requires Inserted(next, prev, next', prev', h, rings[h], k, e)
    ensures var t := rings[h][..k] + [e] + rings[h][k..];
            && AllRings(next', prev', ready, rings[h := t])
            && Owned(rings[h := t], owner[e := Some(h)])
            && Solo(next', prev', solo - {e}, owner[e := Some(h)])
  {
    var s := rings[h];
    assert OwnedBy(s, owner, h);
    StopOwned(h, s, k);
    StopOwned(h, s, k + 1);
    InsertedRing(next, prev, next', prev', h, s, k, e);
    InsertedOwned(rings, owner, h, k, e);
    forall g | g in ready && g != h ensures Ring(next', prev', g, rings[g]) {
      assert OwnedBy(rings[g], owner, g);
      RingFrame(next, prev, next', prev', g, rings[g]);
    }
    hide Owned, OwnedBy;
  }

  lemma InsertedOwned(rings: seq<seq<nat>>, owner: seq<Option<nat>>, h: nat, k: nat, e: nat)
    requires Owned(rings, owner) && h < |rings| && k <= |rings[h]| && e < |owner| && owner[e] == None
    ensures Owned(rings[h := rings[h][..k] + [e] + rings[h][k..]], owner[e := Some(h)])
  {
    var s := rings[h];
    var t := s[..k] + [e] + s[k..];
    assert OwnedBy(s, owner, h);
    forall x ensures x in t <==> x == e || x in s { assert s == s[..k] + s[k..]; }
    forall g | 0 <= g < |rings| && g != h ensures OwnedBy(rings[g], owner[e := Some(h)], g) {
      assert OwnedBy(rings[g], owner, g);
    }
  }

  /** Unlinking place `k` of ring `h`, in the terms of all the rings. */
  lemma BypassedAll(next: Pointers, prev: Pointers, next': Pointers, prev': Pointers, ready: set<nat>,
                    rings: seq<seq<nat>>, owner: seq<Option<nat>>, solo: set<nat>, h: nat, k: nat)
    requires AllRings(next, prev, ready, rings) && Owned(rings, owner) && Solo(next, prev, solo, owner)
    requires h in ready && k < |rings[h]|
    requires Bypassed(next, prev, next', prev', h, rings[h], k)
    ensures var e: nat := rings[h][k]; var t: seq<nat> := Without<nat>(rings[h], {e});
            && e < |owner|
            && AllRings(next', prev', ready, rings[h := t])
            && Owned(rings[h := t], owner[e := None])
            && Solo(next', prev', solo, owner[e := None])
  {
    var s := rings[h];
    var e: nat := s[k];
    assert OwnedBy(s, owner, h) && e in s;
    WithoutAt<nat>(s, k);
    StopOwned(h, s, k);
    StopOwned(h, s, k + 2);
    BypassedRing(next, prev, next', prev', h, s, k);
    forall g | g in ready && g != h ensures Ring(next', prev', g, rings[g]) {
      assert OwnedBy(rings[g], owner, g);
      RingFrame(next, prev, next', prev', g, rings[g]);
    }
    forall g | 0 <= g < |rings| && g != h ensures OwnedBy(rings[g], owner[e := None], g) {
      assert OwnedBy(rings[g], owner, g);
    }
  }

  class ListMemory {
    var next: Pointers
    var prev: Pointers

    ghost const start: Pointers         // what memory held in `next` before anything was initialised
    ghost var rings: seq<seq<nat>>
    ghost var owner: seq<Option<nat>>   // which ring a record's link is in
    ghost var ready: set<nat>           // sentinels that were initialised
    ghost var solo: set<nat>            // links that point at themselves

    ghost predicate Valid()
      reads this
    {
      && AllRings(next, prev, ready, rings)
      && Owned(rings, owner)
      && Solo(next, prev, solo, owner)
      && Untouched(next, start, ready)
    }

    /** Statically allocated links, not yet initialised: nothing is known of the pointers. */
    constructor (heads: nat, elems: nat, memory: Pointers)
      ensures Valid() && start == memory
      ensures |rings| == heads && |owner| == elems && ready == {} && solo == {}
      ensures forall h :: 0 <= h < heads ==> rings[h] == []
      ensures forall e :: 0 <= e < elems ==> owner[e] == None
    {
      next, prev, start := memory, memory, memory;
      rings := seq(heads, _ => []);
      owner := seq(elems, _ => None);
      ready, solo := {}, {};
    }

    /** INIT_LIST_HEAD on a sentinel. */
    method InitHead(h: nat)
      requires Valid() && h < |rings| && rings[h] == []
      modifies this
      ensures Valid() && rings == old(rings) && owner == old(owner)
      ensures ready == old(ready) + {h} && solo == old(solo)
    {
      next := Write(next, Head(h), Head(h));
      prev := Write(prev, Head(h), Head(h));
      ready := ready + {h};
      forall g | g in ready && g != h ensures Ring(next, prev, g, rings[g]) {
        RingFrame(old(next), old(prev), next, prev, g, rings[g]);
      }
    }

    /** INIT_LIST_HEAD on the link of a record that is in no list. */
    method InitElem(e: nat)
      requires Valid() && e < |owner| && owner[e] == None
      modifies this
      ensures Valid() && rings == old(rings) && owner == old(owner) && ready == old(ready)
      ensures solo == old(solo) + {e}
    {
      next := Write(next, Elem(e), Elem(e));
      prev := Write(prev, Elem(e), Elem(e));
      solo := solo + {e};
      forall g | g in ready ensures Ring(next, prev, g, rings[g]) {
        assert OwnedBy(rings[g], owner, g);
        RingFrame(old(next), old(prev), next, prev, g, rings[g]);
      }
    }

    /** list_empty on a sentinel. */
    method IsEmpty(h: nat) returns (empty: bool)
      requires Valid() && h in ready
      ensures empty <==> rings[h] == []
    {
      empty := next(Head(h)) == Head(h);
      assert next(Stop(h, rings[h], 0)) == Stop(h, rings[h], 1);
    }

    /** list_empty on a record's own link: it cannot be told from a list's sentinel. */
    method IsSolo(e: nat) returns (empty: bool)
      requires Valid() && e < |owner| && (e in solo || owner[e].Some?)
      ensures empty <==> e in solo
    {
      empty := next(Elem(e)) == Elem(e);
      if owner[e].Some? {
        ghost var h := owner[e].value;
        ghost var k :| 0 <= k < |rings[h]| && rings[h][k] == e;
        assert next(Stop(h, rings[h], k + 1)) == Stop(h, rings[h], k + 2);
      }
    }

    /** list_next on a sentinel, as the record it is embedded in. */
    method First(h: nat) returns (e: Option<nat>)
      requires Valid() && h in ready
      ensures e == if rings[h] == [] then None else Some(rings[h][0])
    {
      assert next(Stop(h, rings[h], 0)) == Stop(h, rings[h], 1);
      if next(Head(h)) == Head(h) {
        e := None;
      } else {
        e := Some(next(Head(h)).i);
      }
    }

    /** list_add: insertion right after the sentinel. */
    method Add(e: nat, h: nat)
      requires Valid() && h in ready && e < |owner| && owner[e] == None
      modifies this
      ensures Valid() && ready == old(ready) && solo == old(solo) - {e}
      ensures rings == old(rings)[h := [e] + old(rings)[h]]
      ensures owner == old(owner)[e := Some(h)]
    {
      ghost var s := rings[h];
      assert next(Stop(h, s, 0)) == Stop(h, s, 1);
      Prepend(e, h);
      InsertedAll(old(next), old(prev), next, prev, ready, rings, owner, solo, h, 0, e);
      StopOwned(h, s, 0);
      assert s[..0] + [e] + s[0..] == [e] + s;
      rings := rings[h := [e] + s];
      owner := owner[e := Some(h)];
      solo := solo - {e};
    }

    /** The writes of list_add, whatever the record's links hold. */
    method Prepend(e: nat, h: nat)
      modifies this`next, this`prev
      ensures next == AddedNext(old(next), h, e)
      ensures prev == Write(Write(old(prev), old(next)(Head(h)), Elem(e)), Elem(e), Head(h))
    {
      Insert(Elem(e), Head(h), next(Head(h)));
    }

    /** list_add_tail: insertion right before the sentinel. */
    method AddTail(e: nat, h: nat)
      requires Valid() && h in ready && e < |owner| && owner[e] == None
      modifies this
      ensures Valid() && ready == old(ready) && solo == old(solo) - {e}
      ensures rings == old(rings)[h := old(rings)[h] + [e]]
      ensures owner == old(owner)[e := Some(h)]
    {
      ghost var s := rings[h];
      assert prev(Stop(h, s, |s| + 1)) == Stop(h, s, |s|);
      Insert(Elem(e), prev(Head(h)), Head(h));
      InsertedAll(old(next), old(prev), next, prev, ready, rings, owner, solo, h, |s|, e);
      StopOwned(h, s, |s|);
      assert s[..|s|] + [e] + s[|s|..] == s + [e];
      rings := rings[h := s + [e]];
      owner := owner[e := Some(h)];
      solo := solo - {e};
    }

    /** list_del: unlinks a record; its own two pointers are left dangling. */
    method Del(e: nat)
      requires Valid() && e < |owner| && owner[e].Some?
      modifies this
      ensures Valid() && ready == old(ready) && solo == old(solo)
      ensures rings == old(rings)[old(owner)[e].value := Without<nat>(old(rings)[old(owner)[e].value], {e})]
      ensures owner == old(owner)[e := None]
    {
      ghost var h := owner[e].value;
      ghost var s := rings[h];
      ghost var k :| 0 <= k < |s| && s[k] == e;
      assert next(Stop(h, s, k)) == Stop(h, s, k + 1) && next(Stop(h, s, k + 1)) == Stop(h, s, k + 2);
      Bypass(prev(Elem(e)), next(Elem(e)));
      BypassedAll(old(next), old(prev), next, prev, ready, rings, owner, solo, h, k);
      StopOwned(h, s, k);
      rings := rings[h := Without<nat>(s, {e})];
      owner := owner[e := None];
    }

    /** __list_add: four pointer writes. */
    method Insert(new_: Link, before: Link, after: Link)
      modifies this`next, this`prev
      ensures next == Write(Write(old(next), new_, after), before, new_)
      ensures prev == Write(Write(old(prev), after, new_), new_, before)
    {
      prev := Write(prev, after, new_);
      next := Write(next, new_, after);
      prev := Write(prev, new_, before);
      next := Write(next, before, new_);
    }

    /** __list_del: two pointer writes. */
    method Bypass(before: Link, after: Link)
      modifies this`next, this`prev
      ensures next == Write(old(next), before, after)
      ensures prev == Write(old(prev), after, before)
    {
      prev := Write(prev, after, before);
      next := Write(next, before, after);
    }
  }
}
