/** Terminating processes one by one adds up to terminating them together. */
module KillSteps {
  import opened Prelude
  import opened NucleusState
  import opened NucleusInvariant
  import opened KillTree
  import opened NucleusStep

  /** remove_child: a child loses its parent and the parent its child. */
  ghost function Detach(s: Sys, p: nat): (r: Sys)
    requires Shape(s) && p < |s.at| && s.kids[p] != [] && s.kids[p][0] < |s.at|
    ensures Shape(r) && |r.at| == |s.at|
  {
    s.(parent := s.parent[s.kids[p][0] := None], kids := s.kids[p := s.kids[p][1..]])
  }

  lemma DetachCore(s: Sys, p: nat)
    requires Core(s) && p < |s.at| && s.kids[p] != []
    ensures s.kids[p][0] < |s.at| && s.at[s.kids[p][0]] != Free && s.parent[s.kids[p][0]] == Some(p)
    ensures Core(Detach(s, p))
  {
    var c := s.kids[p][0];
    assert c in s.kids[p];
    DetachTree(s, p);
  }

  lemma DetachOrder(s: Sys, p: nat)
    requires Shape(s) && Ordered(s.kids, s.born, s.births) && p < |s.at| && s.kids[p] != [] && s.kids[p][0] < |s.at|
    ensures Ordered(Detach(s, p).kids, s.born, s.births)
  {
    var r := Detach(s, p);
    forall q, i | 0 <= q < |r.kids| && 0 <= i < |r.kids[q]|
      ensures r.kids[q][i] < |r.kids| && r.born[q] < r.born[r.kids[q][i]]
    {
      if q == p {
        assert r.kids[p][i] == s.kids[p][i + 1];
      }
    }
  }

  lemma DetachTree(s: Sys, p: nat)
    requires Shape(s) && TreeOk(s) && p < |s.at| && s.kids[p] != []
    ensures s.kids[p][0] < |s.at| && TreeOk(Detach(s, p))
  {
    var c := s.kids[p][0];
    assert c in s.kids[p];
    var r := Detach(s, p);
    DetachOrder(s, p);
    hide Ordered;
    forall q, d | 0 <= q < |r.kids| && d in r.kids[q] ensures d < |r.at| && r.parent[d] == Some(q) {
      assert d in s.kids[q] && s.parent[d] == Some(q);
      assert q == p ==> d != c by {
        assert s.kids[p] == [c] + s.kids[p][1..];
      }
    }
    forall d | 0 <= d < |r.at| && r.parent[d].Some?
      ensures r.parent[d].value < |r.at| && d in r.kids[r.parent[d].value]
    {
      if s.parent[d] == Some(p) {
        var i :| 0 <= i < |s.kids[p]| && s.kids[p][i] == d;
        assert i > 0 && r.kids[p][i - 1] == d;
      }
    }
  }

  /** What kill_proc does to one process without children. */
  ghost function DropOne(s: Sys, p: nat): (r: Sys)
    requires Shape(s) && p < |s.at| && (s.parent[p].Some? ==> s.parent[p].value < |s.at|)
  {
    s.(at := s.at[p := Free], free := [p] + s.free,
       low := Without<nat>(s.low, {p}), high := Without<nat>(s.high, {p}),
       asl := if s.at[p].Blocked? && s.at[p].key in s.asl
              then Shrunk(s.asl, s.at[p].key, Without<nat>(s.asl[s.at[p].key], {p})) else s.asl,
       parent := s.parent[p := None],
       kids := if s.parent[p] == None then s.kids
               else (var q := s.parent[p].value; s.kids[q := Without<nat>(s.kids[q], {p})]),
       procs := s.procs - 1, sb := s.sb - (if s.at[p].Blocked? then 1 else 0))
  }

  lemma DropOneAsl(s: Sys, p: nat)
    requires Shape(s) && AslOk(s) && p < |s.at| && (s.parent[p].Some? ==> s.parent[p].value < |s.at|)
    ensures Unblocked(s.asl, {p}, |s.at|) == DropOne(s, p).asl
  {
    forall k | k in s.asl ensures s.at[p] != Blocked(k) ==> Without<nat>(s.asl[k], {p}) == s.asl[k] {
      OthersKept(s, p, k);
    }
    assert forall k :: k in s.asl ==> InTable(s.asl[k], |s.at|) && s.asl[k] != [];
    if s.at[p].Blocked? {
      UnblockedOne(s.asl, p, |s.at|, s.at[p].key);
    } else {
      UnblockedNone(s.asl, p, |s.at|);
    }
    hide Shape, AslOk, Without, Unblocked;
  }

  lemma UnblockedNone(asl: map<Key, seq<nat>>, p: nat, n: nat)
    requires forall k :: k in asl ==> InTable(asl[k], n) && asl[k] != []
    requires forall k :: k in asl ==> Without<nat>(asl[k], {p}) == asl[k]
    ensures Unblocked(asl, {p}, n) == asl
  {
    hide Without;
    assert Unblocked(asl, {p}, n).Keys == asl.Keys;
  }

  lemma UnblockedOne(asl: map<Key, seq<nat>>, p: nat, n: nat, k: Key)
    requires forall j :: j in asl ==> InTable(asl[j], n) && asl[j] != []
    requires forall j :: j in asl && j != k ==> Without<nat>(asl[j], {p}) == asl[j]
    ensures Unblocked(asl, {p}, n) ==
            if k !in asl then asl
            else if Without<nat>(asl[k], {p}) == [] then asl - {k}
            else asl[k := Without<nat>(asl[k], {p})]
  {
    hide Without;
    if k !in asl {
      UnblockedNone(asl, p, n);
    }
  }

  lemma OthersKept(s: Sys, p: nat, k: Key)
    requires Shape(s) && AslOk(s) && p < |s.at| && k in s.asl
    ensures s.at[p] != Blocked(k) ==> Without<nat>(s.asl[k], {p}) == s.asl[k]
  {
    assert Holds(s.asl[k], s.at, Blocked(k));
    if s.at[p] != Blocked(k) {
      WithoutAbsent<nat>(s.asl[k], {p});
    }
  }

  lemma DropOneKids(s: Sys, p: nat)
    requires Shape(s) && TreeOk(s) && p < |s.at| && s.kids[p] == []
    ensures s.parent[p].Some? ==> s.parent[p].value < |s.at|
    ensures Pruned(s.kids, {p}) == DropOne(s, p).kids
  {
    var r := DropOne(s, p).kids;
    forall q | 0 <= q < |s.kids| ensures Pruned(s.kids, {p})[q] == r[q] {
      if s.parent[p] != Some(q) {
        assert p !in s.kids[q];
        WithoutAbsent<nat>(s.kids[q], {p});
      }
      assert p !in s.kids[p];
    }
  }

  lemma DropOneIs(s: Sys, p: nat)
    requires Core(s) && p < |s.at| && s.at[p] != Free && s.kids[p] == []
    ensures s.parent[p].Some? ==> s.parent[p].value < |s.at|
    ensures InTable([p], |s.at|) && Closed(s, [p]) && Drop(s, [p]) == DropOne(s, p)
  {
    DropOneAsl(s, p);
    DropOneKids(s, p);
    DropSingle(s, p);
  }

  lemma DropSingle(s: Sys, p: nat)
    requires Shape(s) && p < |s.at| && (s.parent[p].Some? ==> s.parent[p].value < |s.at|)
    requires Unblocked(s.asl, {p}, |s.at|) == DropOne(s, p).asl && Pruned(s.kids, {p}) == DropOne(s, p).kids
    ensures InTable([p], |s.at|) && Drop(s, [p]) == DropOne(s, p)
  {
    assert |s.parent| == |s.at|;
    hide Unblocked, Pruned, Freed, Orphaned, Shape, Without, Reverse, BlockedIn;
    SingleFacts(s.at, s.parent, p);
    assert Elems([p]) == {p};
  }

  lemma SingleFacts(at: seq<Place>, parent: seq<Option<nat>>, p: nat)
    requires p < |at| == |parent|
    ensures Freed(at, {p}) == at[p := Free] && Orphaned(parent, {p}) == parent[p := None]
    ensures Reverse<nat>([p]) == [p] && InTable([p], |at|)
    ensures BlockedIn(at, [p]) == if at[p].Blocked? then 1 else 0
  {
    assert [p][1..] == [];
    assert BlockedIn(at, [p][1..]) == 0;
  }

  // ---------------------------------------------------------------- composition

  lemma UnblockedTwice(asl: map<Key, seq<nat>>, K: set<nat>, L: set<nat>, n: nat)
    requires forall k :: k in asl ==> InTable(asl[k], n)
    ensures Unblocked(Unblocked(asl, K, n), L, n) == Unblocked(asl, K + L, n)
  {
    var a, b := Unblocked(Unblocked(asl, K, n), L, n), Unblocked(asl, K + L, n);
    forall k | k in asl ensures Without(Without(asl[k], K), L) == Without(asl[k], K + L) {
      WithoutTwice(asl[k], K, L);
    }
    assert a.Keys == b.Keys;
  }

  lemma PrunedTwice(kids: seq<seq<nat>>, K: set<nat>, L: set<nat>)
    ensures Pruned(Pruned(kids, K), L) == Pruned(kids, K + L)
  {
    forall p | 0 <= p < |kids| ensures Pruned(Pruned(kids, K), L)[p] == Pruned(kids, K + L)[p] {
      WithoutTwice(kids[p], K, L);
    }
  }

  lemma {:induction false} BlockedInAppend(at: seq<Place>, a: seq<nat>, b: seq<nat>)
    requires InTable(a, |at|) && InTable(b, |at|)
    ensures InTable(a + b, |at|) && BlockedIn(at, a + b) == BlockedIn(at, a) + BlockedIn(at, b)
  {
    if a == [] {
      assert a + b == b;
    } else {
      assert (a + b)[0] == a[0] && (a + b)[1..] == a[1..] + b;
      BlockedInAppend(at, a[1..], b);
    }
  }

  lemma {:induction false} BlockedInFreed(at: seq<Place>, K: set<nat>, b: seq<nat>)
    requires InTable(b, |at|) && forall i :: 0 <= i < |b| ==> b[i] !in K
    ensures BlockedIn(Freed(at, K), b) == BlockedIn(at, b)
  {
    if b != [] {
      BlockedInFreed(at, K, b[1..]);
    }
  }

  /** Terminating `a`, then `b`, is terminating `a` and `b`. */
  lemma DropTwice(s: Sys, a: seq<nat>, b: seq<nat>)
    requires Shape(s) && InTable(a, |s.at|) && InTable(b, |s.at|) && forall i :: 0 <= i < |b| ==> b[i] !in a
    ensures InTable(a + b, |s.at|) && Drop(Drop(s, a), b) == Drop(s, a + b)
  {
    assert forall k :: k in s.asl ==> InTable(s.asl[k], |s.at|);
    hide Unblocked, Pruned, Freed, Orphaned, Without, Reverse, BlockedIn, Shape, Drop;
    var K, L := Elems(a), Elems(b);
    assert Elems(a + b) == K + L;
    BlockedInAppend(s.at, a, b);
    BlockedInFreed(s.at, K, b);
    assert Reverse(b) + (Reverse(a) + s.free) == Reverse(a + b) + s.free by {
      ReverseAppend(a, b);
      assert Reverse(b) + (Reverse(a) + s.free) == (Reverse(b) + Reverse(a)) + s.free;
    }
    UnblockedTwice(s.asl, K, L, |s.at|);
    PrunedTwice(s.kids, K, L);
    WithoutTwice(s.low, K, L);
    WithoutTwice(s.high, K, L);
    FreedTwice(s.at, s.parent, K, L);
    DropAgain(s, a, b);
  }

  lemma DropAgain(s: Sys, a: seq<nat>, b: seq<nat>)
    requires Shape(s) && InTable(a, |s.at|) && InTable(b, |s.at|) && InTable(a + b, |s.at|)
    requires forall k :: k in s.asl ==> InTable(s.asl[k], |s.at|)
    requires Elems(a + b) == Elems(a) + Elems(b)
    requires Unblocked(Unblocked(s.asl, Elems(a), |s.at|), Elems(b), |s.at|) ==
             Unblocked(s.asl, Elems(a) + Elems(b), |s.at|)
    requires Pruned(Pruned(s.kids, Elems(a)), Elems(b)) == Pruned(s.kids, Elems(a) + Elems(b))
    requires Without(Without(s.low, Elems(a)), Elems(b)) == Without(s.low, Elems(a) + Elems(b))
    requires Without(Without(s.high, Elems(a)), Elems(b)) == Without(s.high, Elems(a) + Elems(b))
    requires Freed(Freed(s.at, Elems(a)), Elems(b)) == Freed(s.at, Elems(a) + Elems(b))
    requires Orphaned(Orphaned(s.parent, Elems(a)), Elems(b)) == Orphaned(s.parent, Elems(a) + Elems(b))
    requires Reverse(b) + (Reverse(a) + s.free) == Reverse(a + b) + s.free
    requires BlockedIn(s.at, a + b) == BlockedIn(s.at, a) + BlockedIn(Freed(s.at, Elems(a)), b)
    ensures Drop(Drop(s, a), b) == Drop(s, a + b)
  {
    hide Unblocked, Pruned, Freed, Orphaned, Without, Reverse, BlockedIn, Shape;
  }

  lemma FreedTwice(at: seq<Place>, parent: seq<Option<nat>>, K: set<nat>, L: set<nat>)
    ensures Freed(Freed(at, K), L) == Freed(at, K + L)
    ensures Orphaned(Orphaned(parent, K), L) == Orphaned(parent, K + L)
  {
  }

  /** Detaching a child first makes no difference to terminating it and others. */
  lemma DropDetached(s: Sys, p: nat, b: seq<nat>)
    requires Shape(s) && p < |s.at| && s.kids[p] != [] && s.kids[p][0] < |s.at|
    requires InTable(b, |s.at|) && s.kids[p][0] in b
    ensures Drop(Detach(s, p), b) == Drop(s, b)
  {
    var c := s.kids[p][0];
    var L := Elems(b);
    var r := Detach(s, p);
    assert Orphaned(r.parent, L) == Orphaned(s.parent, L);
    assert s.kids[p] == [c] + s.kids[p][1..];
    WithoutAppend([c], s.kids[p][1..], L);
    assert Without([c], L) == [];
    assert Pruned(r.kids, L) == Pruned(s.kids, L);
    hide Unblocked, Pruned, Freed, Orphaned, Without, Reverse, BlockedIn, Shape;
  }

  // ---------------------------------------------------------------- order

  /** The order below a process depends only on the child lists below it. */
  lemma {:induction false} PostOrderFrame(kids: seq<seq<nat>>, kids': seq<seq<nat>>, born: seq<nat>, births: nat,
                                          p: nat)
    requires Ordered(kids, born, births) && Ordered(kids', born, births) && p < |kids|
    requires forall q :: q in PostOrder(kids, born, births, p) ==> 0 <= q < |kids| && kids'[q] == kids[q]
    ensures PostOrder(kids', born, births, p) == PostOrder(kids, born, births, p)
    decreases births - born[p], |kids[p]| + 1
  {
    var below := PostOrders(kids, born, births, kids[p], born[p]);
    assert PostOrder(kids, born, births, p) == below + [p];
    assert p in below + [p];
    forall q | q in below ensures 0 <= q < |kids| && kids'[q] == kids[q] {
      assert q in below + [p];
    }
    PostOrdersFrame(kids, kids', born, births, kids[p], born[p]);
  }

  lemma {:induction false} PostOrdersFrame(kids: seq<seq<nat>>, kids': seq<seq<nat>>, born: seq<nat>, births: nat,
                                           cs: seq<nat>, above: nat)
    requires Ordered(kids, born, births) && Ordered(kids', born, births) && above < births
    requires forall i :: 0 <= i < |cs| ==> cs[i] < |kids| && above < born[cs[i]]
    requires forall q :: q in PostOrders(kids, born, births, cs, above) ==> 0 <= q < |kids| && kids'[q] == kids[q]
    ensures PostOrders(kids', born, births, cs, above) == PostOrders(kids, born, births, cs, above)
    decreases births - above, |cs|
  {
    if cs != [] {
      var a, b := PostOrder(kids, born, births, cs[0]), PostOrders(kids, born, births, cs[1..], above);
      assert PostOrders(kids, born, births, cs, above) == a + b;
      forall q | q in a || q in b ensures 0 <= q < |kids| && kids'[q] == kids[q] {
        assert q in a + b;
      }
      PostOrderFrame(kids, kids', born, births, cs[0]);
      PostOrdersFrame(kids, kids', born, births, cs[1..], above);
    }
  }

  lemma {:induction false} PostOrdersAppend(kids: seq<seq<nat>>, born: seq<nat>, births: nat, a: seq<nat>, b: seq<nat>,
                                            above: nat)
    requires Ordered(kids, born, births) && above < births
    requires forall i :: 0 <= i < |a| ==> a[i] < |kids| && above < born[a[i]]
    requires forall i :: 0 <= i < |b| ==> b[i] < |kids| && above < born[b[i]]
    ensures PostOrders(kids, born, births, a + b, above) ==
            PostOrders(kids, born, births, a, above) + PostOrders(kids, born, births, b, above)
  {
    if a == [] {
      assert a + b == b;
    } else {
      assert (a + b)[0] == a[0] && (a + b)[1..] == a[1..] + b;
      PostOrdersAppend(kids, born, births, a[1..], b, above);
    }
  }

  // ---------------------------------------------------------------- the loop of kill_parent_and_progeny

  /** What the first `i` turns of the loop terminate. */
  ghost function Done(s: Sys, p: nat, i: nat): seq<nat>
    requires Shape(s) && TreeOk(s) && p < |s.at| && i <= |s.kids[p]|
  {
    PostOrders(s.kids, s.born, s.births, s.kids[p][..i], s.born[p])
  }

  lemma InDone(s: Sys, p: nat, i: nat)
    requires Shape(s) && TreeOk(s) && p < |s.at| && i <= |s.kids[p]|
    ensures NoDup(Done(s, p, i))
    ensures forall q :: q in Done(s, p, i) <==>
              0 <= q < |s.at| && exists c: nat :: c in s.kids[p][..i] && c < |s.at| && Under(s, q, c)
  {
    PostOrdersSubtree(s, p, s.kids[p][..i]);
  }

  /** The turns to come concern other processes: the parent, and the later children's subtrees. */
  lemma DoneApart(s: Sys, p: nat, i: nat, q: nat)
    requires Core(s) && p < |s.at| && i <= |s.kids[p]| && q in Done(s, p, i)
    ensures q != p && q < |s.at|
    ensures forall j :: i <= j < |s.kids[p]| ==> s.kids[p][j] < |s.at| && !Under(s, q, s.kids[p][j])
  {
    InDone(s, p, i);
    var c: nat :| c in s.kids[p][..i] && c < |s.at| && Under(s, q, c);
    assert s.parent[c] == Some(p) && UpOne(s, c);
    UnderOlder(s, q, c);
    forall j | i <= j < |s.kids[p]| ensures s.kids[p][j] < |s.at| && !Under(s, q, s.kids[p][j]) {
      assert s.kids[p][j] in s.kids[p] && s.kids[p][j] != c;
      SiblingsApart(s, q, c, s.kids[p][j]);
    }
  }

  lemma DoneClosed(s: Sys, p: nat, i: nat)
    requires Core(s) && p < |s.at| && i <= |s.kids[p]|
    ensures Closed(s, Done(s, p, i))
  {
    var ks := Done(s, p, i);
    InDone(s, p, i);
    forall h | 0 <= h < |ks| ensures ks[h] < |s.at| { assert ks[h] in ks; }
    forall q, d | q in ks && d in s.kids[q] ensures d in ks {
      var c: nat :| c in s.kids[p][..i] && c < |s.at| && Under(s, q, c);
      assert s.parent[d] == Some(q) && UpOne(s, d) && Under(s, d, c);
    }
    forall q | q in ks ensures s.at[q] != Free {
      var c: nat :| c in s.kids[p][..i] && c < |s.at| && Under(s, q, c);
      assert s.parent[c] == Some(p);
      assert s.parent[q].Some?;
    }
  }

  lemma {:induction false} WithoutPrefix(q: seq<nat>, i: nat, K: set<nat>)
    requires i <= |q| && (forall j :: 0 <= j < i ==> q[j] in K) && (forall j :: i <= j < |q| ==> q[j] !in K)
    ensures Without<nat>(q, K) == q[i..]
  {
    if i == 0 {
      WithoutAbsent<nat>(q, K);
    } else {
      WithoutPrefix(q[1..], i - 1, K);
    }
  }

  /** After `i` turns the children left are the later ones, and the parent is untouched. */
  lemma DoneLeaves(s: Sys, p: nat, i: nat)
    requires Core(s) && p < |s.at| && s.at[p] != Free && i <= |s.kids[p]|
    ensures Closed(s, Done(s, p, i))
    ensures var t := Drop(s, Done(s, p, i));
            Core(t) && t.at[p] == s.at[p] && t.kids[p] == s.kids[p][i..] && t.born == s.born && t.births == s.births
  {
    var ks := Done(s, p, i);
    DoneClosed(s, p, i);
    DropCore(s, ks);
    InDone(s, p, i);
    if p in ks { DoneApart(s, p, i, p); }
    forall j | 0 <= j < |s.kids[p]| ensures s.kids[p][j] in ks <==> j < i {
      var c := s.kids[p][j];
      assert c in s.kids[p];
      if j < i {
        assert c in s.kids[p][..i] && Under(s, c, c);
      } else if c in ks {
        DoneApart(s, p, i, c);
      }
    }
    WithoutPrefix(s.kids[p], i, Elems(ks));
  }

  /** The state when `i` children are dealt with and the next one has just been detached. */
  ghost function Midway(s: Sys, p: nat, i: nat): (r: Sys)
    requires Core(s) && p < |s.at| && s.at[p] != Free && i < |s.kids[p]|
    ensures Closed(s, Done(s, p, i)) && s.kids[p][i] < |s.at|
  {
    DoneLeaves(s, p, i);
    assert s.kids[p][i] in s.kids[p];
    Detach(Drop(s, Done(s, p, i)), p)
  }

  /** The subtree a turn terminates is the child's subtree of the beginning. */
  lemma TurnOrder(s: Sys, p: nat, i: nat)
    requires Core(s) && p < |s.at| && s.at[p] != Free && i < |s.kids[p]|
    requires Closed(s, Done(s, p, i)) && Core(Drop(s, Done(s, p, i)))
    requires Drop(s, Done(s, p, i)).kids[p] == s.kids[p][i..]
    ensures s.kids[p][i] < |s.at|
    ensures var u := Detach(Drop(s, Done(s, p, i)), p);
            Core(u) && PostOrder(u.kids, u.born, u.births, s.kids[p][i]) ==
              PostOrder(s.kids, s.born, s.births, s.kids[p][i])
  {
    var ks, c := Done(s, p, i), s.kids[p][i];
    assert c in s.kids[p];
    var t := Drop(s, ks);
    DetachCore(t, p);
    var u := Detach(t, p);
    PostOrderSubtree(s, c);
    forall q | q in PostOrder(s.kids, s.born, s.births, c) ensures 0 <= q < |s.kids| && u.kids[q] == s.kids[q] {
      TurnKids(s, p, i, q);
    }
    PostOrderFrame(s.kids, u.kids, s.born, s.births, c);
  }

  lemma TurnKids(s: Sys, p: nat, i: nat, q: nat)
    requires Core(s) && p < |s.at| && i < |s.kids[p]| && Closed(s, Done(s, p, i))
    requires Drop(s, Done(s, p, i)).kids[p] == s.kids[p][i..]
    requires s.kids[p][i] < |s.at| && q < |s.at| && Under(s, q, s.kids[p][i])
    ensures Detach(Drop(s, Done(s, p, i)), p).kids[q] == s.kids[q]
  {
    assert s.kids[p][i..] != [] && s.kids[p][i..][0] < |s.at|;
    BelowApart(s, p, i, q);
    hide ListsOk, AslOk, ValuesOk, TreeOk, PriosOk, CountsOk, Drop, Detach, Under;
    KeptKids(s, Done(s, p, i), p, q);
  }

  /** Neither the subtree of a later child nor its members' children were terminated before. */
  lemma BelowApart(s: Sys, p: nat, i: nat, q: nat)
    requires Core(s) && p < |s.at| && i < |s.kids[p]|
    requires s.kids[p][i] < |s.at| && q < |s.at| && Under(s, q, s.kids[p][i])
    ensures q != p && q !in Done(s, p, i) && forall d :: d in s.kids[q] ==> d !in Done(s, p, i)
  {
    hide ListsOk, AslOk, ValuesOk, PriosOk, CountsOk;
    var c := s.kids[p][i];
    assert c in s.kids[p] && UpOne(s, c);
    UnderOlder(s, q, c);
    if q in Done(s, p, i) { DoneApart(s, p, i, q); }
    forall d | d in s.kids[q] ensures d !in Done(s, p, i) {
      assert s.parent[d] == Some(q) && UpOne(s, d) && Under(s, d, c);
      if d in Done(s, p, i) { DoneApart(s, p, i, d); }
    }
  }

  lemma KeptKids(s: Sys, ks: seq<nat>, p: nat, q: nat)
    requires Shape(s) && InTable(ks, |s.at|) && p < |s.at| && q < |s.at| && q != p && q !in ks
    requires forall d :: d in s.kids[q] ==> d !in ks
    requires Drop(s, ks).kids[p] != [] && Drop(s, ks).kids[p][0] < |s.at|
    ensures Detach(Drop(s, ks), p).kids[q] == s.kids[q]
  {
    WithoutAbsent<nat>(s.kids[q], Elems(ks));
  }

  /** One turn: detach the first remaining child and terminate its subtree. */
  lemma Turn(s: Sys, p: nat, i: nat)
    requires Core(s) && p < |s.at| && s.at[p] != Free && i < |s.kids[p]|
    ensures Closed(s, Done(s, p, i)) && Closed(s, Done(s, p, i + 1))
    ensures s.kids[p][i] < |s.at| && Core(Midway(s, p, i)) && |Midway(s, p, i).at| == |s.at|
    ensures Midway(s, p, i).at[s.kids[p][i]] != Free
    ensures KillProcess(Midway(s, p, i), s.kids[p][i]) == Drop(s, Done(s, p, i + 1))
  {
    var ks, c := Done(s, p, i), s.kids[p][i];
    assert c in s.kids[p] && c < |s.at|;
    DoneLeaves(s, p, i);
    DoneLeaves(s, p, i + 1);
    var t := Drop(s, ks);
    DetachCore(t, p);
    TurnOrder(s, p, i);
    TurnApart(s, p, i);
    TurnSum(s, p, i);
    var b := PostOrder(s.kids, s.born, s.births, c);
    hide *;
    var u := Detach(t, p);
    KillIs(u, c);
    DropDetached(t, p, b);
    DropTwice(s, ks, b);
  }

  lemma KillIs(s: Sys, p: nat)
    requires Core(s) && p < |s.at| && s.at[p] != Free
    ensures InTable(PostOrder(s.kids, s.born, s.births, p), |s.at|)
    ensures KillProcess(s, p) == Drop(s, PostOrder(s.kids, s.born, s.births, p))
  {
    SubtreeClosed(s, p);
  }

  lemma TurnSum(s: Sys, p: nat, i: nat)
    requires Core(s) && p < |s.at| && i < |s.kids[p]| && s.kids[p][i] < |s.at|
    ensures Done(s, p, i + 1) == Done(s, p, i) + PostOrder(s.kids, s.born, s.births, s.kids[p][i])
  {
    var c := s.kids[p][i];
    assert s.kids[p][..i + 1] == s.kids[p][..i] + [c];
    assert [c][1..] == [];
    PostOrdersAppend(s.kids, s.born, s.births, s.kids[p][..i], [c], s.born[p]);
  }

  lemma TurnApart(s: Sys, p: nat, i: nat)
    requires Core(s) && p < |s.at| && s.at[p] != Free && i < |s.kids[p]| && s.kids[p][i] < |s.at|
    ensures var b := PostOrder(s.kids, s.born, s.births, s.kids[p][i]);
            InTable(b, |s.at|) && s.kids[p][i] in b && forall j :: 0 <= j < |b| ==> b[j] !in Done(s, p, i)
  {
    var c := s.kids[p][i];
    var b := PostOrder(s.kids, s.born, s.births, c);
    PostOrderSubtree(s, c);
    forall j | 0 <= j < |b| ensures b[j] < |s.at| && b[j] !in Done(s, p, i) {
      assert b[j] in b;
      if b[j] in Done(s, p, i) { DoneApart(s, p, i, b[j]); }
    }
  }

  lemma NotDone(s: Sys, p: nat, i: nat)
    requires Core(s) && p < |s.at| && i <= |s.kids[p]|
    ensures p !in Done(s, p, i)
  {
    if q: nat :| q in Done(s, p, i) && q == p {
      DoneApart(s, p, i, q);
    }
  }

  /** After the last turn, terminating the process itself completes the subtree. */
  lemma LastTurn(s: Sys, p: nat)
    requires Core(s) && p < |s.at| && s.at[p] != Free
    ensures Closed(s, Done(s, p, |s.kids[p]|))
    ensures var t := Drop(s, Done(s, p, |s.kids[p]|));
            && Core(t) && t.at[p] != Free && t.kids[p] == []
            && (t.parent[p].Some? ==> t.parent[p].value < |t.at|)
            && DropOne(t, p) == KillProcess(s, p)
  {
    var m := |s.kids[p]|;
    var ks := Done(s, p, m);
    DoneLeaves(s, p, m);
    var t := Drop(s, ks);
    DropOneIs(t, p);
    NotDone(s, p, m);
    ClosedInside(s, ks);
    WholeOrder(s, p);
    hide *;
    KillIs(s, p);
    DropTwice(s, ks, [p]);
  }

  lemma WholeOrder(s: Sys, p: nat)
    requires Shape(s) && TreeOk(s) && p < |s.at|
    ensures PostOrder(s.kids, s.born, s.births, p) == Done(s, p, |s.kids[p]|) + [p]
  {
    assert s.kids[p][..|s.kids[p]|] == s.kids[p];
  }

  lemma DropNone(s: Sys, p: nat)
    requires Core(s) && p < |s.at|
    ensures Done(s, p, 0) == [] && Drop(s, []) == s
  {
    WithoutAbsent<nat>(s.low, {});
    WithoutAbsent<nat>(s.high, {});
    forall k | k in s.asl ensures Without<nat>(s.asl[k], {}) == s.asl[k] {
      WithoutAbsent<nat>(s.asl[k], {});
    }
    forall q | 0 <= q < |s.kids| ensures Without<nat>(s.kids[q], {}) == s.kids[q] {
      WithoutAbsent<nat>(s.kids[q], {});
    }
    DropNothing(s);
  }

  lemma DropNothing(s: Sys)
    requires Shape(s) && Without<nat>(s.low, {}) == s.low && Without<nat>(s.high, {}) == s.high
    requires forall k :: k in s.asl ==> Without<nat>(s.asl[k], {}) == s.asl[k]
    requires forall q :: 0 <= q < |s.kids| ==> Without<nat>(s.kids[q], {}) == s.kids[q]
    ensures Drop(s, []) == s
  {
    hide Without, Unblocked, Freed, Orphaned, Pruned;
    NothingElse(s.at, s.parent, s.kids);
    NothingUnblocked(s.asl, |s.at|);
    NothingListed(s.at, s.free);
    hide Shape, Reverse, BlockedIn, Elems;
  }

  lemma NothingListed(at: seq<Place>, free: seq<nat>)
    ensures Elems<nat>([]) == {} && Reverse<nat>([]) + free == free && BlockedIn(at, []) == 0
  {
  }

  lemma NothingElse(at: seq<Place>, parent: seq<Option<nat>>, kids: seq<seq<nat>>)
    requires forall q :: 0 <= q < |kids| ==> Without<nat>(kids[q], {}) == kids[q]
    ensures Freed(at, {}) == at && Orphaned(parent, {}) == parent && Pruned(kids, {}) == kids
  {
  }

  lemma NothingUnblocked(asl: map<Key, seq<nat>>, n: nat)
    requires forall k :: k in asl ==> InTable(asl[k], n) && asl[k] != [] && Without<nat>(asl[k], {}) == asl[k]
    ensures Unblocked(asl, {}, n) == asl
  {
    assert Unblocked(asl, {}, n).Keys == asl.Keys;
  }

  /** A child is younger than its parent, which bounds the depth of the recursion. */
  lemma TurnYounger(s: Sys, p: nat, i: nat)
    requires Core(s) && p < |s.at| && i < |s.kids[p]|
    ensures s.kids[p][i] < |s.at| && s.born[p] < s.born[s.kids[p][i]] < s.births
  {
  }
}
