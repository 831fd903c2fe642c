/** Terminating a process terminates exactly the processes below it. */
module KillTree {
  import opened Prelude
  import opened NucleusState
  import opened NucleusInvariant

  /** `q` is `p` or descends from it, going up the parent links. */
  ghost predicate Under(s: Sys, q: nat, p: nat)
    requires Shape(s) && TreeOk(s) && q < |s.at|
    decreases s.born[q]
  {
    q == p || (s.parent[q].Some? && UpOne(s, q) && Under(s, s.parent[q].value, p))
  }

  /** A parent is older than its child. */
  ghost predicate UpOne(s: Sys, q: nat)
    requires Shape(s) && TreeOk(s) && q < |s.at| && s.parent[q].Some?
    ensures UpOne(s, q) && s.parent[q].value < |s.at| && s.born[s.parent[q].value] < s.born[q]
  {
    var r := s.parent[q].value;
    assert q in s.kids[r];
    var i :| 0 <= i < |s.kids[r]| && s.kids[r][i] == q;
    true
  }

  lemma {:induction false} UnderTrans(s: Sys, q: nat, c: nat, p: nat)
    requires Shape(s) && TreeOk(s) && q < |s.at| && c < |s.at|
    requires Under(s, q, c) && Under(s, c, p)
    ensures Under(s, q, p)
    decreases s.born[q]
  {
    if q != c {
      UnderTrans(s, s.parent[q].value, c, p);
    }
  }

  lemma {:induction false} UnderOlder(s: Sys, q: nat, p: nat)
    requires Shape(s) && TreeOk(s) && q < |s.at| && Under(s, q, p)
    ensures p < |s.at| && s.born[p] <= s.born[q]
    decreases s.born[q]
  {
    if q != p {
      UnderOlder(s, s.parent[q].value, p);
    }
  }

  /** The ancestors of one process are in a line. */
  lemma {:induction false} UnderLine(s: Sys, q: nat, a: nat, b: nat)
    requires Shape(s) && TreeOk(s) && q < |s.at| && Under(s, q, a) && Under(s, q, b)
    ensures a < |s.at| && b < |s.at| && (Under(s, a, b) || Under(s, b, a))
    decreases s.born[q]
  {
    UnderOlder(s, q, a);
    UnderOlder(s, q, b);
    if q != a && q != b {
      UnderLine(s, s.parent[q].value, a, b);
    }
  }

  lemma SiblingsApart(s: Sys, q: nat, a: nat, b: nat)
    requires Shape(s) && TreeOk(s) && q < |s.at| && a < |s.at| && b < |s.at| && a != b
    requires s.parent[a].Some? && s.parent[a] == s.parent[b]
    ensures !(Under(s, q, a) && Under(s, q, b))
  {
    if Under(s, q, a) && Under(s, q, b) {
      UnderLine(s, q, a, b);
      var p := s.parent[a].value;
      assert UpOne(s, a) && UpOne(s, b);
      if Under(s, a, b) {
        UnderOlder(s, p, b);
      } else {
        UnderOlder(s, p, a);
      }
    }
  }

  ghost predicate ListsUnder(s: Sys, ks: seq<nat>, p: nat)
    requires Shape(s) && TreeOk(s)
  {
    && NoDup(ks)
    && (forall q :: q in ks <==> 0 <= q < |s.at| && Under(s, q, p))
  }

  /** The order of termination lists the subtree, each process once. */
  lemma {:induction false} PostOrderSubtree(s: Sys, p: nat)
    requires Shape(s) && TreeOk(s) && p < |s.at|
    ensures ListsUnder(s, PostOrder(s.kids, s.born, s.births, p), p)
    decreases s.births - s.born[p], |s.kids[p]| + 1
  {
    PostOrdersSubtree(s, p, s.kids[p]);
    var below := PostOrders(s.kids, s.born, s.births, s.kids[p], s.born[p]);
    forall q | 0 <= q < |s.at| ensures q in below + [p] <==> Under(s, q, p) {
      if q != p && Under(s, q, p) {
        BelowChild(s, q, p);
      } else if q in below {
        var c :| c in s.kids[p] && c < |s.at| && Under(s, q, c);
        UnderTrans(s, q, c, p);
      }
    }
    if p in below {
      var c :| c in s.kids[p] && c < |s.at| && Under(s, p, c);
      UnderOlder(s, p, c);
    }
  }

  lemma {:induction false} BelowChild(s: Sys, q: nat, p: nat)
    requires Shape(s) && TreeOk(s) && q < |s.at| && q != p && Under(s, q, p)
    ensures p < |s.at| && exists c: nat :: c in s.kids[p] && c < |s.at| && Under(s, q, c)
    decreases s.born[q]
  {
    var r := s.parent[q].value;
    if r == p {
      assert q in s.kids[p] && Under(s, q, q);
    } else {
      BelowChild(s, r, p);
      var c: nat :| c in s.kids[p] && c < |s.at| && Under(s, r, c);
      assert Under(s, q, c);
    }
  }

  /** `ks` lists what is under the members of `cs`, each process once. */
  ghost predicate ListsUnderAny(s: Sys, ks: seq<nat>, cs: seq<nat>)
    requires Shape(s) && TreeOk(s)
  {
    && NoDup(ks)
    && (forall q :: q in ks <==> 0 <= q < |s.at| && exists c :: c in cs && c < |s.at| && Under(s, q, c))
  }

  lemma {:induction false} PostOrdersSubtree(s: Sys, p: nat, cs: seq<nat>)
    requires Shape(s) && TreeOk(s) && p < |s.at| && NoDup(cs)
    requires forall c :: c in cs ==> c in s.kids[p]
    requires forall i :: 0 <= i < |cs| ==> cs[i] < |s.at| && s.born[p] < s.born[cs[i]]
    ensures ListsUnderAny(s, PostOrders(s.kids, s.born, s.births, cs, s.born[p]), cs)
    decreases s.births - s.born[p], |cs|
  {
    if cs != [] {
      var c := cs[0];
      assert c in cs;
      forall d | d in cs[1..] ensures d in s.kids[p] && d != c {
        assert d in cs;
      }
      hide Under, ListsUnder, ListsUnderAny;
      PostOrderSubtree(s, c);
      PostOrdersSubtree(s, p, cs[1..]);
      var first := PostOrder(s.kids, s.born, s.births, c);
      var rest := PostOrders(s.kids, s.born, s.births, cs[1..], s.born[p]);
      FirstAndRest(s, p, cs, first, rest);
    }
  }

  /** What is under the first child, and what is under the others. */
  lemma FirstAndRest(s: Sys, p: nat, cs: seq<nat>, first: seq<nat>, rest: seq<nat>)
    requires Shape(s) && TreeOk(s) && p < |s.at| && NoDup(cs) && cs != [] && cs[0] < |s.at|
    requires forall c :: c in cs ==> c in s.kids[p]
    requires ListsUnder(s, first, cs[0]) && ListsUnderAny(s, rest, cs[1..])
    ensures ListsUnderAny(s, first + rest, cs)
  {
    var c := cs[0];
    assert cs == [c] + cs[1..] && c in cs;
    hide Under;
    forall q | q in first && q in rest ensures false {
      var d :| d in cs[1..] && d < |s.at| && Under(s, q, d);
      assert d in cs;
      SiblingsApart(s, q, c, d);
    }
    NoDupConcat(first, rest);
    assert forall d :: d in cs <==> d == c || d in cs[1..];
  }

  /** A set of live processes that contains the children of its members. */
  ghost predicate Closed(s: Sys, ks: seq<nat>)
    requires Shape(s)
  {
    && InTable(ks, |s.at|) && NoDup(ks)
    && (forall p :: p in ks ==> s.at[p] != Free)
    && (forall p, c :: p in ks && c in s.kids[p] ==> c in ks)
  }

  lemma DropHolds(q: seq<nat>, at: seq<Place>, x: Place, K: set<nat>)
    requires Holds(q, at, x) && x != Free
    ensures Holds(Without(q, K), Freed(at, K), x)
  {
    WithoutNoDup(q, K);
  }

  lemma DropLists(s: Sys, ks: seq<nat>)
    requires Shape(s) && ListsOk(s) && AslOk(s) && Closed(s, ks)
    ensures ListsOk(Drop(s, ks)) && AslOk(Drop(s, ks))
  {
    var K := Elems(ks);
    var r := Drop(s, ks);
    DropHolds(s.low, s.at, Low, K);
    DropHolds(s.high, s.at, High, K);
    ReverseNoDup(ks);
    NoDupConcat(Reverse(ks), s.free);
    forall k | k in r.asl ensures Holds(r.asl[k], r.at, Blocked(k)) {
      DropHolds(s.asl[k], s.at, Blocked(k), K);
    }
    forall p | 0 <= p < |r.at| && r.at[p].Blocked? ensures r.at[p].key in r.asl {
      var k := s.at[p].key;
      assert Holds(s.asl[k], s.at, Blocked(k));
      assert p in Without(s.asl[k], K);
    }
  }

  lemma DropTree(s: Sys, ks: seq<nat>)
    requires Shape(s) && TreeOk(s) && Closed(s, ks)
    ensures TreeOk(Drop(s, ks))
  {
    var K := Elems(ks);
    var r := Drop(s, ks);
    forall p | 0 <= p < |r.kids| ensures NoDup(r.kids[p]) {
      WithoutNoDup(s.kids[p], K);
    }
    forall p, i | 0 <= p < |r.kids| && 0 <= i < |r.kids[p]|
      ensures r.kids[p][i] < |r.kids| && r.born[p] < r.born[r.kids[p][i]]
    {
      assert r.kids[p][i] in r.kids[p] && r.kids[p][i] in s.kids[p];
      var j :| 0 <= j < |s.kids[p]| && s.kids[p][j] == r.kids[p][i];
    }
    forall c | 0 <= c < |r.at| && r.parent[c].Some?
      ensures r.parent[c].value < |r.at| && c in r.kids[r.parent[c].value]
    {
      assert c in s.kids[s.parent[c].value];
    }
  }

  ghost function WaitingAmong(at: seq<Place>, ks: seq<nat>): set<nat> {
    set p | p in ks && p < |at| && at[p].Blocked?
  }

  lemma {:induction false} BlockedInCounts(at: seq<Place>, ks: seq<nat>)
    requires InTable(ks, |at|) && NoDup(ks)
    ensures BlockedIn(at, ks) == |WaitingAmong(at, ks)|
  {
    if ks == [] {
      assert WaitingAmong(at, ks) == {};
    } else {
      BlockedInCounts(at, ks[1..]);
      assert ks == [ks[0]] + ks[1..] && ks[0] !in ks[1..];
      SizeMoved(WaitingAmong(at, ks[1..]), WaitingAmong(at, ks), ks[0]);
    }
  }

  lemma FreedCounts(at: seq<Place>, ks: seq<nat>)
    requires InTable(ks, |at|) && NoDup(ks) && forall p :: p in ks ==> at[p] != Free
    ensures |Live(Freed(at, Elems(ks)))| == |Live(at)| - |ks|
    ensures |Waiting(Freed(at, Elems(ks)))| == |Waiting(at)| - BlockedIn(at, ks)
  {
    var K, B := Elems(ks), WaitingAmong(at, ks);
    NoDupCount(ks);
    BlockedInCounts(at, ks);
    forall p | p in K ensures p in Live(at) {
      var i :| 0 <= i < |ks| && ks[i] == p;
    }
    assert Live(Freed(at, K)) == Live(at) - K;
    assert Waiting(Freed(at, K)) == Waiting(at) - B && B <= Waiting(at);
  }

  lemma DropValues(s: Sys, ks: seq<nat>)
    requires Shape(s) && ValuesOk(s) && PriosOk(s) && InTable(ks, |s.at|)
    ensures ValuesOk(Drop(s, ks)) && PriosOk(Drop(s, ks))
  {
    hide Unblocked, Pruned, Orphaned, Without, Reverse, BlockedIn, Elems;
  }

  lemma DropCounts(s: Sys, ks: seq<nat>)
    requires Shape(s) && CountsOk(s) && Closed(s, ks)
    ensures CountsOk(Drop(s, ks))
  {
    hide Unblocked, Pruned, Orphaned, Without, Reverse, BlockedIn, Live, Waiting, Freed, Elems;
    FreedCounts(s.at, ks);
  }

  lemma DropCore(s: Sys, ks: seq<nat>)
    requires Core(s) && Closed(s, ks)
    ensures Core(Drop(s, ks))
  {
    hide ListsOk, AslOk, ValuesOk, TreeOk, PriosOk, CountsOk, Drop, Shape, Closed;
    DropLists(s, ks);
    DropTree(s, ks);
    ClosedInside(s, ks);
    DropValues(s, ks);
    DropCounts(s, ks);
  }

  lemma ClosedInside(s: Sys, ks: seq<nat>)
    requires Shape(s) && Closed(s, ks)
    ensures InTable(ks, |s.at|)
  {
  }

  /** A live process's subtree is a set the kernel may terminate. */
  lemma SubtreeClosed(s: Sys, p: nat)
    requires Core(s) && p < |s.at| && s.at[p] != Free
    ensures Closed(s, PostOrder(s.kids, s.born, s.births, p))
  {
    var ks := PostOrder(s.kids, s.born, s.births, p);
    PostOrderSubtree(s, p);
    forall i | 0 <= i < |ks| ensures ks[i] < |s.at| { assert ks[i] in ks; }
    forall q, c | q in ks && c in s.kids[q] ensures c in ks {
      assert s.parent[c] == Some(q) && UpOne(s, c);
      assert Under(s, c, p);
    }
    forall q | q in ks ensures s.at[q] != Free {
      if q != p {
        assert s.parent[q].Some?;
      }
    }
  }
}
