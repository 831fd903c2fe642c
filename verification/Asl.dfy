/**
 * The active semaphore list of asl.c: descriptors move between the list of free ones and the
 * list of those somebody waits on, each of which owns a queue of processes.
 */
module ActiveSemaphores {
  import opened Prelude
  import opened NucleusState
  import opened Listx
  import opened ProcQueues

  const ACTIVE := 0   // semd_h
  const UNUSED := 1   // semd_free_h

  /** The sentinel of descriptor `d`'s queue, among the rings of `p_list` links. */
  function Procq(d: nat): nat { 3 + d }

  /** Active descriptors and keys are in bijection, and each key's queue is its descriptor's ring. */
  ghost predicate Described(active: map<Key, seq<nat>>, desc: map<Key, nat>, inUse: seq<nat>,
                            key: seq<Key>, rings: seq<seq<nat>>, n: nat)
    requires |key| == n && |rings| == 3 + n
  {
    && desc.Keys == active.Keys
    && (forall k :: k in desc ==> desc[k] < n && desc[k] in inUse && key[desc[k]] == k)
    && (forall k :: k in desc ==> active[k] != [] && rings[Procq(desc[k])] == active[k])
    && (forall d :: d in inUse ==> d < n && key[d] in desc && desc[key[d]] == d)
    && (forall d :: 0 <= d < n && d !in inUse ==> rings[Procq(d)] == [])
  }

  ghost predicate AllWait(q: seq<nat>, semAdd: seq<Option<Key>>, k: Key) {
    forall i :: 0 <= i < |q| ==> q[i] < |semAdd| && semAdd[q[i]] == Some(k)
  }

  /** A process is in the queue of a key exactly if its p_semAdd is that key. */
  ghost predicate Blockers(active: map<Key, seq<nat>>, semAdd: seq<Option<Key>>) {
    && (forall k :: k in active ==> AllWait(active[k], semAdd, k))
    && (forall p :: 0 <= p < |semAdd| && semAdd[p].Some? ==>
          semAdd[p].value in active && p in active[semAdd[p].value])
  }

  ghost function Waiters(active: map<Key, seq<nat>>, k: Key): seq<nat> {
    if k in active then active[k] else []
  }

  ghost function Below(n: nat): (r: set<nat>)
    ensures (forall x: nat :: x in r <==> x < n) && |r| == n
  {
    if n == 0 then {} else Below(n - 1) + {n - 1}
  }

  /** n distinct processes of a table of n are all of them. */
  lemma Pigeonhole(f: seq<nat>, n: nat, p: nat)
    requires |f| == n && NoDup(f) && p < n && forall i :: 0 <= i < n ==> f[i] < n
    ensures p in f
  {
    NoDupCount(f);
    if p !in f {
      assert Elems(f) <= Below(n) - {p};
      SubsetSize(Elems(f), Below(n) - {p});
    }
  }

  /** While some process waits for nothing, some descriptor is free: each active one has a waiter of its own. */
  lemma SomeUnused(active: map<Key, seq<nat>>, desc: map<Key, nat>, inUse: seq<nat>, key: seq<Key>,
                   rings: seq<seq<nat>>, n: nat, semAdd: seq<Option<Key>>, p: nat)
    requires |key| == |semAdd| == n && |rings| == 3 + n && p < n && semAdd[p] == None
    requires Described(active, desc, inUse, key, rings, n) && Blockers(active, semAdd)
    ensures exists d :: 0 <= d < n && d !in inUse
  {
    if forall d :: 0 <= d < n ==> d in inUse {
      forall d | 0 <= d < n ensures key[d] in active && active[key[d]] != [] && desc[key[d]] == d {
        assert d in inUse;
      }
      var f := seq(n, d requires 0 <= d < n => active[key[d]][0]);
      forall d | 0 <= d < n ensures f[d] < n && semAdd[f[d]] == Some(key[d]) {
        assert AllWait(active[key[d]], semAdd, key[d]);
      }
      Pigeonhole(f, n, p);
    }
  }

  /** A process joins the queue of an active descriptor. */
  lemma JoinDescribed(active: map<Key, seq<nat>>, desc: map<Key, nat>, inUse: seq<nat>, key: seq<Key>,
                      rings: seq<seq<nat>>, n: nat, k: Key, p: nat)
    requires |key| == n && |rings| == 3 + n && Described(active, desc, inUse, key, rings, n) && k in active
    ensures desc[k] < n
    ensures Described(active[k := active[k] + [p]], desc, inUse, key,
                      rings[Procq(desc[k]) := rings[Procq(desc[k])] + [p]], n)
  {
  }

  /** A free descriptor is taken into use for a new key and its first waiter. */
  lemma OpenDescribed(active: map<Key, seq<nat>>, desc: map<Key, nat>, inUse: seq<nat>, key: seq<Key>,
                      rings: seq<seq<nat>>, n: nat, k: Key, d: nat, p: nat)
    requires |key| == n && |rings| == 3 + n && Described(active, desc, inUse, key, rings, n)
    requires k !in active && d < n && d !in inUse
    ensures Described(active[k := [p]], desc[k := d], [d] + inUse, key[d := k], rings[Procq(d) := [p]], n)
  {
  }

  lemma JoinBlockers(active: map<Key, seq<nat>>, semAdd: seq<Option<Key>>, k: Key, p: nat)
    requires Blockers(active, semAdd) && p < |semAdd| && semAdd[p] == None
    ensures Blockers(active[k := Waiters(active, k) + [p]], semAdd[p := Some(k)])
  {
    var semAdd' := semAdd[p := Some(k)];
    forall j | j in active ensures AllWait(active[j], semAdd', j) {
      assert AllWait(active[j], semAdd, j);
    }
  }

  /** A queue shrinks but keeps a waiter. */
  lemma LeaveDescribed(active: map<Key, seq<nat>>, desc: map<Key, nat>, inUse: seq<nat>, key: seq<Key>,
                       rings: seq<seq<nat>>, n: nat, k: Key, q: seq<nat>)
    requires |key| == n && |rings| == 3 + n && Described(active, desc, inUse, key, rings, n) && k in active && q != []
    ensures desc[k] < n && Described(active[k := q], desc, inUse, key, rings[Procq(desc[k]) := q], n)
  {
  }

  /** A queue becomes empty, and its descriptor is given back. */
  lemma CloseDescribed(active: map<Key, seq<nat>>, desc: map<Key, nat>, inUse: seq<nat>, key: seq<Key>,
                       rings: seq<seq<nat>>, n: nat, k: Key)
    requires |key| == n && |rings| == 3 + n && Described(active, desc, inUse, key, rings, n) && k in active
    ensures desc[k] < n
    ensures Described(active - {k}, desc - {k}, Without<nat>(inUse, {desc[k]}), key, rings[Procq(desc[k]) := []], n)
  {
    hide Without;
    CloseDescribedAs(active, desc, inUse, key, rings, n, k, Without<nat>(inUse, {desc[k]}));
  }

  lemma CloseDescribedAs(active: map<Key, seq<nat>>, desc: map<Key, nat>, inUse: seq<nat>, key: seq<Key>,
                         rings: seq<seq<nat>>, n: nat, k: Key, left: seq<nat>)
    requires |key| == n && |rings| == 3 + n && Described(active, desc, inUse, key, rings, n) && k in active
    requires forall c :: c in left <==> c in inUse && c != desc[k]
    ensures desc[k] < n
    ensures Described(active - {k}, desc - {k}, left, key, rings[Procq(desc[k]) := []], n)
  {
    forall j | j in desc && j != k ensures desc[j] != desc[k] && desc[j] in left {
      assert key[desc[j]] == j;
    }
  }

  /** The descriptor of an active key is in the active list, and in no other. */
  lemma InUseOwner(active: map<Key, seq<nat>>, desc: map<Key, nat>, inUse: seq<nat>, key: seq<Key>,
                   rings: seq<seq<nat>>, n: nat, k: Key, lists: seq<seq<nat>>, owner: seq<Option<nat>>)
    requires |key| == n && |rings| == 3 + n && Described(active, desc, inUse, key, rings, n) && k in active
    requires Owned(lists, owner) && |lists| == 2 && |owner| == n && lists[ACTIVE] == inUse
    ensures k in desc && desc[k] < n && owner[desc[k]] == Some(ACTIVE)
  {
    assert OwnedBy(lists[ACTIVE], owner, ACTIVE);
  }

  lemma LeaveBlockers(active: map<Key, seq<nat>>, semAdd: seq<Option<Key>>, k: Key, p: nat, q: seq<nat>)
    requires Blockers(active, semAdd) && k in active && p < |semAdd| && semAdd[p] == Some(k)
    requires NoDup(active[k]) && q == Without<nat>(active[k], {p})
    ensures Blockers(Shrunk(active, k, q), semAdd[p := None])
  {
    var active', semAdd' := Shrunk(active, k, q), semAdd[p := None];
    forall j | j in active' ensures AllWait(active'[j], semAdd', j) {
      assert AllWait(active[j], semAdd, j);
      if j == k {
        forall i | 0 <= i < |q| ensures q[i] < |semAdd'| && semAdd'[q[i]] == Some(k) {
          assert q[i] in q;
          var h :| 0 <= h < |active[k]| && active[k][h] == q[i];
        }
      }
    }
  }

  class Asl {
    const n: nat                       // MAXPROC: processes, and descriptors
    const queues: ListMemory           // p_list links
    const semds: ListMemory            // s_link links
    var key: seq<Key>                  // s_key
    var semAdd: seq<Option<Key>>       // p_semAdd
    ghost var active: map<Key, seq<nat>>
    ghost var desc: map<Key, nat>

    ghost predicate Valid()
      reads this, queues, semds
    {
      && queues != semds && queues.Valid() && semds.Valid()
      && |key| == n && |semAdd| == n
      && |queues.rings| == 3 + n && |queues.owner| == n
      && |semds.rings| == 2 && |semds.owner| == n
      && (forall d :: 0 <= d < n ==> Procq(d) in queues.ready)
      && ACTIVE in semds.ready && UNUSED in semds.ready
      && (forall d :: 0 <= d < n ==> semds.owner[d].Some?)
      && Described(active, desc, semds.rings[ACTIVE], key, queues.rings, n)
      && Blockers(active, semAdd)
    }

    /** What the walk relies on: every active descriptor's key is active, and the key's own is among them. */
    lemma Searchable(k: Key)
      requires Valid()
      ensures forall j :: 0 <= j < |semds.rings[ACTIVE]| ==>
                semds.rings[ACTIVE][j] < n && (key[semds.rings[ACTIVE][j]] == k ==>
                  k in active && k in desc && desc[k] == semds.rings[ACTIVE][j])
      ensures k in active ==> exists j :: 0 <= j < |semds.rings[ACTIVE]| && key[semds.rings[ACTIVE][j]] == k
    {
      var s := semds.rings[ACTIVE];
      forall j | 0 <= j < |s| ensures s[j] < n && (key[s[j]] == k ==> k in active && k in desc && desc[k] == s[j]) {
        assert s[j] in s;
      }
    }

    /** get_semd: the active descriptor of a key, found by walking the list. */
    method GetSemd(k: Key) returns (d: Option<nat>)
      requires Valid()
      ensures d.Some? <==> k in active
      ensures d.Some? ==> k in desc && d.value == desc[k]
    {
      Searchable(k);
      hide Described, Blockers, Solo, Owned;
      ghost var s := semds.rings[ACTIVE];
      ghost var j := 0;
      assert semds.next(Stop(ACTIVE, s, 0)) == Stop(ACTIVE, s, 1);
      var iter := semds.next(Head(ACTIVE));
      while iter != Head(ACTIVE)
        invariant 0 <= j <= |s| && iter == Stop(ACTIVE, s, j + 1)
        invariant forall i :: 0 <= i < j ==> s[i] < n && key[s[i]] != k
        decreases |s| - j
      {
        assert s[j] in s;
        if key[iter.i] == k {
          return Some(iter.i);
        }
        assert semds.next(Stop(ACTIVE, s, j + 1)) == Stop(ACTIVE, s, j + 2);
        iter := semds.next(iter);
        j := j + 1;
      }
      return None;
    }

    /** The table before init_asl. */
    constructor (n: nat, queues: ListMemory, semds: ListMemory, semAdd: seq<Option<Key>>)
      ensures this.n == n && this.queues == queues && this.semds == semds
      ensures key == Fill(n, User(0)) && this.semAdd == semAdd && active == map[] && desc == map[]
    {
      this.n, this.queues, this.semds := n, queues, semds;
      key, this.semAdd := Fill(n, User(0)), semAdd;
      active, desc := map[], map[];
    }

    /** init_pcbs clears p_semAdd in every block. */
    method ClearSemAdd(p: nat)
      requires p < |semAdd|
      modifies this`semAdd
      ensures semAdd == old(semAdd)[p := None]
    {
      semAdd := semAdd[p := None];
    }

    /** init_asl: every descriptor goes to the free list. */
    method InitAsl()
      requires queues != semds && queues.Valid() && semds.Valid()
      requires |key| == n && semAdd == Fill(n, None) && active == map[] && desc == map[]
      requires |queues.rings| == 3 + n && |queues.owner| == n && |semds.rings| == 2 && |semds.owner| == n
      requires forall d :: 0 <= d < n ==> semds.owner[d] == None && queues.rings[Procq(d)] == []
      requires semds.rings[ACTIVE] == [] && semds.rings[UNUSED] == []
      modifies queues, semds
      ensures Valid()
      ensures queues.rings == old(queues.rings) && queues.owner == old(queues.owner)
      ensures queues.solo == old(queues.solo) && old(queues.ready) <= queues.ready
    {
      semds.InitHead(ACTIVE);
      semds.InitHead(UNUSED);
      for i := 0 to n
        invariant queues.Valid() && semds.Valid()
        invariant queues.rings == old(queues.rings) && queues.owner == old(queues.owner)
        invariant queues.solo == old(queues.solo) && old(queues.ready) <= queues.ready
        invariant |semds.rings| == 2 && |semds.owner| == n && semds.rings[ACTIVE] == []
        invariant ACTIVE in semds.ready && UNUSED in semds.ready
        invariant forall d :: 0 <= d < i ==> semds.owner[d].Some? && Procq(d) in queues.ready
        invariant forall d :: i <= d < n ==> semds.owner[d] == None
      {
        semds.InitElem(i);
        queues.InitHead(Procq(i));
        semds.AddTail(i, UNUSED);
      }
    }

    /** No descriptor can be missing for a process that does not wait yet. */
    lemma UnusedLeft(p: nat)
      requires Valid() && p < n && semAdd[p] == None
      ensures semds.rings[UNUSED] != []
    {
      SomeUnused(active, desc, semds.rings[ACTIVE], key, queues.rings, n, semAdd, p);
      var d :| 0 <= d < n && d !in semds.rings[ACTIVE];
      assert semds.owner[d].Some?;
    }

    /** insert_blocked: TRUE, for lack of a descriptor, is never returned. */
    method InsertBlocked(k: Key, p: nat) returns (full: bool)
      requires Valid() && p < n && queues.owner[p] == None && semAdd[p] == None
      modifies this`key, this`semAdd, this`active, this`desc, queues, semds
      ensures Valid() && !full
      ensures active == old(active)[k := Waiters(old(active), k) + [p]]
      ensures semAdd == old(semAdd)[p := Some(k)]
      ensures queues.ready == old(queues.ready) && queues.solo == old(queues.solo) - {p}
      ensures forall h :: 0 <= h < 3 ==> queues.rings[h] == old(queues.rings)[h]
    {
      hide Described, Blockers, AllRings, Owned, Solo;
      var s := GetSemd(k);
      JoinBlockers(active, semAdd, k, p);
      UnusedLeft(p);
      if s == None {
        var e := semds.First(UNUSED);
        if e == None {
          assert false;
        } else {
          Take(k, e.value);
          assert [] + [p] == [p] && Waiters(active, k) == [];
          queues.InitHead(Procq(e.value));
          InsertProcQ(queues, Procq(e.value), p);
        }
      } else {
        JoinDescribed(active, desc, semds.rings[ACTIVE], key, queues.rings, n, k, p);
        InsertProcQ(queues, Procq(s.value), p);
      }
      active := active[k := Waiters(active, k) + [p]];
      semAdd := semAdd[p := Some(k)];
      full := false;
    }

    /** remove_blocked: the oldest waiter on a key. */
    method RemoveBlocked(k: Key) returns (p: Option<nat>)
      requires Valid()
      modifies this`semAdd, this`active, this`desc, queues, semds
      ensures Valid()
      ensures p == if k in old(active) then Some(old(active)[k][0]) else None
      ensures p == None ==> active == old(active) && semAdd == old(semAdd) && queues.rings == old(queues.rings) &&
                            queues.owner == old(queues.owner) && queues.solo == old(queues.solo)
      ensures p.Some? ==> p.value < n && active == Shrunk(old(active), k, old(active)[k][1..])
      ensures p.Some? ==> semAdd == old(semAdd)[p.value := None]
      ensures p.Some? ==> queues.solo == old(queues.solo) + {p.value}
      ensures queues.ready == old(queues.ready)
      ensures forall h :: 0 <= h < 3 ==> queues.rings[h] == old(queues.rings)[h]
    {
      hide Blockers, AllRings, Solo, Owned, Described;
      var s := GetSemd(k);
      if s == None {
        return None;
      }
      ghost var q := active[k];
      QueueFacts(k);
      p := RemoveProcQ(queues, Procq(s.value));
      WithoutAt<nat>(q, 0);
      assert q[..0] + q[1..] == q[1..];
      LeaveBlockers(active, semAdd, k, p.value, q[1..]);
      semAdd := semAdd[p.value := None];
      GiveBack(s.value, k, q[1..], false, old(queues.rings));
    }

    /** out_blocked: takes one process out of whatever queue it is in; false, for NULL, if in none. */
    method OutBlocked(p: nat) returns (found: bool)
      requires Valid() && p < n
      modifies this`semAdd, this`active, this`desc, queues, semds
      ensures Valid()
      ensures found <==> old(semAdd)[p].Some?
      ensures !found ==> active == old(active) && semAdd == old(semAdd) && queues.rings == old(queues.rings) &&
                         queues.owner == old(queues.owner) && queues.solo == old(queues.solo)
      ensures found ==> var k := old(semAdd)[p].value;
                k in old(active) && active == Shrunk(old(active), k, Without<nat>(old(active)[k], {p}))
      ensures found ==> semAdd == old(semAdd)[p := None] && queues.solo == old(queues.solo) + {p}
      ensures queues.ready == old(queues.ready)
      ensures forall h :: 0 <= h < 3 ==> queues.rings[h] == old(queues.rings)[h]
    {
      WaitsFor(p);
      hide AllRings, Solo, Owned, Described, Blockers, Shrunk;
      if semAdd[p] == None {
        return false;
      }
      var k := semAdd[p].value;
      var s := GetSemd(k);
      if s == None {
        assert false;
      } else {
        found := OutOf(s.value, k, p);
      }
    }

    /** out_blocked, once it has the descriptor. */
    method OutOf(s: nat, k: Key, p: nat) returns (found: bool)
      requires Valid() && p < n && semAdd[p] == Some(k) && k in active && k in desc && s == desc[k]
      modifies this`semAdd, this`active, this`desc, queues, semds
      ensures found
      ensures Valid() && active == Shrunk(old(active), k, Without<nat>(old(active)[k], {p}))
      ensures semAdd == old(semAdd)[p := None] && queues.solo == old(queues.solo) + {p}
      ensures queues.ready == old(queues.ready)
      ensures forall h :: 0 <= h < 3 ==> queues.rings[h] == old(queues.rings)[h]
    {
      WaitsFor(p);
      hide AllRings, Solo, Owned, Described, Blockers, Shrunk;
      ghost var q := active[k];
      QueueFacts(k);
      LeaveBlockers(active, semAdd, k, p, Without<nat>(q, {p}));
      semAdd := semAdd[p := None];
      found := OutProcQ(queues, Procq(s), p);
      if !found {
        assert false;
      }
      GiveBack(s, k, Without<nat>(q, {p}), true, old(queues.rings));
    }

    // head_blocked
    method HeadBlocked(k: Key) returns (p: Option<nat>)
      requires Valid()
      ensures p == if k in active then Some(active[k][0]) else None
    {
      hide Blockers, AllRings, Solo, Owned, Described;
      var s := GetSemd(k);
      if s == None {
        return None;
      }
      QueueFacts(k);
      p := HeadProcQ(queues, Procq(s.value));
    }

    lemma WaitsFor(p: nat)
      requires Valid() && p < n
      ensures semAdd[p].Some? ==> semAdd[p].value in active && p in active[semAdd[p].value]
    {
    }

    lemma QueueFacts(k: Key)
      requires Valid() && k in active
      ensures k in desc && desc[k] < n && Procq(desc[k]) < |queues.rings| &&
              queues.rings[Procq(desc[k])] == active[k] != []
      ensures NoDup(active[k]) && active[k][0] < n && semAdd[active[k][0]] == Some(k)
    {
      assert AllWait(active[k], semAdd, k);
    }

    /** The end of both: a descriptor nobody waits on any more goes back to the free list. */
    method GiveBack(s: nat, ghost k: Key, ghost q: seq<nat>, atTail: bool, ghost rings0: seq<seq<nat>>)
      requires queues != semds && queues.Valid() && semds.Valid() && |key| == n && |queues.rings| == 3 + n
      requires |semds.rings| == 2 && |semds.owner| == n && ACTIVE in semds.ready && UNUSED in semds.ready
      requires forall d :: 0 <= d < n ==> semds.owner[d].Some? && Procq(d) in queues.ready
      requires |rings0| == 3 + n && Described(active, desc, semds.rings[ACTIVE], key, rings0, n) && k in active &&
               s == desc[k]
      requires queues.rings == rings0[Procq(desc[k]) := q]
      modifies this`active, this`desc, semds
      ensures semds.Valid() && |semds.rings| == 2 && |semds.owner| == n && semds.ready == old(semds.ready)
      ensures forall d :: 0 <= d < n ==> semds.owner[d].Some?
      ensures active == Shrunk(old(active), k, q)
      ensures Described(active, desc, semds.rings[ACTIVE], key, queues.rings, n)
    {
      InUseOwner(active, desc, semds.rings[ACTIVE], key, rings0, n, k, semds.rings, semds.owner);
      hide AllRings, Solo, Described, Owned;
      var empty := queues.IsEmpty(Procq(s));
      if empty {
        CloseDescribed(active, desc, semds.rings[ACTIVE], key, rings0, n, k);
        Retire(s, atTail);
        active, desc := active - {k}, desc - {k};
      } else {
        LeaveDescribed(active, desc, semds.rings[ACTIVE], key, rings0, n, k, q);
        active := active[k := q];
      }
    }

    /** A descriptor moves from the active list to the free one. */
    method Retire(s: nat, atTail: bool)
      requires semds.Valid() && |semds.rings| == 2 && |semds.owner| == n && s < n
      requires UNUSED in semds.ready && semds.owner[s] == Some(ACTIVE)
      requires forall d :: 0 <= d < n ==> semds.owner[d].Some?
      modifies semds
      ensures semds.Valid() && |semds.rings| == 2 && |semds.owner| == n && semds.ready == old(semds.ready)
      ensures forall d :: 0 <= d < n ==> semds.owner[d].Some?
      ensures semds.rings[ACTIVE] == Without<nat>(old(semds.rings)[ACTIVE], {s})
    {
      hide AllRings, Solo, Owned;
      semds.Del(s);
      if atTail {
        semds.AddTail(s, UNUSED);
      } else {
        semds.Add(s, UNUSED);
      }
    }

    /** The part of insert_blocked that moves a descriptor to the active list. */
    method Take(k: Key, e: nat)
      requires Valid() && k !in active && semds.rings[UNUSED] != [] && semds.rings[UNUSED][0] == e
      modifies this`key, this`desc, semds
      ensures e < n && semds.Valid() && semds.ready == old(semds.ready) && queues.rings[Procq(e)] == []
      ensures |semds.rings| == 2 && |semds.owner| == n && (forall d :: 0 <= d < n ==> semds.owner[d].Some?)
      ensures |key| == n
      ensures forall p :: Described(active[k := [p]], desc, semds.rings[ACTIVE], key, queues.rings[Procq(e) := [p]], n)
    {
      assert e in semds.rings[UNUSED] && OwnedBy(semds.rings[UNUSED], semds.owner, UNUSED);
      assert OwnedBy(semds.rings[ACTIVE], semds.owner, ACTIVE);
      forall p: nat
        ensures Described(active[k := [p]], desc[k := e], [e] + semds.rings[ACTIVE], key[e := k],
                queues.rings[Procq(e) := [p]], n)
      {
        OpenDescribed(active, desc, semds.rings[ACTIVE], key, queues.rings, n, k, e, p);
      }
      key := key[e := k];
      semds.Del(e);
      semds.Add(e, ACTIVE);
      desc := desc[k := e];
    }
  }
}
