/** The process queues of pcb.c: rings of `p_list` links, addressed by their sentinel. */
module ProcQueues {
  import opened Prelude
  import opened Listx

  /** insert_proc_q. */
  method InsertProcQ(m: ListMemory, h: nat, p: nat)
    requires m.Valid() && h in m.ready && p < |m.owner| && m.owner[p] == None
    modifies m
    ensures m.Valid() && m.ready == old(m.ready) && m.solo == old(m.solo) - {p}
    ensures m.rings == old(m.rings)[h := old(m.rings)[h] + [p]]
    ensures m.owner == old(m.owner)[p := Some(h)]
  {
    m.AddTail(p, h);
  }

  /** head_proc_q. */
  method HeadProcQ(m: ListMemory, h: nat) returns (p: Option<nat>)
    requires m.Valid() && h in m.ready
    ensures p == if m.rings[h] == [] then None else Some(m.rings[h][0])
  {
    p := m.First(h);
  }

  /** remove_proc_q: the oldest process, its link pointing at itself again. */
  method RemoveProcQ(m: ListMemory, h: nat) returns (p: Option<nat>)
    requires m.Valid() && h in m.ready
    modifies m
    ensures m.Valid() && m.ready == old(m.ready)
    ensures p == if old(m.rings)[h] == [] then None else Some(old(m.rings)[h][0])
    ensures p == None ==> m.rings == old(m.rings) && m.owner == old(m.owner) && m.solo == old(m.solo)
    ensures p.Some? ==> p.value < |old(m.owner)| && m.owner == old(m.owner)[p.value := None]
    ensures p.Some? ==> m.rings == old(m.rings)[h := old(m.rings)[h][1..]] && m.solo == old(m.solo) + {p.value}
  {
    p := HeadProcQ(m, h);
    if p.Some? {
      assert OwnedBy(m.rings[h], m.owner, h) && m.rings[h][0] in m.rings[h];
      WithoutAt<nat>(m.rings[h], 0);
      assert m.rings[h][..0] + m.rings[h][1..] == m.rings[h][1..];
      m.Del(p.value);
      m.InitElem(p.value);
    }
  }

  /** out_proc_q: searches the ring for `p` and unlinks it; false, for NULL, exactly when it is absent. */
  method OutProcQ(m: ListMemory, h: nat, p: nat) returns (found: bool)
    requires m.Valid() && h in m.ready && p < |m.owner|
    modifies m
    ensures m.Valid() && m.ready == old(m.ready)
    ensures found <==> p in old(m.rings)[h]
    ensures !found ==> unchanged(m)
    ensures found ==> m.rings == old(m.rings)[h := Without<nat>(old(m.rings)[h], {p})]
    ensures found ==> m.owner == old(m.owner)[p := None] && m.solo == old(m.solo) + {p}
  {
    ghost var s := m.rings[h];
    ghost var j := 0;
    assert m.next(Stop(h, s, 0)) == Stop(h, s, 1);
    var iter := m.next(Head(h));
    while iter != Head(h)
      invariant 0 <= j <= |s| && iter == Stop(h, s, j + 1)
      invariant p !in s[..j]
      decreases |s| - j
    {
      if iter == Elem(p) {
        assert s[j] == p && p in s;
        assert OwnedBy(s, m.owner, h);
        m.Del(p);
        m.InitElem(p);
        return true;
      }
      assert m.next(Stop(h, s, j + 1)) == Stop(h, s, j + 2);
      iter := m.next(iter);
      j := j + 1;
    }
    assert s[..j] == s;
    return false;
  }
}
