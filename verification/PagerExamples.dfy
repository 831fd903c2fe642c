/** A run in which paging is not transparent: two processes, one frame, one page each. */
module PagerExamples {
  import opened Prelude
  import opened PagerState
  import opened PagerInvariant
  import opened PagerTheorems
  import opened Transparency
  import opened PagerRuns

  /** One frame, one TLB entry, two living processes with one page each. */
  function State(slot: Slot, pt0: Lo, bit0: bool, faulted: seq<Option<nat>>, ram: Page, tlb: Option<TlbEntry>,
                 phase: Phase, calls: nat): Pager {
    Pager(1, [slot], 0, [[pt0], [OFF]], [bit0, false], [bit0, false], [true, true], [Not, Not], faulted, [ram],
          [[0], [0]], [tlb], phase, calls)
  }

  /** The run's actions: process 0 faults and stores 7, then process 1 faults and evicts it. */
  function Act(i: nat): Action {
    if i == 0 then Refill(0, 0, 0) else if i == 1 then Fault(0, 0) else if i == 2 then Lock(0)
    else if i == 3 then Choose else if i == 4 then Check else if i == 5 then BringIn
    else if i == 6 then Commit(0) else if i == 7 then Unlock else if i == 8 then Store(0, 0, 7)
    else if i == 9 then Refill(1, 0, 0) else if i == 10 then Fault(1, 0) else if i == 11 then Lock(1)
    else if i == 12 then Choose else if i == 13 then Check else if i == 14 then Invalidate(0)
    else WriteBack
  }

  /** The state before the run's action `i`. */
  function Before(i: nat): Pager {
    var none, zero, one := [None, None], [Some(0), None], [None, Some(0)];
    var off, on, other := Some(TlbEntry(0, 0, OFF)), Some(TlbEntry(0, 0, ON)), Some(TlbEntry(1, 0, OFF));
    if i == 0 then State(Vacant, OFF, false, none, 0, None, Unlocked, 0)
    else if i == 1 then State(Vacant, OFF, false, none, 0, off, Unlocked, 0)
    else if i == 2 then State(Vacant, OFF, false, zero, 0, off, Unlocked, 0)
    else if i == 3 then State(Vacant, OFF, false, zero, 0, off, Locked(0, 0), 0)
    else if i == 4 then State(Vacant, OFF, false, zero, 0, off, Chosen(0, 0, 0), 1)
    else if i == 5 then State(Vacant, OFF, false, zero, 0, off, Reading(0, 0, 0), 1)
    else if i == 6 then State(Vacant, OFF, false, zero, 0, off, Loaded(0, 0, 0), 1)
    else if i == 7 then State(Taken(0, 0), ON, true, zero, 0, on, Committed(0, 0), 1)
    else if i == 8 then State(Taken(0, 0), ON, true, none, 0, on, Unlocked, 1)
    else if i == 9 then State(Taken(0, 0), ON, true, none, 7, on, Unlocked, 1)
    else if i == 10 then State(Taken(0, 0), ON, true, none, 7, other, Unlocked, 1)
    else if i == 11 then State(Taken(0, 0), ON, true, one, 7, other, Unlocked, 1)
    else if i == 12 then State(Taken(0, 0), ON, true, one, 7, other, Locked(1, 0), 1)
    else if i == 13 then State(Taken(0, 0), ON, true, one, 7, other, Chosen(1, 0, 0), 2)
    else if i == 14 then State(Taken(0, 0), ON, true, one, 7, other, Evicting(1, 0, 0), 2)
    else State(Taken(0, 0), AWAY, true, one, 7, Some(TlbEntry(0, 0, AWAY)), Invalidated(1, 0, 0), 2)
  }

  lemma ShapedEarly(i: nat)
    requires i < 8
    ensures Shape(Before(i))
  {
  }

  lemma ShapedLate(i: nat)
    requires i >= 8
    ensures Shape(Before(i))
  {
  }

  lemma Shaped(i: nat)
    ensures Shape(Before(i))
  {
    hide Shape, Before;
    if i < 8 { ShapedEarly(i); } else { ShapedLate(i); }
  }

  lemma Same(i: nat)
    ensures ChosenFrame(Before(i).slots, 0) == 0
    ensures forall x: Lo, y: Lo :: [x][0 := y] == [y]
    ensures forall x: Option<nat>, y: Option<nat>, z: Option<nat> ::
              [x, y][0 := z] == [z, y] && [x, y][1 := z] == [x, z]
  {
    hide Scan, Round, ChosenFrame;
    assert ChosenFrame(Before(i).slots, 0) < |Before(i).slots| == 1;
  }

  lemma Trapping(i: nat)
    requires i < 6
    ensures Shape(Before(i)) && Enabled(Before(i), Act(i)) && Apply(Before(i), Act(i)) == Before(i + 1)
  {
    Shaped(i);
    Same(i);
    hide Scan, Round, ChosenFrame, UpdatedTlb;
  }

  lemma Storing(i: nat)
    requires 7 <= i < 10
    ensures Shape(Before(i)) && Enabled(Before(i), Act(i)) && Apply(Before(i), Act(i)) == Before(i + 1)
  {
    Shaped(i);
    Same(i);
    hide Scan, Round, ChosenFrame, UpdatedTlb;
  }

  lemma Choosing(i: nat)
    requires 10 <= i < 14
    ensures Shape(Before(i)) && Enabled(Before(i), Act(i)) && Apply(Before(i), Act(i)) == Before(i + 1)
  {
    Shaped(i);
    Same(i);
    hide Scan, Round, ChosenFrame, UpdatedTlb;
  }

  lemma Updating(i: nat)
    requires i == 6 || i == 14
    ensures Shape(Before(i)) && Enabled(Before(i), Act(i)) && Apply(Before(i), Act(i)) == Before(i + 1)
  {
    Shaped(i);
    Same(i);
    hide Scan, Round, ChosenFrame;
    if i == 6 {
      assert Matches(Before(i).tlb[0], 0, 0);
      assert UpdatedTlb(Before(i).tlb, 0, 0, ON, 0) == Before(i + 1).tlb;
    } else {
      assert Matches(Before(i).tlb[0], 1, 0);
      assert UpdatedTlb(Before(i).tlb, 0, 0, AWAY, 0) == Before(i + 1).tlb;
    }
  }

  function Acts(n: nat): seq<Action> {
    if n == 0 then [] else Acts(n - 1) + [Act(n - 1)]
  }

  /** What a flat memory holds in page 0 of process 0 before the run's action `i`. */
  function Held(i: nat): Page {
    if i < 9 then 0 else 7
  }

  lemma NextFlat(i: nat)
    requires i < 15 && Shape(Before(i)) && Enabled(Before(i), Act(i))
    ensures var (a, t) := (Act(i), Before(i));
            Held(i + 1) == Stored(t, a, 0, 0, Held(i))
  {
  }

  lemma Goes(i: nat)
    requires i < 15
    ensures Shape(Before(i)) && Enabled(Before(i), Act(i)) && Apply(Before(i), Act(i)) == Before(i + 1)
    ensures Held(i + 1) == Stored(Before(i), Act(i), 0, 0, Held(i))
    ensures Acts(i + 1) == Acts(i) + [Act(i)]
  {
    hide Shape, Enabled, Apply, Before, Act, Held, Stored;
    if i == 6 || i == 14 {
      Updating(i);
    } else if i < 6 {
      Trapping(i);
    } else if i < 10 {
      Storing(i);
    } else {
      Choosing(i);
    }
    NextFlat(i);
  }

  lemma {:induction false} Reaches(n: nat)
    requires n < 16
    ensures Leads(Before(0), Acts(n), Before(n), 0, 0, Held(n))
  {
    if n == 0 {
      ReachesStart();
    } else {
      hide *;
      Reaches(n - 1);
      Goes(n - 1);
      Then(Before(0), Acts(n - 1), Before(n - 1), 0, 0, Held(n - 1), Act(n - 1), Before(n));
    }
  }

  lemma ReachesStart()
    ensures Leads(Before(0), [], Before(0), 0, 0, Held(0))
  {
    Shaped(0);
  }

  lemma Last()
    ensures Shape(Before(15)) && Enabled(Before(15), WriteBack)
    ensures var t := Apply(Before(15), WriteBack); Shape(t) && PageOf(t, 0, 0) && t.alive[0] && View(t, 0, 0) == 0
  {
    Shaped(15);
  }

  /**
   * From the start: process 0 stores 7 in its page, the fault of process 1 evicts it, and although process 0
   * is alive its page now reads 0.
   */
  lemma TwoProcessesLoseAPage() returns (s0: Pager, acts: seq<Action>, t: Pager)
    ensures Initial(s0) && CanRun(s0, acts) && t == Run(s0, acts)
    ensures PageOf(s0, 0, 0) && Shape(t) && PageOf(t, 0, 0) && t.alive[0]
    ensures View(t, 0, 0) == 0 && Flat(s0, acts, 0, 0, View(s0, 0, 0)) == 7
  {
    hide Leads, Run, CanRun, Flat, View, Initial, Enabled, Apply, Before;
    Last();
    s0, acts, t := Before(0), Acts(16), Apply(Before(15), WriteBack);
    Reaches(15);
    Then(s0, Acts(15), Before(15), 0, 0, 7, WriteBack, t);
    Opened(s0, acts, t, 0, 0, 7);
  }
}
