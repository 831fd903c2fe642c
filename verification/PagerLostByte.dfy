/**
 * A run on which a write of sp_asids is lost: two processes with two pages each, one frame.  Process 0 is in
 * SYS2 and has read the byte; process 1 has its first page brought in, which sets its bit; process 0 writes the
 * old byte back.  Process 1 now owns a frame that is not marked, and its next fault takes it without a write-back.
 */
module PagerLostByte {
  import opened Prelude
  import opened PagerState
  import opened PagerInvariant
  import opened PagerTheorems
  import opened Transparency
  import opened PagerRuns

  function Act(i: nat): Action {
    if i == 0 then ReadByte(0)
    else if i == 1 then Refill(1, 0, 0) else if i == 2 then Fault(1, 0) else if i == 3 then Lock(1)
    else if i == 4 then Choose else if i == 5 then Check else if i == 6 then BringIn
    else if i == 7 then Commit(0) else if i == 8 then Unlock else if i == 9 then Store(1, 0, 7)
    else if i == 10 then WriteByte(0)
    else if i == 11 then Refill(1, 1, 0) else if i == 12 then Fault(1, 0) else if i == 13 then Lock(1)
    else if i == 14 then Choose else if i == 15 then Check else if i == 16 then BringIn
    else Commit(0)
  }

  /** Process 1's entries, its bit, process 0's ending, what process 1 waits for, and the rest. */
  function State(slot: Slot, pt1: seq<Lo>, bits: seq<bool>, loaded: bool, ending: Ending, waits: Option<nat>, ram: Page,
                 tlb: Option<TlbEntry>, phase: Phase, calls: nat): Pager {
    Pager(2, [slot], 0, [[OFF, OFF], pt1], bits, [false, loaded], [true, true], [ending, Not], [None, waits], [ram],
          [[0, 0], [0, 0]], [tlb], phase, calls)
  }

  const NONE := [false, false]
  const READ := Ending.Read([false, false])

  /** The state before the run's action `i`. */
  function Before(i: nat): Pager {
    var (offs, first, both) := ([OFF, OFF], [ON, OFF], [ON, ON]);
    var e0, e1, on0 := Some(TlbEntry(1, 0, OFF)), Some(TlbEntry(1, 1, OFF)), Some(TlbEntry(1, 0, ON));
    var mine, lost := [false, true], [true, false];
    if i == 0 then State(Vacant, offs, NONE, false, Not, None, 0, None, Unlocked, 0)
    else if i == 1 then State(Vacant, offs, NONE, false, READ, None, 0, None, Unlocked, 0)
    else if i == 2 then State(Vacant, offs, NONE, false, READ, None, 0, e0, Unlocked, 0)
    else if i == 3 then State(Vacant, offs, NONE, false, READ, Some(0), 0, e0, Unlocked, 0)
    else if i == 4 then State(Vacant, offs, NONE, false, READ, Some(0), 0, e0, Locked(1, 0), 0)
    else if i == 5 then State(Vacant, offs, NONE, false, READ, Some(0), 0, e0, Chosen(1, 0, 0), 1)
    else if i == 6 then State(Vacant, offs, NONE, false, READ, Some(0), 0, e0, Reading(1, 0, 0), 1)
    else if i == 7 then State(Vacant, offs, NONE, false, READ, Some(0), 0, e0, Loaded(1, 0, 0), 1)
    else if i == 8 then State(Taken(1, 0), first, mine, true, READ, Some(0), 0, on0, Committed(1, 0), 1)
    else if i == 9 then State(Taken(1, 0), first, mine, true, READ, None, 0, on0, Unlocked, 1)
    else if i == 10 then State(Taken(1, 0), first, mine, true, READ, None, 7, on0, Unlocked, 1)
    else if i == 11 then State(Taken(1, 0), first, lost, true, Written, None, 7, on0, Unlocked, 1)
    else if i == 12 then State(Taken(1, 0), first, lost, true, Written, None, 7, e1, Unlocked, 1)
    else if i == 13 then State(Taken(1, 0), first, lost, true, Written, Some(1), 7, e1, Unlocked, 1)
    else if i == 14 then State(Taken(1, 0), first, lost, true, Written, Some(1), 7, e1, Locked(1, 1), 1)
    else if i == 15 then State(Taken(1, 0), first, lost, true, Written, Some(1), 7, e1, Chosen(1, 1, 0), 2)
    else if i == 16 then State(Taken(1, 0), first, lost, true, Written, Some(1), 7, e1, Reading(1, 1, 0), 2)
    else if i == 17 then State(Taken(1, 0), first, lost, true, Written, Some(1), 0, e1, Loaded(1, 1, 0), 2)
    else State(Taken(1, 1), both, [true, true], true, Written, Some(1), 0, Some(TlbEntry(1, 1, ON)), Committed(1, 1), 2)
  }

  lemma ShapedEarly(i: nat)
    requires i < 9
    ensures Shape(Before(i))
  {
  }

  lemma ShapedLate(i: nat)
    requires i >= 9
    ensures Shape(Before(i))
  {
  }

  lemma Shaped(i: nat)
    ensures Shape(Before(i))
  {
    hide Shape, Before;
    if i < 9 { ShapedEarly(i); } else { ShapedLate(i); }
  }

  lemma Same(i: nat)
    ensures ChosenFrame(Before(i).slots, 0) == 0
    ensures forall x: Lo, y: Lo, z: Lo :: [x, y][0 := z] == [z, y] && [x, y][1 := z] == [x, z]
    ensures forall x: bool, y: bool, z: bool :: [x, y][0 := z] == [z, y] && [x, y][1 := z] == [x, z]
    ensures forall x: Option<nat>, y: Option<nat>, z: Option<nat> ::
              [x, y][0 := z] == [z, y] && [x, y][1 := z] == [x, z]
    ensures forall x: Ending, y: Ending, z: Ending :: [x, y][0 := z] == [z, y]
    ensures forall x: seq<Lo>, y: seq<Lo>, z: seq<Lo> :: [x, y][1 := z] == [x, z]
  {
    hide Scan, Round, ChosenFrame;
    assert ChosenFrame(Before(i).slots, 0) < |Before(i).slots| == 1;
  }

  lemma Trapping(i: nat)
    requires i < 7
    ensures Shape(Before(i)) && Enabled(Before(i), Act(i)) && Apply(Before(i), Act(i)) == Before(i + 1)
  {
    Shaped(i);
    Same(i);
    hide Scan, Round, ChosenFrame, UpdatedTlb;
  }

  lemma Overwriting(i: nat)
    requires 8 <= i < 12
    ensures Shape(Before(i)) && Enabled(Before(i), Act(i)) && Apply(Before(i), Act(i)) == Before(i + 1)
  {
    Shaped(i);
    Same(i);
    hide Scan, Round, ChosenFrame, UpdatedTlb;
  }

  lemma Taking(i: nat)
    requires 12 <= i < 17
    ensures Shape(Before(i)) && Enabled(Before(i), Act(i)) && Apply(Before(i), Act(i)) == Before(i + 1)
  {
    Shaped(i);
    Same(i);
    hide Scan, Round, ChosenFrame, UpdatedTlb;
  }

  lemma Committing(i: nat)
    requires i == 7 || i == 17
    ensures Shape(Before(i)) && Enabled(Before(i), Act(i)) && Apply(Before(i), Act(i)) == Before(i + 1)
  {
    Shaped(i);
    Same(i);
    hide Scan, Round, ChosenFrame;
    var h := if i == 7 then 0 else 1;
    assert Matches(Before(i).tlb[0], 1, h);
    assert UpdatedTlb(Before(i).tlb, 1, h, ON, 0) == Before(i + 1).tlb;
  }

  function Acts(n: nat): seq<Action> {
    if n == 0 then [] else Acts(n - 1) + [Act(n - 1)]
  }

  /** What a flat memory holds in page 0 of process 1 before the run's action `i`. */
  function Held(i: nat): Page {
    if i < 10 then 0 else 7
  }

  lemma NextFlat(i: nat)
    requires i < 18 && Shape(Before(i)) && Enabled(Before(i), Act(i))
    ensures Held(i + 1) == Stored(Before(i), Act(i), 1, 0, Held(i))
  {
  }

  lemma ReachesStart()
    ensures Leads(Before(0), [], Before(0), 1, 0, Held(0))
  {
    Shaped(0);
  }

  lemma Goes(i: nat)
    requires i < 18
    ensures Shape(Before(i)) && Enabled(Before(i), Act(i)) && Apply(Before(i), Act(i)) == Before(i + 1)
    ensures Held(i + 1) == Stored(Before(i), Act(i), 1, 0, Held(i))
    ensures Acts(i + 1) == Acts(i) + [Act(i)]
  {
    hide Shape, Enabled, Apply, Before, Act, Held, Stored;
    if i == 7 || i == 17 {
      Committing(i);
    } else if i < 7 {
      Trapping(i);
    } else if i < 12 {
      Overwriting(i);
    } else {
      Taking(i);
    }
    NextFlat(i);
  }

  lemma {:induction false} Reaches(n: nat)
    requires n <= 18
    ensures Leads(Before(0), Acts(n), Before(n), 1, 0, Held(n))
  {
    if n == 0 {
      ReachesStart();
    } else {
      hide *;
      Reaches(n - 1);
      Goes(n - 1);
      Then(Before(0), Acts(n - 1), Before(n - 1), 1, 0, Held(n - 1), Act(n - 1), Before(n));
    }
  }

  lemma Ending18()
    ensures Before(18).pt[1] == [ON, ON] && Shape(Before(18)) && View(Before(18), 1, 0) == 0
    ensures !Fresh(Before(10), Act(10)) && Act(10) == WriteByte(0)
  {
    Shaped(18);
  }

  lemma NotFramed()
    ensures !Inv(Before(18))
  {
    Shaped(18);
    assert Known(Before(18), 1) && !Framed(Before(18), 1, 0);
  }

  lemma Sharing(s0: Pager, acts: seq<Action>, t: Pager)
    requires Initial(s0) && CanRun(s0, acts) && Run(s0, acts) == t && t == Before(18)
    ensures !NothingLost(s0, acts)
  {
    hide Run, CanRun, Before;
    NotFramed();
    if NothingLost(s0, acts) {
      InitialInv(s0);
      RunInv(s0, acts);
    }
  }

  /**
   * From the start: process 1 stores 7 in its page 0 and, alive and undisturbed but for the lost write of its bit,
   * ends with both its pages valid in one frame and page 0 reading 0.
   */
  lemma LostByteLosesAPage() returns (s0: Pager, acts: seq<Action>, t: Pager)
    ensures Initial(s0) && CanRun(s0, acts) && t == Run(s0, acts)
    ensures PageOf(s0, 1, 0) && Shape(t) && PageOf(t, 1, 0) && Living(t, 1)
    ensures t.pt[1] == [ON, ON] && ON.valid && !NothingLost(s0, acts)
    ensures View(t, 1, 0) == 0 && Flat(s0, acts, 1, 0, View(s0, 1, 0)) == 7
  {
    hide Leads, Run, CanRun, NothingLost, Flat, View, Initial, Enabled, Apply;
    s0, acts, t := Before(0), Acts(18), Before(18);
    Reaches(18);
    Ending18();
    Opened(s0, acts, t, 1, 0, 7);
    Sharing(s0, acts, t);
  }
}
