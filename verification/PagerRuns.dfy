/** Following one run of the pager step by step, beside a memory without paging. */
module PagerRuns {
  import opened PagerState
  import opened PagerInvariant
  import opened PagerTheorems
  import opened Transparency

  /** A run from `s0` to `t`, after which a flat memory holds `y` in page `h` of process `o`. */
  ghost predicate Leads(s0: Pager, acts: seq<Action>, t: Pager, o: nat, h: nat, y: Page) {
    && Initial(s0) && CanRun(s0, acts) && Run(s0, acts) == t && PageOf(s0, o, h)
    && Flat(s0, acts, o, h, View(s0, o, h)) == y
  }

  lemma {:induction false} FlatThen(s: Pager, acts: seq<Action>, a: Action, o: nat, h: nat, x: Page)
    requires Shape(s) && CanRun(s, acts) && Enabled(Run(s, acts), a) && CanRun(s, acts + [a])
    ensures Flat(s, acts + [a], o, h, x) == Stored(Run(s, acts), a, o, h, Flat(s, acts, o, h, x))
    decreases |acts|
  {
    hide Shape, Enabled, Apply, Stored;
    if acts == [] {
      assert [a][1..] == [];
      ShapeKept(s, a);
    } else {
      ShapeKept(s, acts[0]);
      assert (acts + [a])[0] == acts[0] && (acts + [a])[1..] == acts[1..] + [a];
      FlatThen(Apply(s, acts[0]), acts[1..], a, o, h, Stored(s, acts[0], o, h, x));
    }
  }

  lemma Then(s0: Pager, acts: seq<Action>, t: Pager, o: nat, h: nat, y: Page, a: Action, u: Pager)
    requires Leads(s0, acts, t, o, h, y) && Shape(t) && Enabled(t, a) && u == Apply(t, a)
    ensures Leads(s0, acts + [a], u, o, h, Stored(t, a, o, h, y))
  {
    RunOn(s0, acts, a);
    FlatThen(s0, acts, a, o, h, View(s0, o, h));
  }

  lemma Opened(s0: Pager, acts: seq<Action>, t: Pager, o: nat, h: nat, y: Page)
    requires Leads(s0, acts, t, o, h, y)
    ensures Initial(s0) && CanRun(s0, acts) && Run(s0, acts) == t && PageOf(s0, o, h)
    ensures Flat(s0, acts, o, h, View(s0, o, h)) == y
  {
    hide Run, CanRun, Flat, View, Initial;
  }

  /** A page table entry never made valid, one valid in frame 0, and one evicted from it. */
  const OFF := Lo(0, false)
  const ON := Lo(Addr(0), true)
  const AWAY := Lo(Addr(0), false)
}
