/** maxNodes over every run: an automatic wake takes a slot in exactly one pool, one with a slot free,
    so a pool goes over its cap only by what is powered on from outside - and never by more than that. */
module NodeCaps {
  import opened Api
  import opened Lifecycle
  import opened OneShotTriggers
  import opened ScaleUp
  import opened Clusters

  /** A call that gives a Machine a slot it did not have: initialising a Machine already asked to wake,
      or adopting a running Node unasked - into Ready, or into Failed with the Node up. */
  lemma WhatTakesASlot(cfg: Config, c: Cell, o: Outcome, cached: seq<Pod>)
    requires Coherent(c) && c.flight.Some? && Tidied(c.flight.value.pc, c.flight.value.m)
    ensures var f := c.flight.value;
            !TakesSlot(c) ==>
              (TakesSlot(Exec(cfg, c, o, cached)) <==>
                 && Saves(c, f, o)
                 && (|| (f.pc.SaveOff? && WakeRequested(c.m))
                     || (c.m.state == Off && f.pc.SaveReady?)
                     || (c.m.state == Off && f.pc.SaveBootFailed? && NodeReady(Backing(c)))))
  {
    hide NextPc, NextNode, NextPods, Effects, NextEvidence;
    CallKeepsReadings(cfg, c, o, cached);
    NextState(c, c.flight.value, o);
    UnaskedWake(c, c.flight.value, o);
  }

  lemma UnaskedWake(c: Cell, f: Flight, o: Outcome)
    requires f.m.state == c.m.state && InState(f.pc, f.m.state)
    requires f.m.version == c.m.version ==> f.m == c.m
    requires Tidied(f.pc, f.m)
    ensures Saves(c, f, o) && f.pc.OffSaveBooting? ==> WakeRequested(c.m)
    ensures WakeRequested(NextMachine(c, f, o)) ==> WakeRequested(c.m)
  {}

  /** The event gives the Machine a slot without an automatic wake: someone sets wake-now by hand, the
      Node of a Failed Machine comes back up, a Machine already asked to wake is initialised, or a Node
      that came up without a wake is adopted. */
  predicate Gains(c: Cell, e: Event) {
    match e
    case SetWake(value) => value == Some(TRIGGER) && c.m.state == Off && !WakeRequested(c.m)
    case NodeChanged(node) => c.m.state == Failed && !NodeReady(Backing(c)) && NodeReady(Backing(c.(node := node)))
    case Call(o, _) => c.flight.Some? && Saves(c, c.flight.value, o) && SavesASlot(c, c.flight.value.pc)
    case _ => false
  }

  predicate SavesASlot(c: Cell, pc: Pc) {
    || (pc.SaveOff? && WakeRequested(c.m))
    || (c.m.state == Off && !WakeRequested(c.m) && (pc.SaveReady? || (pc.SaveBootFailed? && NodeReady(Backing(c)))))
  }

  ghost predicate Usual(c: Cell) {
    Coherent(c) && (c.flight.Some? ==> Tidied(c.flight.value.pc, c.flight.value.m))
  }

  lemma CallGains(cfg: Config, c: Cell, o: Outcome, cached: seq<Pod>)
    requires Usual(c) && c.flight.Some?
    ensures var d := Exec(cfg, c, o, cached);
            Usual(d) && (!TakesSlot(c) && TakesSlot(d) <==> Gains(c, Call(o, cached)))
  {
    hide NextMachine, NextNode, NextPods, NextPc, NextCopy, NextEvidence, Effects;
    var f := c.flight.value;
    ExecCoherent(cfg, c, o, cached);
    TidiedNext(cfg, c, f, o, cached);
    WhatTakesASlot(cfg, c, o, cached);
  }

  lemma HappenGains(c: Cell, e: Event)
    requires Usual(c) && !(e.Call? && c.flight.Some?)
    ensures var d := Happen(c, e);
            Usual(d) && (!TakesSlot(c) && TakesSlot(d) <==> Gains(c, e))
  {
    hide Happen, Coherent;
    HappenCoherent(c, e);
    HappenFrame(c, e);
  }

  /** Exactly these events give a Machine a slot it did not have. */
  lemma GainsExactly(cfg: Config, c: Cell, e: Event)
    requires Usual(c)
    ensures var d := Apply(cfg, c, e);
            Usual(d) && (!TakesSlot(c) && TakesSlot(d) <==> Gains(c, e))
  {
    hide Exec, Happen, Usual, TakesSlot, Gains;
    if e.Call? && c.flight.Some? {
      CallGains(cfg, c, e.o, e.cached);
    } else {
      HappenGains(c, e);
    }
  }

  // ---------- the cluster ----------

  ghost predicate AllUsual(cl: Cluster) {
    forall n :: n in cl.cells ==> Usual(cl.cells[n])
  }

  /** The step gives a member of the pool a slot from outside. */
  predicate Outside(cl: Cluster, h: Happening, p: string) {
    p in cl.pools && h.At? && h.n in Members(cl, p) && Gains(cl.cells[h.n], h.e)
  }

  /** How often that happens along a run. */
  function OutsideGains(cfg: Config, cl: Cluster, hs: seq<Happening>, p: string): nat
    decreases hs
  {
    if hs == [] then 0
    else (if Outside(cl, hs[0], p) then 1 else 0) + OutsideGains(cfg, Step(cfg, cl, hs[0]), hs[1..], p)
  }

  /** A wake of one of the pool's members decided on but not yet asked for. */
  function Pending(cl: Cluster, p: string): nat {
    if !cl.up.Resting? && cl.up.pool == p then 1 else 0
  }

  ghost predicate Capped(cl: Cluster, p: string, bound: int) {
    && AllUsual(cl) && p in cl.pools
    && (!cl.up.Resting? ==> OnlyIn(cl, cl.up.machine, cl.up.pool))
    && (cl.pools[p].maxNodes.Some? ==> cl.pools[p].maxNodes.value <= bound)
    && |SlotsIn(cl, p)| + Pending(cl, p) <= bound
  }

  /** Where only `n` may come to take a slot, the count grows by at most one, and not at all if `n` is
      no member or gains none. */
  lemma SlotsGrow(cl: Cluster, after: Cluster, p: string, n: string, gains: bool)
    requires p in cl.pools && p in after.pools && after.cells.Keys == cl.cells.Keys && SamePolicy(after.pools[p], cl.pools[p])
    requires forall k :: k in cl.cells && TakesSlot(after.cells[k]) ==> TakesSlot(cl.cells[k]) || (k == n && gains)
    ensures |SlotsIn(after, p)| <= |SlotsIn(cl, p)| + if gains && n in Members(cl, p) then 1 else 0
  {
    hide TakesSlot;
    assert Members(after, p) == Members(cl, p);
    if gains && n in Members(cl, p) {
      SubsetSize(SlotsIn(after, p), SlotsIn(cl, p) + {n});
    } else {
      SubsetSize(SlotsIn(after, p), SlotsIn(cl, p));
    }
  }

  /** A step gives a slot to at most the cell it touches, and only if the event there gains one. */
  lemma StepGains(cfg: Config, cl: Cluster, h: Happening, k: string)
    requires AllUsual(cl) && k in cl.cells
    ensures var after := Step(cfg, cl, h);
            var t := Touched(cl, h);
            && k in after.cells && Usual(after.cells[k])
            && (TakesSlot(after.cells[k]) ==> TakesSlot(cl.cells[k]) || (t.Touch? && t.n == k && Gains(cl.cells[k], t.e)))
  {
    hide Step, Apply, Usual, TakesSlot, Gains;
    StepAtCell(cfg, cl, h, k);
    var t := Touched(cl, h);
    if t.Touch? && t.n == k {
      GainsExactly(cfg, cl.cells[k], t.e);
    }
  }

  lemma StepSlots(cfg: Config, cl: Cluster, h: Happening, p: string)
    requires AllUsual(cl) && p in cl.pools
    ensures var after := Step(cfg, cl, h);
            var t := Touched(cl, h);
            && AllUsual(after) && p in after.pools
            && |SlotsIn(after, p)| <= |SlotsIn(cl, p)|
               + if t.Touch? && t.n in Members(cl, p) && Gains(cl.cells[t.n], t.e) then 1 else 0
  {
    hide Step, Usual, TakesSlot, Gains, Touched;
    var after := Step(cfg, cl, h);
    var t := Touched(cl, h);
    StepKeepsPolicies(cfg, cl, h);
    forall k | k in cl.cells
      ensures k in after.cells && Usual(after.cells[k])
      ensures TakesSlot(after.cells[k]) ==> TakesSlot(cl.cells[k]) || (t.Touch? && t.n == k && Gains(cl.cells[k], t.e))
    {
      StepGains(cfg, cl, h, k);
    }
    if t.Touch? && t.n in cl.cells {
      SlotsGrow(cl, after, p, t.n, Gains(cl.cells[t.n], t.e));
    } else {
      SlotsGrow(cl, after, p, "", false);
    }
  }

  /** The wake request itself raises the count of its own pool by at most one, and of no other pool. */
  lemma WakeRaisesOnePool(cfg: Config, cl: Cluster, p: string)
    requires AllUsual(cl) && cl.up.Asking? && OnlyIn(cl, cl.up.machine, cl.up.pool) && p in cl.pools
    ensures var after := Step(cfg, cl, AskWake(true));
            && p in after.pools
            && |SlotsIn(after, p)| <= |SlotsIn(cl, p)| + (if p == cl.up.pool then 1 else 0)
  {
    hide Step, TakesSlot, Gains, Usual;
    StepSlots(cfg, cl, AskWake(true), p);
  }

  /** Which decision is pending after a step, and that a new one was taken below the cap. */
  lemma StepDecides(cfg: Config, cl: Cluster, h: Happening, p: string)
    requires p in cl.pools && (!cl.up.Resting? ==> OnlyIn(cl, cl.up.machine, cl.up.pool))
    ensures var after := Step(cfg, cl, h);
            && (!after.up.Resting? ==> OnlyIn(cl, after.up.machine, after.up.pool))
            && (|| Pending(after, p) <= Pending(cl, p)
                || (cl.pools[p].maxNodes.Some? ==> |SlotsIn(cl, p)| < cl.pools[p].maxNodes.value))
            && (h.AskWake? && cl.up.Asking? ==> after.up.Resting?)
            && (h.At? ==> after.up == cl.up)
            && (Pending(after, p) > Pending(cl, p) ==> h.DecideUp?)
  {
    hide NextCells, NextPools, NextDown;
  }

  lemma StepCapped(cfg: Config, cl: Cluster, h: Happening, p: string, bound: int)
    requires Capped(cl, p, bound) && cl.pools[p].maxNodes.Some?
    ensures Capped(Step(cfg, cl, h), p, bound + if Outside(cl, h, p) then 1 else 0)
  {
    hide Step, Gains, Usual, TakesSlot;
    var after := Step(cfg, cl, h);
    StepKeepsPolicies(cfg, cl, h);
    StepSlots(cfg, cl, h, p);
    StepDecides(cfg, cl, h, p);
    if !after.up.Resting? {
      OnlyInStays(cfg, cl, h, after.up.machine, after.up.pool);
    }
    DrainGainsNothing(cl, h);
  }

  lemma DrainGainsNothing(cl: Cluster, h: Happening)
    ensures var t := Touched(cl, h);
            t.Touch? && t.n in cl.cells && Gains(cl.cells[t.n], t.e) ==> h.At? || (h.AskWake? && cl.up.Asking? && t.n == cl.up.machine)
    ensures h.At? ==> Touched(cl, h) == Touch(h.n, h.e)
  {}

  lemma {:induction false} RunCapped(cfg: Config, cl: Cluster, hs: seq<Happening>, p: string, bound: int)
    requires p in cl.pools && Capped(cl, p, bound) && cl.pools[p].maxNodes.Some?
    ensures Capped(ClusterRun(cfg, cl, hs), p, bound + OutsideGains(cfg, cl, hs, p))
    decreases hs
  {
    hide Step, Outside, Capped;
    if hs == [] {
    } else {
      var after := Step(cfg, cl, hs[0]);
      StepCapped(cfg, cl, hs[0], p, bound);
      StillCapped(cfg, cl, hs[0], p);
      RunCapped(cfg, after, hs[1..], p, bound + if Outside(cl, hs[0], p) then 1 else 0);
    }
  }

  lemma StillCapped(cfg: Config, cl: Cluster, h: Happening, p: string)
    requires p in cl.pools
    ensures var after := Step(cfg, cl, h);
            p in after.pools && after.pools[p].maxNodes == cl.pools[p].maxNodes
  {
    hide Step;
    StepKeepsPolicies(cfg, cl, h);
  }

  function Max(a: int, b: int): int {
    if a < b then b else a
  }

  /** From any cluster with no decision or pass under way, in every run: a pool takes at most maxNodes
      slots, or as many as it took to begin with, and one more for each time a member got one from
      outside - a wake by hand, an adopted Node, a Failed Machine's Node coming back. */
  lemma {:induction false} MaxNodesHolds(cfg: Config, cl: Cluster, hs: seq<Happening>, p: string)
    requires p in cl.pools && cl.pools[p].maxNodes.Some? && cl.up.Resting?
    requires forall n :: n in cl.cells ==> Coherent(cl.cells[n]) && cl.cells[n].flight.None?
    ensures var end := ClusterRun(cfg, cl, hs);
            && p in end.pools
            && |SlotsIn(end, p)| <= Max(|SlotsIn(cl, p)|, cl.pools[p].maxNodes.value) + OutsideGains(cfg, cl, hs, p)
  {
    hide Step, Coherent;
    RunCapped(cfg, cl, hs, p, Max(|SlotsIn(cl, p)|, cl.pools[p].maxNodes.value));
  }
}
