/** minNodes and maxConcurrent hold in every run: without manual drains and node loss, no pool's
    kept-on count falls below its floor and no pool scales down more members than it may. */
module PoolGuards {
  import opened Api
  import opened Lifecycle
  import opened OneShotTriggers
  import opened ScaleUp
  import opened Clusters

  /** Nobody asks for a drain by hand, and a pass that looks at a Ready Machine's Node finds it up. */
  predicate NoOutsideDrain(c: Cell, e: Event) {
    && (e.SetDrain? ==> e.value != Some(TRIGGER))
    && (e.Call? && c.flight.Some? && c.flight.value.pc.ReadyReadNode? ==> NodeReady(Backing(c)))
  }

  predicate Quiet(cl: Cluster, h: Happening) {
    h.At? && h.n in cl.cells ==> NoOutsideDrain(cl.cells[h.n], h.e)
  }

  /** A cell whose pass, if any, is not on the node-loss path. */
  ghost predicate Calm(c: Cell) {
    && Coherent(c)
    && (c.flight.Some? ==>
          Tidied(c.flight.value.pc, c.flight.value.m) && !c.flight.value.pc.SaveLost? && !c.flight.value.pc.StampLoss?)
  }

  predicate MovesSafely(m: Machine, n: Machine) {
    (KeptOn(m) ==> KeptOn(n)) && (ScalingDown(n) ==> ScalingDown(m))
  }

  /** A call drops no Machine out of kept-on and brings none into scaling-down. */
  lemma CallKeepsCounts(c: Cell, f: Flight, o: Outcome)
    requires f.m.state == c.m.state && InState(f.pc, f.m.state) && Tidied(f.pc, f.m) && !f.pc.SaveLost?
    requires f.m.version == c.m.version ==> f.m == c.m
    ensures var m := NextMachine(c, f, o);
            MovesSafely(c.m, m)
  {}

  lemma CallAvoidsLoss(cfg: Config, c: Cell, f: Flight, o: Outcome, cached: seq<Pod>)
    requires f.pc.ReadyReadNode? ==> NodeReady(Backing(c))
    requires !f.pc.SaveLost? && !f.pc.StampLoss?
    ensures var pc := NextPc(cfg, c, f, o, cached, NextCopy(c, f, o));
            !pc.SaveLost? && !pc.StampLoss?
  {}

  /** Any event but a drain request, on any cell. */
  lemma CalmStep(cfg: Config, c: Cell, e: Event)
    requires Calm(c) && NoOutsideDrain(c, e)
    ensures var d := Apply(cfg, c, e);
            Calm(d) && MovesSafely(c.m, d.m)
  {
    hide Happen, NextMachine, NextNode, NextPods, NextPc, NextCopy, NextEvidence, Effects;
    ApplyCoherent(cfg, c, e);
    if e.Call? && c.flight.Some? {
      var f := c.flight.value;
      TidiedNext(cfg, c, f, e.o, e.cached);
      CallAvoidsLoss(cfg, c, f, e.o, e.cached);
      CallKeepsCounts(c, f, e.o);
    } else {
      HappenFrame(c, e);
    }
  }

  /** Setting an annotation leaves a cell calm. */
  lemma CalmAsked(cfg: Config, c: Cell, e: Event)
    requires Calm(c) && (e.SetDrain? || e.SetWake?)
    ensures Calm(Apply(cfg, c, e))
    ensures e.SetWake? ==> MovesSafely(c.m, Apply(cfg, c, e).m)
  {
    hide Happen, Exec;
    ApplyCoherent(cfg, c, e);
    HappenFrame(c, e);
  }

  ghost predicate AllCalm(cl: Cluster) {
    forall n :: n in cl.cells ==> Calm(cl.cells[n])
  }

  /** A decision to scale down, once taken, stays within its pool's guards until it is carried out. */
  ghost predicate DecisionHolds(cl: Cluster) {
    !cl.down.Resting? ==>
      var p := cl.down.pool;
      && OnlyIn(cl, cl.down.machine, p)
      && |KeptOnIn(cl, p)| > cl.pools[p].minNodes
      && |ScalingDownIn(cl, p)| < MaxConcurrent(cl.pools[p])
  }

  ghost predicate Guarded(cl: Cluster, p: string, floor: int, ceiling: int) {
    && AllCalm(cl) && DecisionHolds(cl) && p in cl.pools
    && floor <= cl.pools[p].minNodes && MaxConcurrent(cl.pools[p]) <= ceiling
    && floor <= |KeptOnIn(cl, p)| && |ScalingDownIn(cl, p)| <= ceiling
  }

  /** Where no member drops out of kept-on or comes into scaling-down, the counts move the safe way. */
  lemma CountsMoveSafely(cl: Cluster, after: Cluster, p: string)
    requires p in cl.pools && p in after.pools && after.cells.Keys == cl.cells.Keys && SamePolicy(after.pools[p], cl.pools[p])
    requires forall n :: n in cl.cells ==> MovesSafely(cl.cells[n].m, after.cells[n].m)
    ensures |KeptOnIn(cl, p)| <= |KeptOnIn(after, p)|
    ensures |ScalingDownIn(after, p)| <= |ScalingDownIn(cl, p)|
  {
    assert Members(after, p) == Members(cl, p);
    SubsetSize(KeptOnIn(cl, p), KeptOnIn(after, p));
    SubsetSize(ScalingDownIn(after, p), ScalingDownIn(cl, p));
  }

  lemma ButOne(a: set<string>, b: set<string>, n: string)
    requires forall k :: k in a && k != n ==> k in b
    ensures |a| <= |b| + 1
  {
    SubsetSize(a, b + {n});
  }

  /** Where only `n` may change, the counts move by at most one, and not at all in other pools. */
  lemma CountsMoveByOne(cl: Cluster, after: Cluster, p: string, n: string)
    requires p in cl.pools && p in after.pools && after.cells.Keys == cl.cells.Keys && SamePolicy(after.pools[p], cl.pools[p])
    requires forall k :: k in cl.cells && k != n ==> after.cells[k].m == cl.cells[k].m
    ensures |KeptOnIn(after, p)| >= |KeptOnIn(cl, p)| - 1
    ensures |ScalingDownIn(after, p)| <= |ScalingDownIn(cl, p)| + 1
    ensures !Selects(cl.pools[p], n) ==> |KeptOnIn(after, p)| == |KeptOnIn(cl, p)| && |ScalingDownIn(after, p)| == |ScalingDownIn(cl, p)|
  {
    var members := Members(cl, p);
    assert Members(after, p) == members;
    ButOne(KeptOnIn(cl, p), KeptOnIn(after, p), n);
    ButOne(ScalingDownIn(after, p), ScalingDownIn(cl, p), n);
    if n !in members {
      assert KeptOnIn(after, p) == KeptOnIn(cl, p);
      assert ScalingDownIn(after, p) == ScalingDownIn(cl, p);
    }
  }

  lemma QuietAtCell(cfg: Config, cl: Cluster, h: Happening, n: string)
    requires AllCalm(cl) && Quiet(cl, h) && !(h.AskDrain? && h.ok && cl.down.Asking?) && n in cl.cells
    ensures var after := Step(cfg, cl, h);
            n in after.cells && Calm(after.cells[n]) && MovesSafely(cl.cells[n].m, after.cells[n].m)
  {
    StepAtCell(cfg, cl, h, n);
    var t := Touched(cl, h);
    if t.Touch? && t.n == n {
      if h.At? {
        CalmStep(cfg, cl.cells[n], h.e);
      } else {
        CalmAsked(cfg, cl.cells[n], t.e);
      }
    }
  }

  /** Every step but the drain request itself. */
  lemma QuietStep(cfg: Config, cl: Cluster, h: Happening)
    requires AllCalm(cl) && Quiet(cl, h) && !(h.AskDrain? && h.ok && cl.down.Asking?)
    ensures var after := Step(cfg, cl, h);
            && AllCalm(after) && after.cells.Keys == cl.cells.Keys
            && forall n :: n in cl.cells ==> MovesSafely(cl.cells[n].m, after.cells[n].m)
  {
    StepKeepsPolicies(cfg, cl, h);
    forall n | n in cl.cells
      ensures var after := Step(cfg, cl, h);
              n in after.cells && Calm(after.cells[n]) && MovesSafely(cl.cells[n].m, after.cells[n].m)
    {
      QuietAtCell(cfg, cl, h, n);
    }
  }

  lemma StepGuarded(cfg: Config, cl: Cluster, h: Happening, p: string, floor: int, ceiling: int)
    requires Guarded(cl, p, floor, ceiling) && Quiet(cl, h)
    ensures Guarded(Step(cfg, cl, h), p, floor, ceiling)
  {
    hide Step, KeptOnIn, ScalingDownIn, Calm;
    var after := Step(cfg, cl, h);
    StepKeepsPolicies(cfg, cl, h);
    if h.AskDrain? && h.ok && cl.down.Asking? {
      DrainAsked(cfg, cl, p, floor, ceiling);
    } else {
      QuietStep(cfg, cl, h);
      CountsMoveSafely(cl, after, p);
      if !after.down.Resting? {
        OtherDecisions(cfg, cl, h);
      }
    }
  }

  lemma TakenWithinGuards(cfg: Config, cl: Cluster, h: Happening)
    requires DecisionHolds(cl) && !Step(cfg, cl, h).down.Resting?
    ensures var d := Step(cfg, cl, h).down;
            && OnlyIn(cl, d.machine, d.pool)
            && |KeptOnIn(cl, d.pool)| > cl.pools[d.pool].minNodes && |ScalingDownIn(cl, d.pool)| < MaxConcurrent(cl.pools[d.pool])
  {}

  /** A pending decision survives every other step, and a new one is taken within the guards. */
  lemma OtherDecisions(cfg: Config, cl: Cluster, h: Happening)
    requires AllCalm(cl) && DecisionHolds(cl) && Quiet(cl, h) && !(h.AskDrain? && h.ok && cl.down.Asking?)
    requires !Step(cfg, cl, h).down.Resting?
    ensures DecisionHolds(Step(cfg, cl, h))
  {
    var after := Step(cfg, cl, h);
    StepKeepsPolicies(cfg, cl, h);
    QuietStep(cfg, cl, h);
    var q := after.down.pool;
    TakenWithinGuards(cfg, cl, h);
    OnlyInStays(cfg, cl, h, after.down.machine, q);
    CountsMoveSafely(cl, after, q);
  }

  lemma AskedFrame(cfg: Config, cl: Cluster)
    requires AllCalm(cl) && cl.down.Asking?
    ensures var after := Step(cfg, cl, AskDrain(true));
            && after.down.Resting? && AllCalm(after) && after.pools == cl.pools && after.cells.Keys == cl.cells.Keys
            && forall k :: k in cl.cells && k != cl.down.machine ==> after.cells[k].m == cl.cells[k].m
  {
    hide Apply, Calm;
    var n := cl.down.machine;
    if n in cl.cells {
      CalmAsked(cfg, cl.cells[n], SetDrain(Some(TRIGGER)));
    }
  }

  lemma DrainAsked(cfg: Config, cl: Cluster, p: string, floor: int, ceiling: int)
    requires Guarded(cl, p, floor, ceiling) && cl.down.Asking?
    ensures Guarded(Step(cfg, cl, AskDrain(true)), p, floor, ceiling)
  {
    AskedFrame(cfg, cl);
    var after := Step(cfg, cl, AskDrain(true));
    CountsMoveByOne(cl, after, p, cl.down.machine);
  }

  lemma {:induction false} RunGuarded(cfg: Config, cl: Cluster, hs: seq<Happening>, p: string, floor: int, ceiling: int)
    requires Guarded(cl, p, floor, ceiling) && Throughout(cfg, cl, hs, Quiet)
    ensures Guarded(ClusterRun(cfg, cl, hs), p, floor, ceiling)
    decreases hs
  {
    if hs == [] {
    } else {
      StepGuarded(cfg, cl, hs[0], p, floor, ceiling);
      var after := Step(cfg, cl, hs[0]);
      RunGuarded(cfg, after, hs[1..], p, floor, ceiling);
    }
  }

  function Min(a: int, b: int): int {
    if a < b then a else b
  }

  function Max(a: int, b: int): int {
    if a < b then b else a
  }

  /** The members of the pool that are in service and not asked to leave it. */
  function StillOn(cl: Cluster, p: string): set<string>
    requires p in cl.pools
  {
    set n | n in Members(cl, p) && cl.cells[n].m.state == Ready && cl.cells[n].m.drainNow != Some("true")
  }

  /** The members on their way down, or asked to go. */
  function GoingDown(cl: Cluster, p: string): set<string>
    requires p in cl.pools
  {
    set n | n in Members(cl, p) && (cl.cells[n].m.state in {Draining, ShuttingDown} || cl.cells[n].m.drainNow == Some("true"))
  }

  lemma CountedInFields(cl: Cluster, p: string)
    requires p in cl.pools
    ensures StillOn(cl, p) == KeptOnIn(cl, p) && GoingDown(cl, p) == ScalingDownIn(cl, p)
  {}

  /** From any cluster with no decision or pass under way, in every run without manual drains and
      node loss - over all interleavings of scale-down, scale-up, machine passes, agents, failed
      writes and crashes - a pool's kept-on count stays at or above the smaller of its start and
      minNodes, and its scaling-down count at or below the larger of its start and maxConcurrent. */
  lemma {:induction false} GuardsHold(cfg: Config, cl: Cluster, hs: seq<Happening>, p: string)
    requires p in cl.pools && cl.down.Resting?
    requires forall n :: n in cl.cells ==> Coherent(cl.cells[n]) && cl.cells[n].flight.None?
    requires Throughout(cfg, cl, hs, Quiet)
    ensures var end := ClusterRun(cfg, cl, hs);
            && p in end.pools
            && |StillOn(end, p)| >= Min(|StillOn(cl, p)|, cl.pools[p].minNodes)
            && |GoingDown(end, p)| <= Max(|GoingDown(cl, p)|, if cl.pools[p].maxConcurrent.Some? then cl.pools[p].maxConcurrent.value else 1)
  {
    hide Step, Coherent;
    CountedInFields(cl, p);
    if p in ClusterRun(cfg, cl, hs).pools {
      CountedInFields(ClusterRun(cfg, cl, hs), p);
    }
    RunGuarded(cfg, cl, hs, p, Min(|KeptOnIn(cl, p)|, cl.pools[p].minNodes),
               Max(|ScalingDownIn(cl, p)|, MaxConcurrent(cl.pools[p])));
  }
}
