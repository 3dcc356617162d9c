/** Many Machines under the pool policies: every cell runs on its own, while the scale-down and the
    scale-up controller each take one decision at a time. A decision is three steps - read and decide,
    stamp the pool's cooldown anchor, set the annotation - and anything may happen between them,
    including a failed write or a crash. */
module Clusters {
  import opened Api
  import opened Lifecycle
  import opened ScaleUp

  /** A decision under way: its pool will be stamped next, or its Machine will be asked next. */
  datatype Decision = Resting | Stamping(pool: string, machine: string) | Asking(pool: string, machine: string)

  /** Machines and pools by name; the stamps are the times each pool's anchors were written. */
  datatype Cluster = Cluster(
    cells: map<string, Cell>,
    pools: map<string, Pool>,
    clock: int,
    down: Decision,
    up: Decision,
    downStamps: map<string, seq<int>>,
    upStamps: map<string, seq<int>>)

  // ---------- counting members ----------

  /** Ready and not asked to drain: what minNodes is a floor of. */
  predicate KeptOn(m: Machine) {
    m.state == Ready && !DrainRequested(m)
  }

  /** isScalingDown: what maxConcurrent is a cap on. */
  predicate ScalingDown(m: Machine) {
    m.state == Draining || m.state == ShuttingDown || DrainRequested(m)
  }

  predicate TakesSlot(c: Cell) {
    CountsAgainstCap(c.m, Backing(c))
  }

  function Members(cl: Cluster, p: string): set<string>
    requires p in cl.pools
  {
    if cl.pools[p].members.Some? then cl.pools[p].members.value * cl.cells.Keys else {}
  }

  function KeptOnIn(cl: Cluster, p: string): set<string>
    requires p in cl.pools
  {
    set n | n in Members(cl, p) && KeptOn(cl.cells[n].m)
  }

  function ScalingDownIn(cl: Cluster, p: string): set<string>
    requires p in cl.pools
  {
    set n | n in Members(cl, p) && ScalingDown(cl.cells[n].m)
  }

  function SlotsIn(cl: Cluster, p: string): set<string>
    requires p in cl.pools
  {
    set n | n in Members(cl, p) && TakesSlot(cl.cells[n])
  }

  ghost function KeptOnAmong(ms: seq<Machine>): set<Machine> {
    set m | m in ms && KeptOn(m)
  }

  ghost function ScalingDownAmong(ms: seq<Machine>): set<Machine> {
    set m | m in ms && ScalingDown(m)
  }

  lemma OneMoreListed(ms: seq<Machine>, i: nat)
    requires i < |ms| && Distinct(ms)
    ensures ms[i] !in ms[..i]
    ensures forall m :: m in ms[..i + 1] <==> m in ms[..i] || m == ms[i]
  {
    assert ms[..i + 1] == ms[..i] + [ms[i]];
  }

  lemma KeptOnNext(ms: seq<Machine>, i: nat)
    requires i < |ms| && Distinct(ms)
    ensures |KeptOnAmong(ms[..i + 1])| == |KeptOnAmong(ms[..i])| + (if KeptOn(ms[i]) then 1 else 0)
  {
    hide KeptOn;
    OneMoreListed(ms, i);
    assert KeptOnAmong(ms[..i + 1]) == KeptOnAmong(ms[..i]) + if KeptOn(ms[i]) then {ms[i]} else {};
  }

  lemma ScalingDownNext(ms: seq<Machine>, i: nat)
    requires i < |ms| && Distinct(ms)
    ensures |ScalingDownAmong(ms[..i + 1])| == |ScalingDownAmong(ms[..i])| + (if ScalingDown(ms[i]) then 1 else 0)
  {
    hide ScalingDown;
    OneMoreListed(ms, i);
    assert ScalingDownAmong(ms[..i + 1]) == ScalingDownAmong(ms[..i]) + if ScalingDown(ms[i]) then {ms[i]} else {};
  }

  /** poolScaleDownCounts: one loop over the pool's members, each counted on one side at most. */
  method PoolScaleDownCounts(members: seq<Machine>) returns (keptOn: nat, scalingDown: nat)
    requires Distinct(members)
    ensures keptOn == |KeptOnAmong(members)|
    ensures scalingDown == |ScalingDownAmong(members)|
  {
    keptOn, scalingDown := 0, 0;
    var i := 0;
    while i < |members|
      invariant 0 <= i <= |members|
      invariant keptOn == |KeptOnAmong(members[..i])|
      invariant scalingDown == |ScalingDownAmong(members[..i])|
    {
      KeptOnNext(members, i);
      ScalingDownNext(members, i);
      var x := members[i];
      if x.state == Draining || x.state == ShuttingDown || DrainRequested(x) {
        scalingDown := scalingDown + 1;
      } else if x.state == Ready {
        keptOn := keptOn + 1;
      }
      i := i + 1;
    }
    assert members[..i] == members;
  }

  // ---------- the guards ----------

  /** The Machine is in this pool and in no other. */
  predicate OnlyIn(cl: Cluster, n: string, p: string) {
    p in cl.pools && Selects(cl.pools[p], n) && forall q :: q in cl.pools && q != p ==> !Selects(cl.pools[q], n)
  }

  function MaxConcurrent(pool: Pool): int {
    if pool.maxConcurrent.Some? then pool.maxConcurrent.value else 1
  }

  /** A whole cooldown has passed since the last decision, if both are there. */
  predicate Cooled(cooldown: Option<int>, last: Option<int>, now: int) {
    cooldown.Some? && last.Some? ==> last.value + cooldown.value <= now
  }

  /** triggerScaleDown's tests, on fresh reads. */
  predicate MayScaleDown(cl: Cluster, n: string, p: string) {
    && OnlyIn(cl, n, p) && n in cl.cells && KeptOn(cl.cells[n].m)
    && Cooled(cl.pools[p].scaleDownCooldown, cl.pools[p].lastScaleDown, cl.clock)
    && |KeptOnIn(cl, p)| > cl.pools[p].minNodes
    && |ScalingDownIn(cl, p)| < MaxConcurrent(cl.pools[p])
  }

  /** What makes an Off member a wake candidate of its pool, fit aside. */
  predicate MayWake(cl: Cluster, n: string, p: string) {
    && OnlyIn(cl, n, p) && n in cl.cells && cl.cells[n].m.state == Off && !WakeRequested(cl.cells[n].m)
    && (cl.pools[p].maxNodes.Some? ==> |SlotsIn(cl, p)| < cl.pools[p].maxNodes.value)
    && Cooled(cl.pools[p].scaleUpCooldown, cl.pools[p].lastScaleUp, cl.clock)
  }

  // ---------- steps ----------

  datatype Happening =
    | At(n: string, e: Event)
    | Elapse(seconds: nat)
    | DecideDown(n: string, p: string)
    | StampDown(ok: bool)
    | AskDrain(ok: bool)
    | AbandonDown
    | DecideUp(n: string, p: string)
    | StampUp(ok: bool)
    | AskWake(ok: bool)
    | AbandonUp

  function Stamped(stamps: map<string, seq<int>>, p: string, now: int): map<string, seq<int>> {
    stamps[p := (if p in stamps then stamps[p] else []) + [now]]
  }

  /** The cell a step changes, and how. */
  datatype Touch = Untouched | Touch(n: string, e: Event)

  function Touched(cl: Cluster, h: Happening): Touch {
    match h
    case At(n, e) => Touch(n, e)
    case AskDrain(ok) => if ok && cl.down.Asking? then Touch(cl.down.machine, SetDrain(Some(TRIGGER))) else Untouched
    case AskWake(ok) => if ok && cl.up.Asking? then Touch(cl.up.machine, SetWake(Some(TRIGGER))) else Untouched
    case _ => Untouched
  }

  function NextCells(cfg: Config, cl: Cluster, t: Touch): (cells: map<string, Cell>)
    ensures cells.Keys == cl.cells.Keys
  {
    if t.Touch? && t.n in cl.cells then cl.cells[t.n := Apply(cfg, cl.cells[t.n], t.e)] else cl.cells
  }

  predicate StampsDown(cl: Cluster, h: Happening) {
    h.StampDown? && h.ok && cl.down.Stamping? && cl.down.pool in cl.pools
  }

  predicate StampsUp(cl: Cluster, h: Happening) {
    h.StampUp? && h.ok && cl.up.Stamping? && cl.up.pool in cl.pools
  }

  function NextPools(cl: Cluster, h: Happening): map<string, Pool> {
    if StampsDown(cl, h) then cl.pools[cl.down.pool := cl.pools[cl.down.pool].(lastScaleDown := Some(cl.clock))]
    else if StampsUp(cl, h) then cl.pools[cl.up.pool := cl.pools[cl.up.pool].(lastScaleUp := Some(cl.clock))]
    else cl.pools
  }

  function NextDown(cl: Cluster, h: Happening): Decision {
    match h
    case DecideDown(n, p) => if cl.down.Resting? && MayScaleDown(cl, n, p) then Stamping(p, n) else cl.down
    case StampDown(_) =>
      if StampsDown(cl, h) then Asking(cl.down.pool, cl.down.machine) else if cl.down.Stamping? then Resting else cl.down
    case AskDrain(_) => if cl.down.Asking? then Resting else cl.down
    case AbandonDown => Resting
    case _ => cl.down
  }

  function NextUp(cl: Cluster, h: Happening): Decision {
    match h
    case DecideUp(n, p) => if cl.up.Resting? && MayWake(cl, n, p) then Stamping(p, n) else cl.up
    case StampUp(_) =>
      if StampsUp(cl, h) then Asking(cl.up.pool, cl.up.machine) else if cl.up.Stamping? then Resting else cl.up
    case AskWake(_) => if cl.up.Asking? then Resting else cl.up
    case AbandonUp => Resting
    case _ => cl.up
  }

  function Step(cfg: Config, cl: Cluster, h: Happening): Cluster {
    Cluster(
      NextCells(cfg, cl, Touched(cl, h)),
      NextPools(cl, h),
      if h.Elapse? then cl.clock + h.seconds else cl.clock,
      NextDown(cl, h),
      NextUp(cl, h),
      if StampsDown(cl, h) then Stamped(cl.downStamps, cl.down.pool, cl.clock) else cl.downStamps,
      if StampsUp(cl, h) then Stamped(cl.upStamps, cl.up.pool, cl.clock) else cl.upStamps)
  }

  function ClusterRun(cfg: Config, cl: Cluster, hs: seq<Happening>): Cluster
    decreases hs
  {
    if hs == [] then cl else ClusterRun(cfg, Step(cfg, cl, hs[0]), hs[1..])
  }

  ghost predicate Throughout(cfg: Config, cl: Cluster, hs: seq<Happening>, ok: (Cluster, Happening) -> bool)
    decreases hs
  {
    hs == [] || (ok(cl, hs[0]) && Throughout(cfg, Step(cfg, cl, hs[0]), hs[1..], ok))
  }

  /** The pool policies and the membership stand: only the anchors of a pool's status move. */
  predicate SamePolicy(a: Pool, b: Pool) {
    a == b.(lastScaleUp := a.lastScaleUp, lastScaleDown := a.lastScaleDown)
  }

  lemma StepKeepsPolicies(cfg: Config, cl: Cluster, h: Happening)
    ensures var after := Step(cfg, cl, h);
            && after.pools.Keys == cl.pools.Keys && after.cells.Keys == cl.cells.Keys
            && forall p :: p in cl.pools ==> SamePolicy(after.pools[p], cl.pools[p])
  {}

  /** A step leaves every cell alone but the one it touches. */
  lemma StepAtCell(cfg: Config, cl: Cluster, h: Happening, n: string)
    requires n in cl.cells
    ensures var t := Touched(cl, h);
            n in Step(cfg, cl, h).cells
            && Step(cfg, cl, h).cells[n] == if t.Touch? && t.n == n then Apply(cfg, cl.cells[n], t.e) else cl.cells[n]
  {}

  lemma OnlyInStays(cfg: Config, cl: Cluster, h: Happening, n: string, p: string)
    requires OnlyIn(cl, n, p)
    ensures OnlyIn(Step(cfg, cl, h), n, p)
  {
    StepKeepsPolicies(cfg, cl, h);
  }
}
