/** What a whole pass comes to: left to itself, with every call succeeding, a reconcile ends exactly as a
    table over what it found says - the Machine with its anchors, conditions and triggers, the Node, the
    requeue, and everything it did on the way. The table is written in the fields of the objects. */
module PassOutcome {
  import opened Api
  import opened Template
  import opened Lifecycle

  /** The end of a pass; the version of the Machine is left out. */
  datatype Result = Result(m: Machine, node: Option<Node>, requeue: Requeue, log: seq<Effect>)

  /** A cell without what the table does not speak of. */
  function Bare(c: Cell): Cell {
    c.(m := c.m.(version := 0), past := [], flight := None, requeue := Nothing)
  }

  // ---------- what the table asks ----------

  predicate Up(b: Cell) {
    b.m.nodeName != "" && b.node.Some? && b.node.value.ready.Some? && b.node.value.ready.value.status
  }

  predicate Exempt(b: Cell) {
    && b.m.nodeName != "" && b.node.Some?
    && "onp.io/always-on" in b.node.value.labels && b.node.value.labels["onp.io/always-on"] == "true"
  }

  predicate Unfinished(pod: Pod) {
    pod.phase != Succeeded && pod.phase != PodFailed
  }

  predicate OfWorkload(pod: Pod) {
    Unfinished(pod) && !(pod.mirror || exists i :: 0 <= i < |pod.owners| && pod.owners[i] == "DaemonSet")
  }

  predicate Holds(pod: Pod) {
    OfWorkload(pod) || (Unfinished(pod) && pod.doNotDisrupt == Some("true"))
  }

  /** Workload, not yet terminating, and unprotected unless the pool forces. */
  predicate MayGo(pod: Pod, force: bool) {
    OfWorkload(pod) && !pod.deleting && (pod.doNotDisrupt == Some("true") ==> force)
  }

  function Told(before: Option<Condition>, status: bool, now: int): Option<Condition> {
    Some(Condition(status, if before == None || before.value.status != status then now else before.value.since))
  }

  /** What is left of a budget, at most one poll. */
  function Poll(left: int, poll: int): int {
    if left > poll then poll else if left > 0 then left else 0
  }

  function Evictions(pods: seq<Pod>, force: bool): seq<Effect> {
    if pods == [] then []
    else (if MayGo(pods[0], force) then [Evicted(pods[0].name)] else []) + Evictions(pods[1..], force)
  }

  // ---------- the table ----------

  function Unchanged(b: Cell, requeue: Requeue): Result {
    Result(b.m, b.node, requeue, b.log)
  }

  function Moves(b: Cell, m: Machine, requeue: Requeue): Result {
    Result(m, b.node, requeue, b.log + [Moved(b.m.state, m.state)])
  }

  function InService(b: Cell): Result {
    Moves(b, b.m.(state := Ready, bootStart := None, readyCondition := Told(b.m.readyCondition, true, b.clock), wakeNow := None), Nothing)
  }

  /** A Node found up is uncordoned if the cordon is ONP's and gets its template. */
  function Promoted(b: Cell): Result {
    InService(Templated(Lifted(b)))
  }

  /** A write to the Node, if there is one. */
  function Lifted(b: Cell): Cell {
    if Backing(b).None? then b else b.(node := Some(Uncordon(b.node.value)))
  }

  function Templated(b: Cell): Cell {
    if Backing(b).None? then b else b.(node := Some(ApplyTemplate(b.m, Matching(b.pools, b.m.name), b.node.value)))
  }

  function Unmarked(b: Cell): Cell {
    if Backing(b).None? || b.node.value.unschedulable then b else b.(node := Some(b.node.value.(cordonedBy := None)))
  }

  function Cordons(b: Cell): Cell {
    if Backing(b).None? then b else b.(node := Some(b.node.value.(unschedulable := true, cordonedBy := Some("true"))))
  }

  function PoweredUp(cfg: Config, b: Cell): Result {
    Moves(b, b.m.(state := Booting, bootStart := Some(b.clock), powerOnSucceeded := Told(b.m.powerOnSucceeded, true, b.clock)),
          After(Poll(cfg.bootTimeout, 15)))
  }

  function Log(b: Cell, x: seq<Effect>): Cell {
    b.(log := b.log + x)
  }

  function FromOff(cfg: Config, b: Cell): Result {
    if Up(b) then Promoted(b)
    else if b.m.wakeNow == Some("true") && b.m.provider in cfg.providers && cfg.providers[b.m.provider] then PoweredUp(cfg, Log(b, [PoweredOn]))
    else Unchanged(b, Nothing)
  }

  function BootFailed(b: Cell): Result {
    Moves(b, b.m.(state := Failed, readyCondition := Told(b.m.readyCondition, false, b.clock), wakeNow := None), Nothing)
  }

  /** Still booting: the power-on is sent again after the first poll interval. */
  function StillBooting(cfg: Config, b: Cell): Result {
    if b.m.bootStart.None? then Unchanged(b, After(15))
    else
      var elapsed := b.clock - b.m.bootStart.value;
      var resent := elapsed >= 15 && b.m.provider in cfg.providers && cfg.providers[b.m.provider];
      Unchanged(Log(b, if resent then [PoweredOn] else []), After(Poll(cfg.bootTimeout - elapsed, 15)))
  }

  function FromBooting(cfg: Config, b: Cell): Result {
    if Up(b) then Promoted(b)
    else if b.m.bootStart.Some? && b.clock >= b.m.bootStart.value + cfg.bootTimeout then BootFailed(b)
    else StillBooting(cfg, b)
  }

  function StartsDraining(b: Cell): Result {
    Moves(b, b.m.(state := Draining, drainStart := Some(b.clock), drainNow := None), Immediately)
  }

  function Asked(b: Cell): Result {
    if Exempt(b) then Unchanged(WithoutDrainNow(b), Nothing) else StartsDraining(b)
  }

  function WithoutDrainNow(b: Cell): Cell {
    b.(m := b.m.(drainNow := None))
  }

  function WithoutWakeNow(b: Cell): Cell {
    b.(m := b.m.(wakeNow := None))
  }

  function Tidy(b: Cell): Result {
    Unchanged(b.(m := b.m.(notReadySince := None)), Nothing)
  }

  function NodeLost(b: Cell): Result {
    Moves(b, b.m.(state := Off, notReadySince := None, readyCondition := Told(b.m.readyCondition, false, b.clock)), Nothing)
  }

  function Watched(cfg: Config, b: Cell): Result {
    if Up(b) then Tidy(Unmarked(b))
    else if b.m.notReadySince.None? then Unchanged(b.(m := b.m.(notReadySince := Some(b.clock))), After(cfg.lossGrace))
    else if b.clock >= b.m.notReadySince.value + cfg.lossGrace then NodeLost(b)
    else Unchanged(b, After(b.m.notReadySince.value + cfg.lossGrace - b.clock))
  }

  function FromReady(cfg: Config, b: Cell): Result {
    if b.m.drainNow == Some("true") then Asked(b) else Watched(cfg, b)
  }

  function Aborted(b: Cell): Result {
    Moves(b, b.m.(state := Ready, drainStart := None), Nothing)
  }

  function DrainFailed(b: Cell): Result {
    Moves(b, b.m.(state := Failed), Nothing)
  }

  function Opens(b: Cell, ev: Evidence): Result {
    var r := Moves(b, b.m.(state := ShuttingDown, shutdownStart := Some(b.clock)), Nothing);
    r.(log := r.log + [Opened(b.clock, ev)])
  }

  /** The uncached list decides. */
  function Confirmed(b: Cell, ev: Evidence): Result {
    if exists n :: n in b.pods && Holds(b.pods[n]) then Unchanged(b, After(10)) else Opens(b, ev.(pods := Some(b.pods)))
  }

  predicate SeenEmpty(nodeName: string, cached: seq<Pod>) {
    nodeName == "" || forall i :: 0 <= i < |cached| ==> !Holds(cached[i])
  }

  /** Every pod that may go is evicted, and the node looked at again after a poll. */
  function Purged(b: Cell, force: bool, cached: seq<Pod>): Result {
    Unchanged(Log(b, Evictions(cached, force)), After(10))
  }

  function Listed(b: Cell, force: bool, ev: Evidence, cached: seq<Pod>): Result {
    if SeenEmpty(b.m.nodeName, cached) then Confirmed(b, ev) else Purged(b, force, cached)
  }

  function Emptied(b: Cell, force: bool, ev: Evidence, cached: seq<Pod>): Result {
    if Backing(b).Some? && !b.node.value.unschedulable then
      Unchanged(Log(Cordons(b), [Cordoned]), After(10))
    else
      Listed(b, force, ev.(cordon := Some(Backing(b))), cached)
  }

  /** Its single pool's budget and force, the defaults, or the least of several budgets without force. */
  function Budgeted(b: Cell, ev: Evidence, cached: seq<Pod>): Result {
    var policy := PolicyOf(Matching(b.pools, b.m.name));
    if b.m.drainStart.Some? && b.clock > b.m.drainStart.value + policy.timeout then DrainFailed(Lifted(b))
    else Emptied(b, policy.force, ev, cached)
  }

  function FromDraining(b: Cell, ev: Evidence, cached: seq<Pod>): Result {
    if Exempt(b) then Aborted(Lifted(b)) else Budgeted(b, ev.(gate := Some(Backing(b))), cached)
  }

  function PoweredDown(b: Cell): Result {
    Moves(b, b.m.(state := Off, shutdownStart := None, readyCondition := Told(b.m.readyCondition, false, b.clock)), Nothing)
  }

  function ShutdownFailed(b: Cell): Result {
    Moves(b, b.m.(state := Failed, shutdownStart := None, readyCondition := Told(b.m.readyCondition, false, b.clock)), Nothing)
  }

  /** The Node is gone, or turned unready no earlier than the episode opened. */
  predicate SeenDown(b: Cell) {
    || Backing(b).None?
    || (&& b.node.value.ready.Some? && !b.node.value.ready.value.status
        && (b.m.shutdownStart.Some? ==> b.node.value.ready.value.since >= b.m.shutdownStart.value))
  }

  function FromShuttingDown(cfg: Config, b: Cell): Result {
    if SeenDown(b) then PoweredDown(b)
    else if b.m.shutdownStart.None? then Unchanged(b, After(15))
    else if b.clock > b.m.shutdownStart.value + cfg.shutdownTimeout then ShutdownFailed(b)
    else Unchanged(b, After(Poll(b.m.shutdownStart.value + cfg.shutdownTimeout - b.clock, 15)))
  }

  function Table(cfg: Config, b: Cell, cached: seq<Pod>): Result {
    match b.m.state
    case Unset => Moves(b, b.m.(state := Off), Immediately)
    case Off => FromOff(cfg, WithoutDrainNow(b))
    case Booting => FromBooting(cfg, WithoutDrainNow(b))
    case Ready => FromReady(cfg, WithoutWakeNow(b))
    case Draining => FromDraining(WithoutDrainNow(b), NO_EVIDENCE, cached)
    case ShuttingDown => FromShuttingDown(cfg, b)
    case Failed => Unchanged(b, Nothing)
  }

  // ---------- the table from the middle of a pass ----------

  function Freed(b: Cell): Cell {
    if Backing(b).None? then b else b.(node := Some(b.node.value.(unschedulable := false, cordonedBy := None)))
  }

  function Merged(b: Cell, labels: map<string, string>, wanted: seq<Taint>): Cell {
    if Backing(b).None? then b
    else
      var n := b.node.value;
      b.(node := Some(n.(labels := MergeLabels(n.labels, labels), taints := MergeTaints(n.taints, wanted))))
  }

  function Patched(b: Cell, pc: Pc): Cell {
    if Backing(b).None? then b else b.(node := Some(NodePatch(pc, b.node.value)))
  }

  function AfterLift(why: Why, b: Cell): Result {
    match why
    case Waking => InService(Templated(b))
    case Aborting => Aborted(b)
    case TimingOut => DrainFailed(b)
  }

  function Evicts(todo: seq<string>): seq<Effect> {
    if todo == [] then [] else [Evicted(todo[0])] + Evicts(todo[1..])
  }

  function PurgedOf(b: Cell, todo: seq<string>): Result {
    Unchanged(Log(b, Evicts(todo)), After(10))
  }

  /** What the pass comes to from `pc`. */
  function From(cfg: Config, b: Cell, pc: Pc, ev: Evidence, cached: seq<Pod>): Result {
    match pc
    case SaveOff => Moves(b, b.m.(state := Off), Immediately)
    case OffTidy => FromOff(cfg, WithoutDrainNow(b))
    case OffReadNode => FromOff(cfg, b)
    case OffPowerOn => PoweredUp(cfg, Log(b, [PoweredOn]))
    case OffSaveBooting => PoweredUp(cfg, b)
    case BootTidy => FromBooting(cfg, WithoutDrainNow(b))
    case BootReadNode => FromBooting(cfg, b)
    case BootResend => StillBooting(cfg, b)
    case UncordonRead(why) => AfterLift(why, Lifted(b))
    case UncordonReread(why) => AfterLift(why, Freed(b))
    case UncordonPatch(why, _, _) => AfterLift(why, Patched(b, pc))
    case TemplatePools => InService(Templated(b))
    case TemplateRead(labels, wanted) =>
      InService(Merged(b, labels, wanted))
    case TemplatePatch(_, _) => InService(Patched(b, pc))
    case DriftRead => InService(b)
    case SaveReady => InService(b)
    case SaveBootFailed => BootFailed(b)
    case ClearWake => Unchanged(WithoutWakeNow(b), Nothing)
    case ReadyTidy => FromReady(cfg, WithoutWakeNow(b))
    case ReadyReadNode => Watched(cfg, b)
    case StampLoss => Unchanged(b.(m := b.m.(notReadySince := Some(b.clock))), After(cfg.lossGrace))
    case SaveLost => NodeLost(b)
    case MarkerRead => Tidy(Unmarked(b))
    case MarkerPatch => Tidy(Patched(b, pc))
    case ClearLoss => Tidy(b)
    case DrainGate => Asked(b)
    case SaveDraining => StartsDraining(b)
    case ClearDrain(started) => Unchanged(WithoutDrainNow(b), if started then Immediately else Nothing)
    case DrainTidy => FromDraining(WithoutDrainNow(b), ev, cached)
    case DrainReadNode => FromDraining(b, ev, cached)
    case DrainReadPools => Budgeted(b, ev, cached)
    case CordonRead(force) => Emptied(b, force, ev, cached)
    case CordonPatch(_) => Unchanged(Log(Patched(b, pc), [Cordoned]), After(10))
    case DrainListCached(force) => Listed(b, force, ev, cached)
    case DrainListFresh => Confirmed(b, ev)
    case SaveShuttingDown => Opens(b, ev)
    case DrainEvict(todo) => PurgedOf(b, todo)
    case SaveAborted => Aborted(b)
    case SaveDrainFailed => DrainFailed(b)
    case ReadDown => FromShuttingDown(cfg, b)
    case SavePoweredOff => PoweredDown(b)
    case SaveShutdownFailed => ShutdownFailed(b)
    case _ => Unchanged(b, Nothing)
  }

  /** At `pc` the pass still makes at most this many calls; `k` bounds the evictions. */
  function Ahead(pc: Pc, k: nat): nat {
    match pc
    case OffTidy => 11 case OffReadNode => 10 case OffPowerOn => 2 case OffSaveBooting => 1 case SaveOff => 1
    case BootTidy => 11 case BootReadNode => 10 case BootResend => 1
    case UncordonRead(why) => if why == Waking then 9 else 4
    case UncordonReread(why) => if why == Waking then 8 else 3
    case UncordonPatch(why, _, _) => if why == Waking then 7 else 2
    case TemplatePools => 6 case TemplateRead(_, _) => 5 case TemplatePatch(_, _) => 4 case DriftRead => 3
    case SaveReady => 2 case SaveBootFailed => 2 case ClearWake => 1
    case ReadyTidy => 5 case ReadyReadNode => 4 case StampLoss => 1 case SaveLost => 1
    case MarkerRead => 3 case MarkerPatch => 2 case ClearLoss => 1
    case DrainGate => 3 case SaveDraining => 2 case ClearDrain(_) => 1
    case DrainTidy => 9 + k case DrainReadNode => 8 + k case DrainReadPools => 7 + k case CordonRead(_) => 6 + k
    case CordonPatch(_) => 1 case DrainListCached(_) => 5 + k case DrainListFresh => 2 case SaveShuttingDown => 1
    case DrainEvict(todo) => |todo| + 1
    case SaveAborted => 1 case SaveDrainFailed => 1
    case ReadDown => 2 case SavePoweredOff => 1 case SaveShutdownFailed => 1
    case _ => 0
  }

  /** A patch under way has its Node, and a pass of successful calls is at no other point than these. */
  predicate Sane(b: Cell, pc: Pc) {
    && Ahead(pc, 0) > 0
    && (pc.UncordonPatch? || pc.TemplatePatch? || pc.MarkerPatch? || pc.CordonPatch? ==> Backing(b).Some?)
  }

  /** The pass goes on to `pc` with `b` as the cell by then, to the same end and with fewer calls ahead. */
  predicate SameEnd(cfg: Config, b: Cell, from: Pc, pc: Pc, ev: Evidence, cached: seq<Pod>, t: Result) {
    if pc.Return? then t == Unchanged(b, pc.requeue)
    else t == From(cfg, b, pc, ev, cached) && Sane(b, pc) && Ahead(pc, |cached|) < Ahead(from, |cached|)
  }

  // ---------- reads ----------

  lemma SameBacking(c: Cell)
    ensures Backing(Bare(c)) == Backing(c)
    ensures Backing(c).Some? ==> Backing(c) == c.node
  {}

  lemma MarkerNode(b: Cell)
    ensures Backing(b).Some? && !b.node.value.unschedulable && b.node.value.cordonedBy.Some? ==> Unmarked(b) == Patched(b, MarkerPatch)
    ensures !(Backing(b).Some? && !b.node.value.unschedulable && b.node.value.cordonedBy.Some?) ==> Unmarked(b) == b
  {}

  lemma CordonNode(b: Cell)
    ensures Backing(b).Some? ==> Cordons(b) == Patched(b, CordonPatch(b.node.value.cordonedBy != Some(TRIGGER)))
  {}

  lemma WakeReadEnd(cfg: Config, c: Cell, f: Flight, cached: seq<Pod>)
    requires f.m == c.m && (f.pc.OffReadNode? || f.pc.BootReadNode?)
    ensures var b := Bare(c);
            SameEnd(cfg, b, f.pc, AfterRead(cfg, c, f, cached), f.ev, cached, From(cfg, b, f.pc, f.ev, cached))
  {
    hide ApplyTemplate, Matching, Uncordon, StillBooting, PoweredUp, BootFailed, InService;
  }

  lemma ReadyReadEnd(cfg: Config, c: Cell, f: Flight, cached: seq<Pod>)
    requires f.m == c.m && f.pc.ReadyReadNode?
    ensures var b := Bare(c);
            SameEnd(cfg, b, f.pc, AfterRead(cfg, c, f, cached), f.ev, cached, From(cfg, b, f.pc, f.ev, cached))
  {
    hide NodeLost, StartsDraining, Tidy;
  }

  lemma GateEnd(cfg: Config, c: Cell, f: Flight, cached: seq<Pod>)
    requires f.m == c.m && f.pc.DrainGate?
    ensures var b := Bare(c);
            SameEnd(cfg, b, f.pc, AfterRead(cfg, c, f, cached), f.ev, cached, From(cfg, b, f.pc, f.ev, cached))
  {
    hide StartsDraining;
  }

  lemma MarkerReadEnd(cfg: Config, c: Cell, f: Flight, cached: seq<Pod>)
    requires f.m == c.m && f.pc.MarkerRead?
    ensures var b := Bare(c);
            SameEnd(cfg, b, f.pc, AfterRead(cfg, c, f, cached), f.ev, cached, From(cfg, b, f.pc, f.ev, cached))
  {
    hide Unmarked, Patched, Backing;
    MarkerNode(Bare(c));
    SameBacking(c);
  }

  lemma DrainReadEnd(cfg: Config, c: Cell, f: Flight, cached: seq<Pod>)
    requires f.m == c.m && f.pc.DrainReadNode?
    ensures var b := Bare(c);
            SameEnd(cfg, b, f.pc, AfterRead(cfg, c, f, cached), NextEvidence(c, f), cached, From(cfg, b, f.pc, f.ev, cached))
  {
    hide Budgeted, Aborted, Uncordon;
  }

  lemma PoolsReadEnd(cfg: Config, c: Cell, f: Flight, cached: seq<Pod>)
    requires f.m == c.m && f.pc.DrainReadPools?
    ensures var b := Bare(c);
            SameEnd(cfg, b, f.pc, AfterRead(cfg, c, f, cached), NextEvidence(c, f), cached, From(cfg, b, f.pc, f.ev, cached))
  {
    hide PolicyOf, Matching, Emptied, DrainFailed, Uncordon;
  }

  lemma CordonReadEnd(cfg: Config, c: Cell, f: Flight, cached: seq<Pod>)
    requires f.m == c.m && f.pc.CordonRead?
    ensures var b := Bare(c);
            SameEnd(cfg, b, f.pc, AfterRead(cfg, c, f, cached), NextEvidence(c, f), cached, From(cfg, b, f.pc, f.ev, cached))
  {
    hide Listed, Cordons, Patched, Backing;
    CordonNode(Bare(c));
    SameBacking(c);
  }

  lemma HoldsIsKeepsNodeOn(pod: Pod)
    ensures Holds(pod) <==> KeepsNodeOn(pod)
    ensures MayGo(pod, false) <==> IsDrainable(pod, false)
    ensures MayGo(pod, true) <==> IsDrainable(pod, true)
  {}

  lemma {:induction false} EvictionsOfEvictable(pods: seq<Pod>, force: bool)
    ensures Evicts(Evictable(pods, force)) == Evictions(pods, force)
    ensures |Evictable(pods, force)| <= |pods|
  {
    if pods == [] {
    } else {
      HoldsIsKeepsNodeOn(pods[0]);
      EvictionsOfEvictable(pods[1..], force);
      if KeepsNodeOn(pods[0]) && IsDrainable(pods[0], force) {
        var rest := Evictable(pods[1..], force);
        assert ([pods[0].name] + rest)[1..] == rest;
      }
    }
  }

  lemma CachedListNext(b: Cell, f: Flight, force: bool, cached: seq<Pod>)
    ensures var pc := AfterCachedList(f, force, cached);
            if SeenEmpty(f.m.nodeName, cached) then pc == DrainListFresh
            else pc.DrainEvict? && PurgedOf(b, pc.todo) == Purged(b, force, cached) && |pc.todo| <= |cached|
  {
    hide Holds, KeepsNodeOn, IsDrainable, MayGo;
    forall pod
      ensures Holds(pod) <==> KeepsNodeOn(pod)
    {
      HoldsIsKeepsNodeOn(pod);
    }
    EvictionsOfEvictable(cached, force);
  }

  lemma CachedListEnd(cfg: Config, c: Cell, f: Flight, cached: seq<Pod>)
    requires f.m == c.m && f.pc.DrainListCached?
    ensures var b := Bare(c);
            SameEnd(cfg, b, f.pc, AfterRead(cfg, c, f, cached), NextEvidence(c, f), cached, From(cfg, b, f.pc, f.ev, cached))
  {
    hide SeenEmpty, AfterCachedList, Confirmed, Purged, PurgedOf;
    CachedListNext(Bare(c), f, f.pc.force, cached);
  }

  lemma FreshListEnd(cfg: Config, c: Cell, f: Flight, cached: seq<Pod>)
    requires f.m == c.m && f.pc.DrainListFresh?
    ensures var b := Bare(c);
            SameEnd(cfg, b, f.pc, AfterRead(cfg, c, f, cached), NextEvidence(c, f), cached, From(cfg, b, f.pc, f.ev, cached))
  {
    hide Holds, KeepsNodeOn, Opens;
    forall pod
      ensures Holds(pod) <==> KeepsNodeOn(pod)
    {
      HoldsIsKeepsNodeOn(pod);
    }
  }

  lemma UncordonReadEnd(cfg: Config, c: Cell, f: Flight, cached: seq<Pod>)
    requires f.m == c.m && f.pc.UncordonRead?
    ensures var b := Bare(c);
            SameEnd(cfg, b, f.pc, AfterRead(cfg, c, f, cached), f.ev, cached, From(cfg, b, f.pc, f.ev, cached))
  {
    hide InService, Templated, Aborted, DrainFailed;
  }

  lemma UncordonRereadEnd(cfg: Config, c: Cell, f: Flight, cached: seq<Pod>)
    requires f.m == c.m && f.pc.UncordonReread?
    ensures var b := Bare(c);
            SameEnd(cfg, b, f.pc, AfterRead(cfg, c, f, cached), f.ev, cached, From(cfg, b, f.pc, f.ev, cached))
  {
    hide InService, Templated, Aborted, DrainFailed;
  }

  lemma DriftReadEnd(cfg: Config, c: Cell, f: Flight, cached: seq<Pod>)
    requires f.m == c.m && f.pc.DriftRead?
    ensures var b := Bare(c);
            SameEnd(cfg, b, f.pc, AfterRead(cfg, c, f, cached), f.ev, cached, From(cfg, b, f.pc, f.ev, cached))
  {
    hide InService;
  }

  lemma DownReadEnd(cfg: Config, c: Cell, f: Flight, cached: seq<Pod>)
    requires f.m == c.m && f.pc.ReadDown?
    ensures var b := Bare(c);
            SameEnd(cfg, b, f.pc, AfterRead(cfg, c, f, cached), f.ev, cached, From(cfg, b, f.pc, f.ev, cached))
  {
    hide PoweredDown, ShutdownFailed;
  }

  lemma ReadEnd(cfg: Config, c: Cell, f: Flight, cached: seq<Pod>)
    requires f.m == c.m && KindOf(f.pc) == Reading
    ensures var b := Bare(c);
            SameEnd(cfg, b, f.pc, AfterRead(cfg, c, f, cached), NextEvidence(c, f), cached, From(cfg, b, f.pc, f.ev, cached))
  {
    hide AfterRead, SameEnd, From;
    match f.pc
    case OffReadNode => WakeReadEnd(cfg, c, f, cached);
    case BootReadNode => WakeReadEnd(cfg, c, f, cached);
    case ReadyReadNode => ReadyReadEnd(cfg, c, f, cached);
    case DrainGate => GateEnd(cfg, c, f, cached);
    case MarkerRead => MarkerReadEnd(cfg, c, f, cached);
    case DrainReadNode => DrainReadEnd(cfg, c, f, cached);
    case DrainReadPools => PoolsReadEnd(cfg, c, f, cached);
    case CordonRead(_) => CordonReadEnd(cfg, c, f, cached);
    case DrainListCached(_) => CachedListEnd(cfg, c, f, cached);
    case DrainListFresh => FreshListEnd(cfg, c, f, cached);
    case UncordonRead(_) => UncordonReadEnd(cfg, c, f, cached);
    case UncordonReread(_) => UncordonRereadEnd(cfg, c, f, cached);
    case DriftRead => DriftReadEnd(cfg, c, f, cached);
    case ReadDown => DownReadEnd(cfg, c, f, cached);
    case _ =>
  }

  // ---------- the template ----------

  lemma PoolsEnd(cfg: Config, c: Cell, f: Flight, cached: seq<Pod>)
    requires f.m == c.m && f.pc.TemplatePools?
    ensures var b := Bare(c);
            SameEnd(cfg, b, f.pc, AfterTemplating(cfg, c, f, Done), f.ev, cached, From(cfg, b, f.pc, f.ev, cached))
  {
    hide InService, Matching, Templated, Merged, DesiredLabels, DesiredTaints;
    DesiredNode(Bare(c), c.m);
  }

  /** What the pools ask for, in the three ways applyNodeTemplate may go on. */
  lemma DesiredNode(b: Cell, m: Machine)
    requires b.m == m.(version := 0)
    ensures var matched := Matching(b.pools, m.name);
            && Templated(b) == Merged(b, DesiredLabels(m, matched), DesiredTaints(matched))
            && (b.m.nodeName == "" || (DesiredLabels(m, matched) == map[] && DesiredTaints(matched) == []) ==> Templated(b) == b)
  {
    hide Matching;
    if Backing(b).Some? {
      NothingToWrite(b.node.value.labels);
    }
  }

  lemma TemplateReadEnd(cfg: Config, c: Cell, f: Flight, cached: seq<Pod>)
    requires f.m == c.m && f.pc.TemplateRead?
    ensures var b := Bare(c);
            SameEnd(cfg, b, f.pc, AfterTemplating(cfg, c, f, Done), f.ev, cached, From(cfg, b, f.pc, f.ev, cached))
  {
    hide InService, Merged, Patched, LabelDiff, MergesTouch, MergeTaints, MergeLabels, Backing;
    SameBacking(c);
    MergedNode(Bare(c), f.m, f.pc.labels, f.pc.wanted);
  }

  /** The patch worked out on a Node makes the merged Node of it. */
  lemma MergedNode(b: Cell, m: Machine, labels: map<string, string>, wanted: seq<Taint>)
    ensures var pc := AfterTemplateRead(m, Backing(b), labels, wanted);
            if pc.TemplatePatch? then Backing(b).Some? && Patched(b, pc) == Merged(b, labels, wanted)
            else pc == AfterTemplate(m) && Merged(b, labels, wanted) == b
  {
    if Backing(b).Some? {
      UntouchedTaints(b.node.value.taints, wanted);
      DiffShows(b.node.value.labels, labels);
    }
  }

  lemma TemplatePatchEnd(cfg: Config, c: Cell, f: Flight, cached: seq<Pod>)
    requires f.m == c.m && f.pc.TemplatePatch? && Backing(c).Some?
    ensures var b := Bare(c);
            SameEnd(cfg, Patched(b, f.pc), f.pc, AfterTemplating(cfg, c, f, Done), f.ev, cached, From(cfg, b, f.pc, f.ev, cached))
  {
    hide InService, Patched, Matching;
  }

  // ---------- writes ----------

  lemma PatchEnd(cfg: Config, c: Cell, f: Flight, cached: seq<Pod>)
    requires f.m == c.m && KindOf(f.pc) == PatchingNode && Backing(c).Some?
    ensures var b := Bare(c);
            var d := Log(Patched(b, f.pc), if f.pc.CordonPatch? then [Cordoned] else []);
            SameEnd(cfg, d, f.pc, AfterNodePatch(f), f.ev, cached, From(cfg, b, f.pc, f.ev, cached))
  {
    hide InService, Templated, Aborted, DrainFailed;
    var d := Patched(Bare(c), f.pc);
    assert d.log + [] == d.log;
  }

  lemma DropDrainEnd(cfg: Config, c: Cell, f: Flight, cached: seq<Pod>)
    requires KindOf(f.pc) == DroppingDrain
    ensures var b := Bare(c);
            var m := WithoutDrain(c.m);
            SameEnd(cfg, b.(m := m.(version := 0)), f.pc, AfterDrop(f.pc, m), f.ev, cached, From(cfg, b, f.pc, f.ev, cached))
  {
    hide FromOff, FromBooting, FromDraining, FromReady;
  }

  lemma DropWakeEnd(cfg: Config, c: Cell, f: Flight, cached: seq<Pod>)
    requires KindOf(f.pc) == DroppingWake
    ensures var b := Bare(c);
            var m := WithoutWake(c.m);
            SameEnd(cfg, b.(m := m.(version := 0)), f.pc, AfterDrop(f.pc, m), f.ev, cached, From(cfg, b, f.pc, f.ev, cached))
  {
    hide FromOff, FromBooting, FromDraining, Asked, Watched, Told, SetCondition;
    ToldAsSet(c.m.readyCondition, c.clock);
    ToldAsSet(c.m.powerOnSucceeded, c.clock);
  }

  /** What a save stores, version aside, and where it goes on, is what the table says. */
  predicate SavedAsTold(cfg: Config, c: Cell, f: Flight, m: Machine, cached: seq<Pod>) {
    var b := Bare(c);
    var d := Log(b, SaveEffects(c, f)).(m := m.(version := 0));
    SameEnd(cfg, d, f.pc, AfterSave(cfg, f.pc, m, c.clock), f.ev, cached, From(cfg, b, f.pc, f.ev, cached))
  }

  lemma ToldAsSet(before: Option<Condition>, now: int)
    ensures Told(before, true, now) == SetCondition(before, true, now)
    ensures Told(before, false, now) == SetCondition(before, false, now)
  {}

  lemma WakeSaveEnd(cfg: Config, c: Cell, f: Flight, m: Machine, cached: seq<Pod>)
    requires f.m == c.m && m.(version := 0) == Edited(f.pc, f.m, c.clock).(version := 0)
    requires f.pc.SaveOff? || f.pc.OffSaveBooting? || f.pc.SaveReady? || f.pc.SaveBootFailed?
    ensures SavedAsTold(cfg, c, f, m, cached)
  {
    hide FromOff, FromBooting, FromDraining, Asked, Watched, Told, SetCondition;
    ToldAsSet(c.m.readyCondition, c.clock);
    ToldAsSet(c.m.powerOnSucceeded, c.clock);
  }

  lemma ReadySaveEnd(cfg: Config, c: Cell, f: Flight, m: Machine, cached: seq<Pod>)
    requires f.m == c.m && m.(version := 0) == Edited(f.pc, f.m, c.clock).(version := 0)
    requires f.pc.SaveLost? || f.pc.SaveDraining? || f.pc.SaveAborted?
    ensures SavedAsTold(cfg, c, f, m, cached)
  {
    hide FromOff, FromBooting, FromDraining, Asked, Watched, Told, SetCondition;
    ToldAsSet(c.m.readyCondition, c.clock);
    ToldAsSet(c.m.powerOnSucceeded, c.clock);
  }

  lemma DrainSaveEnd(cfg: Config, c: Cell, f: Flight, m: Machine, cached: seq<Pod>)
    requires f.m == c.m && m.(version := 0) == Edited(f.pc, f.m, c.clock).(version := 0)
    requires f.pc.SaveDrainFailed? || f.pc.SaveShuttingDown?
    ensures SavedAsTold(cfg, c, f, m, cached)
  {
    hide FromOff, FromBooting, FromDraining, Asked, Watched, Told, SetCondition;
    ToldAsSet(c.m.readyCondition, c.clock);
    ToldAsSet(c.m.powerOnSucceeded, c.clock);
  }

  lemma DownSaveEnd(cfg: Config, c: Cell, f: Flight, m: Machine, cached: seq<Pod>)
    requires f.m == c.m && m.(version := 0) == Edited(f.pc, f.m, c.clock).(version := 0)
    requires f.pc.SavePoweredOff? || f.pc.SaveShutdownFailed?
    ensures SavedAsTold(cfg, c, f, m, cached)
  {
    hide FromOff, FromBooting, FromDraining, Asked, Watched, Told, SetCondition;
    ToldAsSet(c.m.readyCondition, c.clock);
    ToldAsSet(c.m.powerOnSucceeded, c.clock);
  }

  lemma SaveEnd(cfg: Config, c: Cell, f: Flight, m: Machine, cached: seq<Pod>)
    requires f.m == c.m && KindOf(f.pc) == Saving && m.(version := 0) == Edited(f.pc, f.m, c.clock).(version := 0)
    requires f.pc != OffSavePowerFailed
    ensures SavedAsTold(cfg, c, f, m, cached)
  {
    hide SavedAsTold, Edited;
    if f.pc.SaveOff? || f.pc.OffSaveBooting? || f.pc.SaveReady? || f.pc.SaveBootFailed? {
      WakeSaveEnd(cfg, c, f, m, cached);
    } else if f.pc.SaveLost? || f.pc.SaveDraining? || f.pc.SaveAborted? {
      ReadySaveEnd(cfg, c, f, m, cached);
    } else if f.pc.SaveDrainFailed? || f.pc.SaveShuttingDown? {
      DrainSaveEnd(cfg, c, f, m, cached);
    } else {
      DownSaveEnd(cfg, c, f, m, cached);
    }
  }

  lemma EvictEnd(cfg: Config, b: Cell, pods: map<string, Pod>, todo: seq<string>, ev: Evidence, cached: seq<Pod>)
    ensures var d := if todo != [] then Log(b.(pods := pods), [Evicted(todo[0])]) else b;
            SameEnd(cfg, d, DrainEvict(todo), AfterEviction(todo, Done), ev, cached, From(cfg, b, DrainEvict(todo), ev, cached))
  {
    if todo == [] {
    } else {
      assert b.log + ([Evicted(todo[0])] + Evicts(todo[1..])) == (b.log + [Evicted(todo[0])]) + Evicts(todo[1..]);
    }
  }

  // ---------- one call ----------

  ghost predicate Aiming(cfg: Config, c: Cell, cached: seq<Pod>, t: Result) {
    if c.flight.None? then t == Unchanged(Bare(c), c.requeue)
    else
      var f := c.flight.value;
      f.m == c.m && Sane(Bare(c), f.pc) && t == From(cfg, Bare(c), f.pc, f.ev, cached)
  }

  /** The pass going on as it should is aiming at the same end. */
  lemma Onward(cfg: Config, c: Cell, x: Cell, pc: Pc, ev: Evidence, cached: seq<Pod>, t: Result)
    requires c.flight.Some? && SameEnd(cfg, Bare(x), c.flight.value.pc, pc, ev, cached, t)
    ensures var d := Goes(x, pc, x.m, ev);
            && Aiming(cfg, d, cached, t)
            && (d.flight.Some? ==> Ahead(d.flight.value.pc, |cached|) < Ahead(c.flight.value.pc, |cached|))
  {
    hide From, Ahead;
  }

  lemma ReadCall(cfg: Config, c: Cell, f: Flight, cached: seq<Pod>)
    requires c.flight == Some(f) && f.m == c.m && KindOf(f.pc) == Reading
    ensures Advances(cfg, c, Exec(cfg, c, Done, cached), cached)
  {
    hide Exec, From, AfterRead, Ahead, Sane, NextEvidence;
    ReadStep(cfg, c, Done, cached);
    ReadEnd(cfg, c, f, cached);
    Onward(cfg, c, c, AfterRead(cfg, c, f, cached), NextEvidence(c, f), cached, From(cfg, Bare(c), f.pc, f.ev, cached));
  }

  /** A call of a pass that aims somewhere leaves it aiming there, with fewer calls ahead. */
  ghost predicate Advances(cfg: Config, c: Cell, d: Cell, cached: seq<Pod>)
    requires c.flight.Some?
  {
    var f := c.flight.value;
    && Aiming(cfg, d, cached, From(cfg, Bare(c), f.pc, f.ev, cached))
    && (d.flight.Some? ==> Ahead(d.flight.value.pc, |cached|) < Ahead(f.pc, |cached|))
  }

  lemma TemplateCall(cfg: Config, c: Cell, f: Flight, cached: seq<Pod>)
    requires c.flight == Some(f) && f.m == c.m && KindOf(f.pc) == Templating && Sane(Bare(c), f.pc)
    ensures Advances(cfg, c, Exec(cfg, c, Done, cached), cached)
  {
    hide Exec, From, AfterTemplating, Ahead, NodePatch;
    TemplateStep(cfg, c, Done, cached);
    var pc := AfterTemplating(cfg, c, f, Done);
    var t := From(cfg, Bare(c), f.pc, f.ev, cached);
    if f.pc.TemplatePools? {
      PoolsEnd(cfg, c, f, cached);
      Onward(cfg, c, c, pc, f.ev, cached, t);
    } else if f.pc.TemplateRead? {
      TemplateReadEnd(cfg, c, f, cached);
      Onward(cfg, c, c, pc, f.ev, cached, t);
    } else {
      TemplatePatchEnd(cfg, c, f, cached);
      Onward(cfg, c, c.(node := Some(NodePatch(f.pc, c.node.value))), pc, f.ev, cached, t);
    }
  }

  lemma PatchCall(cfg: Config, c: Cell, f: Flight, cached: seq<Pod>)
    requires c.flight == Some(f) && f.m == c.m && KindOf(f.pc) == PatchingNode && Sane(Bare(c), f.pc)
    ensures Advances(cfg, c, Exec(cfg, c, Done, cached), cached)
  {
    hide Exec, From, AfterNodePatch, Ahead, NodePatch;
    NodePatchStep(cfg, c, Done, cached);
    PatchEnd(cfg, c, f, cached);
    var x := c.(node := Some(NodePatch(f.pc, c.node.value)), log := c.log + if f.pc.CordonPatch? then [Cordoned] else []);
    Onward(cfg, c, x, AfterNodePatch(f), f.ev, cached, From(cfg, Bare(c), f.pc, f.ev, cached));
  }

  lemma DropCall(cfg: Config, c: Cell, f: Flight, cached: seq<Pod>)
    requires c.flight == Some(f) && f.m == c.m && KindOf(f.pc) in {DroppingDrain, DroppingWake}
    ensures Advances(cfg, c, Exec(cfg, c, Done, cached), cached)
  {
    hide Exec, From, AfterDrop, Ahead, Sane;
    var t := From(cfg, Bare(c), f.pc, f.ev, cached);
    if KindOf(f.pc) == DroppingDrain {
      DropDrainStep(cfg, c, Done, cached);
      DropDrainEnd(cfg, c, f, cached);
      var m := WithoutDrain(c.m);
      Onward(cfg, c, if c.m.drainNow.None? then c else Stored(c, m), AfterDrop(f.pc, m), f.ev, cached, t);
    } else {
      DropWakeStep(cfg, c, Done, cached);
      DropWakeEnd(cfg, c, f, cached);
      var m := WithoutWake(c.m);
      Onward(cfg, c, if c.m.wakeNow.None? then c else Stored(c, m), AfterDrop(f.pc, m), f.ev, cached, t);
    }
  }

  lemma SaveCall(cfg: Config, c: Cell, f: Flight, cached: seq<Pod>)
    requires c.flight == Some(f) && f.m == c.m && KindOf(f.pc) == Saving && f.pc != OffSavePowerFailed
    ensures Advances(cfg, c, Exec(cfg, c, Done, cached), cached)
  {
    hide Exec, From, AfterSave, Ahead, Sane, Edited, SaveEffects;
    SaveStep(cfg, c, Done, cached);
    var m := Edited(f.pc, f.m, c.clock).(version := c.m.version + 1);
    SaveEnd(cfg, c, f, m, cached);
    var x := Stored(c, m).(log := c.log + SaveEffects(c, f));
    Onward(cfg, c, x, AfterSave(cfg, f.pc, m, c.clock), f.ev, cached, From(cfg, Bare(c), f.pc, f.ev, cached));
  }

  lemma OtherCall(cfg: Config, c: Cell, f: Flight, cached: seq<Pod>)
    requires c.flight == Some(f) && f.m == c.m && KindOf(f.pc) in {PoweringOn, Resending, PatchingLoss}
    ensures Advances(cfg, c, Exec(cfg, c, Done, cached), cached)
  {
    hide Exec;
    if KindOf(f.pc) == PatchingLoss {
      PatchLossStep(cfg, c, Done, cached);
    } else {
      PowerStep(cfg, c, Done, cached);
    }
  }

  lemma EvictCall(cfg: Config, c: Cell, f: Flight, cached: seq<Pod>)
    requires c.flight == Some(f) && f.m == c.m && f.pc.DrainEvict?
    ensures Advances(cfg, c, Exec(cfg, c, Done, cached), cached)
  {
    hide Exec, From, Ahead, Sane, AfterEviction, Terminating;
    EvictStep(cfg, c, Done, cached);
    var todo := f.pc.todo;
    var pods := if todo != [] then Terminating(c.pods, todo[0]) else c.pods;
    EvictEnd(cfg, Bare(c), pods, todo, f.ev, cached);
    var x := if todo != [] then c.(pods := pods, log := c.log + [Evicted(todo[0])]) else c;
    Onward(cfg, c, x, AfterEviction(todo, Done), f.ev, cached, From(cfg, Bare(c), f.pc, f.ev, cached));
  }

  lemma Call(cfg: Config, c: Cell, cached: seq<Pod>, t: Result)
    requires Aiming(cfg, c, cached, t) && c.flight.Some?
    ensures Advances(cfg, c, Exec(cfg, c, Done, cached), cached)
  {
    hide Exec, From, Advances;
    var f := c.flight.value;
    match KindOf(f.pc)
    case Reading => ReadCall(cfg, c, f, cached);
    case Saving => SaveCall(cfg, c, f, cached);
    case DroppingDrain => DropCall(cfg, c, f, cached);
    case DroppingWake => DropCall(cfg, c, f, cached);
    case Templating => TemplateCall(cfg, c, f, cached);
    case PatchingNode => PatchCall(cfg, c, f, cached);
    case Evicting => EvictCall(cfg, c, f, cached);
    case _ => OtherCall(cfg, c, f, cached);
  }

  // ---------- the whole pass ----------

  predicate AllDone(script: seq<Outcome>) {
    forall i :: 0 <= i < |script| ==> script[i] == Done
  }

  lemma {:induction false} DriveEnd(cfg: Config, c: Cell, cached: seq<Pod>, script: seq<Outcome>, t: Result)
    requires Aiming(cfg, c, cached, t) && AllDone(script)
    requires c.flight.Some? ==> Ahead(c.flight.value.pc, |cached|) <= |script|
    ensures var d := Drive(cfg, c, cached, script);
            t == Result(d.m.(version := 0), d.node, d.requeue, d.log)
    decreases script
  {
    hide Exec, From, Ahead;
    if c.flight.None? {
    } else {
      AheadOfSane(Bare(c), c.flight.value.pc, |cached|);
      Call(cfg, c, cached, t);
      DriveEnd(cfg, Exec(cfg, c, Done, cached), cached, script[1..], t);
    }
  }

  lemma AheadOfSane(b: Cell, pc: Pc, k: nat)
    requires Sane(b, pc)
    ensures Ahead(pc, k) > 0
  {}

  lemma StartEnd(cfg: Config, c: Cell, cached: seq<Pod>)
    requires c.flight.None?
    ensures var s := Start(c, false);
            && Aiming(cfg, s, cached, Table(cfg, Bare(c), cached))
            && (s.flight.Some? ==> Ahead(s.flight.value.pc, |cached|) <= 11 + |cached|)
  {
    hide FromOff, FromBooting, FromReady, FromDraining, FromShuttingDown, WithoutDrainNow, WithoutWakeNow;
  }

  /** A reconcile left to itself, all of whose calls succeed, ends exactly as the table says: the stored
      Machine (its version aside), the Node, the requeue and the log of all it did. */
  lemma {:induction false} PassComesToTheTable(cfg: Config, c: Cell, cached: seq<Pod>, script: seq<Outcome>)
    requires c.flight.None? && AllDone(script) && |script| >= 11 + |cached|
    ensures var d := Drive(cfg, Start(c, false), cached, script);
            Result(d.m.(version := 0), d.node, d.requeue, d.log) == Table(cfg, Bare(c), cached)
  {
    hide Start, Table, Exec, From, Ahead;
    StartEnd(cfg, c, cached);
    DriveEnd(cfg, Start(c, false), cached, script, Table(cfg, Bare(c), cached));
  }

  /** A Machine whose Node another one claims is held: nothing is done, and it is looked at again in a
      minute. */
  lemma {:induction false} DuplicateIsHeld(cfg: Config, c: Cell, cached: seq<Pod>, script: seq<Outcome>)
    requires c.flight.None?
    ensures Drive(cfg, Start(c, true), cached, script) == c.(requeue := After(60))
  {
    hide Exec;
  }

  // ---------- calls that fail ----------

  /** Calls whose failure the pass acts on: the power-on and its repeat, the template, an eviction. */
  predicate FailureDecides(pc: Pc) {
    KindOf(pc) in {PoweringOn, Resending, Templating, Evicting}
  }

  /** The call has nothing to send: the trigger is not there. */
  predicate SendsNothing(f: Flight) {
    (KindOf(f.pc) == DroppingDrain && f.m.drainNow.None?) || (KindOf(f.pc) == DroppingWake && f.m.wakeNow.None?)
  }

  /** Any other failed call ends the pass on the error backoff, and nothing has changed. */
  lemma FailedCallChangesNothing(cfg: Config, c: Cell, o: Outcome, cached: seq<Pod>)
    requires c.flight.Some? && o != Done && !FailureDecides(c.flight.value.pc) && !SendsNothing(c.flight.value)
    requires KindOf(c.flight.value.pc) != Ending
    ensures Exec(cfg, c, o, cached) == c.(flight := None, requeue := Backoff)
  {
    hide Exec;
    match KindOf(c.flight.value.pc)
    case Reading => ReadStep(cfg, c, o, cached);
    case Saving => SaveStep(cfg, c, o, cached);
    case DroppingDrain => DropDrainStep(cfg, c, o, cached);
    case DroppingWake => DropWakeStep(cfg, c, o, cached);
    case PatchingNode => NodePatchStep(cfg, c, o, cached);
    case PatchingLoss => PatchLossStep(cfg, c, o, cached);
    case _ =>
  }

  /** A refused power-on leaves the Machine Off with its condition false, to be tried again. */
  lemma PowerOnRefused(cfg: Config, c: Cell, o: Outcome, cached: seq<Pod>)
    requires c.flight.Some? && c.flight.value.pc == OffPowerOn && c.flight.value.m == c.m && c.m.state == Off && o != Done
    ensures var refused := Exec(cfg, c, o, cached);
            && refused.flight.Some?
            && var d := Exec(cfg, refused, Done, cached);
               && d.flight.None? && d.requeue == Backoff && d.node == c.node && d.log == c.log + [Moved(Off, Off)]
               && d.m == c.m.(powerOnSucceeded := Told(c.m.powerOnSucceeded, false, c.clock), version := c.m.version + 1)
  {
    hide Exec;
    PowerStep(cfg, c, o, cached);
    SaveStep(cfg, Exec(cfg, c, o, cached), Done, cached);
  }

  /** A template the API server rejects fails the Machine; any other error does so only past the boot
      budget, and before that is tried again. */
  lemma TemplateRefused(cfg: Config, c: Cell, o: Outcome, cached: seq<Pod>)
    requires c.flight.Some? && KindOf(c.flight.value.pc) == Templating && o != Done
    requires c.flight.value.m == c.m && c.m.nodeName != ""
    ensures var expired := c.m.bootStart.Some? && c.clock >= c.m.bootStart.value + cfg.bootTimeout;
            var d := Exec(cfg, c, o, cached);
            if o == Invalid || expired then d == c.(flight := Some(c.flight.value.(pc := SaveBootFailed)))
            else d == c.(flight := None, requeue := Backoff)
  {
    hide Exec;
    TemplateStep(cfg, c, o, cached);
  }

  /** An eviction a disruption budget blocks is skipped; any other refusal ends the pass. */
  lemma EvictionRefused(cfg: Config, c: Cell, o: Outcome, cached: seq<Pod>)
    requires c.flight.Some? && c.flight.value.pc.DrainEvict? && c.flight.value.pc.todo != [] && o != Done
    ensures var todo := c.flight.value.pc.todo;
            Exec(cfg, c, o, cached)
            == if o == TooMany then c.(flight := Some(c.flight.value.(pc := DrainEvict(todo[1..])))) else c.(flight := None, requeue := Backoff)
  {
    hide Exec;
    EvictStep(cfg, c, o, cached);
  }

  /** An accepted eviction leaves its pod terminating, every other pod alone, and the rest to be evicted. */
  lemma EvictionAccepted(cfg: Config, c: Cell, cached: seq<Pod>)
    requires c.flight.Some? && c.flight.value.pc.DrainEvict? && c.flight.value.pc.todo != []
    ensures var todo := c.flight.value.pc.todo;
            var d := Exec(cfg, c, Done, cached);
            && d == c.(pods := d.pods, log := c.log + [Evicted(todo[0])], flight := Some(c.flight.value.(pc := DrainEvict(todo[1..]))))
            && d.pods.Keys == c.pods.Keys
            && (forall n :: n in c.pods && n != todo[0] ==> d.pods[n] == c.pods[n])
            && (todo[0] in c.pods ==> d.pods[todo[0]] == c.pods[todo[0]].(deleting := true))
  {
    hide Exec;
    EvictStep(cfg, c, Done, cached);
  }
}
