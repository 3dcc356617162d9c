/** The power lifecycle of one Machine, one API call at a time
    (internal/controller/machine_controller.go).

    A reconcile pass is a `Flight`: the program counter `pc` names the next API call of the pass, `m`
    is the pass's own in-memory copy of the Machine. `Exec` performs that one call. Anything else -
    operators, kubelet, scheduler, the other controllers, the agent, the clock - is an `Event`
    that may fall between any two calls, and so may a crash of the controller. */
module Lifecycle {
  import opened Api
  import opened Template
  import opened ShutdownAgent

  const BOOT_POLL := 15
  const SHUTDOWN_POLL := 15
  const DRAIN_POLL := 10
  const DUPLICATE_RECHECK := 60

  /** `providers` maps a registered power provider to whether it can power on. */
  datatype Config = Config(bootTimeout: int, shutdownTimeout: int, lossGrace: int, providers: map<string, bool>)

  datatype Requeue = Nothing | Immediately | After(seconds: int) | Backoff

  /** What a call returned: success, an Invalid rejection, TooManyRequests, or any other error. */
  datatype Outcome = Done | Invalid | TooMany | Error

  /** What an uncordon is part of: a wake, an aborted drain, or a drain that ran out of time. */
  datatype Why = Waking | Aborting | TimingOut

  /** The next API call of a pass. A patch carries the fields it sends, as computed from the Node its
      read returned; other fields of the Node are not sent. */
  datatype Pc =
    | SaveOff
    | OffTidy | OffReadNode | OffPowerOn | OffSaveBooting | OffSavePowerFailed
    | BootTidy | BootReadNode | BootResend
    | UncordonRead(why: Why) | UncordonReread(why: Why) | UncordonPatch(why: Why, lift: bool, unmark: bool)
    | TemplatePools | TemplateRead(labels: map<string, string>, wanted: seq<Taint>)
    | TemplatePatch(labels: map<string, string>, taints: Option<seq<Taint>>)
    | DriftRead | SaveReady | SaveBootFailed | ClearWake
    | ReadyTidy | ReadyReadNode | StampLoss | SaveLost | MarkerRead | MarkerPatch | ClearLoss
    | DrainGate | SaveDraining | ClearDrain(started: bool)
    | DrainTidy | DrainReadNode | DrainReadPools | CordonRead(force: bool) | CordonPatch(mark: bool) | DrainListCached(force: bool)
    | DrainListFresh | SaveShuttingDown | DrainEvict(todo: seq<string>)
    | SaveAborted | SaveDrainFailed
    | ReadDown | SavePoweredOff | SaveShutdownFailed
    | Return(requeue: Requeue)

  /** What a drain pass has read on its way to a power-off, each reading absent until it is made: the
      Node at the always-on check, the Node at the cordon check (either may be gone), and the pods of
      the uncached list. */
  datatype Evidence = Evidence(gate: Option<Option<Node>>, cordon: Option<Option<Node>>, pods: Option<map<string, Pod>>)

  const NO_EVIDENCE := Evidence(None, None, None)

  datatype Flight = Flight(pc: Pc, m: Machine, ev: Evidence)

  datatype Effect =
    | PoweredOn
    | Cordoned
    | Evicted(pod: string)
    | Moved(from: State, to: State)
    | Opened(at: int, ev: Evidence)
    | PoweredOff(episode: Option<int>)
    | AskedWake
    | AskedDrain

  /** One Machine with everything its passes touch. `past` are all versions of the Machine the API
      server ever stored, `pods` the pods it lists for the Machine's node name, `pools` all NodePools
      in listing order. */
  datatype Cell = Cell(
    m: Machine,
    past: seq<Machine>,
    node: Option<Node>,
    pods: map<string, Pod>,
    pools: seq<Pool>,
    clock: int,
    flight: Option<Flight>,
    requeue: Requeue,
    agent: Memory,
    boot: int,
    log: seq<Effect>)

  // ---------- questions a pass asks ----------

  function Backing(c: Cell): Option<Node> {
    if c.m.nodeName == "" then None else c.node
  }

  predicate CanPowerOn(cfg: Config, m: Machine) {
    m.provider in cfg.providers && cfg.providers[m.provider]
  }

  predicate BootTimedOut(cfg: Config, m: Machine, now: int) {
    m.bootStart.Some? && now - m.bootStart.value >= cfg.bootTimeout
  }

  predicate DrainTimedOut(m: Machine, timeout: int, now: int) {
    m.drainStart.Some? && now - m.drainStart.value > timeout
  }

  predicate ShutdownTimedOut(cfg: Config, m: Machine, now: int) {
    m.shutdownStart.Some? && now - m.shutdownStart.value > cfg.shutdownTimeout
  }

  /** requeueForBoot and requeueForShutdown: the poll interval, or what is left of the budget. */
  function PollWithin(start: Option<int>, budget: int, poll: int, now: int): int {
    if start.None? then poll
    else
      var remaining := budget - (now - start.value);
      if remaining >= poll then poll else if remaining < 0 then 0 else remaining
  }

  function DrainPolicyFor(c: Cell): DrainPolicy {
    PolicyOf(Matching(c.pools, c.m.name))
  }

  predicate NoneKeeps(pods: seq<Pod>) {
    forall i :: 0 <= i < |pods| ==> !KeepsNodeOn(pods[i])
  }

  /** podsKeepingNodeOn followed by the isDrainable filter of the eviction loop. */
  function Evictable(pods: seq<Pod>, force: bool): (names: seq<string>)
    ensures forall n :: n in names ==> exists p :: p in pods && p.name == n && KeepsNodeOn(p) && IsDrainable(p, force)
    ensures forall p :: p in pods && KeepsNodeOn(p) && IsDrainable(p, force) ==> p.name in names
  {
    if pods == [] then []
    else if KeepsNodeOn(pods[0]) && IsDrainable(pods[0], force) then [pods[0].name] + Evictable(pods[1..], force)
    else Evictable(pods[1..], force)
  }

  // ---------- the local edits before a Status().Update ----------

  function ToBooting(m: Machine, now: int): Machine {
    m.(state := Booting, bootStart := Some(now), powerOnSucceeded := SetCondition(m.powerOnSucceeded, true, now))
  }

  function ToReady(m: Machine, now: int): Machine {
    m.(state := Ready, bootStart := None, readyCondition := SetCondition(m.readyCondition, true, now))
  }

  function ToBootFailed(m: Machine, now: int): Machine {
    m.(state := Failed, readyCondition := SetCondition(m.readyCondition, false, now))
  }

  function ToDraining(m: Machine, now: int): Machine {
    m.(state := Draining, drainStart := Some(now))
  }

  function ToLost(m: Machine, now: int): Machine {
    m.(state := Off, notReadySince := None, readyCondition := SetCondition(m.readyCondition, false, now))
  }

  function ToShuttingDown(m: Machine, now: int): Machine {
    m.(state := ShuttingDown, shutdownStart := Some(now))
  }

  function ToPoweredOff(m: Machine, now: int): Machine {
    m.(state := Off, shutdownStart := None, readyCondition := SetCondition(m.readyCondition, false, now))
  }

  function ToShutdownFailed(m: Machine, now: int): Machine {
    m.(state := Failed, shutdownStart := None, readyCondition := SetCondition(m.readyCondition, false, now))
  }

  // ---------- one call of the pass in flight ----------
  //
  // A call is given by what it does to each object: the stored Machine, the Node, the pods, the
  // log of effects, and where the pass goes next.

  /** What sort of call a program counter stands for. */
  datatype Kind =
    | Reading | Saving | DroppingDrain | DroppingWake | PatchingLoss
    | PatchingNode | Templating | PoweringOn | Resending | Evicting | Ending

  function KindOf(pc: Pc): Kind {
    match pc
    case OffReadNode | BootReadNode | ReadyReadNode | ReadDown => Reading
    case DrainGate | DrainReadNode | DrainReadPools | CordonRead(_) | DrainListCached(_) | DrainListFresh => Reading
    case UncordonRead(_) | UncordonReread(_) | MarkerRead | DriftRead => Reading
    case SaveOff | OffSaveBooting | OffSavePowerFailed | SaveReady | SaveBootFailed | SaveLost => Saving
    case SaveDraining | SaveShuttingDown | SaveAborted | SaveDrainFailed => Saving
    case SavePoweredOff | SaveShutdownFailed => Saving
    case OffTidy | BootTidy | DrainTidy | ClearDrain(_) => DroppingDrain
    case ReadyTidy | ClearWake => DroppingWake
    case StampLoss | ClearLoss => PatchingLoss
    case UncordonPatch(_, _, _) | MarkerPatch | CordonPatch(_) => PatchingNode
    case TemplatePools | TemplateRead(_, _) | TemplatePatch(_, _) => Templating
    case OffPowerOn => PoweringOn
    case BootResend => Resending
    case DrainEvict(_) => Evicting
    case Return(_) => Ending
  }

  function WithoutDrain(m: Machine): Machine {
    if m.drainNow.None? then m else m.(drainNow := None, version := m.version + 1)
  }

  function WithoutWake(m: Machine): Machine {
    if m.wakeNow.None? then m else m.(wakeNow := None, version := m.version + 1)
  }

  /** The pass's copy as edited just before a Status().Update. */
  function Edited(pc: Pc, m: Machine, now: int): Machine {
    match pc
    case SaveOff => m.(state := Off)
    case OffSaveBooting => ToBooting(m, now)
    case OffSavePowerFailed => m.(powerOnSucceeded := SetCondition(m.powerOnSucceeded, false, now))
    case SaveReady => ToReady(m, now)
    case SaveBootFailed => ToBootFailed(m, now)
    case SaveLost => ToLost(m, now)
    case SaveDraining => ToDraining(m, now)
    case SaveShuttingDown => ToShuttingDown(m, now)
    case SaveAborted => m.(state := Ready, drainStart := None)
    case SaveDrainFailed => m.(state := Failed)
    case SavePoweredOff => ToPoweredOff(m, now)
    case SaveShutdownFailed => ToShutdownFailed(m, now)
    case _ => m
  }

  /** Status().Update is refused unless the stored version is the one the pass holds. */
  predicate Saves(c: Cell, f: Flight, o: Outcome) {
    KindOf(f.pc) == Saving && o == Done && c.m.version == f.m.version
  }

  /** The call writes the Machine. A trigger is only patched away when the pass's copy shows its key. */
  predicate WritesMachine(c: Cell, f: Flight, o: Outcome) {
    o == Done &&
    match KindOf(f.pc)
    case Saving => c.m.version == f.m.version
    case DroppingDrain => f.m.drainNow.Some?
    case DroppingWake => f.m.wakeNow.Some?
    case PatchingLoss => true
    case _ => false
  }

  /** The stored Machine after the call: a whole-status update, or a patch of one field. */
  function NextMachine(c: Cell, f: Flight, o: Outcome): Machine {
    if !WritesMachine(c, f, o) then c.m
    else
      match KindOf(f.pc)
      case Saving => Edited(f.pc, f.m, c.clock).(version := c.m.version + 1)
      case DroppingDrain => WithoutDrain(c.m)
      case DroppingWake => WithoutWake(c.m)
      case PatchingLoss => c.m.(notReadySince := if f.pc.StampLoss? then Some(c.clock) else None, version := c.m.version + 1)
      case _ => c.m
  }

  /** The Node with the fields of a patch written over it. */
  function NodePatch(pc: Pc, n: Node): Node {
    match pc
    case UncordonPatch(_, lift, unmark) =>
      n.(unschedulable := n.unschedulable && !lift, cordonedBy := if unmark then None else n.cordonedBy)
    case MarkerPatch => n.(cordonedBy := None)
    case CordonPatch(mark) => n.(unschedulable := true, cordonedBy := if mark then Some(TRIGGER) else n.cordonedBy)
    case TemplatePatch(labels, taints) =>
      n.(labels := n.labels + labels, taints := if taints.Some? then taints.value else n.taints)
    case _ => n
  }

  /** A patch fails when its Node is gone by then. */
  predicate Lands(c: Cell, o: Outcome) {
    o == Done && Backing(c).Some?
  }

  function NextNode(c: Cell, f: Flight, o: Outcome): Option<Node> {
    if Lands(c, o) then Some(NodePatch(f.pc, Backing(c).value)) else c.node
  }

  /** An accepted eviction leaves the pod terminating on the node. */
  function Terminating(pods: map<string, Pod>, name: string): map<string, Pod> {
    if name in pods then pods[name := pods[name].(deleting := true)] else pods
  }

  function NextPods(c: Cell, f: Flight, o: Outcome): map<string, Pod> {
    if o == Done && f.pc.DrainEvict? && f.pc.todo != [] then Terminating(c.pods, f.pc.todo[0]) else c.pods
  }

  predicate PlacesCordon(c: Cell) {
    Backing(c).Some? && !Backing(c).value.unschedulable
  }

  function SaveEffects(c: Cell, f: Flight): seq<Effect> {
    [Moved(c.m.state, Edited(f.pc, f.m, c.clock).state)]
    + (if f.pc.SaveShuttingDown? then [Opened(c.clock, f.ev)] else [])
  }

  predicate Resends(cfg: Config, c: Cell, m: Machine) {
    m.bootStart.Some? && c.clock - m.bootStart.value >= BOOT_POLL && CanPowerOn(cfg, m)
  }

  function Effects(cfg: Config, c: Cell, f: Flight, o: Outcome): seq<Effect> {
    if o != Done then []
    else
      match KindOf(f.pc)
      case Saving => if Saves(c, f, o) then SaveEffects(c, f) else []
      case PoweringOn => [PoweredOn]
      case Resending => if Resends(cfg, c, f.m) then [PoweredOn] else []
      case PatchingNode => if f.pc.CordonPatch? && Lands(c, o) then [Cordoned] else []
      case Evicting => if f.pc.DrainEvict? && f.pc.todo != [] then [Evicted(f.pc.todo[0])] else []
      case _ => []
  }

  function NextEvidence(c: Cell, f: Flight): Evidence {
    if f.pc.DrainReadNode? then f.ev.(gate := Some(Backing(c)))
    else if f.pc.CordonRead? then f.ev.(cordon := Some(Backing(c)))
    else if f.pc.DrainListFresh? then f.ev.(pods := Some(c.pods))
    else f.ev
  }

  function AfterWakeRead(cfg: Config, c: Cell, f: Flight): Pc {
    if NodeReady(Backing(c)) then UncordonRead(Waking)
    else if f.pc.OffReadNode? then
      if WakeRequested(f.m) && CanPowerOn(cfg, f.m) then OffPowerOn else Return(Nothing)
    else if BootTimedOut(cfg, f.m, c.clock) then SaveBootFailed
    else BootResend
  }

  function AfterReadyRead(cfg: Config, c: Cell, f: Flight): Pc {
    if NodeReady(Backing(c)) then MarkerRead
    else if f.m.notReadySince.None? then StampLoss
    else
      var elapsed := c.clock - f.m.notReadySince.value;
      if elapsed >= cfg.lossGrace then SaveLost
      else Return(After(if cfg.lossGrace - elapsed < 1 then 1 else cfg.lossGrace - elapsed))
  }

  function AfterPoolsRead(c: Cell, f: Flight): Pc {
    var policy := DrainPolicyFor(c);
    if DrainTimedOut(f.m, policy.timeout, c.clock) then UncordonRead(TimingOut) else CordonRead(policy.force)
  }

  function AfterCachedList(f: Flight, force: bool, cached: seq<Pod>): Pc {
    var listed := if f.m.nodeName == "" then [] else cached;
    if NoneKeeps(listed) then DrainListFresh else DrainEvict(Evictable(listed, force))
  }

  function AfterDownRead(cfg: Config, c: Cell, f: Flight): Pc {
    if WentDownSince(Backing(c), f.m.shutdownStart) then SavePoweredOff
    else if ShutdownTimedOut(cfg, f.m, c.clock) then SaveShutdownFailed
    else Return(After(PollWithin(f.m.shutdownStart, cfg.shutdownTimeout, SHUTDOWN_POLL, c.clock)))
  }

  /** Where the lifting of a cordon leads, be there one to lift or not. */
  function AfterUncordon(why: Why): Pc {
    match why
    case Waking => TemplatePools
    case Aborting => SaveAborted
    case TimingOut => SaveDrainFailed
  }

  /** uncordonIfONPCordoned: the first read looks for the marker, the second decides what to send. */
  function AfterUncordonRead(c: Cell, pc: Pc): Pc
    requires pc.UncordonRead? || pc.UncordonReread?
  {
    var node := Backing(c);
    if node.None? || (node.value.cordonedBy.None? && (pc.UncordonRead? || !node.value.unschedulable)) then AfterUncordon(pc.why)
    else if pc.UncordonRead? then UncordonReread(pc.why)
    else UncordonPatch(pc.why, node.value.unschedulable, node.value.cordonedBy.Some?)
  }

  function AfterMarker(m: Machine): Pc {
    if m.notReadySince.Some? then ClearLoss else Return(Nothing)
  }

  /** dropStaleCordonMarker: the marker means nothing on a schedulable Node. */
  function AfterMarkerRead(c: Cell, f: Flight): Pc {
    var node := Backing(c);
    if node.None? || node.value.unschedulable || node.value.cordonedBy.None? then AfterMarker(f.m) else MarkerPatch
  }

  /** Where each read leads, deciding on what it just read. */
  function AfterRead(cfg: Config, c: Cell, f: Flight, cached: seq<Pod>): Pc {
    match f.pc
    case OffReadNode => AfterWakeRead(cfg, c, f)
    case BootReadNode => AfterWakeRead(cfg, c, f)
    case ReadyReadNode => AfterReadyRead(cfg, c, f)
    case DrainGate => if AlwaysOn(Backing(c)) then ClearDrain(false) else SaveDraining
    case DrainReadNode => if AlwaysOn(Backing(c)) then UncordonRead(Aborting) else DrainReadPools
    case DrainReadPools => AfterPoolsRead(c, f)
    case CordonRead(force) => if PlacesCordon(c) then CordonPatch(Backing(c).value.cordonedBy != Some(TRIGGER)) else DrainListCached(force)
    case DrainListCached(force) => AfterCachedList(f, force, cached)
    case DrainListFresh =>
      if forall n :: n in c.pods ==> !KeepsNodeOn(c.pods[n]) then SaveShuttingDown else Return(After(DRAIN_POLL))
    case ReadDown => AfterDownRead(cfg, c, f)
    case UncordonRead(_) => AfterUncordonRead(c, f.pc)
    case UncordonReread(_) => AfterUncordonRead(c, f.pc)
    case MarkerRead => AfterMarkerRead(c, f)
    case DriftRead => SaveReady
    case _ => Return(Nothing)
  }

  /** Where an accepted Status().Update leads, `m` being what was stored. */
  function AfterSave(cfg: Config, pc: Pc, m: Machine, now: int): Pc {
    match pc
    case SaveOff => Return(Immediately)
    case OffSaveBooting => Return(After(PollWithin(m.bootStart, cfg.bootTimeout, BOOT_POLL, now)))
    case OffSavePowerFailed => Return(Backoff)
    case SaveReady => ClearWake
    case SaveBootFailed => ClearWake
    case SaveDraining => ClearDrain(true)
    case _ => Return(Nothing)
  }

  /** Where a cordon patch leads when it lands; a cordon just placed gives the scheduler one poll. */
  function AfterNodePatch(f: Flight): Pc {
    match f.pc
    case UncordonPatch(why, _, _) => AfterUncordon(why)
    case MarkerPatch => AfterMarker(f.m)
    case _ => Return(After(DRAIN_POLL))
  }

  /** Where the removal of a trigger leads, `m` being the pass's copy by then. */
  function AfterDrop(pc: Pc, m: Machine): Pc {
    match pc
    case OffTidy => OffReadNode
    case BootTidy => BootReadNode
    case DrainTidy => DrainReadNode
    case ReadyTidy => if DrainRequested(m) then DrainGate else ReadyReadNode
    case ClearDrain(started) => Return(if started then Immediately else Nothing)
    case _ => Return(Nothing)
  }

  /** The template is on the Node: capacityDrift reads the Node once more unless nothing is declared. */
  function AfterTemplate(m: Machine): Pc {
    if m.capacity == map[] || m.nodeName == "" then SaveReady else DriftRead
  }

  function AfterTemplatePools(m: Machine, matched: seq<Pool>): Pc {
    if DesiredLabels(m, matched) == map[] && DesiredTaints(matched) == [] then AfterTemplate(m)
    else TemplateRead(DesiredLabels(m, matched), DesiredTaints(matched))
  }

  /** The patch sends the labels that read differently, and the whole taint list if it came out
      different. */
  function AfterTemplateRead(m: Machine, node: Option<Node>, labels: map<string, string>, wanted: seq<Taint>): Pc {
    if node.None? then AfterTemplate(m)
    else
      var n := node.value;
      var merged := MergeTaints(n.taints, wanted);
      if LabelDiff(n.labels, labels) == map[] && !MergesTouch(n.taints, wanted) then AfterTemplate(m)
      else TemplatePatch(LabelDiff(n.labels, labels), if merged == n.taints then None else Some(merged))
  }

  /** applyNodeTemplate: a rejected template fails the Machine, any other error only once the boot
      budget is used up. */
  function AfterTemplating(cfg: Config, c: Cell, f: Flight, o: Outcome): Pc {
    if f.pc.TemplatePools? && f.m.nodeName == "" then AfterTemplate(f.m)
    else if o != Done || (f.pc.TemplatePatch? && !Lands(c, o)) then
      if o == Invalid || BootTimedOut(cfg, f.m, c.clock) then SaveBootFailed else Return(Backoff)
    else if f.pc.TemplatePools? then AfterTemplatePools(f.m, Matching(c.pools, f.m.name))
    else if f.pc.TemplateRead? then AfterTemplateRead(f.m, Backing(c), f.pc.labels, f.pc.wanted)
    else AfterTemplate(f.m)
  }

  function AfterEviction(todo: seq<string>, o: Outcome): Pc {
    if todo == [] then Return(After(DRAIN_POLL))
    else if o == Done || o == TooMany then DrainEvict(todo[1..])
    else Return(Backoff)
  }

  /** Where the pass goes after the call, given its copy `m` of the Machine by then. A failed call
      ends the pass, unless its failure is itself a branch; removing a trigger whose key is absent
      sends nothing and cannot fail. */
  function NextPc(cfg: Config, c: Cell, f: Flight, o: Outcome, cached: seq<Pod>, m: Machine): Pc {
    match KindOf(f.pc)
    case Reading => if o != Done then Return(Backoff) else AfterRead(cfg, c, f, cached)
    case Saving => if !Saves(c, f, o) then Return(Backoff) else AfterSave(cfg, f.pc, m, c.clock)
    case DroppingDrain => if f.m.drainNow.Some? && o != Done then Return(Backoff) else AfterDrop(f.pc, m)
    case DroppingWake => if f.m.wakeNow.Some? && o != Done then Return(Backoff) else AfterDrop(f.pc, m)
    case PatchingLoss =>
      if o != Done then Return(Backoff) else Return(if f.pc.StampLoss? then After(cfg.lossGrace) else Nothing)
    case PatchingNode => if !Lands(c, o) then Return(Backoff) else AfterNodePatch(f)
    case Templating => AfterTemplating(cfg, c, f, o)
    case PoweringOn => if o == Done then OffSaveBooting else OffSavePowerFailed
    case Resending => Return(After(PollWithin(m.bootStart, cfg.bootTimeout, BOOT_POLL, c.clock)))
    case Evicting => if f.pc.DrainEvict? then AfterEviction(f.pc.todo, o) else Return(Nothing)
    case Ending => f.pc
  }

  /** The pass's copy after the call: whatever the API server answered its last write with. */
  function NextCopy(c: Cell, f: Flight, o: Outcome): Machine {
    if WritesMachine(c, f, o) then NextMachine(c, f, o) else f.m
  }

  /** The pass moves on to `pc`, or ends with the result `pc` returns. */
  function Goes(c: Cell, pc: Pc, m: Machine, ev: Evidence): Cell {
    if pc.Return? then c.(flight := None, requeue := pc.requeue) else c.(flight := Some(Flight(pc, m, ev)))
  }

  /** The API server stores `m`. */
  function Stored(c: Cell, m: Machine): Cell {
    c.(m := m, past := if m == c.m then c.past else c.past + [m])
  }

  function Exec(cfg: Config, c: Cell, o: Outcome, cached: seq<Pod>): Cell
    requires c.flight.Some?
  {
    var f := c.flight.value;
    var copy := NextCopy(c, f, o);
    var after := Stored(c, NextMachine(c, f, o))
      .(node := NextNode(c, f, o), pods := NextPods(c, f, o), log := c.log + Effects(cfg, c, f, o));
    Goes(after, NextPc(cfg, c, f, o, cached, copy), copy, NextEvidence(c, f))
  }

  /** Reconcile: read the Machine, hold when another Machine claims its Node, dispatch on the state. */
  function FirstPc(s: State): Pc {
    match s
    case Unset => SaveOff
    case Off => OffTidy
    case Booting => BootTidy
    case Ready => ReadyTidy
    case Draining => DrainTidy
    case ShuttingDown => ReadDown
    case Failed => Return(Nothing)
  }

  function Start(c: Cell, duplicated: bool): Cell {
    if c.flight.Some? then c
    else if duplicated then c.(requeue := After(DUPLICATE_RECHECK))
    else Goes(c, FirstPc(c.m.state), c.m, NO_EVIDENCE)
  }

  // ---------- all that each kind of call can change ----------

  lemma ReadStep(cfg: Config, c: Cell, o: Outcome, cached: seq<Pod>)
    requires c.flight.Some? && KindOf(c.flight.value.pc) == Reading
    ensures var f := c.flight.value;
            Exec(cfg, c, o, cached) ==
            if o != Done then c.(flight := None, requeue := Backoff)
            else Goes(c, AfterRead(cfg, c, f, cached), f.m, NextEvidence(c, f))
  {
    hide AfterRead, NextEvidence;
    assert !c.flight.value.pc.DrainEvict?;
  }

  lemma DropDrainStep(cfg: Config, c: Cell, o: Outcome, cached: seq<Pod>)
    requires c.flight.Some? && KindOf(c.flight.value.pc) == DroppingDrain
    ensures var f := c.flight.value;
            var m := WithoutDrain(c.m);
            Exec(cfg, c, o, cached) ==
            if f.m.drainNow.None? then Goes(c, AfterDrop(f.pc, f.m), f.m, f.ev)
            else if o != Done then c.(flight := None, requeue := Backoff)
            else Goes(Stored(c, m), AfterDrop(f.pc, m), m, f.ev)
  {
    hide AfterDrop;
  }

  lemma DropWakeStep(cfg: Config, c: Cell, o: Outcome, cached: seq<Pod>)
    requires c.flight.Some? && KindOf(c.flight.value.pc) == DroppingWake
    ensures var f := c.flight.value;
            var m := WithoutWake(c.m);
            Exec(cfg, c, o, cached) ==
            if f.m.wakeNow.None? then Goes(c, AfterDrop(f.pc, f.m), f.m, f.ev)
            else if o != Done then c.(flight := None, requeue := Backoff)
            else Goes(Stored(c, m), AfterDrop(f.pc, m), m, f.ev)
  {
    hide AfterDrop;
  }

  lemma SaveStep(cfg: Config, c: Cell, o: Outcome, cached: seq<Pod>)
    requires c.flight.Some? && KindOf(c.flight.value.pc) == Saving
    ensures var f := c.flight.value;
            var m := Edited(f.pc, f.m, c.clock).(version := c.m.version + 1);
            Exec(cfg, c, o, cached) ==
            if o != Done || c.m.version != f.m.version then c.(flight := None, requeue := Backoff)
            else Goes(Stored(c, m).(log := c.log + SaveEffects(c, f)), AfterSave(cfg, f.pc, m, c.clock), m, f.ev)
  {
    hide AfterSave, Edited, SaveEffects;
  }

  lemma DrainingSave(cfg: Config, m: Machine, now: int)
    ensures KindOf(SaveDraining) == Saving && AfterSave(cfg, SaveDraining, ToDraining(m, now), now) == ClearDrain(true)
    ensures Edited(SaveDraining, m, now) == ToDraining(m, now) && ToDraining(m, now).version == m.version
  {}

  lemma AfterSaveOfVersion(cfg: Config, pc: Pc, m: Machine, now: int, version: nat)
    ensures AfterSave(cfg, pc, m.(version := version), now) == AfterSave(cfg, pc, m, now)
  {}

  lemma NodePatchStep(cfg: Config, c: Cell, o: Outcome, cached: seq<Pod>)
    requires c.flight.Some? && KindOf(c.flight.value.pc) == PatchingNode
    ensures var f := c.flight.value;
            Exec(cfg, c, o, cached) ==
            if !Lands(c, o) then c.(flight := None, requeue := Backoff)
            else Goes(c.(node := Some(NodePatch(f.pc, Backing(c).value)),
                         log := c.log + if f.pc.CordonPatch? then [Cordoned] else []),
                      AfterNodePatch(f), f.m, f.ev)
  {
    hide AfterNodePatch, NodePatch;
  }

  lemma UncordonGoesOn(why: Why)
    ensures !AfterUncordon(why).Return?
  {}

  lemma TemplateGoesOn(m: Machine)
    ensures !AfterTemplate(m).Return?
  {}

  lemma TemplateStep(cfg: Config, c: Cell, o: Outcome, cached: seq<Pod>)
    requires c.flight.Some? && KindOf(c.flight.value.pc) == Templating
    ensures var f := c.flight.value;
            Exec(cfg, c, o, cached) ==
            Goes(if f.pc.TemplatePatch? && Lands(c, o) then c.(node := Some(NodePatch(f.pc, Backing(c).value))) else c,
                 AfterTemplating(cfg, c, f, o), f.m, f.ev)
  {
    hide AfterTemplating;
  }

  lemma PatchLossStep(cfg: Config, c: Cell, o: Outcome, cached: seq<Pod>)
    requires c.flight.Some? && KindOf(c.flight.value.pc) == PatchingLoss
    ensures var stamp := c.flight.value.pc.StampLoss?;
            var m := c.m.(notReadySince := if stamp then Some(c.clock) else None, version := c.m.version + 1);
            Exec(cfg, c, o, cached) ==
            if o != Done then c.(flight := None, requeue := Backoff)
            else Stored(c, m).(flight := None, requeue := if stamp then After(cfg.lossGrace) else Nothing)
  {}

  lemma PowerStep(cfg: Config, c: Cell, o: Outcome, cached: seq<Pod>)
    requires c.flight.Some? && (c.flight.value.pc.OffPowerOn? || c.flight.value.pc.BootResend?)
    ensures var f := c.flight.value;
            Exec(cfg, c, o, cached) ==
            if f.pc.OffPowerOn? then
              if o == Done then c.(log := c.log + [PoweredOn], flight := Some(Flight(OffSaveBooting, f.m, f.ev)))
              else c.(flight := Some(Flight(OffSavePowerFailed, f.m, f.ev)))
            else
              c.(log := c.log + if o == Done && Resends(cfg, c, f.m) then [PoweredOn] else [], flight := None,
                 requeue := After(PollWithin(f.m.bootStart, cfg.bootTimeout, BOOT_POLL, c.clock)))
  {}

  lemma EvictionFrame(c: Cell, f: Flight, o: Outcome)
    requires f.pc.DrainEvict?
    ensures NextMachine(c, f, o) == c.m && NextCopy(c, f, o) == f.m && NextNode(c, f, o) == c.node && NextEvidence(c, f) == f.ev
  {}

  lemma EvictStep(cfg: Config, c: Cell, o: Outcome, cached: seq<Pod>)
    requires c.flight.Some? && c.flight.value.pc.DrainEvict?
    ensures var f := c.flight.value;
            var todo := f.pc.todo;
            Exec(cfg, c, o, cached) ==
            Goes(if o == Done && todo != [] then c.(pods := Terminating(c.pods, todo[0]), log := c.log + [Evicted(todo[0])]) else c,
                 AfterEviction(todo, o), f.m, f.ev)
  {
    hide AfterEviction, Terminating, NextMachine, NextCopy, NextNode, NextEvidence;
    EvictionFrame(c, c.flight.value, o);
  }

  // ---------- everything that can happen ----------

  datatype Event =
    // the controller
    | Begin(duplicated: bool)
    | Call(o: Outcome, cached: seq<Pod>)
    | Crash
    // the agent on the host, reading any version of the Machine its cache may still hold
    | AgentPass(version: nat, works: bool, readable: bool)
    | AgentRestart
    | HostBoot(at: int)
    // everyone else
    | Tick(seconds: nat)
    | NodeChanged(node: Option<Node>)
    | PodsChanged(pods: map<string, Pod>)
    | PoolsChanged(pools: seq<Pool>)
    | SetWake(value: Option<string>)
    | SetDrain(value: Option<string>)
    | SetEmptySince(since: Option<int>)
    | SpecChanged(labels: map<string, string>, capacity: map<string, int>, provider: string, shutdownProvider: Option<string>)

  predicate ByController(e: Event) {
    e.Begin? || e.Call? || e.Crash?
  }

  function Edit(c: Cell, m: Machine): Cell {
    var stored := m.(version := c.m.version + 1);
    c.(m := stored, past := c.past + [stored])
  }

  /** The agent decides on whatever version of the Machine it read. */
  function AgentAct(c: Cell, seen: Machine, readable: bool): Act {
    Decide(c.agent, c.m.nodeName, seen, if readable then Some(c.boot) else None)
  }

  /** The effects an event outside the pass puts on the log. */
  function Noted(c: Cell, e: Event): seq<Effect> {
    match e
    case AgentPass(version, _, readable) =>
      if version < |c.past| && AgentAct(c, c.past[version], readable) == PowerOff
      then [PoweredOff(c.past[version].shutdownStart)] else []
    case SetWake(v) => if v == Some(TRIGGER) then [AskedWake] else []
    case SetDrain(v) => if v == Some(TRIGGER) then [AskedDrain] else []
    case _ => []
  }

  function Altered(c: Cell, e: Event): Cell {
    match e
    case Begin(duplicated) => Start(c, duplicated)
    case Call(_, _) => c
    case Crash => c.(flight := None)
    case AgentPass(version, works, readable) =>
      if version < |c.past| then
        var seen := c.past[version];
        c.(agent := Remember(c.agent, AgentAct(c, seen, readable), works, seen.shutdownStart))
      else c
    case AgentRestart => c.(agent := FRESH)
    case HostBoot(at) => c.(agent := FRESH, boot := at)
    case Tick(seconds) => c.(clock := c.clock + seconds)
    case NodeChanged(node) => c.(node := node)
    case PodsChanged(pods) => c.(pods := pods)
    case PoolsChanged(pools) => c.(pools := pools)
    case SetWake(v) => Edit(c, c.m.(wakeNow := v))
    case SetDrain(v) => Edit(c, c.m.(drainNow := v))
    case SetEmptySince(since) => Edit(c, c.m.(emptySince := since))
    case SpecChanged(labels, capacity, provider, shutdownProvider) =>
      Edit(c, c.m.(labels := labels, capacity := capacity, provider := provider, shutdownProvider := shutdownProvider))
  }

  /** Everything but the calls of the pass in flight. */
  function Happen(c: Cell, e: Event): Cell {
    Altered(c, e).(log := c.log + Noted(c, e))
  }

  function Apply(cfg: Config, c: Cell, e: Event): Cell {
    if e.Call? && c.flight.Some? then Exec(cfg, c, e.o, e.cached) else Happen(c, e)
  }

  function Run(cfg: Config, c: Cell, events: seq<Event>): Cell
    decreases events
  {
    if events == [] then c else Run(cfg, Apply(cfg, c, events[0]), events[1..])
  }

  /** The cells a run goes through. */
  function States(cfg: Config, c: Cell, events: seq<Event>): (states: seq<Cell>)
    ensures states != [] && states[0] == c
    decreases events
  {
    if events == [] then [c] else [c] + States(cfg, Apply(cfg, c, events[0]), events[1..])
  }

  lemma {:induction false} RunStep(cfg: Config, c: Cell, e: Event, rest: seq<Event>)
    ensures Run(cfg, c, [e] + rest) == Run(cfg, Apply(cfg, c, e), rest)
  {
    hide Apply;
    assert ([e] + rest)[1..] == rest;
  }

  /** One pass left to itself: its calls return as scripted, and the controller crashes where the
      script ends. */
  function Drive(cfg: Config, c: Cell, cached: seq<Pod>, script: seq<Outcome>): Cell
    decreases script
  {
    if c.flight.None? then c
    else if script == [] then c.(flight := None)
    else Drive(cfg, Exec(cfg, c, script[0], cached), cached, script[1..])
  }

  /** Such a pass is a run like any other, so what holds of every run holds of it. */
  lemma {:induction false} DriveIsRun(cfg: Config, c: Cell, cached: seq<Pod>, script: seq<Outcome>) returns (events: seq<Event>)
    ensures Run(cfg, c, events) == Drive(cfg, c, cached, script)
    ensures forall e :: e in events ==> ByController(e)
    decreases script
  {
    if c.flight.None? {
      events := [];
    } else if script == [] {
      events := [Crash];
      assert c.log + [] == c.log;
      assert Run(cfg, c, events) == Run(cfg, Apply(cfg, c, Crash), []);
    } else {
      var rest := DriveIsRun(cfg, Exec(cfg, c, script[0], cached), cached, script[1..]);
      events := [Call(script[0], cached)] + rest;
    }
  }

  /** Every event of the run satisfies `ok` in the state it happens in. */
  ghost predicate Always(cfg: Config, c: Cell, events: seq<Event>, ok: (Cell, Event) -> bool)
    decreases events
  {
    events == [] || (ok(c, events[0]) && Always(cfg, Apply(cfg, c, events[0]), events[1..], ok))
  }

  /** A Machine as an operator creates it. */
  predicate Created(c: Cell) {
    && c.m.state == Unset && c.m.wakeNow.None? && c.m.drainNow.None?
    && c.m.bootStart.None? && c.m.drainStart.None? && c.m.shutdownStart.None?
    && c.past == [c.m] && c.flight.None? && c.agent == FRESH && c.log == []
  }

  // ---------- what every run keeps about the pass in flight ----------

  /** The states a program counter belongs to. */
  predicate InState(pc: Pc, s: State) {
    match pc
    case SaveOff => s == Unset
    case OffTidy | OffReadNode | OffPowerOn | OffSaveBooting | OffSavePowerFailed => s == Off
    case BootTidy | BootReadNode | BootResend => s == Booting
    case UncordonRead(why) => if why.Waking? then s == Off || s == Booting else s == Draining
    case UncordonReread(why) => if why.Waking? then s == Off || s == Booting else s == Draining
    case UncordonPatch(why, _, _) => if why.Waking? then s == Off || s == Booting else s == Draining
    case TemplatePools | TemplateRead(_, _) | TemplatePatch(_, _) | DriftRead | SaveReady | SaveBootFailed =>
      s == Off || s == Booting
    case ClearWake => s == Ready || s == Failed
    case ReadyTidy | ReadyReadNode | StampLoss | SaveLost | MarkerRead | MarkerPatch | ClearLoss | DrainGate | SaveDraining =>
      s == Ready
    case ClearDrain(started) => s == (if started then Draining else Ready)
    case ReadDown | SavePoweredOff | SaveShutdownFailed => s == ShuttingDown
    case Return(_) => false
    case _ => s == Draining
  }

  /** A template write in flight does not name the reserved label. */
  predicate Unreserved(pc: Pc) {
    pc.TemplateRead? || pc.TemplatePatch? ==> ALWAYS_ON !in pc.labels
  }

  /** Only the pass in flight moves the state, and a version it still holds is the stored object. */
  ghost predicate Coherent(c: Cell) {
    && c.past != [] && c.past[|c.past| - 1] == c.m
    && (c.flight.Some? ==>
          var f := c.flight.value;
          && f.m.name == c.m.name && f.m.nodeName == c.m.nodeName
          && f.m.state == c.m.state && InState(f.pc, f.m.state) && Unreserved(f.pc)
          && f.m.version <= c.m.version
          && (f.m.version == c.m.version ==> f.m == c.m))
  }

  /** The state after a call is the one its save writes; otherwise it stays. */
  lemma NextState(c: Cell, f: Flight, o: Outcome)
    requires f.m.state == c.m.state
    ensures NextMachine(c, f, o).state == NextCopy(c, f, o).state
            == if Saves(c, f, o) then Edited(f.pc, f.m, c.clock).state else c.m.state
  {}

  lemma EditedKeepsIdentity(pc: Pc, m: Machine, now: int)
    ensures var e := Edited(pc, m, now);
            e.name == m.name && e.nodeName == m.nodeName && e.version == m.version
  {}

  /** A write yields a new version and the pass keeps what the server stored; identity never changes. */
  lemma NextVersion(c: Cell, f: Flight, o: Outcome)
    requires f.m.name == c.m.name && f.m.nodeName == c.m.nodeName
    requires f.m.version <= c.m.version && (f.m.version == c.m.version ==> f.m == c.m)
    ensures var m := NextMachine(c, f, o);
            var copy := NextCopy(c, f, o);
            && m.name == c.m.name && m.nodeName == c.m.nodeName && copy.name == m.name && copy.nodeName == m.nodeName
            && copy.version <= m.version
            && (copy.version == m.version ==> copy == m)
            && (m == c.m || m.version > c.m.version)
  {
    hide KindOf, Edited;
    EditedKeepsIdentity(f.pc, f.m, c.clock);
  }

  lemma AfterReadInState(cfg: Config, c: Cell, f: Flight, cached: seq<Pod>)
    requires InState(f.pc, f.m.state) && KindOf(f.pc) == Reading
    ensures var pc := AfterRead(cfg, c, f, cached);
            pc.Return? || InState(pc, f.m.state)
  {
    hide KindOf, Evictable, DrainPolicyFor, NoneKeeps, NodeReady, AlwaysOn, WentDownSince, CanPowerOn, PollWithin;
  }

  lemma AfterWriteInState(cfg: Config, c: Cell, f: Flight, m: Machine)
    requires InState(f.pc, f.m.state)
    requires m.state == if KindOf(f.pc) == Saving then Edited(f.pc, f.m, c.clock).state else f.m.state
    ensures KindOf(f.pc) == Saving ==> var pc := AfterSave(cfg, f.pc, m, c.clock); pc.Return? || InState(pc, m.state)
    ensures KindOf(f.pc) == PatchingNode ==> var pc := AfterNodePatch(f); pc.Return? || InState(pc, m.state)
    ensures KindOf(f.pc) in {DroppingDrain, DroppingWake} ==> var pc := AfterDrop(f.pc, m); pc.Return? || InState(pc, m.state)
  {}

  lemma NextPcInState(cfg: Config, c: Cell, f: Flight, o: Outcome, cached: seq<Pod>)
    requires f.m.state == c.m.state && InState(f.pc, f.m.state)
    ensures var m := NextCopy(c, f, o);
            var pc := NextPc(cfg, c, f, o, cached, m);
            pc.Return? || InState(pc, m.state)
  {
    hide AfterRead, AfterSave, AfterNodePatch, AfterDrop, NextCopy, NextMachine;
    NextState(c, f, o);
    if KindOf(f.pc) == Saving ==> Saves(c, f, o) {
      AfterWriteInState(cfg, c, f, NextCopy(c, f, o));
    }
    if KindOf(f.pc) == Reading {
      AfterReadInState(cfg, c, f, cached);
    }
  }

  lemma NextPcUnreserved(cfg: Config, c: Cell, f: Flight, o: Outcome, cached: seq<Pod>, m: Machine)
    requires Unreserved(f.pc)
    ensures Unreserved(NextPc(cfg, c, f, o, cached, m))
  {
    hide MergeTaints, MergesTouch;
  }

  lemma ExecCoherent(cfg: Config, c: Cell, o: Outcome, cached: seq<Pod>)
    requires Coherent(c) && c.flight.Some?
    ensures Coherent(Exec(cfg, c, o, cached))
  {
    var f := c.flight.value;
    NextState(c, f, o);
    NextPcInState(cfg, c, f, o, cached);
    NextPcUnreserved(cfg, c, f, o, cached, NextCopy(c, f, o));
    NextVersion(c, f, o);
  }

  /** The pass a fresh read of the Machine starts, if any. */
  function Taken(m: Machine): Option<Flight> {
    var pc := FirstPc(m.state);
    if pc.Return? then None else Some(Flight(pc, m, NO_EVIDENCE))
  }

  /** What each event outside the pass changes and leaves alone: never the state or its anchors, and
      history only grows. */
  lemma HappenFrame(c: Cell, e: Event)
    ensures var d := Happen(c, e);
            && d.m.state == c.m.state && d.m.name == c.m.name && d.m.nodeName == c.m.nodeName
            && d.m.bootStart == c.m.bootStart && d.m.drainStart == c.m.drainStart
            && d.m.shutdownStart == c.m.shutdownStart && d.m.notReadySince == c.m.notReadySince
            && d.past == c.past + (if d.m == c.m then [] else [d.m])
            && (d.m == c.m || d.m.version > c.m.version)
            && d.log == c.log + Noted(c, e)
            && d.node == (if e.NodeChanged? then e.node else c.node)
            && d.pods == (if e.PodsChanged? then e.pods else c.pods)
            && d.pools == (if e.PoolsChanged? then e.pools else c.pools)
            && d.clock == (if e.Tick? then c.clock + e.seconds else c.clock)
            && d.flight == (if e.Crash? then None
                            else if e.Begin? && c.flight.None? && !e.duplicated then Taken(c.m)
                            else c.flight)
            && d.m.wakeNow == (if e.SetWake? then e.value else c.m.wakeNow)
            && d.m.drainNow == (if e.SetDrain? then e.value else c.m.drainNow)
            && d.m.emptySince == (if e.SetEmptySince? then e.since else c.m.emptySince)
  {}

  /** No write of the controller touches what a pass reads of the Node: its readiness and whether it
      is always-on. */
  lemma NodeKeepsReadings(c: Cell, f: Flight, o: Outcome)
    requires Backing(c).Some? && Unreserved(f.pc)
    ensures var n := NextNode(c, f, o);
            n.Some? && NodeReady(n) == NodeReady(c.node) && AlwaysOn(n) == AlwaysOn(c.node)
  {}

  lemma CallKeepsReadings(cfg: Config, c: Cell, o: Outcome, cached: seq<Pod>)
    requires Coherent(c) && c.flight.Some?
    ensures var d := Exec(cfg, c, o, cached);
            && NodeReady(Backing(d)) == NodeReady(Backing(c))
            && AlwaysOn(Backing(d)) == AlwaysOn(Backing(c))
            && (Backing(d).Some? <==> Backing(c).Some?)
  {
    var f := c.flight.value;
    NextVersion(c, f, o);
    if Backing(c).Some? {
      NodeKeepsReadings(c, f, o);
      hide NextMachine, NextNode, NextPc, NextCopy;
    } else {
      hide NextMachine, NextPc, NextCopy;
    }
  }

  lemma HappenCoherent(c: Cell, e: Event)
    requires Coherent(c)
    ensures Coherent(Happen(c, e))
  {
    hide Happen;
    HappenFrame(c, e);
  }

  lemma ApplyCoherent(cfg: Config, c: Cell, e: Event)
    requires Coherent(c)
    ensures Coherent(Apply(cfg, c, e))
  {
    if e.Call? && c.flight.Some? {
      ExecCoherent(cfg, c, e.o, e.cached);
    } else {
      HappenCoherent(c, e);
    }
  }
}
