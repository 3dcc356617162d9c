/** While a Node's readiness and its always-on label stand still, its Machine settles: whatever
    happens to annotations, pods, pools, cordon and clock, it changes state at most five times. */
module NoFlapping {
  import opened Api
  import opened Lifecycle

  /** How often the state changes along a run. */
  function StateChanges(cfg: Config, c: Cell, events: seq<Event>): nat
    decreases events
  {
    if events == [] then 0
    else
      var d := Apply(cfg, c, events[0]);
      (if d.m.state != c.m.state then 1 else 0) + StateChanges(cfg, d, events[1..])
  }

  /** The rank of a state: it strictly falls with every state change while readings stand still. */
  function Rank(ready: bool, alwaysOn: bool, s: State): (r: nat)
    ensures r <= 5
  {
    if ready && !alwaysOn then
      match s
      case Unset => 5 case Off => 4 case Booting => 4 case Ready => 3 case Draining => 2 case ShuttingDown => 1 case Failed => 0
    else if ready then
      match s
      case Unset => 3 case Off => 2 case Booting => 2 case Ready => 1 case Draining => 2 case ShuttingDown => 1 case Failed => 0
    else
      match s
      case Unset => 3 case Off => 2 case Booting => 1 case Ready => if alwaysOn then 3 else 5
      case Draining => 4 case ShuttingDown => 3 case Failed => 0
  }

  function RankOf(c: Cell): nat {
    Rank(NodeReady(Backing(c)), AlwaysOn(Backing(c)), c.m.state)
  }

  /** The environment leaves the two readings alone. */
  predicate KeepsReadings(c: Cell, e: Event) {
    e.NodeChanged? ==>
      var node := if c.m.nodeName == "" then None else e.node;
      NodeReady(node) == NodeReady(Backing(c)) && AlwaysOn(node) == AlwaysOn(Backing(c))
  }

  /** The pass got to `pc` by reading the Node as it still is. */
  predicate Agrees(pc: Pc, s: State, ready: bool, alwaysOn: bool) {
    match pc
    case OffPowerOn | OffSaveBooting | OffSavePowerFailed | StampLoss | SaveLost | SavePoweredOff => !ready
    case TemplatePools | TemplateRead(_, _) | TemplatePatch(_, _) | DriftRead | SaveReady => ready
    case SaveBootFailed => s == Off ==> ready
    case SaveDraining => !alwaysOn
    case SaveAborted => alwaysOn
    case DrainReadPools | CordonRead(_) | DrainListCached(_) | DrainListFresh | SaveShuttingDown | SaveDrainFailed => !alwaysOn
    case UncordonRead(why) => if why == Waking then ready else alwaysOn == (why == Aborting)
    case UncordonReread(why) => if why == Waking then ready else alwaysOn == (why == Aborting)
    case UncordonPatch(why, _, _) => if why == Waking then ready else alwaysOn == (why == Aborting)
    case _ => true
  }

  ghost predicate Steady(c: Cell) {
    && Coherent(c)
    && (c.flight.Some? ==>
          Agrees(c.flight.value.pc, c.m.state, NodeReady(Backing(c)), AlwaysOn(Backing(c))))
  }

  lemma AfterReadAgrees(cfg: Config, c: Cell, f: Flight, cached: seq<Pod>)
    requires f.m.state == c.m.state && InState(f.pc, f.m.state) && KindOf(f.pc) == Reading
    requires Agrees(f.pc, c.m.state, NodeReady(Backing(c)), AlwaysOn(Backing(c)))
    ensures Agrees(AfterRead(cfg, c, f, cached), c.m.state, NodeReady(Backing(c)), AlwaysOn(Backing(c)))
  {}

  lemma AfterWriteAgrees(cfg: Config, c: Cell, f: Flight, m: Machine)
    requires f.m.state == c.m.state && InState(f.pc, f.m.state)
    requires Agrees(f.pc, c.m.state, NodeReady(Backing(c)), AlwaysOn(Backing(c)))
    ensures KindOf(f.pc) == Saving ==> Agrees(AfterSave(cfg, f.pc, m, c.clock), m.state, NodeReady(Backing(c)), AlwaysOn(Backing(c)))
    ensures KindOf(f.pc) == PatchingNode ==> Agrees(AfterNodePatch(f), c.m.state, NodeReady(Backing(c)), AlwaysOn(Backing(c)))
    ensures KindOf(f.pc) in {DroppingDrain, DroppingWake} ==> Agrees(AfterDrop(f.pc, m), m.state, NodeReady(Backing(c)), AlwaysOn(Backing(c)))
  {}

  lemma TemplatingAgrees(cfg: Config, c: Cell, f: Flight, o: Outcome)
    requires KindOf(f.pc) == Templating && Agrees(f.pc, c.m.state, NodeReady(Backing(c)), AlwaysOn(Backing(c)))
    ensures Agrees(AfterTemplating(cfg, c, f, o), c.m.state, NodeReady(Backing(c)), AlwaysOn(Backing(c)))
  {}

  lemma AgreesNext(cfg: Config, c: Cell, f: Flight, o: Outcome, cached: seq<Pod>)
    requires f.m.state == c.m.state && InState(f.pc, f.m.state)
    requires Agrees(f.pc, c.m.state, NodeReady(Backing(c)), AlwaysOn(Backing(c)))
    ensures var m := NextCopy(c, f, o);
            Agrees(NextPc(cfg, c, f, o, cached, m), m.state, NodeReady(Backing(c)), AlwaysOn(Backing(c)))
  {
    hide AfterRead, AfterSave, AfterNodePatch, AfterDrop, AfterTemplating, AfterEviction, NextCopy, NextMachine, Backing, NodeReady, AlwaysOn,
         Agrees, InState, Edited;
    NextState(c, f, o);
    AfterWriteAgrees(cfg, c, f, NextCopy(c, f, o));
    OtherAgrees(c, f, o);
    match KindOf(f.pc)
    case Reading => AfterReadAgrees(cfg, c, f, cached);
    case Templating => TemplatingAgrees(cfg, c, f, o);
    case _ =>
  }

  lemma OtherAgrees(c: Cell, f: Flight, o: Outcome)
    requires Agrees(f.pc, c.m.state, NodeReady(Backing(c)), AlwaysOn(Backing(c)))
    ensures forall r, s :: Agrees(Return(r), s, NodeReady(Backing(c)), AlwaysOn(Backing(c)))
    ensures KindOf(f.pc) == PoweringOn ==>
              && Agrees(OffSaveBooting, c.m.state, NodeReady(Backing(c)), AlwaysOn(Backing(c)))
              && Agrees(OffSavePowerFailed, c.m.state, NodeReady(Backing(c)), AlwaysOn(Backing(c)))
    ensures f.pc.DrainEvict? ==> Agrees(AfterEviction(f.pc.todo, o), c.m.state, NodeReady(Backing(c)), AlwaysOn(Backing(c)))
    ensures KindOf(f.pc) == Ending ==> f.pc.Return?
  {}

  lemma SaveLowersRank(c: Cell, f: Flight, o: Outcome)
    requires f.m.state == c.m.state && InState(f.pc, f.m.state)
    requires Agrees(f.pc, c.m.state, NodeReady(Backing(c)), AlwaysOn(Backing(c)))
    ensures var s := NextMachine(c, f, o).state;
            s == c.m.state ||
            Rank(NodeReady(Backing(c)), AlwaysOn(Backing(c)), s) < Rank(NodeReady(Backing(c)), AlwaysOn(Backing(c)), c.m.state)
  {
    NextState(c, f, o);
  }

  lemma ExecSteady(cfg: Config, c: Cell, o: Outcome, cached: seq<Pod>)
    requires Steady(c) && c.flight.Some?
    ensures var d := Exec(cfg, c, o, cached);
            Steady(d) && RankOf(d) + (if d.m.state != c.m.state then 1 else 0) <= RankOf(c)
  {
    var f := c.flight.value;
    ExecCoherent(cfg, c, o, cached);
    CallKeepsReadings(cfg, c, o, cached);
    AgreesNext(cfg, c, f, o, cached);
    SaveLowersRank(c, f, o);
    NextState(c, f, o);
  }

  lemma HappenSteady(c: Cell, e: Event)
    requires Steady(c) && KeepsReadings(c, e)
    ensures Steady(Happen(c, e)) && Happen(c, e).m.state == c.m.state && RankOf(Happen(c, e)) == RankOf(c)
  {
    hide Happen, Coherent;
    HappenCoherent(c, e);
    HappenFrame(c, e);
  }

  lemma ApplySteady(cfg: Config, c: Cell, e: Event)
    requires Steady(c) && KeepsReadings(c, e)
    ensures var d := Apply(cfg, c, e);
            Steady(d) && RankOf(d) + (if d.m.state != c.m.state then 1 else 0) <= RankOf(c)
  {
    if e.Call? && c.flight.Some? {
      ExecSteady(cfg, c, e.o, e.cached);
    } else {
      HappenSteady(c, e);
    }
  }

  lemma {:induction false} ChangesWithinRank(cfg: Config, c: Cell, events: seq<Event>)
    requires Steady(c) && Always(cfg, c, events, KeepsReadings)
    ensures StateChanges(cfg, c, events) + RankOf(Run(cfg, c, events)) <= RankOf(c)
    decreases events
  {
    if events == [] {
    } else {
      ApplySteady(cfg, c, events[0]);
      var d := Apply(cfg, c, events[0]);
      ChangesWithinRank(cfg, d, events[1..]);
    }
  }

  /** From any state between two passes, a window in which readiness and the always-on label stand
      still holds at most five state changes. */
  lemma {:induction false} AtMostFiveChanges(cfg: Config, c: Cell, events: seq<Event>)
    requires Coherent(c) && c.flight.None?
    requires Always(cfg, c, events, KeepsReadings)
    ensures StateChanges(cfg, c, events) <= 5
  {
    ChangesWithinRank(cfg, c, events);
  }
}
