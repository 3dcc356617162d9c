/** Booting, Draining and ShuttingDown are transient: their anchors are always set, a pass past the
    deadline leaves them, and a pass that stays comes back in time. */
module Deadlines {
  import opened Api
  import opened Lifecycle

  /** Booting and Draining carry their anchor, and ShutdownStartTime is set exactly in ShuttingDown. */
  predicate AnchorsSet(m: Machine) {
    && (m.state == Booting ==> m.bootStart.Some?)
    && (m.state == Draining ==> m.drainStart.Some?)
    && (m.state == ShuttingDown <==> m.shutdownStart.Some?)
  }

  ghost predicate Anchored(c: Cell) {
    Coherent(c) && AnchorsSet(c.m)
  }

  lemma SaveAnchored(pc: Pc, m: Machine, now: int)
    requires InState(pc, m.state) && AnchorsSet(m) && KindOf(pc) == Saving
    ensures AnchorsSet(Edited(pc, m, now))
  {}

  lemma CallAnchored(c: Cell, f: Flight, o: Outcome)
    requires f.m.state == c.m.state && InState(f.pc, f.m.state)
    requires f.m.version == c.m.version ==> f.m == c.m
    requires AnchorsSet(c.m)
    ensures AnchorsSet(NextMachine(c, f, o))
  {
    hide Edited, KindOf, InState;
    if Saves(c, f, o) {
      SaveAnchored(f.pc, f.m, c.clock);
    }
  }

  lemma ApplyAnchored(cfg: Config, c: Cell, e: Event)
    requires Anchored(c)
    ensures Anchored(Apply(cfg, c, e))
  {
    ApplyCoherent(cfg, c, e);
    if e.Call? && c.flight.Some? {
      CallAnchored(c, c.flight.value, e.o);
    } else {
      HappenFrame(c, e);
    }
  }

  /** In every run of a new Machine, Booting and Draining have their anchor, and ShutdownStartTime is
      set exactly in ShuttingDown. */
  lemma {:induction false} AnchorsAlwaysSet(cfg: Config, c: Cell, events: seq<Event>)
    requires Created(c) || Anchored(c)
    ensures Anchored(Run(cfg, c, events))
    decreases events
  {
    if events == [] {
    } else {
      ApplyAnchored(cfg, c, events[0]);
      var d := Apply(cfg, c, events[0]);
      AnchorsAlwaysSet(cfg, d, events[1..]);
    }
  }

  // ---------- a pass past the deadline ----------

  /** The deadline of the state the Machine is in has passed. */
  predicate PastDeadline(cfg: Config, c: Cell) {
    match c.m.state
    case Booting => BootTimedOut(cfg, c.m, c.clock)
    case Draining => DrainTimedOut(c.m, DrainPolicyFor(c).timeout, c.clock)
    case ShuttingDown => ShutdownTimedOut(cfg, c.m, c.clock)
    case _ => false
  }

  /** What the pass's decision rests on. */
  datatype Readings = Readings(ready: bool, alwaysOn: bool, down: bool)

  function ReadingsOf(c: Cell): Readings {
    Readings(NodeReady(Backing(c)), AlwaysOn(Backing(c)), WentDownSince(Backing(c), c.m.shutdownStart))
  }

  /** Where a transient state is left for. */
  function Target(s: State, r: Readings): State {
    match s
    case Booting => if r.ready then Ready else Failed
    case Draining => if r.alwaysOn then Ready else Failed
    case _ => if r.down then Off else Failed
  }

  predicate MayLeaveFor(s: State, t: State) {
    t == Failed || (if s == ShuttingDown then t == Off else t == Ready)
  }

  /** Every call succeeds, the controller neither crashes nor starts over, and no pool edit makes the
      drain budget longer; anything else may happen between two calls. */
  predicate ErrorFree(c: Cell, e: Event) {
    && !e.Crash? && !e.Begin? && (e.Call? ==> e.o == Done)
    && (e.PoolsChanged? ==> PolicyOf(Matching(e.pools, c.m.name)).timeout <= DrainPolicyFor(c).timeout)
  }

  /** The Node reads the same throughout. */
  predicate Steady(c: Cell, e: Event) {
    e.NodeChanged? ==> ReadingsOf(c.(node := e.node)) == ReadingsOf(c)
  }

  /** While the pass is under way nobody edits the Machine and the Node is not deleted: there is no race
      the pass could lose. */
  predicate Unraced(c: Cell, e: Event) {
    c.flight.Some? ==>
      && !e.SetWake? && !e.SetDrain? && !e.SetEmptySince? && !e.SpecChanged?
      && (e.NodeChanged? && c.node.Some? ==> e.node.Some?)
  }

  function CallsIn(events: seq<Event>): nat {
    if events == [] then 0 else (if events[0].Call? then 1 else 0) + CallsIn(events[1..])
  }

  const MOST_CALLS := 11

  /** How many calls such a pass still makes at most. */
  function Left(pc: Pc): (n: nat)
    ensures n <= MOST_CALLS
  {
    match pc
    case BootTidy => 11 case BootReadNode => 10
    case UncordonRead(why) => if why == Waking then 9 else 4
    case UncordonReread(why) => if why == Waking then 8 else 3
    case UncordonPatch(why, _, _) => if why == Waking then 7 else 2
    case TemplatePools => 6 case TemplateRead(_, _) => 5 case TemplatePatch(_, _) => 4 case DriftRead => 3
    case SaveReady => 2 case SaveBootFailed => 2 case ClearWake => 1
    case DrainTidy => 7 case DrainReadNode => 6 case DrainReadPools => 5
    case SaveAborted => 1 case SaveDrainFailed => 1
    case ReadDown => 2 case SavePoweredOff => 1 case SaveShutdownFailed => 1
    case _ => 0
  }

  /** On the way into service, and still on a Node that reads ready. */
  predicate Promoting(pc: Pc) {
    || pc.TemplatePools? || pc.TemplateRead? || pc.TemplatePatch? || pc.DriftRead? || pc.SaveReady?
    || ((pc.UncordonRead? || pc.UncordonReread? || pc.UncordonPatch?) && pc.why == Waking)
  }

  predicate Undecided(pc: Pc) {
    pc.BootTidy? || pc.BootReadNode? || pc.DrainTidy? || pc.DrainReadNode? || pc.ReadDown?
  }

  /** A pass past the deadline of `s` has not decided yet and still is past it, or is on its way to
      leave; if the Node reads as `r` throughout (`steady`), it leaves for the state that calls for, and
      if no one races it (`calm`), the Node of a pending patch is there. */
  predicate Leaving(cfg: Config, c: Cell, pc: Pc, s: State, r: Readings, steady: bool, calm: bool) {
    && Left(pc) > 0
    && (Undecided(pc) || pc.DrainReadPools? ==> PastDeadline(cfg, c))
    && (if pc.ClearWake? then MayLeaveFor(s, c.m.state) else c.m.state == s)
    && (calm && (pc.UncordonPatch? || pc.TemplatePatch?) ==> Backing(c).Some?)
    && (steady ==>
          && (Undecided(pc) ==> ReadingsOf(c) == r)
          && (pc.DrainReadPools? ==> Target(s, r) == Failed)
          && (Promoting(pc) ==> r.ready && NodeReady(Backing(c)))
          && (pc.SaveBootFailed? ==> !r.ready)
          && (pc.ClearWake? ==> c.m.state == Target(s, r))
          && (pc.SavePoweredOff? ==> r.down) && (pc.SaveShutdownFailed? ==> !r.down)
          && ((pc.UncordonRead? || pc.UncordonReread? || pc.UncordonPatch?) && pc.why != Waking ==> r.alwaysOn == (pc.why == Aborting))
          && (pc.SaveAborted? ==> r.alwaysOn) && (pc.SaveDrainFailed? ==> !r.alwaysOn))
  }

  /** The pass's copy carries the stored anchors. */
  predicate SameAnchors(a: Machine, b: Machine) {
    a.bootStart == b.bootStart && a.drainStart == b.drainStart && a.shutdownStart == b.shutdownStart
  }

  /** It ended by leaving the state, or having lost a race for the Machine or the Node. */
  predicate Ended(c: Cell, s: State, r: Readings, steady: bool, calm: bool) {
    || (MayLeaveFor(s, c.m.state) && (steady ==> c.m.state == Target(s, r)))
    || (!calm && c.m.state == s && c.requeue == Backoff)
  }

  ghost predicate Bound(cfg: Config, c: Cell, s: State, r: Readings, steady: bool, calm: bool) {
    && Coherent(c) && Transient(s)
    && (c.flight.None? ==> Ended(c, s, r, steady, calm))
    && (c.flight.Some? ==>
          && SameAnchors(c.flight.value.m, c.m) && (calm ==> c.flight.value.m == c.m)
          && Leaving(cfg, c, c.flight.value.pc, s, r, steady, calm))
  }

  predicate Transient(s: State) {
    s == Booting || s == Draining || s == ShuttingDown
  }

  /** The pass goes on from `from` to `pc` with `m` stored: still leaving, with fewer calls to go, or
      ended as it should. */
  predicate GoesOn(cfg: Config, c: Cell, m: Machine, from: Pc, pc: Pc, s: State, r: Readings, steady: bool, calm: bool) {
    if pc.Return? then
      || (MayLeaveFor(s, m.state) && (steady ==> m.state == Target(s, r)))
      || (!calm && m.state == s && pc.requeue == Backoff)
    else
      Leaving(cfg, c.(m := m), pc, s, r, steady, calm) && Left(pc) < Left(from) && (Undecided(pc) ==> Undecided(from))
  }

  /** The read that decides: in Booting. */
  lemma LeavingBootRead(cfg: Config, c: Cell, f: Flight, cached: seq<Pod>, s: State, r: Readings, steady: bool, calm: bool)
    requires Transient(s) && Leaving(cfg, c, f.pc, s, r, steady, calm) && SameAnchors(f.m, c.m) && InState(f.pc, c.m.state)
    requires f.pc.BootReadNode?
    ensures GoesOn(cfg, c, c.m, f.pc, AfterRead(cfg, c, f, cached), s, r, steady, calm)
  {
    hide KindOf, DrainPolicyFor, AfterUncordonRead, AfterMarkerRead, AfterCachedList, AfterDownRead, AfterReadyRead;
  }

  /** The read that decides: in Draining. */
  lemma LeavingDrainRead(cfg: Config, c: Cell, f: Flight, cached: seq<Pod>, s: State, r: Readings, steady: bool, calm: bool)
    requires Transient(s) && Leaving(cfg, c, f.pc, s, r, steady, calm) && SameAnchors(f.m, c.m) && InState(f.pc, c.m.state)
    requires f.pc.DrainReadNode? || f.pc.DrainReadPools?
    ensures GoesOn(cfg, c, c.m, f.pc, AfterRead(cfg, c, f, cached), s, r, steady, calm)
  {
    hide KindOf, PolicyOf, Matching, AfterUncordonRead, AfterMarkerRead, AfterCachedList, AfterDownRead, AfterReadyRead, AfterWakeRead;
  }

  /** The read that decides: in ShuttingDown. */
  lemma LeavingDownRead(cfg: Config, c: Cell, f: Flight, cached: seq<Pod>, s: State, r: Readings, steady: bool, calm: bool)
    requires Transient(s) && Leaving(cfg, c, f.pc, s, r, steady, calm) && SameAnchors(f.m, c.m) && InState(f.pc, c.m.state)
    requires f.pc.ReadDown?
    ensures GoesOn(cfg, c, c.m, f.pc, AfterRead(cfg, c, f, cached), s, r, steady, calm)
  {
    hide KindOf, DrainPolicyFor, AfterUncordonRead, AfterMarkerRead, AfterCachedList, AfterReadyRead, AfterWakeRead;
  }

  /** The reads after it. */
  lemma LeavingReread(cfg: Config, c: Cell, f: Flight, cached: seq<Pod>, s: State, r: Readings, steady: bool, calm: bool)
    requires Transient(s) && Leaving(cfg, c, f.pc, s, r, steady, calm)
    requires f.pc.UncordonRead? || f.pc.UncordonReread? || f.pc.DriftRead?
    requires InState(f.pc, c.m.state)
    ensures GoesOn(cfg, c, c.m, f.pc, AfterRead(cfg, c, f, cached), s, r, steady, calm)
  {}

  lemma LeavingRead(cfg: Config, c: Cell, f: Flight, cached: seq<Pod>, s: State, r: Readings, steady: bool, calm: bool)
    requires Transient(s) && Leaving(cfg, c, f.pc, s, r, steady, calm) && KindOf(f.pc) == Reading
    requires SameAnchors(f.m, c.m) && InState(f.pc, c.m.state)
    ensures GoesOn(cfg, c, c.m, f.pc, AfterRead(cfg, c, f, cached), s, r, steady, calm)
  {
    hide AfterRead, GoesOn, InState;
    if f.pc.BootReadNode? {
      LeavingBootRead(cfg, c, f, cached, s, r, steady, calm);
    } else if f.pc.DrainReadNode? || f.pc.DrainReadPools? {
      LeavingDrainRead(cfg, c, f, cached, s, r, steady, calm);
    } else if f.pc.ReadDown? {
      LeavingDownRead(cfg, c, f, cached, s, r, steady, calm);
    } else {
      LeavingReread(cfg, c, f, cached, s, r, steady, calm);
    }
  }

  lemma LeavingTemplate(cfg: Config, c: Cell, f: Flight, s: State, r: Readings, steady: bool, calm: bool)
    requires Transient(s) && Leaving(cfg, c, f.pc, s, r, steady, calm) && KindOf(f.pc) == Templating
    requires InState(f.pc, c.m.state)
    ensures GoesOn(cfg, c, c.m, f.pc, AfterTemplating(cfg, c, f, Done), s, r, steady, calm)
  {
    hide Matching;
  }

  lemma LeavingPatch(cfg: Config, c: Cell, f: Flight, s: State, r: Readings, steady: bool, calm: bool)
    requires Transient(s) && Leaving(cfg, c, f.pc, s, r, steady, calm) && KindOf(f.pc) == PatchingNode
    requires InState(f.pc, c.m.state)
    ensures GoesOn(cfg, c, c.m, f.pc, AfterNodePatch(f), s, r, steady, calm)
  {}

  lemma LeavingSave(cfg: Config, c: Cell, f: Flight, m: Machine, s: State, r: Readings, steady: bool, calm: bool)
    requires Transient(s) && Leaving(cfg, c, f.pc, s, r, steady, calm) && KindOf(f.pc) == Saving
    requires InState(f.pc, c.m.state) && f.m.state == c.m.state && m.state == Edited(f.pc, f.m, c.clock).state
    ensures GoesOn(cfg, c, m, f.pc, AfterSave(cfg, f.pc, m, c.clock), s, r, steady, calm)
  {}

  lemma LeavingDrop(cfg: Config, c: Cell, f: Flight, m: Machine, copy: Machine, s: State, r: Readings, steady: bool, calm: bool)
    requires Transient(s) && Leaving(cfg, c, f.pc, s, r, steady, calm) && KindOf(f.pc) in {DroppingDrain, DroppingWake}
    requires InState(f.pc, c.m.state) && SameAnchors(m, c.m) && m.state == c.m.state && m.name == c.m.name && m.nodeName == c.m.nodeName
    ensures GoesOn(cfg, c, m, f.pc, AfterDrop(f.pc, copy), s, r, steady, calm)
  {
    hide PolicyOf, Matching;
  }

  /** Only a save moves the anchors, and then the copy is what was stored. */
  lemma CallKeepsAnchors(c: Cell, f: Flight, o: Outcome)
    requires SameAnchors(f.m, c.m)
    ensures SameAnchors(NextCopy(c, f, o), NextMachine(c, f, o))
    ensures KindOf(f.pc) != Saving ==> SameAnchors(NextMachine(c, f, o), c.m)
    ensures KindOf(f.pc) !in {Saving, DroppingDrain, DroppingWake, PatchingLoss} ==> NextMachine(c, f, o) == c.m
    ensures KindOf(f.pc) == Saving && !Saves(c, f, o) ==> NextMachine(c, f, o) == c.m
    ensures Saves(c, f, o) || f.m == c.m ==> NextCopy(c, f, o) == NextMachine(c, f, o)
  {
    hide Edited, KindOf;
  }

  lemma LeavingNext(cfg: Config, c: Cell, f: Flight, cached: seq<Pod>, s: State, r: Readings, steady: bool, calm: bool)
    requires Coherent(c) && c.flight == Some(f) && Transient(s)
    requires SameAnchors(f.m, c.m) && (calm ==> f.m == c.m) && Leaving(cfg, c, f.pc, s, r, steady, calm)
    ensures GoesOn(cfg, c, NextMachine(c, f, Done), f.pc, NextPc(cfg, c, f, Done, cached, NextCopy(c, f, Done)), s, r, steady, calm)
  {
    hide NextMachine, NextCopy, AfterRead, AfterTemplating, AfterNodePatch, AfterSave, AfterDrop, GoesOn, Edited;
    NextState(c, f, Done);
    NextVersion(c, f, Done);
    CallKeepsAnchors(c, f, Done);
    LeavingKind(cfg, c, f.pc, s, r, steady, calm);
    match KindOf(f.pc)
    case Reading => LeavingRead(cfg, c, f, cached, s, r, steady, calm);
    case Templating => LeavingTemplate(cfg, c, f, s, r, steady, calm);
    case PatchingNode =>
      LeavingPatch(cfg, c, f, s, r, steady, calm);
      if !Lands(c, Done) {
        BackoffEnds(cfg, c, f.pc, s, r, steady, calm);
      }
    case Saving =>
      if Saves(c, f, Done) {
        LeavingSave(cfg, c, f, NextMachine(c, f, Done), s, r, steady, calm);
      } else {
        BackoffEnds(cfg, c, f.pc, s, r, steady, calm);
      }
    case _ => LeavingDrop(cfg, c, f, NextMachine(c, f, Done), NextCopy(c, f, Done), s, r, steady, calm);
  }

  lemma LeavingKind(cfg: Config, c: Cell, pc: Pc, s: State, r: Readings, steady: bool, calm: bool)
    requires Leaving(cfg, c, pc, s, r, steady, calm)
    ensures KindOf(pc) in {Reading, Templating, PatchingNode, Saving, DroppingDrain, DroppingWake}
    ensures calm && KindOf(pc) == PatchingNode ==> Backing(c).Some?
  {}

  lemma BackoffEnds(cfg: Config, c: Cell, from: Pc, s: State, r: Readings, steady: bool, calm: bool)
    requires Leaving(cfg, c, from, s, r, steady, calm) && !from.ClearWake? && !calm
    ensures GoesOn(cfg, c, c.m, from, Return(Backoff), s, r, steady, calm)
  {}

  lemma CallBound(cfg: Config, c: Cell, cached: seq<Pod>, s: State, r: Readings, steady: bool, calm: bool)
    requires Bound(cfg, c, s, r, steady, calm) && c.flight.Some?
    ensures var d := Exec(cfg, c, Done, cached);
            Bound(cfg, d, s, r, steady, calm) && (d.flight.Some? ==> Left(d.flight.value.pc) < Left(c.flight.value.pc))
  {
    hide NextMachine, NextNode, NextPods, NextPc, NextCopy, NextEvidence, Effects, Leaving, Left, PolicyOf, Matching;
    var f := c.flight.value;
    var d := Exec(cfg, c, Done, cached);
    ExecCoherent(cfg, c, Done, cached);
    CallKeepsReadings(cfg, c, Done, cached);
    CallKeepsAnchors(c, f, Done);
    NextVersion(c, f, Done);
    LeavingNext(cfg, c, f, cached, s, r, steady, calm);
    if d.flight.Some? {
      UndecidedKeepsNode(cfg, c, f, s, r, steady, calm);
      SameLeaving(cfg, c.(m := d.m), d, d.flight.value.pc, s, r, steady, calm);
    }
  }

  /** A pass that stays undecided has only dropped a trigger. */
  lemma UndecidedKeepsNode(cfg: Config, c: Cell, f: Flight, s: State, r: Readings, steady: bool, calm: bool)
    requires Leaving(cfg, c, f.pc, s, r, steady, calm)
    ensures Undecided(f.pc) ==> NextNode(c, f, Done) == c.node
  {}

  /** Whether a pass is leaving depends on the Machine, the clock, the budget and the readings alone. */
  lemma SameLeaving(cfg: Config, c: Cell, d: Cell, pc: Pc, s: State, r: Readings, steady: bool, calm: bool)
    requires Leaving(cfg, c, pc, s, r, steady, calm) && Transient(s)
    requires c.m.state == d.m.state && SameAnchors(c.m, d.m) && c.clock <= d.clock
    requires DrainPolicyFor(d).timeout <= DrainPolicyFor(c).timeout
    requires steady ==> NodeReady(Backing(c)) == NodeReady(Backing(d)) && (Undecided(pc) ==> ReadingsOf(c) == ReadingsOf(d))
    requires calm && Backing(c).Some? ==> Backing(d).Some?
    ensures Leaving(cfg, d, pc, s, r, steady, calm)
  {
    hide PolicyOf, Matching, Left;
  }

  lemma HappenBound(cfg: Config, c: Cell, e: Event, s: State, r: Readings, steady: bool, calm: bool)
    requires Bound(cfg, c, s, r, steady, calm) && ErrorFree(c, e) && (steady ==> Steady(c, e)) && (calm ==> Unraced(c, e)) && !(e.Call? && c.flight.Some?)
    ensures Bound(cfg, Happen(c, e), s, r, steady, calm) && Happen(c, e).flight == c.flight
  {
    hide Happen, Leaving, Coherent, PolicyOf, Matching;
    HappenCoherent(c, e);
    HappenFrame(c, e);
    HappenRequeue(c, e);
    if c.flight.Some? {
      if calm {
        HappenKeepsMachine(c, e);
      }
      SameLeaving(cfg, c, Happen(c, e), c.flight.value.pc, s, r, steady, calm);
    }
  }

  lemma HappenKeepsMachine(c: Cell, e: Event)
    requires !e.SetWake? && !e.SetDrain? && !e.SetEmptySince? && !e.SpecChanged?
    ensures Happen(c, e).m == c.m
  {}

  lemma HappenRequeue(c: Cell, e: Event)
    requires !e.Begin?
    ensures Happen(c, e).requeue == c.requeue
  {}

  lemma {:induction false} RunBound(cfg: Config, c: Cell, events: seq<Event>, s: State, r: Readings, steady: bool, calm: bool)
    requires Bound(cfg, c, s, r, steady, calm) && Always(cfg, c, events, ErrorFree)
    requires (steady ==> Always(cfg, c, events, Steady)) && (calm ==> Always(cfg, c, events, Unraced))
    ensures var d := Run(cfg, c, events);
            && Bound(cfg, d, s, r, steady, calm)
            && (c.flight.Some? && CallsIn(events) >= Left(c.flight.value.pc) ==> d.flight.None?)
            && (c.flight.None? ==> d.flight.None?)
    decreases events
  {
    hide Exec, Happen, Bound;
    if events == [] {
      if c.flight.Some? {
        BoundHasCalls(cfg, c, s, r, steady, calm);
      }
    } else {
      var e := events[0];
      if e.Call? && c.flight.Some? {
        CallBound(cfg, c, e.cached, s, r, steady, calm);
      } else {
        HappenBound(cfg, c, e, s, r, steady, calm);
      }
      var d := Apply(cfg, c, e);
      RunBound(cfg, d, events[1..], s, r, steady, calm);
    }
  }

  lemma BoundHasCalls(cfg: Config, c: Cell, s: State, r: Readings, steady: bool, calm: bool)
    requires Bound(cfg, c, s, r, steady, calm) && c.flight.Some?
    ensures Left(c.flight.value.pc) > 0
  {}

  lemma StartBound(cfg: Config, c: Cell, steady: bool, calm: bool)
    requires Coherent(c) && c.flight.None? && PastDeadline(cfg, c)
    ensures Bound(cfg, Start(c, false), c.m.state, ReadingsOf(c), steady, calm) && Start(c, false).flight.Some?
  {}

  /** The pass ended on the error backoff with the state unchanged, having lost a race. */
  ghost predicate LostRace(cfg: Config, c: Cell, events: seq<Event>) {
    var d := Run(cfg, Start(c, false), events);
    d.m.state == c.m.state && d.requeue == Backoff && !Always(cfg, Start(c, false), events, Unraced)
  }

  /** A pass over a transient state past its deadline, all of whose calls succeed, whatever happens
      between them: after at most eleven calls it has ended, and then the Machine has left the state -
      Booting and Draining for Ready or Failed, ShuttingDown for Off or Failed - unless someone edited
      the Machine or deleted the Node under the pass and it ended on the error backoff. */
  lemma {:induction false} PassPastDeadlineLeaves(cfg: Config, c: Cell, events: seq<Event>)
    requires Coherent(c) && c.flight.None? && PastDeadline(cfg, c)
    requires Always(cfg, Start(c, false), events, ErrorFree)
    ensures var d := Run(cfg, Start(c, false), events);
            && (CallsIn(events) >= MOST_CALLS ==> d.flight.None?)
            && (d.flight.None? ==> MayLeaveFor(c.m.state, d.m.state) || LostRace(cfg, c, events))
  {
    hide Start, Apply;
    var calm := Always(cfg, Start(c, false), events, Unraced);
    StartBound(cfg, c, false, calm);
    RunBound(cfg, Start(c, false), events, c.m.state, ReadingsOf(c), false, calm);
  }

  /** If the Node reads the same throughout, it leaves for the state that reading calls for: Booting
      for Ready exactly if the Node is ready, Draining for Ready exactly if it is always-on,
      ShuttingDown for Off exactly if the Node went down. */
  lemma {:induction false} PassPastDeadlineTarget(cfg: Config, c: Cell, events: seq<Event>)
    requires Coherent(c) && c.flight.None? && PastDeadline(cfg, c)
    requires Always(cfg, Start(c, false), events, ErrorFree) && Always(cfg, Start(c, false), events, Steady)
    ensures var d := Run(cfg, Start(c, false), events);
            d.flight.None? ==> d.m.state == Target(c.m.state, ReadingsOf(c)) || LostRace(cfg, c, events)
  {
    hide Start, Apply;
    var calm := Always(cfg, Start(c, false), events, Unraced);
    StartBound(cfg, c, true, calm);
    RunBound(cfg, Start(c, false), events, c.m.state, ReadingsOf(c), true, calm);
  }

  // ---------- a pass that stays ----------

  /** One clock reading per pass. */
  predicate ClockStands(c: Cell, e: Event) {
    e.Tick? ==> c.flight.None?
  }

  /** The pass's copy shows the stored anchors, and the boot budget was not used up when it was read. */
  ghost predicate Timely(cfg: Config, c: Cell) {
    && Anchored(c)
    && (c.flight.Some? ==>
          var f := c.flight.value;
          && f.m.bootStart == c.m.bootStart && f.m.shutdownStart == c.m.shutdownStart
          && (f.pc.BootResend? ==> !BootTimedOut(cfg, f.m, c.clock)))
  }

  lemma CallTimely(cfg: Config, c: Cell, f: Flight, o: Outcome, cached: seq<Pod>)
    requires f.m.bootStart == c.m.bootStart && f.m.shutdownStart == c.m.shutdownStart
    ensures var m := NextMachine(c, f, o);
            var copy := NextCopy(c, f, o);
            && copy.bootStart == m.bootStart && copy.shutdownStart == m.shutdownStart
            && (NextPc(cfg, c, f, o, cached, copy).BootResend? ==> copy.bootStart == f.m.bootStart && !BootTimedOut(cfg, f.m, c.clock))
  {}

  lemma ApplyTimely(cfg: Config, c: Cell, e: Event)
    requires Timely(cfg, c) && ClockStands(c, e)
    ensures Timely(cfg, Apply(cfg, c, e))
  {
    ApplyAnchored(cfg, c, e);
    if e.Call? && c.flight.Some? {
      CallTimely(cfg, c, c.flight.value, e.o, e.cached);
    } else {
      HappenFrame(c, e);
    }
  }

  lemma {:induction false} RunTimely(cfg: Config, c: Cell, events: seq<Event>)
    requires Timely(cfg, c) && Always(cfg, c, events, ClockStands)
    ensures Timely(cfg, Run(cfg, c, events))
    decreases events
  {
    if events == [] {
    } else {
      ApplyTimely(cfg, c, events[0]);
      var d := Apply(cfg, c, events[0]);
      RunTimely(cfg, d, events[1..]);
    }
  }

  /** How a pass that leaves a Machine in a transient state comes back: on the error backoff, at
      once, or after `seconds` - where zero seconds means never. */
  predicate ComesBack(cfg: Config, c: Cell, r: Requeue) {
    match r
    case Nothing => false
    case Immediately => true
    case Backoff => true
    case After(seconds) =>
      match c.m.state
      case Booting => c.m.bootStart.Some? && 0 < seconds && c.clock + seconds <= c.m.bootStart.value + cfg.bootTimeout
      case Draining => seconds == 10
      case ShuttingDown =>
        c.m.shutdownStart.Some? && 0 < seconds && c.clock + seconds <= c.m.shutdownStart.value + cfg.shutdownTimeout
      case _ => true
  }

  /** A pass reads the Node of a ShuttingDown Machine exactly when the budget is used up. */
  predicate OnTheDot(cfg: Config, c: Cell, o: Outcome) {
    && c.flight.Some? && c.flight.value.pc == ReadDown && o == Done
    && c.m.shutdownStart == Some(c.clock - cfg.shutdownTimeout)
  }

  lemma TemplatingEnds(cfg: Config, c: Cell, f: Flight, o: Outcome)
    ensures var pc := AfterTemplating(cfg, c, f, o);
            pc.Return? ==> pc.requeue == Backoff
  {}

  lemma CopyOfCall(c: Cell, f: Flight, o: Outcome)
    ensures KindOf(f.pc) == Resending ==> NextCopy(c, f, o) == f.m
  {}

  lemma ReadEnds(cfg: Config, c: Cell, cached: seq<Pod>)
    requires Timely(cfg, c) && c.flight.Some? && Transient(c.m.state) && KindOf(c.flight.value.pc) == Reading
    ensures var pc := AfterRead(cfg, c, c.flight.value, cached);
            pc.Return? ==> (ComesBack(cfg, c, pc.requeue) <==> !OnTheDot(cfg, c, Done))
  {
    hide PolicyOf, Matching, Evictable;
  }

  lemma PlainEnds(cfg: Config, c: Cell)
    ensures ComesBack(cfg, c, Backoff) && ComesBack(cfg, c, Immediately)
    ensures c.m.state == Draining ==> ComesBack(cfg, c, After(DRAIN_POLL))
  {}

  lemma ResendEnds(cfg: Config, c: Cell)
    requires Timely(cfg, c) && c.flight.Some? && c.flight.value.pc == BootResend
    ensures ComesBack(cfg, c, After(PollWithin(c.flight.value.m.bootStart, cfg.bootTimeout, BOOT_POLL, c.clock)))
  {}

  lemma SaveMoves(pc: Pc, m: Machine, now: int)
    requires InState(pc, m.state) && Transient(m.state) && KindOf(pc) == Saving
    ensures Edited(pc, m, now).state != m.state
  {}

  /** Where a call of a pass over a transient state ends the pass with the state as it was. */
  lemma CallEnds(cfg: Config, c: Cell, f: Flight, o: Outcome, cached: seq<Pod>)
    requires Timely(cfg, c) && c.flight == Some(f) && Transient(c.m.state)
    ensures var pc := NextPc(cfg, c, f, o, cached, NextCopy(c, f, o));
            pc.Return? && NextMachine(c, f, o).state == c.m.state ==> (ComesBack(cfg, c, pc.requeue) <==> !OnTheDot(cfg, c, o))
  {
    hide NextMachine, NextCopy, AfterTemplating, AfterRead, Edited, ComesBack, PollWithin, Timely;
    PlainEnds(cfg, c);
    CopyOfCall(c, f, o);
    TimelyInState(cfg, c);
    NextState(c, f, o);
    match KindOf(f.pc)
    case Reading => ReadEnds(cfg, c, cached);
    case Saving => SaveMoves(f.pc, f.m, c.clock);
    case Templating => TemplatingEnds(cfg, c, f, o);
    case Resending => ResendEnds(cfg, c);
    case _ =>
  }

  lemma TimelyInState(cfg: Config, c: Cell)
    requires Timely(cfg, c) && c.flight.Some?
    ensures c.flight.value.m.state == c.m.state && InState(c.flight.value.pc, c.m.state)
  {}

  lemma LastCall(cfg: Config, c: Cell, o: Outcome, cached: seq<Pod>)
    requires Timely(cfg, c) && c.flight.Some? && Transient(c.m.state)
    ensures var d := Exec(cfg, c, o, cached);
            d.flight.None? && d.m.state == c.m.state ==> (ComesBack(cfg, c, d.requeue) <==> !OnTheDot(cfg, c, o))
  {
    hide NextMachine, NextCopy, NextNode, NextPods, NextPc, NextEvidence, Effects, ComesBack, Timely;
    CallEnds(cfg, c, c.flight.value, o, cached);
  }

  /** In every run with one clock reading per pass, a pass that ends in the transient state it found
      comes back, in Booting and ShuttingDown no later than the deadline - except exactly when it
      looks at a ShuttingDown Machine at the very second of its deadline. */
  lemma {:induction false} StayingPassComesBack(cfg: Config, c: Cell, events: seq<Event>, o: Outcome, cached: seq<Pod>)
    requires Created(c) && Always(cfg, c, events, ClockStands)
    ensures var d := Run(cfg, c, events);
            var e := Apply(cfg, d, Call(o, cached));
            d.flight.Some? && e.flight.None? && e.m.state == d.m.state && Transient(d.m.state) ==>
              (ComesBack(cfg, d, e.requeue) <==> !OnTheDot(cfg, d, o))
  {
    hide Exec;
    RunTimely(cfg, c, events);
    var d := Run(cfg, c, events);
    if d.flight.Some? && Transient(d.m.state) {
      LastCall(cfg, d, o, cached);
    }
  }

  /** The exception happens: a ShuttingDown Machine whose Node is still up, looked at exactly when
      its budget is used up, is neither failed nor looked at again. */
  lemma ShutdownDeadlineGap(cfg: Config, c: Cell, cached: seq<Pod>)
    requires Coherent(c) && c.flight.None? && c.m.state == ShuttingDown
    requires c.m.shutdownStart == Some(c.clock - cfg.shutdownTimeout)
    requires NodeReady(Backing(c))
    ensures var s := Start(c, false);
            && s.flight.Some?
            && var d := Exec(cfg, s, Done, cached);
               d.flight.None? && d.m == c.m && d.requeue == After(0)
  {
    hide Exec;
    ReadStep(cfg, Start(c, false), Done, cached);
  }
}
