/** A Node labelled always-on throughout is left alone by every run: nothing is evicted from it, it is
    not cordoned, its Machine never goes down, and no template can take the label away. */
module AlwaysOnNodes {
  import opened Api
  import opened Lifecycle

  /** The environment keeps the label on the Node. */
  predicate KeepsLabel(c: Cell, e: Event) {
    e.NodeChanged? ==> AlwaysOn(e.node)
  }

  /** The calls a pass never gets to on an always-on Node. */
  predicate Harmless(pc: Pc) {
    match pc
    case SaveDraining | DrainReadPools | CordonRead(_) | CordonPatch(_) | DrainListCached(_) | DrainListFresh | DrainEvict(_)
       | SaveShuttingDown | SaveDrainFailed => false
    case UncordonRead(why) => why != TimingOut
    case UncordonReread(why) => why != TimingOut
    case UncordonPatch(why, _, _) => why != TimingOut
    case _ => true
  }

  predicate Touches(x: Effect) {
    x.Evicted? || x.Cordoned? || x.Opened? || (x.Moved? && x.to in {Draining, ShuttingDown})
  }

  ghost predicate NeverDown(past: seq<Machine>) {
    forall i :: 0 <= i < |past| ==> past[i].state != ShuttingDown
  }

  /** Nothing that touches the Node was logged since position `n`; and if no stale ShuttingDown
      version is around for the agent to read (`clean`), no power-off either. */
  ghost predicate Untouched(c: Cell, n: nat, clean: bool) {
    && Coherent(c) && AlwaysOn(Backing(c)) && n <= |c.log|
    && c.m.state != ShuttingDown
    && (c.flight.Some? ==> Harmless(c.flight.value.pc))
    && (clean ==> NeverDown(c.past))
    && (forall i :: n <= i < |c.log| ==> !Touches(c.log[i]) && (clean ==> !c.log[i].PoweredOff?))
  }

  lemma HarmlessNext(cfg: Config, c: Cell, f: Flight, o: Outcome, cached: seq<Pod>)
    requires AlwaysOn(Backing(c)) && Harmless(f.pc)
    ensures Harmless(NextPc(cfg, c, f, o, cached, NextCopy(c, f, o)))
  {}

  lemma HarmlessCall(cfg: Config, c: Cell, f: Flight, o: Outcome)
    requires f.m.state == c.m.state != ShuttingDown && InState(f.pc, f.m.state) && Harmless(f.pc)
    ensures NextMachine(c, f, o).state != ShuttingDown
    ensures forall x :: x in Effects(cfg, c, f, o) ==> !Touches(x) && !x.PoweredOff?
  {
    hide NextMachine, NextCopy;
    NextState(c, f, o);
  }

  lemma ExecUntouched(cfg: Config, c: Cell, o: Outcome, cached: seq<Pod>, n: nat, clean: bool)
    requires Untouched(c, n, clean) && c.flight.Some?
    ensures Untouched(Exec(cfg, c, o, cached), n, clean)
  {
    hide NextMachine, NextNode, NextPods, NextPc, NextCopy, Effects, Harmless, Touches;
    var f := c.flight.value;
    ExecCoherent(cfg, c, o, cached);
    CallKeepsReadings(cfg, c, o, cached);
    HarmlessNext(cfg, c, f, o, cached);
    HarmlessCall(cfg, c, f, o);
  }

  lemma NotedUntouched(c: Cell, e: Event, clean: bool)
    requires clean ==> NeverDown(c.past)
    ensures forall x :: x in Noted(c, e) ==> !Touches(x) && (clean ==> !x.PoweredOff?)
  {}

  lemma HappenUntouched(c: Cell, e: Event, n: nat, clean: bool)
    requires Untouched(c, n, clean) && KeepsLabel(c, e)
    ensures Untouched(Happen(c, e), n, clean)
  {
    hide Happen, Coherent, Noted, Touches;
    HappenCoherent(c, e);
    HappenFrame(c, e);
    NotedUntouched(c, e, clean);
  }

  lemma ApplyUntouched(cfg: Config, c: Cell, e: Event, n: nat, clean: bool)
    requires Untouched(c, n, clean) && KeepsLabel(c, e)
    ensures Untouched(Apply(cfg, c, e), n, clean)
  {
    hide Exec, Happen, Untouched;
    if e.Call? && c.flight.Some? {
      ExecUntouched(cfg, c, e.o, e.cached, n, clean);
    } else {
      HappenUntouched(c, e, n, clean);
    }
  }

  lemma {:induction false} RunUntouched(cfg: Config, c: Cell, events: seq<Event>, n: nat, clean: bool)
    requires Untouched(c, n, clean) && Always(cfg, c, events, KeepsLabel)
    ensures Untouched(Run(cfg, c, events), n, clean)
    decreases events
  {
    if events == [] {
    } else {
      ApplyUntouched(cfg, c, events[0], n, clean);
      var d := Apply(cfg, c, events[0]);
      RunUntouched(cfg, d, events[1..], n, clean);
    }
  }

  /** From any point between two passes at which the Machine is not ShuttingDown, in every run that
      keeps the label: no eviction, no cordon, no new drain, no ShuttingDown, whatever templates are
      applied, and the label is still there. Unless the agent can still read an older ShuttingDown
      version of the Machine, there is no power-off either. */
  lemma {:induction false} AlwaysOnStaysUp(cfg: Config, c: Cell, events: seq<Event>)
    requires Coherent(c) && c.flight.None? && AlwaysOn(Backing(c)) && c.m.state != ShuttingDown
    requires Always(cfg, c, events, KeepsLabel)
    ensures var d := Run(cfg, c, events);
            && AlwaysOn(Backing(d)) && d.m.state != ShuttingDown
            && (forall i :: |c.log| <= i < |d.log| ==> !Touches(d.log[i]))
            && (NeverDown(c.past) ==> forall i :: |c.log| <= i < |d.log| ==> !d.log[i].PoweredOff?)
  {
    RunUntouched(cfg, c, events, |c.log|, NeverDown(c.past));
  }
}
