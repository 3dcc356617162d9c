/** ONP lifts only its own cordons, and a Node in service carries no marker of one. */
module CordonOwnership {
  import opened Api
  import opened Lifecycle

  predicate OperatorCordon(node: Option<Node>) {
    node.Some? && node.value.unschedulable && node.value.cordonedBy.None?
  }

  predicate Marked(node: Option<Node>) {
    node.Some? && node.value.cordonedBy.Some?
  }

  // ---------- an operator's cordon ----------

  /** Operators keep their cordon on. */
  predicate KeepsCordon(c: Cell, e: Event) {
    e.NodeChanged? ==> OperatorCordon(e.node)
  }

  /** The pass has read the Node before the operator cordoned it and is about to act on that reading:
      to claim the cordon, or to lift it. */
  predicate ActsOnOldReading(pc: Pc) {
    (pc.CordonPatch? && pc.mark) || pc.UncordonReread? || (pc.UncordonPatch? && pc.lift)
  }

  ghost predicate Respected(c: Cell) {
    Coherent(c) && OperatorCordon(Backing(c)) && (c.flight.Some? ==> !ActsOnOldReading(c.flight.value.pc))
  }

  /** A read that sees the operator's cordon leads to no patch that would touch it. */
  lemma ReadingRespects(cfg: Config, c: Cell, f: Flight, o: Outcome, cached: seq<Pod>, m: Machine)
    requires OperatorCordon(Backing(c)) && !ActsOnOldReading(f.pc)
    ensures !ActsOnOldReading(NextPc(cfg, c, f, o, cached, m))
    ensures OperatorCordon(NextNode(c, f, o))
  {
    hide AfterTemplating;
    TemplatingRespects(cfg, c, f, o);
  }

  lemma TemplatingRespects(cfg: Config, c: Cell, f: Flight, o: Outcome)
    ensures !ActsOnOldReading(AfterTemplating(cfg, c, f, o))
  {}

  lemma ApplyRespects(cfg: Config, c: Cell, e: Event)
    requires Respected(c) && KeepsCordon(c, e)
    ensures Respected(Apply(cfg, c, e))
  {
    hide Happen, NextMachine, NextNode, NextPc, NextCopy, Effects, NextPods, NextEvidence;
    ApplyCoherent(cfg, c, e);
    if e.Call? && c.flight.Some? {
      var f := c.flight.value;
      NextVersion(c, f, e.o);
      ReadingRespects(cfg, c, f, e.o, e.cached, NextCopy(c, f, e.o));
    } else {
      HappenFrame(c, e);
    }
  }

  /** An operator's cordon stands through every run in which operators leave it: no call of any pass
      lifts it or claims it, wake, abort and drain timeout included. */
  lemma {:induction false} OperatorCordonStands(cfg: Config, c: Cell, events: seq<Event>)
    requires Respected(c) && Always(cfg, c, events, KeepsCordon)
    ensures Respected(Run(cfg, c, events))
    decreases events
  {
    if events == [] {
    } else {
      ApplyRespects(cfg, c, events[0]);
      var d := Apply(cfg, c, events[0]);
      OperatorCordonStands(cfg, d, events[1..]);
    }
  }

  lemma OldReadingWins(cfg: Config, c: Cell)
    requires Coherent(c) && OperatorCordon(Backing(c)) && c.flight.Some? && ActsOnOldReading(c.flight.value.pc)
    ensures !OperatorCordon(Backing(Exec(cfg, c, Done, [])))
            || (&& c.flight.value.pc.UncordonReread?
                && Exec(cfg, c, Done, []) == c.(flight := Some(c.flight.value.(pc := UncordonPatch(c.flight.value.pc.why, true, false)))))
  {
    hide Exec, AfterUncordon;
    if c.flight.value.pc.UncordonReread? {
      ReadStep(cfg, c, Done, []);
    } else {
      NodePatchStep(cfg, c, Done, []);
    }
  }

  /** Its own next calls, accepted, carry the old reading out. */
  lemma {:induction false} OldReadingRuns(cfg: Config, c: Cell) returns (events: seq<Event>)
    requires Coherent(c) && OperatorCordon(Backing(c)) && c.flight.Some? && ActsOnOldReading(c.flight.value.pc)
    ensures Always(cfg, c, events, KeepsCordon) && !OperatorCordon(Backing(Run(cfg, c, events)))
    decreases if c.flight.value.pc.UncordonReread? then 1 else 0
  {
    hide Exec;
    OldReadingWins(cfg, c);
    var d := Exec(cfg, c, Done, []);
    events := [];
    if OperatorCordon(Backing(d)) {
      ExecCoherent(cfg, c, Done, []);
      events := OldReadingRuns(cfg, d);
    }
    RunStep(cfg, c, Call(Done, []), events);
    events := [Call(Done, [])] + events;
  }

  /** Exactly then: a cordon an operator has just placed stands in every run that keeps it on, if and
      only if no pass is between its read of the Node and the patch decided on it. */
  lemma {:induction false} OperatorCordonStandsExactly(cfg: Config, c: Cell)
    requires Coherent(c) && OperatorCordon(Backing(c))
    ensures (forall events :: Always(cfg, c, events, KeepsCordon) ==> OperatorCordon(Backing(Run(cfg, c, events))))
            <==> (c.flight.Some? ==> !ActsOnOldReading(c.flight.value.pc))
  {
    hide Apply;
    if c.flight.Some? ==> !ActsOnOldReading(c.flight.value.pc) {
      forall events | Always(cfg, c, events, KeepsCordon)
        ensures OperatorCordon(Backing(Run(cfg, c, events)))
      {
        OperatorCordonStands(cfg, c, events);
      }
    } else {
      var events := OldReadingRuns(cfg, c);
      assert !(Always(cfg, c, events, KeepsCordon) ==> OperatorCordon(Backing(Run(cfg, c, events))));
    }
  }

  /** What an operator can check: in any state but Off, Booting and Draining no pass has such a reading
      to act on, so the cordon stands. */
  lemma {:induction false} OperatorCordonStandsAtRest(cfg: Config, c: Cell, events: seq<Event>)
    requires Coherent(c) && OperatorCordon(Backing(c)) && c.m.state !in {Off, Booting, Draining}
    requires Always(cfg, c, events, KeepsCordon)
    ensures OperatorCordon(Backing(Run(cfg, c, events)))
  {
    hide Apply;
    OperatorCordonStands(cfg, c, events);
  }

  /** The race: an operator cordons an unmarked Node between the read and the patch of setCordon(true), and
      the patch puts ONP's marker on the operator's cordon. */
  lemma CordonClaimed(cfg: Config, c: Cell, force: bool, cordoned: Node)
    requires c.flight.Some? && c.flight.value.pc == CordonRead(force) && PlacesCordon(c) && c.node.value.cordonedBy != Some(TRIGGER)
    requires OperatorCordon(Some(cordoned))
    ensures var read := Apply(cfg, c, Call(Done, []));
            var raced := Apply(cfg, read, NodeChanged(Some(cordoned)));
            var patched := Apply(cfg, raced, Call(Done, []));
            OperatorCordon(Backing(raced)) && Marked(Backing(patched))
  {
    hide Exec, Happen;
    ReadsForCordon(cfg, c, force);
    var read := Apply(cfg, c, Call(Done, []));
    HappenFrame(read, NodeChanged(Some(cordoned)));
    PatchMarks(cfg, Happen(read, NodeChanged(Some(cordoned))));
  }

  lemma ReadsForCordon(cfg: Config, c: Cell, force: bool)
    requires c.flight.Some? && c.flight.value.pc == CordonRead(force) && PlacesCordon(c) && c.node.value.cordonedBy != Some(TRIGGER)
    ensures var d := Exec(cfg, c, Done, []);
            d.m == c.m && d.node == c.node && d.flight.Some? && d.flight.value.pc == CordonPatch(true)
  {
    hide Exec;
    ReadStep(cfg, c, Done, []);
  }

  lemma PatchMarks(cfg: Config, c: Cell)
    requires c.flight.Some? && c.flight.value.pc == CordonPatch(true) && Backing(c).Some?
    ensures Marked(Backing(Exec(cfg, c, Done, [])))
  {
    hide Exec;
    NodePatchStep(cfg, c, Done, []);
  }

  // ---------- the marker ----------

  /** Nobody but the controller writes the marker. */
  predicate NoMarkerEdits(c: Cell, e: Event) {
    e.NodeChanged? && Marked(e.node) ==> Marked(c.node)
  }

  /** Between lifting a cordon and saving Ready, and as long as the Machine is Ready, there is no marker. */
  ghost predicate InService(c: Cell) {
    && Coherent(c)
    && (c.m.state == Ready ==> !Marked(Backing(c)))
    && (c.flight.Some? && Lifted(c.flight.value.pc) ==> !Marked(Backing(c)))
  }

  predicate Lifted(pc: Pc) {
    || pc.TemplatePools? || pc.TemplateRead? || pc.TemplatePatch? || pc.DriftRead? || pc.SaveReady? || pc.SaveAborted?
    || (pc.UncordonPatch? && !pc.unmark)
  }

  /** The calls before Ready are reached only with the marker gone. */
  lemma LiftedNext(cfg: Config, c: Cell, f: Flight, o: Outcome, cached: seq<Pod>, m: Machine)
    requires Lifted(f.pc) ==> !Marked(Backing(c))
    requires Lifted(NextPc(cfg, c, f, o, cached, m))
    ensures Backing(c).Some? ==> !Marked(NextNode(c, f, o))
  {
    hide AfterTemplating;
  }

  /** Only the cordon of a drain in progress puts the marker on. */
  lemma MarkerFromDrain(cfg: Config, c: Cell, f: Flight, o: Outcome)
    requires f.m.state == c.m.state && InState(f.pc, f.m.state)
    requires NextMachine(c, f, o).state == Ready && Backing(c).Some?
    requires c.m.state == Ready || Lifted(f.pc) ==> !Marked(Backing(c))
    ensures !Marked(NextNode(c, f, o))
  {
    NextState(c, f, o);
  }

  lemma ExecInService(cfg: Config, c: Cell, o: Outcome, cached: seq<Pod>)
    requires InService(c) && c.flight.Some?
    ensures InService(Exec(cfg, c, o, cached))
  {
    hide NextMachine, NextNode, NextPc, NextCopy, Effects, NextPods, NextEvidence, Lifted;
    var f := c.flight.value;
    ExecCoherent(cfg, c, o, cached);
    NextVersion(c, f, o);
    if Backing(c).Some? {
      if NextMachine(c, f, o).state == Ready {
        MarkerFromDrain(cfg, c, f, o);
      }
      if Lifted(NextPc(cfg, c, f, o, cached, NextCopy(c, f, o))) {
        LiftedNext(cfg, c, f, o, cached, NextCopy(c, f, o));
      }
    } else {
      NoNodeStaysAway(c, f, o);
    }
  }

  lemma NoNodeStaysAway(c: Cell, f: Flight, o: Outcome)
    requires Backing(c).None?
    ensures NextNode(c, f, o) == c.node
  {}

  lemma HappenInService(c: Cell, e: Event)
    requires InService(c) && NoMarkerEdits(c, e)
    ensures InService(Happen(c, e))
  {
    hide Happen, Coherent;
    HappenCoherent(c, e);
    HappenFrame(c, e);
  }

  lemma ApplyInService(cfg: Config, c: Cell, e: Event)
    requires InService(c) && NoMarkerEdits(c, e)
    ensures InService(Apply(cfg, c, e))
  {
    hide Exec, Happen, InService;
    if e.Call? && c.flight.Some? {
      ExecInService(cfg, c, e.o, e.cached);
    } else {
      HappenInService(c, e);
    }
  }

  lemma {:induction false} RunInService(cfg: Config, c: Cell, events: seq<Event>)
    requires InService(c) && Always(cfg, c, events, NoMarkerEdits)
    ensures InService(Run(cfg, c, events))
    decreases events
  {
    if events == [] {
    } else {
      ApplyInService(cfg, c, events[0]);
      var d := Apply(cfg, c, events[0]);
      RunInService(cfg, d, events[1..]);
    }
  }

  /** In every run of a new Machine without hand edits of the marker, a Ready Machine's Node carries
      none - so a cordon found on it later is an operator's and is never lifted by a wake. */
  lemma {:induction false} ReadyNodeUnmarked(cfg: Config, c: Cell, events: seq<Event>)
    requires Created(c) && Always(cfg, c, events, NoMarkerEdits)
    ensures var d := Run(cfg, c, events);
            d.m.state == Ready ==> !Marked(Backing(d))
  {
    RunInService(cfg, c, events);
  }
}
