/** What a wake delivers is what the fit simulation promised: the Node that a pass into service leaves
    behind answers every non-resource predicate as the synthetic Node did. */
module WakeFidelity {
  import opened Api
  import opened Template
  import opened Lifecycle
  import opened PassOutcome

  /** A pass over an Off or Booting Machine whose Node is up, all of whose calls succeed, ends with the
      Machine Ready and on the Node exactly what the pools that match it ask for, over an uncordoned
      Node if the cordon was ONP's. */
  lemma {:induction false} PromotionDelivers(cfg: Config, c: Cell, cached: seq<Pod>, script: seq<Outcome>)
    requires c.flight.None? && (c.m.state == Off || c.m.state == Booting) && NodeReady(Backing(c))
    requires AllDone(script) && |script| >= 11 + |cached|
    ensures var d := Drive(cfg, Start(c, false), cached, script);
            && d.m.state == Ready
            && d.node == Some(ApplyTemplate(c.m, Matching(c.pools, c.m.name), Uncordon(c.node.value)))
  {
    hide Drive, Start, Matching;
    PassComesToTheTable(cfg, c, cached, script);
  }

  /** So for a Machine in one pool, with predictable labels and no lifecycle taint in the template, a
      pod fits the woken Node, resources aside and once its lifecycle taints are gone, exactly when it
      fitted the simulated one. */
  lemma {:induction false} WakeKeepsThePromise(cfg: Config, c: Cell, pool: Pool, cached: seq<Pod>, script: seq<Outcome>,
                                               room: map<string, int>, lib: Library, volumes: seq<VolumeAffinity>, pod: Pod)
    requires c.flight.None? && (c.m.state == Off || c.m.state == Booting) && NodeReady(Backing(c))
    requires AllDone(script) && |script| >= 11 + |cached|
    requires Matching(c.pools, c.m.name) == [pool] && LabelsPredictable(c.m, pool, c.node.value)
    requires forall t :: t in pool.taints ==> !IsLifecycle(t)
    ensures var s := NodeForMachine(c.m, pool, c.node, room);
            var woken := Drive(cfg, Start(c, false), cached, script).node;
            && woken.Some?
            && var w := woken.value;
               FitsShape(lib, volumes, pod, s.name, s.labels, s.taints, s.unschedulable) <==>
               FitsShape(lib, volumes, pod, c.m.nodeName, w.labels, PersistentTaints(w.taints), w.unschedulable)
  {
    hide Drive, Start, ApplyTemplate, FitsShape, NodeForMachine, LabelsPredictable, Matching;
    PromotionDelivers(cfg, c, cached, script);
    SimulationFaithful(c.m, pool, c.node.value, room, lib, volumes, pod);
  }
}
