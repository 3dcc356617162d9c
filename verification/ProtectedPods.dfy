/** An unfinished do-not-disrupt pod survives every run: as long as it stays bound it is never
    evicted, and its Machine never goes on to ShuttingDown. */
module ProtectedPods {
  import opened Api
  import opened Lifecycle
  import opened Deadlines

  /** A pod no drain may evict: protected, and - where a pool may force - not workload either, as a
      DaemonSet or static pod. */
  predicate Shielded(pod: Pod, mayForce: bool) {
    && pod.phase != Succeeded && pod.phase != PodFailed && pod.doNotDisrupt == Some("true")
    && (mayForce ==> pod.mirror || "DaemonSet" in pod.owners)
  }

  /** The pod stays bound and protected, also in whatever copy of it the pod cache serves, and unless
      `mayForce` no pool that alone selects the Machine forces. */
  ghost predicate Keeps(c: Cell, e: Event, name: string, mayForce: bool) {
    && (e.PodsChanged? ==> name in e.pods && Shielded(e.pods[name], mayForce))
    && (e.Call? ==> forall i :: 0 <= i < |e.cached| && e.cached[i].name == name ==> Shielded(e.cached[i], mayForce))
    && (e.PoolsChanged? && !mayForce ==> !ForcedAlone(e.pools, c.m.name))
  }

  ghost predicate KeptAlong(cfg: Config, c: Cell, events: seq<Event>, name: string, mayForce: bool)
    decreases events
  {
    events == [] ||
    (Keeps(c, events[0], name, mayForce) && KeptAlong(cfg, Apply(cfg, c, events[0]), events[1..], name, mayForce))
  }

  predicate Spares(pc: Pc, name: string, mayForce: bool) {
    match pc
    case CordonRead(force) => force ==> mayForce
    case DrainListCached(force) => force ==> mayForce
    case DrainEvict(todo) => name !in todo
    case SaveShuttingDown => false
    case _ => true
  }

  predicate Harms(x: Effect, name: string) {
    x == Evicted(name) || x.Opened? || (x.Moved? && x.to == ShuttingDown)
  }

  /** The pod was not evicted since position `n` of the log, and ShuttingDown is out of reach. */
  ghost predicate Alive(c: Cell, name: string, mayForce: bool, n: nat) {
    && Coherent(c) && c.m.state != ShuttingDown && n <= |c.log|
    && name in c.pods && Shielded(c.pods[name], mayForce)
    && (!mayForce ==> !ForcedAlone(c.pools, c.m.name))
    && (c.flight.Some? ==> Spares(c.flight.value.pc, name, mayForce))
    && (forall i :: n <= i < |c.log| ==> !Harms(c.log[i], name))
  }

  lemma {:induction false} NotEvictable(pods: seq<Pod>, force: bool, name: string, mayForce: bool)
    requires force ==> mayForce
    requires forall i :: 0 <= i < |pods| && pods[i].name == name ==> Shielded(pods[i], mayForce)
    ensures name !in Evictable(pods, force)
  {
    if pods == [] {
    } else {
      NotEvictable(pods[1..], force, name, mayForce);
    }
  }

  lemma SparesTemplating(cfg: Config, c: Cell, f: Flight, o: Outcome, name: string, mayForce: bool)
    ensures Spares(AfterTemplating(cfg, c, f, o), name, mayForce)
  {}

  lemma ShieldedKeepsNodeOn(pod: Pod, mayForce: bool)
    requires Shielded(pod, mayForce)
    ensures KeepsNodeOn(pod)
  {}

  lemma SparesRead(cfg: Config, c: Cell, f: Flight, cached: seq<Pod>, name: string, mayForce: bool)
    requires Spares(f.pc, name, mayForce)
    requires name in c.pods && Shielded(c.pods[name], mayForce)
    requires !mayForce ==> !ForcedAlone(c.pools, c.m.name)
    requires forall i :: 0 <= i < |cached| && cached[i].name == name ==> Shielded(cached[i], mayForce)
    ensures Spares(AfterRead(cfg, c, f, cached), name, mayForce)
  {
    hide PolicyOf, Matching, ForcedAlone, Shielded, KeepsNodeOn, NodeReady, AlwaysOn, WentDownSince;
    ForceMeans(c.pools, c.m.name);
    ShieldedKeepsNodeOn(c.pods[name], mayForce);
    if f.pc.DrainListCached? {
      NotEvictable(cached, f.pc.force, name, mayForce);
      NotEvictable([], f.pc.force, name, mayForce);
    }
  }

  lemma SparesWrites(cfg: Config, f: Flight, m: Machine, now: int, name: string, mayForce: bool)
    ensures Spares(AfterSave(cfg, f.pc, m, now), name, mayForce)
    ensures Spares(AfterDrop(f.pc, m), name, mayForce)
    ensures Spares(AfterNodePatch(f), name, mayForce)
  {}

  lemma SparesEnds(name: string, mayForce: bool)
    ensures forall r :: Spares(Return(r), name, mayForce)
    ensures Spares(OffSaveBooting, name, mayForce) && Spares(OffSavePowerFailed, name, mayForce)
  {}

  lemma SparesEviction(f: Flight, o: Outcome, name: string, mayForce: bool)
    requires Spares(f.pc, name, mayForce) && KindOf(f.pc) == Evicting
    ensures f.pc.DrainEvict? && Spares(AfterEviction(f.pc.todo, o), name, mayForce)
  {}

  lemma SparesNext(cfg: Config, c: Cell, f: Flight, o: Outcome, cached: seq<Pod>, name: string, mayForce: bool)
    requires Spares(f.pc, name, mayForce)
    requires name in c.pods && Shielded(c.pods[name], mayForce)
    requires !mayForce ==> !ForcedAlone(c.pools, c.m.name)
    requires forall i :: 0 <= i < |cached| && cached[i].name == name ==> Shielded(cached[i], mayForce)
    ensures Spares(NextPc(cfg, c, f, o, cached, NextCopy(c, f, o)), name, mayForce)
  {
    hide AfterTemplating, AfterRead, AfterSave, AfterDrop, AfterNodePatch, AfterEviction, NextCopy, Spares, Shielded, ForcedAlone;
    SparesTemplating(cfg, c, f, o, name, mayForce);
    SparesWrites(cfg, f, NextCopy(c, f, o), c.clock, name, mayForce);
    SparesEnds(name, mayForce);
    match KindOf(f.pc)
    case Reading => SparesRead(cfg, c, f, cached, name, mayForce);
    case Evicting => SparesEviction(f, o, name, mayForce);
    case _ =>
  }

  lemma CallSpares(cfg: Config, c: Cell, f: Flight, o: Outcome, name: string, mayForce: bool)
    requires f.m.state == c.m.state != ShuttingDown && InState(f.pc, f.m.state)
    requires Spares(f.pc, name, mayForce) && name in c.pods && Shielded(c.pods[name], mayForce)
    ensures NextMachine(c, f, o).state != ShuttingDown
    ensures name in NextPods(c, f, o) && Shielded(NextPods(c, f, o)[name], mayForce)
    ensures forall x :: x in Effects(cfg, c, f, o) ==> !Harms(x, name)
  {
    hide NextMachine, NextCopy;
    NextState(c, f, o);
  }

  lemma ExecAlive(cfg: Config, c: Cell, o: Outcome, cached: seq<Pod>, name: string, mayForce: bool, n: nat)
    requires Alive(c, name, mayForce, n) && c.flight.Some? && Keeps(c, Call(o, cached), name, mayForce)
    ensures Alive(Exec(cfg, c, o, cached), name, mayForce, n)
  {
    hide NextMachine, NextNode, NextPods, NextPc, NextCopy, NextEvidence, Effects, Spares, Shielded, ForcedAlone;
    var f := c.flight.value;
    ExecCoherent(cfg, c, o, cached);
    NextVersion(c, f, o);
    SparesNext(cfg, c, f, o, cached, name, mayForce);
    CallSpares(cfg, c, f, o, name, mayForce);
    var d := Exec(cfg, c, o, cached);
    assert d.m.name == c.m.name && d.pools == c.pools;
    assert forall i :: |c.log| <= i < |d.log| ==> d.log[i] in Effects(cfg, c, f, o);
  }

  lemma HappenAlive(c: Cell, e: Event, name: string, mayForce: bool, n: nat)
    requires Alive(c, name, mayForce, n) && Keeps(c, e, name, mayForce)
    ensures Alive(Happen(c, e), name, mayForce, n)
  {
    hide Happen, Coherent;
    HappenCoherent(c, e);
    HappenFrame(c, e);
    assert forall x :: x in Noted(c, e) ==> !Harms(x, name);
  }

  lemma ApplyAlive(cfg: Config, c: Cell, e: Event, name: string, mayForce: bool, n: nat)
    requires Alive(c, name, mayForce, n) && Keeps(c, e, name, mayForce)
    ensures Alive(Apply(cfg, c, e), name, mayForce, n)
  {
    hide Exec, Happen, Alive;
    if e.Call? && c.flight.Some? {
      ExecAlive(cfg, c, e.o, e.cached, name, mayForce, n);
    } else {
      HappenAlive(c, e, name, mayForce, n);
    }
  }

  lemma {:induction false} RunAlive(cfg: Config, c: Cell, events: seq<Event>, name: string, mayForce: bool, n: nat)
    requires Alive(c, name, mayForce, n) && KeptAlong(cfg, c, events, name, mayForce)
    ensures Alive(Run(cfg, c, events), name, mayForce, n)
    decreases events
  {
    if events == [] {
    } else {
      ApplyAlive(cfg, c, events[0], name, mayForce, n);
      var d := Apply(cfg, c, events[0]);
      RunAlive(cfg, d, events[1..], name, mayForce, n);
    }
  }

  /** From any point between two passes: while the pod stays bound and protected and no single
      matching pool forces, it is never evicted and the Machine never reaches ShuttingDown. For a
      DaemonSet or static pod (`mayForce`) this holds whatever the pools say. */
  lemma {:induction false} ProtectedPodSurvives(cfg: Config, c: Cell, events: seq<Event>, name: string, mayForce: bool)
    requires Coherent(c) && c.flight.None? && c.m.state != ShuttingDown
    requires name in c.pods && Shielded(c.pods[name], mayForce) && (!mayForce ==> !ForcedAlone(c.pools, c.m.name))
    requires KeptAlong(cfg, c, events, name, mayForce)
    ensures var d := Run(cfg, c, events);
            && d.m.state != ShuttingDown && name in d.pods
            && (forall i :: |c.log| <= i < |d.log| ==> !Harms(d.log[i], name))
            && Alive(d, name, mayForce, |c.log|)
  {
    RunAlive(cfg, c, events, name, mayForce, |c.log|);
  }

  lemma StartAlive(c: Cell, name: string, mayForce: bool, n: nat)
    requires Alive(c, name, mayForce, n) && c.flight.None?
    ensures Alive(Start(c, false), name, mayForce, n)
  {}

  /** The pod stays bound and protected, and the pass in flight meets no error. */
  ghost predicate KeptErrorFree(cfg: Config, c: Cell, events: seq<Event>, name: string, mayForce: bool)
    decreases events
  {
    events == [] ||
    (&& Keeps(c, events[0], name, mayForce) && ErrorFree(c, events[0])
     && KeptErrorFree(cfg, Apply(cfg, c, events[0]), events[1..], name, mayForce))
  }

  lemma {:induction false} KeptAndErrorFree(cfg: Config, c: Cell, events: seq<Event>, name: string, mayForce: bool)
    requires KeptErrorFree(cfg, c, events, name, mayForce)
    ensures KeptAlong(cfg, c, events, name, mayForce) && Always(cfg, c, events, ErrorFree)
    decreases events
  {
    hide Apply, Keeps;
    if events == [] {
    } else {
      KeptAndErrorFree(cfg, Apply(cfg, c, events[0]), events[1..], name, mayForce);
    }
  }

  /** And its drain ends: from any cell such a run comes to, a pass over the Draining Machine past its
      deadline, all of whose calls succeed, has ended after at most eleven calls, with the Machine Failed
      or Ready and the pod untouched - unless someone edited the Machine or deleted the Node under the
      pass and it ended on the error backoff. */
  lemma {:induction false} ProtectedDrainEnds(cfg: Config, c: Cell, events: seq<Event>, name: string, mayForce: bool, n: nat)
    requires Alive(c, name, mayForce, n) && c.flight.None? && c.m.state == Draining && PastDeadline(cfg, c)
    requires KeptErrorFree(cfg, Start(c, false), events, name, mayForce)
    ensures var d := Run(cfg, Start(c, false), events);
            && (CallsIn(events) >= MOST_CALLS ==> d.flight.None?)
            && (d.flight.None? ==> d.m.state == Failed || d.m.state == Ready || LostRace(cfg, c, events))
            && name in d.pods && (forall i :: n <= i < |d.log| ==> !Harms(d.log[i], name))
  {
    hide Apply, Start;
    KeptAndErrorFree(cfg, Start(c, false), events, name, mayForce);
    StartAlive(c, name, mayForce, n);
    RunAlive(cfg, Start(c, false), events, name, mayForce, n);
    PassPastDeadlineLeaves(cfg, c, events);
  }
}
