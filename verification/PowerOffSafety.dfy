/** Every power-off the agent runs belongs to an episode the controller opened from Draining on
    evidence that the host may go down - over every interleaving of the controller's API calls with
    crashes, operators, scheduler, kubelet, the other controllers and an agent with a stale cache. */
module PowerOffSafety {
  import opened Api
  import opened Lifecycle

  /** The pass read the Node and found it cordoned or gone, not always-on, and nothing on it that keeps it on. */
  ghost predicate Safe(ev: Evidence) {
    && NotAlwaysOn(ev) && CordonedOrGone(ev)
    && ev.pods.Some? && (forall n :: n in ev.pods.value ==> !KeepsNodeOn(ev.pods.value[n]))
  }

  predicate NotAlwaysOn(ev: Evidence) {
    ev.gate.Some? && !AlwaysOn(ev.gate.value)
  }

  predicate CordonedOrGone(ev: Evidence) {
    ev.cordon.Some? && (ev.cordon.value.Some? ==> ev.cordon.value.value.unschedulable)
  }

  /** The evidence a drain pass has gathered by the time it reaches `pc`. */
  ghost predicate Gathered(pc: Pc, ev: Evidence) {
    match pc
    case DrainReadPools | CordonRead(_) => NotAlwaysOn(ev)
    case DrainListCached(_) | DrainListFresh => NotAlwaysOn(ev) && CordonedOrGone(ev)
    case SaveShuttingDown => Safe(ev)
    case _ => true
  }

  /** `log` shows the episode being opened out of Draining on safe evidence before position `n`. */
  ghost predicate OpenedSafely(log: seq<Effect>, n: nat, episode: Option<int>) {
    episode.Some? && exists i :: OpensAt(log, i, n, episode.value)
  }

  ghost predicate OpensAt(log: seq<Effect>, i: int, n: nat, at: int) {
    0 < i < n <= |log| && log[i].Opened? && log[i].at == at && Safe(log[i].ev) && log[i - 1] == Moved(Draining, ShuttingDown)
  }

  lemma OpenedStays(log: seq<Effect>, more: seq<Effect>, n: nat, k: nat, episode: Option<int>)
    requires OpenedSafely(log, n, episode) && n <= k <= |log + more|
    ensures OpenedSafely(log + more, k, episode)
  {
    var i :| OpensAt(log, i, n, episode.value);
    assert OpensAt(log + more, i, k, episode.value);
  }

  ghost predicate Accounted(c: Cell) {
    && Coherent(c)
    && (c.flight.Some? ==> Gathered(c.flight.value.pc, c.flight.value.ev))
    && (forall i :: 0 <= i < |c.past| && c.past[i].state == ShuttingDown ==>
          OpenedSafely(c.log, |c.log|, c.past[i].shutdownStart))
    && (forall j :: 0 <= j < |c.log| && c.log[j].PoweredOff? ==> OpenedSafely(c.log, j, c.log[j].episode))
  }

  /** A longer history stays accounted for when each addition is. */
  lemma Extends(c: Cell, past: seq<Machine>, log: seq<Effect>)
    requires Accounted(c)
    requires forall i :: 0 <= i < |past| && past[i].state == ShuttingDown ==>
      (c.m.state == ShuttingDown && past[i].shutdownStart == c.m.shutdownStart)
      || OpenedSafely(c.log + log, |c.log + log|, past[i].shutdownStart)
    requires forall j :: 0 <= j < |log| && log[j].PoweredOff? ==> OpenedSafely(c.log, |c.log|, log[j].episode)
    ensures forall i :: 0 <= i < |c.past + past| && (c.past + past)[i].state == ShuttingDown ==>
              OpenedSafely(c.log + log, |c.log + log|, (c.past + past)[i].shutdownStart)
    ensures forall j :: 0 <= j < |c.log + log| && (c.log + log)[j].PoweredOff? ==>
              OpenedSafely(c.log + log, j, (c.log + log)[j].episode)
  {
    var all := c.log + log;
    forall i | 0 <= i < |c.past + past| && (c.past + past)[i].state == ShuttingDown
      ensures OpenedSafely(all, |all|, (c.past + past)[i].shutdownStart)
    {
      if i < |c.past| {
        OpenedStays(c.log, log, |c.log|, |all|, c.past[i].shutdownStart);
      } else if !OpenedSafely(all, |all|, past[i - |c.past|].shutdownStart) {
        OpenedStays(c.log, log, |c.log|, |all|, c.past[|c.past| - 1].shutdownStart);
      }
    }
    forall j | 0 <= j < |all| && all[j].PoweredOff?
      ensures OpenedSafely(all, j, all[j].episode)
    {
      if j < |c.log| {
        OpenedStays(c.log, log, j, j, c.log[j].episode);
      } else {
        OpenedStays(c.log, log, |c.log|, j, log[j - |c.log|].episode);
      }
    }
  }

  lemma GatheredNext(cfg: Config, c: Cell, f: Flight, o: Outcome, cached: seq<Pod>)
    requires Gathered(f.pc, f.ev)
    ensures var pc := NextPc(cfg, c, f, o, cached, NextCopy(c, f, o));
            Gathered(pc, NextEvidence(c, f))
  {}

  /** ShuttingDown is entered by the save that opens the episode, and keeps its anchor inside. */
  lemma ShuttingDownOpens(cfg: Config, c: Cell, f: Flight, o: Outcome)
    requires f.m.state == c.m.state && InState(f.pc, f.m.state)
    requires Gathered(f.pc, f.ev)
    requires NextMachine(c, f, o).state == ShuttingDown
    ensures || (c.m.state == ShuttingDown && NextMachine(c, f, o).shutdownStart == c.m.shutdownStart)
            || (&& Effects(cfg, c, f, o) == [Moved(Draining, ShuttingDown), Opened(c.clock, f.ev)]
                && NextMachine(c, f, o).shutdownStart == Some(c.clock) && Safe(f.ev))
  {
    hide Safe;
    if f.pc == SaveShuttingDown && Saves(c, f, o) {
      assert Effects(cfg, c, f, o) == SaveEffects(c, f);
    } else {
      NotOpening(c, f, o);
    }
  }

  lemma NotOpening(c: Cell, f: Flight, o: Outcome)
    requires f.m.state == c.m.state && InState(f.pc, f.m.state)
    requires NextMachine(c, f, o).state == ShuttingDown && !(f.pc == SaveShuttingDown && Saves(c, f, o))
    ensures c.m.state == ShuttingDown && NextMachine(c, f, o).shutdownStart == c.m.shutdownStart
  {}

  lemma CallsNeverPowerOff(cfg: Config, c: Cell, f: Flight, o: Outcome)
    ensures forall i :: 0 <= i < |Effects(cfg, c, f, o)| ==> !Effects(cfg, c, f, o)[i].PoweredOff?
  {}

  lemma ExecAccounted(cfg: Config, c: Cell, o: Outcome, cached: seq<Pod>)
    requires Accounted(c) && c.flight.Some?
    ensures Accounted(Exec(cfg, c, o, cached))
  {
    hide Safe, NextMachine, NextNode, NextPods, NextPc, NextCopy, NextEvidence, Effects, Gathered;
    var f := c.flight.value;
    ExecCoherent(cfg, c, o, cached);
    GatheredNext(cfg, c, f, o, cached);
    CallsNeverPowerOff(cfg, c, f, o);
    var m := NextMachine(c, f, o);
    var effects := Effects(cfg, c, f, o);
    var past := if m == c.m then [] else [m];
    if m.state == ShuttingDown {
      ShuttingDownOpens(cfg, c, f, o);
      if effects == [Moved(Draining, ShuttingDown), Opened(c.clock, f.ev)] && Safe(f.ev) {
        var log := c.log + effects;
        assert log[|c.log|] == effects[0] && log[|c.log| + 1] == effects[1];
        assert OpensAt(log, |c.log| + 1, |log|, c.clock);
      }
    }
    Extends(c, past, effects);
    assert c.past + past == Exec(cfg, c, o, cached).past;
  }

  lemma HappenAccounted(c: Cell, e: Event)
    requires Accounted(c)
    ensures Accounted(Happen(c, e))
  {
    HappenCoherent(c, e);
    HappenFrame(c, e);
    var d := Happen(c, e);
    Extends(c, if d.m == c.m then [] else [d.m], Noted(c, e));
  }

  lemma {:induction false} RunAccounted(cfg: Config, c: Cell, events: seq<Event>)
    requires Accounted(c)
    ensures Accounted(Run(cfg, c, events))
    decreases events
  {
    if events == [] {
    } else {
      var e := events[0];
      if e.Call? && c.flight.Some? {
        ExecAccounted(cfg, c, e.o, e.cached);
      } else {
        HappenAccounted(c, e);
      }
      RunAccounted(cfg, Apply(cfg, c, e), events[1..]);
    }
  }

  /** In every run, every power-off is preceded by the opening of its episode: out of Draining, by a
      pass that read the Node as cordoned or gone, read it as not always-on, and got an uncached pod
      list in which no pod keeps the node on - whatever its pod cache and the agent's cache showed. */
  lemma {:induction false} EveryPowerOffIsSafe(cfg: Config, c: Cell, events: seq<Event>, j: nat)
    requires Created(c)
    requires j < |Run(cfg, c, events).log| && Run(cfg, c, events).log[j].PoweredOff?
    ensures var log := Run(cfg, c, events).log;
            OpenedSafely(log, j, log[j].episode)
  {
    RunAccounted(cfg, c, events);
  }

  // ---------- the evidence was really read ----------

  /** Each reading shows the cluster as it was at one moment, and the moments are in order: first the
      always-on check, then the cordon check, then the uncached list. */
  ghost predicate ReadAt(states: seq<Cell>, ev: Evidence, i: int, j: int, k: int) {
    && 0 <= i <= j <= k < |states|
    && (ev.gate.Some? ==> ev.gate.value == Backing(states[i]))
    && (ev.cordon.Some? ==> ev.cordon.value == Backing(states[j]))
    && (ev.pods.Some? ==> ev.pods.value == states[k].pods)
  }

  ghost predicate ReadDuring(states: seq<Cell>, ev: Evidence) {
    exists i, j, k :: ReadAt(states, ev, i, j, k)
  }

  /** What a drain pass has not read yet by the time it reaches `pc`. */
  predicate Unread(pc: Pc, ev: Evidence) {
    match pc
    case DrainTidy | DrainReadNode => ev == NO_EVIDENCE
    case DrainReadPools | CordonRead(_) => ev.cordon.None? && ev.pods.None?
    case DrainListCached(_) | DrainListFresh => ev.pods.None?
    case _ => true
  }

  lemma UnreadNext(cfg: Config, c: Cell, f: Flight, o: Outcome, cached: seq<Pod>)
    requires Unread(f.pc, f.ev)
    ensures Unread(NextPc(cfg, c, f, o, cached, NextCopy(c, f, o)), NextEvidence(c, f))
  {
    hide NextCopy, AfterTemplating;
    UnreadTemplating(cfg, c, f, o, NextEvidence(c, f));
  }

  lemma UnreadTemplating(cfg: Config, c: Cell, f: Flight, o: Outcome, ev: Evidence)
    ensures Unread(AfterTemplating(cfg, c, f, o), ev)
  {}

  ghost predicate Witnessed(states: seq<Cell>, c: Cell) {
    && states != [] && states[|states| - 1] == c
    && (c.flight.Some? ==> ReadDuring(states, c.flight.value.ev) && Unread(c.flight.value.pc, c.flight.value.ev))
    && (forall n :: 0 <= n < |c.log| && c.log[n].Opened? ==> ReadDuring(states, c.log[n].ev))
  }

  lemma ReadStays(states: seq<Cell>, more: seq<Cell>, ev: Evidence)
    requires ReadDuring(states, ev)
    ensures ReadDuring(states + more, ev)
  {
    var i, j, k :| ReadAt(states, ev, i, j, k);
    assert ReadAt(states + more, ev, i, j, k);
  }

  /** A call reads what the cluster shows at that moment. */
  lemma ReadNow(states: seq<Cell>, c: Cell, f: Flight)
    requires states != [] && states[|states| - 1] == c && ReadDuring(states, f.ev) && Unread(f.pc, f.ev)
    ensures ReadDuring(states, NextEvidence(c, f))
  {
    var i, j, k :| ReadAt(states, f.ev, i, j, k);
    var now := |states| - 1;
    assert ReadAt(states, NextEvidence(c, f), if f.pc.DrainReadNode? then now else i,
                  if f.pc.DrainReadNode? || f.pc.CordonRead? then now else j,
                  if f.pc.DrainReadNode? || f.pc.CordonRead? || f.pc.DrainListFresh? then now else k);
  }

  /** An episode is opened with the evidence of the pass that opens it. */
  lemma OpensWithOwnEvidence(cfg: Config, c: Cell, f: Flight, o: Outcome)
    ensures forall x :: x in Effects(cfg, c, f, o) && x.Opened? ==> x.ev == f.ev
  {}

  lemma ExecWitnessed(cfg: Config, states: seq<Cell>, c: Cell, o: Outcome, cached: seq<Pod>)
    requires Witnessed(states, c) && c.flight.Some?
    ensures Witnessed(states + [Exec(cfg, c, o, cached)], Exec(cfg, c, o, cached))
  {
    hide NextMachine, NextNode, NextPods, NextPc, NextCopy, NextEvidence, Effects, Unread, ReadDuring;
    var f := c.flight.value;
    var d := Exec(cfg, c, o, cached);
    UnreadNext(cfg, c, f, o, cached);
    ReadNow(states, c, f);
    ReadStays(states, [d], NextEvidence(c, f));
    OpensWithOwnEvidence(cfg, c, f, o);
    forall n | 0 <= n < |d.log| && d.log[n].Opened?
      ensures ReadDuring(states + [d], d.log[n].ev)
    {
      assert n >= |c.log| ==> d.log[n] in Effects(cfg, c, f, o);
      ReadStays(states, [d], d.log[n].ev);
    }
  }

  lemma HappenWitnessed(states: seq<Cell>, c: Cell, e: Event)
    requires Witnessed(states, c)
    ensures Witnessed(states + [Happen(c, e)], Happen(c, e))
  {
    hide Happen, ReadDuring;
    HappenFrame(c, e);
    var d := Happen(c, e);
    NothingRead(states);
    assert forall i :: 0 <= i < |Noted(c, e)| ==> !Noted(c, e)[i].Opened?;
    forall n | 0 <= n < |d.log| && d.log[n].Opened?
      ensures ReadDuring(states + [d], d.log[n].ev)
    {
      ReadStays(states, [d], c.log[n].ev);
    }
    if d.flight.Some? {
      ReadStays(states, [d], d.flight.value.ev);
    }
  }

  lemma NothingRead(states: seq<Cell>)
    requires states != []
    ensures ReadDuring(states, NO_EVIDENCE)
  {
    assert ReadAt(states, NO_EVIDENCE, 0, 0, 0);
  }

  lemma {:induction false} RunWitnessed(cfg: Config, states: seq<Cell>, c: Cell, events: seq<Event>)
    requires states != [] && Witnessed(states, c)
    ensures Witnessed(states[..|states| - 1] + States(cfg, c, events), Run(cfg, c, events))
    decreases events
  {
    hide Exec, Happen, Witnessed;
    WitnessedEnds(states, c);
    var before := states[..|states| - 1];
    if events == [] {
      assert before + States(cfg, c, events) == states;
    } else {
      var e := events[0];
      var d := Apply(cfg, c, e);
      if e.Call? && c.flight.Some? {
        ExecWitnessed(cfg, states, c, e.o, e.cached);
      } else {
        HappenWitnessed(states, c, e);
      }
      RunWitnessed(cfg, states + [d], d, events[1..]);
      assert (states + [d])[..|states|] == states == before + [c];
      assert before + States(cfg, c, events) == states + States(cfg, d, events[1..]);
    }
  }

  lemma WitnessedEnds(states: seq<Cell>, c: Cell)
    requires Witnessed(states, c)
    ensures states != [] && states[|states| - 1] == c
  {}

  /** In every run, the evidence an episode was opened on is what the cluster showed at three moments
      of that run, in order: the Node at the always-on check, the Node at the cordon check, and after
      that the pods of the uncached list. */
  lemma {:induction false} EvidenceWasRead(cfg: Config, c: Cell, events: seq<Event>, n: nat)
    requires Created(c)
    requires n < |Run(cfg, c, events).log| && Run(cfg, c, events).log[n].Opened?
    ensures ReadDuring(States(cfg, c, events), Run(cfg, c, events).log[n].ev)
  {
    assert Witnessed([c], c);
    RunWitnessed(cfg, [c], c, events);
    assert [c][..0] + States(cfg, c, events) == States(cfg, c, events);
  }
}
