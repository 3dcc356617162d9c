/** The controller and the agent together: in every run of the lifecycle, with the agent reading any
    version of the Machine its cache may still hold, no episode takes the host down twice. */
module HostPower {
  import opened Api
  import opened ShutdownAgent
  import opened Lifecycle
  import opened Deadlines

  /** A run with the host in it: whether it is on its way down, since when it last was, and the
      episodes whose power-off took effect. */
  datatype Powered = Powered(c: Cell, halting: bool, downAt: int, halts: seq<Option<int>>)

  predicate PowersOff(c: Cell, version: nat, readable: bool) {
    version < |c.past| && AgentAct(c, c.past[version], readable) == PowerOff
  }

  /** A power-off that works takes a running host down; a boot brings it back. */
  function PoweredStep(cfg: Config, p: Powered, e: Event): Powered {
    var next := p.(c := Apply(cfg, p.c, e));
    match e
    case AgentPass(version, works, readable) =>
      if PowersOff(p.c, version, readable) && works && !p.halting then
        next.(halting := true, downAt := p.c.clock, halts := p.halts + [p.c.past[version].shutdownStart])
      else next
    case HostBoot(_) => next.(halting := false)
    case _ => next
  }

  function PoweredRun(cfg: Config, p: Powered, events: seq<Event>): Powered
    decreases events
  {
    if events == [] then p else PoweredRun(cfg, PoweredStep(cfg, p, events[0]), events[1..])
  }

  /** The agent can read its boot time, and a host comes up later than it went down. */
  predicate Orderly(p: Powered, e: Event) {
    && (e.AgentPass? ==> e.readable)
    && (e.HostBoot? ==> e.at == p.c.clock && (p.halts != [] ==> p.downAt < e.at))
  }

  ghost predicate AllOrderly(cfg: Config, p: Powered, events: seq<Event>)
    decreases events
  {
    events == [] || (Orderly(p, events[0]) && AllOrderly(cfg, PoweredStep(cfg, p, events[0]), events[1..]))
  }

  /** Every ShuttingDown version the agent may read carries an anchor that has passed. */
  ghost predicate PastAnchored(c: Cell) {
    forall i :: 0 <= i < |c.past| && c.past[i].state == ShuttingDown ==>
      c.past[i].shutdownStart.Some? && c.past[i].shutdownStart.value <= c.clock
  }

  ghost predicate Tracked(c: Cell) {
    Coherent(c) && AnchorsSet(c.m) && PastAnchored(c) && c.boot <= c.clock
  }

  /** Each episode that took the host down lies before the boot since, so that boot tells it apart. */
  ghost predicate HaltsKept(p: Powered) {
    && p.downAt <= p.c.clock
    && (forall e :: e in p.halts ==> e.Some? && e.value <= p.downAt && (p.halting || e.value < p.c.boot))
    && (forall i, j :: 0 <= i < j < |p.halts| ==> p.halts[i] != p.halts[j])
    && (p.c.agent.issued && !p.halting ==> p.c.agent.issuedFor.Some? && p.c.agent.issuedFor.value < p.c.boot)
    && (forall e :: e in p.halts ==> PoweredOff(e) in p.c.log)
  }

  // ---------- what the lifecycle keeps ----------

  lemma ShuttingDownAnchor(c: Cell, f: Flight, o: Outcome)
    requires f.m.state == c.m.state && InState(f.pc, f.m.state)
    requires NextMachine(c, f, o).state == ShuttingDown
    ensures var m := NextMachine(c, f, o);
            (c.m.state == ShuttingDown && m.shutdownStart == c.m.shutdownStart) || m.shutdownStart == Some(c.clock)
  {}

  lemma CallTracked(cfg: Config, c: Cell, o: Outcome, cached: seq<Pod>)
    requires Tracked(c) && c.flight.Some?
    ensures var d := Exec(cfg, c, o, cached);
            Tracked(d) && d.clock == c.clock && d.boot == c.boot && d.agent == c.agent && c.log <= d.log
  {
    hide NextMachine, NextNode, NextPods, NextPc, NextCopy, NextEvidence, Effects;
    var f := c.flight.value;
    ExecCoherent(cfg, c, o, cached);
    CallAnchored(c, f, o);
    if NextMachine(c, f, o).state == ShuttingDown {
      ShuttingDownAnchor(c, f, o);
    }
  }

  /** The agent's memory and the boot time after an event outside the pass. */
  lemma HappenHost(c: Cell, e: Event)
    ensures var d := Happen(c, e);
            && d.boot == (if e.HostBoot? then e.at else c.boot)
            && (e.AgentRestart? || e.HostBoot? ==> d.agent == FRESH)
            && (e.AgentPass? && e.version < |c.past| ==>
                  d.agent == Remember(c.agent, AgentAct(c, c.past[e.version], e.readable), e.works, c.past[e.version].shutdownStart))
            && (!(e.AgentRestart? || e.HostBoot? || (e.AgentPass? && e.version < |c.past|)) ==> d.agent == c.agent)
  {
    hide Noted;
  }

  lemma HappenTracked(c: Cell, e: Event)
    requires Tracked(c) && (e.HostBoot? ==> e.at == c.clock)
    ensures Tracked(Happen(c, e)) && c.log <= Happen(c, e).log
  {
    hide Happen, Coherent;
    HappenCoherent(c, e);
    HappenFrame(c, e);
    HappenHost(c, e);
    LastOfPast(c);
  }

  lemma LastOfPast(c: Cell)
    requires Coherent(c)
    ensures c.past != [] && c.past[|c.past| - 1] == c.m
  {}

  // ---------- the host ----------

  /** A power-off that takes a running host down is for an episode not yet acted on. */
  lemma NewEpisode(p: Powered, version: nat)
    requires Tracked(p.c) && HaltsKept(p) && !p.halting && PowersOff(p.c, version, true)
    ensures var episode := p.c.past[version].shutdownStart;
            episode.Some? && episode.value <= p.c.clock && episode !in p.halts
  {}

  lemma AgentKept(cfg: Config, p: Powered, e: Event)
    requires Tracked(p.c) && HaltsKept(p) && e.AgentPass? && Orderly(p, e)
    ensures HaltsKept(PoweredStep(cfg, p, e))
  {
    hide Happen, Tracked;
    HappenFrame(p.c, e);
    HappenHost(p.c, e);
    if PowersOff(p.c, e.version, e.readable) {
      assert Noted(p.c, e) == [PoweredOff(p.c.past[e.version].shutdownStart)];
      if e.works && !p.halting {
        NewEpisode(p, e.version);
      }
    }
  }

  lemma OtherKept(cfg: Config, p: Powered, e: Event)
    requires Tracked(p.c) && HaltsKept(p) && !e.AgentPass? && Orderly(p, e)
    ensures HaltsKept(PoweredStep(cfg, p, e))
  {
    hide Happen, Exec, Tracked;
    if e.Call? && p.c.flight.Some? {
      CallTracked(cfg, p.c, e.o, e.cached);
    } else {
      HappenFrame(p.c, e);
      HappenHost(p.c, e);
      HappenTracked(p.c, e);
    }
  }

  lemma {:induction false} RunKept(cfg: Config, p: Powered, events: seq<Event>)
    requires Tracked(p.c) && HaltsKept(p) && AllOrderly(cfg, p, events)
    ensures var q := PoweredRun(cfg, p, events);
            Tracked(q.c) && HaltsKept(q) && q.c == Run(cfg, p.c, events)
    decreases events
  {
    hide Exec, Happen, Tracked, HaltsKept;
    if events == [] {
    } else {
      var e := events[0];
      if e.Call? && p.c.flight.Some? {
        CallTracked(cfg, p.c, e.o, e.cached);
      } else {
        HappenTracked(p.c, e);
      }
      if e.AgentPass? {
        AgentKept(cfg, p, e);
      } else {
        OtherKept(cfg, p, e);
      }
      RunKept(cfg, PoweredStep(cfg, p, e), events[1..]);
    }
  }

  /** In every run of a new Machine whose agent can read its boot time: no episode takes the host down
      twice, and every power-off that took effect is on the log of the run, where each is proved safe. */
  lemma {:induction false} NoEpisodeHaltsTwice(cfg: Config, c: Cell, events: seq<Event>)
    requires Created(c) && c.boot <= c.clock
    requires AllOrderly(cfg, Powered(c, false, c.clock, []), events)
    ensures var q := PoweredRun(cfg, Powered(c, false, c.clock, []), events);
            && q.c == Run(cfg, c, events)
            && (forall i, j :: 0 <= i < j < |q.halts| ==> q.halts[i] != q.halts[j])
            && (forall e :: e in q.halts ==> PoweredOff(e) in q.c.log)
  {
    hide Apply;
    RunKept(cfg, Powered(c, false, c.clock, []), events);
  }

  /** And wherever such a run has come to, on a running host the agent powers off for a ShuttingDown
      version it reads exactly if the host has not booted since that episode opened: a failed power-off
      is retried, one that took effect is not repeated, and no later episode is skipped. */
  lemma {:induction false} PowersOffExactlyWhenDueInRun(cfg: Config, c: Cell, events: seq<Event>, version: nat)
    requires Created(c) && c.boot <= c.clock
    requires AllOrderly(cfg, Powered(c, false, c.clock, []), events)
    ensures var q := PoweredRun(cfg, Powered(c, false, c.clock, []), events);
            !q.halting && version < |q.c.past| && Responsible(q.c.m.nodeName, q.c.past[version]) ==>
              && q.c.past[version].shutdownStart.Some?
              && (PowersOff(q.c, version, true) <==> q.c.boot <= q.c.past[version].shutdownStart.value)
  {
    hide Apply;
    RunKept(cfg, Powered(c, false, c.clock, []), events);
  }

  // ---------- redelivery ----------

  /** One agent process goes on, and the ShuttingDown versions delivered to it are of one episode. */
  predicate Redelivers(c: Cell, e: Event, episode: Option<int>) {
    && !e.AgentRestart? && !e.HostBoot?
    && (e.AgentPass? && e.version < |c.past| && c.past[e.version].state == ShuttingDown ==>
          c.past[e.version].shutdownStart == episode)
  }

  lemma StepRedelivers(cfg: Config, c: Cell, e: Event, episode: Option<int>)
    requires c.agent.issued && c.agent.issuedFor == episode && Redelivers(c, e, episode)
    ensures var d := Apply(cfg, c, e);
            d.agent == c.agent && forall x :: PoweredOff(x) in d.log ==> PoweredOff(x) in c.log
  {
    hide Happen, Exec;
    if e.Call? && c.flight.Some? {
      CallSendsNoPowerOff(cfg, c, e.o, e.cached);
    } else {
      HappenFrame(c, e);
      HappenHost(c, e);
    }
  }

  lemma CallSendsNoPowerOff(cfg: Config, c: Cell, o: Outcome, cached: seq<Pod>)
    requires c.flight.Some?
    ensures var d := Exec(cfg, c, o, cached);
            d.agent == c.agent && forall x :: PoweredOff(x) in d.log ==> PoweredOff(x) in c.log
  {
    hide NextMachine, NextNode, NextPods, NextPc, NextCopy, NextEvidence;
  }

  /** Once an agent process has powered off for an episode, no redelivery of that episode makes it send
      another power-off, in any run until the process ends. */
  lemma {:induction false} RedeliveryIsNoOp(cfg: Config, c: Cell, episode: Option<int>, events: seq<Event>)
    requires c.agent.issued && c.agent.issuedFor == episode
    requires Always(cfg, c, events, (d: Cell, e: Event) => Redelivers(d, e, episode))
    ensures forall x :: PoweredOff(x) in Run(cfg, c, events).log ==> PoweredOff(x) in c.log
    decreases events
  {
    hide Apply;
    if events != [] {
      StepRedelivers(cfg, c, events[0], episode);
      RedeliveryIsNoOp(cfg, Apply(cfg, c, events[0]), episode, events[1..]);
    }
  }
}
