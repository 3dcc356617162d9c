/** The on-node agent that powers its host off once per ShuttingDown episode
    (internal/shutdownagent/reconciler.go). An episode is the ShutdownStartTime the controller wrote
    when it entered ShuttingDown. */
module ShutdownAgent {
  import opened Api

  /** What one agent process remembers; a restart loses it. */
  datatype Memory = Memory(issued: bool, issuedFor: Option<int>)

  const FRESH := Memory(false, None)

  datatype Act = Ignore | Skip | PowerOff

  /** The agent is the one meant to halt this host for this Machine. */
  predicate Responsible(nodeName: string, m: Machine) {
    && m.nodeName == nodeName
    && m.state == ShuttingDown
    && (m.shutdownProvider.None? || m.shutdownProvider.value == "" || m.shutdownProvider.value == "agent")
  }

  /** An unknown episode or an unreadable boot time answers false. */
  predicate BootedAfter(boot: Option<int>, episode: Option<int>) {
    boot.Some? && episode.Some? && episode.value < boot.value
  }

  function Decide(mem: Memory, nodeName: string, m: Machine, boot: Option<int>): Act {
    if !Responsible(nodeName, m) then Ignore
    else if mem.issued && mem.issuedFor == m.shutdownStart then Ignore
    else if BootedAfter(boot, m.shutdownStart) then Skip
    else PowerOff
  }

  function Remember(mem: Memory, act: Act, works: bool, episode: Option<int>): Memory {
    if act == Skip || (act == PowerOff && works) then Memory(true, episode) else mem
  }

  /** The reconciler with the two fields it updates around the power-off command. */
  class ShutdownReconciler {
    const nodeName: string
    var issued: bool
    var issuedFor: Option<int>

    constructor (nodeName: string)
      ensures this.nodeName == nodeName && Mem() == FRESH
    {
      this.nodeName := nodeName;
      issued, issuedFor := false, None;
    }

    function Mem(): Memory
      reads this
    {
      Memory(issued, issuedFor)
    }

    /** One reconcile; `works` is whether the power-off command succeeds if it is run. A Machine
        that is gone reads as `None`. */
    method Reconcile(read: Option<Machine>, boot: Option<int>, works: bool) returns (ran: bool, err: bool)
      modifies this
      ensures ran <==>
        && read.Some? && read.value.nodeName == nodeName && read.value.state == ShuttingDown
        && read.value.shutdownProvider in {None, Some(""), Some("agent")}
        && !(old(issued) && old(issuedFor) == read.value.shutdownStart)
        && !(boot.Some? && read.value.shutdownStart.Some? && read.value.shutdownStart.value < boot.value)
      ensures read.None? ==> !ran && !err && Mem() == old(Mem())
      ensures read.Some? ==>
        var act := Decide(old(Mem()), nodeName, read.value, boot);
        && (ran <==> act == PowerOff)
        && (err <==> ran && !works)
        && Mem() == Remember(old(Mem()), act, works, read.value.shutdownStart)
    {
      ran, err := false, false;
      if read.None? {
        return;
      }
      var m := read.value;
      if m.nodeName != nodeName {
        return;
      }
      if m.state != ShuttingDown {
        return;
      }
      if m.shutdownProvider.Some? && m.shutdownProvider.value != "" && m.shutdownProvider.value != "agent" {
        return;
      }
      var episode := m.shutdownStart;
      if issued && issuedFor == episode {
        return;
      }
      if BootedAfter(boot, episode) {
        issued, issuedFor := true, episode;
        return;
      }
      ran := true;
      if !works {
        err := true;
        return;
      }
      issued, issuedFor := true, episode;
    }
  }

  // ---------- one host over any number of agent restarts and reboots ----------

  /** `halting` is a host that has accepted a power-off and is on its way down; `halts` are the
      episodes whose power-off took effect. */
  datatype Host = Host(nodeName: string, clock: int, boot: int, halting: bool, mem: Memory, halts: seq<Option<int>>)

  datatype HostEvent =
    | Observed(m: Machine, works: bool, readable: bool)
    | AgentRestarted
    | CameUp(after: nat)
    | Passed(seconds: nat)

  function BootReading(h: Host, readable: bool): Option<int> {
    if readable then Some(h.boot) else None
  }

  function HostStep(h: Host, e: HostEvent): Host {
    match e
    case Observed(m, works, readable) =>
      var act := Decide(h.mem, h.nodeName, m, BootReading(h, readable));
      var next := h.(mem := Remember(h.mem, act, works, m.shutdownStart));
      if act == PowerOff && works && !h.halting then
        next.(halting := true, halts := h.halts + [m.shutdownStart])
      else
        next
    case AgentRestarted => h.(mem := FRESH)
    case CameUp(after) =>
      var now := h.clock + after + 1;
      h.(clock := now, boot := now, halting := false, mem := FRESH)
    case Passed(seconds) => h.(clock := h.clock + seconds)
  }

  function HostRun(h: Host, events: seq<HostEvent>): Host
    decreases events
  {
    if events == [] then h else HostRun(HostStep(h, events[0]), events[1..])
  }

  /** The agent reads its boot time, and only sees episodes the controller opened by now. */
  predicate Anchored(h: Host, e: HostEvent) {
    e.Observed? ==> e.readable && (e.m.shutdownStart.Some? ==> e.m.shutdownStart.value <= h.clock)
                    && (Responsible(h.nodeName, e.m) ==> e.m.shutdownStart.Some?)
  }

  ghost predicate AllAnchored(h: Host, events: seq<HostEvent>)
    decreases events
  {
    events == [] || (Anchored(h, events[0]) && AllAnchored(HostStep(h, events[0]), events[1..]))
  }

  predicate Started(h: Host) {
    h.mem == FRESH && h.halts == [] && !h.halting && h.boot <= h.clock
  }

  ghost predicate HostInvariant(h: Host) {
    && (forall e :: e in h.halts ==> e.Some? && e.value <= h.clock && (h.halting || e.value < h.boot))
    && (forall i, j :: 0 <= i < j < |h.halts| ==> h.halts[i] != h.halts[j])
    && (h.mem.issued && !h.halting ==> h.mem.issuedFor.Some? && h.mem.issuedFor.value < h.boot)
  }

  lemma HostStepKeeps(h: Host, e: HostEvent)
    requires HostInvariant(h) && Anchored(h, e)
    ensures HostInvariant(HostStep(h, e))
  {
    if e.Observed? && Decide(h.mem, h.nodeName, e.m, BootReading(h, e.readable)) == PowerOff && e.works && !h.halting {
      assert e.m.shutdownStart !in h.halts;
    }
  }

  lemma {:induction false} HostRunKeeps(h: Host, events: seq<HostEvent>)
    requires HostInvariant(h) && AllAnchored(h, events)
    ensures HostInvariant(HostRun(h, events))
    decreases events
  {
    if events == [] {
    } else {
      HostStepKeeps(h, events[0]);
      HostRunKeeps(HostStep(h, events[0]), events[1..]);
    }
  }

  /** Across any restarts of the agent and any reboots of the host, at most one power-off takes
      effect per episode. */
  lemma {:induction false} AtMostOnePowerOff(h: Host, events: seq<HostEvent>)
    requires Started(h) && AllAnchored(h, events)
    ensures var halts := HostRun(h, events).halts;
            forall i, j :: 0 <= i < j < |halts| ==> halts[i] != halts[j]
  {
    HostRunKeeps(h, events);
  }

  /** The observation is a ShuttingDown Machine of this very host, to be halted by the agent. */
  predicate OfThisHost(h: Host, e: HostEvent) {
    && e.Observed? && e.m.nodeName == h.nodeName && e.m.state == ShuttingDown
    && e.m.shutdownProvider in {None, Some(""), Some("agent")}
  }

  /** An agent halts only its own host: every power-off that took effect goes back to an observation of
      a ShuttingDown Machine with this node name, whatever other Machines the agent was shown. */
  lemma {:induction false} HaltsOnlyItsOwnHost(h: Host, events: seq<HostEvent>, episode: Option<int>)
    requires episode in HostRun(h, events).halts
    ensures episode in h.halts
            || exists i :: 0 <= i < |events| && OfThisHost(h, events[i]) && events[i].m.shutdownStart == episode
    decreases events
  {
    if events == [] {
    } else {
      var next := HostStep(h, events[0]);
      HaltsOnlyItsOwnHost(next, events[1..], episode);
      if episode in next.halts {
        assert episode in h.halts || (OfThisHost(h, events[0]) && events[0].m.shutdownStart == episode);
      } else {
        var i :| 0 <= i < |events[1..]| && OfThisHost(next, events[1..][i]) && events[1..][i].m.shutdownStart == episode;
        assert events[i + 1] == events[1..][i];
      }
    }
  }

  /** On a running host the agent runs the power-off exactly when the host has not booted since the
      episode was opened. So a failed power-off is tried again at the next observation, a restart
      repeats none that took effect, and no later episode is skipped. */
  lemma {:induction false} PowersOffExactlyWhenDue(h: Host, events: seq<HostEvent>, m: Machine)
    requires Started(h) && AllAnchored(h, events)
    requires Responsible(h.nodeName, m) && m.shutdownStart.Some?
    ensures var now := HostRun(h, events);
            !now.halting ==>
              (Decide(now.mem, now.nodeName, m, Some(now.boot)) == PowerOff <==> now.boot <= m.shutdownStart.value)
  {
    HostRunKeeps(h, events);
    HostNameKept(h, events);
  }

  lemma {:induction false} HostNameKept(h: Host, events: seq<HostEvent>)
    ensures HostRun(h, events).nodeName == h.nodeName
    decreases events
  {
    if events == [] {
    } else {
      HostNameKept(HostStep(h, events[0]), events[1..]);
    }
  }

  /** Both assumptions are needed: with no anchor on the episode, or with an unreadable boot time,
      the same episode takes the host down again after every boot. */
  lemma {:induction false} RepeatsWithoutAnchor(h: Host, m: Machine, readable: bool)
    requires Started(h) && Responsible(h.nodeName, m)
    requires m.shutdownStart.None? || !readable
    ensures HostRun(h, [Observed(m, true, readable), CameUp(0), Observed(m, true, readable)]).halts
            == [m.shutdownStart, m.shutdownStart]
  {
    var events := [Observed(m, true, readable), CameUp(0), Observed(m, true, readable)];
    var h1 := HostStep(h, events[0]);
    var h2 := HostStep(h1, events[1]);
    var h3 := HostStep(h2, events[2]);
    assert events[1..][1..][1..] == [];
    assert HostRun(h3, events[1..][1..][1..]) == h3;
    assert HostRun(h2, events[1..][1..]) == h3;
    assert HostRun(h1, events[1..]) == h3;
  }
}
