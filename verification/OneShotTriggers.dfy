/** wake-now and drain-now are one-shot: over every run, crashes included, the Machine starts
    booting at most once per wake request and starts draining at most once per drain request. */
module OneShotTriggers {
  import opened Api
  import opened Lifecycle

  function Times(log: seq<Effect>, x: Effect): nat {
    multiset(log)[x]
  }

  /** A request still waiting to be honoured. Once booting, an annotation left behind is spent. */
  predicate WakeWaiting(m: Machine) {
    WakeRequested(m) && m.state != Booting && m.state != Ready && m.state != Failed
  }

  predicate DrainWaiting(m: Machine) {
    DrainRequested(m) && m.state != Draining
  }

  /** What a pass knows about the triggers of its own copy by the time it reaches `pc`. */
  predicate Tidied(pc: Pc, m: Machine) {
    match pc
    case OffPowerOn | OffSaveBooting => WakeRequested(m)
    case ReadyReadNode | SaveLost => m.wakeNow.None?
    case DrainGate | SaveDraining => m.wakeNow.None? && DrainRequested(m)
    case DrainReadNode | DrainReadPools | CordonRead(_) | DrainListCached(_) | DrainListFresh | SaveShuttingDown
       | SaveAborted | SaveDrainFailed => m.drainNow.None?
    case UncordonRead(why) => why != Waking ==> m.drainNow.None?
    case UncordonReread(why) => why != Waking ==> m.drainNow.None?
    case UncordonPatch(why, _, _) => why != Waking ==> m.drainNow.None?
    case _ => true
  }

  ghost predicate Ledger(c: Cell) {
    && Coherent(c)
    && (c.flight.Some? ==> Tidied(c.flight.value.pc, c.flight.value.m))
    && Times(c.log, Moved(Off, Booting)) + (if WakeWaiting(c.m) then 1 else 0) <= Times(c.log, AskedWake)
    && Times(c.log, Moved(Ready, Draining)) + (if DrainWaiting(c.m) then 1 else 0) <= Times(c.log, AskedDrain)
  }

  lemma TidiedNext(cfg: Config, c: Cell, f: Flight, o: Outcome, cached: seq<Pod>)
    requires Tidied(f.pc, f.m)
    ensures var m := NextCopy(c, f, o);
            Tidied(NextPc(cfg, c, f, o, cached, m), m)
  {
    hide AfterRead, NextMachine, AfterTemplating;
    TidiedCopy(c, f, o);
    if KindOf(f.pc) == Reading {
      TidiedRead(cfg, c, f, cached);
    }
    if KindOf(f.pc) == Templating {
      TidiedTemplating(cfg, c, f, o);
    }
  }

  lemma TidiedRead(cfg: Config, c: Cell, f: Flight, cached: seq<Pod>)
    requires Tidied(f.pc, f.m) && KindOf(f.pc) == Reading
    ensures Tidied(AfterRead(cfg, c, f, cached), f.m)
  {}

  lemma TidiedTemplating(cfg: Config, c: Cell, f: Flight, o: Outcome)
    requires KindOf(f.pc) == Templating
    ensures Tidied(AfterTemplating(cfg, c, f, o), f.m)
  {}

  /** Removing a trigger leaves none in the copy; no other call touches the copy's triggers. */
  lemma TidiedCopy(c: Cell, f: Flight, o: Outcome)
    ensures var m := NextCopy(c, f, o);
            && (KindOf(f.pc) in {Reading, Saving, Templating, PatchingNode, PoweringOn, Resending, Evicting, Ending}
                ==> m.wakeNow == f.m.wakeNow && m.drainNow == f.m.drainNow)
            && (KindOf(f.pc) == DroppingDrain && (o == Done || f.m.drainNow.None?) ==> m.drainNow.None?)
            && (KindOf(f.pc) == DroppingWake && (o == Done || f.m.wakeNow.None?) ==> m.wakeNow.None?)
            && (KindOf(f.pc) in {Reading, Templating, PatchingNode, PoweringOn, Resending, Evicting} ==> m == f.m)
  {
    hide KindOf;
  }

  /** A call logs a move exactly when it saves one, and never a request. */
  lemma CallLogs(cfg: Config, c: Cell, f: Flight, o: Outcome, x: Effect)
    requires x.Moved? || x == AskedWake || x == AskedDrain
    ensures Times(Effects(cfg, c, f, o), x)
            == if Saves(c, f, o) && x == Moved(c.m.state, Edited(f.pc, f.m, c.clock).state) then 1 else 0
  {}

  lemma SaveSpends(c: Cell, f: Flight, o: Outcome)
    requires f.m.state == c.m.state && InState(f.pc, f.m.state) && Tidied(f.pc, f.m)
    requires f.m.version == c.m.version ==> f.m == c.m
    ensures var m := NextMachine(c, f, o);
            && (WakeWaiting(m) ==> WakeWaiting(c.m))
            && (DrainWaiting(m) ==> DrainWaiting(c.m))
            && (Saves(c, f, o) && c.m.state == Off && m.state == Booting ==> WakeWaiting(c.m) && !WakeWaiting(m))
            && (Saves(c, f, o) && c.m.state == Ready && m.state == Draining ==> DrainWaiting(c.m) && !DrainWaiting(m))
  {}

  /** A call adds a boot only by spending a waiting wake, a drain only by spending a waiting drain,
      and never makes a spent trigger wait again. */
  lemma CallSpends(cfg: Config, c: Cell, f: Flight, o: Outcome)
    requires f.m.state == c.m.state && InState(f.pc, f.m.state) && Tidied(f.pc, f.m)
    requires f.m.version == c.m.version ==> f.m == c.m
    ensures var m := NextMachine(c, f, o);
            var log := Effects(cfg, c, f, o);
            && Times(log, AskedWake) == 0 && Times(log, AskedDrain) == 0
            && Times(log, Moved(Off, Booting)) + (if WakeWaiting(m) then 1 else 0) <= (if WakeWaiting(c.m) then 1 else 0)
            && Times(log, Moved(Ready, Draining)) + (if DrainWaiting(m) then 1 else 0) <= (if DrainWaiting(c.m) then 1 else 0)
  {
    CallLogs(cfg, c, f, o, AskedWake);
    CallLogs(cfg, c, f, o, AskedDrain);
    CallLogs(cfg, c, f, o, Moved(Off, Booting));
    CallLogs(cfg, c, f, o, Moved(Ready, Draining));
    SaveSpends(c, f, o);
  }

  lemma ExecLedger(cfg: Config, c: Cell, o: Outcome, cached: seq<Pod>)
    requires Ledger(c) && c.flight.Some?
    ensures Ledger(Exec(cfg, c, o, cached))
  {
    var f := c.flight.value;
    ExecCoherent(cfg, c, o, cached);
    TidiedNext(cfg, c, f, o, cached);
    CallSpends(cfg, c, f, o);
    assert multiset(c.log + Effects(cfg, c, f, o)) == multiset(c.log) + multiset(Effects(cfg, c, f, o));
  }

  lemma HappenLedger(c: Cell, e: Event)
    requires Ledger(c)
    ensures Ledger(Happen(c, e))
  {
    hide Happen, Coherent;
    HappenCoherent(c, e);
    HappenFrame(c, e);
    assert Times(Noted(c, e), Moved(Off, Booting)) == Times(Noted(c, e), Moved(Ready, Draining)) == 0;
    assert multiset(c.log + Noted(c, e)) == multiset(c.log) + multiset(Noted(c, e));
  }

  lemma {:induction false} RunLedger(cfg: Config, c: Cell, events: seq<Event>)
    requires Ledger(c)
    ensures Ledger(Run(cfg, c, events))
    decreases events
  {
    if events == [] {
    } else {
      var e := events[0];
      if e.Call? && c.flight.Some? {
        ExecLedger(cfg, c, e.o, e.cached);
      } else {
        HappenLedger(c, e);
      }
      RunLedger(cfg, Apply(cfg, c, e), events[1..]);
    }
  }

  /** In every run of a new Machine: Off -> Booting at most once per wake-now set to its trigger
      value, Ready -> Draining at most once per drain-now. */
  lemma {:induction false} TriggersAreConserved(cfg: Config, c: Cell, events: seq<Event>)
    requires Created(c)
    ensures var log := Run(cfg, c, events).log;
            && Times(log, Moved(Off, Booting)) <= Times(log, AskedWake)
            && Times(log, Moved(Ready, Draining)) <= Times(log, AskedDrain)
  {
    RunLedger(cfg, c, events);
  }
}
