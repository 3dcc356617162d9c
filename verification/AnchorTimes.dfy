/** The anchors are true: in every run each holds the very moment its state was entered, and no deadline
    is judged passed before that moment plus the budget. */
module AnchorTimes {
  import opened Api
  import opened Lifecycle

  /** The Machine went from `from` to `to` in the step after `states[k]`, at the time `at`, and has been
      in `to` ever since. */
  ghost predicate Entered(states: seq<Cell>, k: int, from: State, to: State, at: int) {
    && 0 <= k < |states| - 1 && states[k].clock == at
    && states[k].m.state == from && (forall j :: k < j < |states| ==> states[j].m.state == to)
  }

  ghost predicate EnteredAt(states: seq<Cell>, from: State, to: State, anchor: Option<int>) {
    anchor.Some? && exists k :: Entered(states, k, from, to, anchor.value)
  }

  /** The anchor of the state the Machine is in is the moment it got there. */
  ghost predicate Anchors(states: seq<Cell>, m: Machine) {
    match m.state
    case Booting => EnteredAt(states, Off, Booting, m.bootStart)
    case Draining => EnteredAt(states, Ready, Draining, m.drainStart)
    case ShuttingDown => EnteredAt(states, Draining, ShuttingDown, m.shutdownStart)
    case _ => true
  }

  function BudgetOf(c: Cell): int {
    PolicyOf(Matching(c.pools, c.m.name)).timeout
  }

  ghost predicate BootExpired(cfg: Config, states: seq<Cell>, start: Option<int>) {
    start.Some? && exists j :: 0 <= j < |states| && states[j].clock >= start.value + cfg.bootTimeout
  }

  ghost predicate DrainExpired(states: seq<Cell>, start: Option<int>) {
    start.Some? && exists j :: 0 <= j < |states| && states[j].clock > start.value + BudgetOf(states[j])
  }

  ghost predicate ShutdownExpired(cfg: Config, states: seq<Cell>, start: Option<int>) {
    start.Some? && exists j :: 0 <= j < |states| && states[j].clock > start.value + cfg.shutdownTimeout
  }

  ghost predicate Rejected(events: seq<Event>) {
    exists e :: e in events && e.Call? && e.o == Invalid
  }

  /** A pass about to fail the Machine has found the deadline passed, or had a template rejected. */
  ghost predicate Judged(cfg: Config, states: seq<Cell>, rejected: bool, c: Cell) {
    c.flight.Some? ==>
      var pc := c.flight.value.pc;
      && (pc.SaveBootFailed? && c.m.state == Booting ==> rejected || BootExpired(cfg, states, c.m.bootStart))
      && (pc.SaveDrainFailed? || ((pc.UncordonRead? || pc.UncordonReread? || pc.UncordonPatch?) && pc.why == TimingOut) ==>
            DrainExpired(states, c.m.drainStart))
      && (pc.SaveShutdownFailed? ==> ShutdownExpired(cfg, states, c.m.shutdownStart))
  }

  /** The pass's copy carries the stored anchors. */
  ghost predicate Copied(c: Cell) {
    c.flight.Some? ==>
      var m := c.flight.value.m;
      m.bootStart == c.m.bootStart && m.drainStart == c.m.drainStart && m.shutdownStart == c.m.shutdownStart
  }

  ghost predicate True(cfg: Config, states: seq<Cell>, rejected: bool, c: Cell) {
    && states != [] && states[|states| - 1] == c && Coherent(c) && Copied(c)
    && Anchors(states, c.m) && Judged(cfg, states, rejected, c)
  }

  // ---------- longer histories ----------

  lemma EnteredStays(states: seq<Cell>, d: Cell, from: State, to: State, anchor: Option<int>)
    requires EnteredAt(states, from, to, anchor) && d.m.state == to
    ensures EnteredAt(states + [d], from, to, anchor)
  {
    var k :| Entered(states, k, from, to, anchor.value);
    assert Entered(states + [d], k, from, to, anchor.value);
  }

  lemma EntersNow(states: seq<Cell>, d: Cell, from: State, to: State)
    requires states != [] && states[|states| - 1].m.state == from && d.m.state == to
    ensures EnteredAt(states + [d], from, to, Some(states[|states| - 1].clock))
  {
    assert Entered(states + [d], |states| - 1, from, to, states[|states| - 1].clock);
  }

  lemma ExpiredStays(cfg: Config, states: seq<Cell>, d: Cell, start: Option<int>)
    ensures BootExpired(cfg, states, start) ==> BootExpired(cfg, states + [d], start)
    ensures DrainExpired(states, start) ==> DrainExpired(states + [d], start)
    ensures ShutdownExpired(cfg, states, start) ==> ShutdownExpired(cfg, states + [d], start)
  {
    var all := states + [d];
    assert forall j :: 0 <= j < |states| ==> all[j] == states[j];
    if BootExpired(cfg, states, start) {
      var j :| 0 <= j < |states| && states[j].clock >= start.value + cfg.bootTimeout;
      assert all[j].clock >= start.value + cfg.bootTimeout;
    }
    if DrainExpired(states, start) {
      var j :| 0 <= j < |states| && states[j].clock > start.value + BudgetOf(states[j]);
      assert all[j].clock > start.value + BudgetOf(all[j]);
    }
    if ShutdownExpired(cfg, states, start) {
      var j :| 0 <= j < |states| && states[j].clock > start.value + cfg.shutdownTimeout;
      assert all[j].clock > start.value + cfg.shutdownTimeout;
    }
  }

  // ---------- one call ----------

  lemma DropsKeepAnchors(m: Machine)
    ensures WithoutDrain(m) == m.(drainNow := WithoutDrain(m).drainNow, version := WithoutDrain(m).version)
    ensures WithoutWake(m) == m.(wakeNow := WithoutWake(m).wakeNow, version := WithoutWake(m).version)
  {}

  lemma CallCopies(c: Cell, f: Flight, o: Outcome)
    requires f.m.bootStart == c.m.bootStart && f.m.drainStart == c.m.drainStart && f.m.shutdownStart == c.m.shutdownStart
    ensures var m, copy := NextMachine(c, f, o), NextCopy(c, f, o);
            copy.bootStart == m.bootStart && copy.drainStart == m.drainStart && copy.shutdownStart == m.shutdownStart
    ensures KindOf(f.pc) != Saving ==>
              var m := NextMachine(c, f, o);
              m.bootStart == c.m.bootStart && m.drainStart == c.m.drainStart && m.shutdownStart == c.m.shutdownStart && m.state == c.m.state
  {
    hide Edited, KindOf, WithoutDrain, WithoutWake;
    DropsKeepAnchors(c.m);
  }

  /** Where a state with an anchor is entered, the anchor is the clock; where it is kept, so is the anchor. */
  predicate Stamps(now: int, before: Machine, m: Machine) {
    && (m.state == Booting ==> if before.state == Booting then m.bootStart == before.bootStart else before.state == Off && m.bootStart == Some(now))
    && (m.state == Draining ==>
          if before.state == Draining then m.drainStart == before.drainStart else before.state == Ready && m.drainStart == Some(now))
    && (m.state == ShuttingDown ==>
          if before.state == ShuttingDown then m.shutdownStart == before.shutdownStart else before.state == Draining && m.shutdownStart == Some(now))
  }

  lemma SaveStamps(pc: Pc, m: Machine, now: int)
    requires InState(pc, m.state) && KindOf(pc) == Saving
    ensures Stamps(now, m, Edited(pc, m, now))
  {}

  lemma CallAnchors(c: Cell, f: Flight, o: Outcome)
    requires f.m.state == c.m.state && InState(f.pc, f.m.state)
    requires f.m.bootStart == c.m.bootStart && f.m.drainStart == c.m.drainStart && f.m.shutdownStart == c.m.shutdownStart
    ensures Stamps(c.clock, c.m, NextMachine(c, f, o))
  {
    hide Edited, KindOf, InState;
    CallCopies(c, f, o);
    if Saves(c, f, o) {
      SaveStamps(f.pc, f.m, c.clock);
    }
  }

  /** The calls that lead to a failing save, in fields. */
  lemma ReadJudges(cfg: Config, c: Cell, f: Flight, cached: seq<Pod>)
    requires InState(f.pc, c.m.state) && KindOf(f.pc) == Reading
    ensures var pc := AfterRead(cfg, c, f, cached);
            && (pc.SaveBootFailed? ==> f.m.bootStart.Some? && c.clock >= f.m.bootStart.value + cfg.bootTimeout)
            && (pc.SaveShutdownFailed? ==> f.m.shutdownStart.Some? && c.clock > f.m.shutdownStart.value + cfg.shutdownTimeout)
            && (pc.SaveDrainFailed? || ((pc.UncordonRead? || pc.UncordonReread? || pc.UncordonPatch?) && pc.why == TimingOut) ==>
                  || ((f.pc.UncordonRead? || f.pc.UncordonReread?) && f.pc.why == TimingOut)
                  || (f.m.drainStart.Some? && c.clock > f.m.drainStart.value + BudgetOf(c)))
  {
    hide PolicyOf, Matching, Evictable;
  }

  lemma OtherJudges(cfg: Config, c: Cell, f: Flight, o: Outcome, cached: seq<Pod>)
    requires KindOf(f.pc) != Reading
    ensures var pc := NextPc(cfg, c, f, o, cached, NextCopy(c, f, o));
            && (pc.SaveBootFailed? ==> o == Invalid || (f.m.bootStart.Some? && c.clock >= f.m.bootStart.value + cfg.bootTimeout))
            && !pc.SaveShutdownFailed?
            && (pc.SaveDrainFailed? || ((pc.UncordonRead? || pc.UncordonReread? || pc.UncordonPatch?) && pc.why == TimingOut) ==>
                  f.pc.UncordonPatch? && f.pc.why == TimingOut)
            && (pc.SaveBootFailed? || pc.SaveDrainFailed? || pc.UncordonRead? || pc.UncordonReread? || pc.UncordonPatch? ==> KindOf(f.pc) != Saving)
  {
    hide NextCopy, AfterRead;
  }

  lemma CallJudged(cfg: Config, states: seq<Cell>, rejected: bool, c: Cell, o: Outcome, cached: seq<Pod>)
    requires True(cfg, states, rejected, c) && c.flight.Some?
    ensures var d := Exec(cfg, c, o, cached);
            Judged(cfg, states + [d], rejected || o == Invalid, d)
  {
    hide NextMachine, NextNode, NextPods, NextPc, NextCopy, NextEvidence, Effects, Anchors, BootExpired, DrainExpired, ShutdownExpired;
    var f := c.flight.value;
    var d := Exec(cfg, c, o, cached);
    CallCopies(c, f, o);
    ExpiredStays(cfg, states, d, c.m.bootStart);
    ExpiredStays(cfg, states, d, c.m.drainStart);
    ExpiredStays(cfg, states, d, c.m.shutdownStart);
    ExpiredNow(cfg, states, c);
    if KindOf(f.pc) == Reading && o == Done {
      ReadPc(cfg, c, f, cached);
      ReadJudges(cfg, c, f, cached);
    } else if KindOf(f.pc) == Reading {
      FailedRead(cfg, c, f, o, cached);
    } else {
      OtherJudges(cfg, c, f, o, cached);
    }
  }

  lemma ReadPc(cfg: Config, c: Cell, f: Flight, cached: seq<Pod>)
    requires KindOf(f.pc) == Reading
    ensures NextPc(cfg, c, f, Done, cached, NextCopy(c, f, Done)) == AfterRead(cfg, c, f, cached)
  {
    hide AfterRead, NextCopy;
  }

  lemma FailedRead(cfg: Config, c: Cell, f: Flight, o: Outcome, cached: seq<Pod>)
    requires KindOf(f.pc) == Reading && o != Done
    ensures NextPc(cfg, c, f, o, cached, NextCopy(c, f, o)) == Return(Backoff)
  {
    hide AfterRead, NextCopy;
  }

  /** A deadline the present cell shows passed is passed in its history. */
  lemma ExpiredNow(cfg: Config, states: seq<Cell>, c: Cell)
    requires states != [] && states[|states| - 1] == c
    ensures c.m.bootStart.Some? && c.clock >= c.m.bootStart.value + cfg.bootTimeout ==> BootExpired(cfg, states, c.m.bootStart)
    ensures c.m.drainStart.Some? && c.clock > c.m.drainStart.value + BudgetOf(c) ==> DrainExpired(states, c.m.drainStart)
    ensures c.m.shutdownStart.Some? && c.clock > c.m.shutdownStart.value + cfg.shutdownTimeout ==> ShutdownExpired(cfg, states, c.m.shutdownStart)
  {
    hide BudgetOf;
  }

  lemma AnchorsOnward(states: seq<Cell>, c: Cell, d: Cell)
    requires states != [] && states[|states| - 1] == c && Anchors(states, c.m)
    requires Stamps(c.clock, c.m, d.m)
    ensures Anchors(states + [d], d.m)
  {
    hide EnteredAt;
    match d.m.state
    case Booting =>
      if c.m.state == Booting {
        EnteredStays(states, d, Off, Booting, c.m.bootStart);
      } else {
        EntersNow(states, d, Off, Booting);
      }
    case Draining =>
      if c.m.state == Draining {
        EnteredStays(states, d, Ready, Draining, c.m.drainStart);
      } else {
        EntersNow(states, d, Ready, Draining);
      }
    case ShuttingDown =>
      if c.m.state == ShuttingDown {
        EnteredStays(states, d, Draining, ShuttingDown, c.m.shutdownStart);
      } else {
        EntersNow(states, d, Draining, ShuttingDown);
      }
    case _ =>
  }

  lemma CallTrue(cfg: Config, states: seq<Cell>, rejected: bool, c: Cell, o: Outcome, cached: seq<Pod>)
    requires True(cfg, states, rejected, c) && c.flight.Some?
    ensures var d := Exec(cfg, c, o, cached);
            True(cfg, states + [d], rejected || o == Invalid, d)
  {
    hide NextMachine, NextNode, NextPods, NextPc, NextCopy, NextEvidence, Effects, Anchors, Judged;
    var f := c.flight.value;
    var d := Exec(cfg, c, o, cached);
    ExecCoherent(cfg, c, o, cached);
    CallCopies(c, f, o);
    CallAnchors(c, f, o);
    CallJudged(cfg, states, rejected, c, o, cached);
    AnchorsOnward(states, c, d);
  }

  lemma HappenTrue(cfg: Config, states: seq<Cell>, rejected: bool, c: Cell, e: Event, now: bool)
    requires True(cfg, states, rejected, c) && (rejected ==> now)
    ensures var d := Happen(c, e);
            True(cfg, states + [d], now, d)
  {
    hide Happen, Coherent, Anchors, BootExpired, DrainExpired, ShutdownExpired;
    var d := Happen(c, e);
    HappenCoherent(c, e);
    HappenFrame(c, e);
    AnchorsOnward(states, c, d);
    ExpiredStays(cfg, states, d, c.m.bootStart);
    ExpiredStays(cfg, states, d, c.m.drainStart);
    ExpiredStays(cfg, states, d, c.m.shutdownStart);
  }

  // ---------- every run ----------

  lemma {:induction false} RunTrue(cfg: Config, states: seq<Cell>, rejected: bool, c: Cell, events: seq<Event>)
    requires states != [] && True(cfg, states, rejected, c)
    ensures True(cfg, states[..|states| - 1] + States(cfg, c, events), rejected || Rejected(events), Run(cfg, c, events))
    decreases events
  {
    hide Exec, Happen, Anchors, Judged, Coherent;
    var before := states[..|states| - 1];
    if events == [] {
      assert before + States(cfg, c, events) == states;
    } else {
      var e := events[0];
      var d := Apply(cfg, c, e);
      var now := rejected || (e.Call? && e.o == Invalid);
      if e.Call? && c.flight.Some? {
        CallTrue(cfg, states, rejected, c, e.o, e.cached);
      } else {
        HappenTrue(cfg, states, rejected, c, e, now);
      }
      RunTrue(cfg, states + [d], now, d, events[1..]);
      assert Rejected(events) <==> (e.Call? && e.o == Invalid) || Rejected(events[1..]);
      assert (states + [d])[..|states|] == states == before + [c];
      assert before + States(cfg, c, events) == states + States(cfg, d, events[1..]);
    }
  }

  lemma {:induction false} FromCreation(cfg: Config, c: Cell, events: seq<Event>)
    requires Created(c)
    ensures True(cfg, States(cfg, c, events), Rejected(events), Run(cfg, c, events))
  {
    hide Apply;
    assert True(cfg, [c], false, c);
    RunTrue(cfg, [c], false, c, events);
    assert [c][..0] + States(cfg, c, events) == States(cfg, c, events);
  }

  /** In every run of a new Machine, the anchor of a Booting, Draining or ShuttingDown Machine is the time
      at which it went there, from Off, Ready or Draining, and it has stayed there since. */
  lemma {:induction false} AnchorIsTheEntry(cfg: Config, c: Cell, events: seq<Event>)
    requires Created(c)
    ensures Anchors(States(cfg, c, events), Run(cfg, c, events).m)
  {
    hide Apply, Anchors;
    FromCreation(cfg, c, events);
  }

  /** In every run of a new Machine, it goes from Draining to Failed only if at some moment more than the
      drain budget of its pools had passed since it began to drain, from ShuttingDown to Failed only past
      the shutdown budget, and from Booting to Failed only once the boot budget was used up or the API
      server rejected a template. */
  lemma {:induction false} FailsOnlyPastTheBudget(cfg: Config, c: Cell, events: seq<Event>, e: Event)
    requires Created(c) && Apply(cfg, Run(cfg, c, events), e).m.state == Failed
    ensures var d := Run(cfg, c, events);
            var states := States(cfg, c, events);
            && (d.m.state == Draining ==> DrainExpired(states, d.m.drainStart))
            && (d.m.state == ShuttingDown ==> ShutdownExpired(cfg, states, d.m.shutdownStart))
            && (d.m.state == Booting ==> Rejected(events) || BootExpired(cfg, states, d.m.bootStart))
  {
    hide Exec, Happen, Anchors, BootExpired, DrainExpired, ShutdownExpired;
    FromCreation(cfg, c, events);
    var d := Run(cfg, c, events);
    if e.Call? && d.flight.Some? {
      FailingSave(cfg, d, e.o, e.cached);
    } else {
      HappenFrame(d, e);
    }
  }

  lemma FailingSave(cfg: Config, c: Cell, o: Outcome, cached: seq<Pod>)
    requires Coherent(c) && c.flight.Some? && Exec(cfg, c, o, cached).m.state == Failed
    ensures var pc := c.flight.value.pc;
            && (c.m.state == Draining ==> pc == SaveDrainFailed)
            && (c.m.state == ShuttingDown ==> pc == SaveShutdownFailed)
            && (c.m.state == Booting ==> pc == SaveBootFailed)
  {
    hide NextNode, NextPods, NextPc, NextCopy, NextEvidence, Effects;
    NextState(c, c.flight.value, o);
  }
}
