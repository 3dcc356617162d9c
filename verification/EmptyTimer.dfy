/** The empty timer over every run of the cluster: a drain of a Machine is decided on only after a whole
    window in which every evaluation saw it idle. */
module EmptyTimer {
  import opened Api
  import opened Lifecycle
  import opened Clusters
  import opened ScaleDown
  import opened ScalePasses

  /** A completed evaluation: when, whether it saw an idle Machine, whether it started the timer, and
      the window it acted on if it went on to the pool guards. */
  datatype Entry = Entry(at: int, idle: bool, stamped: bool, triggered: Option<int>)

  /** The cluster, with the evaluations of one Machine completed so far. */
  datatype Timed = Timed(cl: Cluster, entries: seq<Entry>)

  /** The first half of a scale-down pass over the Machine, on whatever the pool and pod caches list and
      with its patch going through or not; or any other step of the cluster. */
  datatype TimedEvent = Evaluated(listing: seq<Pool>, cached: seq<Pod>, patched: bool) | Other(h: Happening)

  /** The step is not the scale-down controller's own: nobody else writes the anchor or decides. */
  predicate FromOutside(h: Happening, n: string) {
    !(h.At? && h.n == n && h.e.SetEmptySince?) && !(h.DecideDown? && h.n == n)
  }

  function TimedStep(cfg: Config, n: string, t: Timed, e: TimedEvent): Timed {
    match e
    case Other(h) => if FromOutside(h, n) then t.(cl := Step(cfg, t.cl, h)) else t
    case Evaluated(listing, cached, patched) =>
      if n !in t.cl.cells then t
      else
        var s := Seen(t.cl, n, listing, cached);
        var entry := Entry(t.cl.clock, Idle(s), false, None);
        match Evaluate(s)
        case Ignore => t
        case Clear =>
          if s.m.emptySince.None? then t.(entries := t.entries + [entry])
          else if !patched then t
          else Timed(Step(cfg, t.cl, At(n, SetEmptySince(None))), t.entries + [entry])
        case Stamp =>
          if !patched then t
          else Timed(Step(cfg, t.cl, At(n, SetEmptySince(Some(t.cl.clock)))), t.entries + [entry.(stamped := true)])
        case Hold(_) => t.(entries := t.entries + [entry])
        case Trigger(pool) =>
          Timed(Step(cfg, t.cl, DecideDown(n, pool.name)), t.entries + [entry.(triggered := pool.consolidateAfter)])
  }

  function TimedRun(cfg: Config, n: string, t: Timed, events: seq<TimedEvent>): Timed
    decreases events
  {
    if events == [] then t else TimedRun(cfg, n, TimedStep(cfg, n, t, events[0]), events[1..])
  }

  /** The timer was started at `since` by entry `i`, and every evaluation from there to `n` saw the
      Machine idle. */
  ghost predicate IdleFrom(entries: seq<Entry>, i: int, n: nat, since: int) {
    && 0 <= i < n <= |entries| && entries[i].stamped && entries[i].at == since
    && (forall k :: i <= k < n ==> entries[k].idle)
  }

  ghost predicate IdleSince(entries: seq<Entry>, n: nat, since: int) {
    exists i :: IdleFrom(entries, i, n, since)
  }

  lemma IdleOneMore(entries: seq<Entry>, x: Entry, since: int)
    requires IdleSince(entries, |entries|, since) && x.idle
    ensures IdleSince(entries + [x], |entries| + 1, since)
  {
    var i :| IdleFrom(entries, i, |entries|, since);
    assert IdleFrom(entries + [x], i, |entries| + 1, since);
  }

  lemma IdleFromNow(entries: seq<Entry>, x: Entry, since: int)
    requires x.idle && x.stamped && x.at == since
    ensures IdleSince(entries + [x], |entries| + 1, since)
  {
    assert IdleFrom(entries + [x], |entries|, |entries| + 1, since);
  }

  lemma IdleStays(entries: seq<Entry>, x: Entry, n: nat, since: int)
    requires IdleSince(entries, n, since)
    ensures IdleSince(entries + [x], n, since)
  {
    var i :| IdleFrom(entries, i, n, since);
    assert IdleFrom(entries + [x], i, n, since);
  }

  /** A trigger at position `k` acted on a whole window of idleness. */
  ghost predicate Earned(entries: seq<Entry>, k: nat)
    requires k < |entries|
  {
    entries[k].triggered.Some? ==>
      && entries[k].idle
      && exists since :: since + entries[k].triggered.value <= entries[k].at && IdleSince(entries, k, since)
  }

  lemma EarnedStays(entries: seq<Entry>, x: Entry)
    requires forall k :: 0 <= k < |entries| ==> Earned(entries, k)
    requires x.triggered.Some? ==> x.idle && exists since :: since + x.triggered.value <= x.at && IdleSince(entries, |entries|, since)
    ensures forall k :: 0 <= k < |entries + [x]| ==> Earned(entries + [x], k)
  {
    forall k | 0 <= k < |entries + [x]|
      ensures Earned(entries + [x], k)
    {
      if k < |entries| {
        assert Earned(entries, k);
        if entries[k].triggered.Some? {
          var since :| since + entries[k].triggered.value <= entries[k].at && IdleSince(entries, k, since);
          IdleStays(entries, x, k, since);
        }
      } else if x.triggered.Some? {
        var since :| since + x.triggered.value <= x.at && IdleSince(entries, |entries|, since);
        IdleStays(entries, x, |entries|, since);
      }
    }
  }

  /** The decision under way is one about the Machine. */
  predicate Deciding(cl: Cluster, n: string) {
    !cl.down.Resting? && cl.down.machine == n
  }

  ghost predicate Triggered(entries: seq<Entry>) {
    exists k :: 0 <= k < |entries| && entries[k].triggered.Some?
  }

  /** The anchor stands for idleness ever since, every trigger was earned, and a decision came from one. */
  ghost predicate Sound(n: string, t: Timed) {
    && (n in t.cl.cells ==>
          && Coherent(t.cl.cells[n])
          && var since := t.cl.cells[n].m.emptySince;
             since.Some? ==> IdleSince(t.entries, |t.entries|, since.value))
    && (forall k :: 0 <= k < |t.entries| ==> Earned(t.entries, k))
    && (Deciding(t.cl, n) ==> Triggered(t.entries))
  }

  // ---------- steps of others ----------

  /** The machine controller's own writes carry the anchor along unchanged. */
  lemma CallKeepsEmptySince(c: Cell, f: Flight, o: Outcome)
    requires f.m.version == c.m.version ==> f.m == c.m
    ensures NextMachine(c, f, o).emptySince == c.m.emptySince
  {}

  lemma ApplyKeepsEmptySince(cfg: Config, c: Cell, e: Event)
    requires Coherent(c) && !e.SetEmptySince?
    ensures var d := Apply(cfg, c, e);
            Coherent(d) && d.m.emptySince == c.m.emptySince
  {
    hide Happen, NextMachine, NextNode, NextPods, NextPc, NextCopy, NextEvidence, Effects;
    ApplyCoherent(cfg, c, e);
    if e.Call? && c.flight.Some? {
      CallKeepsEmptySince(c, c.flight.value, e.o);
    } else {
      HappenFrame(c, e);
    }
  }

  /** A step from outside keeps the Machine's anchor, and decides nothing about it. */
  lemma StepKeepsTimer(cfg: Config, cl: Cluster, h: Happening, n: string)
    requires FromOutside(h, n) && (n in cl.cells ==> Coherent(cl.cells[n]))
    ensures var after := Step(cfg, cl, h);
            && (n in after.cells <==> n in cl.cells)
            && (n in cl.cells ==> Coherent(after.cells[n]) && after.cells[n].m.emptySince == cl.cells[n].m.emptySince)
            && (Deciding(after, n) ==> Deciding(cl, n))
  {
    hide Step, Apply, Coherent;
    StepKeepsPolicies(cfg, cl, h);
    StepDecision(cfg, cl, h, n);
    if n in cl.cells {
      StepAtCell(cfg, cl, h, n);
      var t := Touched(cl, h);
      if t.Touch? && t.n == n {
        ApplyKeepsEmptySince(cfg, cl.cells[n], t.e);
      }
    }
  }

  lemma StepDecision(cfg: Config, cl: Cluster, h: Happening, n: string)
    ensures Deciding(Step(cfg, cl, h), n) ==> Deciding(cl, n) || (h.DecideDown? && h.n == n)
  {
    hide NextCells, NextPools, NextUp;
  }

  // ---------- evaluations ----------

  lemma PatchSets(cfg: Config, cl: Cluster, n: string, since: Option<int>)
    requires n in cl.cells && Coherent(cl.cells[n])
    ensures var after := Step(cfg, cl, At(n, SetEmptySince(since)));
            && n in after.cells && Coherent(after.cells[n]) && after.cells[n].m.emptySince == since
            && (Deciding(after, n) ==> Deciding(cl, n))
  {
    hide Step, Happen, Coherent;
    var e := SetEmptySince(since);
    StepAtCell(cfg, cl, At(n, e), n);
    StepDecision(cfg, cl, At(n, e), n);
    HappenCoherent(cl.cells[n], e);
    HappenFrame(cl.cells[n], e);
  }

  lemma DecisionKeepsCells(cfg: Config, cl: Cluster, n: string, p: string)
    ensures Step(cfg, cl, DecideDown(n, p)).cells == cl.cells
  {
    hide Apply, NextDown, NextUp, NextPools;
  }

  lemma EvaluationSound(cfg: Config, n: string, t: Timed, e: TimedEvent)
    requires Sound(n, t) && e.Evaluated? && n in t.cl.cells
    ensures Sound(n, TimedStep(cfg, n, t, e))
  {
    hide Step, Coherent, IdleSince, Earned;
    var s := Seen(t.cl, n, e.listing, e.cached);
    var u := TimedStep(cfg, n, t, e);
    if |u.entries| > |t.entries| {
      var x := u.entries[|t.entries|];
      assert u.entries == t.entries + [x];
      PatchSets(cfg, t.cl, n, None);
      PatchSets(cfg, t.cl, n, Some(t.cl.clock));
      match Evaluate(s) {
        case Ignore =>
        case Clear =>
        case Stamp => IdleFromNow(t.entries, x, t.cl.clock);
        case Hold(_) => IdleOneMore(t.entries, x, s.m.emptySince.value);
        case Trigger(pool) =>
          DecisionKeepsCells(cfg, t.cl, n, pool.name);
          IdleOneMore(t.entries, x, s.m.emptySince.value);
          assert s.m.emptySince.value + x.triggered.value <= x.at;
      }
      EarnedStays(t.entries, x);
      TriggeredStays(t.entries, x);
    }
  }

  lemma TriggeredStays(entries: seq<Entry>, x: Entry)
    ensures Triggered(entries) || x.triggered.Some? ==> Triggered(entries + [x])
  {
    if x.triggered.Some? {
      assert (entries + [x])[|entries|] == x;
    } else if Triggered(entries) {
      var k :| 0 <= k < |entries| && entries[k].triggered.Some?;
      assert (entries + [x])[k] == entries[k];
    }
  }

  lemma {:induction false} RunSound(cfg: Config, n: string, t: Timed, events: seq<TimedEvent>)
    requires Sound(n, t)
    ensures Sound(n, TimedRun(cfg, n, t, events))
    decreases events
  {
    hide Step, Coherent, IdleSince, Earned;
    if events == [] {
    } else {
      match events[0] {
        case Evaluated(_, _, _) =>
          if n in t.cl.cells {
            EvaluationSound(cfg, n, t, events[0]);
          }
        case Other(h) =>
          if FromOutside(h, n) {
            StepKeepsTimer(cfg, t.cl, h, n);
          }
      }
      RunSound(cfg, n, TimedStep(cfg, n, t, events[0]), events[1..]);
    }
  }

  /** In every run of the cluster, from a Machine without an anchor and no decision about it: an
      evaluation goes on to the pool guards only if a whole consolidateAfter has passed since some
      evaluation started the timer, and every evaluation completed in between saw the Machine Ready,
      unprotected, in a single enabled pool, and its node empty; and a decision to drain the Machine is
      under way only after such an evaluation. */
  lemma {:induction false} DrainOnlyAfterIdleWindow(cfg: Config, n: string, cl: Cluster, events: seq<TimedEvent>)
    requires n in cl.cells ==> Coherent(cl.cells[n]) && cl.cells[n].m.emptySince.None?
    requires !Deciding(cl, n)
    ensures var end := TimedRun(cfg, n, Timed(cl, []), events);
            && (forall k :: 0 <= k < |end.entries| ==> Earned(end.entries, k))
            && (Deciding(end.cl, n) ==> Triggered(end.entries))
  {
    hide Step, Coherent;
    RunSound(cfg, n, Timed(cl, []), events);
  }

  // ---------- the reconciler's passes are such runs ----------

  /** A whole scale-down pass as timed events: the evaluation, and after a trigger the two writes. */
  function PassEvents(listing: seq<Pool>, cached: seq<Pod>, patched: bool, stamped: bool, asked: bool, trigger: bool): seq<TimedEvent> {
    if trigger then [Evaluated(listing, cached, patched)] + ([Other(StampDown(stamped))] + ([Other(AskDrain(asked))] + []))
    else [Evaluated(listing, cached, patched)] + []
  }

  lemma {:induction false} TimedRunStep(cfg: Config, n: string, t: Timed, e: TimedEvent, rest: seq<TimedEvent>)
    ensures TimedRun(cfg, n, t, [e] + rest) == TimedRun(cfg, n, TimedStep(cfg, n, t, e), rest)
  {
    hide TimedStep;
    assert ([e] + rest)[1..] == rest;
  }

  /** Every pass of the scale-down reconciler over the Machine, as `ScaleDownReconciler.Reconcile` is
      proved to run it, is a timed run - so what holds of every timed run holds of its passes. */
  lemma {:induction false} PassIsTimedRun(cfg: Config, n: string, t: Timed, listing: seq<Pool>, cached: seq<Pod>,
                                          patched: bool, stamped: bool, asked: bool)
    requires n in t.cl.cells
    ensures var trigger := Evaluate(Seen(t.cl, n, listing, cached)).Trigger?;
            TimedRun(cfg, n, t, PassEvents(listing, cached, patched, stamped, asked, trigger)).cl
            == ClusterRun(cfg, t.cl, DownSteps(t.cl, n, listing, cached, patched, stamped, asked))
  {
    hide Step, Seen;
    var s := Seen(t.cl, n, listing, cached);
    var e := Evaluated(listing, cached, patched);
    var u := TimedStep(cfg, n, t, e);
    var v := Evaluate(s);
    SeenMachine(t.cl, n, listing, cached);
    if v.Trigger? {
      var first := DecideDown(n, v.pool.name);
      RunThree(cfg, t.cl, first, StampDown(stamped), AskDrain(asked));
      TimedRunStep(cfg, n, t, e, [Other(StampDown(stamped))] + ([Other(AskDrain(asked))] + []));
      TimedRunStep(cfg, n, u, Other(StampDown(stamped)), [Other(AskDrain(asked))] + []);
      TimedRunStep(cfg, n, TimedStep(cfg, n, u, Other(StampDown(stamped))), Other(AskDrain(asked)), []);
    } else {
      TimedRunStep(cfg, n, t, e, []);
      if patched && v.Clear? && s.m.emptySince.Some? {
        RunOne(cfg, t.cl, At(n, SetEmptySince(None)));
      }
      if patched && v.Stamp? {
        RunOne(cfg, t.cl, At(n, SetEmptySince(Some(t.cl.clock))));
      }
    }
  }

  lemma SeenMachine(cl: Cluster, n: string, listing: seq<Pool>, cached: seq<Pod>)
    requires n in cl.cells
    ensures Seen(cl, n, listing, cached).m == cl.cells[n].m
  {}
}
