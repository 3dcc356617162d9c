/** The two scale controllers' passes as the code runs them, and what ties them to the steps of
    `Clusters`: a scale-down pass is a run of cluster steps, and a Machine the selection picks is one
    its pool may wake. */
module ScalePasses {
  import opened Api
  import opened Lifecycle
  import opened ScaleUp
  import opened Clusters
  import Down = ScaleDown

  /** Cells are kept under the names of their Machines, pools under theirs. */
  ghost predicate WellNamed(cl: Cluster) {
    && (forall n :: n in cl.cells ==> cl.cells[n].m.name == n)
    && (forall p :: p in cl.pools ==> cl.pools[p].name == p)
  }

  // ---------- counting by Machine and by name ----------

  lemma {:induction false} SameCount(ms: set<Machine>, names: set<string>)
    requires forall a, b :: a in ms && b in ms && a.name == b.name ==> a == b
    requires names == set m | m in ms :: m.name
    ensures |ms| == |names|
  {
    if ms == {} {
    } else {
      var x :| x in ms;
      assert x.name in names;
      var rest := ms - {x};
      assert names - {x.name} == set m | m in rest :: m.name;
      SameCount(rest, names - {x.name});
    }
  }

  /** `ms` lists the members of a pool, each once, as the API server holds them. */
  ghost predicate ListsMembers(cl: Cluster, p: string, ms: seq<Machine>) {
    && p in cl.pools && Distinct(ms)
    && (forall m :: m in ms ==> m.name in Members(cl, p) && cl.cells[m.name].m == m)
    && (forall n :: n in Members(cl, p) ==> cl.cells[n].m in ms)
  }

  lemma CountsAgree(cl: Cluster, p: string, ms: seq<Machine>)
    requires WellNamed(cl) && ListsMembers(cl, p, ms)
    ensures |KeptOnAmong(ms)| == |KeptOnIn(cl, p)|
    ensures |ScalingDownAmong(ms)| == |ScalingDownIn(cl, p)|
  {
    assert KeptOnIn(cl, p) == set m | m in KeptOnAmong(ms) :: m.name;
    assert ScalingDownIn(cl, p) == set m | m in ScalingDownAmong(ms) :: m.name;
    SameCount(KeptOnAmong(ms), KeptOnIn(cl, p));
    SameCount(ScalingDownAmong(ms), ScalingDownIn(cl, p));
  }

  // ---------- the scale-down pass ----------

  /** `listing` lists every NodePool once. */
  ghost predicate ListsPools(cl: Cluster, listing: seq<Pool>) {
    && (forall p :: p in listing ==> p.name in cl.pools && cl.pools[p.name] == p)
    && (forall n :: n in cl.pools ==> cl.pools[n] in listing)
    && (forall i, j :: 0 <= i < j < |listing| ==> listing[i] != listing[j])
  }

  function Seen(cl: Cluster, n: string, listing: seq<Pool>, cached: seq<Pod>): Down.Sight
    requires n in cl.cells
  {
    var c := cl.cells[n];
    Down.Sight(c.m, Backing(c), Matching(listing, n), if c.m.nodeName == "" then [] else cached, cl.clock)
  }

  /** The steps of one pass: an anchor patch, or a decision carried through as far as its writes go. */
  function DownSteps(cl: Cluster, n: string, listing: seq<Pool>, cached: seq<Pod>,
                     patched: bool, stamped: bool, asked: bool): seq<Happening>
  {
    if n !in cl.cells then []
    else
      match Down.Evaluate(Seen(cl, n, listing, cached))
      case Ignore => []
      case Hold(_) => []
      case Clear => if patched && cl.cells[n].m.emptySince.Some? then [At(n, SetEmptySince(None))] else []
      case Stamp => if patched then [At(n, SetEmptySince(Some(cl.clock)))] else []
      case Trigger(pool) => [DecideDown(n, pool.name), StampDown(stamped), AskDrain(asked)]
  }

  lemma {:induction false} RunOne(cfg: Config, cl: Cluster, h: Happening)
    ensures ClusterRun(cfg, cl, [h]) == Step(cfg, cl, h)
  {
    assert ClusterRun(cfg, Step(cfg, cl, h), [h][1..]) == Step(cfg, cl, h);
  }

  lemma {:induction false} RunThree(cfg: Config, cl: Cluster, a: Happening, b: Happening, c: Happening)
    ensures ClusterRun(cfg, cl, [a, b, c]) == Step(cfg, Step(cfg, Step(cfg, cl, a), b), c)
  {
    var x := Step(cfg, cl, a);
    var y := Step(cfg, x, b);
    assert [a, b, c][1..] == [b, c] && [b, c][1..] == [c];
    RunOne(cfg, y, c);
    assert ClusterRun(cfg, x, [b, c]) == ClusterRun(cfg, y, [c]);
  }

  /** What the three steps of a decision amount to when nothing comes in between. */
  function Carried(cfg: Config, cl: Cluster, n: string, p: string, stamped: bool, asked: bool): Cluster {
    if !MayScaleDown(cl, n, p) || !stamped then cl
    else
      cl.(pools := cl.pools[p := cl.pools[p].(lastScaleDown := Some(cl.clock))],
          downStamps := Stamped(cl.downStamps, p, cl.clock),
          cells := NextCells(cfg, cl, if asked then Touch(n, SetDrain(Some(TRIGGER))) else Untouched))
  }

  lemma {:induction false} CarriedInSteps(cfg: Config, cl: Cluster, n: string, p: string, stamped: bool, asked: bool)
    requires cl.down.Resting?
    ensures ClusterRun(cfg, cl, [DecideDown(n, p), StampDown(stamped), AskDrain(asked)]) == Carried(cfg, cl, n, p, stamped, asked)
  {
    RunThree(cfg, cl, DecideDown(n, p), StampDown(stamped), AskDrain(asked));
    var decided := Step(cfg, cl, DecideDown(n, p));
    assert decided == if MayScaleDown(cl, n, p) then cl.(down := Stamping(p, n)) else cl;
    var written := Step(cfg, decided, StampDown(stamped));
    if decided.down.Stamping? && stamped {
      assert written == cl.(pools := cl.pools[p := cl.pools[p].(lastScaleDown := Some(cl.clock))],
                            downStamps := Stamped(cl.downStamps, p, cl.clock), down := Asking(p, n));
    } else {
      assert written == cl;
    }
  }

  class ScaleDownReconciler {
    const cfg: Config
    var cells: map<string, Cell>
    var pools: map<string, Pool>
    var clock: int
    ghost var downStamps: map<string, seq<int>>

    // the scale-up controller's part, which this pass does not touch
    ghost const up: Decision
    ghost const upStamps: map<string, seq<int>>

    ghost function View(): Cluster
      reads this
    {
      Cluster(cells, pools, clock, Resting, up, downStamps, upStamps)
    }

    /** One reconcile of Machine `n`: `listing` and `cached` are what the pool and pod caches list,
        `members` the uncached list of its pool's members, and the flags tell which writes go through. */
    method Reconcile(n: string, listing: seq<Pool>, cached: seq<Pod>, members: seq<Machine>,
                     patched: bool, stamped: bool, asked: bool)
      requires WellNamed(View()) && ListsPools(View(), listing)
      requires |Matching(listing, n)| == 1 ==> ListsMembers(View(), Matching(listing, n)[0].name, members)
      modifies this
      ensures View() == ClusterRun(cfg, old(View()), DownSteps(old(View()), n, listing, cached, patched, stamped, asked))
    {
      if n !in cells {
        return;
      }
      var c := cells[n];
      var s := Down.Sight(c.m, Backing(c), Matching(listing, n), if c.m.nodeName == "" then [] else cached, clock);
      var verdict := Evaluate(s);
      Down.OneVerdict(s, verdict);
      match verdict {
        case Ignore =>
        case Hold(_) =>
        case Clear => PatchEmptySince(n, None, patched && c.m.emptySince.Some?);
        case Stamp => PatchEmptySince(n, Some(clock), patched);
        case Trigger(pool) => TriggerScaleDown(n, pool, listing, members, stamped, asked);
      }
    }

    /** The questions of one evaluation, each ending it when the answer rules scale-down out. */
    method Evaluate(s: Down.Sight) returns (v: Down.Verdict)
      ensures Down.Means(s, v)
    {
      if s.m.state != Ready {
        return Down.Clear;
      }
      if DrainRequested(s.m) {
        return Down.Ignore;
      }
      if Down.NodeProtected(s.node) {
        return Down.Clear;
      }
      if AlwaysOn(s.node) {
        return Down.Clear;
      }
      if |s.matched| > 1 {
        return Down.Clear;
      }
      var window := Down.Window(s.matched);
      if window.None? {
        return Down.Clear;
      }
      if !NoneKeeps(s.pods) {
        return Down.Clear;
      }
      if s.m.emptySince.None? {
        return Down.Stamp;
      }
      var elapsed := s.now - s.m.emptySince.value;
      if elapsed < window.value {
        var wait := window.value - elapsed;
        if wait < Down.MIN_REQUEUE {
          wait := Down.MIN_REQUEUE;
        }
        return Down.Hold(wait);
      }
      assert s.matched == [s.matched[0]];
      return Down.Trigger(s.matched[0]);
    }

    /** stampEmptySince and clearEmptySince. */
    method PatchEmptySince(n: string, since: Option<int>, sent: bool)
      requires n in cells
      modifies this
      ensures View() == ClusterRun(cfg, old(View()), if sent then [At(n, SetEmptySince(since))] else [])
    {
      if sent {
        ghost var before := View();
        cells := cells[n := Apply(cfg, cells[n], SetEmptySince(since))];
        RunOne(cfg, before, At(n, SetEmptySince(since)));
      }
    }

    /** The pool guards - cooldown, minNodes, maxConcurrent - on the uncached reads. */
    method GuardsPass(n: string, pool: Pool, members: seq<Machine>) returns (ok: bool)
      requires WellNamed(View()) && ListsMembers(View(), pool.name, members)
      requires n in cells && OnlyIn(View(), n, pool.name)
      ensures ok <==> MayScaleDown(View(), n, pool.name)
    {
      CountsAgree(View(), pool.name, members);
      var current := pools[pool.name];
      var self := cells[n].m;
      if self.state != Ready || DrainRequested(self) {
        return false;
      }
      if CoolingUntil(current.scaleDownCooldown, current.lastScaleDown, clock).Some? {
        return false;
      }
      var keptOn, scalingDown := PoolScaleDownCounts(members);
      if keptOn <= current.minNodes {
        return false;
      }
      var maxConcurrent := 1;
      if current.maxConcurrent.Some? {
        maxConcurrent := current.maxConcurrent.value;
      }
      return scalingDown < maxConcurrent;
    }

    /** All guards passed: the stamp goes before the trigger. */
    method TriggerScaleDown(n: string, pool: Pool, ghost listing: seq<Pool>, members: seq<Machine>, stamped: bool, asked: bool)
      requires WellNamed(View()) && ListsPools(View(), listing) && ListsMembers(View(), pool.name, members)
      requires n in cells && Matching(listing, n) == [pool]
      modifies this
      ensures View() == ClusterRun(cfg, old(View()), [DecideDown(n, pool.name), StampDown(stamped), AskDrain(asked)])
    {
      hide Apply, ClusterRun, CoolingUntil, Matching, KeptOn, ScalingDown;
      CarriedInSteps(cfg, View(), n, pool.name, stamped, asked);
      SingleMatch(View(), listing, n, pool);
      var ok := GuardsPass(n, pool, members);
      if !ok || !stamped {
        return;
      }
      pools := pools[pool.name := pools[pool.name].(lastScaleDown := Some(clock))];
      downStamps := Stamped(downStamps, pool.name, clock);
      if asked {
        cells := cells[n := Apply(cfg, cells[n], SetDrain(Some(TRIGGER)))];
      }
    }
  }

  /** The one matching pool of a listing is the only pool of the Machine. */
  lemma {:induction false} SingleMatch(cl: Cluster, listing: seq<Pool>, n: string, pool: Pool)
    requires WellNamed(cl) && ListsPools(cl, listing) && Matching(listing, n) == [pool]
    ensures OnlyIn(cl, n, pool.name) && cl.pools[pool.name] == pool
  {
    assert pool in Matching(listing, n);
    forall q | q in cl.pools && Selects(cl.pools[q], n)
      ensures q == pool.name
    {
      assert cl.pools[q] in Matching(listing, n);
    }
  }

  // ---------- the scale-up pass ----------

  /** The lists and the scene a scale-up pass reads from the cluster; malformed selectors are skipped. */
  ghost predicate Pictures(cl: Cluster, sc: Scene, ls: seq<Listing>) {
    && sc.clock == cl.clock
    && (forall n :: n in cl.cells ==> BackingNode(sc, cl.cells[n].m) == Backing(cl.cells[n]))
    && (forall i :: 0 <= i < |ls| ==>
          && ls[i].pool.name in cl.pools && cl.pools[ls[i].pool.name] == ls[i].pool
          && ListsMembers(cl, ls[i].pool.name, ls[i].machines))
    && (forall p :: p in cl.pools && cl.pools[p].members.Some? ==> exists i :: 0 <= i < |ls| && ls[i].pool.name == p)
    && (forall i, j :: 0 <= i < j < |ls| ==> ls[i].pool.name != ls[j].pool.name)
  }

  lemma SlotsAgree(cl: Cluster, sc: Scene, ls: seq<Listing>, i: nat)
    requires WellNamed(cl) && Pictures(cl, sc, ls) && i < |ls|
    ensures |Slots(sc, ls[i].machines)| == |SlotsIn(cl, ls[i].pool.name)|
  {
    var slots := Slots(sc, ls[i].machines);
    assert SlotsIn(cl, ls[i].pool.name) == set m | m in slots :: m.name;
    SameCount(slots, SlotsIn(cl, ls[i].pool.name));
  }

  lemma UnsharedIsAlone(cl: Cluster, sc: Scene, ls: seq<Listing>, i: nat, m: Machine)
    requires WellNamed(cl) && Pictures(cl, sc, ls) && i < |ls| && m in ls[i].machines && !Shared(ls, m.name)
    ensures OnlyIn(cl, m.name, ls[i].pool.name)
  {
    var p := ls[i].pool.name;
    forall q | q in cl.pools && Selects(cl.pools[q], m.name)
      ensures q == p
    {
      var j :| 0 <= j < |ls| && ls[j].pool.name == q;
      assert m.name in Members(cl, q);
      assert cl.cells[m.name].m in ls[j].machines;
      HeldOnce(ls, m.name, i, j);
    }
  }

  lemma CandidateMeans(sc: Scene, ls: seq<Listing>, l: Listing, m: Machine)
    requires Judge(sc, ls, l, m) == Candidate
    ensures m.state == Off && !WakeRequested(m) && !Shared(ls, m.name) && !AtCap(sc, l) && PoolCooling(sc, l.pool).None?
  {}

  /** A Machine the selection wakes is one its pool may wake: Off, unasked, in that pool alone, with a
      slot free under maxNodes and no cooldown running. */
  lemma {:induction false} SelectedMayWake(cl: Cluster, sc: Scene, ls: seq<Listing>, a: Action)
    requires WellNamed(cl) && Pictures(cl, sc, ls)
    requires Follows(JudgeAll(sc, ls, |ls|), sc.clock, a) && a.Wake?
    ensures MayWake(cl, a.machine.name, a.pool.name)
  {
    hide JudgeAll, Judge, SlotsIn, Slots;
    JudgedSomewhere(sc, ls, |ls|, Judgement(a.pool, a.machine, Candidate));
    var i :| 0 <= i < |ls| && a.pool == ls[i].pool && a.machine in ls[i].machines && Candidate == Judge(sc, ls, ls[i], a.machine);
    CandidateMeans(sc, ls, ls[i], a.machine);
    SlotsAgree(cl, sc, ls, i);
    UnsharedIsAlone(cl, sc, ls, i, a.machine);
  }

  /** What the three steps of a wake decision amount to when nothing comes in between. */
  function CarriedUp(cfg: Config, cl: Cluster, n: string, p: string, stamped: bool, asked: bool): Cluster {
    if !MayWake(cl, n, p) || !stamped then cl
    else
      cl.(pools := cl.pools[p := cl.pools[p].(lastScaleUp := Some(cl.clock))],
          upStamps := Stamped(cl.upStamps, p, cl.clock),
          cells := NextCells(cfg, cl, if asked then Touch(n, SetWake(Some(TRIGGER))) else Untouched))
  }

  lemma {:induction false} CarriedUpInSteps(cfg: Config, cl: Cluster, n: string, p: string, stamped: bool, asked: bool)
    requires cl.up.Resting?
    ensures ClusterRun(cfg, cl, [DecideUp(n, p), StampUp(stamped), AskWake(asked)]) == CarriedUp(cfg, cl, n, p, stamped, asked)
  {
    hide Apply;
    RunThree(cfg, cl, DecideUp(n, p), StampUp(stamped), AskWake(asked));
    var decided := Step(cfg, cl, DecideUp(n, p));
    assert decided == if MayWake(cl, n, p) then cl.(up := Stamping(p, n)) else cl;
    var written := Step(cfg, decided, StampUp(stamped));
    if decided.up.Stamping? && stamped {
      assert written == cl.(pools := cl.pools[p := cl.pools[p].(lastScaleUp := Some(cl.clock))],
                            upStamps := Stamped(cl.upStamps, p, cl.clock), up := Asking(p, n));
    } else {
      assert written == cl;
    }
  }

  /** The Machines of a cluster by name, as its lists show them. */
  function StoreOf(cl: Cluster): map<string, Machine> {
    map n | n in cl.cells :: cl.cells[n].m
  }

  lemma PicturesAreWellListed(cl: Cluster, sc: Scene, ls: seq<Listing>)
    requires WellNamed(cl) && Pictures(cl, sc, ls)
    ensures WellListed(ls, StoreOf(cl))
  {}

  function UpSteps(a: Action, stamped: bool, asked: bool): seq<Happening> {
    if a.Wake? then [DecideUp(a.machine.name, a.pool.name), StampUp(stamped), AskWake(asked)] else []
  }

  class ScaleUpReconciler {
    const cfg: Config
    var cells: map<string, Cell>
    var pools: map<string, Pool>
    var clock: int
    ghost var upStamps: map<string, seq<int>>

    // the scale-down controller's part, which this pass does not touch
    ghost const down: Decision
    ghost const downStamps: map<string, seq<int>>

    ghost function View(): Cluster
      reads this
    {
      Cluster(cells, pools, clock, down, Resting, downStamps, upStamps)
    }

    /** One reconcile of an unschedulable pod, the flags telling which writes go through: the action
        is the one the verdicts on all members call for, and what the pass does to the cluster is
        the wake decision carried through its steps, or nothing. */
    method Reconcile(sc: Scene, ls: seq<Listing>, stamped: bool, asked: bool) returns (a: Action)
      requires WellNamed(View()) && Pictures(View(), sc, ls)
      modifies this
      ensures Follows(JudgeAll(sc, ls, |ls|), sc.clock, a)
      ensures View() == ClusterRun(cfg, old(View()), UpSteps(a, stamped, asked))
    {
      hide Step, Judge, JudgeAll, Follows, Pictures;
      PicturesAreWellListed(View(), sc, ls);
      a := Select(sc, ls, StoreOf(View()));
      if a.Wake? {
        SelectedMayWake(View(), sc, ls, a);
        RequestWake(a.machine.name, a.pool.name, stamped, asked);
      }
    }

    /** The stamp goes before the trigger, so a wake that then fails to patch the Machine is still
        rate-limited. */
    method RequestWake(n: string, p: string, stamped: bool, asked: bool)
      requires MayWake(View(), n, p)
      modifies this
      ensures View() == ClusterRun(cfg, old(View()), [DecideUp(n, p), StampUp(stamped), AskWake(asked)])
    {
      hide Apply, ClusterRun;
      CarriedUpInSteps(cfg, View(), n, p, stamped, asked);
      if !stamped {
        return;
      }
      pools := pools[p := pools[p].(lastScaleUp := Some(clock))];
      upStamps := Stamped(upStamps, p, clock);
      if asked {
        cells := cells[n := Apply(cfg, cells[n], SetWake(Some(TRIGGER)))];
      }
    }
  }
}
