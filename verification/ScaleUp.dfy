/** Which powered-off Machine a pending pod wakes (internal/controller/scaleup_controller.go). */
module ScaleUp {
  import opened Api
  import opened Template
  import opened Resources

  const SCALE_UP_REQUEUE := 30
  const NO_FIT_REQUEUE := 60
  const READY_SETTLE := 120
  const MIN_COOLDOWN_REQUEUE := 1

  // ---------- size order ----------

  /** Byte-wise string order. */
  predicate LexLess(a: string, b: string) {
    if b == [] then false
    else if a == [] then true
    else a[0] < b[0] || (a[0] == b[0] && LexLess(a[1..], b[1..]))
  }

  /** Smaller by CPU, then memory, then name; an undeclared capacity reads as zero. */
  predicate Smaller(a: Machine, b: Machine) {
    var cpuA, cpuB := Amount(a.capacity, "cpu"), Amount(b.capacity, "cpu");
    var memA, memB := Amount(a.capacity, "memory"), Amount(b.capacity, "memory");
    cpuA < cpuB || (cpuA == cpuB && (memA < memB || (memA == memB && LexLess(a.name, b.name))))
  }

  lemma {:induction false} LexLessIrreflexive(a: string)
    ensures !LexLess(a, a)
  {
    if a == [] {
    } else {
      LexLessIrreflexive(a[1..]);
    }
  }

  lemma {:induction false} LexLessTotal(a: string, b: string)
    ensures !(LexLess(a, b) && LexLess(b, a))
    ensures LexLess(a, b) || LexLess(b, a) || a == b
  {
    if a == [] || b == [] || a[0] != b[0] {
    } else {
      LexLessTotal(a[1..], b[1..]);
      if a[1..] == b[1..] {
        assert a == [a[0]] + a[1..] == b;
      }
    }
  }

  lemma {:induction false} LexLessTransitive(a: string, b: string, c: string)
    requires LexLess(a, b) && LexLess(b, c)
    ensures LexLess(a, c)
    decreases a
  {
    if a == [] || a[0] < b[0] || b[0] < c[0] {
    } else {
      LexLessTransitive(a[1..], b[1..], c[1..]);
    }
  }

  /** Size is a strict order that leaves no two Machines of different names level. */
  lemma SmallerIsStrict(a: Machine, b: Machine)
    ensures !Smaller(a, a)
    ensures !(Smaller(a, b) && Smaller(b, a))
    ensures Smaller(a, b) || Smaller(b, a) || a.name == b.name
  {
    LexLessTotal(a.name, b.name);
    LexLessIrreflexive(a.name);
  }

  lemma SmallerTransitive(a: Machine, b: Machine, c: Machine)
    requires Smaller(a, b) && Smaller(b, c)
    ensures Smaller(a, c)
  {
    if LexLess(a.name, b.name) && LexLess(b.name, c.name) {
      LexLessTransitive(a.name, b.name, c.name);
    }
  }

  // ---------- what is asked about one Machine ----------

  /** What the reconcile of one pod reads besides pools and Machines: the Nodes, the pods listed on
      each of them, the pod with its volume affinities, the library and the clock. */
  datatype Scene = Scene(
    nodes: map<string, Node>,
    bound: map<string, seq<Pod>>,
    pod: Pod,
    volumes: seq<VolumeAffinity>,
    lib: Library,
    clock: int)

  function BackingNode(sc: Scene, m: Machine): Option<Node> {
    if m.nodeName != "" && m.nodeName in sc.nodes then Some(sc.nodes[m.nodeName]) else None
  }

  function BoundTo(sc: Scene, m: Machine): seq<Pod> {
    if m.nodeName in sc.bound then sc.bound[m.nodeName] else []
  }

  function Reported(node: Option<Node>): Quantities {
    if node.Some? then node.value.allocatable else map[]
  }

  /** Fit of the pod on the synthetic Node of a Machine in a pool. */
  predicate MachineFits(sc: Scene, m: Machine, pool: Pool) {
    var node := BackingNode(sc, m);
    var s := NodeForMachine(m, pool, node, Room(m.capacity, Reported(node), BoundTotals(BoundTo(sc, m))));
    && FitsShape(sc.lib, sc.volumes, sc.pod, s.name, s.labels, s.taints, s.unschedulable)
    && Fits(sc.pod.requests, s.allocatable)
  }

  /** The simulation as it is run on one member: the bound requests, the synthetic Node, the checks. */
  method SimulateFit(sc: Scene, m: Machine, pool: Pool) returns (fits: bool)
    ensures fits <==> MachineFits(sc, m, pool)
    ensures var node := BackingNode(sc, m);
            var s := NodeForMachine(m, pool, node, Room(m.capacity, Reported(node), BoundTotals(BoundTo(sc, m))));
            fits <==>
              && (node.Some? && node.value.unschedulable && node.value.cordonedBy.None? ==>
                    sc.lib.tolerates(sc.pod, Taint("node.kubernetes.io/unschedulable", "", "NoSchedule")))
              && sc.lib.affinity(sc.pod, m.nodeName, s.labels)
              && (forall t :: t in s.taints && t.effect in {"NoSchedule", "NoExecute"} ==> sc.lib.tolerates(sc.pod, t))
              && (forall i :: 0 <= i < |sc.volumes| ==> sc.volumes[i](m.nodeName, s.labels))
              && (forall r :: r in sc.pod.requests ==> sc.pod.requests[r] <= Amount(s.allocatable, r))
  {
    var node := BackingNode(sc, m);
    var bound := BoundRequests(BoundTo(sc, m));
    var room := SyntheticAllocatable(m.capacity, Reported(node), bound);
    var s := BuildNode(m, pool, node, room);
    var shaped := CheckShape(sc.lib, sc.volumes, sc.pod, s);
    if !shaped {
      return false;
    }
    fits := FitsResources(sc.pod.requests, s.allocatable);
  }

  /** A hard taint of the template that the pod does not tolerate rules the Machine out, with or without
      a Node. */
  lemma UntoleratedTaintBars(sc: Scene, m: Machine, pool: Pool, t: Taint)
    requires DistinctTaints(pool.taints) && t in pool.taints && t.effect in {"NoSchedule", "NoExecute"} && !sc.lib.tolerates(sc.pod, t)
    ensures !MachineFits(sc, m, pool)
  {
    var node := BackingNode(sc, m);
    MergesBring(if node.Some? then PersistentTaints(node.value.taints) else [], pool.taints, t);
  }

  /** A wake in progress; one whose last power-on failed is not counted on. */
  predicate IsWaking(m: Machine) {
    || m.state == Booting
    || (m.state == Off && WakeRequested(m) && (m.powerOnSucceeded.None? || m.powerOnSucceeded.value.status))
  }

  predicate Settling(m: Machine, now: int) {
    m.state == Ready && m.readyCondition.Some? && m.readyCondition.value.status && now - m.readyCondition.value.since < READY_SETTLE
  }

  predicate IsActive(m: Machine) {
    match m.state
    case Ready | Booting | Draining | ShuttingDown => true
    case Off => WakeRequested(m)
    case _ => false
  }

  /** A member takes a maxNodes slot when it is active, or Failed with its Node still up. */
  predicate CountsAgainstCap(m: Machine, node: Option<Node>) {
    IsActive(m) || (m.state == Failed && NodeReady(node))
  }

  /** The instant a cooldown lifts, if it is running. */
  function CoolingUntil(cooldown: Option<int>, last: Option<int>, now: int): Option<int> {
    if cooldown.Some? && last.Some? && now < last.value + cooldown.value then Some(last.value + cooldown.value) else None
  }

  // ---------- what is asked about the lists ----------

  /** A pool with the Machines its selector listed, in listing order. */
  datatype Listing = Listing(pool: Pool, machines: seq<Machine>)

  predicate Distinct(ms: seq<Machine>) {
    forall i, j :: 0 <= i < j < |ms| ==> ms[i].name != ms[j].name
  }

  /** Lists read from one store of Machines, each name once, for pools of different names. */
  ghost predicate WellListed(ls: seq<Listing>, store: map<string, Machine>) {
    && (forall i :: 0 <= i < |ls| ==> Distinct(ls[i].machines) && Stored(ls[i].machines, store))
    && (forall i, j :: 0 <= i < j < |ls| ==> ls[i].pool.name != ls[j].pool.name)
  }

  ghost predicate Stored(ms: seq<Machine>, store: map<string, Machine>) {
    forall m :: m in ms ==> m.name in store && store[m.name] == m
  }

  ghost predicate Named(ms: seq<Machine>, name: string) {
    exists m :: m in ms && m.name == name
  }

  ghost predicate Has(l: Listing, name: string) {
    Named(l.machines, name)
  }

  /** The Machine is in more than one pool. */
  ghost predicate Shared(ls: seq<Listing>, name: string) {
    exists i, j :: 0 <= i < j < |ls| && Has(ls[i], name) && Has(ls[j], name)
  }

  ghost function Slots(sc: Scene, ms: seq<Machine>): set<Machine> {
    set m | m in ms && CountsAgainstCap(m, BackingNode(sc, m))
  }

  ghost predicate AtCap(sc: Scene, l: Listing) {
    l.pool.maxNodes.Some? && |Slots(sc, l.machines)| >= l.pool.maxNodes.value
  }

  /** poolAtCap: the counting loop over the members. */
  method PoolAtCap(sc: Scene, l: Listing) returns (maxed: bool)
    requires Distinct(l.machines)
    ensures maxed <==> AtCap(sc, l)
  {
    if l.pool.maxNodes.None? {
      return false;
    }
    var active, i := 0, 0;
    while i < |l.machines|
      invariant 0 <= i <= |l.machines|
      invariant active == |Slots(sc, l.machines[..i])|
    {
      var m := l.machines[i];
      SlotsNext(sc, l.machines, i);
      if CountsAgainstCap(m, BackingNode(sc, m)) {
        active := active + 1;
      }
      i := i + 1;
    }
    assert l.machines[..i] == l.machines;
    return active >= l.pool.maxNodes.value;
  }

  lemma SlotsNext(sc: Scene, ms: seq<Machine>, i: nat)
    requires i < |ms| && Distinct(ms)
    ensures |Slots(sc, ms[..i + 1])| == |Slots(sc, ms[..i])| + (if CountsAgainstCap(ms[i], BackingNode(sc, ms[i])) then 1 else 0)
  {
    hide CountsAgainstCap, BackingNode;
    var m := ms[i];
    assert ms[..i + 1] == ms[..i] + [m];
    assert m !in ms[..i];
    assert Slots(sc, ms[..i + 1]) == Slots(sc, ms[..i]) + if CountsAgainstCap(m, BackingNode(sc, m)) then {m} else {};
  }

  ghost function Holders(ls: seq<Listing>, n: nat, name: string): set<int>
    requires n <= |ls|
  {
    set i | 0 <= i < n && Has(ls[i], name)
  }

  /** poolMemberships: how many pools list each Machine, counted list by list. */
  method PoolMemberships(ls: seq<Listing>) returns (counts: map<string, int>)
    requires forall i :: 0 <= i < |ls| ==> Distinct(ls[i].machines)
    ensures forall name :: Count(counts, name) == |Holders(ls, |ls|, name)|
  {
    counts := map[];
    var i := 0;
    while i < |ls|
      invariant 0 <= i <= |ls|
      invariant forall name :: Count(counts, name) == |Holders(ls, i, name)|
    {
      counts := CountList(ls[i].machines, counts);
      forall name
        ensures Count(counts, name) == |Holders(ls, i + 1, name)|
      {
        HoldersNext(ls, i, name);
      }
      i := i + 1;
    }
  }

  function Count(counts: map<string, int>, name: string): int {
    if name in counts then counts[name] else 0
  }

  /** The Machines of one list, each counted once. */
  method CountList(ms: seq<Machine>, before: map<string, int>) returns (counts: map<string, int>)
    requires Distinct(ms)
    ensures forall name :: Count(counts, name) == Count(before, name) + (if Named(ms, name) then 1 else 0)
  {
    counts := before;
    var j := 0;
    while j < |ms|
      invariant 0 <= j <= |ms|
      invariant forall name :: Count(counts, name) == Count(before, name) + (if Named(ms[..j], name) then 1 else 0)
    {
      NamedNext(ms, j);
      counts := counts[ms[j].name := Count(counts, ms[j].name) + 1];
      j := j + 1;
    }
    assert ms[..j] == ms;
  }

  lemma NamedNext(ms: seq<Machine>, j: nat)
    requires j < |ms| && Distinct(ms)
    ensures !Named(ms[..j], ms[j].name)
    ensures forall name :: Named(ms[..j + 1], name) <==> Named(ms[..j], name) || name == ms[j].name
  {
    assert ms[..j + 1] == ms[..j] + [ms[j]];
  }

  lemma HoldersNext(ls: seq<Listing>, i: nat, name: string)
    requires i < |ls|
    ensures |Holders(ls, i + 1, name)| == |Holders(ls, i, name)| + (if Has(ls[i], name) then 1 else 0)
  {
    if Has(ls[i], name) {
      assert Holders(ls, i + 1, name) == Holders(ls, i, name) + {i};
    } else {
      assert Holders(ls, i + 1, name) == Holders(ls, i, name);
    }
  }

  /** More than one membership is what makes a Machine shared. */
  lemma SharedByCount(ls: seq<Listing>, name: string)
    ensures |Holders(ls, |ls|, name)| > 1 <==> Shared(ls, name)
  {
    var holders := Holders(ls, |ls|, name);
    if Shared(ls, name) {
      var i, j :| 0 <= i < j < |ls| && Has(ls[i], name) && Has(ls[j], name);
      SubsetSize({i, j}, holders);
    }
    if |holders| > 1 {
      var i :| i in holders;
      assert |holders - {i}| > 0;
      var j :| j in holders - {i};
      if i < j {
        assert Has(ls[i], name) && Has(ls[j], name);
      } else {
        assert Has(ls[j], name) && Has(ls[i], name);
      }
    }
  }

  lemma {:induction false} SubsetSize<T>(a: set<T>, b: set<T>)
    requires a <= b
    ensures |a| <= |b|
  {
    if a == {} {
    } else {
      var x :| x in a;
      SubsetSize(a - {x}, b - {x});
    }
  }

  // ---------- the verdict on each member ----------

  datatype Verdict = Unfit | InFlight | Held | Capped | Cooling(until: int) | Candidate

  /** The chain of tests on one member, given what is known of its lists. */
  function Rule(sc: Scene, m: Machine, pool: Pool, shared: bool, maxed: bool, until: Option<int>): Verdict {
    if !MachineFits(sc, m, pool) then Unfit
    else if IsWaking(m) || Settling(m, sc.clock) then InFlight
    else if m.state != Off || WakeRequested(m) || shared then Held
    else if maxed then Capped
    else if until.Some? then Cooling(until.value)
    else Candidate
  }

  function PoolCooling(sc: Scene, pool: Pool): Option<int> {
    CoolingUntil(pool.scaleUpCooldown, pool.lastScaleUp, sc.clock)
  }

  ghost function Judge(sc: Scene, ls: seq<Listing>, l: Listing, m: Machine): Verdict {
    Rule(sc, m, l.pool, Shared(ls, m.name), AtCap(sc, l), PoolCooling(sc, l.pool))
  }

  datatype Judgement = Judgement(pool: Pool, machine: Machine, verdict: Verdict)

  ghost function JudgeList(sc: Scene, ls: seq<Listing>, l: Listing, n: nat): set<Judgement>
    requires n <= |l.machines|
  {
    set k | 0 <= k < n :: Judgement(l.pool, l.machines[k], Judge(sc, ls, l, l.machines[k]))
  }

  ghost function JudgeAll(sc: Scene, ls: seq<Listing>, n: nat): set<Judgement>
    requires n <= |ls|
  {
    if n == 0 then {} else JudgeAll(sc, ls, n - 1) + JudgeList(sc, ls, ls[n - 1], |ls[n - 1].machines|)
  }

  lemma {:induction false} JudgedSomewhere(sc: Scene, ls: seq<Listing>, n: nat, x: Judgement)
    requires n <= |ls|
    ensures x in JudgeAll(sc, ls, n) <==>
            exists i :: 0 <= i < n && x.pool == ls[i].pool && x.machine in ls[i].machines && x.verdict == Judge(sc, ls, ls[i], x.machine)
  {
    hide Judge;
    if n == 0 {
    } else {
      JudgedSomewhere(sc, ls, n - 1, x);
      var l := ls[n - 1];
      if x.pool == l.pool && x.machine in l.machines && x.verdict == Judge(sc, ls, l, x.machine) {
        var k :| 0 <= k < |l.machines| && l.machines[k] == x.machine;
        assert x in JudgeList(sc, ls, l, |l.machines|);
      }
    }
  }

  // ---------- the action ----------

  /** Wait for a wake in flight, wake a Machine, wait out a cooldown, warn about a capped pool, or
      find nothing that fits. */
  datatype Action = Wait | Wake(machine: Machine, pool: Pool) | CoolDown(seconds: int) | Warn(pool: Pool) | NoFit

  ghost predicate Found(js: set<Judgement>, v: Verdict) {
    exists x :: x in js && x.verdict == v
  }

  ghost predicate SomeCooling(js: set<Judgement>) {
    exists x :: x in js && x.verdict.Cooling?
  }

  ghost predicate SoonestCooling(js: set<Judgement>, until: int) {
    && Found(js, Cooling(until))
    && (forall x :: x in js && x.verdict.Cooling? ==> until <= x.verdict.until)
  }

  ghost predicate SmallestCandidate(js: set<Judgement>, m: Machine, pool: Pool) {
    && Judgement(pool, m, Candidate) in js
    && (forall x :: x in js && x.verdict.Candidate? && x.machine != m ==> Smaller(m, x.machine))
  }

  function WaitFor(until: int, now: int): int {
    if until - now < MIN_COOLDOWN_REQUEUE then MIN_COOLDOWN_REQUEUE else until - now
  }

  /** The action that follows from the verdicts. */
  ghost predicate Follows(js: set<Judgement>, now: int, a: Action) {
    if Found(js, InFlight) then a == Wait
    else if Found(js, Candidate) then a.Wake? && SmallestCandidate(js, a.machine, a.pool)
    else if SomeCooling(js) then exists until :: SoonestCooling(js, until) && a == CoolDown(WaitFor(until, now))
    else if Found(js, Capped) then a.Warn? && exists x :: x in js && x.verdict == Capped && x.pool == a.pool
    else a == NoFit
  }

  /** Seconds until the pod is looked at again. */
  function RequeueAfter(a: Action): int {
    match a
    case Wait | Wake(_, _) => SCALE_UP_REQUEUE
    case CoolDown(seconds) => seconds
    case Warn(_) | NoFit => NO_FIT_REQUEUE
  }

  /** smallestCandidate over the collected candidates. */
  method Smallest(candidates: seq<Judgement>) returns (winner: Judgement)
    requires candidates != []
    requires forall x, y :: x in candidates && y in candidates && x.machine.name == y.machine.name ==> x.machine == y.machine
    ensures winner in candidates
    ensures forall x :: x in candidates && x.machine != winner.machine ==> Smaller(winner.machine, x.machine)
  {
    winner := candidates[0];
    var i := 1;
    while i < |candidates|
      invariant 1 <= i <= |candidates|
      invariant winner in candidates
      invariant forall k :: 0 <= k < i && candidates[k].machine != winner.machine ==> Smaller(winner.machine, candidates[k].machine)
    {
      var x := candidates[i];
      SmallerIsStrict(winner.machine, x.machine);
      if Smaller(x.machine, winner.machine) {
        forall k | 0 <= k < i && candidates[k].machine != x.machine
          ensures Smaller(x.machine, candidates[k].machine)
        {
          if candidates[k].machine != winner.machine {
            SmallerTransitive(x.machine, winner.machine, candidates[k].machine);
          }
        }
        winner := x;
      }
      i := i + 1;
    }
  }

  /** What the selection loop has accumulated after the judgements `js`. */
  datatype Tally = Tally(candidates: seq<Judgement>, wakeInFlight: bool, maxed: Option<Pool>, cooling: Option<int>)

  ghost predicate Tallied(js: set<Judgement>, t: Tally) {
    && (forall x :: x in t.candidates <==> x in js && x.verdict == Candidate)
    && (t.wakeInFlight <==> Found(js, InFlight))
    && (if t.maxed.Some? then exists x :: x in js && x.verdict == Capped && x.pool == t.maxed.value else !Found(js, Capped))
    && (if t.cooling.Some? then SoonestCooling(js, t.cooling.value) else !SomeCooling(js))
  }

  function Add(t: Tally, x: Judgement): Tally {
    match x.verdict
    case Unfit | Held => t
    case InFlight => t.(wakeInFlight := true)
    case Capped => t.(maxed := Some(x.pool))
    case Cooling(until) => if t.cooling.None? || until < t.cooling.value then t.(cooling := Some(until)) else t
    case Candidate => t.(candidates := t.candidates + [x])
  }

  /** One more judgement in the loop's accumulators. */
  lemma TallyOne(js: set<Judgement>, t: Tally, x: Judgement)
    requires Tallied(js, t)
    ensures Tallied(js + {x}, Add(t, x))
  {
    var all := js + {x};
    var u := Add(t, x);
    assert forall v :: Found(all, v) <==> Found(js, v) || x.verdict == v;
    assert SomeCooling(all) <==> SomeCooling(js) || x.verdict.Cooling?;
    if u.maxed.Some? {
      if x.verdict == Capped {
        assert x in all;
      } else {
        var y :| y in js && y.verdict == Capped && y.pool == t.maxed.value;
        assert y in all;
      }
    }
  }

  /** The body of the inner loop, on one member. */
  method JudgeMember(sc: Scene, m: Machine, pool: Pool, memberships: int, maxed: bool, until: Option<int>, before: Tally)
    returns (t: Tally)
    ensures t == Add(before, Judgement(pool, m, Rule(sc, m, pool, memberships > 1, maxed, until)))
  {
    t := before;
    var fits := SimulateFit(sc, m, pool);
    if !fits {
      return;
    }
    if IsWaking(m) || Settling(m, sc.clock) {
      return t.(wakeInFlight := true);
    }
    if m.state != Off || WakeRequested(m) {
      return;
    }
    if memberships > 1 {
      return;
    }
    if maxed {
      return t.(maxed := Some(pool));
    }
    if until.Some? {
      if t.cooling.None? || until.value < t.cooling.value {
        t := t.(cooling := until);
      }
      return;
    }
    t := t.(candidates := t.candidates + [Judgement(pool, m, Candidate)]);
  }

  lemma JudgeListNext(sc: Scene, ls: seq<Listing>, l: Listing, j: nat, js: set<Judgement>)
    requires j < |l.machines|
    ensures js + JudgeList(sc, ls, l, j + 1)
            == (js + JudgeList(sc, ls, l, j)) + {Judgement(l.pool, l.machines[j], Judge(sc, ls, l, l.machines[j]))}
  {}

  /** The inner loop: one pool's members. */
  method JudgeMembers(sc: Scene, ls: seq<Listing>, i: nat, counts: map<string, int>, before: Tally,
                      ghost js: set<Judgement>, ghost store: map<string, Machine>)
    returns (t: Tally)
    requires WellListed(ls, store) && i < |ls| && Tallied(js, before)
    requires forall name :: Count(counts, name) == |Holders(ls, |ls|, name)|
    ensures Tallied(js + JudgeList(sc, ls, ls[i], |ls[i].machines|), t)
  {
    var l := ls[i];
    var maxed := PoolAtCap(sc, l);
    t := before;
    var j := 0;
    assert js + JudgeList(sc, ls, l, 0) == js;
    while j < |l.machines|
      invariant 0 <= j <= |l.machines|
      invariant Tallied(js + JudgeList(sc, ls, l, j), t)
    {
      var m := l.machines[j];
      SharedByCount(ls, m.name);
      TallyOne(js + JudgeList(sc, ls, l, j), t, Judgement(l.pool, m, Judge(sc, ls, l, m)));
      JudgeListNext(sc, ls, l, j, js);
      t := JudgeMember(sc, m, l.pool, Count(counts, m.name), maxed, PoolCooling(sc, l.pool), t);
      j := j + 1;
    }
  }

  /** The selection: walk every pool's members, then decide. */
  method Select(sc: Scene, ls: seq<Listing>, ghost store: map<string, Machine>) returns (a: Action)
    requires WellListed(ls, store)
    ensures Follows(JudgeAll(sc, ls, |ls|), sc.clock, a)
  {
    var counts := PoolMemberships(ls);
    var t := Tally([], false, None, None);
    var i := 0;
    while i < |ls|
      invariant 0 <= i <= |ls|
      invariant Tallied(JudgeAll(sc, ls, i), t)
    {
      t := JudgeMembers(sc, ls, i, counts, t, JudgeAll(sc, ls, i), store);
      i := i + 1;
    }
    a := Decide(sc, ls, t, store);
  }

  method Decide(sc: Scene, ls: seq<Listing>, t: Tally, ghost store: map<string, Machine>) returns (a: Action)
    requires WellListed(ls, store) && Tallied(JudgeAll(sc, ls, |ls|), t)
    ensures Follows(JudgeAll(sc, ls, |ls|), sc.clock, a)
  {
    ghost var js := JudgeAll(sc, ls, |ls|);
    if t.wakeInFlight {
      return Wait;
    }
    if |t.candidates| > 0 {
      assert t.candidates[0] in js;
      forall x, y | x in t.candidates && y in t.candidates && x.machine.name == y.machine.name
        ensures x.machine == y.machine
      {
        JudgedSomewhere(sc, ls, |ls|, x);
        JudgedSomewhere(sc, ls, |ls|, y);
      }
      var winner := Smallest(t.candidates);
      return Wake(winner.machine, winner.pool);
    }
    assert !Found(js, Candidate);
    if t.cooling.Some? {
      return CoolDown(WaitFor(t.cooling.value, sc.clock));
    }
    if t.maxed.Some? {
      return Warn(t.maxed.value);
    }
    return NoFit;
  }

  // ---------- order does not matter ----------

  /** The same pools with the same members, each listed in any order. */
  ghost predicate SameContents(a: seq<Listing>, b: seq<Listing>) {
    (forall l :: l in a ==> Relisted(l, b)) && (forall l :: l in b ==> Relisted(l, a))
  }

  ghost predicate Relisted(l: Listing, ls: seq<Listing>) {
    exists i :: 0 <= i < |ls| && Reorders(ls[i], l)
  }

  ghost predicate Reorders(k: Listing, l: Listing) {
    k.pool == l.pool && multiset(k.machines) == multiset(l.machines)
  }

  /** Only the pool a warning names may differ. */
  ghost predicate SameAction(a: Action, b: Action) {
    (a == b || (a.Warn? && b.Warn?)) && RequeueAfter(a) == RequeueAfter(b)
  }

  /** A candidate is in one pool only, so a Machine is a candidate in at most one way. */
  lemma {:induction false} CandidateOnce(sc: Scene, ls: seq<Listing>, store: map<string, Machine>, x: Judgement, y: Judgement)
    requires WellListed(ls, store) && x in JudgeAll(sc, ls, |ls|) && y in JudgeAll(sc, ls, |ls|)
    requires x.verdict == y.verdict == Candidate && x.machine.name == y.machine.name
    ensures x == y
  {
    hide JudgeAll, MachineFits;
    JudgedSomewhere(sc, ls, |ls|, x);
    JudgedSomewhere(sc, ls, |ls|, y);
    var i :| 0 <= i < |ls| && x.pool == ls[i].pool && x.machine in ls[i].machines && x.verdict == Judge(sc, ls, ls[i], x.machine);
    var j :| 0 <= j < |ls| && y.pool == ls[j].pool && y.machine in ls[j].machines && y.verdict == Judge(sc, ls, ls[j], y.machine);
    HeldOnce(ls, x.machine.name, i, j);
  }

  lemma HeldOnce(ls: seq<Listing>, name: string, i: nat, j: nat)
    requires i < |ls| && j < |ls| && Has(ls[i], name) && Has(ls[j], name)
    ensures i == j || Shared(ls, name)
  {}

  ghost predicate OneWayEach(js: set<Judgement>) {
    forall x, y :: x in js && y in js && x.verdict == Candidate && y.verdict == Candidate && x.machine.name == y.machine.name ==> x == y
  }

  /** The verdicts leave one action: the woken Machine is the one smallest candidate. */
  lemma ActionUnique(js: set<Judgement>, now: int, a: Action, b: Action)
    requires OneWayEach(js) && Follows(js, now, a) && Follows(js, now, b)
    ensures SameAction(a, b)
  {
    if a.Wake? && b.Wake? {
      SmallerIsStrict(a.machine, b.machine);
      assert Judgement(a.pool, a.machine, Candidate) in js && Judgement(b.pool, b.machine, Candidate) in js;
    }
  }

  lemma SharedSame(a: seq<Listing>, b: seq<Listing>, store: map<string, Machine>, name: string)
    requires WellListed(a, store) && SameContents(a, b) && Shared(a, name)
    ensures Shared(b, name)
  {
    var i, j :| 0 <= i < j < |a| && Has(a[i], name) && Has(a[j], name);
    assert Relisted(a[i], b) && Relisted(a[j], b);
    var u :| 0 <= u < |b| && Reorders(b[u], a[i]);
    var v :| 0 <= v < |b| && Reorders(b[v], a[j]);
    SameMembers(a[i].machines, b[u].machines);
    SameMembers(a[j].machines, b[v].machines);
    assert Has(b[u], name) && Has(b[v], name) && u != v;
    assert u < v || v < u;
  }

  lemma SameMembers(s: seq<Machine>, t: seq<Machine>)
    requires multiset(s) == multiset(t)
    ensures forall m :: m in s <==> m in t
  {
    assert forall m :: m in s <==> m in multiset(s);
    assert forall m :: m in t <==> m in multiset(t);
  }

  lemma SharedEqually(a: seq<Listing>, b: seq<Listing>, store: map<string, Machine>, name: string)
    requires WellListed(a, store) && WellListed(b, store) && SameContents(a, b)
    ensures Shared(a, name) <==> Shared(b, name)
  {
    if Shared(a, name) {
      SharedSame(a, b, store, name);
    }
    if Shared(b, name) {
      SharedSame(b, a, store, name);
    }
  }

  /** A list in another order gets the same verdicts. */
  lemma JudgeSame(sc: Scene, a: seq<Listing>, b: seq<Listing>, store: map<string, Machine>, k: Listing, l: Listing, m: Machine)
    requires WellListed(a, store) && WellListed(b, store) && SameContents(a, b) && Reorders(k, l)
    ensures Judge(sc, a, l, m) == Judge(sc, b, k, m)
    ensures m in k.machines <==> m in l.machines
  {
    SharedEqually(a, b, store, m.name);
    SameMembers(k.machines, l.machines);
    assert Slots(sc, k.machines) == Slots(sc, l.machines);
  }

  lemma {:induction false} JudgedSame(sc: Scene, a: seq<Listing>, b: seq<Listing>, store: map<string, Machine>, x: Judgement)
    requires WellListed(a, store) && WellListed(b, store) && SameContents(a, b)
    requires x in JudgeAll(sc, a, |a|)
    ensures x in JudgeAll(sc, b, |b|)
  {
    hide Judge;
    JudgedSomewhere(sc, a, |a|, x);
    var i :| 0 <= i < |a| && x.pool == a[i].pool && x.machine in a[i].machines && x.verdict == Judge(sc, a, a[i], x.machine);
    assert Relisted(a[i], b);
    var j :| 0 <= j < |b| && Reorders(b[j], a[i]);
    JudgeSame(sc, a, b, store, b[j], a[i], x.machine);
    JudgedSomewhere(sc, b, |b|, x);
  }

  /** Selection is order-free: however the pools and their Machines are listed, the same Machine is
      woken or the same wait is asked for. */
  lemma {:induction false} SelectionIgnoresOrder(sc: Scene, a: seq<Listing>, b: seq<Listing>, store: map<string, Machine>, x: Action, y: Action)
    requires WellListed(a, store) && WellListed(b, store) && SameContents(a, b)
    requires Follows(JudgeAll(sc, a, |a|), sc.clock, x) && Follows(JudgeAll(sc, b, |b|), sc.clock, y)
    ensures SameAction(x, y)
  {
    hide Judge, JudgeAll, Follows;
    SameJudgements(sc, a, b, store);
    CandidatesOnce(sc, a, store);
    ActionUnique(JudgeAll(sc, a, |a|), sc.clock, x, y);
  }

  lemma {:induction false} SameJudgements(sc: Scene, a: seq<Listing>, b: seq<Listing>, store: map<string, Machine>)
    requires WellListed(a, store) && WellListed(b, store) && SameContents(a, b)
    ensures JudgeAll(sc, a, |a|) == JudgeAll(sc, b, |b|)
  {
    hide Judge, JudgeAll;
    forall j
      ensures j in JudgeAll(sc, a, |a|) <==> j in JudgeAll(sc, b, |b|)
    {
      if j in JudgeAll(sc, a, |a|) {
        JudgedSame(sc, a, b, store, j);
      }
      if j in JudgeAll(sc, b, |b|) {
        JudgedSame(sc, b, a, store, j);
      }
    }
  }

  lemma {:induction false} CandidatesOnce(sc: Scene, ls: seq<Listing>, store: map<string, Machine>)
    requires WellListed(ls, store)
    ensures OneWayEach(JudgeAll(sc, ls, |ls|))
  {
    hide Judge, JudgeAll;
    var js := JudgeAll(sc, ls, |ls|);
    forall x, y | x in js && y in js && x.verdict == Candidate && y.verdict == Candidate && x.machine.name == y.machine.name
      ensures x == y
    {
      CandidateOnce(sc, ls, store, x, y);
    }
  }

  // ---------- what it all means, in fields ----------

  /** A wake the pod can count on: booting, asked for without a refused power-on, or Ready for less than
      two minutes. */
  predicate UnderWay(m: Machine, now: int) {
    || m.state == Booting
    || (m.state == Off && m.wakeNow == Some("true") && !(m.powerOnSucceeded.Some? && !m.powerOnSucceeded.value.status))
    || (m.state == Ready && m.readyCondition.Some? && m.readyCondition.value.status && now < m.readyCondition.value.since + 120)
  }

  /** Off and not asked to wake, in this pool alone. */
  ghost predicate Spare(ls: seq<Listing>, m: Machine) {
    m.state == Off && m.wakeNow != Some("true") && !Shared(ls, m.name)
  }

  /** The time the pool's scale-up cooldown lifts, if it still runs. */
  predicate CoolsUntil(sc: Scene, pool: Pool, until: int) {
    && pool.scaleUpCooldown.Some? && pool.lastScaleUp.Some?
    && until == pool.lastScaleUp.value + pool.scaleUpCooldown.value && sc.clock < until
  }

  ghost predicate Wakeable(sc: Scene, ls: seq<Listing>, i: nat, m: Machine)
    requires i < |ls|
  {
    && Spare(ls, m) && !AtCap(sc, ls[i])
    && (ls[i].pool.scaleUpCooldown.Some? && ls[i].pool.lastScaleUp.Some? ==>
          ls[i].pool.lastScaleUp.value + ls[i].pool.scaleUpCooldown.value <= sc.clock)
  }

  /** Less CPU; with as much, less memory; with as much of both, the name that sorts first. */
  ghost predicate Before(a: Machine, b: Machine) {
    var cpuA, cpuB := if "cpu" in a.capacity then a.capacity["cpu"] else 0, if "cpu" in b.capacity then b.capacity["cpu"] else 0;
    var memA, memB := if "memory" in a.capacity then a.capacity["memory"] else 0, if "memory" in b.capacity then b.capacity["memory"] else 0;
    cpuA < cpuB || (cpuA == cpuB && memA < memB) || (cpuA == cpuB && memA == memB && SortsBefore(a.name, b.name))
  }

  /** The first difference decides, and a prefix comes first. */
  ghost predicate SortsBefore(a: string, b: string) {
    exists i :: DiffersAt(a, b, i)
  }

  predicate DiffersAt(a: string, b: string, i: int) {
    0 <= i <= |a| && i < |b| && a[..i] == b[..i] && (i == |a| || a[i] < b[i])
  }

  lemma {:induction false} SortsByFirstDifference(a: string, b: string)
    ensures LexLess(a, b) <==> SortsBefore(a, b)
  {
    if b == [] {
    } else if a == [] {
      assert DiffersAt(a, b, 0);
    } else {
      SortsByFirstDifference(a[1..], b[1..]);
      if a[0] < b[0] {
        assert DiffersAt(a, b, 0);
      }
      if a[0] == b[0] && SortsBefore(a[1..], b[1..]) {
        var i :| DiffersAt(a[1..], b[1..], i);
        assert a[..i + 1] == [a[0]] + a[1..][..i] && b[..i + 1] == [b[0]] + b[1..][..i];
        assert DiffersAt(a, b, i + 1);
      }
      if i :| DiffersAt(a, b, i) && i > 0 {
        assert a[0] == a[..i][0] == b[..i][0] == b[0];
        assert a[1..][..i - 1] == a[..i][1..] && b[1..][..i - 1] == b[..i][1..];
        assert DiffersAt(a[1..], b[1..], i - 1);
      }
    }
  }

  lemma BeforeIsSmaller(a: Machine, b: Machine)
    ensures Before(a, b) <==> Smaller(a, b)
  {
    SortsByFirstDifference(a.name, b.name);
  }

  /** The verdict on a member, in fields. */
  lemma VerdictMeans(sc: Scene, ls: seq<Listing>, i: nat, m: Machine)
    requires i < |ls|
    ensures var v := Judge(sc, ls, ls[i], m);
            var fits := MachineFits(sc, m, ls[i].pool);
            && (v == InFlight <==> fits && UnderWay(m, sc.clock))
            && (v == Capped <==> fits && !UnderWay(m, sc.clock) && Spare(ls, m) && AtCap(sc, ls[i]))
            && (v == Candidate <==> fits && !UnderWay(m, sc.clock) && Wakeable(sc, ls, i, m))
            && (v.Cooling? <==> fits && !UnderWay(m, sc.clock) && Spare(ls, m) && !AtCap(sc, ls[i]) && !Wakeable(sc, ls, i, m))
            && (v.Cooling? ==> CoolsUntil(sc, ls[i].pool, v.until))
  {
    hide MachineFits, AtCap;
  }

  /** A listed member the pod fits on. */
  ghost predicate Fitting(sc: Scene, ls: seq<Listing>, i: int, m: Machine) {
    0 <= i < |ls| && m in ls[i].machines && MachineFits(sc, m, ls[i].pool)
  }

  /** What each action means: the selection waits exactly while a wake the pod fits on is under way, wakes
      exactly when it need not wait and some fitting member is wakeable, and asks for no more than the
      earliest cooldown to lift. The pod is looked at again after 30 seconds while a wake is under way,
      after 60 when nothing can be done, and after the cooldown, at least a second, otherwise. */
  lemma {:induction false} ActionMeans(sc: Scene, ls: seq<Listing>, a: Action)
    requires Follows(JudgeAll(sc, ls, |ls|), sc.clock, a)
    ensures a.Wait? <==> exists i, m :: Fitting(sc, ls, i, m) && UnderWay(m, sc.clock)
    ensures a.Wake? <==> !a.Wait? && exists i, m :: Fitting(sc, ls, i, m) && Wakeable(sc, ls, i, m)
    ensures a.CoolDown? ==> exists i, m, until :: Fitting(sc, ls, i, m) && Spare(ls, m) && CoolsUntil(sc, ls[i].pool, until)
                                                  && a.seconds == if until - sc.clock < 1 then 1 else until - sc.clock
    ensures a.CoolDown? ==> forall i, m, until :: Fitting(sc, ls, i, m) && Spare(ls, m) && !AtCap(sc, ls[i]) && CoolsUntil(sc, ls[i].pool, until) ==>
                              a.seconds <= if until - sc.clock < 1 then 1 else until - sc.clock
    ensures a.Warn? ==> exists i, m :: Fitting(sc, ls, i, m) && Spare(ls, m) && ls[i].pool == a.pool && AtCap(sc, ls[i])
    ensures a.NoFit? ==> forall i, m :: Fitting(sc, ls, i, m) ==> !UnderWay(m, sc.clock) && !Spare(ls, m)
    ensures RequeueAfter(a) == if a.Wait? || a.Wake? then 30 else if a.CoolDown? then a.seconds else 60
  {
    hide JudgeAll, MachineFits, AtCap, Judge, UnderWay, Spare, Wakeable, CoolsUntil;
    var js := JudgeAll(sc, ls, |ls|);
    FoundMeans(sc, ls);
    if a.CoolDown? {
      var until :| SoonestCooling(js, until) && a == CoolDown(WaitFor(until, sc.clock));
      var x :| x in js && x.verdict == Cooling(until);
      var i := ListedAt(sc, ls, x);
      VerdictMeans(sc, ls, i, x.machine);
      assert Fitting(sc, ls, i, x.machine) && CoolsUntil(sc, ls[i].pool, until);
      forall j, m, later | Fitting(sc, ls, j, m) && Spare(ls, m) && !AtCap(sc, ls[j]) && CoolsUntil(sc, ls[j].pool, later)
        ensures until <= later
      {
        FittingIsJudged(sc, ls, j, m);
        VerdictMeans(sc, ls, j, m);
        CoolingIsOne(sc, ls, j, m, later);
      }
    }
    if a.Warn? {
      var x :| x in js && x.verdict == Capped && x.pool == a.pool;
      var i := ListedAt(sc, ls, x);
      VerdictMeans(sc, ls, i, x.machine);
      assert Fitting(sc, ls, i, x.machine);
    }
    if a.NoFit? {
      forall i, m | Fitting(sc, ls, i, m)
        ensures !UnderWay(m, sc.clock) && !Spare(ls, m)
      {
        FittingIsJudged(sc, ls, i, m);
        VerdictMeans(sc, ls, i, m);
      }
    }
  }

  lemma CoolingIsOne(sc: Scene, ls: seq<Listing>, i: nat, m: Machine, until: int)
    requires i < |ls| && CoolsUntil(sc, ls[i].pool, until) && Spare(ls, m)
    ensures !Wakeable(sc, ls, i, m) && !UnderWay(m, sc.clock)
    ensures Judge(sc, ls, ls[i], m).Cooling? ==> Judge(sc, ls, ls[i], m) == Cooling(until)
  {
    hide MachineFits, AtCap;
  }

  lemma {:induction false} FittingIsJudged(sc: Scene, ls: seq<Listing>, i: int, m: Machine)
    requires Fitting(sc, ls, i, m)
    ensures Judgement(ls[i].pool, m, Judge(sc, ls, ls[i], m)) in JudgeAll(sc, ls, |ls|)
  {
    hide JudgeAll, Judge, MachineFits;
    JudgedSomewhere(sc, ls, |ls|, Judgement(ls[i].pool, m, Judge(sc, ls, ls[i], m)));
  }

  lemma {:induction false} ListedAt(sc: Scene, ls: seq<Listing>, x: Judgement) returns (i: nat)
    requires x in JudgeAll(sc, ls, |ls|)
    ensures i < |ls| && x.pool == ls[i].pool && x.machine in ls[i].machines && x.verdict == Judge(sc, ls, ls[i], x.machine)
  {
    hide JudgeAll, Judge;
    JudgedSomewhere(sc, ls, |ls|, x);
    i :| 0 <= i < |ls| && x.pool == ls[i].pool && x.machine in ls[i].machines && x.verdict == Judge(sc, ls, ls[i], x.machine);
  }

  /** Which verdicts are found, in fields. */
  lemma {:induction false} FoundMeans(sc: Scene, ls: seq<Listing>)
    ensures var js := JudgeAll(sc, ls, |ls|);
            && (Found(js, InFlight) <==> exists i, m :: Fitting(sc, ls, i, m) && UnderWay(m, sc.clock))
            && (!Found(js, InFlight) ==> (Found(js, Candidate) <==> exists i, m :: Fitting(sc, ls, i, m) && Wakeable(sc, ls, i, m)))
  {
    hide JudgeAll, MachineFits, AtCap, Judge, UnderWay, Spare, Wakeable, CoolsUntil;
    var js := JudgeAll(sc, ls, |ls|);
    if Found(js, InFlight) {
      var x :| x in js && x.verdict == InFlight;
      var i := ListedAt(sc, ls, x);
      VerdictMeans(sc, ls, i, x.machine);
      assert Fitting(sc, ls, i, x.machine) && UnderWay(x.machine, sc.clock);
    }
    if i, m :| Fitting(sc, ls, i, m) && UnderWay(m, sc.clock) {
      FittingIsJudged(sc, ls, i, m);
      VerdictMeans(sc, ls, i, m);
    }
    if Found(js, Candidate) {
      var x :| x in js && x.verdict == Candidate;
      var i := ListedAt(sc, ls, x);
      VerdictMeans(sc, ls, i, x.machine);
      assert Fitting(sc, ls, i, x.machine) && Wakeable(sc, ls, i, x.machine);
    }
    if i, m :| Fitting(sc, ls, i, m) && Wakeable(sc, ls, i, m) {
      FittingIsJudged(sc, ls, i, m);
      VerdictMeans(sc, ls, i, m);
    }
  }

  /** What a wake means: the Machine is Off and unasked, fits the pod, is in one pool that is below
      its cap and not cooling down; no fitting wake is in flight; and every other Machine that could
      have been woken is larger. */
  lemma {:induction false} WakeIsBest(sc: Scene, ls: seq<Listing>, store: map<string, Machine>, a: Action, i: nat, m: Machine)
    requires WellListed(ls, store) && Follows(JudgeAll(sc, ls, |ls|), sc.clock, a) && a.Wake?
    requires i < |ls| && m in ls[i].machines && MachineFits(sc, m, ls[i].pool)
    ensures !UnderWay(m, sc.clock)
    ensures Wakeable(sc, ls, i, m) ==> m == a.machine || Before(a.machine, m)
    ensures exists k :: 0 <= k < |ls| && ls[k].pool == a.pool && a.machine in ls[k].machines
                        && MachineFits(sc, a.machine, a.pool) && Wakeable(sc, ls, k, a.machine)
  {
    hide JudgeAll, MachineFits, AtCap, Smaller;
    BeforeIsSmaller(a.machine, m);
    var x := Judgement(ls[i].pool, m, Judge(sc, ls, ls[i], m));
    JudgedSomewhere(sc, ls, |ls|, x);
    JudgedSomewhere(sc, ls, |ls|, Judgement(a.pool, a.machine, Candidate));
  }
}
