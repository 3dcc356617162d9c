/** The objects the controllers and the shutdown agent share through the API server, and the
    read-only questions asked about them (api/v1alpha1, internal/controller/guards.go, and the
    pod predicates of internal/controller/machine_controller.go).

    Times are whole seconds and quantities are integers. An annotation is `None` when its key is
    absent. A label selector is represented by the set of Machine names it selects, and is `None`
    when it is malformed. */
module Api {

  datatype Option<T> = None | Some(value: T)

  datatype State = Unset | Off | Booting | Ready | Draining | ShuttingDown | Failed

  const TRIGGER := "true"
  const ALWAYS_ON := "onp.io/always-on"
  const HOSTNAME := "kubernetes.io/hostname"
  const LIFECYCLE_PREFIX := "node.kubernetes.io/"
  const DEFAULT_DRAIN_TIMEOUT := 300

  /** A status condition; `since` is its LastTransitionTime. */
  datatype Condition = Condition(status: bool, since: int)

  /** Sets a condition, moving its transition time only when the status changes. */
  function SetCondition(c: Option<Condition>, status: bool, now: int): Option<Condition> {
    if c.Some? && c.value.status == status then c else Some(Condition(status, now))
  }

  datatype Machine = Machine(
    name: string,
    nodeName: string,
    labels: map<string, string>,
    capacity: map<string, int>,
    provider: string,
    shutdownProvider: Option<string>,
    wakeNow: Option<string>,
    drainNow: Option<string>,
    state: State,
    bootStart: Option<int>,
    drainStart: Option<int>,
    emptySince: Option<int>,
    shutdownStart: Option<int>,
    notReadySince: Option<int>,
    powerOnSucceeded: Option<Condition>,
    readyCondition: Option<Condition>,
    version: nat)

  predicate WakeRequested(m: Machine) {
    m.wakeNow == Some(TRIGGER)
  }

  predicate DrainRequested(m: Machine) {
    m.drainNow == Some(TRIGGER)
  }

  datatype Taint = Taint(key: string, value: string, effect: string)

  /** `cordonedBy` is the onp.io/cordoned-by-onp annotation, `ready` the first Ready condition. */
  datatype Node = Node(
    labels: map<string, string>,
    taints: seq<Taint>,
    unschedulable: bool,
    cordonedBy: Option<string>,
    doNotDisrupt: Option<string>,
    ready: Option<Condition>,
    allocatable: map<string, int>)

  /** Reading a Go map of strings: an absent key reads as "". */
  function Lookup(labels: map<string, string>, key: string): string {
    if key in labels then labels[key] else ""
  }

  predicate NodeReady(node: Option<Node>) {
    node.Some? && node.value.ready.Some? && node.value.ready.value.status
  }

  predicate AlwaysOn(node: Option<Node>) {
    node.Some? && Lookup(node.value.labels, ALWAYS_ON) == TRIGGER
  }

  /** Whether the node was seen going NotReady at or after `since`; no `since` accepts any NotReady. */
  predicate WentDownSince(node: Option<Node>, since: Option<int>) {
    match node
    case None => true
    case Some(n) =>
      && n.ready.Some?
      && !n.ready.value.status
      && (since.Some? ==> since.value <= n.ready.value.since)
  }

  datatype Phase = Pending | Running | Succeeded | PodFailed | Unknown

  /** `mirror` is the presence of the static-pod annotation, `owners` the kinds of the owner references. */
  datatype Pod = Pod(
    name: string,
    nodeName: string,
    phase: Phase,
    mirror: bool,
    owners: seq<string>,
    doNotDisrupt: Option<string>,
    deleting: bool,
    requests: map<string, int>)

  predicate Finished(pod: Pod) {
    pod.phase.Succeeded? || pod.phase.PodFailed?
  }

  predicate HasDoNotDisrupt(pod: Pod) {
    pod.doNotDisrupt == Some(TRIGGER)
  }

  predicate IsWorkload(pod: Pod) {
    !Finished(pod) && !pod.mirror && "DaemonSet" !in pod.owners
  }

  predicate KeepsNodeOn(pod: Pod) {
    IsWorkload(pod) || (!Finished(pod) && HasDoNotDisrupt(pod))
  }

  predicate IsDrainable(pod: Pod, force: bool) {
    IsWorkload(pod) && !pod.deleting && (force || !HasDoNotDisrupt(pod))
  }

  datatype Pool = Pool(
    name: string,
    members: Option<set<string>>,
    minNodes: int,
    maxNodes: Option<int>,
    labels: map<string, string>,
    taints: seq<Taint>,
    whenEmpty: bool,
    consolidateAfter: Option<int>,
    maxConcurrent: Option<int>,
    scaleUpCooldown: Option<int>,
    scaleDownCooldown: Option<int>,
    drainTimeout: Option<int>,
    force: bool,
    lastScaleUp: Option<int>,
    lastScaleDown: Option<int>)

  predicate Selects(pool: Pool, machine: string) {
    pool.members.Some? && machine in pool.members.value
  }

  /** The pools that select a machine, in listing order. */
  function Matching(pools: seq<Pool>, machine: string): (matched: seq<Pool>)
    ensures forall p :: p in matched <==> p in pools && Selects(p, machine)
  {
    if pools == [] then []
    else if Selects(pools[0], machine) then [pools[0]] + Matching(pools[1..], machine)
    else Matching(pools[1..], machine)
  }

  /** A pool is matched as often as it is listed. */
  lemma {:induction false} MatchedAsListed(pools: seq<Pool>, machine: string, p: Pool)
    ensures multiset(Matching(pools, machine))[p] == if Selects(p, machine) then multiset(pools)[p] else 0
  {
    if pools == [] {
    } else {
      assert pools == [pools[0]] + pools[1..];
      MatchedAsListed(pools[1..], machine, p);
    }
  }

  /** Among the listed pools, one alone selects the Machine, and it forces. */
  ghost predicate ForcedAlone(pools: seq<Pool>, machine: string) {
    exists i :: 0 <= i < |pools| && pools[i].force && AloneAt(pools, machine, i)
  }

  /** The selector of the pool at `i` takes the Machine, and no other does. */
  ghost predicate AloneAt(pools: seq<Pool>, machine: string, i: int)
    requires 0 <= i < |pools|
  {
    forall j :: 0 <= j < |pools| ==> (pools[j].members.Some? && machine in pools[j].members.value <==> i == j)
  }

  lemma {:induction false} NoneMatched(pools: seq<Pool>, machine: string)
    requires forall i :: 0 <= i < |pools| ==> !Selects(pools[i], machine)
    ensures Matching(pools, machine) == []
  {
    if pools == [] {
    } else {
      NoneMatched(pools[1..], machine);
    }
  }

  lemma {:induction false} MatchesAlone(pools: seq<Pool>, machine: string)
    ensures |Matching(pools, machine)| == 1 <==> exists i :: 0 <= i < |pools| && AloneAt(pools, machine, i)
    ensures forall i :: 0 <= i < |pools| && AloneAt(pools, machine, i) ==> Matching(pools, machine) == [pools[i]]
    ensures |Matching(pools, machine)| == 0 ==> forall j :: 0 <= j < |pools| ==> !Selects(pools[j], machine)
  {
    if pools == [] {
    } else {
      var rest := pools[1..];
      MatchesAlone(rest, machine);
      assert forall j :: 1 <= j < |pools| ==> pools[j] == rest[j - 1];
      if Selects(pools[0], machine) {
        if |Matching(rest, machine)| == 0 {
          assert AloneAt(pools, machine, 0);
        }
        forall i | 0 <= i < |pools| && AloneAt(pools, machine, i)
          ensures Matching(pools, machine) == [pools[i]]
        {
          assert i == 0;
          NoneMatched(rest, machine);
        }
      } else {
        forall i | 0 <= i < |pools| && AloneAt(pools, machine, i)
          ensures Matching(pools, machine) == [pools[i]]
        {
          assert i > 0 && AloneAt(rest, machine, i - 1);
        }
        if i :| 0 <= i < |rest| && AloneAt(rest, machine, i) {
          assert AloneAt(pools, machine, i + 1);
        }
      }
    }
  }

  /** Force applies exactly when one pool alone selects the Machine and says so. */
  lemma {:induction false} ForceMeans(pools: seq<Pool>, machine: string)
    ensures PolicyOf(Matching(pools, machine)).force <==> ForcedAlone(pools, machine)
  {
    MatchesAlone(pools, machine);
  }

  function Budget(pool: Pool): int {
    if pool.drainTimeout.Some? then pool.drainTimeout.value else DEFAULT_DRAIN_TIMEOUT
  }

  /** `t` is the least drain budget any of the pools grants. */
  ghost predicate IsShortestBudget(pools: seq<Pool>, t: int) {
    && (exists p :: p in pools && Budget(p) == t)
    && (forall p :: p in pools ==> t <= Budget(p))
  }

  function ShortestBudget(pools: seq<Pool>): (t: int)
    requires pools != []
    ensures IsShortestBudget(pools, t)
  {
    if |pools| == 1 then
      assert pools[0] in pools;
      Budget(pools[0])
    else
      var rest := ShortestBudget(pools[1..]);
      assert forall p :: p in pools <==> p == pools[0] || p in pools[1..];
      if Budget(pools[0]) < rest then Budget(pools[0]) else rest
  }

  datatype DrainPolicy = DrainPolicy(timeout: int, force: bool)

  /** One pool decides alone; without a pool the defaults hold; several pools get the most
      conservative reading of all of them. */
  function PolicyOf(matched: seq<Pool>): (policy: DrainPolicy)
    ensures policy.force <==> |matched| == 1 && matched[0].force
    ensures |matched| == 0 ==> policy.timeout == 300
    ensures |matched| == 1 ==> policy.timeout == if matched[0].drainTimeout.Some? then matched[0].drainTimeout.value else 300
    ensures |matched| > 1 ==> IsShortestBudget(matched, policy.timeout)
  {
    if matched == [] then DrainPolicy(DEFAULT_DRAIN_TIMEOUT, false)
    else if |matched| == 1 then DrainPolicy(Budget(matched[0]), matched[0].force)
    else DrainPolicy(ShortestBudget(matched), false)
  }

  /** conservativeDrainTimeout: the loop the controller runs over conflicting pools. */
  method ConservativeDrainTimeout(pools: seq<Pool>) returns (shortest: int)
    requires pools != []
    ensures IsShortestBudget(pools, shortest)
    ensures shortest == ShortestBudget(pools)
  {
    shortest := Budget(pools[0]);
    var i := 1;
    assert pools[..1] == [pools[0]];
    while i < |pools|
      invariant 1 <= i <= |pools|
      invariant exists j :: 0 <= j < i && Budget(pools[j]) == shortest
      invariant forall j :: 0 <= j < i ==> shortest <= Budget(pools[j])
    {
      if Budget(pools[i]) < shortest {
        shortest := Budget(pools[i]);
      }
      i := i + 1;
    }
    ShortestIsUnique(pools, shortest, ShortestBudget(pools));
  }

  lemma ShortestIsUnique(pools: seq<Pool>, s: int, t: int)
    requires IsShortestBudget(pools, s) && IsShortestBudget(pools, t)
    ensures s == t
  {
    var p :| p in pools && Budget(p) == s;
    var q :| q in pools && Budget(q) == t;
  }

  /** The policy of several conflicting pools is their least budget without force, and no policy
      depends on the order the pools were listed in. */
  lemma PolicyIgnoresOrder(a: seq<Pool>, b: seq<Pool>)
    requires multiset(a) == multiset(b)
    ensures PolicyOf(a) == PolicyOf(b)
    ensures |a| > 1 ==> IsShortestBudget(a, PolicyOf(a).timeout) && !PolicyOf(a).force
  {
    assert |a| == |multiset(a)| == |multiset(b)| == |b|;
    assert forall p :: p in a <==> p in multiset(a);
    assert forall p :: p in b <==> p in multiset(b);
    if |a| == 1 {
      assert a[0] in b;
    } else if |a| > 1 {
      var t := ShortestBudget(b);
      var p :| p in b && Budget(p) == t;
      assert p in a;
      ShortestIsUnique(a, ShortestBudget(a), t);
    }
  }
}
