/** When an idle Machine is put up for a drain (internal/controller/scaledown_controller.go): the
    evaluation of one Machine, and the pod events that may be kept from it. */
module ScaleDown {
  import opened Api
  import opened Lifecycle

  const MIN_REQUEUE := 1

  /** consolidateAfter: automatic scale-down is on for exactly one WhenEmpty pool with a window. */
  function Window(matched: seq<Pool>): Option<int> {
    if |matched| == 1 && matched[0].whenEmpty then matched[0].consolidateAfter else None
  }

  predicate NodeProtected(node: Option<Node>) {
    node.Some? && node.value.doNotDisrupt == Some(TRIGGER)
  }

  /** What one evaluation reads. */
  datatype Sight = Sight(m: Machine, node: Option<Node>, matched: seq<Pool>, pods: seq<Pod>, now: int)

  /** The Machine is Ready, unprotected, in a single enabled pool, and empty. */
  predicate Idle(s: Sight) {
    && s.m.state == Ready
    && (s.node.Some? ==> s.node.value.doNotDisrupt != Some("true") && ("onp.io/always-on", "true") !in s.node.value.labels.Items)
    && |s.matched| == 1 && s.matched[0].whenEmpty && s.matched[0].consolidateAfter.Some?
    && (forall i :: 0 <= i < |s.pods| ==> !KeepsNodeOn(s.pods[i]))
  }

  datatype Verdict = Ignore | Clear | Stamp | Hold(seconds: int) | Trigger(pool: Pool)

  /** reconcile up to the pool guards, in the order the questions are asked. */
  function Evaluate(s: Sight): Verdict {
    if s.m.state != Ready then Clear
    else if DrainRequested(s.m) then Ignore
    else if NodeProtected(s.node) then Clear
    else if AlwaysOn(s.node) then Clear
    else if |s.matched| > 1 then Clear
    else if Window(s.matched).None? then Clear
    else if !NoneKeeps(s.pods) then Clear
    else if s.m.emptySince.None? then Stamp
    else
      var left := Window(s.matched).value - (s.now - s.m.emptySince.value);
      if left > 0 then Hold(if left < MIN_REQUEUE then MIN_REQUEUE else left) else Trigger(s.matched[0])
  }

  /** What each verdict says of the Machine: a pending drain is left alone; the timer is cleared
      exactly when the Machine is not idle; an idle one has its timer started, is held exactly until
      its window is over, and after that is put up for a drain under its one pool. */
  predicate Means(s: Sight, v: Verdict) {
    match v
    case Ignore => s.m.state == Ready && s.m.drainNow == Some("true")
    case Clear => !Idle(s) && (s.m.state == Ready ==> s.m.drainNow != Some("true"))
    case Stamp => Idle(s) && s.m.drainNow != Some("true") && s.m.emptySince.None?
    case Hold(seconds) =>
      && Idle(s) && s.m.drainNow != Some("true") && s.m.emptySince.Some?
      && seconds > 0 && s.now + seconds == s.m.emptySince.value + s.matched[0].consolidateAfter.value
    case Trigger(pool) =>
      && Idle(s) && s.m.drainNow != Some("true") && s.m.emptySince.Some?
      && s.m.emptySince.value + s.matched[0].consolidateAfter.value <= s.now && s.matched == [pool]
  }

  /** Every sight has exactly one verdict with that meaning, and it is the evaluation's. */
  lemma OneVerdict(s: Sight, v: Verdict)
    ensures Means(s, v) <==> v == Evaluate(s)
  {
    assert |s.matched| == 1 ==> s.matched == [s.matched[0]];
  }

  // ---------- pod events the watch filter drops ----------

  datatype PodEvent = Added(pod: Pod) | Deleted(pod: Pod) | Updated(before: Pod, pod: Pod)

  /** podEmptinessPredicate. */
  predicate Admits(e: PodEvent) {
    match e
    case Added(pod) => pod.nodeName != "" && KeepsNodeOn(pod)
    case Deleted(pod) => pod.nodeName != ""
    case Updated(before, pod) =>
      pod.nodeName != "" &&
      if before.nodeName != pod.nodeName then KeepsNodeOn(pod) else KeepsNodeOn(before) != KeepsNodeOn(pod)
  }

  predicate Occupies(pod: Pod, node: string) {
    pod.nodeName == node && KeepsNodeOn(pod)
  }

  predicate NodeEmpty(pods: map<string, Pod>, node: string) {
    forall n :: n in pods ==> !Occupies(pods[n], node)
  }

  /** The event is one the API server can deliver on `pods`; a pod is bound once and stays bound. */
  predicate Genuine(pods: map<string, Pod>, e: PodEvent) {
    match e
    case Added(pod) => pod.name !in pods
    case Deleted(pod) => pod.name in pods && pods[pod.name] == pod
    case Updated(before, pod) =>
      && before.name == pod.name && pod.name in pods && pods[pod.name] == before
      && (before.nodeName == "" || before.nodeName == pod.nodeName)
  }

  function AfterEvent(pods: map<string, Pod>, e: PodEvent): map<string, Pod> {
    if e.Deleted? then pods - {e.pod.name} else pods[e.pod.name := e.pod]
  }

  /** A dropped pod event changes no node's emptiness, and a create or update is let through exactly
      when the pod begins or stops occupying some node. */
  lemma DroppedEventsKeepEmptiness(pods: map<string, Pod>, e: PodEvent)
    requires Genuine(pods, e)
    ensures !Admits(e) ==> forall node :: node != "" ==> (NodeEmpty(AfterEvent(pods, e), node) <==> NodeEmpty(pods, node))
    ensures e.Updated? ==> (Admits(e) <==> exists node :: node != "" && Occupies(e.before, node) != Occupies(e.pod, node))
    ensures e.Added? ==> (Admits(e) <==> exists node :: node != "" && Occupies(e.pod, node))
  {
    var after := AfterEvent(pods, e);
    if !Admits(e) {
      forall node | node != ""
        ensures NodeEmpty(after, node) <==> NodeEmpty(pods, node)
      {
        assert e.Updated? ==> (Occupies(e.before, node) <==> Occupies(e.pod, node));
        assert !e.Updated? ==> !Occupies(e.pod, node);
        if NodeEmpty(pods, node) {
          forall n | n in after
            ensures !Occupies(after[n], node)
          {}
        }
        if NodeEmpty(after, node) {
          forall n | n in pods
            ensures !Occupies(pods[n], node)
          {
            if n != e.pod.name {
              assert n in after && after[n] == pods[n];
            } else if !e.Deleted? {
              assert n in after && after[n] == e.pod;
            }
          }
        }
      }
    }
    if e.Updated? && Admits(e) {
      assert Occupies(e.before, e.pod.nodeName) != Occupies(e.pod, e.pod.nodeName);
    }
    if e.Added? && Admits(e) {
      assert Occupies(e.pod, e.pod.nodeName);
    }
  }
}
