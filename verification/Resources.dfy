/** The room a powered-off Machine's node will offer, and the resource check against it
    (scaleup_controller.go: syntheticAllocatable, boundRequests; internal/scheduler/fit.go). */
module Resources {
  import opened Api

  type Quantities = map<string, int>

  /** An absent resource reads as a zero quantity. */
  function Amount(q: Quantities, r: string): int {
    if r in q then q[r] else 0
  }

  /** A domain-qualified resource such as a device plugin's. */
  predicate IsExtended(r: string) {
    '/' in r
  }

  /** What the node has before anything bound to it: the declared capacity, capped by what the Node
      last reported unless the resource is extended; undeclared, what the Node reported. */
  function Base(declared: Quantities, reported: Quantities, r: string): int {
    if r !in declared then Amount(reported, r)
    else if r in reported && !IsExtended(r) && reported[r] < declared[r] then reported[r]
    else declared[r]
  }

  /** Pods that still hold their place once the node boots. */
  predicate Live(pod: Pod) {
    !pod.deleting && !Finished(pod)
  }

  function BoundSum(pods: seq<Pod>, r: string): int {
    if pods == [] then 0
    else BoundSum(pods[..|pods| - 1], r) + (if Live(pods[|pods| - 1]) then Amount(pods[|pods| - 1].requests, r) else 0)
  }

  /** Adds one pod's requests resource by resource, in any map order. */
  method AddRequests(total: Quantities, requests: Quantities) returns (sum: Quantities)
    ensures sum.Keys == total.Keys + requests.Keys
    ensures forall r :: Amount(sum, r) == Amount(total, r) + Amount(requests, r)
  {
    sum := total;
    var todo := requests.Keys;
    while todo != {}
      invariant todo <= requests.Keys
      invariant sum.Keys == total.Keys + (requests.Keys - todo)
      invariant forall r :: Amount(sum, r) == Amount(total, r) + (if r in todo then 0 else Amount(requests, r))
      decreases todo
    {
      var r :| r in todo;
      sum := sum[r := Amount(sum, r) + requests[r]];
      todo := todo - {r};
    }
  }

  function RequestedBy(pods: seq<Pod>): set<string> {
    if pods == [] then {}
    else RequestedBy(pods[..|pods| - 1]) + (if Live(pods[|pods| - 1]) then pods[|pods| - 1].requests.Keys else {})
  }

  function BoundTotals(pods: seq<Pod>): Quantities {
    map r | r in RequestedBy(pods) :: BoundSum(pods, r)
  }

  lemma {:induction false} UnrequestedIsZero(pods: seq<Pod>, r: string)
    ensures r !in RequestedBy(pods) ==> BoundSum(pods, r) == 0
  {
    if pods == [] {
    } else {
      UnrequestedIsZero(pods[..|pods| - 1], r);
    }
  }

  /** boundRequests over the pods listed on the node. */
  method BoundRequests(pods: seq<Pod>) returns (total: Quantities)
    ensures total == BoundTotals(pods)
  {
    total := map[];
    var i := 0;
    while i < |pods|
      invariant 0 <= i <= |pods|
      invariant total.Keys == RequestedBy(pods[..i])
      invariant forall r :: Amount(total, r) == BoundSum(pods[..i], r)
    {
      assert pods[..i + 1][..i] == pods[..i];
      if Live(pods[i]) {
        total := AddRequests(total, pods[i].requests);
      }
      i := i + 1;
    }
    assert pods[..i] == pods;
  }

  /** What is left of a base once the bound pods have theirs, never below zero. */
  function Room(declared: Quantities, reported: Quantities, bound: Quantities): Quantities {
    map r | r in declared.Keys + reported.Keys ::
      var base := Base(declared, reported, r);
      if r in bound then (if base - bound[r] < 0 then 0 else base - bound[r]) else base
  }

  /** syntheticAllocatable: the declared capacity capped, then the bound requests taken off, each in
      any map order. A Machine without a Node reports nothing. */
  method SyntheticAllocatable(declared: Quantities, reported: Quantities, bound: Quantities) returns (room: Quantities)
    ensures room == Room(declared, reported, bound)
  {
    room := declared;
    var todo := reported.Keys;
    while todo != {}
      invariant todo <= reported.Keys
      invariant room.Keys == declared.Keys + (reported.Keys - todo)
      invariant forall r :: r in room ==> room[r] == if r in todo then declared[r] else Base(declared, reported, r)
      decreases todo
    {
      var r :| r in todo;
      if r !in room || (!IsExtended(r) && reported[r] < room[r]) {
        room := room[r := reported[r]];
      }
      todo := todo - {r};
    }
    todo := bound.Keys;
    while todo != {}
      invariant todo <= bound.Keys
      invariant room.Keys == declared.Keys + reported.Keys
      invariant forall r :: r in room ==>
        room[r] == var base := Base(declared, reported, r);
                   if r in bound && r !in todo then (if base - bound[r] < 0 then 0 else base - bound[r]) else base
      decreases todo
    {
      var r :| r in todo;
      if r in room {
        var left := room[r] - bound[r];
        room := room[r := if left < 0 then 0 else left];
      }
      todo := todo - {r};
    }
  }

  /** Every requested resource fits; a resource the node does not advertise has none. */
  predicate Fits(requests: Quantities, room: Quantities) {
    forall r :: r in requests ==> requests[r] <= Amount(room, r)
  }

  /** fitsResources: the scan over the requests, stopping at the first that does not fit. */
  method FitsResources(requests: Quantities, room: Quantities) returns (ok: bool)
    ensures ok <==> Fits(requests, room)
  {
    var todo := requests.Keys;
    while todo != {}
      invariant todo <= requests.Keys
      invariant forall r :: r in requests && r !in todo ==> requests[r] <= Amount(room, r)
      decreases todo
    {
      var r :| r in todo;
      if requests[r] > Amount(room, r) {
        return false;
      }
      todo := todo - {r};
    }
    return true;
  }

  predicate NonNegative(q: Quantities) {
    forall r :: r in q ==> q[r] >= 0
  }

  lemma {:induction false} BoundSumNonNegative(pods: seq<Pod>, r: string)
    requires forall p :: p in pods ==> NonNegative(p.requests)
    ensures BoundSum(pods, r) >= 0
  {
    if pods == [] {
    } else {
      assert pods[|pods| - 1] in pods;
      BoundSumNonNegative(pods[..|pods| - 1], r);
    }
  }

  lemma {:induction false} OneResource(request: int, declared: Quantities, reported: Quantities, pods: seq<Pod>, bound: Quantities, r: string)
    requires Amount(bound, r) == BoundSum(pods, r)
    ensures var left := Amount(Room(declared, reported, bound), r);
            var within := request > 0 ==> request + BoundSum(pods, r) <= Base(declared, reported, r);
            && (request <= left ==> within)
            && (NonNegative(declared) && NonNegative(reported) && BoundSum(pods, r) >= 0 ==> (request <= left <==> within))
  {}

  /** `sum` is no more than what is declared and, unless the resource is an extended one that is declared,
      no more than what the Node reports; of a resource neither names there is none. */
  predicate Within(sum: int, declared: Quantities, reported: Quantities, r: string) {
    && (r in declared ==> sum <= declared[r])
    && (r in reported && (r !in declared || forall i :: 0 <= i < |r| ==> r[i] != '/') ==> sum <= reported[r])
    && (r !in declared && r !in reported ==> sum <= 0)
  }

  lemma WithinBase(sum: int, declared: Quantities, reported: Quantities, r: string)
    ensures Within(sum, declared, reported, r) <==> sum <= Base(declared, reported, r)
  {}

  /** What one more pod adds to the bound sum: its request, unless it is finished or being deleted. */
  lemma {:induction false} BoundSumOneMore(pods: seq<Pod>, pod: Pod, r: string)
    ensures BoundSum(pods + [pod], r) == BoundSum(pods, r)
            + if pod.phase != Succeeded && pod.phase != PodFailed && !pod.deleting && r in pod.requests then pod.requests[r] else 0
  {
    assert (pods + [pod])[..|pods|] == pods;
  }

  /** No overcommit: a pod that passes the resource check leaves room for everything bound - for each
      resource it asks a positive amount of, its request plus the requests of all live bound pods is
      at most the node's base capacity. With no negative quantity anywhere, the check passes exactly
      in that case. */
  lemma {:induction false} NoOvercommit(requests: Quantities, declared: Quantities, reported: Quantities, pods: seq<Pod>)
    ensures var fits := Fits(requests, Room(declared, reported, BoundTotals(pods)));
            var within := forall r :: r in requests && requests[r] > 0 ==> Within(requests[r] + BoundSum(pods, r), declared, reported, r);
            && (fits ==> within)
            && (NonNegative(declared) && NonNegative(reported) && (forall p :: p in pods ==> NonNegative(p.requests))
                ==> (fits <==> within))
  {
    var bound := BoundTotals(pods);
    var nonNegative := forall p :: p in pods ==> NonNegative(p.requests);
    forall r | r in requests
      ensures requests[r] <= Amount(Room(declared, reported, bound), r) ==>
                requests[r] > 0 ==> requests[r] + BoundSum(pods, r) <= Base(declared, reported, r)
      ensures NonNegative(declared) && NonNegative(reported) && nonNegative
              && (requests[r] > 0 ==> requests[r] + BoundSum(pods, r) <= Base(declared, reported, r))
              ==> requests[r] <= Amount(Room(declared, reported, bound), r)
    {
      UnrequestedIsZero(pods, r);
      WithinBase(requests[r] + BoundSum(pods, r), declared, reported, r);
      OneResource(requests[r], declared, reported, pods, bound, r);
      if nonNegative {
        BoundSumNonNegative(pods, r);
      }
    }
  }
}
