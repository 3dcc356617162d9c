/** Scale decisions of one pool are spaced by its cooldown in every run, also when the write after
    the stamp fails. */
module Cooldowns {
  import opened Api
  import opened Lifecycle
  import opened Clusters

  function StampsOf(stamps: map<string, seq<int>>, p: string): seq<int> {
    if p in stamps then stamps[p] else []
  }

  ghost predicate Spaced(times: seq<int>, cooldown: int) {
    forall i :: 0 < i < |times| ==> times[i - 1] + cooldown <= times[i]
  }

  /** The pool's anchor is its last stamp, and a decision about to be stamped is due. */
  ghost predicate Kept(times: seq<int>, anchor: Option<int>, cooldown: int, now: int, due: bool) {
    && Spaced(times, cooldown)
    && (times != [] ==> anchor == Some(times[|times| - 1]) && times[|times| - 1] <= now)
    && (due && times != [] ==> times[|times| - 1] + cooldown <= now)
  }

  ghost predicate RatedDown(cl: Cluster, p: string, cooldown: int) {
    && p in cl.pools && cl.pools[p].scaleDownCooldown == Some(cooldown)
    && Kept(StampsOf(cl.downStamps, p), cl.pools[p].lastScaleDown, cooldown, cl.clock, cl.down.Stamping? && cl.down.pool == p)
  }

  ghost predicate RatedUp(cl: Cluster, p: string, cooldown: int) {
    && p in cl.pools && cl.pools[p].scaleUpCooldown == Some(cooldown)
    && Kept(StampsOf(cl.upStamps, p), cl.pools[p].lastScaleUp, cooldown, cl.clock, cl.up.Stamping? && cl.up.pool == p)
  }

  lemma StampKeeps(times: seq<int>, anchor: Option<int>, cooldown: int, now: int)
    requires Kept(times, anchor, cooldown, now, true)
    ensures Kept(times + [now], Some(now), cooldown, now, false)
  {}

  lemma StepRatedDown(cfg: Config, cl: Cluster, h: Happening, p: string, cooldown: int)
    requires RatedDown(cl, p, cooldown)
    ensures RatedDown(Step(cfg, cl, h), p, cooldown)
  {
    hide NextCells;
    StepKeepsPolicies(cfg, cl, h);
    if StampsDown(cl, h) && cl.down.pool == p {
      StampKeeps(StampsOf(cl.downStamps, p), cl.pools[p].lastScaleDown, cooldown, cl.clock);
    }
  }

  lemma StepRatedUp(cfg: Config, cl: Cluster, h: Happening, p: string, cooldown: int)
    requires RatedUp(cl, p, cooldown)
    ensures RatedUp(Step(cfg, cl, h), p, cooldown)
  {
    hide NextCells;
    StepKeepsPolicies(cfg, cl, h);
    if StampsUp(cl, h) && cl.up.pool == p {
      StampKeeps(StampsOf(cl.upStamps, p), cl.pools[p].lastScaleUp, cooldown, cl.clock);
    }
  }

  lemma {:induction false} RunRatedDown(cfg: Config, cl: Cluster, hs: seq<Happening>, p: string, cooldown: int)
    requires RatedDown(cl, p, cooldown)
    ensures RatedDown(ClusterRun(cfg, cl, hs), p, cooldown)
    decreases hs
  {
    hide Step, RatedDown;
    if hs == [] {
    } else {
      StepRatedDown(cfg, cl, hs[0], p, cooldown);
      var after := Step(cfg, cl, hs[0]);
      RunRatedDown(cfg, after, hs[1..], p, cooldown);
    }
  }

  lemma {:induction false} RunRatedUp(cfg: Config, cl: Cluster, hs: seq<Happening>, p: string, cooldown: int)
    requires RatedUp(cl, p, cooldown)
    ensures RatedUp(ClusterRun(cfg, cl, hs), p, cooldown)
    decreases hs
  {
    hide Step, RatedUp;
    if hs == [] {
    } else {
      StepRatedUp(cfg, cl, hs[0], p, cooldown);
      var after := Step(cfg, cl, hs[0]);
      RunRatedUp(cfg, after, hs[1..], p, cooldown);
    }
  }

  lemma {:induction false} SpacedApart(times: seq<int>, cooldown: int, i: nat, j: nat)
    requires Spaced(times, cooldown) && i <= j < |times|
    ensures times[j] - times[i] >= (j - i) * cooldown
    decreases j - i
  {
    if i == j {
    } else {
      SpacedApart(times, cooldown, i, j - 1);
      assert (j - i) * cooldown == (j - 1 - i) * cooldown + cooldown;
    }
  }

  lemma OneMore(k: int, q: int, cooldown: int)
    requires cooldown > 0 && k > q
    ensures k * cooldown >= q * cooldown + cooldown
  {
    assert k * cooldown == (q + 1) * cooldown + (k - q - 1) * cooldown;
  }

  lemma Quotient(k: nat, cooldown: int, length: int)
    requires cooldown > 0 && k * cooldown <= length
    ensures k <= length / cooldown
  {
    if k > length / cooldown {
      OneMore(k, length / cooldown, cooldown);
      assert false;
    }
  }

  /** In every run, from no stamp on record and with a constant scale-down cooldown: the k-th later
      scale-down trigger of a pool comes at least k cooldowns after the first, so a window of `length`
      seconds holds at most length / cooldown + 1 of them. */
  lemma {:induction false} ScaleDownsAreSpaced(cfg: Config, cl: Cluster, hs: seq<Happening>, p: string, cooldown: int)
    requires p in cl.pools && cl.pools[p].scaleDownCooldown == Some(cooldown) && StampsOf(cl.downStamps, p) == []
    ensures SpreadOut(StampsOf(ClusterRun(cfg, cl, hs).downStamps, p), cooldown)
  {
    hide Step;
    RunRatedDown(cfg, cl, hs, p, cooldown);
    SpacedSpreads(StampsOf(ClusterRun(cfg, cl, hs).downStamps, p), cooldown);
  }

  /** And likewise for wakes under a constant scale-up cooldown. */
  lemma {:induction false} WakesAreSpaced(cfg: Config, cl: Cluster, hs: seq<Happening>, p: string, cooldown: int)
    requires p in cl.pools && cl.pools[p].scaleUpCooldown == Some(cooldown) && StampsOf(cl.upStamps, p) == []
    ensures SpreadOut(StampsOf(ClusterRun(cfg, cl, hs).upStamps, p), cooldown)
  {
    hide Step;
    RunRatedUp(cfg, cl, hs, p, cooldown);
    SpacedSpreads(StampsOf(ClusterRun(cfg, cl, hs).upStamps, p), cooldown);
  }

  /** How many of the times fall into the window of `length` seconds from `start` on. */
  function InWindow(times: seq<int>, start: int, length: int): (count: nat)
    ensures count <= |times|
  {
    if times == [] then 0
    else
      var last := |times| - 1;
      InWindow(times[..last], start, length) + if start <= times[last] <= start + length then 1 else 0
  }

  /** Any two stamps are as many cooldowns apart as there are stamps between them, and a window holds
      only so many. */
  ghost predicate SpreadOut(times: seq<int>, cooldown: int) {
    && (forall i, j :: 0 <= i <= j < |times| ==> times[j] - times[i] >= (j - i) * cooldown)
    && (cooldown > 0 ==>
          forall start, length: nat :: InWindow(times, start, length) <= length / cooldown + 1)
  }

  lemma Later(first: int, second: int, gap: int, count: int, cooldown: int)
    requires cooldown > 0 && gap >= 1 && first >= (count - 1) * cooldown && second - first >= gap * cooldown
    ensures second >= count * cooldown
  {
    OneMore(gap, 0, cooldown);
    assert count * cooldown == (count - 1) * cooldown + cooldown;
  }

  /** The latest stamp in a window is as late as the number of stamps in it demands. */
  lemma {:induction false} LatestInWindow(times: seq<int>, cooldown: int, start: int, length: int) returns (j: nat)
    requires Spaced(times, cooldown) && cooldown > 0 && InWindow(times, start, length) > 0
    ensures j < |times| && start <= times[j] <= start + length
    ensures times[j] - start >= (InWindow(times, start, length) - 1) * cooldown
    decreases |times|
  {
    var last := |times| - 1;
    var before := InWindow(times[..last], start, length);
    var hit := start <= times[last] <= start + length;
    assert InWindow(times, start, length) == before + if hit then 1 else 0;
    if before == 0 {
      return last;
    }
    j := LatestInWindow(times[..last], cooldown, start, length);
    if hit {
      SpacedApart(times, cooldown, j, last);
      Later(times[j] - start, times[last] - start, last - j, before, cooldown);
      j := last;
    }
  }

  lemma SpacedSpreads(times: seq<int>, cooldown: int)
    requires Spaced(times, cooldown)
    ensures SpreadOut(times, cooldown)
  {
    forall i, j | 0 <= i <= j < |times|
      ensures times[j] - times[i] >= (j - i) * cooldown
    {
      SpacedApart(times, cooldown, i, j);
    }
    if cooldown > 0 {
      forall start, length: nat
        ensures InWindow(times, start, length) <= length / cooldown + 1
      {
        var count := InWindow(times, start, length);
        if count > 0 {
          var j := LatestInWindow(times, cooldown, start, length);
          Quotient(count - 1, cooldown, length);
        }
      }
    }
  }
}
