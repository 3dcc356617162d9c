/** What a wake leaves on the Node - the lifted cordon, the pool template and the Machine labels
    (machine_controller.go) - and the synthetic Node the fit simulation judges instead while the
    host is off (scaleup_controller.go, internal/scheduler/fit.go). */
module Template {
  import opened Api

  // ---------- cordon ----------

  /** uncordonIfONPCordoned: lifts a cordon only when it carries ONP's marker. */
  function Uncordon(n: Node): Node {
    if n.cordonedBy.Some? then n.(unschedulable := false, cordonedBy := None) else n
  }

  // ---------- taints ----------

  predicate SameTaint(a: Taint, b: Taint) {
    a.key == b.key && a.effect == b.effect
  }

  predicate IsLifecycle(t: Taint) {
    LIFECYCLE_PREFIX <= t.key
  }

  function MergeTaint(taints: seq<Taint>, t: Taint): seq<Taint> {
    if taints == [] then [t]
    else if SameTaint(taints[0], t) then [t] + taints[1..]
    else [taints[0]] + MergeTaint(taints[1..], t)
  }

  function MergeTaints(taints: seq<Taint>, more: seq<Taint>): seq<Taint>
    decreases more
  {
    if more == [] then taints else MergeTaints(MergeTaint(taints, more[0]), more[1..])
  }

  /** Some merge of the sequence changes the taints, be it undone by a later one or not. */
  predicate MergesTouch(taints: seq<Taint>, more: seq<Taint>)
    decreases more
  {
    more != [] &&
    var next := MergeTaint(taints, more[0]);
    next != taints || MergesTouch(next, more[1..])
  }

  function PersistentTaints(taints: seq<Taint>): (kept: seq<Taint>)
    ensures forall t :: t in kept <==> t in taints && !IsLifecycle(t)
  {
    if taints == [] then []
    else if IsLifecycle(taints[0]) then PersistentTaints(taints[1..])
    else [taints[0]] + PersistentTaints(taints[1..])
  }

  ghost predicate DistinctTaints(taints: seq<Taint>) {
    forall i, j :: 0 <= i < j < |taints| ==> taints[i].key != taints[j].key || taints[i].effect != taints[j].effect
  }

  lemma {:induction false} MergeTaintContents(taints: seq<Taint>, t: Taint)
    ensures var r := MergeTaint(taints, t);
            && t in r
            && |taints| <= |r| <= |taints| + 1
            && (forall i :: 0 <= i < |taints| && !SameTaint(taints[i], t) ==> r[i] == taints[i])
            && (forall x :: x in r ==> x == t || x in taints)
  {
    if taints == [] || SameTaint(taints[0], t) {
    } else {
      MergeTaintContents(taints[1..], t);
      var rest := MergeTaint(taints[1..], t);
      var r := MergeTaint(taints, t);
      assert r == [taints[0]] + rest;
      assert forall i :: 1 <= i < |taints| ==> taints[i] == taints[1..][i - 1] && r[i] == rest[i - 1];
    }
  }

  lemma {:induction false} MergeTaintDistinct(taints: seq<Taint>, t: Taint)
    requires DistinctTaints(taints)
    ensures DistinctTaints(MergeTaint(taints, t))
  {
    hide MergeTaint;
    if i :| 0 <= i < |taints| && SameTaint(taints[i], t) {
      MergeTaintAt(taints, t, i);
    } else {
      MergeTaintAt(taints, t, |taints|);
    }
  }

  /** A merge puts exactly `t` at its (key, effect), leaves every other entry where it was, and
      never makes the duplicate the API server would reject. */
  lemma {:induction false} MergeTaintMeaning(taints: seq<Taint>, t: Taint)
    ensures var r := MergeTaint(taints, t);
            && t in r
            && |taints| <= |r| <= |taints| + 1
            && (forall i :: 0 <= i < |taints| && (taints[i].key != t.key || taints[i].effect != t.effect) ==> r[i] == taints[i])
            && (forall x :: x in r ==> x == t || x in taints)
            && (DistinctTaints(taints) ==> DistinctTaints(r) && forall x :: x in r && x.key == t.key && x.effect == t.effect ==> x == t)
  {
    MergeTaintContents(taints, t);
    if DistinctTaints(taints) {
      MergeTaintDistinct(taints, t);
    }
  }

  /** The merge replaces the first entry of the same identity, or appends. */
  lemma {:induction false} MergeTaintAt(taints: seq<Taint>, t: Taint, i: nat)
    requires i <= |taints|
    requires forall j :: 0 <= j < i ==> !SameTaint(taints[j], t)
    requires i < |taints| ==> SameTaint(taints[i], t)
    ensures MergeTaint(taints, t) == if i < |taints| then taints[i := t] else taints + [t]
  {
    if i == 0 {
    } else {
      MergeTaintAt(taints[1..], t, i - 1);
      var rest := MergeTaint(taints[1..], t);
      assert taints == [taints[0]] + taints[1..];
      assert rest == if i < |taints| then taints[1..][i - 1 := t] else taints[1..] + [t];
      assert MergeTaint(taints, t) == [taints[0]] + rest;
    }
  }

  /** mergeTaint: the scan over the Node's taints. */
  method MergeTaintInto(taints: seq<Taint>, t: Taint) returns (merged: seq<Taint>, changed: bool)
    ensures merged == MergeTaint(taints, t)
    ensures changed <==> merged != taints
  {
    var i := 0;
    while i < |taints|
      invariant 0 <= i <= |taints|
      invariant forall j :: 0 <= j < i ==> !SameTaint(taints[j], t)
    {
      if taints[i].key != t.key || taints[i].effect != t.effect {
        i := i + 1;
        continue;
      }
      MergeTaintAt(taints, t, i);
      if taints[i].value == t.value {
        return taints, false;
      }
      merged := taints[i := taints[i].(value := t.value)];
      assert merged[i] != taints[i];
      return merged, true;
    }
    MergeTaintAt(taints, t, i);
    return taints + [t], true;
  }

  // ---------- labels ----------

  /** Template labels overlaid by the Machine's own, before the reserved key is dropped. */
  function Overlay(m: Machine, matched: seq<Pool>): map<string, string> {
    (if |matched| == 1 then matched[0].labels else map[]) + m.labels
  }

  function DesiredLabels(m: Machine, matched: seq<Pool>): map<string, string> {
    Overlay(m, matched) - {ALWAYS_ON}
  }

  function DesiredTaints(matched: seq<Pool>): seq<Taint> {
    if |matched| == 1 then matched[0].taints else []
  }

  /** Only a key whose reading differs is written, so an absent key is never set to "". */
  function LabelDiff(current: map<string, string>, desired: map<string, string>): map<string, string> {
    map k | k in desired && Lookup(current, k) != desired[k] :: desired[k]
  }

  function MergeLabels(current: map<string, string>, desired: map<string, string>): map<string, string> {
    current + LabelDiff(current, desired)
  }

  function ApplyTemplate(m: Machine, matched: seq<Pool>, n: Node): Node {
    n.(labels := MergeLabels(n.labels, DesiredLabels(m, matched)),
       taints := MergeTaints(n.taints, DesiredTaints(matched)))
  }

  /** One more key of the overlay. */
  lemma LabelDiffStep(current: map<string, string>, done: map<string, string>, k: string, v: string)
    requires k !in done
    ensures var diff := LabelDiff(current, done);
            && k !in diff
            && LabelDiff(current, done[k := v]) == if Lookup(current, k) != v then diff[k := v] else diff
  {}

  lemma MergeLabelsStep(current: map<string, string>, done: map<string, string>, k: string, v: string)
    requires k !in done
    ensures var labels := MergeLabels(current, done);
            && Lookup(labels, k) == Lookup(current, k)
            && MergeLabels(current, done[k := v]) == if Lookup(current, k) != v then labels[k := v] else labels
  {
    hide LabelDiff;
    LabelDiffStep(current, done, k, v);
  }

  /** A write is made exactly when there is something to change. */
  lemma DiffShows(current: map<string, string>, desired: map<string, string>)
    ensures LabelDiff(current, desired) == map[] <==> MergeLabels(current, desired) == current
  {
    var diff := LabelDiff(current, desired);
    if diff == map[] {
      assert current + map[] == current;
    } else {
      var k :| k in diff;
      assert Lookup(MergeLabels(current, desired), k) == diff[k] != Lookup(current, k);
    }
  }

  /** The label half of applyNodeTemplate: keys are visited in any map order. */
  method WriteLabels(current: map<string, string>, desired: map<string, string>)
    returns (labels: map<string, string>, changed: bool)
    ensures labels == MergeLabels(current, desired)
    ensures changed <==> labels != current
    ensures changed <==> LabelDiff(current, desired) != map[]
  {
    hide LabelDiff, MergeLabels;
    labels, changed := current, false;
    var todo := desired.Keys;
    ghost var done: map<string, string> := map[];
    NothingToWrite(current);
    while todo != {}
      invariant todo <= desired.Keys
      invariant done == desired - todo
      invariant labels == MergeLabels(current, done)
      invariant changed <==> LabelDiff(current, done) != map[]
      decreases todo
    {
      var k :| k in todo;
      LabelDiffStep(current, done, k, desired[k]);
      MergeLabelsStep(current, done, k, desired[k]);
      done := done[k := desired[k]];
      if Lookup(labels, k) != desired[k] {
        labels := labels[k := desired[k]];
        changed := true;
      }
      todo := todo - {k};
    }
    assert done == desired;
    DiffShows(current, desired);
  }

  lemma NothingToWrite(current: map<string, string>)
    ensures LabelDiff(current, map[]) == map[] && MergeLabels(current, map[]) == current
  {
    assert LabelDiff(current, map[]) == map[];
  }

  /** Merges that touch nothing leave the taints as they are. */
  lemma {:induction false} UntouchedTaints(taints: seq<Taint>, more: seq<Taint>)
    ensures !MergesTouch(taints, more) ==> MergeTaints(taints, more) == taints
    decreases more
  {
    if more == [] {
    } else {
      UntouchedTaints(MergeTaint(taints, more[0]), more[1..]);
    }
  }

  /** The taint half of applyNodeTemplate. */
  method WriteTaints(current: seq<Taint>, desired: seq<Taint>) returns (taints: seq<Taint>, changed: bool)
    ensures taints == MergeTaints(current, desired)
    ensures changed <==> MergesTouch(current, desired)
    ensures !changed ==> taints == current
  {
    taints, changed := current, false;
    var i := 0;
    while i < |desired|
      invariant 0 <= i <= |desired|
      invariant MergeTaints(current, desired) == MergeTaints(taints, desired[i..])
      invariant MergesTouch(current, desired) <==> changed || MergesTouch(taints, desired[i..])
      invariant !changed ==> taints == current
    {
      var merged;
      assert desired[i..][1..] == desired[i + 1..];
      taints, merged := MergeTaintInto(taints, desired[i]);
      changed := changed || merged;
      i := i + 1;
    }
  }

  /** Copying one map over another, in any map order. */
  method CopyLabels(into: map<string, string>, from: map<string, string>) returns (labels: map<string, string>)
    ensures labels == into + from
  {
    labels := into;
    var todo := from.Keys;
    while todo != {}
      invariant todo <= from.Keys
      invariant labels.Keys == into.Keys + (from.Keys - todo)
      invariant forall k :: k in labels ==> labels[k] == if k in from && k !in todo then from[k] else into[k]
      decreases todo
    {
      var k :| k in todo;
      labels := labels[k := from[k]];
      todo := todo - {k};
    }
  }

  /** The labels a Node should carry: the pool's, the Machine's over them, the reserved key dropped. */
  method CollectLabels(m: Machine, matched: seq<Pool>) returns (desired: map<string, string>)
    ensures desired == DesiredLabels(m, matched)
  {
    desired := map[];
    if |matched| == 1 {
      desired := CopyLabels(desired, matched[0].labels);
    }
    desired := CopyLabels(desired, m.labels);
    assert desired == Overlay(m, matched);
    if ALWAYS_ON in desired {
      desired := desired - {ALWAYS_ON};
    }
  }

  method CollectTaints(matched: seq<Pool>) returns (wanted: seq<Taint>)
    ensures wanted == DesiredTaints(matched)
  {
    wanted := [];
    if |matched| == 1 {
      wanted := matched[0].taints;
    }
  }

  /** applyNodeTemplate on the Node as read: `changed` tells whether a patch is sent, and a merge patch
      carries the labels that differ and, if it differs, the whole taint list. */
  method TemplateChange(node: Node, desired: map<string, string>, wanted: seq<Taint>)
    returns (labels: map<string, string>, taints: Option<seq<Taint>>, changed: bool)
    ensures changed <==> LabelDiff(node.labels, desired) != map[] || MergesTouch(node.taints, wanted)
    ensures labels == LabelDiff(node.labels, desired)
    ensures taints == var merged := MergeTaints(node.taints, wanted);
                      if merged == node.taints then None else Some(merged)
  {
    var written, relabelled := WriteLabels(node.labels, desired);
    var merged, retainted := WriteTaints(node.taints, wanted);
    labels := map k | k in written && (k !in node.labels || node.labels[k] != written[k]) :: written[k];
    taints := if merged == node.taints then None else Some(merged);
    changed := relabelled || retainted;
  }

  /** dropReservedLabels, whatever the template and the Machine ask for: applying a template never
      writes, changes or removes the always-on label of the Node. */
  lemma TemplateKeepsAlwaysOn(m: Machine, matched: seq<Pool>, n: Node)
    ensures var r := ApplyTemplate(m, matched, n);
            && (ALWAYS_ON in r.labels <==> ALWAYS_ON in n.labels)
            && Lookup(r.labels, ALWAYS_ON) == Lookup(n.labels, ALWAYS_ON)
  {
    assert ALWAYS_ON !in DesiredLabels(m, matched);
  }

  // ---------- the fit simulation ----------

  /** The Node a Machine is expected to present once Ready. */
  datatype Synthetic = Synthetic(
    name: string, labels: map<string, string>, taints: seq<Taint>, unschedulable: bool, allocatable: map<string, int>)

  /** nodeForMachine, over the given allocatable. */
  function NodeForMachine(m: Machine, pool: Pool, backing: Option<Node>, allocatable: map<string, int>): Synthetic {
    Synthetic(
      m.nodeName,
      map[HOSTNAME := m.nodeName] + (if backing.Some? then backing.value.labels else map[]) + pool.labels + m.labels,
      MergeTaints(if backing.Some? then PersistentTaints(backing.value.taints) else [], pool.taints),
      backing.Some? && backing.value.unschedulable && backing.value.cordonedBy.None?,
      allocatable)
  }

  /** persistentTaints: the filtering loop. */
  method KeepPersistent(taints: seq<Taint>) returns (kept: seq<Taint>)
    ensures kept == PersistentTaints(taints)
  {
    kept := [];
    var i := 0;
    while i < |taints|
      invariant 0 <= i <= |taints|
      invariant kept + PersistentTaints(taints[i..]) == PersistentTaints(taints)
    {
      assert taints[i..][0] == taints[i] && taints[i..][1..] == taints[i + 1..];
      if !IsLifecycle(taints[i]) {
        kept := kept + [taints[i]];
      }
      i := i + 1;
    }
  }

  /** nodeForMachine as it is built: the real Node first, then the template, then the Machine. */
  method BuildNode(m: Machine, pool: Pool, backing: Option<Node>, room: map<string, int>) returns (s: Synthetic)
    ensures s == NodeForMachine(m, pool, backing, room)
  {
    var labels: map<string, string> := map[HOSTNAME := m.nodeName];
    var taints: seq<Taint>, cordoned := [], false;
    if backing.Some? {
      labels := CopyLabels(labels, backing.value.labels);
      taints := KeepPersistent(backing.value.taints);
      cordoned := backing.value.unschedulable && backing.value.cordonedBy.None?;
    }
    labels := CopyLabels(labels, pool.labels);
    labels := CopyLabels(labels, m.labels);
    var merged, _ := WriteTaints(taints, pool.taints);
    return Synthetic(m.nodeName, labels, merged, cordoned, room);
  }

  /** The Kubernetes library calls the predicates rest on: required node affinity and volume
      affinities of a node's name and labels, and toleration of one taint. */
  datatype Library = Library(
    affinity: (Pod, string, map<string, string>) -> bool,
    tolerates: (Pod, Taint) -> bool)

  type VolumeAffinity = (string, map<string, string>) -> bool

  predicate IsHardTaint(t: Taint) {
    t.effect == "NoSchedule" || t.effect == "NoExecute"
  }

  const UNSCHEDULABLE_TAINT := Taint("node.kubernetes.io/unschedulable", "", "NoSchedule")

  /** Every predicate of Fit except the resource sums. */
  predicate FitsShape(lib: Library, volumes: seq<VolumeAffinity>, pod: Pod,
                            name: string, labels: map<string, string>, taints: seq<Taint>, unschedulable: bool)
  {
    && (unschedulable ==> lib.tolerates(pod, UNSCHEDULABLE_TAINT))
    && lib.affinity(pod, name, labels)
    && (forall t :: t in taints && IsHardTaint(t) ==> lib.tolerates(pod, t))
    && (forall i :: 0 <= i < |volumes| ==> volumes[i](name, labels))
  }

  // ---------- the checks as fit.go runs them ----------

  /** toleratesHardTaints: the first hard taint the pod does not tolerate. */
  method FindUntolerated(lib: Library, pod: Pod, taints: seq<Taint>) returns (found: Option<Taint>)
    ensures found.Some? ==> found.value in taints && found.value.effect in {"NoSchedule", "NoExecute"} && !lib.tolerates(pod, found.value)
    ensures found.None? ==> forall t :: t in taints && t.effect in {"NoSchedule", "NoExecute"} ==> lib.tolerates(pod, t)
  {
    var i := 0;
    while i < |taints|
      invariant 0 <= i <= |taints|
      invariant forall j :: 0 <= j < i && taints[j].effect in {"NoSchedule", "NoExecute"} ==> lib.tolerates(pod, taints[j])
    {
      if IsHardTaint(taints[i]) && !lib.tolerates(pod, taints[i]) {
        return Some(taints[i]);
      }
      i := i + 1;
    }
    return None;
  }

  /** VolumeNodeAffinity: every volume bound to the pod accepts the node. */
  method VolumesAccept(volumes: seq<VolumeAffinity>, name: string, labels: map<string, string>) returns (ok: bool)
    ensures ok <==> forall i :: 0 <= i < |volumes| ==> volumes[i](name, labels)
  {
    var i := 0;
    while i < |volumes|
      invariant 0 <= i <= |volumes|
      invariant forall j :: 0 <= j < i ==> volumes[j](name, labels)
    {
      if !volumes[i](name, labels) {
        return false;
      }
      i := i + 1;
    }
    return true;
  }

  /** Fit without the resource sums: the first failing predicate answers no. */
  method CheckShape(lib: Library, volumes: seq<VolumeAffinity>, pod: Pod, s: Synthetic) returns (ok: bool)
    ensures ok <==>
      && (s.unschedulable ==> lib.tolerates(pod, Taint("node.kubernetes.io/unschedulable", "", "NoSchedule")))
      && lib.affinity(pod, s.name, s.labels)
      && (forall t :: t in s.taints && t.effect in {"NoSchedule", "NoExecute"} ==> lib.tolerates(pod, t))
      && (forall i :: 0 <= i < |volumes| ==> volumes[i](s.name, s.labels))
    ensures ok <==> FitsShape(lib, volumes, pod, s.name, s.labels, s.taints, s.unschedulable)
  {
    if s.unschedulable && !lib.tolerates(pod, UNSCHEDULABLE_TAINT) {
      return false;
    }
    if !lib.affinity(pod, s.name, s.labels) {
      return false;
    }
    var untolerated := FindUntolerated(lib, pod, s.taints);
    if untolerated.Some? {
      return false;
    }
    ok := VolumesAccept(volumes, s.name, s.labels);
  }

  // ---------- what the merges leave ----------

  lemma {:induction false} MergesKeepOthers(taints: seq<Taint>, more: seq<Taint>, t: Taint)
    requires t in taints && forall x :: x in more ==> !SameTaint(x, t)
    ensures t in MergeTaints(taints, more)
    decreases more
  {
    if more == [] {
    } else {
      MergeTaintMeaning(taints, more[0]);
      var i :| 0 <= i < |taints| && taints[i] == t;
      var next := MergeTaint(taints, more[0]);
      assert more[0] in more && next[i] == t;
      MergesKeepOthers(next, more[1..], t);
    }
  }

  /** Every taint of a template without duplicates ends up on the Node. */
  lemma {:induction false} MergesBring(taints: seq<Taint>, more: seq<Taint>, t: Taint)
    requires DistinctTaints(more) && t in more
    ensures t in MergeTaints(taints, more)
    decreases more
  {
    if t == more[0] {
      MergeTaintMeaning(taints, t);
      assert forall i :: 0 <= i < |more[1..]| ==> more[1..][i] == more[i + 1];
      MergesKeepOthers(MergeTaint(taints, t), more[1..], t);
    } else {
      assert forall i, j :: 0 <= i < j < |more[1..]| ==> more[1..][i] == more[i + 1] && more[1..][j] == more[j + 1];
      MergesBring(MergeTaint(taints, more[0]), more[1..], t);
    }
  }

  lemma {:induction false} MergeNew(taints: seq<Taint>, t: Taint)
    requires forall i :: 0 <= i < |taints| ==> !SameTaint(taints[i], t)
    ensures MergeTaint(taints, t) == taints + [t]
  {
    MergeTaintAt(taints, t, |taints|);
  }

  lemma {:induction false} MergesOfDistinct(taints: seq<Taint>, more: seq<Taint>)
    requires DistinctTaints(taints + more)
    ensures MergeTaints(taints, more) == taints + more
    decreases more
  {
    if more == [] {
      assert taints + more == taints;
    } else {
      var all := taints + more;
      assert forall i :: 0 <= i < |taints| ==> all[i] == taints[i];
      assert all[|taints|] == more[0];
      MergeNew(taints, more[0]);
      assert (taints + [more[0]]) + more[1..] == all;
      MergesOfDistinct(taints + [more[0]], more[1..]);
    }
  }

  /** A Machine without a Node is simulated with its hostname, the template's labels and its own over
      them, and the template's taints, schedulable. */
  lemma SyntheticWithoutNode(m: Machine, pool: Pool, room: map<string, int>, k: string)
    ensures var s := NodeForMachine(m, pool, None, room);
            && s.name == m.nodeName && !s.unschedulable && s.allocatable == room
            && (k in s.labels <==> k == "kubernetes.io/hostname" || k in pool.labels || k in m.labels)
            && (k in s.labels ==> s.labels[k] == if k in m.labels then m.labels[k] else if k in pool.labels then pool.labels[k] else m.nodeName)
            && (DistinctTaints(pool.taints) ==> s.taints == pool.taints)
  {
    if DistinctTaints(pool.taints) {
      assert [] + pool.taints == pool.taints;
      MergesOfDistinct([], pool.taints);
    }
  }

  /** In no pool, or in several, a Machine brings its own labels to the Node and nothing else: no template
      label, no taint, and never the reserved key or an empty value. */
  lemma TemplateOfNoneOrSeveral(m: Machine, matched: seq<Pool>, n: Node, k: string)
    requires |matched| != 1
    ensures var w := ApplyTemplate(m, matched, n);
            && w == n.(labels := w.labels)
            && (k in w.labels <==> k in n.labels || (k in m.labels && k != "onp.io/always-on" && m.labels[k] != ""))
            && (k in w.labels ==> w.labels[k] == if k in m.labels && k != "onp.io/always-on" then m.labels[k] else n.labels[k])
  {
    assert Overlay(m, matched) == m.labels;
  }

  /** The Node as a completed wake leaves it: uncordoned if the cordon was ONP's, template applied. */
  function Woken(m: Machine, pool: Pool, n: Node): Node {
    ApplyTemplate(m, [pool], Uncordon(n))
  }

  /** What a caller can check on the three objects before the wake: each overlaid label either is
      written by the template application too or is on the Node already, and the Node has its
      hostname label. */
  predicate LabelsPredictable(m: Machine, pool: Pool, n: Node) {
    var overlay := pool.labels + m.labels;
    && ("kubernetes.io/hostname" in n.labels || "kubernetes.io/hostname" in overlay)
    && ("onp.io/always-on" in overlay ==> "onp.io/always-on" in n.labels && n.labels["onp.io/always-on"] == overlay["onp.io/always-on"])
    && (forall k :: k in overlay && overlay[k] == "" ==> k in n.labels)
  }

  /** Both label maps, key by key. */
  lemma SimulatedLabel(m: Machine, pool: Pool, n: Node, room: map<string, int>, k: string)
    ensures var overlay := pool.labels + m.labels;
            var s := NodeForMachine(m, pool, Some(n), room).labels;
            && (k in s <==> k == HOSTNAME || k in n.labels || k in overlay)
            && (k in s ==> s[k] == if k in overlay then overlay[k] else if k in n.labels then n.labels[k] else m.nodeName)
  {
    hide MergeTaints, PersistentTaints;
  }

  lemma WokenLabel(m: Machine, pool: Pool, n: Node, k: string)
    ensures var overlay := pool.labels + m.labels;
            var w := Woken(m, pool, n).labels;
            && (k in w <==> k in n.labels || (k in overlay && k != ALWAYS_ON && overlay[k] != ""))
            && (k in w ==> w[k] == if k in overlay && k != ALWAYS_ON then overlay[k] else n.labels[k])
  {
    hide MergeTaints;
    assert Overlay(m, [pool]) == pool.labels + m.labels;
  }

  lemma LabelReadings(m: Machine, pool: Pool, n: Node, room: map<string, int>, k: string)
    ensures var overlay := pool.labels + m.labels;
            var s := NodeForMachine(m, pool, Some(n), room).labels;
            var w := Woken(m, pool, n).labels;
            && (k in s <==> k == HOSTNAME || k in n.labels || k in overlay)
            && (k in s ==> s[k] == if k in overlay then overlay[k] else if k in n.labels then n.labels[k] else m.nodeName)
            && (k in w <==> k in n.labels || (k in overlay && k != ALWAYS_ON && overlay[k] != ""))
            && (k in w ==> w[k] == if k in overlay && k != ALWAYS_ON then overlay[k] else n.labels[k])
  {
    hide NodeForMachine, Woken;
    SimulatedLabel(m, pool, n, room, k);
    WokenLabel(m, pool, n, k);
  }

  /** The simulated labels are the labels of the woken Node exactly when LabelsPredictable. */
  lemma LabelsFaithful(m: Machine, pool: Pool, n: Node, room: map<string, int>)
    ensures NodeForMachine(m, pool, Some(n), room).labels == Woken(m, pool, n).labels
            <==> LabelsPredictable(m, pool, n)
  {
    var overlay := pool.labels + m.labels;
    var s := NodeForMachine(m, pool, Some(n), room).labels;
    var w := Woken(m, pool, n).labels;
    if LabelsPredictable(m, pool, n) {
      forall k
        ensures k in s <==> k in w
        ensures k in s ==> s[k] == w[k]
      {
        LabelReadings(m, pool, n, room, k);
      }
      assert s == w;
    }
    if s == w {
      LabelReadings(m, pool, n, room, HOSTNAME);
      LabelReadings(m, pool, n, room, ALWAYS_ON);
      forall k | k in overlay && overlay[k] == ""
        ensures k in n.labels
      {
        LabelReadings(m, pool, n, room, k);
      }
    }
  }

  /** The two inputs on which the prediction goes wrong: an empty label value, and the reserved key. */
  lemma LabelsCounterexamples(m: Machine, pool: Pool, n: Node, room: map<string, int>)
    requires pool.labels == map[] && n.labels == map[HOSTNAME := m.nodeName]
    requires m.labels == map["zone" := ""] || m.labels == map[ALWAYS_ON := TRIGGER]
    ensures NodeForMachine(m, pool, Some(n), room).labels != Woken(m, pool, n).labels
  {
    LabelsFaithful(m, pool, n, room);
    var overlay := pool.labels + m.labels;
    assert overlay == m.labels;
    if m.labels == map["zone" := ""] {
      assert "zone" in overlay && "zone" !in n.labels;
    } else {
      assert ALWAYS_ON in overlay;
    }
  }

  lemma {:induction false} PersistentOfMerge(taints: seq<Taint>, t: Taint)
    requires !IsLifecycle(t)
    ensures PersistentTaints(MergeTaint(taints, t)) == MergeTaint(PersistentTaints(taints), t)
  {
    if taints == [] {
    } else {
      var merged := MergeTaint(taints, t);
      if SameTaint(taints[0], t) {
        assert merged[1..] == taints[1..];
        assert PersistentTaints(taints)[1..] == PersistentTaints(taints[1..]);
      } else {
        PersistentOfMerge(taints[1..], t);
        assert merged[1..] == MergeTaint(taints[1..], t);
        if !IsLifecycle(taints[0]) {
          assert PersistentTaints(taints)[1..] == PersistentTaints(taints[1..]);
        }
      }
    }
  }

  lemma {:induction false} PersistentOfMerges(taints: seq<Taint>, more: seq<Taint>)
    requires forall t :: t in more ==> !IsLifecycle(t)
    ensures PersistentTaints(MergeTaints(taints, more)) == MergeTaints(PersistentTaints(taints), more)
    decreases more
  {
    if more == [] {
    } else {
      PersistentOfMerge(taints, more[0]);
      PersistentOfMerges(MergeTaint(taints, more[0]), more[1..]);
    }
  }

  /** A merged key stays on the Node through later merges. */
  lemma {:induction false} MergesKeepKeys(taints: seq<Taint>, more: seq<Taint>, key: string)
    requires (exists t :: t in taints && t.key == key) || (exists t :: t in more && t.key == key)
    ensures exists t :: t in MergeTaints(taints, more) && t.key == key
    decreases more
  {
    if more == [] {
    } else {
      MergeTaintMeaning(taints, more[0]);
      var next := MergeTaint(taints, more[0]);
      if exists t :: t in taints && t.key == key {
        var t :| t in taints && t.key == key;
        var i :| 0 <= i < |taints| && taints[i] == t;
        if SameTaint(t, more[0]) {
          assert more[0] in next && more[0].key == key;
        } else {
          assert next[i] == t && t in next;
        }
      } else {
        var t :| t in more && t.key == key;
        if t == more[0] {
          assert t in next;
        } else {
          assert t in more[1..];
        }
      }
      MergesKeepKeys(next, more[1..], key);
    }
  }

  /** The simulated taints are the woken Node's taints without the lifecycle ones exactly when the
      template itself asks for no lifecycle taint. */
  lemma TaintsFaithful(m: Machine, pool: Pool, n: Node, room: map<string, int>)
    ensures NodeForMachine(m, pool, Some(n), room).taints == PersistentTaints(Woken(m, pool, n).taints)
            <==> (forall t :: t in pool.taints ==> !("node.kubernetes.io/" <= t.key))
  {
    if forall t :: t in pool.taints ==> !IsLifecycle(t) {
      PersistentOfMerges(n.taints, pool.taints);
    } else {
      var t :| t in pool.taints && IsLifecycle(t);
      MergesKeepKeys(PersistentTaints(n.taints), pool.taints, t.key);
      var x :| x in NodeForMachine(m, pool, Some(n), room).taints && x.key == t.key;
      assert IsLifecycle(x);
      assert x !in PersistentTaints(Woken(m, pool, n).taints);
    }
  }

  /** The fit simulation is faithful: when the labels are predictable and the template asks for no
      lifecycle taint, every non-resource predicate answers for the simulated Node what it answers
      for the woken Node once the node controller has cleared the lifecycle taints. */
  lemma SimulationFaithful(m: Machine, pool: Pool, n: Node, room: map<string, int>,
                           lib: Library, volumes: seq<VolumeAffinity>, pod: Pod)
    requires LabelsPredictable(m, pool, n)
    requires forall t :: t in pool.taints ==> !IsLifecycle(t)
    ensures var s := NodeForMachine(m, pool, Some(n), room);
            var w := Woken(m, pool, n);
            && s.labels == w.labels && s.taints == PersistentTaints(w.taints) && s.unschedulable == w.unschedulable
            && (FitsShape(lib, volumes, pod, s.name, s.labels, s.taints, s.unschedulable) <==>
                FitsShape(lib, volumes, pod, m.nodeName, w.labels, PersistentTaints(w.taints), w.unschedulable))
  {
    LabelsFaithful(m, pool, n, room);
    TaintsFaithful(m, pool, n, room);
  }
}
