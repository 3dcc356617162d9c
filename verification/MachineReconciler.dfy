/** The reconcile pass as the controller runs it: straight-line code over the API server's objects,
    one method per function of internal/controller/machine_controller.go. Each method is proved to
    perform exactly the calls `Lifecycle` lists for it, whatever each call returns and wherever the
    controller crashes. */
module MachinePass {
  import opened Api
  import opened Template
  import opened Lifecycle
  import opened ShutdownAgent

  /** Another Machine claims the same Node. */
  ghost predicate ClaimedTwice(m: Machine, machines: seq<Machine>) {
    exists i :: 0 <= i < |machines| && Rivals(m, machines[i])
  }

  predicate Rivals(m: Machine, x: Machine) {
    m.nodeName != "" && x.nodeName == m.nodeName && x.name != m.name
  }

  /** otherMachinesOnNode: the names of the other Machines on the Node, in listing order. */
  method OtherMachinesOnNode(m: Machine, machines: seq<Machine>) returns (others: seq<string>)
    ensures others == [] <==> !ClaimedTwice(m, machines)
    ensures m.nodeName == "" ==> others == []
    ensures forall n :: n in others ==> exists i :: 0 <= i < |machines| && machines[i].nodeName == m.nodeName && machines[i].name == n != m.name
    ensures m.nodeName != "" ==> forall i :: 0 <= i < |machines| && machines[i].nodeName == m.nodeName && machines[i].name != m.name ==>
              machines[i].name in others
  {
    others := [];
    if m.nodeName == "" {
      return;
    }
    for k := 0 to |machines|
      invariant others != [] ==> ClaimedTwice(m, machines)
      invariant forall n :: n in others ==> exists i :: 0 <= i < k && machines[i].nodeName == m.nodeName && machines[i].name == n != m.name
      invariant forall i :: 0 <= i < k && machines[i].nodeName == m.nodeName && machines[i].name != m.name ==> machines[i].name in others
    {
      if machines[k].nodeName == m.nodeName && machines[k].name != m.name {
        assert Rivals(m, machines[k]);
        others := others + [machines[k].name];
      }
    }
  }

  class MachineReconciler {
    const cfg: Config

    // what the API server holds
    var machine: Machine
    ghost var past: seq<Machine>
    var node: Option<Node>
    var pods: map<string, Pod>
    var pools: seq<Pool>
    var clock: int
    ghost var log: seq<Effect>

    // the last pass's result, and the agent's part, which no pass touches
    var requeue: Requeue
    const agent: Memory
    const boot: int

    ghost function View(flight: Option<Flight>): Cell
      reads this
    {
      Cell(machine, past, node, pods, pools, clock, flight, requeue, agent, boot, log)
    }

    ghost function At(pc: Pc, m: Machine, ev: Evidence): Cell
      reads this
    {
      View(Some(Flight(pc, m, ev)))
    }

    // ---------- single API calls ----------

    /** Status().Update: refused when the stored version is not the copy's. */
    method UpdateStatus(m: Machine, o: Outcome) returns (copy: Machine, err: bool)
      modifies `machine, `past, `log
      ensures err <==> o != Done || old(machine.version) != m.version
      ensures err ==> copy == m && machine == old(machine) && past == old(past) && log == old(log)
      ensures !err ==> copy == machine == m.(version := old(machine.version) + 1)
                       && past == old(past) + [machine] && log == old(log) + [Moved(old(machine.state), m.state)]
    {
      if o != Done || machine.version != m.version {
        return m, true;
      }
      log := log + [Moved(machine.state, m.state)];
      machine := m.(version := machine.version + 1);
      past := past + [machine];
      return machine, false;
    }

    /** removeDrainAnnotation, as the call at a point that drops the trigger: sent only when the copy
        shows the key. */
    method RemoveDrainAnnotation(ghost pc: Pc, m: Machine, ghost cached: seq<Pod>, o: Outcome) returns (copy: Machine, err: bool)
      requires KindOf(pc) == DroppingDrain
      modifies `machine, `past, `requeue
      ensures var f := Flight(pc, m, NO_EVIDENCE);
              var d := Exec(cfg, old(View(Some(f))), o, cached);
              if err then d == View(None) else d == Goes(View(Some(f)), AfterDrop(pc, copy), copy, NO_EVIDENCE)
    {
      hide Exec, AfterDrop;
      DropDrainStep(cfg, At(pc, m, NO_EVIDENCE), o, cached);
      if m.drainNow.None? {
        return m, false;
      }
      if o != Done {
        requeue := Backoff;
        return m, true;
      }
      if machine.drainNow.Some? {
        machine := machine.(drainNow := None, version := machine.version + 1);
        past := past + [machine];
      }
      return machine, false;
    }

    method RemoveWakeAnnotation(ghost pc: Pc, m: Machine, ghost cached: seq<Pod>, o: Outcome) returns (copy: Machine, err: bool)
      requires KindOf(pc) == DroppingWake
      modifies `machine, `past, `requeue
      ensures var f := Flight(pc, m, NO_EVIDENCE);
              var d := Exec(cfg, old(View(Some(f))), o, cached);
              if err then d == View(None) else d == Goes(View(Some(f)), AfterDrop(pc, copy), copy, NO_EVIDENCE)
    {
      hide Exec, AfterDrop;
      DropWakeStep(cfg, At(pc, m, NO_EVIDENCE), o, cached);
      if m.wakeNow.None? {
        return m, false;
      }
      if o != Done {
        requeue := Backoff;
        return m, true;
      }
      if machine.wakeNow.Some? {
        machine := machine.(wakeNow := None, version := machine.version + 1);
        past := past + [machine];
      }
      return machine, false;
    }

    /** stampNotReadySince and clearNotReadySince: a merge patch of one status field. */
    method PatchNotReadySince(since: Option<int>, o: Outcome) returns (err: bool)
      modifies `machine, `past
      ensures err <==> o != Done
      ensures err ==> machine == old(machine) && past == old(past)
      ensures !err ==> machine == old(machine).(notReadySince := since, version := old(machine.version) + 1)
                       && past == old(past) + [machine]
    {
      if o != Done {
        return true;
      }
      machine := machine.(notReadySince := since, version := machine.version + 1);
      past := past + [machine];
      return false;
    }

    /** Status().Update of the edited copy, as the call at a save point; entering ShuttingDown opens
        the episode the agent acts on. */
    method Save(pc: Pc, m: Machine, edited: Machine, ghost next: Pc, ghost ev: Evidence, ghost cached: seq<Pod>, o: Outcome)
      returns (copy: Machine, err: bool)
      requires KindOf(pc) == Saving
      requires edited == Edited(pc, m, clock) && edited.version == m.version
      requires AfterSave(cfg, pc, edited, clock) == next
      modifies `machine, `past, `log, `requeue
      ensures err ==> View(None) == Exec(cfg, old(At(pc, m, ev)), o, cached)
      ensures !err && !next.Return? ==> At(next, copy, ev) == Exec(cfg, old(At(pc, m, ev)), o, cached)
      ensures !err && next.Return? ==> View(None).(requeue := next.requeue) == Exec(cfg, old(At(pc, m, ev)), o, cached)
    {
      hide Exec, Edited, KindOf, AfterSave;
      SaveStep(cfg, At(pc, m, ev), o, cached);
      AfterSaveOfVersion(cfg, pc, edited, clock, machine.version + 1);
      copy, err := UpdateStatus(edited, o);
      if err {
        requeue := Backoff;
      } else if pc == SaveShuttingDown {
        log := log + [Opened(clock, ev)];
      }
    }

    method SaveAndReturn(pc: Pc, m: Machine, edited: Machine, result: Requeue, ghost ev: Evidence, cached: seq<Pod>, script: seq<Outcome>)
      requires KindOf(pc) == Saving
      requires edited == Edited(pc, m, clock) && edited.version == m.version
      requires AfterSave(cfg, pc, edited, clock) == Return(result)
      modifies this
      ensures View(None) == Drive(cfg, old(At(pc, m, ev)), cached, script)
    {
      hide Exec;
      if script == [] {
        return;
      }
      var copy, err := Save(pc, m, edited, Return(result), ev, cached, script[0]);
      if !err {
        requeue := result;
      }
    }

    // ---------- the wake path ----------

    method Initialize(m: Machine, cached: seq<Pod>, script: seq<Outcome>)
      modifies this
      ensures View(None) == Drive(cfg, old(At(SaveOff, m, NO_EVIDENCE)), cached, script)
    {
      SaveAndReturn(SaveOff, m, m.(state := Off), Immediately, NO_EVIDENCE, cached, script);
    }

    method ReconcileOff(m: Machine, cached: seq<Pod>, script: seq<Outcome>)
      modifies this
      ensures View(None) == Drive(cfg, old(At(OffTidy, m, NO_EVIDENCE)), cached, script)
    {
      hide Exec;
      if script == [] {
        return;
      }
      var copy, err := RemoveDrainAnnotation(OffTidy, m, cached, script[0]);
      if err {
        return;
      }
      AdoptOrWake(copy, cached, script[1..]);
    }

    /** The rest of reconcileOff: adopt a running Node, or power the host on when asked to. */
    method AdoptOrWake(m: Machine, cached: seq<Pod>, script: seq<Outcome>)
      modifies this
      ensures View(None) == Drive(cfg, old(At(OffReadNode, m, NO_EVIDENCE)), cached, script)
    {
      hide Exec;
      if script == [] {
        return;
      }
      ghost var c := At(OffReadNode, m, NO_EVIDENCE);
      ReadStep(cfg, c, script[0], cached);
      if script[0] != Done {
        requeue := Backoff;
        assert View(None) == Exec(cfg, c, script[0], cached);
        return;
      }
      if NodeReady(if machine.nodeName == "" then None else node) {
        assert At(UncordonRead(Waking), m, NO_EVIDENCE) == Exec(cfg, c, script[0], cached);
        PromoteToReady(m, cached, script[1..]);
        return;
      }
      if !WakeRequested(m) || m.provider !in cfg.providers || !cfg.providers[m.provider] {
        requeue := Nothing;
        assert View(None) == Exec(cfg, c, script[0], cached);
        return;
      }
      assert At(OffPowerOn, m, NO_EVIDENCE) == Exec(cfg, c, script[0], cached);
      PowerOn(m, cached, script[1..]);
    }

    /** Only an accepted power-on moves the Machine to Booting. */
    method PowerOn(m: Machine, cached: seq<Pod>, script: seq<Outcome>)
      modifies this
      ensures View(None) == Drive(cfg, old(At(OffPowerOn, m, NO_EVIDENCE)), cached, script)
    {
      hide Exec;
      if script == [] {
        return;
      }
      ghost var c := At(OffPowerOn, m, NO_EVIDENCE);
      PowerStep(cfg, c, script[0], cached);
      if script[0] != Done {
        assert At(OffSavePowerFailed, m, NO_EVIDENCE) == Exec(cfg, c, script[0], cached);
        var failed := m.(powerOnSucceeded := SetCondition(m.powerOnSucceeded, false, clock));
        SaveAndReturn(OffSavePowerFailed, m, failed, Backoff, NO_EVIDENCE, cached, script[1..]);
        return;
      }
      log := log + [PoweredOn];
      assert At(OffSaveBooting, m, NO_EVIDENCE) == Exec(cfg, c, script[0], cached);
      var booting := m.(state := Booting, bootStart := Some(clock), powerOnSucceeded := SetCondition(m.powerOnSucceeded, true, clock));
      SaveAndReturn(OffSaveBooting, m, booting, After(PollWithin(booting.bootStart, cfg.bootTimeout, BOOT_POLL, clock)),
                    NO_EVIDENCE, cached, script[1..]);
    }

    method ReconcileBooting(m: Machine, cached: seq<Pod>, script: seq<Outcome>)
      modifies this
      ensures View(None) == Drive(cfg, old(At(BootTidy, m, NO_EVIDENCE)), cached, script)
    {
      hide Exec;
      if script == [] {
        return;
      }
      var copy, err := RemoveDrainAnnotation(BootTidy, m, cached, script[0]);
      if err {
        return;
      }
      AwaitNode(copy, cached, script[1..]);
    }

    /** The rest of reconcileBooting: promote, fail on timeout, or resend the power-on and poll. */
    method AwaitNode(m: Machine, cached: seq<Pod>, script: seq<Outcome>)
      modifies this
      ensures View(None) == Drive(cfg, old(At(BootReadNode, m, NO_EVIDENCE)), cached, script)
    {
      hide Exec;
      if script == [] {
        return;
      }
      ghost var c := At(BootReadNode, m, NO_EVIDENCE);
      ReadStep(cfg, c, script[0], cached);
      if script[0] != Done {
        requeue := Backoff;
        assert View(None) == Exec(cfg, c, script[0], cached);
        return;
      }
      if NodeReady(if machine.nodeName == "" then None else node) {
        assert At(UncordonRead(Waking), m, NO_EVIDENCE) == Exec(cfg, c, script[0], cached);
        PromoteToReady(m, cached, script[1..]);
        return;
      }
      if BootTimedOut(cfg, m, clock) {
        assert At(SaveBootFailed, m, NO_EVIDENCE) == Exec(cfg, c, script[0], cached);
        FailBoot(m, cached, script[1..]);
        return;
      }
      assert At(BootResend, m, NO_EVIDENCE) == Exec(cfg, c, script[0], cached);
      ResendPowerOn(m, cached, script[1..]);
    }

    method ResendPowerOn(m: Machine, cached: seq<Pod>, script: seq<Outcome>)
      modifies this
      ensures View(None) == Drive(cfg, old(At(BootResend, m, NO_EVIDENCE)), cached, script)
    {
      hide Exec;
      if script == [] {
        return;
      }
      ghost var c := At(BootResend, m, NO_EVIDENCE);
      PowerStep(cfg, c, script[0], cached);
      if m.bootStart.Some? && clock - m.bootStart.value >= BOOT_POLL && CanPowerOn(cfg, m) && script[0] == Done {
        log := log + [PoweredOn];
      }
      requeue := After(PollWithin(m.bootStart, cfg.bootTimeout, BOOT_POLL, clock));
      assert View(None) == Exec(cfg, c, script[0], cached);
    }

    /** uncordonIfONPCordoned, which opens promoteToReady, abortDrain and the end of a drain that timed
        out: one read looks for the marker. `ended` tells that the pass is over, `rest` is what is left
        of the script otherwise. */
    method UncordonIfONPCordoned(why: Why, ghost m: Machine, ghost ev: Evidence, ghost cached: seq<Pod>, script: seq<Outcome>)
      returns (ended: bool, rest: seq<Outcome>)
      modifies `node, `requeue
      ensures var goal := Drive(cfg, old(At(UncordonRead(why), m, ev)), cached, script);
              goal == if ended then View(None) else Drive(cfg, At(AfterUncordon(why), m, ev), cached, rest)
    {
      hide Exec, AfterUncordon;
      if script == [] {
        return true, [];
      }
      ReadStep(cfg, At(UncordonRead(why), m, ev), script[0], cached);
      if script[0] != Done {
        requeue := Backoff;
        return true, [];
      }
      var backing := if machine.nodeName == "" then None else node;
      if backing.None? || backing.value.cordonedBy.None? {
        UncordonGoesOn(why);
        assert At(AfterUncordon(why), m, ev) == Exec(cfg, At(UncordonRead(why), m, ev), script[0], cached);
        return false, script[1..];
      }
      ended, rest := SetCordonFalse(why, m, ev, cached, script[1..]);
    }

    /** setCordon(false): a second read, which decides what the patch carries. */
    method SetCordonFalse(why: Why, ghost m: Machine, ghost ev: Evidence, ghost cached: seq<Pod>, script: seq<Outcome>)
      returns (ended: bool, rest: seq<Outcome>)
      modifies `node, `requeue
      ensures var goal := Drive(cfg, old(At(UncordonReread(why), m, ev)), cached, script);
              goal == if ended then View(None) else Drive(cfg, At(AfterUncordon(why), m, ev), cached, rest)
    {
      hide Exec, AfterUncordon;
      if script == [] {
        return true, [];
      }
      ReadStep(cfg, At(UncordonReread(why), m, ev), script[0], cached);
      if script[0] != Done {
        requeue := Backoff;
        return true, [];
      }
      var backing := if machine.nodeName == "" then None else node;
      if backing.None? || (!backing.value.unschedulable && backing.value.cordonedBy.None?) {
        UncordonGoesOn(why);
        assert At(AfterUncordon(why), m, ev) == Exec(cfg, At(UncordonReread(why), m, ev), script[0], cached);
        return false, script[1..];
      }
      ended, rest := SendUncordon(why, backing.value.unschedulable, backing.value.cordonedBy.Some?, m, ev, cached, script[1..]);
    }

    method SendUncordon(why: Why, lift: bool, unmark: bool, ghost m: Machine, ghost ev: Evidence, ghost cached: seq<Pod>, script: seq<Outcome>)
      returns (ended: bool, rest: seq<Outcome>)
      modifies `node, `requeue
      ensures var goal := Drive(cfg, old(At(UncordonPatch(why, lift, unmark), m, ev)), cached, script);
              goal == if ended then View(None) else Drive(cfg, At(AfterUncordon(why), m, ev), cached, rest)
    {
      hide Exec, AfterUncordon;
      if script == [] {
        return true, [];
      }
      ghost var c := At(UncordonPatch(why, lift, unmark), m, ev);
      NodePatchStep(cfg, c, script[0], cached);
      if script[0] != Done || machine.nodeName == "" || node.None? {
        requeue := Backoff;
        return true, [];
      }
      var patched := node.value;
      if lift {
        patched := patched.(unschedulable := false);
      }
      if unmark {
        patched := patched.(cordonedBy := None);
      }
      node := Some(patched);
      UncordonGoesOn(why);
      assert At(AfterUncordon(why), m, ev) == Exec(cfg, c, script[0], cached);
      return false, script[1..];
    }

    method PromoteToReady(m: Machine, cached: seq<Pod>, script: seq<Outcome>)
      modifies this
      ensures View(None) == Drive(cfg, old(At(UncordonRead(Waking), m, NO_EVIDENCE)), cached, script)
    {
      hide Exec;
      var ended, rest := UncordonIfONPCordoned(Waking, m, NO_EVIDENCE, cached, script);
      if ended {
        return;
      }
      ApplyNodeTemplate(m, cached, rest);
    }

    /** applyNodeTemplate: list the pools and collect what the Node should carry. */
    method ApplyNodeTemplate(m: Machine, cached: seq<Pod>, script: seq<Outcome>)
      modifies this
      ensures View(None) == Drive(cfg, old(At(TemplatePools, m, NO_EVIDENCE)), cached, script)
    {
      hide Exec, Matching, DesiredLabels, DesiredTaints, AfterTemplate;
      if script == [] {
        return;
      }
      ghost var c := At(TemplatePools, m, NO_EVIDENCE);
      TemplateStep(cfg, c, script[0], cached);
      TemplateGoesOn(m);
      if m.nodeName == "" {
        assert At(AfterTemplate(m), m, NO_EVIDENCE) == Exec(cfg, c, script[0], cached);
        CheckDrift(m, cached, script[1..]);
        return;
      }
      if script[0] != Done {
        FailTemplate(TemplatePools, m, cached, script);
        return;
      }
      var matched := Matching(pools, m.name);
      var desired := CollectLabels(m, matched);
      var wanted := CollectTaints(matched);
      if desired == map[] && wanted == [] {
        assert At(AfterTemplate(m), m, NO_EVIDENCE) == Exec(cfg, c, script[0], cached);
        CheckDrift(m, cached, script[1..]);
        return;
      }
      assert At(TemplateRead(desired, wanted), m, NO_EVIDENCE) == Exec(cfg, c, script[0], cached);
      StampTemplate(desired, wanted, m, cached, script[1..]);
    }

    /** Read the Node and work out the patch on the copy. */
    method StampTemplate(desired: map<string, string>, wanted: seq<Taint>, m: Machine, cached: seq<Pod>, script: seq<Outcome>)
      modifies this
      ensures View(None) == Drive(cfg, old(At(TemplateRead(desired, wanted), m, NO_EVIDENCE)), cached, script)
    {
      hide Exec, LabelDiff, MergeTaints, MergesTouch, AfterTemplate;
      if script == [] {
        return;
      }
      ghost var c := At(TemplateRead(desired, wanted), m, NO_EVIDENCE);
      TemplateStep(cfg, c, script[0], cached);
      TemplateGoesOn(m);
      if script[0] != Done {
        FailTemplate(TemplateRead(desired, wanted), m, cached, script);
        return;
      }
      var backing := if machine.nodeName == "" then None else node;
      if backing.None? {
        assert At(AfterTemplate(m), m, NO_EVIDENCE) == Exec(cfg, c, script[0], cached);
        CheckDrift(m, cached, script[1..]);
        return;
      }
      var labels, taints, changed := TemplateChange(backing.value, desired, wanted);
      if !changed {
        assert At(AfterTemplate(m), m, NO_EVIDENCE) == Exec(cfg, c, script[0], cached);
        CheckDrift(m, cached, script[1..]);
        return;
      }
      assert At(TemplatePatch(labels, taints), m, NO_EVIDENCE) == Exec(cfg, c, script[0], cached);
      SendTemplate(labels, taints, m, cached, script[1..]);
    }

    method SendTemplate(labels: map<string, string>, taints: Option<seq<Taint>>, m: Machine, cached: seq<Pod>, script: seq<Outcome>)
      modifies this
      ensures View(None) == Drive(cfg, old(At(TemplatePatch(labels, taints), m, NO_EVIDENCE)), cached, script)
    {
      hide Exec, AfterTemplate;
      if script == [] {
        return;
      }
      ghost var c := At(TemplatePatch(labels, taints), m, NO_EVIDENCE);
      TemplateStep(cfg, c, script[0], cached);
      TemplateGoesOn(m);
      if script[0] != Done || machine.nodeName == "" || node.None? {
        FailTemplate(TemplatePatch(labels, taints), m, cached, script);
        return;
      }
      var patched := node.value.(labels := node.value.labels + labels);
      if taints.Some? {
        patched := patched.(taints := taints.value);
      }
      node := Some(patched);
      assert At(AfterTemplate(m), m, NO_EVIDENCE) == Exec(cfg, c, script[0], cached);
      CheckDrift(m, cached, script[1..]);
    }

    /** A rejected template fails the Machine, any other error only once the boot budget is used up. */
    method FailTemplate(ghost pc: Pc, m: Machine, cached: seq<Pod>, script: seq<Outcome>)
      requires KindOf(pc) == Templating && script != [] && !(pc.TemplatePools? && m.nodeName == "")
      requires script[0] != Done || (pc.TemplatePatch? && (machine.nodeName == "" || node.None?))
      modifies this
      ensures View(None) == Drive(cfg, old(At(pc, m, NO_EVIDENCE)), cached, script)
    {
      hide Exec;
      ghost var c := At(pc, m, NO_EVIDENCE);
      TemplateStep(cfg, c, script[0], cached);
      if script[0] == Invalid || BootTimedOut(cfg, m, clock) {
        assert At(SaveBootFailed, m, NO_EVIDENCE) == Exec(cfg, c, script[0], cached);
        FailBoot(m, cached, script[1..]);
        return;
      }
      requeue := Backoff;
      assert View(None) == Exec(cfg, c, script[0], cached);
    }

    /** capacityDrift reads the Node once more, unless no capacity is declared. */
    method CheckDrift(m: Machine, cached: seq<Pod>, script: seq<Outcome>)
      modifies this
      ensures View(None) == Drive(cfg, old(At(AfterTemplate(m), m, NO_EVIDENCE)), cached, script)
    {
      hide Exec;
      if m.capacity == map[] || m.nodeName == "" {
        EnterService(m, cached, script);
        return;
      }
      if script == [] {
        return;
      }
      ReadStep(cfg, At(DriftRead, m, NO_EVIDENCE), script[0], cached);
      if script[0] != Done {
        requeue := Backoff;
        return;
      }
      EnterService(m, cached, script[1..]);
    }

    /** The end of promoteToReady: save Ready, then clear the one-shot wake trigger. */
    method EnterService(m: Machine, cached: seq<Pod>, script: seq<Outcome>)
      modifies this
      ensures View(None) == Drive(cfg, old(At(SaveReady, m, NO_EVIDENCE)), cached, script)
    {
      hide Exec;
      if script == [] {
        return;
      }
      var copy, err := Save(SaveReady, m, ToReady(m, clock), ClearWake, NO_EVIDENCE, cached, script[0]);
      if err {
        return;
      }
      FinishWake(copy, cached, script[1..]);
    }

    method FailBoot(m: Machine, cached: seq<Pod>, script: seq<Outcome>)
      modifies this
      ensures View(None) == Drive(cfg, old(At(SaveBootFailed, m, NO_EVIDENCE)), cached, script)
    {
      hide Exec;
      if script == [] {
        return;
      }
      var copy, err := Save(SaveBootFailed, m, ToBootFailed(m, clock), ClearWake, NO_EVIDENCE, cached, script[0]);
      if err {
        return;
      }
      FinishWake(copy, cached, script[1..]);
    }

    method FinishWake(m: Machine, cached: seq<Pod>, script: seq<Outcome>)
      modifies this
      ensures View(None) == Drive(cfg, old(At(ClearWake, m, NO_EVIDENCE)), cached, script)
    {
      hide Exec;
      if script == [] {
        return;
      }
      var copy, err := RemoveWakeAnnotation(ClearWake, m, cached, script[0]);
      if !err {
        requeue := Nothing;
      }
    }

    // ---------- in service ----------

    method ReconcileReady(m: Machine, cached: seq<Pod>, script: seq<Outcome>)
      modifies this
      ensures View(None) == Drive(cfg, old(At(ReadyTidy, m, NO_EVIDENCE)), cached, script)
    {
      hide Exec;
      if script == [] {
        return;
      }
      var copy, err := RemoveWakeAnnotation(ReadyTidy, m, cached, script[0]);
      if err {
        return;
      }
      if DrainRequested(copy) {
        StartDraining(copy, cached, script[1..]);
      } else {
        WatchNode(copy, cached, script[1..]);
      }
    }

    /** The rest of reconcileReady: node loss, or tidying up a Node in service. */
    method WatchNode(m: Machine, cached: seq<Pod>, script: seq<Outcome>)
      modifies this
      ensures View(None) == Drive(cfg, old(At(ReadyReadNode, m, NO_EVIDENCE)), cached, script)
    {
      hide Exec;
      if script == [] {
        return;
      }
      ghost var c := At(ReadyReadNode, m, NO_EVIDENCE);
      ReadStep(cfg, c, script[0], cached);
      if script[0] != Done {
        requeue := Backoff;
        assert View(None) == Exec(cfg, c, script[0], cached);
        return;
      }
      if NodeReady(if machine.nodeName == "" then None else node) {
        assert At(MarkerRead, m, NO_EVIDENCE) == Exec(cfg, c, script[0], cached);
        TidyNode(m, cached, script[1..]);
        return;
      }
      ReconcileReadyNodeLost(m, cached, script);
    }

    /** The read of an unready Node, continued: stamp the loss, wait out the grace, or give the Node up. */
    method ReconcileReadyNodeLost(m: Machine, cached: seq<Pod>, script: seq<Outcome>)
      requires script != [] && script[0] == Done && !NodeReady(if machine.nodeName == "" then None else node)
      modifies this
      ensures View(None) == Drive(cfg, old(At(ReadyReadNode, m, NO_EVIDENCE)), cached, script)
    {
      hide Exec;
      ghost var c := At(ReadyReadNode, m, NO_EVIDENCE);
      ReadStep(cfg, c, script[0], cached);
      if m.notReadySince.None? {
        assert At(StampLoss, m, NO_EVIDENCE) == Exec(cfg, c, script[0], cached);
        PatchLossAndReturn(StampLoss, m, Some(clock), After(cfg.lossGrace), cached, script[1..]);
        return;
      }
      var elapsed := clock - m.notReadySince.value;
      if elapsed < cfg.lossGrace {
        var wait := cfg.lossGrace - elapsed;
        if wait < 1 {
          wait := 1;
        }
        requeue := After(wait);
        assert View(None) == Exec(cfg, c, script[0], cached);
        return;
      }
      assert At(SaveLost, m, NO_EVIDENCE) == Exec(cfg, c, script[0], cached);
      GiveUpNode(m, cached, script[1..]);
    }

    method GiveUpNode(m: Machine, cached: seq<Pod>, script: seq<Outcome>)
      modifies this
      ensures View(None) == Drive(cfg, old(At(SaveLost, m, NO_EVIDENCE)), cached, script)
    {
      SaveAndReturn(SaveLost, m, ToLost(m, clock), Nothing, NO_EVIDENCE, cached, script);
    }

    method PatchLossAndReturn(pc: Pc, m: Machine, since: Option<int>, result: Requeue, cached: seq<Pod>, script: seq<Outcome>)
      requires (pc == StampLoss && since == Some(clock) && result == After(cfg.lossGrace))
               || (pc == ClearLoss && since == None && result == Nothing)
      modifies this
      ensures View(None) == Drive(cfg, old(At(pc, m, NO_EVIDENCE)), cached, script)
    {
      hide Exec;
      if script == [] {
        return;
      }
      ghost var c := At(pc, m, NO_EVIDENCE);
      PatchLossStep(cfg, c, script[0], cached);
      var err := PatchNotReadySince(since, script[0]);
      requeue := if err then Backoff else result;
      assert View(None) == Exec(cfg, c, script[0], cached);
    }

    /** dropStaleCordonMarker, then the loss anchor. */
    method TidyNode(m: Machine, cached: seq<Pod>, script: seq<Outcome>)
      modifies this
      ensures View(None) == Drive(cfg, old(At(MarkerRead, m, NO_EVIDENCE)), cached, script)
    {
      hide Exec, AfterMarker;
      if script == [] {
        return;
      }
      ghost var c := At(MarkerRead, m, NO_EVIDENCE);
      ReadStep(cfg, c, script[0], cached);
      if script[0] != Done {
        requeue := Backoff;
        assert View(None) == Exec(cfg, c, script[0], cached);
        return;
      }
      var backing := if machine.nodeName == "" then None else node;
      if backing.Some? && !backing.value.unschedulable && backing.value.cordonedBy.Some? {
        assert At(MarkerPatch, m, NO_EVIDENCE) == Exec(cfg, c, script[0], cached);
        DropMarker(m, cached, script[1..]);
        return;
      }
      ForgetLoss(m, c, cached, script);
    }

    method DropMarker(m: Machine, cached: seq<Pod>, script: seq<Outcome>)
      modifies this
      ensures View(None) == Drive(cfg, old(At(MarkerPatch, m, NO_EVIDENCE)), cached, script)
    {
      hide Exec, AfterMarker;
      if script == [] {
        return;
      }
      ghost var c := At(MarkerPatch, m, NO_EVIDENCE);
      NodePatchStep(cfg, c, script[0], cached);
      if script[0] != Done || machine.nodeName == "" || node.None? {
        requeue := Backoff;
        assert View(None) == Exec(cfg, c, script[0], cached);
        return;
      }
      node := Some(node.value.(cordonedBy := None));
      ForgetLoss(m, c, cached, script);
    }

    /** The end of reconcileReady: the Node recovered, so a loss anchor is stale. `c` is the pass before
        its last call. */
    method ForgetLoss(m: Machine, ghost c: Cell, cached: seq<Pod>, script: seq<Outcome>)
      requires script != [] && c.flight.Some?
      requires Exec(cfg, c, script[0], cached) == Goes(View(None), AfterMarker(m), m, NO_EVIDENCE)
      modifies this
      ensures View(None) == Drive(cfg, c, cached, script)
    {
      hide Exec;
      if m.notReadySince.Some? {
        assert At(ClearLoss, m, NO_EVIDENCE) == Exec(cfg, c, script[0], cached);
        PatchLossAndReturn(ClearLoss, m, None, Nothing, cached, script[1..]);
        return;
      }
      requeue := Nothing;
      assert View(None) == Exec(cfg, c, script[0], cached);
    }

    /** The single gate into the power-off path: an always-on Node is refused here. */
    method StartDraining(m: Machine, cached: seq<Pod>, script: seq<Outcome>)
      modifies this
      ensures View(None) == Drive(cfg, old(At(DrainGate, m, NO_EVIDENCE)), cached, script)
    {
      hide Exec;
      if script == [] {
        return;
      }
      ghost var c := At(DrainGate, m, NO_EVIDENCE);
      ReadStep(cfg, c, script[0], cached);
      if script[0] != Done {
        requeue := Backoff;
        assert View(None) == Exec(cfg, c, script[0], cached);
        return;
      }
      if AlwaysOn(if machine.nodeName == "" then None else node) {
        assert At(ClearDrain(false), m, NO_EVIDENCE) == Exec(cfg, c, script[0], cached);
        FinishTrigger(m, false, cached, script[1..]);
        return;
      }
      assert At(SaveDraining, m, NO_EVIDENCE) == Exec(cfg, c, script[0], cached);
      EnterDraining(m, cached, script[1..]);
    }

    method EnterDraining(m: Machine, cached: seq<Pod>, script: seq<Outcome>)
      modifies this
      ensures View(None) == Drive(cfg, old(At(SaveDraining, m, NO_EVIDENCE)), cached, script)
    {
      hide Exec, KindOf, AfterSave, Edited, ToDraining;
      DrainingSave(cfg, m, clock);
      if script == [] {
        return;
      }
      var copy, err := Save(SaveDraining, m, ToDraining(m, clock), ClearDrain(true), NO_EVIDENCE, cached, script[0]);
      if err {
        return;
      }
      FinishTrigger(copy, true, cached, script[1..]);
    }

    method FinishTrigger(m: Machine, started: bool, cached: seq<Pod>, script: seq<Outcome>)
      modifies this
      ensures View(None) == Drive(cfg, old(At(ClearDrain(started), m, NO_EVIDENCE)), cached, script)
    {
      hide Exec;
      if script == [] {
        return;
      }
      var copy, err := RemoveDrainAnnotation(ClearDrain(started), m, cached, script[0]);
      if !err {
        requeue := if started then Immediately else Nothing;
      }
    }

    // ---------- draining ----------

    method ReconcileDraining(m: Machine, cached: seq<Pod>, script: seq<Outcome>)
      modifies this
      ensures View(None) == Drive(cfg, old(At(DrainTidy, m, NO_EVIDENCE)), cached, script)
    {
      hide Exec;
      if script == [] {
        return;
      }
      var copy, err := RemoveDrainAnnotation(DrainTidy, m, cached, script[0]);
      if err {
        return;
      }
      CheckAlwaysOn(copy, cached, script[1..]);
    }

    method CheckAlwaysOn(m: Machine, cached: seq<Pod>, script: seq<Outcome>)
      modifies this
      ensures View(None) == Drive(cfg, old(At(DrainReadNode, m, NO_EVIDENCE)), cached, script)
    {
      hide Exec;
      if script == [] {
        return;
      }
      ghost var c := At(DrainReadNode, m, NO_EVIDENCE);
      ReadStep(cfg, c, script[0], cached);
      if script[0] != Done {
        requeue := Backoff;
        assert View(None) == Exec(cfg, c, script[0], cached);
        return;
      }
      var backing := if machine.nodeName == "" then None else node;
      ghost var ev := NO_EVIDENCE.(gate := Some(backing));
      if AlwaysOn(backing) {
        assert At(UncordonRead(Aborting), m, ev) == Exec(cfg, c, script[0], cached);
        AbortDrain(m, ev, cached, script[1..]);
        return;
      }
      assert At(DrainReadPools, m, ev) == Exec(cfg, c, script[0], cached);
      CheckBudget(m, ev, cached, script[1..]);
    }

    /** abortDrain: the Node turned out to be always-on. */
    method AbortDrain(m: Machine, ghost ev: Evidence, cached: seq<Pod>, script: seq<Outcome>)
      modifies this
      ensures View(None) == Drive(cfg, old(At(UncordonRead(Aborting), m, ev)), cached, script)
    {
      hide Exec;
      var ended, rest := UncordonIfONPCordoned(Aborting, m, ev, cached, script);
      if ended {
        return;
      }
      ReturnToService(m, ev, cached, rest);
    }

    method ReturnToService(m: Machine, ghost ev: Evidence, cached: seq<Pod>, script: seq<Outcome>)
      modifies this
      ensures View(None) == Drive(cfg, old(At(SaveAborted, m, ev)), cached, script)
    {
      SaveAndReturn(SaveAborted, m, m.(state := Ready, drainStart := None), Nothing, ev, cached, script);
    }

    /** The drain ran out of its budget: stop, and hand the Node back uncordoned. */
    method FailDrain(m: Machine, ghost ev: Evidence, cached: seq<Pod>, script: seq<Outcome>)
      modifies this
      ensures View(None) == Drive(cfg, old(At(UncordonRead(TimingOut), m, ev)), cached, script)
    {
      hide Exec;
      var ended, rest := UncordonIfONPCordoned(TimingOut, m, ev, cached, script);
      if ended {
        return;
      }
      FailDrained(m, ev, cached, rest);
    }

    method FailDrained(m: Machine, ghost ev: Evidence, cached: seq<Pod>, script: seq<Outcome>)
      modifies this
      ensures View(None) == Drive(cfg, old(At(SaveDrainFailed, m, ev)), cached, script)
    {
      SaveAndReturn(SaveDrainFailed, m, m.(state := Failed), Nothing, ev, cached, script);
    }

    method ResolvePolicy(matched: seq<Pool>) returns (timeout: int, force: bool)
      ensures DrainPolicy(timeout, force) == PolicyOf(matched)
    {
      timeout, force := DEFAULT_DRAIN_TIMEOUT, false;
      if |matched| > 1 {
        timeout := ConservativeDrainTimeout(matched);
      } else if |matched| == 1 {
        timeout, force := Budget(matched[0]), matched[0].force;
      }
    }

    /** drainPolicy: the budget of the matching pools, resolved before any pod is touched. */
    method CheckBudget(m: Machine, ghost ev: Evidence, cached: seq<Pod>, script: seq<Outcome>)
      modifies this
      ensures View(None) == Drive(cfg, old(At(DrainReadPools, m, ev)), cached, script)
    {
      hide Exec, PolicyOf, Matching, DrainTimedOut, AfterUncordonRead, AfterMarkerRead, AfterReadyRead, AfterWakeRead, AfterDownRead;
      if script == [] {
        return;
      }
      ghost var c := At(DrainReadPools, m, ev);
      ReadStep(cfg, c, script[0], cached);
      if script[0] != Done {
        requeue := Backoff;
        assert View(None) == Exec(cfg, c, script[0], cached);
        return;
      }
      var timeout, force := ResolvePolicy(Matching(pools, machine.name));
      if DrainTimedOut(m, timeout, clock) {
        assert At(UncordonRead(TimingOut), m, ev) == Exec(cfg, c, script[0], cached);
        FailDrain(m, ev, cached, script[1..]);
        return;
      }
      assert At(CordonRead(force), m, ev) == Exec(cfg, c, script[0], cached);
      CordonFirst(m, force, ev, cached, script[1..]);
    }

    /** setCordon(true): a Node already cordoned is left as it is, by whomever. */
    method CordonFirst(m: Machine, force: bool, ghost ev: Evidence, cached: seq<Pod>, script: seq<Outcome>)
      modifies this
      ensures View(None) == Drive(cfg, old(At(CordonRead(force), m, ev)), cached, script)
    {
      hide Exec;
      if script == [] {
        return;
      }
      ghost var c := At(CordonRead(force), m, ev);
      ReadStep(cfg, c, script[0], cached);
      if script[0] != Done {
        requeue := Backoff;
        assert View(None) == Exec(cfg, c, script[0], cached);
        return;
      }
      var backing := if machine.nodeName == "" then None else node;
      ghost var seen := ev.(cordon := Some(backing));
      if backing.Some? && !backing.value.unschedulable {
        var mark := backing.value.cordonedBy != Some(TRIGGER);
        assert At(CordonPatch(mark), m, seen) == Exec(cfg, c, script[0], cached);
        PlaceCordon(mark, m, seen, cached, script[1..]);
        return;
      }
      assert At(DrainListCached(force), m, seen) == Exec(cfg, c, script[0], cached);
      EmptyOrEvict(m, force, seen, cached, script[1..]);
    }

    /** A cordon just placed gives the scheduler one poll to see it. The patch carries the marker only
        if the Node was read without it. */
    method PlaceCordon(mark: bool, m: Machine, ghost ev: Evidence, cached: seq<Pod>, script: seq<Outcome>)
      modifies this
      ensures View(None) == Drive(cfg, old(At(CordonPatch(mark), m, ev)), cached, script)
    {
      hide Exec;
      if script == [] {
        return;
      }
      ghost var c := At(CordonPatch(mark), m, ev);
      NodePatchStep(cfg, c, script[0], cached);
      if script[0] != Done || machine.nodeName == "" || node.None? {
        requeue := Backoff;
        assert View(None) == Exec(cfg, c, script[0], cached);
        return;
      }
      var patched := node.value.(unschedulable := true);
      if mark {
        patched := patched.(cordonedBy := Some(TRIGGER));
      }
      node := Some(patched);
      log := log + [Cordoned];
      requeue := After(DRAIN_POLL);
      assert View(None) == Exec(cfg, c, script[0], cached);
    }

    method EmptyOrEvict(m: Machine, force: bool, ghost ev: Evidence, cached: seq<Pod>, script: seq<Outcome>)
      modifies this
      ensures View(None) == Drive(cfg, old(At(DrainListCached(force), m, ev)), cached, script)
    {
      hide Exec;
      if script == [] {
        return;
      }
      ghost var c := At(DrainListCached(force), m, ev);
      ReadStep(cfg, c, script[0], cached);
      if script[0] != Done {
        requeue := Backoff;
        assert View(None) == Exec(cfg, c, script[0], cached);
        return;
      }
      var listed := if m.nodeName == "" then [] else cached;
      if NoneKeeps(listed) {
        assert At(DrainListFresh, m, ev) == Exec(cfg, c, script[0], cached);
        ConfirmEmpty(m, ev, cached, script[1..]);
        return;
      }
      assert At(DrainEvict(Evictable(listed, force)), m, ev) == Exec(cfg, c, script[0], cached);
      EvictAll(Evictable(listed, force), m, ev, cached, script[1..]);
    }

    /** The irreversible step: the uncached list must be empty too. */
    method ConfirmEmpty(m: Machine, ghost ev: Evidence, cached: seq<Pod>, script: seq<Outcome>)
      modifies this
      ensures View(None) == Drive(cfg, old(At(DrainListFresh, m, ev)), cached, script)
    {
      hide Exec;
      if script == [] {
        return;
      }
      ghost var c := At(DrainListFresh, m, ev);
      ReadStep(cfg, c, script[0], cached);
      if script[0] != Done {
        requeue := Backoff;
        assert View(None) == Exec(cfg, c, script[0], cached);
        return;
      }
      if exists n :: n in pods && KeepsNodeOn(pods[n]) {
        requeue := After(DRAIN_POLL);
        assert View(None) == Exec(cfg, c, script[0], cached);
        return;
      }
      assert At(SaveShuttingDown, m, ev.(pods := Some(pods))) == Exec(cfg, c, script[0], cached);
      EnterShuttingDown(m, ev.(pods := Some(pods)), cached, script[1..]);
    }

    method EnterShuttingDown(m: Machine, ghost ev: Evidence, cached: seq<Pod>, script: seq<Outcome>)
      modifies this
      ensures View(None) == Drive(cfg, old(At(SaveShuttingDown, m, ev)), cached, script)
    {
      SaveAndReturn(SaveShuttingDown, m, m.(state := ShuttingDown, shutdownStart := Some(clock)), Nothing, ev, cached, script);
    }

    /** The eviction loop: a pod its disruption budget blocks is left for the next poll. */
    method EvictAll(names: seq<string>, m: Machine, ghost ev: Evidence, cached: seq<Pod>, script: seq<Outcome>)
      modifies this
      ensures View(None) == Drive(cfg, old(At(DrainEvict(names), m, ev)), cached, script)
    {
      hide Exec;
      ghost var goal := Drive(cfg, At(DrainEvict(names), m, ev), cached, script);
      var i := 0;
      assert names[0..] == names && script[0..] == script;
      while i < |names|
        invariant 0 <= i <= |names| && i <= |script|
        invariant goal == Drive(cfg, At(DrainEvict(names[i..]), m, ev), cached, script[i..])
      {
        if i == |script| {
          return;
        }
        assert script[i..][0] == script[i] && script[i..][1..] == script[i + 1..];
        assert names[i..][1..] == names[i + 1..];
        var err := Evict(names[i], names[i..], m, ev, cached, script[i]);
        if err {
          return;
        }
        i := i + 1;
      }
      if i < |script| {
        assert names[i..] == [] && script[i..][0] == script[i];
        EvictStep(cfg, At(DrainEvict([]), m, ev), script[i], cached);
        requeue := After(DRAIN_POLL);
      }
    }

    /** One eviction: an accepted one leaves the pod terminating on the node. */
    method Evict(name: string, ghost todo: seq<string>, ghost m: Machine, ghost ev: Evidence, ghost cached: seq<Pod>, o: Outcome)
      returns (err: bool)
      requires todo != [] && todo[0] == name
      modifies `pods, `log, `requeue
      ensures var d := Exec(cfg, old(At(DrainEvict(todo), m, ev)), o, cached);
              if err then d == View(None) else d == At(DrainEvict(todo[1..]), m, ev)
    {
      hide Exec;
      EvictStep(cfg, At(DrainEvict(todo), m, ev), o, cached);
      if o == TooMany {
        return false;
      }
      if o != Done {
        requeue := Backoff;
        return true;
      }
      log := log + [Evicted(name)];
      if name in pods {
        pods := pods[name := pods[name].(deleting := true)];
      }
      return false;
    }

    // ---------- powering off ----------

    method ReconcileShuttingDown(m: Machine, cached: seq<Pod>, script: seq<Outcome>)
      modifies this
      ensures View(None) == Drive(cfg, old(At(ReadDown, m, NO_EVIDENCE)), cached, script)
    {
      hide Exec;
      if script == [] {
        return;
      }
      ghost var c := At(ReadDown, m, NO_EVIDENCE);
      ReadStep(cfg, c, script[0], cached);
      if script[0] != Done {
        requeue := Backoff;
        assert View(None) == Exec(cfg, c, script[0], cached);
        return;
      }
      if !WentDownSince(if machine.nodeName == "" then None else node, m.shutdownStart) {
        if ShutdownTimedOut(cfg, m, clock) {
          assert At(SaveShutdownFailed, m, NO_EVIDENCE) == Exec(cfg, c, script[0], cached);
          FailShutdown(m, cached, script[1..]);
          return;
        }
        requeue := After(PollWithin(m.shutdownStart, cfg.shutdownTimeout, SHUTDOWN_POLL, clock));
        assert View(None) == Exec(cfg, c, script[0], cached);
        return;
      }
      assert At(SavePoweredOff, m, NO_EVIDENCE) == Exec(cfg, c, script[0], cached);
      ConfirmOff(m, cached, script[1..]);
    }

    method FailShutdown(m: Machine, cached: seq<Pod>, script: seq<Outcome>)
      modifies this
      ensures View(None) == Drive(cfg, old(At(SaveShutdownFailed, m, NO_EVIDENCE)), cached, script)
    {
      SaveAndReturn(SaveShutdownFailed, m, ToShutdownFailed(m, clock), Nothing, NO_EVIDENCE, cached, script);
    }

    method ConfirmOff(m: Machine, cached: seq<Pod>, script: seq<Outcome>)
      modifies this
      ensures View(None) == Drive(cfg, old(At(SavePoweredOff, m, NO_EVIDENCE)), cached, script)
    {
      SaveAndReturn(SavePoweredOff, m, ToPoweredOff(m, clock), Nothing, NO_EVIDENCE, cached, script);
    }

    // ---------- the pass ----------

    /** One reconcile of the Machine. `machines` are all Machines, `cached` what the pod cache lists,
        `script` what each call returns; the controller crashes where the script ends. The pass is
        exactly the run of calls `Drive` describes. */
    method Reconcile(machines: seq<Machine>, cached: seq<Pod>, script: seq<Outcome>)
      modifies this
      ensures View(None) == Drive(cfg, Start(old(View(None)), ClaimedTwice(old(machine), machines)), cached, script)
    {
      hide Exec;
      var others := OtherMachinesOnNode(machine, machines);
      if others != [] {
        requeue := After(DUPLICATE_RECHECK);
        return;
      }
      var m := machine;
      match m.state {
        case Unset => Initialize(m, cached, script);
        case Off => ReconcileOff(m, cached, script);
        case Booting => ReconcileBooting(m, cached, script);
        case Ready => ReconcileReady(m, cached, script);
        case Draining => ReconcileDraining(m, cached, script);
        case ShuttingDown => ReconcileShuttingDown(m, cached, script);
        case Failed => requeue := Nothing;
      }
    }
  }
}
