/**
 * A finalizer that comes back: reconcileNormal may put the evacuation finalizer on an evacuated host again, and
 * once such a host is being deleted no controller takes it off.
 */
module Wedge {
  import opened Base
  import opened Inventory
  import opened State
  import opened Protocol
  import opened Evacuation
  import opened Release
  import Allocation
  import Frames
  import Gates
  import Hmc
  import HmcSession
  import HostMachines
  import HostTags
  import ProviderIds
  import Provision
  import Vec

  // ----- when it comes back -----

  lemma NormalReturns(w: World, uid: string, c: HostMachines.NormalCalls)
    requires uid in w.hosts && Text(w.hosts[uid].parent) == "" && !w.hosts[uid].evacuationFinalizer && c.alloc.lxdHost
    ensures HostMachines.NormalStep(w, uid, c).hosts
         == if !c.alloc.closeOk then w.hosts
            else if w.hosts[uid].machineFinalizer then w.hosts[uid := w.hosts[uid].(evacuationFinalizer := true)]
            else w.hosts[uid := w.hosts[uid].(machineFinalizer := true)]
  {
    hide HostMachines.DeployedNow, Allocation.ReconcileResult;
  }

  lemma NormalReturnsExactly(s: Sys, a: Action, t: Sys, e: Event, uid: string)
    requires Leads(s, a, t, e) && a.HostNormal? && Known(s) && LacksFinalizer(s, uid)
    ensures HasFinalizer(t, uid) <==> a.uid == uid && s.w.hosts[uid].machineFinalizer && a.normal.alloc.closeOk
  {
    hide HostMachines.NormalStep;
    if a.uid == uid {
      NormalReturns(s.w, uid, a.normal);
    } else {
      NormalHost(s.w, a.uid, a.normal);
    }
  }

  lemma HmcReturnsNothing(s: Sys, a: Action, t: Sys, e: Event, uid: string)
    requires Leads(s, a, t, e) && a.HmcReconcile? && LacksFinalizer(s, uid)
    ensures !HasFinalizer(t, uid)
  {
    hide Permitted, Hmc.Step, ReadEmpty, HostTags.Ensure;
    HmcPassesGate(s.w, a.uid, a.hmc);
  }

  lemma DeleteReturnsNothing(s: Sys, a: Action, t: Sys, e: Event, uid: string)
    requires Leads(s, a, t, e) && a.HostDelete? && LacksFinalizer(s, uid)
    ensures !HasFinalizer(t, uid)
  {
    hide HostMachines.DeleteStep, ProviderIds.InstanceId;
    DeleteHosts(s.w, a.uid, a.delete);
  }

  lemma CreationReturnsNothing(s: Sys, a: Action, t: Sys, e: Event, uid: string)
    requires Leads(s, a, t, e) && a.HostCreated? && Known(s) && LacksFinalizer(s, uid)
    ensures !HasFinalizer(t, uid)
  {
  }

  lemma OthersReturnNothing(s: Sys, a: Action, t: Sys, e: Event, uid: string)
    requires Leads(s, a, t, e) && (a.HostMachineMarked? || a.HostMarked? || a.HostGone? || a.OperatorEdits?)
    requires LacksFinalizer(s, uid)
    ensures !HasFinalizer(t, uid)
  {
    hide HmcSession.Load, Permitted;
  }

  /**
   * A host without its evacuation finalizer has it back after a step exactly when that step is a reconcileNormal
   * of the host that reaches the finalizer check and whose closing patch goes through. The annotation that the
   * host was evacuated makes no difference.
   */
  lemma FinalizerReturnsExactly(s: Sys, a: Action, t: Sys, e: Event, uid: string)
    requires Leads(s, a, t, e) && Known(s) && LacksFinalizer(s, uid)
    ensures HasFinalizer(t, uid) <==>
      a.HostNormal? && a.uid == uid && s.w.hosts[uid].machineFinalizer && a.normal.alloc.closeOk
  {
    hide Leads, Known;
    if a.HostNormal? {
      NormalReturnsExactly(s, a, t, e, uid);
    } else if a.HmcReconcile? {
      HmcReturnsNothing(s, a, t, e, uid);
    } else if a.HostDelete? {
      DeleteReturnsNothing(s, a, t, e, uid);
    } else if a.HmcConfigMap? || !Frames.HostSide(a) {
      SameHosts(s, a, t, e);
    } else if a.HostCreated? {
      CreationReturnsNothing(s, a, t, e, uid);
    } else {
      OthersReturnNothing(s, a, t, e, uid);
    }
  }

  // ----- what happens then -----

  /** Evacuated before, with its finalizer back: HMC skips it, and the delete path waits for HMC. */
  predicate Wedged(s: Sys, uid: string) {
    && uid in s.w.hosts && s.w.hosts[uid].evacuationFinalizer && s.w.hosts[uid].deleting
    && s.w.hosts[uid].completed != "" && Text(s.w.hosts[uid].systemID) != ""
  }

  lemma HmcKeepsWedged(s: Sys, a: Action, t: Sys, e: Event, uid: string)
    requires Leads(s, a, t, e) && a.HmcReconcile? && Wedged(s, uid)
    ensures Wedged(t, uid)
  {
    hide Permitted, Hmc.Step, ReadEmpty, HostTags.Ensure;
    HmcPassesGate(s.w, a.uid, a.hmc);
    if a.uid == uid {
      HmcSkipsCompleted(s.w, uid, a.hmc);
    }
  }

  lemma HmcSkipsCompleted(w: World, uid: string, c: Hmc.Calls)
    requires uid in w.hosts && w.hosts[uid].completed != ""
    ensures Hmc.Step(w, uid, c) == (w, Hmc.Quiet)
  {
  }

  lemma DeleteKeepsWedged(s: Sys, a: Action, t: Sys, e: Event, uid: string)
    requires Leads(s, a, t, e) && a.HostDelete? && Wedged(s, uid)
    ensures Wedged(t, uid)
  {
    hide HostMachines.DeleteStep, ProviderIds.InstanceId;
    DeleteHosts(s.w, a.uid, a.delete);
    if a.uid == uid {
      DeleteWaits(s.w, uid, a.delete);
    }
  }

  lemma DeleteWaits(w: World, uid: string, c: HostMachines.DeleteCalls)
    requires uid in w.hosts && w.hosts[uid].evacuationFinalizer && Text(w.hosts[uid].systemID) != ""
    ensures HostMachines.DeleteStep(w, uid, c) == (w, HostMachines.Quiet)
  {
    hide ProviderIds.InstanceId;
  }

  lemma NormalKeepsWedged(s: Sys, a: Action, t: Sys, e: Event, uid: string)
    requires Leads(s, a, t, e) && a.HostNormal? && Wedged(s, uid)
    ensures Wedged(t, uid)
  {
    hide HostMachines.NormalStep;
    NormalHost(s.w, a.uid, a.normal);
  }

  lemma CreatedOrGoneKeepsWedged(s: Sys, a: Action, t: Sys, e: Event, uid: string)
    requires Leads(s, a, t, e) && (a.HostCreated? || a.HostGone?)
    requires s.w.hosts.Keys <= s.h.hostUids && Wedged(s, uid)
    ensures Wedged(t, uid)
  {
  }

  lemma OthersKeepWedged(s: Sys, a: Action, t: Sys, e: Event, uid: string)
    requires Leads(s, a, t, e) && (a.HostMachineMarked? || a.HostMarked? || a.OperatorEdits?) && Wedged(s, uid)
    ensures Wedged(t, uid)
  {
    hide HmcSession.Load, Permitted;
  }

  lemma StepKeepsWedged(s: Sys, a: Action, t: Sys, e: Event, uid: string)
    requires Leads(s, a, t, e) && Known(s) && Wedged(s, uid)
    ensures Wedged(t, uid)
  {
    hide Leads;
    if a.HmcReconcile? {
      HmcKeepsWedged(s, a, t, e, uid);
    } else if a.HostNormal? {
      NormalKeepsWedged(s, a, t, e, uid);
    } else if a.HostDelete? {
      DeleteKeepsWedged(s, a, t, e, uid);
    } else if a.HmcConfigMap? || !Frames.HostSide(a) {
      SameHosts(s, a, t, e);
    } else if a.HostCreated? || a.HostGone? {
      CreatedOrGoneKeepsWedged(s, a, t, e, uid);
    } else {
      OthersKeepWedged(s, a, t, e, uid);
    }
  }

  /**
   * A host whose finalizer came back after its evacuation was completed, and that is then deleted, is never
   * released: no step of any controller gets it out of that state.
   */
  lemma {:induction false} WedgedForever(r: Run, i: nat, j: nat, uid: string)
    requires IsRun(r) && i <= j < |r.states| && Wedged(r.states[i], uid)
    ensures Wedged(r.states[j], uid)
    ensures forall k, id :: i <= k < j ==> r.events[k] != FromHosts(HostMachines.ReleaseCalled(uid, id))
  {
    hide Leads, Wedged, Known, Initial;
    if i < j {
      WedgedForever(r, i, j - 1, uid);
      Always(r, j - 1);
      StepKeepsWedged(r.states[j - 1], r.actions[j - 1], r.states[j], r.events[j - 1], uid);
      WedgedIsNotReleased(r.states[j - 1], r.actions[j - 1], r.states[j], r.events[j - 1], uid);
    }
  }

  lemma WedgedIsNotReleased(s: Sys, a: Action, t: Sys, e: Event, uid: string)
    requires Leads(s, a, t, e) && Wedged(s, uid)
    ensures forall id :: e != FromHosts(HostMachines.ReleaseCalled(uid, id))
  {
    hide Permitted, HostMachines.DeleteStep, HostMachines.NormalStep, Hmc.Step, Hmc.ConfigMapStep, Vec.Step,
      Provision.Step, ProviderIds.InstanceId;
    if a.HostDelete? {
      DeleteHosts(s.w, a.uid, a.delete);
    }
  }

  // ----- and otherwise -----

  /** HMC's list calls in this step, if any, leave no machine out. */
  predicate CompleteReads(s: Sys, a: Action) {
    a.HmcReconcile? ==> Complete(s.w.nodes, a.hmc.first) && Complete(s.w.nodes, a.hmc.second)
  }

  /** A step that takes the evacuation finalizer off the host. */
  ghost predicate Drops(s: Sys, a: Action, t: Sys, e: Event, uid: string) {
    Leads(s, a, t, e) && CompleteReads(s, a) && HasFinalizer(s, uid) && LacksFinalizer(t, uid)
  }

  ghost predicate CanBeDropped(s: Sys, uid: string) { exists a, t, e :: Drops(s, a, t, e, uid) }

  /** What is left to do for a host with a system ID: its owner is being deleted, it is known to MAAS and empty. */
  ghost predicate ReadyToGo(s: Sys, uid: string)
    requires uid in s.w.hosts
  {
    var h := s.w.hosts[uid];
    Text(h.systemID) != "" ==>
      h.machineDeleting && Text(h.systemID) in s.w.nodes && NoGuests(s.w.nodes, Text(h.systemID))
  }

  lemma DropMeansReady(s: Sys, a: Action, t: Sys, e: Event, uid: string)
    requires Drops(s, a, t, e, uid) && Known(s)
    ensures !Wedged(s, uid) && ReadyToGo(s, uid)
  {
    hide Leads, NoGuests, Complete;
    EveryHostStep(s, a, t, e, uid);
    if Text(s.w.hosts[uid].systemID) != "" {
      HmcDropMeansReady(s, a, t, e, uid);
    }
  }

  lemma HmcDropMeansReady(s: Sys, a: Action, t: Sys, e: Event, uid: string)
    requires Leads(s, a, t, e) && CompleteReads(s, a) && a.HmcReconcile? && uid in s.w.hosts
    requires s.w.hosts[uid].systemID.Some? && e == FromHmc(Hmc.Evacuated(uid, s.w.hosts[uid].systemID.value))
    ensures s.w.hosts[uid].completed == "" && ReadyToGo(s, uid)
  {
    hide Permitted, Hmc.Step, NoGuests, Complete;
    EvacuatedAwaited(s.w, a.uid, a.hmc);
    CompleteReadMeansEmpty(s.w, a.uid, a.hmc);
  }

  lemma ListAll(ids: set<string>) returns (all: seq<string>)
    ensures forall id :: id in ids ==> id in all
  {
    all := [];
    var rest := ids;
    while rest != {}
      invariant rest <= ids && forall id :: id in ids ==> id in all || id in rest
      decreases |rest|
    {
      var id :| id in rest;
      all := all + [id];
      rest := rest - {id};
    }
  }

  /** A reconcile in which every call succeeds and every list call is complete. */
  function Smooth(all: Gates.Listing, opId: string, clearCalls: nat): Hmc.Calls {
    Hmc.Calls(true, true, true, opId, 0, true, true, HostTags.ENSURE_CALLS, true, Some(all), true, Some(all), Some(all),
              true, true, clearCalls, true, true, true)
  }

  lemma DropByHmc(s: Sys, uid: string, opId: string)
    requires Known(s) && HasFinalizer(s, uid) && FreshOp(s.h, opId) && ReadyToGo(s, uid)
    requires Text(s.w.hosts[uid].systemID) != "" && s.w.hosts[uid].completed == ""
    ensures CanBeDropped(s, uid)
  {
    hide Hmc.Step, HostTags.Ensure, HostTags.ToClear, NoGuests;
    var host := s.w.hosts[uid].systemID.value;
    var all := ListAll(s.w.nodes.Keys);
    var l := Gates.Listing(all, s.w.nodes.Keys);
    var op := OpIdInForce(s.w, uid, Smooth(l, opId, 0));
    var tagged := HostTags.Ensure(s.w.nodes, host, op, HostTags.ENSURE_CALLS);
    EnsureKeepsKeys(s.w.nodes, host, op, HostTags.ENSURE_CALLS);
    var c := Smooth(l, opId, 1 + |HostTags.ToClear(tagged[host].tags)|);
    assert OpIdInForce(s.w, uid, c) == op;
    HmcEvacuates(s.w, uid, c);
    HmcPassesGate(s.w, uid, c);
    var a := HmcReconcile(uid, c);
    var t := Sys(Step(s.w, a).0, Remember(s.h, s.w, a, Step(s.w, a).1));
    assert Drops(s, a, t, Step(s.w, a).1, uid);
  }

  lemma EnsureKeepsKeys(nodes: Nodes, host: string, op: string, calls: nat)
    ensures HostTags.Ensure(nodes, host, op, calls).Keys == nodes.Keys
  {
  }

  lemma DropByDelete(s: Sys, uid: string)
    requires HasFinalizer(s, uid) && s.w.hosts[uid].deleting && Text(s.w.hosts[uid].systemID) == ""
    ensures CanBeDropped(s, uid)
  {
    hide ProviderIds.InstanceId;
    var a := HostDelete(uid,
      HostMachines.DeleteCalls(None, false, false, HostMachines.ReleaseFailed, {}, false, false, true));
    var t := Sys(Step(s.w, a).0, Remember(s.h, s.w, a, Step(s.w, a).1));
    assert Drops(s, a, t, Step(s.w, a).1, uid);
  }

  /**
   * A host being deleted with its evacuation finalizer on can lose it in some step exactly when it is not wedged
   * and what evacuation waits for has happened: its owner is being deleted, and MAAS has it, without VMs.
   */
  lemma DroppedExactly(s: Sys, uid: string, opId: string)
    requires Known(s) && HasFinalizer(s, uid) && s.w.hosts[uid].deleting && FreshOp(s.h, opId)
    ensures CanBeDropped(s, uid) <==> !Wedged(s, uid) && ReadyToGo(s, uid)
  {
    hide Drops, Known, ReadyToGo;
    if CanBeDropped(s, uid) {
      var a, t, e :| Drops(s, a, t, e, uid);
      DropMeansReady(s, a, t, e, uid);
    } else if !Wedged(s, uid) && ReadyToGo(s, uid) {
      if Text(s.w.hosts[uid].systemID) == "" {
        DropByDelete(s, uid);
      } else {
        DropByHmc(s, uid, opId);
      }
    }
  }
}
