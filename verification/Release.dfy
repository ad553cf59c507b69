/**
 * Host release safety across controllers: the MaasMachine controller asks MAAS to release a host only after
 * its evacuation finalizer was removed by somebody entitled to, HMC on an empty read among them.
 */
module Release {
  import opened Base
  import opened State
  import opened Protocol
  import opened Evacuation
  import Allocation
  import Effects
  import Frames
  import Hmc
  import HmcSession
  import HostMachines
  import HostTags
  import ProviderIds
  import Provision
  import Vec

  // ----- one step and one host -----

  /** The evacuation finalizer went away, in one of the two ways it may. */
  ghost predicate Removal(s: Sys, a: Action, e: Event, uid: string)
    requires uid in s.w.hosts
  {
    || (a.HmcReconcile? && s.w.hosts[uid].systemID.Some?
      && e == FromHmc(Hmc.Evacuated(uid, s.w.hosts[uid].systemID.value))
        && ReadEmpty(s.w.nodes, s.w.hosts[uid].systemID.value, a.hmc))
    || (e == FromHosts(HostMachines.FinalizerDropped(uid)) && Text(s.w.hosts[uid].systemID) == "")
  }

  /** What any step may do to one host. */
  ghost predicate HostStep(s: Sys, a: Action, t: Sys, e: Event, uid: string) {
    uid in t.w.hosts ==>
      if uid !in s.w.hosts then
        a.HostCreated? && a.uid == uid && Text(t.w.hosts[uid].parent) == "" && t.w.hosts[uid].providerID == None
      else
        var h, h' := s.w.hosts[uid], t.w.hosts[uid];
        && h'.parent == h.parent
        && (Text(h.parent) == "" && !h.evacuationFinalizer ==> h'.providerID == h.providerID)
        && (h.evacuationFinalizer && !h'.evacuationFinalizer ==> Removal(s, a, e, uid))
  }

  lemma HmcHostStep(s: Sys, a: Action, t: Sys, e: Event, uid: string)
    requires Leads(s, a, t, e) && a.HmcReconcile?
    ensures HostStep(s, a, t, e, uid)
  {
    hide Permitted, Hmc.Step, ReadEmpty, HostTags.Ensure;
    HmcPassesGate(s.w, a.uid, a.hmc);
  }

  /** Without its evacuation finalizer a host does not get as far as being deployed. */
  predicate NormalMay(h: Host, h': Host) {
    && h'.parent == h.parent && (h.evacuationFinalizer ==> h'.evacuationFinalizer)
    && (Text(h.parent) == "" && !h.evacuationFinalizer ==> h'.providerID == h.providerID)
  }

  lemma NormalHost(w: World, uid: string, c: HostMachines.NormalCalls)
    requires uid in w.hosts && c.alloc.lxdHost
    ensures var w' := HostMachines.NormalStep(w, uid, c);
      uid in w'.hosts && w'.hosts == w.hosts[uid := w'.hosts[uid]] && NormalMay(w.hosts[uid], w'.hosts[uid])
  {
    hide HostMachines.DeployedNow, HostMachines.Cleanup, Allocation.ReconcileResult;
  }

  lemma NormalHostStep(s: Sys, a: Action, t: Sys, e: Event, uid: string)
    requires Leads(s, a, t, e) && a.HostNormal?
    ensures HostStep(s, a, t, e, uid)
  {
    hide HostMachines.NormalStep, ReadEmpty;
    NormalHost(s.w, a.uid, a.normal);
  }

  lemma DeleteHosts(w: World, uid: string, c: HostMachines.DeleteCalls)
    requires uid in w.hosts
    ensures var (w', e) := HostMachines.DeleteStep(w, uid, c);
      match e
      case FinalizerDropped(u) =>
        u == uid && Text(w.hosts[uid].systemID) == ""
          && w'.hosts == w.hosts[uid := w.hosts[uid].(evacuationFinalizer := false)]
      case ReleaseCalled(u, id) =>
        u == uid && !w.hosts[uid].evacuationFinalizer && id == ProviderIds.InstanceId(w.hosts[uid].providerID) != ""
        && (w'.hosts == w.hosts || w'.hosts == w.hosts[uid := w.hosts[uid].(machineFinalizer := false)])
      case Quiet => w'.hosts == w.hosts || w'.hosts == w.hosts[uid := w.hosts[uid].(machineFinalizer := false)]
  {
    hide ProviderIds.InstanceId, HostMachines.DropGuests, Allocation.Release;
  }

  lemma DeleteHostStep(s: Sys, a: Action, t: Sys, e: Event, uid: string)
    requires Leads(s, a, t, e) && a.HostDelete?
    ensures HostStep(s, a, t, e, uid)
  {
    hide HostMachines.DeleteStep, ReadEmpty, ProviderIds.InstanceId;
    DeleteHosts(s.w, a.uid, a.delete);
  }

  lemma CreatedHostStep(s: Sys, a: Action, t: Sys, e: Event, uid: string)
    requires Leads(s, a, t, e) && a.HostCreated? && s.w.hosts.Keys <= s.h.hostUids
    ensures HostStep(s, a, t, e, uid)
  {
    hide ReadEmpty;
  }

  lemma MarkedHostStep(s: Sys, a: Action, t: Sys, e: Event, uid: string)
    requires Leads(s, a, t, e) && (a.HostMachineMarked? || a.HostMarked? || a.HostGone? || a.OperatorEdits?)
    ensures HostStep(s, a, t, e, uid)
  {
    hide ReadEmpty, HmcSession.Load, Permitted;
  }

  lemma SameHosts(s: Sys, a: Action, t: Sys, e: Event)
    requires Leads(s, a, t, e) && (a.HmcConfigMap? || !Frames.HostSide(a))
    ensures t.w.hosts == s.w.hosts
  {
    hide Permitted, Vec.Step, Provision.Step, Hmc.ConfigMapStep;
    match a
    case VecReconcile(c) => Effects.VecFrame(s.w, c);
    case HmcConfigMap(c) => Effects.ConfigMapFrame(s.w, c);
    case ProvisionVm(uid, c, pick) => Effects.ProvisionFrame(s.w, uid, c, pick);
    case _ =>
  }

  lemma EveryHostStep(s: Sys, a: Action, t: Sys, e: Event, uid: string)
    requires Leads(s, a, t, e) && s.w.hosts.Keys <= s.h.hostUids
    ensures HostStep(s, a, t, e, uid)
  {
    hide Leads, Removal, ReadEmpty;
    if a.HmcReconcile? {
      HmcHostStep(s, a, t, e, uid);
    } else if a.HostNormal? {
      NormalHostStep(s, a, t, e, uid);
    } else if a.HostDelete? {
      DeleteHostStep(s, a, t, e, uid);
    } else if a.HmcConfigMap? || !Frames.HostSide(a) {
      SameHosts(s, a, t, e);
    } else if a.HostCreated? {
      CreatedHostStep(s, a, t, e, uid);
    } else {
      MarkedHostStep(s, a, t, e, uid);
    }
  }

  // ----- over runs -----

  ghost predicate Known(s: Sys) {
    s.w.hosts.Keys <= s.h.hostUids && forall u :: u in s.w.hosts ==> Text(s.w.hosts[u].parent) == ""
  }

  lemma HostUidsGrow(s: Sys, a: Action, t: Sys, e: Event)
    requires Leads(s, a, t, e)
    ensures s.h.hostUids <= t.h.hostUids && (a.HostCreated? ==> a.uid in t.h.hostUids)
  {
    hide Permitted, Step;
  }

  lemma StepKeepsKnown(s: Sys, a: Action, t: Sys, e: Event)
    requires Leads(s, a, t, e) && Known(s)
    ensures Known(t)
  {
    hide Leads, Removal;
    HostUidsGrow(s, a, t, e);
    forall uid | uid in t.w.hosts ensures Text(t.w.hosts[uid].parent) == "" && uid in t.h.hostUids {
      EveryHostStep(s, a, t, e, uid);
    }
  }

  lemma {:induction false} Always(r: Run, i: nat)
    requires IsRun(r) && i < |r.states|
    ensures Known(r.states[i])
  {
    hide Leads;
    if i > 0 {
      Always(r, i - 1);
      StepKeepsKnown(r.states[i - 1], r.actions[i - 1], r.states[i], r.events[i - 1]);
    }
  }

  predicate HasFinalizer(s: Sys, uid: string) { uid in s.w.hosts && s.w.hosts[uid].evacuationFinalizer }

  predicate LacksFinalizer(s: Sys, uid: string) { uid in s.w.hosts && !s.w.hosts[uid].evacuationFinalizer }

  /** The most recent removal of the evacuation finalizer before state j happened at step i, and was a proper one. */
  ghost predicate LastRemoval(r: Run, i: nat, j: nat, uid: string)
    requires i < j < |r.states| == |r.actions| + 1 && |r.events| == |r.actions|
  {
    && HasFinalizer(r.states[i], uid) && Removal(r.states[i], r.actions[i], r.events[i], uid)
    && forall k :: i < k <= j ==> LacksFinalizer(r.states[k], uid)
  }

  /** A host with a machine on record and no evacuation finalizer had one. */
  lemma {:induction false} FinalizerWasThere(r: Run, j: nat, uid: string) returns (i: nat)
    requires IsRun(r) && j < |r.states| && LacksFinalizer(r.states[j], uid)
    requires ProviderIds.InstanceId(r.states[j].w.hosts[uid].providerID) != ""
    ensures i < j && LastRemoval(r, i, j, uid)
  {
    hide Leads, Removal, ProviderIds.InstanceId;
    ProviderIds.NoProviderIdNoInstance(None);
    assert j > 0;
    i := j - 1;
    Always(r, i);
    EveryHostStep(r.states[i], r.actions[i], r.states[j], r.events[i], uid);
    if LacksFinalizer(r.states[i], uid) {
      i := FinalizerWasThere(r, j - 1, uid);
    }
  }

  /** MAAS accepted a release of the host's machine in this step. */
  predicate Accepted(c: HostMachines.DeleteCalls) {
    c.release == HostMachines.Released || (c.release == HostMachines.VmHostsFirst && c.unregisterOk && c.retryOk)
  }

  lemma ReleaseStepLetsGo(w: World, uid: string, id: string, c: HostMachines.DeleteCalls)
    requires uid in w.hosts
    ensures HostMachines.ReleaseStep(w, uid, id, c).hosts
         == if c.closeOk && Accepted(c) then w.hosts[uid := w.hosts[uid].(machineFinalizer := false)] else w.hosts
  {
    hide HostMachines.DropGuests, Allocation.Release;
  }

  /**
   * The delete path lets an object go exactly when its evacuation finalizer is gone and either MAAS accepted
   * the release of its machine, or there is no machine to be found and the deletion is old enough.
   */
  lemma LetGoExactly(w: World, uid: string, c: HostMachines.DeleteCalls)
    requires uid in w.hosts && w.hosts[uid].machineFinalizer
    ensures var w' := HostMachines.DeleteStep(w, uid, c).0;
      var id := ProviderIds.InstanceId(w.hosts[uid].providerID);
      && uid in w'.hosts
      && (!w'.hosts[uid].machineFinalizer <==>
            c.closeOk && !w.hosts[uid].evacuationFinalizer
            && if id == "" || c.lookup == Some(false) then c.oldEnough
              else c.lookup.Some? && c.dnsDetached && Accepted(c))
  {
    hide ProviderIds.InstanceId, HostMachines.ReleaseStep, Accepted;
    ReleaseStepLetsGo(w, uid, ProviderIds.InstanceId(w.hosts[uid].providerID), c);
  }

  /** The lease of one machine has a release requested, and no other lease changed. */
  ghost predicate OnlyRequested(before: Allocation.Leases, after: Allocation.Leases, id: string) {
    && after.Keys == before.Keys
    && (id in before ==> after[id] == Allocation.Lease(before[id].holder, true))
    && forall x :: x in before && x != id ==> after[x] == before[x]
  }

  lemma ReleaseStepRequests(w: World, uid: string, id: string, c: HostMachines.DeleteCalls)
    requires uid in w.hosts
    ensures OnlyRequested(w.leases, HostMachines.ReleaseStep(w, uid, id, c).leases, id)
  {
    hide HostMachines.DropGuests;
  }

  /**
   * The delete path reports a release exactly for the machine its record names, found by MAAS, with the
   * evacuation finalizer gone and the DNS record free of it; then and only then is anybody's release requested,
   * namely that machine's.
   */
  lemma RequestsExactly(w: World, uid: string, c: HostMachines.DeleteCalls)
    requires uid in w.hosts
    ensures var (w', e) := HostMachines.DeleteStep(w, uid, c);
      var id := ProviderIds.InstanceId(w.hosts[uid].providerID);
      var releases := !w.hosts[uid].evacuationFinalizer && id != "" && c.lookup.Some? && c.lookup.value
        && c.dnsDetached;
      && (e == HostMachines.ReleaseCalled(uid, id) <==> releases)
      && (e.ReleaseCalled? ==> e == HostMachines.ReleaseCalled(uid, id))
      && (if releases then OnlyRequested(w.leases, w'.leases, id) else w'.leases == w.leases)
  {
    hide ProviderIds.InstanceId, HostMachines.ReleaseStep, OnlyRequested;
    ReleaseStepRequests(w, uid, ProviderIds.InstanceId(w.hosts[uid].providerID), c);
  }

  /** No host object goes away while MAAS has its machine and nobody asked for the machine's release. */
  lemma LetGoIsReleased(w: World, uid: string, c: HostMachines.DeleteCalls)
    requires uid in w.hosts && w.hosts[uid].machineFinalizer
    requires var id := ProviderIds.InstanceId(w.hosts[uid].providerID);
      id in w.leases && id != "" && c.lookup != Some(false)
    ensures var w' := HostMachines.DeleteStep(w, uid, c).0;
      uid in w'.hosts && (!w'.hosts[uid].machineFinalizer ==>
        var id := ProviderIds.InstanceId(w.hosts[uid].providerID);
        id in w'.leases && w'.leases[id] == Allocation.Lease(w.leases[id].holder, true))
  {
    hide ProviderIds.InstanceId, HostMachines.DeleteStep, Accepted;
    LetGoExactly(w, uid, c);
    RequestsExactly(w, uid, c);
  }

  lemma ReleaseStepGuests(w: World, uid: string, id: string, c: HostMachines.DeleteCalls, x: string)
    requires uid in w.hosts && x in w.nodes
    ensures x !in HostMachines.ReleaseStep(w, uid, id, c).nodes <==>
      c.release == HostMachines.VmHostsFirst && x in c.guests && w.nodes[x].parent == id
  {
    hide Allocation.Release;
  }

  /** Only VMs on the machine being released are force-deleted, and only when MAAS asked for it. */
  lemma OnlyItsGuestsGo(w: World, uid: string, c: HostMachines.DeleteCalls, x: string)
    requires uid in w.hosts && x in w.nodes
    ensures var w' := HostMachines.DeleteStep(w, uid, c).0;
      var id := ProviderIds.InstanceId(w.hosts[uid].providerID);
      x !in w'.nodes <==>
        && !w.hosts[uid].evacuationFinalizer && id != "" && c.lookup.Some? && c.lookup.value && c.dnsDetached
        && c.release == HostMachines.VmHostsFirst && x in c.guests && w.nodes[x].parent == id
  {
    hide ProviderIds.InstanceId, HostMachines.ReleaseStep;
    ReleaseStepGuests(w, uid, ProviderIds.InstanceId(w.hosts[uid].providerID), c, x);
  }

  lemma ReleaseNeedsRecord(s: Sys, a: Action, t: Sys, e: Event)
    requires Leads(s, a, t, e) && a.HostDelete? && e.FromHosts? && e.d.ReleaseCalled?
    ensures LacksFinalizer(s, e.d.uid) && e.d.id == ProviderIds.InstanceId(s.w.hosts[e.d.uid].providerID) != ""
  {
    hide Permitted, HostMachines.DeleteStep, ProviderIds.InstanceId;
    DeleteHosts(s.w, a.uid, a.delete);
  }

  /**
   * A release call for a host comes after its evacuation finalizer was there and was removed, most recently
   * by HMC reading the host as empty or by the delete path finding no system ID on record.
   */
  lemma ReleaseIsGuarded(r: Run, j: nat) returns (i: nat)
    requires IsRun(r) && j < |r.actions| && r.actions[j].HostDelete? && r.events[j].FromHosts?
      && r.events[j].d.ReleaseCalled?
    ensures i < j && LastRemoval(r, i, j, r.events[j].d.uid)
  {
    hide Leads, LastRemoval, Initial;
    ReleaseNeedsRecord(r.states[j], r.actions[j], r.states[j + 1], r.events[j]);
    i := FinalizerWasThere(r, j, r.events[j].d.uid);
  }
}
