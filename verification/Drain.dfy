/**
 * Drain monotonicity: while a host carries a maintenance tag, no step of this provider puts a VM on it, and
 * the tags stay until HMC has read the host as empty.
 */
module Drain {
  import opened Base
  import opened Inventory
  import opened State
  import opened Protocol
  import opened Evacuation
  import Effects
  import Frames
  import Gates
  import Hmc
  import HmcSession
  import HostMachines
  import HostTags
  import Provision
  import ProviderIds
  import Quorum
  import Selector
  import Tags

  ghost function VmsOn(nodes: Nodes, host: string): set<string> { set id | id in nodes && nodes[id].parent == host }

  predicate Draining(nodes: Nodes, host: string) { host in nodes && Tags.HasMaintenanceTag(nodes[host].tags) }

  /** Somebody else, not this provider, puts a machine on the host. */
  predicate Foreign(a: Action, host: string) { a.NodeAppears? && a.node.parent == host }

  /** The selected host is not draining: the selector and the compose that follows see the same tags. */
  lemma PickIsNotDraining(w: World, uid: string, c: Provision.Calls, pick: Selector.VmHost)
    requires Provision.Consistent(w, uid, c) && Provision.Picks(w, uid, c, Some(pick)) && c.hosts.Some?
    ensures pick.hostSystemId in w.nodes && pick.hostSystemId != ""
      && !Tags.HasMaintenanceTag(w.nodes[pick.hostSystemId].tags)
  {
    hide Selector.Better, Selector.Rank, Selector.Fits;
  }

  /** The VM a step composed is new, and its parent is not draining. */
  ghost predicate ComposedAway(s: Sys, t: Sys, e: Event) {
    && e.FromProvision? && e.p.Provisioned? && e.p.vm in t.w.nodes && e.p.vm !in s.w.nodes
    && !Draining(s.w.nodes, t.w.nodes[e.p.vm].parent)
  }

  lemma ComposedIsAway(s: Sys, t: Sys, e: Event)
    requires ComposedAway(s, t, e)
    ensures e.p.vm in t.w.nodes && !Draining(s.w.nodes, t.w.nodes[e.p.vm].parent)
  {
  }

  lemma ProvisioningParents(s: Sys, a: Action, t: Sys, e: Event)
    requires Leads(s, a, t, e) && a.ProvisionVm? && Quorum.ZonesFine(s.w.machines)
    ensures e.FromProvision?
    ensures forall id :: id in s.w.nodes ==> id in t.w.nodes && t.w.nodes[id].parent == s.w.nodes[id].parent
    ensures forall id :: id in t.w.nodes && id !in s.w.nodes ==> e.p.Provisioned? && e.p.composed && e.p.vm == id
    ensures e.p.Provisioned? && e.p.composed ==> ComposedAway(s, t, e)
    ensures t.h.composed == if e.p.Provisioned? && e.p.composed then s.h.composed[e.p.vm := a.uid] else s.h.composed
  {
    hide Leads, Provision.Consistent, Provision.Picks, Effects.Attempted, Tags.HasMaintenanceTag;
    var raw := Frames.ProvisionKeeps(s, a, t, e);
    RawParents(s.w, t.w, raw, a.uid, a.provision, a.pick, e.p);
    if e.p.Provisioned? && e.p.composed {
      PickIsNotDraining(s.w, a.uid, a.provision, a.pick.value);
      NewIdIsNew(s.w, a.uid, a.provision);
    }
    TaggingKeepsParents(s, a, t, e, raw);
  }

  lemma RawParents(w: World, w': World, raw: Nodes, uid: string, c: Provision.Calls, pick: Option<Selector.VmHost>,
    e: Provision.Event)
    requires uid in w.machines && Effects.Attempted(w, w', raw, uid, c, pick, e)
    ensures forall id :: id in w.nodes && (id != c.newId || !e.Provisioned? || !e.composed) ==>
      id in raw && raw[id].parent == w.nodes[id].parent
    ensures forall id :: id in raw && id !in w.nodes ==> e.Provisioned? && e.composed && e.vm == id
    ensures e.Provisioned? && e.composed ==>
      e.vm == c.newId && c.hosts.Some? && pick.Some? && e.vm in raw && raw[e.vm].parent == pick.value.hostSystemId
  {
    hide Effects.Provisions, ProviderIds.InstanceId, Provision.HostnameTaken, Provision.SameHostname,
      Provision.DeployName;
  }

  lemma TaggingKeepsParents(s: Sys, a: Action, t: Sys, e: Event, raw: Nodes)
    requires a.ProvisionVm? && a.uid in s.w.machines && e.FromProvision?
    requires Effects.Attempted(s.w, t.w, raw, a.uid, a.provision, a.pick, e.p)
    ensures raw.Keys == t.w.nodes.Keys && forall id :: id in raw ==> t.w.nodes[id].parent == raw[id].parent
  {
    hide Tags.ClusterTag, Effects.FullyTagged, Effects.Recorded, Tags.VM_CONTROL_PLANE, Effects.MayRename,
      ProviderIds.InstanceId;
    hide Provision.HostnameTaken, Provision.SameHostname;
    if e.p.Provisioned? {
      assert Effects.Tagged(raw, t.w.nodes, s.w.machines[a.uid].placement.clusterId);
    }
  }

  lemma NewIdIsNew(w: World, uid: string, c: Provision.Calls)
    requires Provision.Consistent(w, uid, c)
    ensures c.newId !in w.nodes
  {
  }

  lemma ProvisioningAvoids(s: Sys, a: Action, t: Sys, e: Event, host: string)
    requires Leads(s, a, t, e) && a.ProvisionVm? && Quorum.ZonesFine(s.w.machines)
    requires Draining(s.w.nodes, host)
    ensures VmsOn(t.w.nodes, host) <= VmsOn(s.w.nodes, host)
  {
    hide Leads, Draining;
    ProvisioningParents(s, a, t, e);
  }

  /** One step of anything adds no VM to a draining host, unless a foreign machine appears there. */
  lemma NoNewGuests(s: Sys, a: Action, t: Sys, e: Event, host: string)
    requires Leads(s, a, t, e) && Quorum.ZonesFine(s.w.machines)
    requires Draining(s.w.nodes, host) && !Foreign(a, host)
    ensures VmsOn(t.w.nodes, host) <= VmsOn(s.w.nodes, host)
  {
    hide Leads, Quorum.ZonesFine, Draining, Frames.KeptTags;
    if a.ProvisionVm? {
      ProvisioningAvoids(s, a, t, e, host);
    } else if a.VecReconcile? {
      Frames.VecNodes(s, a, t, e);
    } else if Frames.HostSide(a) {
      Frames.HostSideNodes(s, a, t, e);
    } else if a.NodeAppears? {
      AppearingAddsOne(s, a, t, e, host);
    } else {
      Frames.EnvironmentNodes(s, a, t, e);
    }
  }

  lemma AppearingAddsOne(s: Sys, a: Action, t: Sys, e: Event, host: string)
    requires Leads(s, a, t, e) && a.NodeAppears? && !Foreign(a, host)
    ensures VmsOn(t.w.nodes, host) <= VmsOn(s.w.nodes, host)
  {
    hide Permitted;
  }

  ghost predicate DrainingThroughout(r: Run, host: string, i: nat, j: nat)
    requires i <= j < |r.states| == |r.actions| + 1
  {
    forall k :: i <= k < j ==> Draining(r.states[k].w.nodes, host) && !Foreign(r.actions[k], host)
  }

  /**
   * Over any stretch of any run in which a host keeps a maintenance tag, its VMs only become fewer. In
   * particular a host that is empty stays empty.
   */
  lemma {:induction false} OnlyFewerGuests(r: Run, host: string, i: nat, j: nat)
    requires IsRun(r) && i <= j < |r.states| && DrainingThroughout(r, host, i, j)
    ensures VmsOn(r.states[j].w.nodes, host) <= VmsOn(r.states[i].w.nodes, host)
    ensures VmsOn(r.states[i].w.nodes, host) == {} ==> VmsOn(r.states[j].w.nodes, host) == {}
  {
    hide Leads, Draining, Initial;
    if i < j {
      OnlyFewerGuests(r, host, i, j - 1);
      Quorum.Always(r, j - 1);
      Quorum.InvZones(r.states[j - 1]);
      NoNewGuests(r.states[j - 1], r.actions[j - 1], r.states[j], r.events[j - 1], host);
    }
  }

  // ----- how a drain ends -----

  /** HMC cleared the tags after an empty read, the host was deployed anew, or it is gone. */
  ghost predicate DrainEnds(s: Sys, a: Action, t: Sys, host: string) {
    || (a.HmcReconcile? && a.uid in s.w.hosts && Text(s.w.hosts[a.uid].systemID) == host
      && ReadEmpty(s.w.nodes, host, a.hmc))
    || (a.HostNormal? && a.uid in s.w.hosts
      && HostMachines.DeployedNow(s.w.hosts[a.uid], s.w, a.uid, a.normal) == Some(host))
    || host !in t.w.nodes
  }

  lemma EnsureKeepsDraining(nodes: Nodes, target: string, op: string, calls: nat, host: string)
    requires Draining(nodes, host)
    ensures Draining(HostTags.Ensure(nodes, target, op, calls), host)
  {
    hide Tags.OpTag;
  }

  lemma HmcKeepsDraining(s: Sys, a: Action, t: Sys, e: Event, host: string)
    requires Leads(s, a, t, e) && a.HmcReconcile? && Draining(s.w.nodes, host)
    ensures Draining(t.w.nodes, host) || DrainEnds(s, a, t, host)
  {
    hide Permitted, Hmc.Step, HostTags.Ensure, HostTags.Strip, ReadEmpty, Tags.HasMaintenanceTag;
    var target := Text(s.w.hosts[a.uid].systemID);
    Effects.HmcNodes(s.w, a.uid, a.hmc);
    HmcPassesGate(s.w, a.uid, a.hmc);
    if op :| t.w.nodes == HostTags.Ensure(s.w.nodes, target, op, a.hmc.ensureCalls) {
      EnsureKeepsDraining(s.w.nodes, target, op, a.hmc.ensureCalls, host);
    }
  }

  lemma ConfigMapTags(w: World, c: Hmc.Calls, host: string)
    requires Draining(w.nodes, host)
    ensures Draining(Hmc.ConfigMapStep(w, c).0.nodes, host)
  {
    hide HostTags.Ensure, HmcSession.Start, HmcSession.StartResult, HmcSession.Load, HmcSession.Trigger, Draining;
    forall target, op, calls ensures Draining(HostTags.Ensure(w.nodes, target, op, calls), host) {
      EnsureKeepsDraining(w.nodes, target, op, calls, host);
    }
  }

  lemma ConfigMapKeepsDraining(s: Sys, a: Action, t: Sys, e: Event, host: string)
    requires Leads(s, a, t, e) && a.HmcConfigMap? && Draining(s.w.nodes, host)
    ensures Draining(t.w.nodes, host)
  {
    hide Permitted, Hmc.ConfigMapStep, Draining;
    ConfigMapTags(s.w, a.hmc, host);
  }

  lemma DeleteKeepsDraining(s: Sys, a: Action, t: Sys, e: Event, host: string)
    requires Leads(s, a, t, e) && a.HostDelete? && Draining(s.w.nodes, host) && host in t.w.nodes
    ensures Draining(t.w.nodes, host)
  {
    hide Permitted, HostMachines.DeleteStep, Frames.Kept;
    Frames.DeleteKeeps(s.w, a.uid, a.delete);
  }

  lemma OthersKeepDraining(s: Sys, a: Action, t: Sys, e: Event, host: string)
    requires Leads(s, a, t, e)
      && (Frames.Environment(a) || a.HostCreated? || a.HostMachineMarked? || a.HostMarked? || a.HostGone?
        || a.OperatorEdits?)
    requires !a.NodeStatus? && !a.NodeAppears?
    requires Draining(s.w.nodes, host) && host in t.w.nodes
    ensures Draining(t.w.nodes, host)
  {
    hide Permitted, HmcSession.Load, Tags.HasMaintenanceTag;
  }

  lemma NodeStepsKeepDraining(s: Sys, a: Action, t: Sys, e: Event, host: string)
    requires Leads(s, a, t, e) && (a.NodeStatus? || a.NodeAppears?) && Draining(s.w.nodes, host)
    ensures Draining(t.w.nodes, host)
  {
    hide Owns, Gates.HasReadyTag;
  }

  lemma ProvisioningKeepsDraining(s: Sys, a: Action, t: Sys, e: Event, host: string)
    requires Leads(s, a, t, e) && a.ProvisionVm? && Quorum.ZonesFine(s.w.machines) && Draining(s.w.nodes, host)
    ensures Draining(t.w.nodes, host)
  {
    hide Leads, Effects.Attempted, Provision.Picks;
    var raw := Frames.ProvisionKeeps(s, a, t, e);
    NewIdIsNew(s.w, a.uid, a.provision);
    TagsSurvive(s.w, t.w, raw, a.uid, a.provision, a.pick, e.p, host);
  }

  lemma TagsSurvive(w: World, w': World, raw: Nodes, uid: string, c: Provision.Calls, pick: Option<Selector.VmHost>,
    e: Provision.Event, id: string)
    requires uid in w.machines && Effects.Attempted(w, w', raw, uid, c, pick, e) && id in w.nodes && c.newId !in w.nodes
    ensures id in w'.nodes && forall t :: t in w.nodes[id].tags ==> t in w'.nodes[id].tags
  {
    hide Effects.Recorded, Effects.FullyTagged, ProviderIds.InstanceId, Provision.HostnameTaken,
      Provision.SameHostname, Provision.DeployName;
    hide Tags.ClusterTag, Tags.VM_CONTROL_PLANE;
    assert id in raw && raw[id].tags == w.nodes[id].tags;
    if e.Provisioned? {
      assert Effects.TaggedNode(raw[id], w'.nodes[id], w.machines[uid].placement.clusterId);
    }
  }

  lemma NormalKeepsDraining(s: Sys, a: Action, t: Sys, e: Event, host: string)
    requires Leads(s, a, t, e) && a.HostNormal? && Draining(s.w.nodes, host)
    ensures Draining(t.w.nodes, host) || DrainEnds(s, a, t, host)
  {
    hide Permitted, HostMachines.NormalStep, HostMachines.DeployedNow, HostMachines.WithoutStale, HostMachines.IsStale;
    Effects.NormalNodes(s.w, a.uid, a.normal);
  }

  lemma DrainStays(s: Sys, a: Action, t: Sys, e: Event, host: string)
    requires Leads(s, a, t, e) && Quorum.ZonesFine(s.w.machines) && Draining(s.w.nodes, host)
    ensures Draining(t.w.nodes, host) || DrainEnds(s, a, t, host)
  {
    hide Leads, ReadEmpty, Quorum.ZonesFine, HostMachines.DeployedNow;
    if host in t.w.nodes {
      if a.HostNormal? {
        NormalKeepsDraining(s, a, t, e, host);
      } else if a.HmcReconcile? {
        HmcKeepsDraining(s, a, t, e, host);
      } else if a.HmcConfigMap? {
        ConfigMapKeepsDraining(s, a, t, e, host);
      } else if a.HostDelete? {
        DeleteKeepsDraining(s, a, t, e, host);
      } else if a.ProvisionVm? {
        ProvisioningKeepsDraining(s, a, t, e, host);
      } else if a.VecReconcile? {
        Frames.VecNodes(s, a, t, e);
      } else if a.NodeStatus? || a.NodeAppears? {
        NodeStepsKeepDraining(s, a, t, e, host);
      } else {
        OthersKeepDraining(s, a, t, e, host);
      }
    }
  }

  /**
   * From any state in which a host drains, its VMs only become fewer until HMC clears its tags after reading
   * it as empty, it is deployed anew, or it is gone.
   */
  lemma {:induction false} DrainsUntilCleared(r: Run, host: string, i: nat, j: nat)
    requires IsRun(r) && i <= j < |r.states| && Draining(r.states[i].w.nodes, host)
    requires forall k :: i <= k < j ==>
      !DrainEnds(r.states[k], r.actions[k], r.states[k + 1], host) && !Foreign(r.actions[k], host)
    ensures Draining(r.states[j].w.nodes, host)
    ensures VmsOn(r.states[j].w.nodes, host) <= VmsOn(r.states[i].w.nodes, host)
  {
    hide Leads, DrainEnds, Draining, Initial, VmsOn;
    if i < j {
      DrainsUntilCleared(r, host, i, j - 1);
      Quorum.Always(r, j - 1);
      Quorum.InvZones(r.states[j - 1]);
      DrainStays(r.states[j - 1], r.actions[j - 1], r.states[j], r.events[j - 1], host);
      NoNewGuests(r.states[j - 1], r.actions[j - 1], r.states[j], r.events[j - 1], host);
    }
  }

  // ----- empty at the gate, empty later -----

  /** A host HMC lets go after a complete read has no VM, in the state it was read in and in the next one. */
  lemma EvacuatedIsEmpty(s: Sys, a: Action, t: Sys, e: Event)
    requires Leads(s, a, t, e) && a.HmcReconcile? && e.FromHmc? && e.h.Evacuated? && Complete(s.w.nodes, a.hmc.first)
    ensures VmsOn(s.w.nodes, e.h.host) == {} && VmsOn(t.w.nodes, e.h.host) == {}
  {
    hide Permitted, Hmc.Step, Complete, HostTags.Strip;
    EvacuatedNamesHost(s.w, a.uid, a.hmc);
    CompleteReadMeansEmpty(s.w, a.uid, a.hmc);
    Effects.HmcNodes(s.w, a.uid, a.hmc);
    SameGuests(s.w.nodes, t.w.nodes, Text(s.w.hosts[a.uid].systemID));
  }

  lemma EvacuatedNamesHost(w: World, uid: string, c: Hmc.Calls)
    requires uid in w.hosts && Hmc.Step(w, uid, c).1.Evacuated?
    ensures Hmc.Step(w, uid, c).1.host == Text(w.hosts[uid].systemID)
  {
    hide Hmc.Step;
    EvacuatedAwaited(w, uid, c);
  }

  /** From a complete read at the gate on, the host stays empty as long as it carries a maintenance tag. */
  lemma StaysEmptyAfterEvacuation(r: Run, i: nat, j: nat)
    requires IsRun(r) && i < j < |r.states| && r.actions[i].HmcReconcile? && r.events[i].FromHmc?
      && r.events[i].h.Evacuated?
    requires Complete(r.states[i].w.nodes, r.actions[i].hmc.first)
      && DrainingThroughout(r, r.events[i].h.host, i + 1, j)
    ensures VmsOn(r.states[j].w.nodes, r.events[i].h.host) == {}
  {
    hide Leads, Draining, Initial, Complete;
    EvacuatedIsEmpty(r.states[i], r.actions[i], r.states[i + 1], r.events[i]);
    OnlyFewerGuests(r, r.events[i].h.host, i + 1, j);
  }
}
