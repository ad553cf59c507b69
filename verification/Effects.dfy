/** What each controller step can and cannot touch: the frame lemmas the invariants rest on. */
module Effects {
  import opened Base
  import opened Inventory
  import opened State
  import Allocation
  import HmcSession
  import Hmc
  import HostMachines
  import HostTags
  import ProviderIds
  import Provision
  import Selector
  import Tags
  import Vec

  // ----- VEC -----

  lemma VecFrame(w: World, c: Vec.Calls)
    ensures var w' := Vec.Step(w, c).0; 
      w' == w.(nodes := w'.nodes, kcp := w'.kcp, templates := w'.templates, machines := w'.machines, sessions :=
        w'.sessions)
  {
    hide Tags.ReadyOpTag, Vec.Findings, Vec.Opened, Vec.OtherDeleting, Vec.KcpStable, Vec.Replicas, Vec.NewTemplate,
      Vec.ActiveOps;
  }

  lemma VecMachines(w: World, c: Vec.Calls)
    ensures var (w', e) := Vec.Step(w, c);
      match e
      case MachineDeleted(_, uid) => uid in w.machines
        && w'.machines == w.machines[uid := w.machines[uid].(deleting := true)]
      case _ => w'.machines == w.machines
  {
    hide Tags.ReadyOpTag, Vec.Findings, Vec.Opened, Vec.OtherDeleting, Vec.KcpStable, Vec.Replicas, Vec.NewTemplate,
      Vec.ActiveOps;
  }

  /** VEC only ever adds the ready tag of an open session to the VM that session names. */
  lemma VecNodes(w: World, c: Vec.Calls)
    ensures var w' := Vec.Step(w, c).0;
      || w'.nodes == w.nodes
      || (c.active in w.sessions && w.sessions[c.active].newVm != ""
          && w'.nodes == Assign(w.nodes, w.sessions[c.active].newVm, Tags.ReadyOpTag(c.active)))
  {
    hide Tags.ReadyOpTag, Vec.Findings, Vec.Opened, Vec.OtherDeleting, Vec.KcpStable, Vec.Replicas, Vec.NewTemplate;
  }

  // ----- HMC -----

  lemma HmcEvacuateFrame(w: World, uid: string, host: string, opId: string, c: Hmc.Calls)
    requires uid in w.hosts
    ensures var w' := Hmc.Evacuate(w, uid, host, opId, c).0;
      w' == w.(nodes := w'.nodes, hosts := w'.hosts, session := w'.session)
  {
    hide HostTags.Ensure, HostTags.Clear, HostTags.ClearSucceeds, Hmc.Verdict, Hmc.Tracked, HmcSession.Complete;
  }

  lemma HmcFrame(w: World, uid: string, c: Hmc.Calls)
    requires uid in w.hosts
    ensures var w' := Hmc.Step(w, uid, c).0;
      w' == w.(nodes := w'.nodes, hosts := w'.hosts, session := w'.session)
  {
    hide Hmc.Evacuate, HmcSession.Start, HmcSession.StartResult, HmcSession.Load, Hmc.NeedsSession;
    var host := Text(w.hosts[uid].systemID);
    HmcEvacuateFrame(w, uid, host, HmcSession.Load(w.session).opId, c);
    var r := HmcSession.StartResult(w.session, host, c.opId, c.now, c.startOk);
    if r.Some? {
      HmcEvacuateFrame(w.(session := HmcSession.Start(w.session, host, c.opId, c.now, c.startOk)), uid, host,
        r.value.opId, c);
    }
  }

  lemma HmcEvacuateNodes(w: World, uid: string, host: string, opId: string, c: Hmc.Calls)
    requires uid in w.hosts
    ensures HostTags.SameButDrainTags(w.nodes, Hmc.Evacuate(w, uid, host, opId, c).0.nodes, host)
  {
    hide HostTags.Ensure, HostTags.Clear, HostTags.ClearSucceeds, Hmc.Verdict, Hmc.Tracked, HmcSession.Complete;
    hide HostTags.SameButDrainTags;
    var n := HostTags.Ensure(w.nodes, host, opId, c.ensureCalls);
    SameAsItself(w.nodes, host);
    HostTags.EnsureOnlyDrainTags(w.nodes, w.nodes, host, opId, c.ensureCalls);
    HostTags.ClearOnlyDrainTags(w.nodes, n, host, c.clearCalls);
  }

  lemma SameAsItself(nodes: Nodes, host: string)
    ensures HostTags.SameButDrainTags(nodes, nodes, host)
  {
    hide HostTags.Strip;
  }

  /** A step of HMC changes drain tags of one host and nothing else in the inventory. */
  lemma HmcNodes(w: World, uid: string, c: Hmc.Calls)
    requires uid in w.hosts
    ensures HostTags.SameButDrainTags(w.nodes, Hmc.Step(w, uid, c).0.nodes, Text(w.hosts[uid].systemID))
  {
    hide Hmc.Evacuate, HmcSession.Start, HmcSession.StartResult, HmcSession.Load, Hmc.NeedsSession;
    hide HostTags.SameButDrainTags;
    var host := Text(w.hosts[uid].systemID);
    SameAsItself(w.nodes, host);
    HmcEvacuateNodes(w, uid, host, HmcSession.Load(w.session).opId, c);
    var r := HmcSession.StartResult(w.session, host, c.opId, c.now, c.startOk);
    if r.Some? {
      HmcEvacuateNodes(w.(session := HmcSession.Start(w.session, host, c.opId, c.now, c.startOk)), uid, host,
        r.value.opId, c);
    }
  }

  lemma ConfigMapFrame(w: World, c: Hmc.Calls)
    ensures var w' := Hmc.ConfigMapStep(w, c).0;
      w' == w.(nodes := w'.nodes, session := w'.session)
  {
    hide HostTags.Ensure, HmcSession.Start, HmcSession.StartResult, HmcSession.Load, HmcSession.Trigger,
      HostTags.ENSURE_CALLS;
  }

  lemma ConfigMapNodes(w: World, c: Hmc.Calls) returns (host: string)
    ensures HostTags.SameButDrainTags(w.nodes, Hmc.ConfigMapStep(w, c).0.nodes, host)
  {
    hide HostTags.Ensure, HmcSession.Start, HmcSession.StartResult, HmcSession.Load, HmcSession.Trigger;
    hide HostTags.SameButDrainTags;
    var started := match HmcSession.Trigger(w.session)
      case Some(h) => HmcSession.StartResult(w.session, h, c.opId, c.now, c.startOk)
      case None => Some(HmcSession.Load(w.session));
    host := if started.Some? then started.value.currentHost else "";
    SameAsItself(w.nodes, host);
    if started.Some? {
      HostTags.EnsureOnlyDrainTags(w.nodes, w.nodes, host, started.value.opId, c.ensureCalls);
    }
  }

  // ----- the MaasMachine controller on hosts -----

  lemma NormalFrame(w: World, uid: string, c: HostMachines.NormalCalls)
    requires uid in w.hosts
    ensures var w' := HostMachines.NormalStep(w, uid, c);
      w' == w.(nodes := w'.nodes, hosts := w'.hosts, leases := w'.leases)
  {
    hide HostMachines.DeployedNow, HostMachines.Cleanup, Allocation.ReconcileResult, Text, HostMachines.IdsOf;
  }

  /** Deploying a host cleans up one machine that is not an LXD VM. */
  lemma NormalNodes(w: World, uid: string, c: HostMachines.NormalCalls)
    requires uid in w.hosts
    ensures var w' := HostMachines.NormalStep(w, uid, c);
      w'.nodes == w.nodes
      || (var id := HostMachines.DeployedNow(w.hosts[uid], w, uid, c);
        id.Some? && w'.nodes == HostMachines.Cleanup(w.nodes, id.value, c))
  {
    hide HostMachines.DeployedNow, HostMachines.Cleanup, Allocation.ReconcileResult;
  }

  lemma DeleteFrame(w: World, uid: string, c: HostMachines.DeleteCalls)
    requires uid in w.hosts
    ensures var w' := HostMachines.DeleteStep(w, uid, c).0;
      w' == w.(nodes := w'.nodes, hosts := w'.hosts, leases := w'.leases)
  {
    hide ProviderIds.InstanceId, HostMachines.DropGuests, Allocation.Release;
  }

  lemma DeleteNodes(w: World, uid: string, c: HostMachines.DeleteCalls)
    requires uid in w.hosts
    ensures var w' := HostMachines.DeleteStep(w, uid, c).0;
      w'.nodes == w.nodes || exists id :: w'.nodes == HostMachines.DropGuests(w.nodes, id, c.guests)
  {
    hide ProviderIds.InstanceId, HostMachines.DropGuests, Allocation.Release;
  }

  // ----- provisioning -----

  lemma FinishFrame(uid: string, c: Provision.Calls)
    ensures forall w: World, id, zone :: uid in w.machines ==>
      var w' := Provision.Finish(w, uid, id, zone, c);
      w' == w.(nodes := w'.nodes, machines := w'.machines, sessions := w'.sessions)
  {
    hide Provision.TagVm, Provision.OfferedTo, ProviderIds.Print;
  }

  lemma ProvisionFrame(w: World, uid: string, c: Provision.Calls, pick: Option<Selector.VmHost>)
    requires uid in w.machines
    ensures var w' := Provision.Step(w, uid, c, pick).0;
      w' == w.(nodes := w'.nodes, machines := w'.machines, sessions := w'.sessions)
  {
    hide ProviderIds.InstanceId, Provision.HostnameTaken, Provision.SameHostname, Provision.DeployName,
      Provision.Finish;
    hide Provision.Offer, Provision.NewVm, ProviderIds.Print;
    FinishFrame(uid, c);
  }

  ghost predicate TaggedNode(x: Node, y: Node, clusterId: string) {
    && y == x.(tags := y.tags)
    && (forall t :: t in x.tags ==> t in y.tags)
    && (forall t :: t in y.tags ==> t in x.tags || t == Tags.VM_CONTROL_PLANE || t == Tags.ClusterTag(clusterId))
  }

  /** Some machines got the control-plane tag or the tag of this cluster, and nothing else happened. */
  ghost predicate Tagged(a: Nodes, b: Nodes, clusterId: string) {
    a.Keys == b.Keys && forall id :: id in a ==> TaggedNode(a[id], b[id], clusterId)
  }

  ghost predicate FullyTagged(nodes: Nodes, id: string, clusterId: string) {
    id in nodes && Tags.VM_CONTROL_PLANE in nodes[id].tags && Tags.ClusterTag(clusterId) in nodes[id].tags
  }

  lemma TagVmEffect(nodes: Nodes, id: string, clusterId: string, cpOk: bool, clusterOk: bool)
    ensures Tagged(nodes, Provision.TagVm(nodes, id, clusterId, cpOk, clusterOk), clusterId)
    ensures id in nodes && id != "" && clusterId != "" && cpOk && clusterOk ==>
      FullyTagged(Provision.TagVm(nodes, id, clusterId, cpOk, clusterOk), id, clusterId)
  {
    hide Tags.ClusterTag, Tags.VM_CONTROL_PLANE;
  }

  lemma TaggedTwice(a: Nodes, b: Nodes, c: Nodes, clusterId: string, id: string)
    requires Tagged(a, b, clusterId) && Tagged(b, c, clusterId)
    ensures Tagged(a, c, clusterId)
    ensures FullyTagged(b, id, clusterId) ==> FullyTagged(c, id, clusterId)
  {
    hide Tags.ClusterTag, Tags.VM_CONTROL_PLANE;
    forall x | x in a ensures TaggedNode(a[x], c[x], clusterId) {
      assert TaggedNode(a[x], b[x], clusterId) && TaggedNode(b[x], c[x], clusterId);
    }
    assert id in b ==> TaggedNode(b[id], c[id], clusterId);
  }

  lemma TaggedSame(nodes: Nodes, clusterId: string)
    ensures Tagged(nodes, nodes, clusterId)
  {
    hide Tags.ClusterTag, Tags.VM_CONTROL_PLANE;
  }

  /** An offer writes the VM's ID into one session and leaves its status and host alone. */
  function Offered(sessions: map<string, VecSession>, op: Option<string>, vm: string): map<string, VecSession> {
    if op.Some? && op.value in sessions then sessions[op.value := sessions[op.value].(newVm := vm)] else sessions
  }

  ghost predicate CpTagged(w: World, w': World, id: string, clusterId: string, c: Provision.Calls,
    offer: Option<string>)
  {
    && w' == w.(nodes := w'.nodes, sessions := Offered(w.sessions, offer, id))
    && Tagged(w.nodes, w'.nodes, clusterId)
    && (id in w.nodes && id != "" && clusterId != "" && c.cpTagOk && c.clusterTagOk ==>
      FullyTagged(w'.nodes, id, clusterId))
  }

  lemma TagControlPlaneEffect(w: World, id: string, clusterId: string, c: Provision.Calls)
    ensures CpTagged(w, Provision.TagControlPlane(w, id, clusterId, c), id, clusterId, c,
                     if c.updateSessionOk then Provision.OfferedTo(w, id, c) else None)
  {
    hide Provision.TagVm, Tags.ClusterTag, Tags.VM_CONTROL_PLANE, Tagged, FullyTagged;
    var n1 := Provision.TagVm(w.nodes, id, clusterId, c.cpTagOk, c.clusterTagOk);
    var n2 := Provision.TagVm(n1, id, clusterId, c.retagCpOk, c.retagClusterOk);
    TagVmEffect(w.nodes, id, clusterId, c.cpTagOk, c.clusterTagOk);
    TagVmEffect(n1, id, clusterId, c.retagCpOk, c.retagClusterOk);
    TaggedTwice(w.nodes, n1, n2, clusterId, id);
  }

  /** The record of one Machine names this VM now, unless the patch failed. */
  ghost predicate Recorded(a: map<string, Machine>, b: map<string, Machine>, uid: string, id: string) {
    uid in a &&
    (|| b == a
     || (exists zone :: '\n' !in zone
           && b == a[uid := a[uid].(systemID := Some(id), providerID := Some(ProviderIds.Print(zone, id)))]))
  }

  /** What one attempt that got hold of a VM does, raw being the inventory before any tagging. */
  ghost predicate Provisions(w: World, raw: Nodes, w': World, uid: string, id: string, c: Provision.Calls,
    offer: Option<string>)
    requires uid in w.machines
  {
    && w' == w.(machines := w'.machines, nodes := w'.nodes, sessions := Offered(w.sessions, offer, id))
    && Recorded(w.machines, w'.machines, uid, id)
    && Tagged(raw, w'.nodes, w.machines[uid].placement.clusterId)
    && (offer.Some? ==> w.machines[uid].controlPlane && offer.value in Vec.ActiveOps(w.sessions) && id != "")
    && (offer.Some? && id in raw && w.machines[uid].placement.clusterId != "" && c.cpTagOk && c.clusterTagOk ==>
          FullyTagged(w'.nodes, id, w.machines[uid].placement.clusterId))
  }

  lemma FinishEffect(w: World, uid: string, id: string, zone: string, c: Provision.Calls)
    requires uid in w.machines && '\n' !in zone
    ensures Provisions(w, w.nodes, Provision.Finish(w, uid, id, zone, c), uid, id, c,
      Provision.Offer(w, w.machines[uid], id, c))
  {
    hide Provision.TagControlPlane, ProviderIds.Print, Tags.ClusterTag, Tagged, FullyTagged;
    var r := Provision.Record(w, uid, id, zone, c.patchOk);
    assert Provision.OfferedTo(r, id, c) == Provision.OfferedTo(w, id, c);
    TagControlPlaneEffect(r, id, w.machines[uid].placement.clusterId, c);
    TaggedSame(w.nodes, w.machines[uid].placement.clusterId);
    assert Recorded(w.machines, r.machines, uid, id);
  }

  /** The inventory once the VM on record may have got its final hostname. */
  ghost predicate MayRename(w: World, uid: string, raw: Nodes)
    requires uid in w.machines
  {
    var m := w.machines[uid];
    var id := ProviderIds.InstanceId(m.providerID);
    || raw == w.nodes
    || (id != "" && id in w.nodes && !Provision.HostnameTaken(w.nodes, Provision.DeployName(m))
        && raw == w.nodes[id := w.nodes[id].(hostname := Provision.DeployName(m))])
  }

  /** An attempt works on the VM on record, on a new one, or on one it adopts by hostname. */
  ghost predicate Attempted(w: World, w': World, raw: Nodes, uid: string, c: Provision.Calls,
    pick: Option<Selector.VmHost>, e: Provision.Event)
    requires uid in w.machines
  {
    var m := w.machines[uid];
    var recorded := ProviderIds.InstanceId(m.providerID);
    match e
    case Nothing => MayRename(w, uid, raw) && w' == w.(nodes := raw)
    case Provisioned(u, vm, composed, offer) =>
      && u == uid && Provisions(w, raw, w', uid, vm, c, offer)
      && if composed then
           && recorded == "" && vm == c.newId && pick.Some? && c.hosts.Some?
             && !Provision.HostnameTaken(w.nodes, m.vmName)
           && raw == w.nodes[vm := Provision.NewVm(pick.value, m)]
         else if recorded != "" then vm == recorded && vm in w.nodes && MayRename(w, uid, raw)
         else raw == w.nodes && vm in w.nodes && offer == None && Provision.SameHostname(w.nodes[vm].hostname, m.vmName)
  }

  lemma FinishFrom(w: World, raw: Nodes, uid: string, id: string, zone: string, c: Provision.Calls)
    requires uid in w.machines && '\n' !in zone
    ensures Provisions(w, raw, Provision.Finish(w.(nodes := raw), uid, id, zone, c), uid, id, c,
      Provision.Offer(w, w.machines[uid], id, c))
  {
    hide Provision.Finish, Tagged, FullyTagged, Recorded;
    FinishEffect(w.(nodes := raw), uid, id, zone, c);
  }

  lemma DeployEffect(w: World, uid: string, c: Provision.Calls, pick: Option<Selector.VmHost>) returns (raw: Nodes)
    requires uid in w.machines && ProviderIds.InstanceId(w.machines[uid].providerID) != ""
    requires '\n' !in c.zone && '\n' !in w.machines[uid].placement.zone
    ensures Attempted(w, Provision.DeployExisting(w, uid, c).0, raw, uid, c, pick,
      Provision.DeployExisting(w, uid, c).1)
  {
    hide Provision.Finish, ProviderIds.InstanceId, Provisions, Provision.HostnameTaken, Provision.DeployName,
      Provision.Offer;
    var m := w.machines[uid];
    var id := ProviderIds.InstanceId(m.providerID);
    if !c.getOk || id !in w.nodes {
      return w.nodes;
    }
    raw := if c.renameOk && !Provision.HostnameTaken(w.nodes, Provision.DeployName(m))
           then w.nodes[id := w.nodes[id].(hostname := Provision.DeployName(m))] else w.nodes;
    assert w.(nodes := w.nodes) == w;
    FinishFrom(w, raw, uid, id, if c.zone != "" then c.zone else m.placement.zone, c);
  }

  lemma AdoptEffect(w: World, uid: string, id: string, zone: string, c: Provision.Calls)
    requires uid in w.machines && '\n' !in zone
    ensures Provisions(w, w.nodes, Provision.Record(w, uid, id, zone, c.patchOk), uid, id, c, None)
  {
    hide ProviderIds.Print, Tagged;
    TaggedSame(w.nodes, w.machines[uid].placement.clusterId);
  }

  lemma CrashEffect(w: World, uid: string, raw: Nodes, c: Provision.Calls)
    requires uid in w.machines
    ensures Provisions(w, raw, w.(nodes := raw), uid, c.newId, c, None)
  {
    hide ProviderIds.Print, Tagged;
    TaggedSame(raw, w.machines[uid].placement.clusterId);
  }

  lemma ComposeEffect(w: World, uid: string, c: Provision.Calls, pick: Option<Selector.VmHost>) returns (raw: Nodes)
    requires uid in w.machines && ProviderIds.InstanceId(w.machines[uid].providerID) == ""
    requires '\n' !in w.machines[uid].placement.zone
    ensures Attempted(w, Provision.Compose(w, uid, c, pick).0, raw, uid, c, pick, Provision.Compose(w, uid, c, pick).1)
  {
    hide Provision.Finish, ProviderIds.InstanceId, Provision.Record, Provisions, Provision.HostnameTaken,
      Provision.SameHostname;
    hide Provision.Offer;
    var m := w.machines[uid];
    raw := w.nodes;
    if Provision.Compose(w, uid, c, pick).1 != Provision.Nothing {
      if Provision.HostnameTaken(w.nodes, m.vmName) {
        AdoptEffect(w, uid, c.namesake.value, m.placement.zone, c);
      } else {
        raw := w.nodes[c.newId := Provision.NewVm(pick.value, m)];
        CrashEffect(w, uid, raw, c);
        FinishFrom(w, raw, uid, c.newId, m.placement.zone, c);
        OfferBySessions(w, w.(nodes := raw), m, c.newId, c);
      }
    }
  }

  lemma OfferBySessions(a: World, b: World, m: Machine, id: string, c: Provision.Calls)
    requires a.sessions == b.sessions
    ensures Provision.Offer(a, m, id, c) == Provision.Offer(b, m, id, c)
  {
  }

  lemma ProvisionEffect(w: World, uid: string, c: Provision.Calls, pick: Option<Selector.VmHost>) returns (raw: Nodes)
    requires uid in w.machines && '\n' !in c.zone && '\n' !in w.machines[uid].placement.zone
    ensures Attempted(w, Provision.Step(w, uid, c, pick).0, raw, uid, c, pick, Provision.Step(w, uid, c, pick).1)
  {
    hide Provision.DeployExisting, Provision.Compose, ProviderIds.InstanceId, Attempted;
    var m := w.machines[uid];
    if ProviderIds.InstanceId(m.providerID) != "" {
      raw := DeployEffect(w, uid, c, pick);
    } else if Text(m.systemID) != "" {
      raw := w.nodes;
      NothingHappened(w, uid, c, pick);
    } else {
      raw := ComposeEffect(w, uid, c, pick);
    }
  }

  lemma NothingHappened(w: World, uid: string, c: Provision.Calls, pick: Option<Selector.VmHost>)
    requires uid in w.machines
    ensures Attempted(w, w, w.nodes, uid, c, pick, Provision.Nothing)
  {
    hide ProviderIds.InstanceId, Provision.HostnameTaken;
  }
}
