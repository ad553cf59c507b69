/**
 * What a provisioning attempt leaves on record: the Machine's IDs, the VM's hostname, and the ID of a
 * control-plane VM in the session that waits for a replacement.
 */
module Offers {
  import opened Base
  import opened Inventory
  import opened State
  import Effects
  import HmcSession
  import Provision
  import ProviderIds
  import Selector
  import Tags
  import Vec

  // ----- the session -----

  /** The list call and the write go through, and this is the Active session the list yields first. */
  predicate Waiting(sessions: map<string, VecSession>, c: Provision.Calls, op: string) {
    && c.listSessionsOk && c.updateSessionOk && c.firstActive == op
    && op != "" && op in sessions && sessions[op].status == HmcSession.Active
  }

  /** The VM's ID is written into the session that waits, and nothing else happens to any session. */
  ghost predicate Filled(before: map<string, VecSession>, after: map<string, VecSession>, c: Provision.Calls,
    vm: string)
  {
    && after.Keys == before.Keys
    && forall op :: op in before ==>
         && after[op].status == before[op].status && after[op].host == before[op].host
         && after[op].newVm == if Waiting(before, c, op) then vm else before[op].newVm
  }

  lemma TaggingFills(w: World, id: string, clusterId: string, c: Provision.Calls)
    requires id != ""
    ensures Filled(w.sessions, Provision.TagControlPlane(w, id, clusterId, c).sessions, c, id)
  {
    hide Provision.TagVm;
  }

  lemma FinishFills(w: World, uid: string, id: string, zone: string, c: Provision.Calls)
    requires uid in w.machines && w.machines[uid].controlPlane && id != ""
    ensures Filled(w.sessions, Provision.Finish(w, uid, id, zone, c).sessions, c, id)
  {
    hide Provision.TagControlPlane, ProviderIds.Print, Filled;
    TaggingFills(Provision.Record(w, uid, id, zone, c.patchOk), id, w.machines[uid].placement.clusterId, c);
  }

  lemma OfferWaits(w: World, m: Machine, id: string, c: Provision.Calls, op: string)
    requires m.controlPlane && id != ""
    ensures Provision.Offer(w, m, id, c) == Some(op) <==> Waiting(w.sessions, c, op)
  {
  }

  /** The attempt works on the VM on record, and gets it deployed. */
  predicate Deploys(w: World, uid: string, c: Provision.Calls, vm: string)
    requires uid in w.machines
  {
    ProviderIds.InstanceId(w.machines[uid].providerID) == vm != "" && c.getOk && vm in w.nodes && c.deployOk
  }

  predicate Free(nodes: Nodes, name: string) {
    forall id :: id in nodes ==> nodes[id].hostname != name
  }

  /** No VM is on record, and the selector found a host whose zone and pool are known. */
  predicate Placed(w: World, uid: string, c: Provision.Calls, pick: Option<Selector.VmHost>)
    requires uid in w.machines
  {
    && ProviderIds.InstanceId(w.machines[uid].providerID) == "" && Text(w.machines[uid].systemID) == ""
    && c.hosts.Some? && pick.Some? && pick.value.zone.Some? && pick.value.pool.Some?
  }

  /** The attempt composes a VM and lives to hear of it. */
  predicate Composes(w: World, uid: string, c: Provision.Calls, pick: Option<Selector.VmHost>, vm: string)
    requires uid in w.machines
  {
    Placed(w, uid, c, pick) && Free(w.nodes, w.machines[uid].vmName) && c.composeOk && !c.crash && vm == c.newId != ""
  }

  lemma DeployOffers(w: World, uid: string, c: Provision.Calls, pick: Option<Selector.VmHost>, vm: string, op: string)
    requires uid in w.machines && w.machines[uid].controlPlane && Deploys(w, uid, c, vm)
    ensures var (w', e) := Provision.Step(w, uid, c, pick);
      && e.Provisioned? && e.vm == vm && (e.offered == Some(op) <==> Waiting(w.sessions, c, op))
      && Filled(w.sessions, w'.sessions, c, vm)
  {
    hide ProviderIds.InstanceId, Provision.Finish, Provision.HostnameTaken, Provision.DeployName, Provision.Offer;
    hide Waiting, Filled;
    var m := w.machines[uid];
    var renamed := if c.renameOk && !Provision.HostnameTaken(w.nodes, Provision.DeployName(m))
                   then w.(nodes := w.nodes[vm := w.nodes[vm].(hostname := Provision.DeployName(m))]) else w;
    FinishFills(renamed, uid, vm, if c.zone != "" then c.zone else m.placement.zone, c);
    OfferWaits(w, m, vm, c, op);
  }

  lemma ComposeOffers(w: World, uid: string, c: Provision.Calls, pick: Option<Selector.VmHost>, vm: string, op: string)
    requires uid in w.machines && w.machines[uid].controlPlane && Composes(w, uid, c, pick, vm)
    ensures var (w', e) := Provision.Step(w, uid, c, pick);
      && e.Provisioned? && e.composed && e.vm == vm && (e.offered == Some(op) <==> Waiting(w.sessions, c, op))
      && Filled(w.sessions, w'.sessions, c, vm)
  {
    hide ProviderIds.InstanceId, Provision.Finish, Provision.NewVm, Provision.Offer, Waiting, Filled;
    var m := w.machines[uid];
    var w1 := w.(nodes := w.nodes[vm := Provision.NewVm(pick.value, m)]);
    FinishFills(w1, uid, vm, m.placement.zone, c);
    OfferWaits(w1, m, vm, c, op);
  }

  /**
   * An attempt that deploys or composes a control-plane VM offers it to an operation, and writes its ID into
   * that operation's session, exactly when listing and writing sessions goes through and that session is the
   * Active one listed first. No other session changes.
   */
  lemma OffersExactly(w: World, uid: string, c: Provision.Calls, pick: Option<Selector.VmHost>, vm: string, op: string)
    requires uid in w.machines && w.machines[uid].controlPlane
    requires Deploys(w, uid, c, vm) || Composes(w, uid, c, pick, vm)
    ensures var (w', e) := Provision.Step(w, uid, c, pick);
      && e.Provisioned? && e.vm == vm
      && (e.offered == Some(op) <==>
            c.listSessionsOk && c.updateSessionOk && c.firstActive == op != ""
            && op in w.sessions && w.sessions[op].status == HmcSession.Active)
      && (e.offered == Some(op) ==> op in w'.sessions && w'.sessions[op] == w.sessions[op].(newVm := vm))
      && (forall x :: x in w.sessions && e.offered != Some(x) ==> x in w'.sessions && w'.sessions[x] == w.sessions[x])
      && w'.sessions.Keys == w.sessions.Keys
  {
    hide Provision.Step, Composes, Deploys;
    if Deploys(w, uid, c, vm) {
      DeployOffers(w, uid, c, pick, vm, op);
      forall x ensures Provision.Step(w, uid, c, pick).1.offered == Some(x) <==> Waiting(w.sessions, c, x) {
        DeployOffers(w, uid, c, pick, vm, x);
      }
    } else {
      ComposeOffers(w, uid, c, pick, vm, op);
      forall x ensures Provision.Step(w, uid, c, pick).1.offered == Some(x) <==> Waiting(w.sessions, c, x) {
        ComposeOffers(w, uid, c, pick, vm, x);
      }
    }
  }

  /** When both calls go through, the VM is offered whenever any session is Active at all. */
  lemma OfferedIfAnyWaits(w: World, uid: string, c: Provision.Calls, pick: Option<Selector.VmHost>, vm: string)
    requires Provision.Consistent(w, uid, c) && w.machines[uid].controlPlane
    requires Deploys(w, uid, c, vm) || Composes(w, uid, c, pick, vm)
    ensures var e := Provision.Step(w, uid, c, pick).1;
      e.Provisioned? && (e.offered.Some? <==>
        c.listSessionsOk && c.updateSessionOk
        && exists op :: op in w.sessions && op != "" && w.sessions[op].status == HmcSession.Active)
  {
    hide Provision.Step, Composes, Deploys;
    var e := Provision.Step(w, uid, c, pick).1;
    OffersExactly(w, uid, c, pick, vm, c.firstActive);
    if e.offered.Some? {
      OffersExactly(w, uid, c, pick, vm, e.offered.value);
    }
    if op :| op in w.sessions && op != "" && w.sessions[op].status == HmcSession.Active {
      assert op in Vec.ActiveOps(w.sessions);
    }
  }

  // ----- the tags -----

  /** Which of the two identity tags the VM has afterwards depends on the two calls, one each. */
  lemma TagVmExactly(nodes: Nodes, id: string, clusterId: string, cpOk: bool, clusterOk: bool, t: string)
    requires id in nodes
    ensures var after := Provision.TagVm(nodes, id, clusterId, cpOk, clusterOk);
      && after.Keys == nodes.Keys && (forall x :: x in nodes && x != id ==> after[x] == nodes[x])
      && (t in after[id].tags <==>
            || t in nodes[id].tags
            || (id != "" && clusterId != ""
                && ((cpOk && t == Tags.VM_CONTROL_PLANE)
                  || (clusterOk && t == Tags.VM_CLUSTER_PREFIX + Tags.SanitizeID(clusterId)))))
  {
    hide Tags.SanitizeID, Tags.VM_CONTROL_PLANE, Tags.VM_CLUSTER_PREFIX;
  }

  // ----- the Machine's record and the VM's name -----

  function WithIds(m: Machine, vm: string, zone: string): Machine {
    m.(systemID := Some(vm), providerID := Some("maas:///" + zone + "/" + vm))
  }

  ghost predicate RecordedAs(w: World, w': World, uid: string, vm: string, zone: string, patchOk: bool)
    requires uid in w.machines
  {
    && w'.machines.Keys == w.machines.Keys
    && (forall u :: u in w.machines && (u != uid || !patchOk) ==> w'.machines[u] == w.machines[u])
    && (patchOk ==> w'.machines[uid] == WithIds(w.machines[uid], vm, zone))
  }

  lemma FinishRecords(w: World, uid: string, id: string, zone: string, c: Provision.Calls)
    requires uid in w.machines
    ensures RecordedAs(w, Provision.Finish(w, uid, id, zone, c), uid, id, zone, c.patchOk)
  {
    hide Provision.TagVm, Provision.OfferedTo;
  }

  /** The name a deployed VM gets, unless the rename fails or something already has it. */
  lemma DeployRecords(w: World, uid: string, c: Provision.Calls, pick: Option<Selector.VmHost>, vm: string)
    requires uid in w.machines && Deploys(w, uid, c, vm)
    ensures var w' := Provision.Step(w, uid, c, pick).0;
      && RecordedAs(w, w', uid, vm, if c.zone != "" then c.zone else w.machines[uid].placement.zone, c.patchOk)
      && vm in w'.nodes
      && var name := "vm-" + w.machines[uid].name;
         w'.nodes[vm].hostname ==
           if c.renameOk && (forall id :: id in w.nodes ==> w.nodes[id].hostname != name) then name
             else w.nodes[vm].hostname
  {
    hide ProviderIds.InstanceId, Provision.Finish, RecordedAs, Provision.DeployName;
    var m := w.machines[uid];
    var renamed := if c.renameOk && !Provision.HostnameTaken(w.nodes, Provision.DeployName(m))
                   then w.(nodes := w.nodes[vm := w.nodes[vm].(hostname := Provision.DeployName(m))]) else w;
    var zone := if c.zone != "" then c.zone else m.placement.zone;
    FinishRecords(renamed, uid, vm, zone, c);
    SameMachinesRecorded(w, renamed, Provision.Finish(renamed, uid, vm, zone, c), uid, vm, zone, c.patchOk);
    FinishKeepsNames(renamed, uid, vm, zone, c);
    NameOf(m);
  }

  lemma NameOf(m: Machine)
    ensures Provision.DeployName(m) == "vm-" + m.name
  {
  }

  lemma SameMachinesRecorded(a: World, b: World, w': World, uid: string, vm: string, zone: string, patchOk: bool)
    requires uid in a.machines && a.machines == b.machines && RecordedAs(b, w', uid, vm, zone, patchOk)
    ensures RecordedAs(a, w', uid, vm, zone, patchOk)
  {
    hide WithIds;
  }

  lemma FinishKeepsNames(w: World, uid: string, id: string, zone: string, c: Provision.Calls)
    requires uid in w.machines
    ensures var n := Provision.Finish(w, uid, id, zone, c).nodes;
      n.Keys == w.nodes.Keys && forall x :: x in n ==> n[x].hostname == w.nodes[x].hostname
  {
    hide Provision.TagControlPlane, ProviderIds.Print, Tags.ClusterTag, Tags.VM_CONTROL_PLANE;
    var recorded := Provision.Record(w, uid, id, zone, c.patchOk);
    var clusterId := w.machines[uid].placement.clusterId;
    Effects.TagControlPlaneEffect(recorded, id, clusterId, c);
    var n := Provision.Finish(w, uid, id, zone, c).nodes;
    forall x | x in n && n != w.nodes ensures x in w.nodes && n[x].hostname == w.nodes[x].hostname {
      assert Effects.TaggedNode(recorded.nodes[x], n[x], clusterId);
    }
  }

  lemma ComposeRecords(w: World, uid: string, c: Provision.Calls, pick: Option<Selector.VmHost>, vm: string)
    requires uid in w.machines && Composes(w, uid, c, pick, vm)
    ensures RecordedAs(w, Provision.Step(w, uid, c, pick).0, uid, vm, w.machines[uid].placement.zone, c.patchOk)
  {
    hide ProviderIds.InstanceId, Provision.Finish, Provision.NewVm, RecordedAs;
    var m := w.machines[uid];
    var w1 := w.(nodes := w.nodes[vm := Provision.NewVm(pick.value, m)]);
    FinishRecords(w1, uid, vm, m.placement.zone, c);
    SameMachinesRecorded(w, w1, Provision.Finish(w1, uid, vm, m.placement.zone, c), uid, vm, m.placement.zone,
      c.patchOk);
  }

  /** A VM left behind by an attempt that was cut off is adopted: a later attempt records it and composes nothing. */
  lemma AdoptRecords(w: World, uid: string, c: Provision.Calls, pick: Option<Selector.VmHost>, vm: string)
    requires uid in w.machines
    requires ProviderIds.InstanceId(w.machines[uid].providerID) == "" && Text(w.machines[uid].systemID) == ""
    requires c.hosts.Some? && pick.Some? && pick.value.zone.Some? && pick.value.pool.Some?
    requires vm in w.nodes && w.nodes[vm].hostname == w.machines[uid].vmName && c.namesake == Some(vm)
    ensures var (w', e) := Provision.Step(w, uid, c, pick);
      && e == Provision.Provisioned(uid, vm, false, None) && w'.nodes == w.nodes
      && RecordedAs(w, w', uid, vm, w.machines[uid].placement.zone, c.patchOk)
  {
    hide ProviderIds.InstanceId, Tags.Lower;
  }

  // ----- what an attempt comes to -----

  /**
   * A VM is composed exactly when none is on record, a host was found, the hostname is free and MAAS agrees; one that
   * is there already is used exactly when it is on record and gets deployed, or has the hostname that was asked for.
   */
  lemma ProvisionedExactly(w: World, uid: string, c: Provision.Calls, pick: Option<Selector.VmHost>, vm: string)
    requires uid in w.machines
    ensures var e := Provision.Step(w, uid, c, pick).1;
      && (e.Provisioned? && e.composed && e.vm == vm <==>
            Placed(w, uid, c, pick) && Free(w.nodes, w.machines[uid].vmName) && c.composeOk && vm == c.newId)
      && (e.Provisioned? && !e.composed && e.vm == vm <==>
            || Deploys(w, uid, c, vm)
            || (Placed(w, uid, c, pick) && !Free(w.nodes, w.machines[uid].vmName) && c.namesake == Some(vm)
                && vm in w.nodes && Tags.Lower(w.nodes[vm].hostname) == Tags.Lower(w.machines[uid].vmName)))
  {
    hide ProviderIds.InstanceId, Provision.Finish, Provision.NewVm, Provision.Offer, Provision.DeployName;
    hide Provision.Record, Tags.Lower;
  }

  /** An attempt that gets no VM changes nothing, except that a VM on record may have got its final hostname. */
  lemma OtherwiseNothing(w: World, uid: string, c: Provision.Calls, pick: Option<Selector.VmHost>)
    requires uid in w.machines && Provision.Step(w, uid, c, pick).1.Nothing?
    ensures var id, name := ProviderIds.InstanceId(w.machines[uid].providerID), "vm-" + w.machines[uid].name;
      Provision.Step(w, uid, c, pick).0 ==
        if id != "" && c.getOk && id in w.nodes && c.renameOk && Free(w.nodes, name)
        then w.(nodes := w.nodes[id := w.nodes[id].(hostname := name)]) else w
  {
    hide ProviderIds.InstanceId, Provision.Finish, Provision.NewVm, Provision.Offer, Provision.DeployName;
    hide Provision.Record, Provision.SameHostname;
    NameOf(w.machines[uid]);
  }

  /** After a crash the new VM is there, and neither recorded nor tagged nor offered. */
  lemma CrashLeavesVm(w: World, uid: string, c: Provision.Calls, pick: Option<Selector.VmHost>)
    requires uid in w.machines && Placed(w, uid, c, pick) && Free(w.nodes, w.machines[uid].vmName) && c.composeOk
      && c.crash
    ensures var w' := Provision.Step(w, uid, c, pick).0;
      && w' == w.(nodes := w'.nodes) && w'.nodes.Keys == w.nodes.Keys + {c.newId}
      && (forall x :: x in w.nodes && x != c.newId ==> w'.nodes[x] == w.nodes[x])
      && var n := w'.nodes[c.newId];
         n.parent == pick.value.hostSystemId && n.hostname == w.machines[uid].vmName && n.powerType == "lxd"
         && n.zone == pick.value.zone.value && n.pool == pick.value.pool.value && n.tags == []
  {
    hide ProviderIds.InstanceId, Provision.Finish, Provision.Offer;
  }
}
