/**
 * Exactly-once composition: whatever crashes, lost answers and failed patches happen on the way, a Machine
 * never has two VMs at the same time, and the ID on its record is the ID of its own VM.
 */
module Ownership {
  import opened Base
  import opened Inventory
  import opened State
  import opened Protocol
  import Allocation
  import Effects
  import Frames
  import Gates
  import Provision
  import ProviderIds
  import Quorum
  import Tags
  import Vec

  // ----- hostnames -----

  lemma OwnNames(m: Machine)
    ensures Owns(NamesOf(m), m.vmName) && Owns(NamesOf(m), Provision.DeployName(m))
    ensures forall x :: Provision.SameHostname(x, m.vmName) ==> Owns(NamesOf(m), x)
  {
  }

  predicate SameIdentity(a: Machine, b: Machine) {
    a.vmName == b.vmName && a.name == b.name && a.placement == b.placement && a.controlPlane == b.controlPlane
  }

  lemma SameIdentitySameNames(a: Machine, b: Machine)
    requires SameIdentity(a, b)
    ensures NamesOf(a) == NamesOf(b)
  {
    hide Tags.Lower;
  }

  // ----- the invariant -----

  predicate GoodId(id: string) { id != "" && '/' !in id && '\n' !in id }

  /** Every Machine there ever was has hostnames of its own. */
  ghost predicate Named(machines: map<string, Machine>, h: History) {
    && machines.Keys <= h.uids && h.names.Keys == h.uids
    && Quorum.ZonesFine(machines)
    && (forall u :: u in machines ==> h.names[u] == NamesOf(machines[u]))
    && (forall u, v, x :: u in h.names && v in h.names && u != v && Owns(h.names[u], x) ==> !Owns(h.names[v], x))
  }

  /** A live VM was composed for the Machine that owns its hostname, and for a Machine at most one is alive. */
  ghost predicate Hosted(nodes: Nodes, h: History) {
    && h.names.Keys == h.uids
    && (forall id :: id in h.composed ==> GoodId(id) && h.composed[id] in h.uids)
    && (forall id, u :: id in nodes && u in h.names && Owns(h.names[u], nodes[id].hostname) ==>
      id in h.composed && h.composed[id] == u)
    && (forall id :: id in nodes && id in h.composed ==>
          nodes[id].powerType == "lxd" && Owns(h.names[h.composed[id]], nodes[id].hostname))
    && (forall i, j ::
          i in nodes && j in nodes && i in h.composed && j in h.composed && h.composed[i] == h.composed[j] ==> i == j)
  }

  /** The IDs on a Machine's record are unset, or name a VM composed for that Machine, by every parser. */
  ghost predicate RecordRight(m: Machine, uid: string, composed: map<string, string>) {
    || (m.providerID == None && m.systemID == None)
    || (&& m.systemID.Some? && m.systemID.value in composed && composed[m.systemID.value] == uid
        && m.systemID.value != ""
        && ProviderIds.InstanceId(m.providerID) == m.systemID.value == ProviderIds.ExtractSystemID(Text(m.providerID)))
  }

  /** As long as nothing is on record, the VM of a Machine still has the hostname it was composed under. */
  ghost predicate Findable(m: Machine, uid: string, nodes: Nodes, composed: map<string, string>) {
    m.providerID == None ==>
      forall id :: id in nodes && id in composed && composed[id] == uid ==> nodes[id].hostname == m.vmName
  }

  ghost predicate Tracked(nodes: Nodes, machines: map<string, Machine>, h: History) {
    forall u :: u in machines ==> RecordRight(machines[u], u, h.composed) && Findable(machines[u], u, nodes, h.composed)
  }

  ghost predicate Owned(nodes: Nodes, machines: map<string, Machine>, h: History) {
    Named(machines, h) && Hosted(nodes, h) && Tracked(nodes, machines, h)
  }

  ghost predicate Inv(s: Sys) { Owned(s.w.nodes, s.w.machines, s.h) }

  // ----- steps that move nothing the invariant is about -----

  ghost predicate SameVms(a: Nodes, b: Nodes) {
    b.Keys <= a.Keys && forall id :: id in b ==> b[id].hostname == a[id].hostname && b[id].powerType == a[id].powerType
  }

  ghost predicate SameRecords(a: map<string, Machine>, b: map<string, Machine>) {
    b.Keys <= a.Keys
    && forall u :: u in b ==>
      SameIdentity(a[u], b[u]) && b[u].providerID == a[u].providerID && b[u].systemID == a[u].systemID
  }

  ghost predicate SameOwners(a: History, b: History)
  {
    b.uids == a.uids && b.names == a.names && b.composed == a.composed
  }

  lemma QuietKeepsOwned(n: Nodes, n': Nodes, m: map<string, Machine>, m': map<string, Machine>, h: History, h': History)
    requires Owned(n, m, h) && SameVms(n, n') && SameRecords(m, m') && SameOwners(h, h')
    ensures Owned(n', m', h')
  {
    hide NamesOf, Owns, RecordRight, GoodId;
    forall u | u in m' ensures NamesOf(m'[u]) == NamesOf(m[u]) {
      SameIdentitySameNames(m[u], m'[u]);
    }
    forall u | u in m' ensures RecordRight(m'[u], u, h'.composed) {
      RecordRightSame(m[u], m'[u], u, h.composed);
    }
  }

  lemma RecordRightSame(a: Machine, b: Machine, uid: string, composed: map<string, string>)
    requires RecordRight(a, uid, composed) && a.providerID == b.providerID && a.systemID == b.systemID
    ensures RecordRight(b, uid, composed)
  {
    hide ProviderIds.InstanceId, ProviderIds.ExtractSystemID;
  }

  // ----- provisioning -----

  lemma PrintedIds(zone: string, id: string)
    requires GoodId(id) && '\n' !in zone
    ensures var p := Some(ProviderIds.Print(zone, id));
      ProviderIds.InstanceId(p) == id == ProviderIds.ExtractSystemID(Text(p))
  {
    Allocation.PrintedId(zone, id);
    ProviderIds.RoundTrip(zone, id);
  }

  /** Writing down the ID of a VM that was composed for the Machine is always right. */
  lemma RecordKeepsOwned(n: Nodes, m: map<string, Machine>, m': map<string, Machine>, h: History, uid: string,
    id: string)
    requires Owned(n, m, h) && uid in m && id in h.composed && h.composed[id] == uid
    requires Effects.Recorded(m, m', uid, id)
    ensures Owned(n, m', h)
  {
    hide NamesOf, Owns, ProviderIds.InstanceId, ProviderIds.ExtractSystemID, ProviderIds.Print;
    if m' != m {
      var zone :| '\n' !in zone
        && m' == m[uid := m[uid].(systemID := Some(id), providerID := Some(ProviderIds.Print(zone, id)))];
      PrintedIds(zone, id);
      SameIdentitySameNames(m[uid], m'[uid]);
    }
  }

  lemma NewHostname(n: Nodes, h: History, uid: string, id: string, hostname: string)
    requires Hosted(n, h) && uid in h.names && id in n && id in h.composed && h.composed[id] == uid
    requires Owns(h.names[uid], hostname)
    requires forall v :: v in h.names && v != uid ==> !Owns(h.names[v], hostname)
    ensures Hosted(n[id := n[id].(hostname := hostname)], h)
  {
    hide Owns, GoodId;
  }

  /** Renaming is for Machines with a record, so it never hides a VM that still has to be found by hostname. */
  lemma RenameKeepsOwned(w: World, h: History, uid: string, raw: Nodes)
    requires uid in w.machines && Owned(w.nodes, w.machines, h) && Effects.MayRename(w, uid, raw)
    ensures Owned(raw, w.machines, h)
  {
    hide NamesOf, Owns, ProviderIds.InstanceId, ProviderIds.ExtractSystemID, Provision.HostnameTaken,
      Provision.DeployName, Hosted;
    var m := w.machines[uid];
    if raw != w.nodes {
      OwnNames(m);
      NothingRecorded(m, uid, h.composed);
      var id := ProviderIds.InstanceId(m.providerID);
      assert id in h.composed && h.composed[id] == uid;
      assert Named(w.machines, h);
      NewHostname(w.nodes, h, uid, id, Provision.DeployName(m));
    }
  }

  lemma NothingRecorded(m: Machine, uid: string, composed: map<string, string>)
    requires RecordRight(m, uid, composed)
    ensures ProviderIds.InstanceId(m.providerID) == "" <==> m.providerID == None
  {
    hide ProviderIds.InstanceId, ProviderIds.ExtractSystemID;
    ProviderIds.NoProviderIdNoInstance(m.providerID);
    assert Text(None) == "";
    if m.systemID.Some? {
      ProviderIds.NoProviderIdNoInstance(None);
    }
  }

  lemma NewVmHosted(n: Nodes, h: History, uid: string, id: string, vm: Node)
    requires Hosted(n, h) && uid in h.names && GoodId(id) && id !in n && id !in h.composed
    requires vm.powerType == "lxd" && Owns(h.names[uid], vm.hostname)
    requires forall v :: v in h.names && v != uid ==> !Owns(h.names[v], vm.hostname)
    requires forall x :: x in n && x in h.composed ==> h.composed[x] != uid
    ensures Hosted(n[id := vm], h.(composed := h.composed[id := uid]))
  {
    hide Owns, GoodId;
  }

  lemma NewVmTracked(n: Nodes, m: map<string, Machine>, h: History, uid: string, id: string, vm: Node)
    requires Tracked(n, m, h) && uid in m && m[uid].providerID == None && id !in h.composed
    requires vm.hostname == m[uid].vmName
    ensures Tracked(n[id := vm], m, h.(composed := h.composed[id := uid]))
  {
    hide ProviderIds.InstanceId, ProviderIds.ExtractSystemID;
  }

  /** A new VM for a Machine without a record, when nothing has its hostname: it had no live VM before. */
  lemma ComposeKeepsOwned(n: Nodes, m: map<string, Machine>, h: History, uid: string, id: string, vm: Node)
    requires Owned(n, m, h) && uid in m && m[uid].providerID == None
    requires !Provision.HostnameTaken(n, m[uid].vmName)
    requires GoodId(id) && id !in n && id !in h.composed
    requires vm.hostname == m[uid].vmName && vm.powerType == "lxd"
    ensures Owned(n[id := vm], m, h.(composed := h.composed[id := uid]))
    ensures forall x :: x in n && x in h.composed ==> h.composed[x] != uid
  {
    hide NamesOf, Owns, ProviderIds.InstanceId, ProviderIds.ExtractSystemID, GoodId, Hosted;
    OwnNames(m[uid]);
    assert h.names[uid] == NamesOf(m[uid]);
    assert forall x :: x in n && x in h.composed && h.composed[x] == uid ==> n[x].hostname == m[uid].vmName;
    NewVmHosted(n, h, uid, id, vm);
    NewVmTracked(n, m, h, uid, id, vm);
  }

  lemma AdoptedIsOwn(n: Nodes, m: map<string, Machine>, h: History, uid: string, id: string)
    requires Owned(n, m, h) && uid in m && id in n && Provision.SameHostname(n[id].hostname, m[uid].vmName)
    ensures id in h.composed && h.composed[id] == uid
  {
    hide NamesOf, Owns, ProviderIds.InstanceId, ProviderIds.ExtractSystemID, Provision.SameHostname;
    OwnNames(m[uid]);
    assert h.names[uid] == NamesOf(m[uid]);
  }

  lemma RecordedIsOwn(n: Nodes, m: map<string, Machine>, h: History, uid: string)
    requires Owned(n, m, h) && uid in m && ProviderIds.InstanceId(m[uid].providerID) != ""
    ensures var id := ProviderIds.InstanceId(m[uid].providerID); id in h.composed && h.composed[id] == uid
  {
    hide NamesOf, Owns, ProviderIds.InstanceId, ProviderIds.ExtractSystemID, Hosted, Findable;
    NothingRecorded(m[uid], uid, h.composed);
  }

  lemma TaggingIsQuiet(a: Nodes, b: Nodes, clusterId: string)
    requires Effects.Tagged(a, b, clusterId)
    ensures SameVms(a, b)
  {
    hide Tags.ClusterTag, Tags.VM_CONTROL_PLANE;
    forall id | id in b ensures b[id].hostname == a[id].hostname && b[id].powerType == a[id].powerType {
      assert Effects.TaggedNode(a[id], b[id], clusterId);
    }
  }

  lemma NothingIsQuiet(n: Nodes, m: map<string, Machine>)
    ensures SameVms(n, n) && SameRecords(m, m)
  {
  }

  /** From the inventory before tagging and the IDs of the VM in hand to the end of the attempt. */
  lemma AttemptEnds(raw: Nodes, m: map<string, Machine>, h: History, t: Sys, uid: string, id: string)
    requires Owned(raw, m, h) && uid in m && id in h.composed && h.composed[id] == uid
    requires Effects.Recorded(m, t.w.machines, uid, id) && Effects.Tagged(raw, t.w.nodes, m[uid].placement.clusterId)
    requires SameOwners(h, t.h)
    ensures Inv(t)
  {
    hide Owned, Effects.Recorded, Effects.Tagged, SameVms, SameRecords;
    RecordKeepsOwned(raw, m, t.w.machines, h, uid, id);
    TaggingIsQuiet(raw, t.w.nodes, m[uid].placement.clusterId);
    NothingIsQuiet(raw, t.w.machines);
    QuietKeepsOwned(raw, t.w.nodes, t.w.machines, t.w.machines, h, t.h);
  }

  lemma ProvisioningKeepsInv(s: Sys, a: Action, t: Sys, e: Event)
    requires Leads(s, a, t, e) && a.ProvisionVm? && Inv(s)
    ensures Inv(t)
  {
    hide Leads, Owned, Provision.Picks, ProviderIds.InstanceId, Effects.Recorded, Effects.Tagged, Effects.FullyTagged,
      SameVms, SameRecords;
    hide Effects.MayRename, Provision.SameHostname, Provision.HostnameTaken;
    assert Quorum.ZonesFine(s.w.machines) by { OwnedZones(s); }
    var raw := Frames.ProvisionKeeps(s, a, t, e);
    var uid, m := a.uid, s.w.machines;
    match e.p
    case Nothing =>
      RenameKeepsOwned(s.w, s.h, uid, raw);
      NothingIsQuiet(raw, m);
      QuietKeepsOwned(raw, raw, m, m, s.h, t.h);
    case Provisioned(_, vm, composed, _) =>
      if composed {
        UnsetMeansNone(s, uid);
        ComposeKeepsOwned(s.w.nodes, m, s.h, uid, vm, Provision.NewVm(a.pick.value, m[uid]));
        AttemptEnds(raw, m, s.h.(composed := s.h.composed[vm := uid]), t, uid, vm);
      } else if ProviderIds.InstanceId(m[uid].providerID) != "" {
        RenameKeepsOwned(s.w, s.h, uid, raw);
        RecordedIsOwn(s.w.nodes, m, s.h, uid);
        AttemptEnds(raw, m, s.h, t, uid, vm);
      } else {
        AdoptedIsOwn(s.w.nodes, m, s.h, uid, vm);
        AttemptEnds(raw, m, s.h, t, uid, vm);
      }
  }

  lemma OwnedZones(s: Sys)
    requires Inv(s)
    ensures Quorum.ZonesFine(s.w.machines)
  {
    hide NamesOf, Owns, Hosted, Tracked;
  }

  lemma UnsetMeansNone(s: Sys, uid: string)
    requires Inv(s) && uid in s.w.machines && ProviderIds.InstanceId(s.w.machines[uid].providerID) == ""
    ensures s.w.machines[uid].providerID == None
  {
    hide NamesOf, Owns, Hosted, Named, ProviderIds.InstanceId, ProviderIds.ExtractSystemID, Findable;
    NothingRecorded(s.w.machines[uid], uid, s.h.composed);
  }

  // ----- the other steps -----

  lemma NewMachineNamed(m: map<string, Machine>, h: History, h': History, uid: string, added: Machine)
    requires Named(m, h) && uid !in h.uids && '\n' !in added.placement.zone
    requires forall u, x :: u in h.names && Owns(NamesOf(added), x) ==> !Owns(h.names[u], x)
    requires h' == h.(uids := h.uids + {uid}, names := h.names[uid := NamesOf(added)])
    ensures Named(m[uid := added], h')
  {
    hide NamesOf, Owns;
  }

  lemma NewMachineHosted(n: Nodes, h: History, h': History, uid: string, names: Names)
    requires Hosted(n, h) && uid !in h.uids
    requires forall id :: id in n ==> !Owns(names, n[id].hostname)
    requires h' == h.(uids := h.uids + {uid}, names := h.names[uid := names])
    ensures Hosted(n, h')
  {
    hide Owns, GoodId;
  }

  lemma NewMachineTracked(n: Nodes, m: map<string, Machine>, h: History, uid: string, added: Machine)
    requires Tracked(n, m, h) && Hosted(n, h) && uid !in h.uids && added.providerID == None && added.systemID == None
    ensures Tracked(n, m[uid := added], h)
  {
    hide Owns, GoodId, ProviderIds.InstanceId, ProviderIds.ExtractSystemID;
    assert RecordRight(added, uid, h.composed);
    assert forall id :: id in h.composed ==> h.composed[id] != uid;
  }

  lemma CreationKeepsInv(s: Sys, a: Action, t: Sys, e: Event)
    requires Leads(s, a, t, e) && a.MachineCreated? && Inv(s)
    ensures Inv(t)
  {
    hide NamesOf, Owns, Named, Hosted, Tracked;
    NewMachineNamed(s.w.machines, s.h, t.h, a.uid, a.machine);
    NewMachineHosted(s.w.nodes, s.h, t.h, a.uid, NamesOf(a.machine));
    NewMachineTracked(s.w.nodes, s.w.machines, s.h, a.uid, a.machine);
    assert Tracked(t.w.nodes, t.w.machines, t.h) by {
      TrackedByComposed(t.w.nodes, t.w.machines, s.h, t.h);
    }
  }

  lemma TrackedByComposed(n: Nodes, m: map<string, Machine>, h: History, h': History)
    requires Tracked(n, m, h) && h'.composed == h.composed
    ensures Tracked(n, m, h')
  {
    hide RecordRight, Findable;
  }

  lemma ForeignNodeOwned(n: Nodes, m: map<string, Machine>, h: History, id: string, node: Node)
    requires Owned(n, m, h) && id !in n && id !in h.composed
    requires forall u :: u in h.names ==> !Owns(h.names[u], node.hostname)
    ensures Owned(n[id := node], m, h)
  {
    hide Owns, NamesOf, GoodId, RecordRight;
  }

  lemma AppearingKeepsInv(s: Sys, a: Action, t: Sys, e: Event)
    requires Leads(s, a, t, e) && a.NodeAppears? && Inv(s)
    ensures Inv(t)
  {
    hide NamesOf, Owns, Owned, Gates.HasReadyTag;
    ForeignNodeOwned(s.w.nodes, s.w.machines, s.h, a.id, a.node);
  }

  lemma EnvironmentIsQuiet(s: Sys, a: Action, t: Sys, e: Event)
    requires Leads(s, a, t, e) && Frames.Environment(a) && !a.NodeAppears? && !a.MachineCreated?
    ensures SameRecords(s.w.machines, t.w.machines) && SameOwners(s.h, t.h)
  {
    hide Permitted;
  }

  lemma VecIsQuiet(s: Sys, a: Action, t: Sys, e: Event)
    requires Leads(s, a, t, e) && a.VecReconcile?
    ensures SameVms(s.w.nodes, t.w.nodes) && SameRecords(s.w.machines, t.w.machines) && SameOwners(s.h, t.h)
  {
    hide Leads, Vec.Step;
    Frames.VecKeeps(s, a, t, e);
    Frames.VecNodes(s, a, t, e);
    Effects.VecMachines(s.w, a.vec);
  }

  lemma KeptIsQuiet(a: Nodes, b: Nodes)
    requires Frames.Kept(a, b)
    ensures SameVms(a, b)
  {
    hide Frames.KeptTags;
  }

  lemma StepKeepsInv(s: Sys, a: Action, t: Sys, e: Event)
    requires Leads(s, a, t, e) && Inv(s)
    ensures Inv(t)
  {
    hide Leads, Inv, Frames.Kept;
    if a.ProvisionVm? {
      ProvisioningKeepsInv(s, a, t, e);
    } else if a.MachineCreated? {
      CreationKeepsInv(s, a, t, e);
    } else if a.NodeAppears? {
      AppearingKeepsInv(s, a, t, e);
    } else {
      QuietStep(s, a, t, e);
    }
  }

  lemma QuietStep(s: Sys, a: Action, t: Sys, e: Event)
    requires Leads(s, a, t, e) && !a.ProvisionVm? && !a.MachineCreated? && !a.NodeAppears?
    requires Inv(s)
    ensures Inv(t)
  {
    hide Leads, Owned, Frames.Kept, SameVms;
    if a.VecReconcile? {
      VecIsQuiet(s, a, t, e);
    } else {
      if Frames.HostSide(a) {
        Frames.HostSideKeeps(s, a, t, e);
        Frames.HostSideNodes(s, a, t, e);
      } else {
        EnvironmentIsQuiet(s, a, t, e);
        Frames.EnvironmentNodes(s, a, t, e);
      }
      KeptIsQuiet(s.w.nodes, t.w.nodes);
    }
    QuietKeepsOwned(s.w.nodes, t.w.nodes, s.w.machines, t.w.machines, s.h, t.h);
  }

  lemma {:induction false} Always(r: Run, i: nat)
    requires IsRun(r) && i < |r.states|
    ensures Inv(r.states[i])
  {
    hide Leads, Owns, NamesOf;
    if i > 0 {
      Always(r, i - 1);
      assert Inv(r.states[i]) by {
        hide Inv;
        StepKeepsInv(r.states[i - 1], r.actions[i - 1], r.states[i], r.events[i - 1]);
      }
    }
  }

  // ----- what it means -----

  /** Every VM ever composed for a Machine, alive or not. */
  ghost function ComposedFor(h: History, uid: string): set<string>
  {
    set id | id in h.composed && h.composed[id] == uid
  }

  ghost function LiveVms(s: Sys, uid: string): set<string> { ComposedFor(s.h, uid) * s.w.nodes.Keys }

  /**
   * In every reachable state each Machine has at most one live VM; as long as none of its VMs disappeared,
   * only one was ever composed.
   */
  lemma AtMostOneVm(r: Run, i: nat, uid: string)
    requires IsRun(r) && i < |r.states|
    ensures |LiveVms(r.states[i], uid)| <= 1
    ensures ComposedFor(r.states[i].h, uid) <= r.states[i].w.nodes.Keys ==> |ComposedFor(r.states[i].h, uid)| <= 1
  {
    hide IsRun, Owns, NamesOf, Named, Tracked;
    Always(r, i);
    var live := LiveVms(r.states[i], uid);
    if id :| id in live {
      assert live == {id};
    }
    if ComposedFor(r.states[i].h, uid) <= r.states[i].w.nodes.Keys {
      assert ComposedFor(r.states[i].h, uid) == live;
    }
  }

  /** A recorded ID is that of a VM composed for this very Machine, so no two Machines ever record the same one. */
  lemma RecordedVmIsOwn(r: Run, i: nat, uid: string)
    requires IsRun(r) && i < |r.states| && uid in r.states[i].w.machines
    requires var m := r.states[i].w.machines[uid]; m.providerID != None || m.systemID != None
    ensures var s, m := r.states[i], r.states[i].w.machines[uid];
      var id := ProviderIds.InstanceId(m.providerID);
      && id in ComposedFor(s.h, uid)
      && m.systemID == Some(id) && ProviderIds.ExtractSystemID(Text(m.providerID)) == id
      && (id in s.w.nodes ==> LiveVms(s, uid) == {id})
    ensures forall v :: v in r.states[i].w.machines && v != uid ==>
      ProviderIds.InstanceId(r.states[i].w.machines[v].providerID)
      != ProviderIds.InstanceId(r.states[i].w.machines[uid].providerID)
  {
    hide IsRun, Owns, NamesOf, Named, ProviderIds.InstanceId, ProviderIds.ExtractSystemID, Findable;
    Always(r, i);
    var s, m := r.states[i], r.states[i].w.machines[uid];
    var id := ProviderIds.InstanceId(m.providerID);
    assert RecordRight(m, uid, s.h.composed);
    if id in s.w.nodes {
      assert id in LiveVms(s, uid);
    }
    forall v | v in s.w.machines && v != uid ensures ProviderIds.InstanceId(s.w.machines[v].providerID) != id {
      assert RecordRight(s.w.machines[v], v, s.h.composed);
      NothingRecorded(s.w.machines[v], v, s.h.composed);
    }
  }
}
