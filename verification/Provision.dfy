/**
 * Composing, recording, tagging and deploying the LXD VM of one workload Machine
 * (pkg/maas/machine/machine.go: createVMViaMAAS, PrepareLXDVM, tagCPVM, tagVMIfMaintenanceActive).
 */
module Provision {
  import opened Base
  import opened Inventory
  import opened State
  import opened HmcSession
  import Vec
  import ProviderIds
  import Selector
  import Tags

  /**
   * The outcomes of the remote calls of one attempt. crash: the VM was composed but nothing after that
   * happened (the process died or the answer was lost). namesake: the machine the hostname lookup returns.
   */
  datatype Calls = Calls(
    getOk: bool,
    renameOk: bool,
    deployOk: bool,
    zone: string,
    hosts: Option<seq<Selector.VmHost>>,
    machines: Option<seq<Node>>,
    view: Nodes,
    composeOk: bool,
    newId: string,
    crash: bool,
    namesake: Option<string>,
    patchOk: bool,
    cpTagOk: bool,
    clusterTagOk: bool,
    listSessionsOk: bool,
    firstActive: string,
    retagCpOk: bool,
    retagClusterOk: bool,
    updateSessionOk: bool)

  /** composed: a new VM came into being, and was not found on record or by hostname; offered: to that session. */
  datatype Event = Nothing | Provisioned(uid: string, vm: string, composed: bool, offered: Option<string>)

  predicate SameHostname(a: string, b: string) { Tags.Lower(a) == Tags.Lower(b) }

  predicate HostnameTaken(nodes: Nodes, name: string) { exists id :: id in nodes && nodes[id].hostname == name }

  function DeployName(m: Machine): string { "vm-" + m.name }

  // ----- the pieces -----

  /** SetSystemID and SetProviderID, as far as the patch goes through. */
  function Record(w: World, uid: string, id: string, zone: string, patchOk: bool): World
    requires uid in w.machines
  {
    if patchOk then
      w.(machines :=
        w.machines[uid := w.machines[uid].(systemID := Some(id), providerID := Some(ProviderIds.Print(zone, id)))])
    else w
  }

  function TagVm(nodes: Nodes, id: string, clusterId: string, cpOk: bool, clusterOk: bool): Nodes {
    if id == "" || clusterId == "" then nodes
    else
      var n1 := if cpOk then Assign(nodes, id, Tags.VM_CONTROL_PLANE) else nodes;
      if clusterOk then Assign(n1, id, Tags.ClusterTag(clusterId)) else n1
  }

  /** The session an unfinished evacuation offers the new VM to: whichever Active one the list yields first. */
  function OfferedTo(w: World, id: string, c: Calls): Option<string> {
    if id == "" || !c.listSessionsOk || c.firstActive !in Vec.ActiveOps(w.sessions) then None else Some(c.firstActive)
  }

  /** tagCPVM followed by tagVMIfMaintenanceActive. */
  function TagControlPlane(w: World, id: string, clusterId: string, c: Calls): World {
    var w1 := w.(nodes := TagVm(w.nodes, id, clusterId, c.cpTagOk, c.clusterTagOk));
    match OfferedTo(w1, id, c)
    case None => w1
    case Some(op) =>
      var w2 := w1.(nodes := TagVm(w1.nodes, id, clusterId, c.retagCpOk, c.retagClusterOk));
      if c.updateSessionOk then w2.(sessions := w2.sessions[op := w2.sessions[op].(newVm := id)]) else w2
  }

  function Offer(w: World, m: Machine, id: string, c: Calls): Option<string> {
    if m.controlPlane && c.updateSessionOk then OfferedTo(w, id, c) else None
  }

  function Finish(w: World, uid: string, id: string, zone: string, c: Calls): World
    requires uid in w.machines
  {
    var recorded := Record(w, uid, id, zone, c.patchOk);
    if w.machines[uid].controlPlane then TagControlPlane(recorded, id, w.machines[uid].placement.clusterId, c)
      else recorded
  }

  /** A VM is on record: give it its final hostname if MAAS lets us, deploy it, record and tag it again. */
  function DeployExisting(w: World, uid: string, c: Calls): (World, Event)
    requires uid in w.machines
  {
    var m := w.machines[uid];
    var id := ProviderIds.InstanceId(m.providerID);
    if !c.getOk || id !in w.nodes then (w, Nothing)
    else
      var renamed := if c.renameOk && !HostnameTaken(w.nodes, DeployName(m))
                     then w.(nodes := w.nodes[id := w.nodes[id].(hostname := DeployName(m))]) else w;
      if !c.deployOk then (renamed, Nothing)
      else
        (Finish(renamed, uid, id, if c.zone != "" then c.zone else m.placement.zone, c),
         Provisioned(uid, id, false, Offer(w, m, id, c)))
  }

  function NewVm(host: Selector.VmHost, m: Machine): Node {
    Node(host.hostSystemId, m.vmName, "lxd", "off", "Commissioning", Text(host.zone), Text(host.pool), [])
  }

  /** PrepareLXDVM once no ID is on record, for the host the selector picked. */
  function Compose(w: World, uid: string, c: Calls, pick: Option<Selector.VmHost>): (World, Event)
    requires uid in w.machines
  {
    var m := w.machines[uid];
    if c.hosts.None? || pick.None? || pick.value.zone.None? || pick.value.pool.None? then (w, Nothing)
    else if HostnameTaken(w.nodes, m.vmName) then
      // MAAS refuses the duplicate hostname; adopt the machine that has it, without tagging.
      if c.namesake.Some? && c.namesake.value in w.nodes
        && SameHostname(w.nodes[c.namesake.value].hostname, m.vmName) then
        (Record(w, uid, c.namesake.value, m.placement.zone, c.patchOk), Provisioned(uid, c.namesake.value, false, None))
      else (w, Nothing)
    else if !c.composeOk then (w, Nothing)
    else
      var w1 := w.(nodes := w.nodes[c.newId := NewVm(pick.value, m)]);
      if c.crash then (w1, Provisioned(uid, c.newId, true, None))
      else (Finish(w1, uid, c.newId, m.placement.zone, c), Provisioned(uid, c.newId, true, Offer(w1, m, c.newId, c)))
  }

  /** One attempt for one Machine. */
  function Step(w: World, uid: string, c: Calls, pick: Option<Selector.VmHost>): (World, Event)
    requires uid in w.machines
  {
    var m := w.machines[uid];
    if ProviderIds.InstanceId(m.providerID) != "" then DeployExisting(w, uid, c)
    else if Text(m.systemID) != "" then (w, Nothing)
    else Compose(w, uid, c, pick)
  }

  /** What MAAS and the API server guarantee: reads are current, new IDs are new and can stand in a providerID. */
  ghost predicate Consistent(w: World, uid: string, c: Calls) {
    && uid in w.machines && !w.machines[uid].infraDeleting
    && (forall id :: id in c.view ==> id in w.nodes && c.view[id] == w.nodes[id])
    && c.newId !in w.nodes && c.newId != "" && '/' !in c.newId && '\n' !in c.newId
    && (Vec.ActiveOps(w.sessions) != {} ==> c.firstActive in Vec.ActiveOps(w.sessions))
  }

  /** The selector's result for this attempt. */
  ghost predicate Picks(w: World, uid: string, c: Calls, pick: Option<Selector.VmHost>)
    requires uid in w.machines
  {
    c.hosts.Some? ==> Selector.IsSelection(pick, c.hosts.value, w.machines[uid].placement, c.machines, c.view)
  }

  // ----- the service itself -----

  method ApplyVmTags(st: Store, id: string, tags: seq<string>, oks: seq<bool>)
    requires |oks| == |tags|
    modifies st`nodes
    ensures st.nodes == AssignEach(old(st.nodes), id, tags, oks)
  {
    ghost var nodes := st.nodes;
    if id == "" || |tags| == 0 {
      assert AssignEach(nodes, id, tags, oks) == nodes;
      return;
    }
    for i := 0 to |tags|
      invariant st.nodes == AssignEach(nodes, id, tags[..i], oks[..i])
    {
      assert tags[..i + 1][..i] == tags[..i] && oks[..i + 1][..i] == oks[..i];
      if tags[i] == "" {
        continue;
      }
      var _ := AddTagTo(st, id, tags[i], oks[i]);
    }
    assert tags[..|tags|] == tags && oks[..|oks|] == oks;
  }

  function AssignEach(nodes: Nodes, id: string, tags: seq<string>, oks: seq<bool>): Nodes
    requires |oks| == |tags|
    decreases |tags|
  {
    if id == "" || tags == [] then nodes
    else
      var n := |tags| - 1;
      var before := AssignEach(nodes, id, tags[..n], oks[..n]);
      if tags[n] != "" && oks[n] then Assign(before, id, tags[n]) else before
  }

  lemma TwoTags(nodes: Nodes, id: string, clusterId: string, cpOk: bool, clusterOk: bool)
    requires clusterId != ""
    ensures AssignEach(nodes, id, [Tags.VM_CONTROL_PLANE, Tags.ClusterTag(clusterId)], [cpOk, clusterOk])
            == TagVm(nodes, id, clusterId, cpOk, clusterOk)
  {
    var tags, oks := [Tags.VM_CONTROL_PLANE, Tags.ClusterTag(clusterId)], [cpOk, clusterOk];
    assert tags[..1] == [tags[0]] && oks[..1] == [cpOk] && tags[..1][..0] == [];
    assert oks[..1][..0] == [] && |tags[0]| > 0 && |tags[1]| > 0;
    var first := AssignEach(nodes, id, tags[..1], oks[..1]);
    assert id != "" ==> AssignEach(nodes, id, tags[..1][..0], oks[..1][..0]) == nodes;
    assert id != "" ==> first == if cpOk then Assign(nodes, id, tags[0]) else nodes;
    assert id != "" ==> AssignEach(nodes, id, tags, oks) == if clusterOk then Assign(first, id, tags[1]) else first;
  }

  method TagCpVm(st: Store, id: string, clusterId: string, cpOk: bool, clusterOk: bool)
    modifies st`nodes
    ensures st.nodes == TagVm(old(st.nodes), id, clusterId, cpOk, clusterOk)
  {
    if id == "" {
      return;
    }
    if clusterId == "" {
      return;
    }
    TwoTags(st.nodes, id, clusterId, cpOk, clusterOk);
    ApplyVmTags(st, id, [Tags.VM_CONTROL_PLANE, Tags.ClusterTag(clusterId)], [cpOk, clusterOk]);
  }

  method TagVmIfMaintenanceActive(st: Store, id: string, clusterId: string, c: Calls)
    modifies st`nodes, st`sessions
    ensures var w := old(st.Snapshot());
      st.Snapshot() == match OfferedTo(w, id, c)
                       case None => w
                       case Some(op) =>
                         var w2 := w.(nodes := TagVm(w.nodes, id, clusterId, c.retagCpOk, c.retagClusterOk));
                         if c.updateSessionOk then w2.(sessions := w2.sessions[op := w2.sessions[op].(newVm := id)])
                           else w2
  {
    if id == "" || !c.listSessionsOk || c.firstActive !in Vec.ActiveOps(st.sessions) {
      return;
    }
    if clusterId != "" {
      TagCpVm(st, id, clusterId, c.retagCpOk, c.retagClusterOk);
    }
    if c.updateSessionOk {
      st.sessions := st.sessions[c.firstActive := st.sessions[c.firstActive].(newVm := id)];
    }
  }

  method RecordAndTag(st: Store, uid: string, id: string, zone: string, c: Calls)
    requires uid in st.machines
    modifies st`machines, st`nodes, st`sessions
    ensures st.Snapshot() == Finish(old(st.Snapshot()), uid, id, zone, c)
  {
    if c.patchOk {
      st.machines :=
        st.machines[uid := st.machines[uid].(systemID := Some(id), providerID := Some(ProviderIds.Print(zone, id)))];
    }
    if st.machines[uid].controlPlane {
      TagCpVm(st, id, st.machines[uid].placement.clusterId, c.cpTagOk, c.clusterTagOk);
      TagVmIfMaintenanceActive(st, id, st.machines[uid].placement.clusterId, c);
    }
  }

  method PrepareLxdVm(st: Store, uid: string, c: Calls) returns (pick: Option<Selector.VmHost>, e: Event)
    requires uid in st.machines
    modifies st`machines, st`nodes, st`sessions
    ensures Picks(old(st.Snapshot()), uid, c, pick)
    ensures st.Snapshot() == Compose(old(st.Snapshot()), uid, c, pick).0
      && e == Compose(old(st.Snapshot()), uid, c, pick).1
  {
    pick, e := None, Nothing;
    if c.hosts.None? {
      return;
    }
    var m := st.machines[uid];
    pick := Selector.SelectHost(c.hosts.value, m.placement, c.machines, c.view);
    if pick.None? {
      return;
    }
    if pick.value.zone.None? || pick.value.pool.None? {
      return;
    }
    if HostnameTaken(st.nodes, m.vmName) {
      if c.namesake.Some? && c.namesake.value in st.nodes
        && SameHostname(st.nodes[c.namesake.value].hostname, m.vmName) {
        if c.patchOk {
          st.machines :=
            st.machines[uid :=
              m.(systemID := c.namesake, providerID := Some(ProviderIds.Print(m.placement.zone, c.namesake.value)))];
        }
        e := Provisioned(uid, c.namesake.value, false, None);
      }
      return;
    }
    if !c.composeOk {
      return;
    }
    st.nodes := st.nodes[c.newId := NewVm(pick.value, m)];
    if c.crash {
      e := Provisioned(uid, c.newId, true, None);
      return;
    }
    e := Provisioned(uid, c.newId, true, Offer(st.Snapshot(), m, c.newId, c));
    RecordAndTag(st, uid, c.newId, m.placement.zone, c);
  }

  method DeployRecordedVm(st: Store, uid: string, c: Calls) returns (e: Event)
    requires uid in st.machines
    modifies st`machines, st`nodes, st`sessions
    ensures st.Snapshot() == DeployExisting(old(st.Snapshot()), uid, c).0
      && e == DeployExisting(old(st.Snapshot()), uid, c).1
  {
    var m := st.machines[uid];
    var id := ProviderIds.InstanceId(m.providerID);
    if !c.getOk || id !in st.nodes {
      return Nothing;
    }
    var offered := Offer(st.Snapshot(), m, id, c);
    if c.renameOk && !HostnameTaken(st.nodes, DeployName(m)) {
      st.nodes := st.nodes[id := st.nodes[id].(hostname := DeployName(m))];
    }
    if !c.deployOk {
      return Nothing;
    }
    var zone := c.zone;
    if zone == "" {
      zone := m.placement.zone;
    }
    RecordAndTag(st, uid, id, zone, c);
    return Provisioned(uid, id, false, offered);
  }

  method CreateVmViaMaas(st: Store, uid: string, c: Calls) returns (pick: Option<Selector.VmHost>, e: Event)
    requires Consistent(st.Snapshot(), uid, c)
    modifies st`machines, st`nodes, st`sessions
    ensures (ProviderIds.InstanceId(old(st.machines[uid].providerID)) == ""
             && Text(old(st.machines[uid].systemID)) == "") ==>
      Picks(old(st.Snapshot()), uid, c, pick)
    ensures st.Snapshot() == Step(old(st.Snapshot()), uid, c, pick).0 && e == Step(old(st.Snapshot()), uid, c, pick).1
  {
    pick := None;
    var m := st.machines[uid];
    if ProviderIds.InstanceId(m.providerID) != "" {
      e := DeployRecordedVm(st, uid, c);
      return;
    }
    if Text(m.systemID) != "" {
      return None, Nothing;
    }
    pick, e := PrepareLxdVm(st, uid, c);
  }
}
