/**
 * The MaasMachine controller on the bare-metal hosts of the host cluster
 * (controllers/maasmachine_controller.go: reconcileNormal, reconcileDelete, cleanupStaleTagsAfterDeployment).
 */
module HostMachines {
  import opened Base
  import opened Inventory
  import opened State
  import Allocation
  import ProviderIds
  import Tags

  /** How a release call ends: VmHostsFirst is the 400 that asks for the VM host to be removed first. */
  datatype ReleaseResult = Released | VmHostsFirst | ReleaseFailed

  datatype NormalCalls = NormalCalls(prerequisites: bool, alloc: Allocation.Calls, cleanup: bool,
    removable: set<string>)

  /** lookup is what GetMachine said: None an error, Some(false) a 404. */
  datatype DeleteCalls = DeleteCalls(
    lookup: Option<bool>,
    oldEnough: bool,
    dnsDetached: bool,
    release: ReleaseResult,
    guests: set<string>,
    unregisterOk: bool,
    retryOk: bool,
    closeOk: bool)

  /** A release call counts as such even when MAAS refuses it. */
  datatype Event = Quiet | FinalizerDropped(uid: string) | ReleaseCalled(uid: string, id: string)

  function IdsOf(h: Host): Allocation.Ids { Allocation.Ids(h.providerID, h.systemID) }

  // ----- reconcileNormal -----

  predicate IsStale(tag: string) {
    || Tags.IsMaintenanceTag(tag) || tag == Tags.VM_CONTROL_PLANE
    || Tags.HOST_OP_PREFIX <= tag || Tags.VM_CLUSTER_PREFIX <= tag || Tags.VM_READY_OP_PREFIX <= tag
  }

  /** Stale tags are removed one by one; a failing call does not stop the others. */
  function WithoutStale(tags: seq<string>, removable: set<string>): (r: seq<string>)
    ensures forall t :: t in r <==> t in tags && !(IsStale(t) && t in removable)
  {
    if tags == [] then []
    else
      var last := tags[|tags| - 1];
      WithoutStale(tags[..|tags| - 1], removable) + if IsStale(last) && last in removable then [] else [last]
  }

  function Cleanup(nodes: Nodes, id: string, c: NormalCalls): (r: Nodes)
    ensures r.Keys == nodes.Keys
    ensures forall x :: x in r && x != id ==> r[x] == nodes[x]
  {
    if c.cleanup && id in nodes && nodes[id].powerType != "lxd" then
      nodes[id := nodes[id].(tags := WithoutStale(nodes[id].tags, c.removable))]
    else nodes
  }

  function DeployedNow(h: Host, w: World, uid: string, c: NormalCalls): Option<string> {
    Allocation.Deployed(IdsOf(h), w.leases, uid, c.alloc)
  }

  function NormalStep(w: World, uid: string, c: NormalCalls): World
    requires uid in w.hosts
  {
    var h := w.hosts[uid];
    if !h.machineFinalizer then
      if c.alloc.closeOk then w.(hosts := w.hosts[uid := h.(machineFinalizer := true)]) else w
    else if Text(h.parent) == "" && c.alloc.lxdHost && !h.evacuationFinalizer then
      if c.alloc.closeOk then w.(hosts := w.hosts[uid := h.(evacuationFinalizer := true)]) else w
    else if !c.prerequisites then w
    else
      var (ids, leases) := Allocation.ReconcileResult(IdsOf(h), w.leases, uid, c.alloc);
      var deployed := DeployedNow(h, w, uid, c);
      w.(hosts := w.hosts[uid := h.(providerID := ids.providerID, systemID := ids.systemID)],
         leases := leases,
         nodes := if deployed.Some? && Text(h.parent) == "" then Cleanup(w.nodes, deployed.value, c) else w.nodes)
  }

  /** A tag goes from a machine exactly when it is stale, its removal succeeds, and the machine is no LXD VM. */
  lemma CleanupExactly(nodes: Nodes, id: string, c: NormalCalls, t: string)
    requires id in nodes
    ensures var after := Cleanup(nodes, id, c);
      && id in after && after[id] == nodes[id].(tags := after[id].tags)
      && (t in after[id].tags <==>
            && t in nodes[id].tags
            && !(c.cleanup && nodes[id].powerType != "lxd" && t in c.removable
                 && (t == Tags.HOST_MAINTENANCE || t == Tags.HOST_NO_SCHEDULE || t == Tags.VM_CONTROL_PLANE
                     || Tags.HOST_OP_PREFIX <= t || Tags.VM_CLUSTER_PREFIX <= t || Tags.VM_READY_OP_PREFIX <= t)))
  {
    hide WithoutStale, Tags.HOST_MAINTENANCE, Tags.HOST_NO_SCHEDULE, Tags.VM_CONTROL_PLANE;
    hide Tags.HOST_OP_PREFIX, Tags.VM_CLUSTER_PREFIX, Tags.VM_READY_OP_PREFIX;
  }

  /** Only bare metal of a host cluster has an evacuation finalizer to wait for. */
  predicate PastFinalizers(h: Host, lxdHost: bool) {
    h.machineFinalizer && (h.evacuationFinalizer || !lxdHost || (h.parent.Some? && h.parent.value != ""))
  }

  /** Past its finalizers a host gets the IDs and leases of Allocation, and nothing else of it changes. */
  lemma NormalDeploys(w: World, uid: string, c: NormalCalls)
    requires uid in w.hosts && PastFinalizers(w.hosts[uid], c.alloc.lxdHost) && c.prerequisites
    ensures var w' := NormalStep(w, uid, c);
      var (ids, leases) := Allocation.ReconcileResult(
        Allocation.Ids(w.hosts[uid].providerID, w.hosts[uid].systemID), w.leases, uid, c.alloc);
      && uid in w'.hosts && w'.leases == leases
      && w'.hosts[uid] == w.hosts[uid].(providerID := ids.providerID, systemID := ids.systemID)
      && (forall u :: u in w.hosts && u != uid ==> u in w'.hosts && w'.hosts[u] == w.hosts[u])
  {
    hide DeployedNow, Cleanup, Allocation.ReconcileResult;
  }

  /** Tags are cleaned up exactly on the machine the reconcile deploys, and only if the host is bare metal. */
  lemma CleansExactly(w: World, uid: string, c: NormalCalls, id: string)
    requires uid in w.hosts && PastFinalizers(w.hosts[uid], c.alloc.lxdHost) && c.prerequisites
    ensures var w' := NormalStep(w, uid, c);
      var deploys := Allocation.Deployed(
        Allocation.Ids(w.hosts[uid].providerID, w.hosts[uid].systemID), w.leases, uid, c.alloc) == Some(id);
      && (deploys ==> w'.nodes == if Text(w.hosts[uid].parent) == "" then Cleanup(w.nodes, id, c) else w.nodes)
      && (!deploys && id in w.nodes ==> id in w'.nodes && w'.nodes[id] == w.nodes[id])
  {
    hide Cleanup, Allocation.ReconcileResult, Allocation.Deployed;
  }

  /** Without the prerequisites, or before them, nothing is deployed. */
  lemma NormalWaits(w: World, uid: string, c: NormalCalls)
    requires uid in w.hosts
    requires !w.hosts[uid].machineFinalizer || !c.prerequisites
      || (Text(w.hosts[uid].parent) == "" && c.alloc.lxdHost && !w.hosts[uid].evacuationFinalizer)
    ensures var w' := NormalStep(w, uid, c);
      && w'.leases == w.leases && w'.nodes == w.nodes && uid in w'.hosts
      && w'.hosts[uid].providerID == w.hosts[uid].providerID && w'.hosts[uid].systemID == w.hosts[uid].systemID
  {
    hide DeployedNow, Cleanup, Allocation.ReconcileResult;
  }

  method CleanupStaleTags(st: Store, id: string, c: NormalCalls)
    modifies st`nodes
    ensures st.nodes == Cleanup(old(st.nodes), id, c)
  {
    if !c.cleanup || id !in st.nodes {
      return;
    }
    if st.nodes[id].powerType == "lxd" {
      return;
    }
    var kept := RemoveStale(st.nodes[id].tags, c.removable);
    st.nodes := st.nodes[id := st.nodes[id].(tags := kept)];
  }

  method RemoveStale(tags: seq<string>, removable: set<string>) returns (kept: seq<string>)
    ensures kept == WithoutStale(tags, removable)
  {
    kept := [];
    for i := 0 to |tags|
      invariant kept == WithoutStale(tags[..i], removable)
    {
      assert tags[..i + 1][..i] == tags[..i];
      if !(IsStale(tags[i]) && tags[i] in removable) {
        kept := kept + [tags[i]];
      }
    }
    assert tags[..|tags|] == tags;
  }

  method ReconcileNormal(st: Store, uid: string, c: NormalCalls)
    requires uid in st.hosts
    modifies st`hosts, st`leases, st`nodes
    ensures st.Snapshot() == NormalStep(old(st.Snapshot()), uid, c)
  {
    hide ProviderIds.InstanceId, ProviderIds.Print, IsStale;
    var h := st.hosts[uid];
    if !h.machineFinalizer {
      if c.alloc.closeOk {
        st.hosts := st.hosts[uid := h.(machineFinalizer := true)];
      }
      return;
    }
    if Text(h.parent) == "" && c.alloc.lxdHost && !h.evacuationFinalizer {
      if c.alloc.closeOk {
        st.hosts := st.hosts[uid := h.(evacuationFinalizer := true)];
      }
      return;
    }
    if !c.prerequisites {
      return;
    }
    var scope := new Allocation.MachineScope(uid, IdsOf(h), st.leases);
    var deployed := scope.Reconcile(c.alloc);
    st.hosts := st.hosts[uid := h.(providerID := scope.stored.providerID, systemID := scope.stored.systemID)];
    st.leases := scope.leases;
    if deployed.Some? && Text(h.parent) == "" {
      CleanupStaleTags(st, deployed.value, c);
    }
  }

  // ----- reconcileDelete -----

  /** forceDeleteGuestVMs: some of the VMs on the host go away. */
  function DropGuests(nodes: Nodes, host: string, guests: set<string>): Nodes {
    map id | id in nodes && !(id in guests && nodes[id].parent == host) :: nodes[id]
  }

  function Finalized(w: World, uid: string, closeOk: bool): World
    requires uid in w.hosts
  {
    if closeOk then w.(hosts := w.hosts[uid := w.hosts[uid].(machineFinalizer := false)]) else w
  }

  function ReleaseStep(w: World, uid: string, id: string, c: DeleteCalls): World
    requires uid in w.hosts
  {
    var called := w.(leases := Allocation.Release(w.leases, id));
    match c.release
    case Released => Finalized(called, uid, c.closeOk)
    case ReleaseFailed => called
    case VmHostsFirst =>
      var w1 := called.(nodes := DropGuests(w.nodes, id, c.guests));
      if c.unregisterOk && c.retryOk then Finalized(w1, uid, c.closeOk) else w1
  }

  function DeleteStep(w: World, uid: string, c: DeleteCalls): (World, Event)
    requires uid in w.hosts
  {
    var h := w.hosts[uid];
    var id := ProviderIds.InstanceId(h.providerID);
    if h.evacuationFinalizer then
      if Text(h.systemID) == "" && c.closeOk then
        (w.(hosts := w.hosts[uid := h.(evacuationFinalizer := false)]), FinalizerDropped(uid))
      else (w, Quiet)
    else if id != "" && c.lookup == None then (w, Quiet)
    else if id == "" || c.lookup == Some(false) then (if c.oldEnough then Finalized(w, uid, c.closeOk) else w, Quiet)
    else if !c.dnsDetached then (w, Quiet)
    else (ReleaseStep(w, uid, id, c), ReleaseCalled(uid, id))
  }

  method TryRelease(st: Store, uid: string, id: string, c: DeleteCalls)
    requires uid in st.hosts
    modifies st`hosts, st`leases, st`nodes
    ensures st.Snapshot() == ReleaseStep(old(st.Snapshot()), uid, id, c)
  {
    st.leases := Allocation.Release(st.leases, id);
    match c.release {
      case ReleaseFailed =>
        return;
      case Released =>
      case VmHostsFirst =>
        st.nodes := DropGuests(st.nodes, id, c.guests);
        if !c.unregisterOk {
          return;
        }
        if !c.retryOk {
          return;
        }
    }
    if c.closeOk {
      st.hosts := st.hosts[uid := st.hosts[uid].(machineFinalizer := false)];
    }
  }

  method ReconcileDelete(st: Store, uid: string, c: DeleteCalls) returns (e: Event)
    requires uid in st.hosts
    modifies st`hosts, st`leases, st`nodes
    ensures st.Snapshot() == DeleteStep(old(st.Snapshot()), uid, c).0 && e == DeleteStep(old(st.Snapshot()), uid, c).1
  {
    hide ProviderIds.InstanceId;
    var h := st.hosts[uid];
    if h.evacuationFinalizer {
      if Text(h.systemID) == "" && c.closeOk {
        st.hosts := st.hosts[uid := h.(evacuationFinalizer := false)];
        return FinalizerDropped(uid);
      }
      return Quiet;
    }
    var id := ProviderIds.InstanceId(h.providerID);
    var found := false;
    if id != "" {
      if c.lookup.None? {
        return Quiet;
      }
      found := c.lookup.value;
    }
    if !found {
      if c.oldEnough && c.closeOk {
        st.hosts := st.hosts[uid := h.(machineFinalizer := false)];
      }
      return Quiet;
    }
    if !c.dnsDetached {
      return Quiet;
    }
    TryRelease(st, uid, id, c);
    return ReleaseCalled(uid, id);
  }
}
