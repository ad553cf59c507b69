/**
 * The shared state the controllers act on: Kubernetes objects of one host cluster and one workload
 * cluster, and the MAAS inventory. World is a snapshot of it; Store is the mutable thing itself.
 */
module State {
  import opened Base
  import opened Inventory
  import Allocation
  import HmcSession
  import Selector

  /** A KubeadmControlPlane read as unstructured data: a field that is missing or of another type is None. */
  datatype Kcp = Kcp(
    paused: Option<bool>,
    specReplicas: Option<int>,
    readyReplicas: Option<int>,
    updatedReplicas: Option<int>,
    statusReplicas: Option<int>,
    template: Option<string>,
    maxSurge: Option<int>)

  datatype Template = Template(labels: string, spec: string)

  /**
   * A workload cluster Machine together with its MaasMachine. vmName is the hostname its VM is composed
   * under (the vm-name annotation, or what it is derived from), placement the demands of its spec.
   */
  datatype Machine = Machine(
    controlPlane: bool,
    deleting: bool,
    infraRef: string,
    infraDeleting: bool,
    name: string,
    vmName: string,
    placement: Selector.Options,
    providerID: Option<string>,
    systemID: Option<string>,
    ready: bool)

  /** A vec-maintenance-<opId> ConfigMap. */
  datatype VecSession = VecSession(status: HmcSession.Status, host: string, newVm: string)

  /** A bare-metal MaasMachine of the host cluster; machineDeleting is its owner Machine's deletion mark. */
  datatype Host = Host(
    parent: Option<string>,
    machineDeleting: bool,
    deleting: bool,
    machineFinalizer: bool,
    evacuationFinalizer: bool,
    completed: string,
    providerID: Option<string>,
    systemID: Option<string>)

  datatype World = World(
    nodes: Nodes,
    kcp: Kcp,
    templates: map<string, Template>,
    machines: map<string, Machine>,
    sessions: map<string, VecSession>,
    hosts: map<string, Host>,
    leases: Allocation.Leases,
    session: HmcSession.Stored)

  class Store {
    var nodes: Nodes
    var kcp: Kcp
    var templates: map<string, Template>
    var machines: map<string, Machine>
    var sessions: map<string, VecSession>
    var hosts: map<string, Host>
    var leases: Allocation.Leases
    const session: HmcSession.SessionConfigMap

    constructor (kcp: Kcp)
      ensures fresh(session)
      ensures Snapshot() == World(map[], kcp, map[], map[], map[], map[], map[], None)
    {
      this.kcp := kcp;
      nodes, templates, machines, sessions, hosts, leases := map[], map[], map[], map[], map[], map[];
      session := new HmcSession.SessionConfigMap();
    }

    function Snapshot(): World
      reads this, session
    {
      World(nodes, kcp, templates, machines, sessions, hosts, leases, session.cm)
    }
  }

  function Assign(nodes: Nodes, id: string, tag: string): (r: Nodes)
    ensures r.Keys == nodes.Keys
    ensures forall x :: x in r && x != id ==> r[x] == nodes[x]
  {
    if id in nodes then nodes[id := nodes[id].(tags := AddTag(nodes[id].tags, tag))] else nodes
  }

  function Unassign(nodes: Nodes, id: string, tag: string): (r: Nodes)
    ensures r.Keys == nodes.Keys
    ensures forall x :: x in r && x != id ==> r[x] == nodes[x]
  {
    if id in nodes then nodes[id := nodes[id].(tags := RemoveTag(nodes[id].tags, tag))] else nodes
  }

  /** One MAAS tag call: it fails without effect, or it assigns the tag. */
  method AddTagTo(st: Store, id: string, tag: string, callOk: bool) returns (ok: bool)
    modifies st`nodes
    ensures ok == callOk && st.nodes == if ok then Assign(old(st.nodes), id, tag) else old(st.nodes)
  {
    if callOk && id in st.nodes {
      st.nodes := st.nodes[id := st.nodes[id].(tags := AddTag(st.nodes[id].tags, tag))];
    }
    return callOk;
  }

  method RemoveTagFrom(st: Store, id: string, tag: string, callOk: bool) returns (ok: bool)
    modifies st`nodes
    ensures ok == callOk && st.nodes == if ok then Unassign(old(st.nodes), id, tag) else old(st.nodes)
  {
    if callOk && id in st.nodes {
      st.nodes := st.nodes[id := st.nodes[id].(tags := RemoveTag(st.nodes[id].tags, tag))];
    }
    return callOk;
  }
}
