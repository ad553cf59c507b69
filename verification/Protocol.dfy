/**
 * All controllers as steps over one shared state, interleaved with whatever users, Cluster API and MAAS do.
 * One reconcile is one atomic step, and so are host selection and composing together.
 */
module Protocol {
  import opened Base
  import opened Inventory
  import opened State
  import Gates
  import Hmc
  import HmcSession
  import HostMachines
  import Provision
  import Selector
  import Tags
  import Vec

  datatype Action =
    | VecReconcile(vec: Vec.Calls)
    | ProvisionVm(uid: string, provision: Provision.Calls, pick: Option<Selector.VmHost>)
    | HmcReconcile(uid: string, hmc: Hmc.Calls)
    | HmcConfigMap(hmc: Hmc.Calls)
    | HostNormal(uid: string, normal: HostMachines.NormalCalls)
    | HostDelete(uid: string, delete: HostMachines.DeleteCalls)
    // the environment
    | KcpChanges(kcp: Kcp)
    | TemplatesChange(templates: map<string, Template>)
    | MachineCreated(uid: string, machine: Machine)
    | MachineMarked(uid: string)
    | InfraMarked(uid: string)
    | MachineHealth(uid: string, ready: bool)
    | MachineGone(uid: string)
    | NodeGone(id: string)
    | NodeAppears(id: string, node: Node)
    | NodeStatus(id: string, powerState: string, state: string, tags: seq<string>)
    | HostCreated(uid: string, host: Host)
    | HostMachineMarked(uid: string)
    | HostMarked(uid: string)
    | HostGone(uid: string)
    | OperatorEdits(other: map<string, string>)

  datatype Event =
    | Silent
    | FromVec(v: Vec.Event)
    | FromProvision(p: Provision.Event)
    | FromHmc(h: Hmc.Event)
    | FromHosts(d: HostMachines.Event)

  /** The two hostnames a Machine's VM can have: the one it is composed under and the one it is deployed under. */
  datatype Names = Names(composed: string, deployed: string)

  /**
   * What happened so far, kept beside the state for the statements below and read by no controller:
   * which VM was composed for which Machine, which VMs were offered to which session, and so on.
   */
  datatype History = History(
    uids: set<string>,
    names: map<string, Names>,
    composed: map<string, string>,
    vecDeleted: set<string>,
    offered: set<(string, string)>,
    cpTagged: set<(string, string)>,
    opIds: set<string>,
    hostUids: set<string>)

  datatype Sys = Sys(w: World, h: History)

  function NamesOf(m: Machine): Names {
    Names(Tags.Lower(m.vmName), Tags.Lower(Provision.DeployName(m)))
  }

  predicate Owns(n: Names, hostname: string)
  {
    Tags.Lower(hostname) == n.composed || Tags.Lower(hostname) == n.deployed
  }

  function Machines(w: World, uid: string, m: Machine): World { w.(machines := w.machines[uid := m]) }

  /** The object a step is about exists. */
  predicate Applies(w: World, a: Action) {
    && (a.ProvisionVm? || a.MachineMarked? || a.InfraMarked? || a.MachineHealth? || a.MachineGone? ==>
      a.uid in w.machines)
    && (a.HmcReconcile? || a.HostNormal? || a.HostDelete? || a.HostMachineMarked? || a.HostMarked? || a.HostGone? ==>
      a.uid in w.hosts)
    && (a.NodeStatus? || a.NodeGone? ==> a.id in w.nodes)
  }

  /** The next state and what the step reports. */
  function Step(w: World, a: Action): (World, Event)
    requires Applies(w, a)
  {
    match a
    case VecReconcile(c) => var (w', e) := Vec.Step(w, c); (w', FromVec(e))
    case ProvisionVm(uid, c, pick) => var (w', e) := Provision.Step(w, uid, c, pick); (w', FromProvision(e))
    case HmcReconcile(uid, c) => var (w', e) := Hmc.Step(w, uid, c); (w', FromHmc(e))
    case HmcConfigMap(c) => var (w', e) := Hmc.ConfigMapStep(w, c); (w', FromHmc(e))
    case HostNormal(uid, c) => (HostMachines.NormalStep(w, uid, c), Silent)
    case HostDelete(uid, c) => var (w', e) := HostMachines.DeleteStep(w, uid, c); (w', FromHosts(e))
    case KcpChanges(kcp) => (w.(kcp := kcp), Silent)
    case TemplatesChange(templates) => (w.(templates := templates), Silent)
    case MachineCreated(uid, m) => (Machines(w, uid, m), Silent)
    case MachineMarked(uid) => (Machines(w, uid, w.machines[uid].(deleting := true)), Silent)
    case InfraMarked(uid) => (Machines(w, uid, w.machines[uid].(infraDeleting := true)), Silent)
    case MachineHealth(uid, ready) => (Machines(w, uid, w.machines[uid].(ready := ready)), Silent)
    case MachineGone(uid) => (w.(machines := w.machines - {uid}), Silent)
    case NodeGone(id) => (w.(nodes := w.nodes - {id}), Silent)
    case NodeAppears(id, node) => (w.(nodes := w.nodes[id := node]), Silent)
    case NodeStatus(id, powerState, state, tags) =>
      (w.(nodes := w.nodes[id := w.nodes[id].(powerState := powerState, state := state, tags := tags)]), Silent)
    case HostCreated(uid, host) => (w.(hosts := w.hosts[uid := host]), Silent)
    case HostMachineMarked(uid) => (w.(hosts := w.hosts[uid := w.hosts[uid].(machineDeleting := true)]), Silent)
    case HostMarked(uid) => (w.(hosts := w.hosts[uid := w.hosts[uid].(deleting := true)]), Silent)
    case HostGone(uid) => (w.(hosts := w.hosts - {uid}), Silent)
    case OperatorEdits(other) =>
      var st := HmcSession.Load(w.session);
      (w.(session := Some(HmcSession.ConfigMap(st, if w.session.Some? then w.session.value.progress else "", other))),
        Silent)
  }

  ghost predicate SameElements(a: seq<string>, b: seq<string>) { forall t :: t in a <==> t in b }

  /** The new operation ID a step may hand out is a fresh UUID. */
  ghost predicate FreshOp(h: History, opId: string) { opId != "" && opId !in h.opIds }

  /**
   * When a step can happen. UIDs, system IDs and operation IDs are never reused; Machines have hostnames of
   * their own, and nobody else takes them; an object is only gone once it was marked and has no finalizer.
   */
  ghost predicate Enabled(s: Sys, a: Action) { Applies(s.w, a) && Permitted(s, a) }

  ghost predicate Permitted(s: Sys, a: Action)
    requires Applies(s.w, a)
  {
    match a
    case VecReconcile(c) => Vec.Consistent(s.w, c)
    case ProvisionVm(uid, c, pick) =>
      && Provision.Consistent(s.w, uid, c) && Provision.Picks(s.w, uid, c, pick)
      && c.newId !in s.h.composed && '\n' !in c.zone
    case HmcReconcile(uid, c) => FreshOp(s.h, c.opId)
    case HmcConfigMap(c) => FreshOp(s.h, c.opId)
    case HostNormal(uid, c) => !s.w.hosts[uid].deleting && c.alloc.lxdHost
    case HostDelete(uid, c) => s.w.hosts[uid].deleting
    case MachineCreated(uid, m) =>
      && uid !in s.h.uids && m.providerID == None && m.systemID == None && !m.deleting && !m.infraDeleting
      && '\n' !in m.placement.zone
      && (forall u, x :: u in s.h.names && Owns(NamesOf(m), x) ==> !Owns(s.h.names[u], x))
      && (forall id :: id in s.w.nodes ==> !Owns(NamesOf(m), s.w.nodes[id].hostname))
    case MachineGone(uid) => s.w.machines[uid].deleting
    case NodeAppears(id, node) =>
      && id !in s.w.nodes && id !in s.h.composed && !Gates.HasReadyTag(node.tags)
      && forall u :: u in s.h.names ==> !Owns(s.h.names[u], node.hostname)
    case NodeStatus(id, powerState, state, tags) => SameElements(s.w.nodes[id].tags, tags)
    case HostCreated(uid, host) =>
      uid !in s.h.hostUids && Text(host.parent) == "" && !host.deleting && host.providerID == None
        && host.systemID == None
    case HostGone(uid) => s.w.hosts[uid].deleting && !s.w.hosts[uid].machineFinalizer
      && !s.w.hosts[uid].evacuationFinalizer
    case _ => true
  }

  predicate FullyTagged(c: Provision.Calls) { c.cpTagOk && c.clusterTagOk }

  function Remember(h: History, w: World, a: Action, e: Event): History {
    match a
    case VecReconcile(_) =>
      (match e case FromVec(MachineDeleted(_, uid)) => h.(vecDeleted := h.vecDeleted + {uid}) case _ => h)
    case ProvisionVm(uid, c, _) =>
      (match e
       case FromProvision(Provisioned(_, vm, composed, offered)) =>
         var h1 := if composed then h.(composed := h.composed[vm := uid]) else h;
         (match offered
          case None => h1
          case Some(op) =>
            var h2 := h1.(offered := h1.offered + {(vm, op)});
            if uid in w.machines && FullyTagged(c) && w.machines[uid].placement.clusterId != ""
            then h2.(cpTagged := h2.cpTagged + {(vm, w.machines[uid].placement.clusterId)}) else h2)
       case _ => h)
    case HmcReconcile(_, c) => h.(opIds := h.opIds + {c.opId})
    case HmcConfigMap(c) => h.(opIds := h.opIds + {c.opId})
    case MachineCreated(uid, m) => h.(uids := h.uids + {uid}, names := h.names[uid := NamesOf(m)])
    case HostCreated(uid, _) => h.(hostUids := h.hostUids + {uid})
    case _ => h
  }

  /** s leads to t by a, and the step reports e. */
  ghost predicate Leads(s: Sys, a: Action, t: Sys, e: Event) {
    Enabled(s, a) && Step(s.w, a) == (t.w, e) && t.h == Remember(s.h, s.w, a, e)
  }

  /** Where a run may begin: no Machines, hosts, sessions or history yet; MAAS may already have machines. */
  ghost predicate Initial(s: Sys) {
    && s.w.machines == map[] && s.w.sessions == map[] && s.w.hosts == map[] && s.w.leases == map[]
    && s.w.session == None
    && s.h == History({}, map[], map[], {}, {}, {}, {}, {})
    && forall id :: id in s.w.nodes ==> !Gates.HasReadyTag(s.w.nodes[id].tags)
  }

  /** A finite run: states[i] leads to states[i + 1] by actions[i], which reports events[i]. */
  datatype Run = Run(states: seq<Sys>, actions: seq<Action>, events: seq<Event>)

  ghost predicate Moves(r: Run) {
    && |r.states| == |r.actions| + 1 && |r.events| == |r.actions|
    && forall i :: 0 <= i < |r.actions| ==> Leads(r.states[i], r.actions[i], r.states[i + 1], r.events[i])
  }

  ghost predicate IsRun(r: Run) { Moves(r) && Initial(r.states[0]) }
}
