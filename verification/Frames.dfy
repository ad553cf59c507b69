/** The frame lemmas again, for whole protocol steps: what each kind of step leaves alone in state and history. */
module Frames {
  import opened Base
  import opened Inventory
  import opened State
  import opened Protocol
  import Effects
  import Hmc
  import HmcSession
  import HostMachines
  import HostTags
  import Provision
  import Tags
  import Vec

  /** Steps about the bare-metal hosts of the host cluster. */
  predicate HostSide(a: Action) {
    || a.HmcReconcile? || a.HmcConfigMap? || a.HostNormal? || a.HostDelete?
    || a.HostCreated? || a.HostMachineMarked? || a.HostMarked? || a.HostGone? || a.OperatorEdits?
  }

  lemma HostSideKeeps(s: Sys, a: Action, t: Sys, e: Event)
    requires Leads(s, a, t, e) && HostSide(a)
    ensures t.w == s.w.(nodes := t.w.nodes, hosts := t.w.hosts, leases := t.w.leases, session := t.w.session)
    ensures t.h == s.h.(opIds := t.h.opIds, hostUids := t.h.hostUids)
  {
    hide Permitted, Hmc.Step, Hmc.ConfigMapStep, HostMachines.NormalStep, HostMachines.DeleteStep, HmcSession.Load;
    match a
    case HmcReconcile(uid, c) => Effects.HmcFrame(s.w, uid, c);
    case HmcConfigMap(c) => Effects.ConfigMapFrame(s.w, c);
    case HostNormal(uid, c) => Effects.NormalFrame(s.w, uid, c);
    case HostDelete(uid, c) => Effects.DeleteFrame(s.w, uid, c);
    case _ =>
  }

  /** Steps of the environment about Machines, the control plane and the inventory. */
  predicate Environment(a: Action) { !HostSide(a) && !a.VecReconcile? && !a.ProvisionVm? }

  lemma VecKeeps(s: Sys, a: Action, t: Sys, e: Event)
    requires Leads(s, a, t, e) && a.VecReconcile?
    ensures e == FromVec(Vec.Step(s.w, a.vec).1) && t.w == Vec.Step(s.w, a.vec).0
    ensures Vec.Consistent(s.w, a.vec)
    ensures t.w.hosts == s.w.hosts && t.w.leases == s.w.leases && t.w.session == s.w.session
    ensures t.h == s.h.(vecDeleted := if e.v.MachineDeleted? then s.h.vecDeleted + {e.v.uid} else s.h.vecDeleted)
  {
    hide Vec.Step;
    Effects.VecFrame(s.w, a.vec);
  }

  lemma ProvisionKeeps(s: Sys, a: Action, t: Sys, e: Event) returns (raw: Nodes)
    requires Leads(s, a, t, e) && a.ProvisionVm?
    requires a.uid in s.w.machines ==> '\n' !in s.w.machines[a.uid].placement.zone
    ensures a.uid in s.w.machines && e.FromProvision? && Provision.Consistent(s.w, a.uid, a.provision)
    ensures Provision.Picks(s.w, a.uid, a.provision, a.pick)
    ensures a.provision.newId !in s.h.composed
    ensures Effects.Attempted(s.w, t.w, raw, a.uid, a.provision, a.pick, e.p)
    ensures t.h == s.h.(composed := t.h.composed, offered := t.h.offered, cpTagged := t.h.cpTagged)
    ensures t.h.composed == if e.p.Provisioned? && e.p.composed then s.h.composed[e.p.vm := a.uid] else s.h.composed
  {
    hide Provision.Step, Provision.Consistent, Provision.Picks, Effects.Attempted;
    raw := Effects.ProvisionEffect(s.w, a.uid, a.provision, a.pick);
  }

  // ----- the inventory -----

  /** No ready tag is new, and an LXD VM keeps every tag that is not a drain tag. */
  ghost predicate KeptTags(x: Node, y: Node) {
    && (forall t :: t in y.tags && Tags.VM_READY_OP_PREFIX <= t ==> t in x.tags)
    && (x.powerType == "lxd" ==> forall t :: t in x.tags && !HostTags.IsDrainTag(t) ==> t in y.tags)
  }

  predicate SameMachine(x: Node, y: Node) { y == x.(powerState := y.powerState, state := y.state, tags := y.tags) }

  /** No machine is new, and those that remain are what and where they were. */
  ghost predicate Kept(a: Nodes, b: Nodes) {
    b.Keys <= a.Keys && forall id :: id in b ==> SameMachine(a[id], b[id]) && KeptTags(a[id], b[id])
  }

  lemma ReadyTagsAreNotDrainTags(t: string)
    requires Tags.VM_READY_OP_PREFIX <= t
    ensures !HostTags.IsDrainTag(t)
  {
    assert t == Tags.ReadyOpTag(t[|Tags.VM_READY_OP_PREFIX|..]);
    Tags.VmTagsAreNotDrainTags(t[|Tags.VM_READY_OP_PREFIX|..]);
  }

  lemma DrainTagsOnly(a: Nodes, b: Nodes, host: string)
    requires HostTags.SameButDrainTags(a, b, host)
    ensures Kept(a, b)
  {
    hide HostTags.Strip, HostTags.IsDrainTag, Tags.VM_READY_OP_PREFIX;
    forall id | id in b ensures SameMachine(a[id], b[id]) && KeptTags(a[id], b[id]) {
      HostTags.StripFinds(a[id].tags);
      HostTags.StripFinds(b[id].tags);
      forall t | t in b[id].tags && Tags.VM_READY_OP_PREFIX <= t ensures t in a[id].tags {
        ReadyTagsAreNotDrainTags(t);
        assert t in HostTags.Strip(b[id].tags);
      }
      assert a[id].(tags := []) == b[id].(tags := []);
    }
  }

  lemma CleanupKeeps(nodes: Nodes, id: string, c: HostMachines.NormalCalls)
    ensures Kept(nodes, HostMachines.Cleanup(nodes, id, c))
  {
    hide HostMachines.IsStale, HostMachines.WithoutStale;
  }

  lemma HmcKeeps(s: Sys, a: Action, t: Sys, e: Event)
    requires Leads(s, a, t, e) && (a.HmcReconcile? || a.HmcConfigMap?)
    ensures Kept(s.w.nodes, t.w.nodes)
  {
    hide Permitted, Hmc.Step, Hmc.ConfigMapStep, HostTags.SameButDrainTags, Kept;
    if a.HmcReconcile? {
      Effects.HmcNodes(s.w, a.uid, a.hmc);
      DrainTagsOnly(s.w.nodes, t.w.nodes, Text(s.w.hosts[a.uid].systemID));
    } else {
      var host := Effects.ConfigMapNodes(s.w, a.hmc);
      DrainTagsOnly(s.w.nodes, t.w.nodes, host);
    }
  }

  lemma HostSideNodes(s: Sys, a: Action, t: Sys, e: Event)
    requires Leads(s, a, t, e) && HostSide(a)
    ensures Kept(s.w.nodes, t.w.nodes)
  {
    hide Permitted, Hmc.Step, Hmc.ConfigMapStep, HostMachines.NormalStep, HostMachines.DeleteStep, HmcSession.Load,
      Kept;
    SameIsKept(s.w.nodes);
    if a.HmcReconcile? || a.HmcConfigMap? {
      HmcKeeps(s, a, t, e);
    } else if a.HostNormal? {
      NormalKeeps(s.w, a.uid, a.normal);
    } else if a.HostDelete? {
      DeleteKeeps(s.w, a.uid, a.delete);
    }
  }

  lemma SameIsKept(nodes: Nodes)
    ensures Kept(nodes, nodes)
  {
  }

  lemma NormalKeeps(w: World, uid: string, c: HostMachines.NormalCalls)
    requires uid in w.hosts
    ensures Kept(w.nodes, HostMachines.NormalStep(w, uid, c).nodes)
  {
    hide HostMachines.NormalStep, HostMachines.Cleanup, HostMachines.DeployedNow, KeptTags;
    Effects.NormalNodes(w, uid, c);
    SameIsKept(w.nodes);
    var id := HostMachines.DeployedNow(w.hosts[uid], w, uid, c);
    if id.Some? {
      CleanupKeeps(w.nodes, id.value, c);
    }
  }

  lemma DeleteKeeps(w: World, uid: string, c: HostMachines.DeleteCalls)
    requires uid in w.hosts
    ensures Kept(w.nodes, HostMachines.DeleteStep(w, uid, c).0.nodes)
    ensures forall id :: id in HostMachines.DeleteStep(w, uid, c).0.nodes ==>
      HostMachines.DeleteStep(w, uid, c).0.nodes[id] == w.nodes[id]
  {
    hide HostMachines.DeleteStep, KeptTags;
    Effects.DeleteNodes(w, uid, c);
    SameIsKept(w.nodes);
  }

  lemma StatusKeeps(s: Sys, a: Action, t: Sys, e: Event)
    requires Leads(s, a, t, e) && a.NodeStatus?
    ensures Kept(s.w.nodes, t.w.nodes)
  {
    hide Kept;
    assert a.id in s.w.nodes;
    RetaggedKeeps(s.w.nodes, a.id, s.w.nodes[a.id].(powerState := a.powerState, state := a.state, tags := a.tags));
  }

  lemma RetaggedKeeps(nodes: Nodes, id: string, node: Node)
    requires id in nodes && SameMachine(nodes[id], node) && SameElements(nodes[id].tags, node.tags)
    ensures Kept(nodes, nodes[id := node])
  {
    hide Tags.VM_READY_OP_PREFIX, HostTags.IsDrainTag;
  }

  lemma EnvironmentNodes(s: Sys, a: Action, t: Sys, e: Event)
    requires Leads(s, a, t, e) && Environment(a) && !a.NodeAppears?
    ensures Kept(s.w.nodes, t.w.nodes)
  {
    hide Permitted, KeptTags;
    SameIsKept(s.w.nodes);
    if a.NodeStatus? {
      StatusKeeps(s, a, t, e);
    }
  }

  /** A control-plane VM may get the ready tag of its session; nothing else happens to the inventory. */
  lemma VecNodes(s: Sys, a: Action, t: Sys, e: Event)
    requires Leads(s, a, t, e) && a.VecReconcile?
    ensures t.w.nodes.Keys == s.w.nodes.Keys
    ensures forall id :: id in s.w.nodes ==>
      SameMachine(s.w.nodes[id], t.w.nodes[id]) && forall x :: x in s.w.nodes[id].tags ==> x in t.w.nodes[id].tags
    ensures forall id, x :: id in s.w.nodes && x in t.w.nodes[id].tags && x !in s.w.nodes[id].tags ==>
      exists op :: op in s.w.sessions && s.w.sessions[op].newVm == id && id != "" && x == Tags.ReadyOpTag(op)
  {
    hide Leads, Vec.Step, Tags.ReadyOpTag;
    VecKeeps(s, a, t, e);
    Effects.VecNodes(s.w, a.vec);
  }
}
