/**
 * Where ready tags come from: a VM that carries the ready tag of an operation was provisioned for a
 * control-plane Machine while the session of that operation was open, and HMC will take it for the
 * replacement it is.
 */
module Provenance {
  import opened Base
  import opened Inventory
  import opened State
  import opened Protocol
  import Effects
  import Frames
  import Gates
  import HmcSession
  import HostTags
  import Ownership
  import Provision
  import ProviderIds
  import Quorum
  import Selector
  import Tags
  import Vec

  ghost predicate ReadyTagsOffered(nodes: Nodes, offered: set<(string, string)>) {
    forall id, op :: id in nodes && Tags.ReadyOpTag(op) in nodes[id].tags ==> (id, op) in offered
  }

  ghost predicate NewVmsOffered(sessions: map<string, VecSession>, offered: set<(string, string)>) {
    forall op :: op in sessions && sessions[op].newVm != "" ==> (sessions[op].newVm, op) in offered
  }

  ghost predicate CpTagsStay(nodes: Nodes, h: History) {
    forall id, cluster :: (id, cluster) in h.cpTagged ==>
      id in h.composed && (id in nodes ==> nodes[id].powerType == "lxd" && Effects.FullyTagged(nodes, id, cluster))
  }

  ghost predicate Inv(s: Sys) {
    ReadyTagsOffered(s.w.nodes, s.h.offered) && NewVmsOffered(s.w.sessions, s.h.offered) && CpTagsStay(s.w.nodes, s.h)
  }

  // ----- steps that add no ready tag -----

  lemma KeptReadyTags(a: Nodes, b: Nodes, offered: set<(string, string)>)
    requires ReadyTagsOffered(a, offered) && Frames.Kept(a, b)
    ensures ReadyTagsOffered(b, offered)
  {
    hide Tags.VM_READY_OP_PREFIX, HostTags.IsDrainTag;
    forall id, op | id in b && Tags.ReadyOpTag(op) in b[id].tags ensures (id, op) in offered {
      assert Frames.KeptTags(a[id], b[id]) && Tags.VM_READY_OP_PREFIX <= Tags.ReadyOpTag(op);
    }
  }

  lemma IdentityTagsAreNotDrainTags(cluster: string)
    ensures !HostTags.IsDrainTag(Tags.VM_CONTROL_PLANE) && !HostTags.IsDrainTag(Tags.ClusterTag(cluster))
  {
    Tags.VmTagsAreNotDrainTags(Tags.SanitizeID(cluster));
  }

  lemma IdentityTagsAreNotReadyTags(cluster: string, op: string)
    ensures Tags.ReadyOpTag(op) != Tags.VM_CONTROL_PLANE && Tags.ReadyOpTag(op) != Tags.ClusterTag(cluster)
  {
    hide Tags.SanitizeID;
    assert Tags.ReadyOpTag(op)[9] == 'r' && Tags.VM_CONTROL_PLANE[9] == 'w';
    assert Tags.ClusterTag(cluster)[9] == 'w';
  }

  lemma KeptCpTags(a: Nodes, b: Nodes, h: History, h': History)
    requires CpTagsStay(a, h) && Frames.Kept(a, b) && h'.cpTagged == h.cpTagged && h'.composed == h.composed
    ensures CpTagsStay(b, h')
  {
    hide Tags.ClusterTag, Tags.VM_CONTROL_PLANE, Tags.VM_READY_OP_PREFIX, HostTags.IsDrainTag;
    forall id, cluster | (id, cluster) in h'.cpTagged && id in b
      ensures b[id].powerType == "lxd" && Effects.FullyTagged(b, id, cluster)
    {
      IdentityTagsAreNotDrainTags(cluster);
      assert Frames.SameMachine(a[id], b[id]) && Frames.KeptTags(a[id], b[id]);
    }
  }

  lemma QuietStep(s: Sys, a: Action, t: Sys, e: Event)
    requires Leads(s, a, t, e) && !a.VecReconcile? && !a.ProvisionVm? && !a.NodeAppears? && Inv(s)
    ensures Inv(t)
  {
    hide Leads, Frames.Kept, ReadyTagsOffered, CpTagsStay;
    if Frames.HostSide(a) {
      Frames.HostSideKeeps(s, a, t, e);
      Frames.HostSideNodes(s, a, t, e);
    } else {
      Frames.EnvironmentNodes(s, a, t, e);
      EnvironmentOffersNothing(s, a, t, e);
    }
    KeptReadyTags(s.w.nodes, t.w.nodes, s.h.offered);
    KeptCpTags(s.w.nodes, t.w.nodes, s.h, t.h);
  }

  lemma EnvironmentOffersNothing(s: Sys, a: Action, t: Sys, e: Event)
    requires Leads(s, a, t, e) && Frames.Environment(a)
    ensures t.w.sessions == s.w.sessions
    ensures t.h.offered == s.h.offered && t.h.cpTagged == s.h.cpTagged && t.h.composed == s.h.composed
  {
    hide Permitted;
  }

  lemma AppearingStep(s: Sys, a: Action, t: Sys, e: Event)
    requires Leads(s, a, t, e) && a.NodeAppears? && Inv(s)
    ensures Inv(t)
  {
    hide Owns, Tags.ClusterTag, Tags.VM_CONTROL_PLANE, CpTagsStay;
    EnvironmentOffersNothing(s, a, t, e);
    forall op ensures Tags.ReadyOpTag(op) !in a.node.tags {
      assert Tags.VM_READY_OP_PREFIX <= Tags.ReadyOpTag(op);
    }
    assert CpTagsStay(t.w.nodes, t.h) by {
      NewNodeCpTags(s.w.nodes, s.h, t.h, a.id, a.node);
    }
  }

  lemma NewNodeCpTags(n: Nodes, h: History, h': History, id: string, node: Node)
    requires CpTagsStay(n, h) && id !in h.composed && h'.cpTagged == h.cpTagged && h.composed.Keys <= h'.composed.Keys
    ensures CpTagsStay(n[id := node], h')
  {
    hide Tags.ClusterTag, Tags.VM_CONTROL_PLANE;
  }

  // ----- VEC -----

  lemma {:induction false} ScanOffersNothing(w: World, c: Vec.Calls, order: seq<string>, offered: set<(string, string)>)
    requires NewVmsOffered(w.sessions, offered)
    ensures NewVmsOffered(Vec.Opened(w, c, order), offered)
  {
    hide Vec.Target;
    if order != [] {
      ScanOffersNothing(w, c, order[..|order| - 1], offered);
    }
  }

  /** VEC either scans, or marks the session it works on as completed. */
  lemma VecSessions(w: World, c: Vec.Calls)
    ensures var w' := Vec.Step(w, c).0;
      || w'.sessions == w.sessions || w'.sessions == Vec.Opened(w, c, c.order)
      || (c.active in w.sessions
        && w'.sessions == w.sessions[c.active := w.sessions[c.active].(status := HmcSession.Completed)])
  {
    hide Vec.Findings, Vec.Opened, Vec.OtherDeleting, Vec.KcpStable, Vec.Replicas, Vec.NewTemplate, Tags.ReadyOpTag;
  }

  lemma ReadyTagsDistinct(a: string, b: string)
    ensures Tags.ReadyOpTag(a) == Tags.ReadyOpTag(b) ==> a == b
  {
    var n := |Tags.VM_READY_OP_PREFIX|;
    assert Tags.ReadyOpTag(a)[n..] == a && Tags.ReadyOpTag(b)[n..] == b;
  }

  lemma VecStep(s: Sys, a: Action, t: Sys, e: Event)
    requires Leads(s, a, t, e) && a.VecReconcile? && Inv(s)
    ensures Inv(t)
  {
    hide Leads, Vec.Step, Vec.Opened, Tags.ReadyOpTag, Tags.ClusterTag, Tags.VM_CONTROL_PLANE;
    Frames.VecKeeps(s, a, t, e);
    Frames.VecNodes(s, a, t, e);
    VecSessions(s.w, a.vec);
    ScanOffersNothing(s.w, a.vec, a.vec.order, s.h.offered);
    forall id, op | id in t.w.nodes && Tags.ReadyOpTag(op) in t.w.nodes[id].tags ensures (id, op) in t.h.offered {
      if Tags.ReadyOpTag(op) !in s.w.nodes[id].tags {
        var x :| x in s.w.sessions && s.w.sessions[x].newVm == id && id != ""
          && Tags.ReadyOpTag(op) == Tags.ReadyOpTag(x);
        ReadyTagsDistinct(op, x);
      }
    }
  }

  // ----- provisioning -----

  lemma TaggedReadyTags(a: Nodes, b: Nodes, clusterId: string, offered: set<(string, string)>)
    requires ReadyTagsOffered(a, offered) && Effects.Tagged(a, b, clusterId)
    ensures ReadyTagsOffered(b, offered)
  {
    hide Tags.ReadyOpTag, Tags.ClusterTag, Tags.VM_CONTROL_PLANE;
    forall id, op | id in b && Tags.ReadyOpTag(op) in b[id].tags ensures (id, op) in offered {
      IdentityTagsAreNotReadyTags(clusterId, op);
      assert Effects.TaggedNode(a[id], b[id], clusterId);
    }
  }

  lemma TaggedCpTags(a: Nodes, b: Nodes, clusterId: string, h: History)
    requires CpTagsStay(a, h) && Effects.Tagged(a, b, clusterId)
    ensures CpTagsStay(b, h)
  {
    hide Tags.ClusterTag, Tags.VM_CONTROL_PLANE;
    forall id, cluster | (id, cluster) in h.cpTagged && id in b
      ensures b[id].powerType == "lxd" && Effects.FullyTagged(b, id, cluster)
    {
      assert Effects.TaggedNode(a[id], b[id], clusterId);
    }
  }

  /** Before any tagging an attempt renames one VM, or adds one without tags. */
  lemma RawTags(s: Sys, a: Action, t: Sys, e: Event, raw: Nodes)
    requires a.ProvisionVm? && a.uid in s.w.machines && e.FromProvision?
    requires Effects.Attempted(s.w, t.w, raw, a.uid, a.provision, a.pick, e.p)
    requires a.provision.newId !in s.h.composed
    requires ReadyTagsOffered(s.w.nodes, s.h.offered) && CpTagsStay(s.w.nodes, s.h)
    ensures ReadyTagsOffered(raw, s.h.offered) && CpTagsStay(raw, s.h)
  {
    hide Effects.Provisions, Tags.ReadyOpTag, Tags.ClusterTag, Tags.VM_CONTROL_PLANE, ProviderIds.InstanceId;
    hide Provision.HostnameTaken, Provision.SameHostname, Provision.DeployName;
  }

  lemma ReadyTagsByMore(n: Nodes, offered: set<(string, string)>, more: set<(string, string)>)
    requires ReadyTagsOffered(n, offered) && offered <= more
    ensures ReadyTagsOffered(n, more)
  {
    hide Tags.ReadyOpTag;
  }

  /** What the history notes about the VM in hand. */
  lemma ProvisionHistory(s: Sys, a: Action, t: Sys, e: Event)
    requires Leads(s, a, t, e) && a.ProvisionVm? && e.FromProvision?
    ensures var op := if e.p.Provisioned? then e.p.offered else None;
      && t.h.offered == (if op.Some? then s.h.offered + {(e.p.vm, op.value)} else s.h.offered)
      && t.h.cpTagged == (if op.Some? && FullyTagged(a.provision) && s.w.machines[a.uid].placement.clusterId != ""
                          then s.h.cpTagged + {(e.p.vm, s.w.machines[a.uid].placement.clusterId)} else s.h.cpTagged)
  {
    hide Permitted, Provision.Step;
  }

  lemma OfferedSessions(sessions: map<string, VecSession>, op: Option<string>, vm: string,
    offered: set<(string, string)>)
    requires NewVmsOffered(sessions, offered)
    ensures NewVmsOffered(Effects.Offered(sessions, op, vm), if op.Some? then offered + {(vm, op.value)} else offered)
  {
  }

  lemma AttemptEvent(s: Sys, a: Action, t: Sys, e: Event, raw: Nodes)
    requires a.ProvisionVm? && a.uid in s.w.machines && e.FromProvision?
    requires Effects.Attempted(s.w, t.w, raw, a.uid, a.provision, a.pick, e.p)
    ensures e.p.Nothing? ==> t.w == s.w.(nodes := raw)
    ensures e.p.Provisioned? ==>
      && Effects.Provisions(s.w, raw, t.w, a.uid, e.p.vm, a.provision, e.p.offered)
      && (e.p.vm in raw || (e.p.offered == None && !e.p.composed))
      && (e.p.composed || e.p.vm in s.w.nodes)
      && (!e.p.composed && e.p.offered.Some? ==>
            ProviderIds.InstanceId(s.w.machines[a.uid].providerID) != ""
              && e.p.vm == ProviderIds.InstanceId(s.w.machines[a.uid].providerID))
  {
    hide Effects.Provisions, ProviderIds.InstanceId, Provision.HostnameTaken, Provision.SameHostname,
      Provision.DeployName;
  }

  lemma NewCpTag(n: Nodes, h: History, h': History, vm: string, cluster: string)
    requires CpTagsStay(n, h) && h.composed.Keys <= h'.composed.Keys
    requires h'.cpTagged == h.cpTagged
          || (h'.cpTagged == h.cpTagged + {(vm, cluster)} && vm in h'.composed
              && (vm in n ==> n[vm].powerType == "lxd" && Effects.FullyTagged(n, vm, cluster)))
    ensures CpTagsStay(n, h')
  {
    hide Effects.FullyTagged;
  }

  /** An offered VM was composed for the Machine, now or before. */
  lemma OfferedVmIsOwn(s: Sys, a: Action, t: Sys, e: Event, raw: Nodes)
    requires a.ProvisionVm? && a.uid in s.w.machines && e.FromProvision? && e.p.Provisioned? && e.p.offered.Some?
    requires Effects.Attempted(s.w, t.w, raw, a.uid, a.provision, a.pick, e.p)
    requires t.h.composed == if e.p.composed then s.h.composed[e.p.vm := a.uid] else s.h.composed
    requires Ownership.Inv(s) && Ownership.Inv(t)
    ensures e.p.vm in t.h.composed && t.h.composed[e.p.vm] == a.uid
      && (e.p.vm in t.w.nodes ==> t.w.nodes[e.p.vm].powerType == "lxd")
  {
    hide Effects.Attempted, Ownership.Named, Ownership.Tracked, ProviderIds.InstanceId, Owns;
    AttemptEvent(s, a, t, e, raw);
    if !e.p.composed {
      Ownership.RecordedIsOwn(s.w.nodes, s.w.machines, s.h, a.uid);
    }
  }

  lemma ProvisioningStep(s: Sys, a: Action, t: Sys, e: Event)
    requires Leads(s, a, t, e) && a.ProvisionVm? && Inv(s) && Ownership.Inv(s) && Ownership.Inv(t)
    ensures Inv(t)
  {
    hide Leads, Effects.Attempted, ReadyTagsOffered, CpTagsStay, NewVmsOffered, Effects.Tagged, Effects.Recorded,
      Effects.FullyTagged;
    hide Ownership.Inv, Effects.Offered, ProviderIds.InstanceId;
    Ownership.OwnedZones(s);
    var raw := Frames.ProvisionKeeps(s, a, t, e);
    ProvisionHistory(s, a, t, e);
    RawTags(s, a, t, e, raw);
    AttemptEvent(s, a, t, e, raw);
    if e.p.Provisioned? {
      var cluster := s.w.machines[a.uid].placement.clusterId;
      TaggedReadyTags(raw, t.w.nodes, cluster, s.h.offered);
      TaggedCpTags(raw, t.w.nodes, cluster, s.h);
      ReadyTagsByMore(t.w.nodes, s.h.offered, t.h.offered);
      OfferedSessions(s.w.sessions, e.p.offered, e.p.vm, s.h.offered);
      if e.p.offered.Some? {
        OfferedVmIsOwn(s, a, t, e, raw);
      }
      NewCpTag(t.w.nodes, s.h, t.h, e.p.vm, cluster);
    } else {
      NewCpTag(t.w.nodes, s.h, t.h, "", "");
    }
  }

  lemma StepKeepsInv(s: Sys, a: Action, t: Sys, e: Event)
    requires Leads(s, a, t, e) && Inv(s) && Ownership.Inv(s) && Ownership.Inv(t)
    ensures Inv(t)
  {
    hide Leads, Inv, Ownership.Inv;
    if a.VecReconcile? {
      VecStep(s, a, t, e);
    } else if a.ProvisionVm? {
      ProvisioningStep(s, a, t, e);
    } else if a.NodeAppears? {
      AppearingStep(s, a, t, e);
    } else {
      QuietStep(s, a, t, e);
    }
  }

  lemma InitialInv(s: Sys)
    requires Initial(s)
    ensures Inv(s)
  {
    forall id, op | id in s.w.nodes ensures Tags.ReadyOpTag(op) !in s.w.nodes[id].tags {
      assert Tags.VM_READY_OP_PREFIX <= Tags.ReadyOpTag(op);
    }
  }

  lemma {:induction false} Always(r: Run, i: nat)
    requires IsRun(r) && i < |r.states|
    ensures Inv(r.states[i])
  {
    hide Leads, Inv, Ownership.Inv, Initial;
    if i == 0 {
      InitialInv(r.states[0]);
    } else {
      Always(r, i - 1);
      Ownership.Always(r, i - 1);
      Ownership.Always(r, i);
      StepKeepsInv(r.states[i - 1], r.actions[i - 1], r.states[i], r.events[i - 1]);
    }
  }

  /** A VM is composed on a host that was offered, in the zone and pool the Machine asks for. */
  lemma ComposedWhereAsked(s: Sys, a: Action, t: Sys, e: Event)
    requires Leads(s, a, t, e) && a.ProvisionVm? && e.FromProvision? && e.p.Provisioned? && e.p.composed
    requires Quorum.ZonesFine(s.w.machines)
    ensures a.uid in s.w.machines && e.p.vm !in s.w.nodes && e.p.vm in t.w.nodes
    ensures var n, want := t.w.nodes[e.p.vm], s.w.machines[a.uid].placement;
      && n.hostname == s.w.machines[a.uid].vmName && n.powerType == "lxd" && n.parent in s.w.nodes
      && (want.zone != "" ==> n.zone == want.zone) && (want.pool != "" ==> n.pool == want.pool)
  {
    hide Leads, Effects.Attempted, Effects.TaggedNode, Provision.Consistent, Provision.Picks;
    var raw := Frames.ProvisionKeeps(s, a, t, e);
    ComposedOn(s, a, t, e, raw);
    PickFits(s.w, a.uid, a.provision, a.pick);
    assert Effects.TaggedNode(raw[e.p.vm], t.w.nodes[e.p.vm], s.w.machines[a.uid].placement.clusterId);
    TaggedIsSame(raw[e.p.vm], t.w.nodes[e.p.vm], s.w.machines[a.uid].placement.clusterId);
  }

  lemma ComposedOn(s: Sys, a: Action, t: Sys, e: Event, raw: Nodes)
    requires a.ProvisionVm? && a.uid in s.w.machines && e.FromProvision? && e.p.Provisioned? && e.p.composed
    requires Effects.Attempted(s.w, t.w, raw, a.uid, a.provision, a.pick, e.p)
    ensures a.pick.Some? && a.provision.hosts.Some? && e.p.vm == a.provision.newId
    ensures e.p.vm in raw && raw[e.p.vm] == Provision.NewVm(a.pick.value, s.w.machines[a.uid])
    ensures Effects.Tagged(raw, t.w.nodes, s.w.machines[a.uid].placement.clusterId)
  {
    hide ProviderIds.InstanceId, Effects.Recorded, Effects.FullyTagged, Effects.Tagged, Provision.HostnameTaken;
  }

  lemma PickFits(w: World, uid: string, c: Provision.Calls, pick: Option<Selector.VmHost>)
    requires Provision.Consistent(w, uid, c) && Provision.Picks(w, uid, c, pick) && pick.Some? && c.hosts.Some?
    ensures c.newId !in w.nodes && pick.value.hostSystemId in w.nodes
    ensures var want := w.machines[uid].placement;
      (want.zone != "" ==> Text(pick.value.zone) == want.zone)
        && (want.pool != "" ==> Text(pick.value.pool) == want.pool)
  {
    hide Selector.Better, Selector.Rank;
  }

  lemma TaggedIsSame(x: Node, y: Node, clusterId: string)
    requires Effects.TaggedNode(x, y, clusterId)
    ensures y == x.(tags := y.tags)
  {
  }

  // ----- where an offer came from -----

  /** Step k composed or deployed this VM for a control-plane Machine while the session was open, and offered it. */
  predicate OfferedAt(r: Run, k: nat, id: string, op: string)
    requires k < |r.actions| == |r.events| && |r.states| == |r.actions| + 1
  {
    var a, e, w := r.actions[k], r.events[k], r.states[k].w;
    && a.ProvisionVm? && e.FromProvision? && e.p.Provisioned? && e.p.vm == id && e.p.offered == Some(op)
    && Vec.IsCp(w, a.uid) && op in Vec.ActiveOps(w.sessions)
  }

  lemma OfferIsForCp(s: Sys, a: Action, t: Sys, e: Event)
    requires Leads(s, a, t, e) && a.ProvisionVm? && e.FromProvision? && e.p.Provisioned? && e.p.offered.Some?
    requires Quorum.ZonesFine(s.w.machines)
    ensures Vec.IsCp(s.w, a.uid) && e.p.offered.value in Vec.ActiveOps(s.w.sessions)
  {
    hide Leads, Effects.Attempted, Effects.Tagged, Effects.Recorded, Effects.FullyTagged, Provision.Consistent,
      Provision.Picks;
    hide Vec.ActiveOps;
    var raw := Frames.ProvisionKeeps(s, a, t, e);
    AttemptEvent(s, a, t, e, raw);
  }

  lemma OffersOnlyGrowByProvisioning(s: Sys, a: Action, t: Sys, e: Event)
    requires Leads(s, a, t, e) && !a.ProvisionVm?
    ensures t.h.offered == s.h.offered && t.h.cpTagged == s.h.cpTagged
  {
    hide Permitted, Step;
  }

  lemma {:induction false} OfferTrace(r: Run, j: nat, id: string, op: string) returns (k: nat)
    requires IsRun(r) && j < |r.states| && (id, op) in r.states[j].h.offered
    ensures k < j && OfferedAt(r, k, id, op)
  {
    hide Leads, Vec.ActiveOps, Vec.IsCp;
    k := j - 1;
    var s, a, t, e := r.states[k], r.actions[k], r.states[j], r.events[k];
    if (id, op) in s.h.offered {
      k := OfferTrace(r, k, id, op);
    } else {
      Ownership.Always(r, k);
      Ownership.OwnedZones(s);
      if a.ProvisionVm? {
        var _ := Frames.ProvisionKeeps(s, a, t, e);
        ProvisionHistory(s, a, t, e);
        OfferIsForCp(s, a, t, e);
      } else {
        OffersOnlyGrowByProvisioning(s, a, t, e);
      }
    }
  }

  /**
   * A VM with the ready tag of an operation was composed or deployed for a control-plane Machine while that
   * operation's session was Active.
   */
  lemma ReadyTagHasOrigin(r: Run, j: nat, id: string, op: string) returns (k: nat)
    requires IsRun(r) && j < |r.states| && id in r.states[j].w.nodes
    requires Tags.ReadyOpTag(op) in r.states[j].w.nodes[id].tags
    ensures k < j && OfferedAt(r, k, id, op)
  {
    hide Leads, Tags.ReadyOpTag, OfferedAt, IsRun;
    Always(r, j);
    k := OfferTrace(r, j, id, op);
  }

  /** The VM in a session's record was offered to that very session. */
  lemma NewVmHasOrigin(r: Run, j: nat, op: string) returns (k: nat)
    requires IsRun(r) && j < |r.states| && op in r.states[j].w.sessions && r.states[j].w.sessions[op].newVm != ""
    ensures k < j && OfferedAt(r, k, r.states[j].w.sessions[op].newVm, op)
  {
    hide Leads, OfferedAt, IsRun;
    Always(r, j);
    k := OfferTrace(r, j, r.states[j].w.sessions[op].newVm, op);
  }

  lemma {:induction false} CpTaggedStays(r: Run, i: nat, j: nat)
    requires IsRun(r) && i <= j < |r.states|
    ensures r.states[i].h.cpTagged <= r.states[j].h.cpTagged
  {
    hide Leads;
    if i < j {
      CpTaggedStays(r, i, j - 1);
      var s, a, t, e := r.states[j - 1], r.actions[j - 1], r.states[j], r.events[j - 1];
      if a.ProvisionVm? {
        Ownership.Always(r, j - 1);
        Ownership.OwnedZones(s);
        var _ := Frames.ProvisionKeeps(s, a, t, e);
        ProvisionHistory(s, a, t, e);
      } else {
        OffersOnlyGrowByProvisioning(s, a, t, e);
      }
    }
  }

  /**
   * If the tagging at that step went through, the VM is from then on, for as long as it exists and carries the
   * ready tag, what HMC looks for: a replacement for any control-plane VM of its cluster in its pool and zone.
   */
  lemma ReadyVmIsReplacement(r: Run, k: nat, j: nat, id: string, op: string, vm: Gates.Vm, host: Node)
    requires IsRun(r) && k < j < |r.states| && OfferedAt(r, k, id, op)
    requires FullyTagged(r.actions[k].provision)
    requires id in r.states[j].w.nodes && Tags.ReadyOpTag(op) in r.states[j].w.nodes[id].tags
    requires var n := r.states[j].w.nodes[id]; n.pool == host.pool && n.zone == host.zone && id != vm.systemId
    requires var cluster := r.states[k].w.machines[r.actions[k].uid].placement.clusterId;
      cluster != "" && Gates.LastClusterTag(vm.node.tags) == Tags.ClusterTag(cluster)
    ensures Gates.IsReplacement(Gates.Vm(id, r.states[j].w.nodes[id]), vm, host)
  {
    hide Leads, Tags.ReadyOpTag, Initial, Tags.ClusterTag, Vec.ActiveOps, Gates.LastClusterTag, ReadyTagsOffered,
      NewVmsOffered;
    var cluster := r.states[k].w.machines[r.actions[k].uid].placement.clusterId;
    RunStep(r, k);
    ProvisionHistory(r.states[k], r.actions[k], r.states[k + 1], r.events[k]);
    CpTaggedStays(r, k + 1, j);
    Always(r, j);
    ReadyTagIsReady(r.states[j].w.nodes[id].tags, op);
    assert (id, cluster) in r.states[j].h.cpTagged;
  }

  lemma RunStep(r: Run, k: nat)
    requires IsRun(r) && k < |r.actions|
    ensures Leads(r.states[k], r.actions[k], r.states[k + 1], r.events[k])
  {
    hide Leads;
  }

  lemma ReadyTagIsReady(tags: seq<string>, op: string)
    requires Tags.ReadyOpTag(op) in tags
    ensures Gates.HasReadyTag(tags)
  {
    assert Tags.VM_READY_OP_PREFIX <= Tags.ReadyOpTag(op);
  }
}
