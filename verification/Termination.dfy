/**
 * The measure behind evacuation: while the set of draining hosts does not change, every Machine VEC deletes
 * had its VM on one of them from the start, so VEC runs out of Machines to delete and spares replacements.
 */
module Termination {
  import opened Base
  import opened Inventory
  import opened State
  import opened Protocol
  import Drain
  import Effects
  import Frames
  import Gates
  import Ownership
  import ProviderIds
  import Quorum
  import Tags
  import Vec

  /** The hosts VEC evacuates. */
  ghost function Marked(nodes: Nodes): set<string> { set h | h in nodes && Tags.MarkedForEvacuation(nodes[h].tags) }

  ghost predicate SitsOn(s: Sys, uid: string, hosts: set<string>) {
    exists id :: id in s.w.nodes && id in s.h.composed && s.h.composed[id] == uid && s.w.nodes[id].parent in hosts
  }

  /** Control-plane Machines not yet being deleted that have a VM on one of the hosts. */
  ghost function Exposed(s: Sys, hosts: set<string>): set<string> {
    set u | u in s.w.machines && s.w.machines[u].controlPlane && !s.w.machines[u].deleting && SitsOn(s, u, hosts)
  }

  /** No VM of a Machine arrives on the hosts, by composing or by moving. */
  ghost predicate NoArrivals(s: Sys, t: Sys, hosts: set<string>) {
    forall id :: id in t.w.nodes && id in t.h.composed && t.w.nodes[id].parent in hosts ==>
      id in s.w.nodes && id in s.h.composed && s.h.composed[id] == t.h.composed[id]
        && s.w.nodes[id].parent == t.w.nodes[id].parent
  }

  ghost predicate NoReturns(s: Sys, t: Sys) {
    forall u :: u in t.w.machines && u in s.h.uids ==>
      u in s.w.machines && Quorum.SameRole(s.w.machines[u], t.w.machines[u])
  }

  lemma ExposureShrinks(s: Sys, t: Sys, hosts: set<string>)
    requires NoArrivals(s, t, hosts) && NoReturns(s, t)
    requires forall id :: id in s.h.composed ==> s.h.composed[id] in s.h.uids
    ensures Exposed(t, hosts) <= Exposed(s, hosts)
  {
    forall u | u in Exposed(t, hosts) ensures u in Exposed(s, hosts) {
      var id :| id in t.w.nodes && id in t.h.composed && t.h.composed[id] == u && t.w.nodes[id].parent in hosts;
      assert s.h.composed[id] == u;
      assert SitsOn(s, u, hosts);
    }
  }

  // ----- no step lets a VM arrive on a draining host -----

  lemma MarkedIsDraining(nodes: Nodes, host: string)
    ensures host in Marked(nodes) ==> Drain.Draining(nodes, host)
  {
    hide Tags.LastOpId;
  }

  lemma ProvisioningArrivesElsewhere(s: Sys, a: Action, t: Sys, e: Event)
    requires Leads(s, a, t, e) && a.ProvisionVm? && Quorum.ZonesFine(s.w.machines)
    ensures NoArrivals(s, t, Marked(s.w.nodes))
  {
    hide Leads, Marked, Drain.Draining, Drain.ComposedAway;
    Drain.ProvisioningParents(s, a, t, e);
    if e.p.Provisioned? && e.p.composed {
      Drain.ComposedIsAway(s, t, e);
      MarkedIsDraining(s.w.nodes, t.w.nodes[e.p.vm].parent);
    }
  }

  lemma KeptMeansNoArrivals(s: Sys, t: Sys, hosts: set<string>)
    requires Frames.Kept(s.w.nodes, t.w.nodes) && t.h.composed == s.h.composed
    ensures NoArrivals(s, t, hosts)
  {
    hide Frames.KeptTags;
  }

  lemma AppearingIsNoArrival(s: Sys, a: Action, t: Sys, e: Event, hosts: set<string>)
    requires Leads(s, a, t, e) && a.NodeAppears?
    ensures NoArrivals(s, t, hosts)
  {
    hide Owns, Gates.HasReadyTag;
  }

  lemma EnvironmentHistory(s: Sys, a: Action, t: Sys, e: Event)
    requires Leads(s, a, t, e) && Frames.Environment(a)
    ensures t.h.composed == s.h.composed
  {
    hide Permitted, Step;
  }

  lemma NothingArrives(s: Sys, a: Action, t: Sys, e: Event)
    requires Leads(s, a, t, e) && Quorum.ZonesFine(s.w.machines)
    ensures NoArrivals(s, t, Marked(s.w.nodes))
  {
    hide Leads, Marked, Quorum.ZonesFine, Frames.Kept;
    var hosts := Marked(s.w.nodes);
    if a.ProvisionVm? {
      ProvisioningArrivesElsewhere(s, a, t, e);
    } else if a.NodeAppears? {
      AppearingIsNoArrival(s, a, t, e, hosts);
    } else if a.VecReconcile? {
      Frames.VecKeeps(s, a, t, e);
      Frames.VecNodes(s, a, t, e);
    } else {
      if Frames.HostSide(a) {
        Frames.HostSideKeeps(s, a, t, e);
        Frames.HostSideNodes(s, a, t, e);
      } else {
        EnvironmentHistory(s, a, t, e);
        Frames.EnvironmentNodes(s, a, t, e);
      }
      KeptMeansNoArrivals(s, t, hosts);
    }
  }

  lemma CreationIsNoReturn(s: Sys, a: Action, t: Sys, e: Event)
    requires Leads(s, a, t, e) && a.MachineCreated?
    requires s.w.machines.Keys <= s.h.uids
    ensures NoReturns(s, t)
  {
    hide Owns, NamesOf;
  }

  lemma VecIsNoReturn(s: Sys, a: Action, t: Sys, e: Event)
    requires Leads(s, a, t, e) && a.VecReconcile?
    ensures NoReturns(s, t)
  {
    hide Leads, Vec.Step;
    Frames.VecKeeps(s, a, t, e);
    Effects.VecMachines(s.w, a.vec);
  }

  lemma NobodyReturns(s: Sys, a: Action, t: Sys, e: Event)
    requires Leads(s, a, t, e) && Quorum.Inv(s)
    ensures NoReturns(s, t)
  {
    hide Leads;
    if a.MachineCreated? {
      CreationIsNoReturn(s, a, t, e);
    } else if a.VecReconcile? {
      VecIsNoReturn(s, a, t, e);
    } else if a.ProvisionVm? {
      Quorum.ProvisionRoles(s, a, t, e);
    } else if Frames.HostSide(a) {
      Frames.HostSideKeeps(s, a, t, e);
    } else {
      Quorum.EnvironmentRoles(s, a, t, e);
    }
  }

  // ----- what VEC deletes -----

  /** The Machine VEC deletes has its own VM on a marked host. */
  lemma TargetSits(s: Sys, c: Vec.Calls, uid: string)
    requires Ownership.Inv(s) && Vec.Target(s.w, c, uid).Some?
    ensures uid in s.w.machines && SitsOn(s, uid, Marked(s.w.nodes))
  {
    hide ProviderIds.InstanceId, ProviderIds.ExtractSystemID, Tags.MarkedForEvacuation, Tags.LastOpId, Owns, NamesOf,
      Ownership.Hosted;
    var m := s.w.machines[uid];
    var vm := ProviderIds.ExtractSystemID(Text(m.providerID));
    NoIdInNothing();
    assert Ownership.RecordRight(m, uid, s.h.composed);
    assert vm in s.h.composed && s.h.composed[vm] == uid;
  }

  lemma NoIdInNothing()
    ensures ProviderIds.ExtractSystemID("") == ""
  {
  }

  lemma DeletionUsesUpExposure(s: Sys, a: Action, t: Sys, e: Event)
    requires Leads(s, a, t, e) && a.VecReconcile? && e.FromVec? && e.v.MachineDeleted?
    requires Ownership.Inv(s)
    ensures e.v.uid in Exposed(s, Marked(s.w.nodes)) && e.v.uid !in Exposed(t, Marked(s.w.nodes))
  {
    hide Leads, Vec.Step, Ownership.Inv, SitsOn, Vec.Target, Vec.KcpStable, Vec.OtherDeleting;
    Frames.VecKeeps(s, a, t, e);
    Effects.VecMachines(s.w, a.vec);
    Quorum.ActionFindings(s.w, a.vec);
    Quorum.DeletedMachine(s.w, a.vec);
    TargetSits(s, a.vec, e.v.uid);
  }

  // ----- over runs -----

  ghost predicate MarkedThroughout(r: Run, hosts: set<string>, i: nat, j: nat)
    requires i <= j < |r.states|
  {
    forall k :: i <= k < j ==> Marked(r.states[k].w.nodes) == hosts
  }

  ghost function Deletions(r: Run, i: nat, j: nat): nat
    requires i <= j <= |r.actions| == |r.events|
  {
    if i == j then 0 else Deletions(r, i, j - 1) + if Quorum.Deletes(r, j - 1) then 1 else 0
  }

  lemma ExposureStep(s: Sys, a: Action, t: Sys, e: Event)
    requires Leads(s, a, t, e) && Quorum.Inv(s) && Ownership.Inv(s)
    ensures Exposed(t, Marked(s.w.nodes)) <= Exposed(s, Marked(s.w.nodes))
  {
    hide Leads, Quorum.Inv, Ownership.Named, Ownership.Tracked, Exposed, NoArrivals, NoReturns, Owns;
    Quorum.InvZones(s);
    NothingArrives(s, a, t, e);
    NobodyReturns(s, a, t, e);
    ExposureShrinks(s, t, Marked(s.w.nodes));
  }

  lemma Smaller(a: set<string>, b: set<string>, x: string)
    requires a <= b && x in b && x !in a
    ensures |a| + 1 <= |b|
  {
    assert |b - {x}| == |b| - 1;
    Subset(a, b - {x});
  }

  lemma Subset(a: set<string>, b: set<string>)
    requires a <= b
    ensures |a| <= |b|
  {
    assert b == a + (b - a);
  }

  /**
   * While the draining hosts are the same, VEC deletes at most as many Machines as had their VM there in the
   * beginning, and only such Machines: never one created later, never a replacement.
   */
  lemma {:induction false} DeletionsAreBounded(r: Run, hosts: set<string>, i: nat, j: nat)
    requires IsRun(r) && i <= j < |r.states| && MarkedThroughout(r, hosts, i, j)
    ensures Exposed(r.states[j], hosts) <= Exposed(r.states[i], hosts)
    ensures Deletions(r, i, j) + |Exposed(r.states[j], hosts)| <= |Exposed(r.states[i], hosts)|
    ensures forall k :: i <= k < j && Quorum.Deletes(r, k) ==> r.events[k].v.uid in Exposed(r.states[i], hosts)
  {
    hide Leads, Marked, Exposed, Initial;
    if i < j {
      var s, a, t, e := r.states[j - 1], r.actions[j - 1], r.states[j], r.events[j - 1];
      DeletionsAreBounded(r, hosts, i, j - 1);
      Quorum.Always(r, j - 1);
      Ownership.Always(r, j - 1);
      ExposureStep(s, a, t, e);
      Subset(Exposed(t, hosts), Exposed(s, hosts));
      if Quorum.Deletes(r, j - 1) {
        DeletionUsesUpExposure(s, a, t, e);
        Smaller(Exposed(t, hosts), Exposed(s, hosts), e.v.uid);
      }
    }
  }
}
