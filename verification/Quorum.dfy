/**
 * Quorum safety of evacuation: VEC takes away at most one control-plane Machine at a time, only from a
 * control plane that can spare it, and never the same one twice.
 */
module Quorum {
  import opened Base
  import opened State
  import opened Protocol
  import Effects
  import Frames
  import ProviderIds
  import Tags
  import Vec

  // ----- one deletion -----

  lemma {:induction false} FirstFinding(w: World, c: Vec.Calls, order: seq<string>)
    requires Vec.Findings(w, c, order) != []
    ensures var f := Vec.Findings(w, c, order)[0]; Vec.Target(w, c, f.uid) == Some(f) && f.uid in order
  {
    hide Vec.Target;
    var n := |order| - 1;
    if Vec.Findings(w, c, order[..n]) != [] {
      FirstFinding(w, c, order[..n]);
    } else {
      TargetIsItself(w, c, order[n]);
    }
  }

  lemma TargetIsItself(w: World, c: Vec.Calls, uid: string)
    ensures Vec.Target(w, c, uid).Some? ==> Vec.Target(w, c, uid).value.uid == uid
  {
    hide Tags.MarkedForEvacuation, Tags.LastOpId, ProviderIds.ExtractSystemID;
  }

  /** An evacuation action has a first finding, and nothing else going on. */
  ghost predicate ActsOn(w: World, c: Vec.Calls, opId: string, uid: string) {
    && Vec.ActiveOps(w.sessions) == {} && Vec.KcpStable(w.kcp)
    && !Vec.OtherDeleting(w, uid)
    && uid in c.order && Vec.Target(w, c, uid).Some? && Vec.Target(w, c, uid).value.opId == opId
  }

  lemma ActionFindings(w: World, c: Vec.Calls)
    requires Vec.IsAction(Vec.Step(w, c).1)
    ensures var e := Vec.Step(w, c).1; ActsOn(w, c, e.opId, e.uid)
    ensures Vec.Findings(w, c, c.order) != []
    ensures Vec.Step(w, c).1.MachineDeleted? ==> Vec.Replicas(w.kcp) >= 3
    ensures Vec.Step(w, c).1.TemplateSwapped? ==> Vec.Replicas(w.kcp) == 1
  {
    hide Vec.Findings, Vec.Opened, Vec.OtherDeleting, Vec.Target, Vec.KcpStable, Vec.Replicas, Vec.NewTemplate,
      Vec.ActiveOps;
    FirstFinding(w, c, c.order);
  }

  /** What holds of the Machine VEC decides to delete. */
  lemma DeletedMachine(w: World, c: Vec.Calls)
    requires Vec.Step(w, c).1.MachineDeleted?
    ensures var uid := Vec.Step(w, c).1.uid; Vec.IsCp(w, uid) && !w.machines[uid].deleting
    ensures forall u :: u in w.machines && w.machines[u].controlPlane ==> !w.machines[u].deleting
  {
    hide Vec.Step, Vec.KcpStable, Vec.ActiveOps, Tags.MarkedForEvacuation, Tags.LastOpId, ProviderIds.ExtractSystemID;
    ActionFindings(w, c);
  }

  // ----- the margin -----

  /** Control-plane members that are ready and not on their way out. */
  ghost function Serving(w: World): set<string> {
    set u | u in w.machines && w.machines[u].controlPlane && w.machines[u].ready && !w.machines[u].deleting
  }

  ghost function Ready(w: World): set<string> {
    set u | u in w.machines && w.machines[u].controlPlane && w.machines[u].ready
  }

  /** The KCP counters say what is true of the Machines, deleting ones included. */
  ghost predicate CountersCurrent(w: World) { w.kcp.readyReplicas == Some(|Ready(w)|) }

  /**
   * If the counters are current when VEC reads them, it deletes only from a full control plane of at least
   * three, and what keeps serving right after the step is still a quorum with one member to spare at most.
   */
  lemma DeletionLeavesQuorum(w: World, c: Vec.Calls)
    requires CountersCurrent(w) && Vec.Step(w, c).1.MachineDeleted?
    ensures w.kcp.specReplicas.Some? && w.kcp.specReplicas.value == |Serving(w)| >= 3
    ensures var n := w.kcp.specReplicas.value; |Serving(Vec.Step(w, c).0)| >= n - 1 >= n / 2 + 1
  {
    hide Vec.Step;
    ActionFindings(w, c);
    DeletedMachine(w, c);
    Effects.VecMachines(w, c);
    var uid := Vec.Step(w, c).1.uid;
    assert Serving(w) == Ready(w);
    var after := Serving(Vec.Step(w, c).0);
    assert after == Serving(w) - {uid};
    if uid in Serving(w) {
      assert Serving(w) == after + {uid};
    }
  }

  // ----- over runs -----

  ghost function UnderVecDeletion(s: Sys): set<string> { s.h.vecDeleted * s.w.machines.Keys }

  ghost predicate Inv(s: Sys) {
    && s.w.machines.Keys <= s.h.uids && s.h.vecDeleted <= s.h.uids
    && ZonesFine(s.w.machines)
    && (forall u :: u in UnderVecDeletion(s) ==> s.w.machines[u].controlPlane && s.w.machines[u].deleting)
    && (forall u, v :: u in UnderVecDeletion(s) && v in UnderVecDeletion(s) ==> u == v)
  }

  ghost predicate ZonesFine(machines: map<string, Machine>) {
    forall u :: u in machines ==> '\n' !in machines[u].placement.zone
  }

  predicate SameRole(a: Machine, b: Machine) {
    a.controlPlane == b.controlPlane && (a.deleting ==> b.deleting) && a.placement == b.placement
  }

  ghost predicate SameRoles(a: map<string, Machine>, b: map<string, Machine>) {
    b.Keys <= a.Keys && forall u :: u in b ==> SameRole(a[u], b[u])
  }

  lemma ProvisionRoles(s: Sys, a: Action, t: Sys, e: Event)
    requires Leads(s, a, t, e) && a.ProvisionVm? && ZonesFine(s.w.machines)
    ensures SameRoles(s.w.machines, t.w.machines) && t.h.vecDeleted == s.h.vecDeleted && t.h.uids == s.h.uids
  {
    hide Leads, ProviderIds.Print, Effects.Tagged, Effects.FullyTagged, ProviderIds.InstanceId;
    var raw := Frames.ProvisionKeeps(s, a, t, e);
  }

  lemma EnvironmentRoles(s: Sys, a: Action, t: Sys, e: Event)
    requires Leads(s, a, t, e) && Frames.Environment(a) && !a.MachineCreated?
    ensures SameRoles(s.w.machines, t.w.machines) && t.h.vecDeleted == s.h.vecDeleted && t.h.uids == s.h.uids
  {
    hide Permitted;
  }

  lemma RolesKeepInv(s: Sys, t: Sys)
    requires Inv(s)
    requires SameRoles(s.w.machines, t.w.machines) && t.h.vecDeleted == s.h.vecDeleted && t.h.uids == s.h.uids
    ensures Inv(t)
  {
  }

  lemma VecKeepsInv(s: Sys, a: Action, t: Sys, e: Event)
    requires Leads(s, a, t, e) && a.VecReconcile? && Inv(s)
    ensures Inv(t)
    ensures e.v.MachineDeleted? ==> e.v.uid !in s.h.vecDeleted
  {
    hide Leads, Vec.Step;
    Frames.VecKeeps(s, a, t, e);
    Effects.VecMachines(s.w, a.vec);
    if e.v.MachineDeleted? {
      DeletedMachine(s.w, a.vec);
    }
  }

  lemma CreationKeepsInv(s: Sys, a: Action, t: Sys, e: Event)
    requires Leads(s, a, t, e) && a.MachineCreated? && Inv(s)
    ensures Inv(t)
  {
    hide NamesOf, Owns;
  }

  lemma StepKeepsInv(s: Sys, a: Action, t: Sys, e: Event)
    requires Leads(s, a, t, e) && Inv(s)
    ensures Inv(t)
  {
    hide Leads, Inv;
    if a.VecReconcile? {
      VecKeepsInv(s, a, t, e);
    } else if a.MachineCreated? {
      CreationKeepsInv(s, a, t, e);
    } else {
      assert ZonesFine(s.w.machines) by { InvZones(s); }
      if a.ProvisionVm? {
        ProvisionRoles(s, a, t, e);
      } else if Frames.HostSide(a) {
        Frames.HostSideKeeps(s, a, t, e);
      } else {
        EnvironmentRoles(s, a, t, e);
      }
      RolesKeepInv(s, t);
    }
  }

  lemma InvZones(s: Sys)
    requires Inv(s)
    ensures ZonesFine(s.w.machines)
  {
  }

  lemma {:induction false} Always(r: Run, i: nat)
    requires IsRun(r) && i < |r.states|
    ensures Inv(r.states[i])
  {
    hide Leads;
    if i > 0 {
      Always(r, i - 1);
      StepKeepsInv(r.states[i - 1], r.actions[i - 1], r.states[i], r.events[i - 1]);
    }
  }

  lemma {:induction false} DeletedStaysDeleted(r: Run, i: nat, j: nat)
    requires IsRun(r) && i <= j < |r.states|
    ensures r.states[i].h.vecDeleted <= r.states[j].h.vecDeleted
  {
    hide Leads;
    if i < j {
      DeletedStaysDeleted(r, i, j - 1);
      HistoryGrows(r.states[j - 1], r.actions[j - 1], r.states[j], r.events[j - 1]);
    }
  }

  lemma HistoryGrows(s: Sys, a: Action, t: Sys, e: Event)
    requires Leads(s, a, t, e)
    ensures s.h.vecDeleted <= t.h.vecDeleted
    ensures e.FromVec? && e.v.MachineDeleted? && a.VecReconcile? ==> e.v.uid in t.h.vecDeleted
  {
    hide Permitted, Step;
  }

  /** In every reachable state at most one Machine that VEC deleted is still there, and it is a control-plane one. */
  lemma AtMostOneUnderDeletion(r: Run, i: nat)
    requires IsRun(r) && i < |r.states|
    ensures |UnderVecDeletion(r.states[i])| <= 1
    ensures forall u :: u in UnderVecDeletion(r.states[i]) ==>
      r.states[i].w.machines[u].controlPlane && r.states[i].w.machines[u].deleting
  {
    hide IsRun;
    Always(r, i);
    var d := UnderVecDeletion(r.states[i]);
    if u :| u in d {
      assert d == {u};
    }
  }

  predicate Deletes(r: Run, i: nat)
    requires i < |r.actions| == |r.events|
  {
    r.actions[i].VecReconcile? && r.events[i].FromVec? && r.events[i].v.MachineDeleted?
  }

  /** VEC never deletes the same Machine twice, not even across restarts of an evacuation. */
  lemma NeverTwice(r: Run, i: nat, j: nat)
    requires IsRun(r) && i < j < |r.actions| && Deletes(r, i) && Deletes(r, j)
    ensures r.events[i].v.uid != r.events[j].v.uid
  {
    hide Leads, Inv;
    Always(r, j);
    HistoryGrows(r.states[i], r.actions[i], r.states[i + 1], r.events[i]);
    DeletedStaysDeleted(r, i + 1, j);
    VecKeepsInv(r.states[j], r.actions[j], r.states[j + 1], r.events[j]);
  }
}
