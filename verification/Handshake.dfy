/**
 * The handshake between evacuations: VEC does not act again before the session of its previous action was
 * completed, and a session is only completed for a replacement that exists, is tagged, and joined a stable
 * control plane.
 */
module Handshake {
  import opened Base
  import opened State
  import opened Protocol
  import Effects
  import Frames
  import HmcSession
  import Provenance
  import Provision
  import ProviderIds
  import Quorum
  import Tags
  import Vec

  predicate IsActive(sessions: map<string, VecSession>, op: string) {
    op in sessions && op != "" && sessions[op].status == HmcSession.Active
  }

  // ----- opening -----

  lemma TargetHasOp(w: World, c: Vec.Calls, uid: string)
    ensures Vec.Target(w, c, uid).Some? ==>
      Vec.Target(w, c, uid).value.opId != "" && Vec.Target(w, c, uid).value.uid == uid
  {
    hide Tags.LastOpId, ProviderIds.ExtractSystemID;
  }

  /** Some Machine on a draining host of this operation had its session write go through. */
  ghost predicate Saved(w: World, c: Vec.Calls, order: seq<string>, op: string) {
    exists u :: u in order && u in c.savable && Vec.Target(w, c, u).Some? && Vec.Target(w, c, u).value.opId == op
  }

  lemma {:induction false} ScanOpens(w: World, c: Vec.Calls, order: seq<string>, op: string)
    requires op != ""
    ensures IsActive(Vec.Opened(w, c, order), op) <==> IsActive(w.sessions, op) || Saved(w, c, order, op)
    ensures Saved(w, c, order, op) ==> op in Vec.Opened(w, c, order) && Vec.Opened(w, c, order)[op].newVm == ""
  {
    hide Vec.Target;
    if order != [] {
      var n := |order| - 1;
      ScanOpens(w, c, order[..n], op);
      TargetHasOp(w, c, order[n]);
      assert order == order[..n] + [order[n]];
      SavedSnoc(w, c, order[..n], order[n], op);
    }
  }

  lemma SavedSnoc(w: World, c: Vec.Calls, order: seq<string>, u: string, op: string)
    ensures Saved(w, c, order + [u], op) <==>
      Saved(w, c, order, op) || (u in c.savable && Vec.Target(w, c, u).Some? && Vec.Target(w, c, u).value.opId == op)
  {
    hide Vec.Target;
    if Saved(w, c, order, op) {
      var x :| x in order && x in c.savable && Vec.Target(w, c, x).Some? && Vec.Target(w, c, x).value.opId == op;
      assert x in order + [u];
    }
    assert u in order + [u];
  }

  lemma ActionSessions(w: World, c: Vec.Calls)
    requires Vec.IsAction(Vec.Step(w, c).1)
    ensures Vec.Step(w, c).0.sessions == Vec.Opened(w, c, c.order)
  {
    hide Vec.Findings, Vec.Opened, Vec.OtherDeleting, Vec.Target, Vec.KcpStable, Vec.Replicas, Vec.NewTemplate,
      Vec.ActiveOps;
  }

  /**
   * An action leaves its session open exactly when some session write of its operation went through, and then
   * without a replacement on record.
   */
  lemma ActionOpens(w: World, c: Vec.Calls)
    requires Vec.IsAction(Vec.Step(w, c).1)
    ensures var (w', e) := Vec.Step(w, c);
      && (IsActive(w'.sessions, e.opId) <==> Saved(w, c, c.order, e.opId))
      && (Saved(w, c, c.order, e.opId) ==> e.opId in w'.sessions && w'.sessions[e.opId].newVm == "")
  {
    hide Vec.Step, Vec.Opened, Vec.Target, Vec.OtherDeleting, Vec.KcpStable, Saved;
    Quorum.ActionFindings(w, c);
    ActionSessions(w, c);
    var e := Vec.Step(w, c).1;
    TargetHasOp(w, c, e.uid);
    assert e.opId !in Vec.ActiveOps(w.sessions);
    ScanOpens(w, c, c.order, e.opId);
  }

  // ----- completing -----

  /** What a completed session proves about the state it was completed in. */
  ghost predicate CompletedProperly(s: Sys, t: Sys, op: string, vm: string) {
    && IsActive(s.w.sessions, op) && Vec.KcpStable(s.w.kcp)
    && s.w.sessions[op].newVm == vm != ""
    && t.w.sessions == s.w.sessions[op := s.w.sessions[op].(status := HmcSession.Completed)]
    && (vm in s.w.nodes ==> vm in t.w.nodes && Tags.ReadyOpTag(op) in t.w.nodes[vm].tags)
  }

  lemma CompletionIsProper(w: World, c: Vec.Calls)
    requires Vec.Step(w, c).1.SessionCompleted?
    ensures var (w', e) := Vec.Step(w, c);
      && IsActive(w.sessions, e.opId) && Vec.KcpStable(w.kcp)
      && w.sessions[e.opId].newVm == e.vm != ""
      && w'.sessions == w.sessions[e.opId := w.sessions[e.opId].(status := HmcSession.Completed)]
      && (e.vm in w.nodes ==> e.vm in w'.nodes && Tags.ReadyOpTag(e.opId) in w'.nodes[e.vm].tags)
  {
    hide Vec.Findings, Vec.Opened, Vec.OtherDeleting, Vec.Target, Vec.KcpStable, Vec.Replicas, Vec.NewTemplate,
      Tags.ReadyOpTag;
  }

  /** While a session is open VEC does nothing but try to complete one. */
  lemma OpenSessionBlocks(w: World, c: Vec.Calls, op: string)
    requires IsActive(w.sessions, op)
    ensures var (w', e) := Vec.Step(w, c);
      !Vec.IsAction(e) && (IsActive(w'.sessions, op) || (e.SessionCompleted? && e.opId == op))
  {
    hide Vec.Findings, Vec.Opened, Vec.OtherDeleting, Vec.Target, Vec.KcpStable, Vec.Replicas, Vec.NewTemplate,
      Tags.ReadyOpTag;
    assert op in Vec.ActiveOps(w.sessions);
  }

  // ----- over runs -----

  predicate VecEvent(r: Run, i: nat)
    requires i < |r.actions| == |r.events|
  {
    r.actions[i].VecReconcile? && r.events[i].FromVec?
  }

  /** A Machine deleted or a template swapped at step i. */
  predicate Acts(r: Run, i: nat)
    requires i < |r.actions| == |r.events|
  {
    VecEvent(r, i) && Vec.IsAction(r.events[i].v)
  }

  lemma ProvisioningKeepsOpen(s: Sys, a: Action, t: Sys, e: Event, op: string)
    requires Leads(s, a, t, e) && a.ProvisionVm? && Quorum.ZonesFine(s.w.machines)
    requires IsActive(s.w.sessions, op)
    ensures IsActive(t.w.sessions, op)
  {
    hide Leads, ProviderIds.Print, Effects.Tagged, Effects.FullyTagged, ProviderIds.InstanceId;
    var _ := Frames.ProvisionKeeps(s, a, t, e);
  }

  lemma EnvironmentKeepsSessions(s: Sys, a: Action, t: Sys, e: Event)
    requires Leads(s, a, t, e) && Frames.Environment(a)
    ensures t.w.sessions == s.w.sessions
  {
    hide Permitted;
  }

  /** Only VEC closes a session. */
  lemma StaysOpen(s: Sys, a: Action, t: Sys, e: Event, op: string)
    requires Leads(s, a, t, e) && Quorum.ZonesFine(s.w.machines) && IsActive(s.w.sessions, op)
    ensures IsActive(t.w.sessions, op)
         || (a.VecReconcile? && e.FromVec? && e.v.SessionCompleted? && e.v.opId == op
           && CompletedProperly(s, t, op, e.v.vm))
  {
    hide Leads, Vec.Step, Quorum.ZonesFine;
    if a.VecReconcile? {
      Frames.VecKeeps(s, a, t, e);
      OpenSessionBlocks(s.w, a.vec, op);
      if e.v.SessionCompleted? {
        CompletionIsProper(s.w, a.vec);
      }
    } else if a.ProvisionVm? {
      ProvisioningKeepsOpen(s, a, t, e, op);
    } else if Frames.HostSide(a) {
      Frames.HostSideKeeps(s, a, t, e);
    } else {
      EnvironmentKeepsSessions(s, a, t, e);
    }
  }

  /** A session open at step i and no longer open at step j was completed in between. */
  lemma {:induction false} WhenClosed(r: Run, i: nat, j: nat, op: string) returns (k: nat)
    requires IsRun(r) && i <= j < |r.states|
    requires IsActive(r.states[i].w.sessions, op) && !IsActive(r.states[j].w.sessions, op)
    ensures i <= k < j && VecEvent(r, k) && r.events[k].v.SessionCompleted? && r.events[k].v.opId == op
    ensures CompletedProperly(r.states[k], r.states[k + 1], op, r.events[k].v.vm)
    decreases j - i
  {
    hide Leads, CompletedProperly, IsActive, Initial;
    Quorum.Always(r, i);
    Quorum.InvZones(r.states[i]);
    StaysOpen(r.states[i], r.actions[i], r.states[i + 1], r.events[i], op);
    if IsActive(r.states[i + 1].w.sessions, op) {
      k := WhenClosed(r, i + 1, j, op);
    } else {
      k := i;
    }
  }

  // ----- the replacement -----

  lemma {:induction false} ScanKeepsNewVm(w: World, c: Vec.Calls, order: seq<string>, op: string)
    ensures var after := Vec.Opened(w, c, order);
      op in after && after[op].newVm != "" ==> op in w.sessions && w.sessions[op].newVm == after[op].newVm
  {
    hide Vec.Target;
    if order != [] {
      ScanKeepsNewVm(w, c, order[..|order| - 1], op);
    }
  }

  ghost predicate KeepsNewVm(s: Sys, t: Sys, op: string) {
    op in t.w.sessions && t.w.sessions[op].newVm != "" ==>
      op in s.w.sessions && s.w.sessions[op].newVm == t.w.sessions[op].newVm
  }

  lemma VecKeepsNewVm(s: Sys, a: Action, t: Sys, e: Event, op: string)
    requires Leads(s, a, t, e) && a.VecReconcile?
    ensures KeepsNewVm(s, t, op)
  {
    hide Leads, Vec.Step, Vec.Opened;
    Frames.VecKeeps(s, a, t, e);
    Provenance.VecSessions(s.w, a.vec);
    ScanKeepsNewVm(s.w, a.vec, a.vec.order, op);
  }

  predicate Offers(a: Action, e: Event, vm: string, op: string) {
    a.ProvisionVm? && e.FromProvision? && e.p.Provisioned? && e.p.vm == vm && e.p.offered == Some(op)
  }

  lemma ProvisioningSetsNewVm(s: Sys, a: Action, t: Sys, e: Event, op: string)
    requires Leads(s, a, t, e) && a.ProvisionVm? && Quorum.ZonesFine(s.w.machines)
    ensures op in t.w.sessions ==> KeepsNewVm(s, t, op) || Offers(a, e, t.w.sessions[op].newVm, op)
  {
    hide Leads, Effects.Attempted, Effects.Tagged, Effects.Recorded, Effects.FullyTagged, Provision.Consistent,
      Provision.Picks;
    hide ProviderIds.InstanceId, Vec.ActiveOps;
    var raw := Frames.ProvisionKeeps(s, a, t, e);
    Provenance.AttemptEvent(s, a, t, e, raw);
  }

  lemma NewVmStep(s: Sys, a: Action, t: Sys, e: Event, op: string)
    requires Leads(s, a, t, e) && Quorum.ZonesFine(s.w.machines)
    ensures op in t.w.sessions ==> KeepsNewVm(s, t, op) || Offers(a, e, t.w.sessions[op].newVm, op)
  {
    hide Leads, Quorum.ZonesFine, Offers;
    if a.VecReconcile? {
      VecKeepsNewVm(s, a, t, e, op);
    } else if a.ProvisionVm? {
      ProvisioningSetsNewVm(s, a, t, e, op);
    } else if Frames.HostSide(a) {
      Frames.HostSideKeeps(s, a, t, e);
    } else {
      EnvironmentKeepsSessions(s, a, t, e);
    }
  }

  ghost predicate NoNewVm(s: Sys, op: string) { op in s.w.sessions ==> s.w.sessions[op].newVm == "" }

  /** A replacement that came onto a session's record between two states was provisioned and offered in between. */
  lemma {:induction false} WhenOffered(r: Run, i: nat, k: nat, op: string) returns (m: nat)
    requires IsRun(r) && i <= k < |r.states| && NoNewVm(r.states[i], op) && !NoNewVm(r.states[k], op)
    ensures i <= m < k && Provenance.OfferedAt(r, m, r.states[k].w.sessions[op].newVm, op)
  {
    hide Leads, Initial, Provenance.OfferedAt;
    m := k - 1;
    var s, a, t, e := r.states[m], r.actions[m], r.states[k], r.events[m];
    Quorum.Always(r, m);
    Quorum.InvZones(s);
    NewVmStep(s, a, t, e, op);
    if Offers(a, e, t.w.sessions[op].newVm, op) {
      Provenance.OfferIsForCp(s, a, t, e);
      assert Provenance.OfferedAt(r, m, t.w.sessions[op].newVm, op) by { OfferAt(r, m, t.w.sessions[op].newVm, op); }
    } else {
      m := WhenOffered(r, i, k - 1, op);
    }
  }

  lemma OfferAt(r: Run, m: nat, vm: string, op: string)
    requires m < |r.actions| == |r.events| && |r.states| == |r.actions| + 1
    requires Offers(r.actions[m], r.events[m], vm, op)
    requires Vec.IsCp(r.states[m].w, r.actions[m].uid) && op in Vec.ActiveOps(r.states[m].w.sessions)
    ensures Provenance.OfferedAt(r, m, vm, op)
  {
  }

  /**
   * Between any two evacuation actions a replacement was provisioned for a control-plane Machine while the
   * session of the first action was open, and after that the session went from Active to Completed, with the
   * control plane stable, this replacement on record, and its ready tag assigned.
   */
  lemma BetweenActions(r: Run, i: nat, j: nat) returns (m: nat, k: nat)
    requires IsRun(r) && i < j < |r.actions| && Acts(r, i) && Acts(r, j)
    requires Saved(r.states[i].w, r.actions[i].vec, r.actions[i].vec.order, r.events[i].v.opId)
    ensures i < m < k < j && VecEvent(r, k)
    ensures r.events[k].v.SessionCompleted? && r.events[k].v.opId == r.events[i].v.opId
    ensures CompletedProperly(r.states[k], r.states[k + 1], r.events[i].v.opId, r.events[k].v.vm)
    ensures Provenance.OfferedAt(r, m, r.events[k].v.vm, r.events[i].v.opId)
  {
    hide Leads, Vec.Step, Initial, Vec.KcpStable, Vec.OtherDeleting, Vec.Target, Saved, Provenance.OfferedAt;
    Frames.VecKeeps(r.states[i], r.actions[i], r.states[i + 1], r.events[i]);
    ActionOpens(r.states[i].w, r.actions[i].vec);
    Frames.VecKeeps(r.states[j], r.actions[j], r.states[j + 1], r.events[j]);
    Quorum.ActionFindings(r.states[j].w, r.actions[j].vec);
    var op := r.events[i].v.opId;
    assert !IsActive(r.states[j].w.sessions, op) by {
      assert op !in Vec.ActiveOps(r.states[j].w.sessions);
    }
    k := WhenClosed(r, i + 1, j, op);
    m := WhenOffered(r, i + 1, k, op);
  }

  /** Swapping the template asks for the same machines: only the name the control plane points to changes. */
  lemma SwapKeepsSpec(w: World, c: Vec.Calls)
    requires Vec.Step(w, c).1.TemplateSwapped?
    ensures var w' := Vec.Step(w, c).0;
      && w.kcp.template.Some? && w'.kcp.template.Some?
      && w.kcp.template.value in w.templates && w'.kcp.template.value in w'.templates
      && w'.templates[w'.kcp.template.value].spec == w.templates[w.kcp.template.value].spec
      && (forall name :: name in w.templates ==> name in w'.templates && w'.templates[name] == w.templates[name])
      && w'.kcp.template.value == w.kcp.template.value + "-evac-" + c.suffix
      && w'.templates.Keys == w.templates.Keys + {w'.kcp.template.value}
      && (w'.kcp.template.value !in w.templates ==>
            w'.templates[w'.kcp.template.value].labels == w.templates[w.kcp.template.value].labels)
      && w'.kcp == w.kcp.(template := w'.kcp.template, maxSurge := Some(1))
      && w'.machines == w.machines
  {
    hide Vec.Findings, Vec.Opened, Vec.OtherDeleting, Vec.Target, Vec.KcpStable, Vec.Replicas, Tags.ReadyOpTag,
      Vec.ActiveOps;
  }
}
