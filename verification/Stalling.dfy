/**
 * The other side of the handshake: when VEC opens a session without acting on it, when it completes one, and how
 * long a session without a replacement holds everything up.
 */
module Stalling {
  import opened Base
  import opened State
  import opened Protocol
  import opened Handshake
  import Effects
  import Frames
  import Inventory
  import Provenance
  import Provision
  import ProviderIds
  import Quorum
  import Selector
  import Tags
  import Vec

  // ----- stalling -----

  /**
   * The price of the handshake: an open session without a replacement blocks every evacuation action for as
   * long as no control-plane VM is offered to it.
   */
  lemma {:induction false} StallsUntilOffered(r: Run, i: nat, j: nat, op: string)
    requires IsRun(r) && i <= j < |r.states|
    requires IsActive(r.states[i].w.sessions, op) && r.states[i].w.sessions[op].newVm == ""
    requires forall k, vm :: i <= k < j ==> !Offers(r.actions[k], r.events[k], vm, op)
    ensures IsActive(r.states[j].w.sessions, op) && r.states[j].w.sessions[op].newVm == ""
    ensures forall k :: i <= k < j ==> !Acts(r, k)
  {
    hide Leads, Initial, Offers, Vec.Step, Vec.KcpStable;
    if i < j {
      StallsUntilOffered(r, i, j - 1, op);
      var s, a, t, e := r.states[j - 1], r.actions[j - 1], r.states[j], r.events[j - 1];
      Quorum.Always(r, j - 1);
      Quorum.InvZones(s);
      StaysOpen(s, a, t, e, op);
      NewVmStep(s, a, t, e, op);
      if a.VecReconcile? {
        Frames.VecKeeps(s, a, t, e);
        OpenSessionBlocks(s.w, a.vec, op);
      }
    }
  }

  lemma OfferIsRecorded(s: Sys, a: Action, t: Sys, e: Event, vm: string, op: string)
    requires Leads(s, a, t, e) && Offers(a, e, vm, op) && Quorum.ZonesFine(s.w.machines)
    ensures op in t.w.sessions && t.w.sessions[op].newVm == vm != ""
  {
    hide Leads, Effects.Attempted, Effects.Tagged, Effects.Recorded, Effects.FullyTagged, Provision.Consistent,
      Provision.Picks;
    hide ProviderIds.InstanceId;
    var raw := Frames.ProvisionKeeps(s, a, t, e);
    Provenance.AttemptEvent(s, a, t, e, raw);
  }

  predicate Stalled(s: Sys, op: string) { IsActive(s.w.sessions, op) && s.w.sessions[op].newVm == "" }

  /** A stalled session stays stalled for exactly as long as no control-plane VM is offered to it. */
  lemma StalledExactly(r: Run, i: nat, j: nat, op: string)
    requires IsRun(r) && i <= j < |r.states| && Stalled(r.states[i], op)
    ensures (forall k :: i <= k <= j ==> Stalled(r.states[k], op))
       <==> (forall k, vm :: i <= k < j ==> !Offers(r.actions[k], r.events[k], vm, op))
  {
    hide Leads, Initial, Offers, IsActive;
    if forall k, vm :: i <= k < j ==> !Offers(r.actions[k], r.events[k], vm, op) {
      forall k | i <= k <= j ensures Stalled(r.states[k], op) {
        StallsUntilOffered(r, i, k, op);
      }
    } else {
      var k, vm :| i <= k < j && Offers(r.actions[k], r.events[k], vm, op);
      Quorum.Always(r, k);
      Quorum.InvZones(r.states[k]);
      OfferIsRecorded(r.states[k], r.actions[k], r.states[k + 1], r.events[k], vm, op);
      assert !Stalled(r.states[k + 1], op);
    }
  }

  // ----- opening, acting and completing, exactly -----

  /** Every remote call of the reconcile succeeds, session writes aside. */
  predicate Through(c: Vec.Calls) {
    && c.proceed && c.listSessionsOk && c.kcpOk && c.getSessionOk && c.assignOk && c.completeOk && c.listMachinesOk
    && c.recheckOk && c.deleteOk && c.getTemplateOk && c.createOk && c.getExistingOk && c.updateKcpOk
  }

  /** With a session open, a reconcile completes it exactly when the KCP is stable and a replacement is on record. */
  lemma CompletesExactly(w: World, c: Vec.Calls)
    requires Through(c) && c.active in Vec.ActiveOps(w.sessions)
    ensures Vec.Step(w, c).1.SessionCompleted? <==> Vec.KcpStable(w.kcp) && w.sessions[c.active].newVm != ""
  {
    hide Vec.KcpStable, Vec.Findings, Vec.Opened, Vec.OtherDeleting, Tags.ReadyOpTag, Vec.Evacuate;
  }

  /** The control plane can spare the Machine, and its replica count is one VEC has a strategy for. */
  ghost predicate MayAct(w: World, c: Vec.Calls, uid: string) {
    && Vec.KcpStable(w.kcp) && !Vec.OtherDeleting(w, uid)
    && (Vec.Replicas(w.kcp) >= 3 || (Vec.Replicas(w.kcp) == 1 && Vec.NewTemplate(w, c).Some?))
  }

  /** Without one, it acts exactly when there is a finding and it may. */
  lemma ActsExactly(w: World, c: Vec.Calls)
    requires Through(c) && Vec.ActiveOps(w.sessions) == {}
    ensures var found := Vec.Findings(w, c, c.order);
      Vec.IsAction(Vec.Step(w, c).1) <==> found != [] && MayAct(w, c, found[0].uid)
  {
    hide Vec.KcpStable, Vec.Findings, Vec.Opened, Vec.OtherDeleting, Vec.Target, Vec.Replicas, Vec.NewTemplate,
      Vec.ActiveOps;
    var found := Vec.Findings(w, c, c.order);
    if found != [] {
      Quorum.FirstFinding(w, c, c.order);
      TargetIsCp(w, c, found[0].uid);
      TemplateIgnoresSessions(w, c, Vec.Opened(w, c, c.order));
    }
  }

  lemma TargetIsCp(w: World, c: Vec.Calls, uid: string)
    requires Vec.Target(w, c, uid).Some?
    ensures uid in w.machines
  {
    hide Tags.MarkedForEvacuation, Tags.LastOpId, ProviderIds.ExtractSystemID;
  }

  lemma TemplateIgnoresSessions(w: World, c: Vec.Calls, sessions: map<string, VecSession>)
    ensures Vec.NewTemplate(w.(sessions := sessions), c) == Vec.NewTemplate(w, c)
  {
  }

  /** What a scan opens does not depend on whether VEC then acts. */
  lemma ScanSessions(w: World, c: Vec.Calls)
    requires Through(c) && Vec.ActiveOps(w.sessions) == {}
    ensures Vec.Step(w, c).0.sessions == Vec.Opened(w, c, c.order)
  {
    hide Vec.Findings, Vec.Opened, Vec.OtherDeleting, Vec.Target, Vec.KcpStable, Vec.Replicas, Vec.NewTemplate,
      Vec.ActiveOps;
  }

  lemma {:induction false} SavedIsFound(w: World, c: Vec.Calls, order: seq<string>, op: string)
    requires Saved(w, c, order, op)
    ensures Vec.Findings(w, c, order) != []
  {
    hide Vec.Target;
    var n := |order| - 1;
    if Vec.Target(w, c, order[n]).None? {
      assert order == order[..n] + [order[n]];
      SavedSnoc(w, c, order[..n], order[n], op);
      SavedIsFound(w, c, order[..n], op);
    }
  }

  /**
   * A reconcile leaves a session open without acting exactly when some session write went through and VEC may
   * not act: the KCP is unstable, another control-plane Machine is being deleted, there is no new template to
   * swap to, or the replica count is neither 1 nor at least 3. With two replicas VEC opens sessions for nothing.
   */
  lemma OpensWithoutActingExactly(w: World, c: Vec.Calls, op: string)
    requires Through(c) && Vec.ActiveOps(w.sessions) == {} && op != ""
    ensures var (w', e) := Vec.Step(w, c);
      var found := Vec.Findings(w, c, c.order);
      IsActive(w'.sessions, op) && !Vec.IsAction(e) <==>
        Saved(w, c, c.order, op) && found != [] && !MayAct(w, c, found[0].uid)
  {
    hide Vec.Step, Vec.Opened, MayAct, Vec.Target, Saved;
    ScanSessions(w, c);
    if Saved(w, c, c.order, op) {
      SavedIsFound(w, c, c.order, op);
    }
    ScanOpens(w, c, c.order, op);
    ActsExactly(w, c);
    assert !IsActive(w.sessions, op) by {
      assert op !in Vec.ActiveOps(w.sessions);
    }
  }

  // ----- an instance -----

  /** One control-plane Machine, whose VM v sits on host m, and m drains for operation op. */
  function Drained(kcp: Kcp): World {
    World(
      map["m" := Inventory.Node("", "bare", "ipmi", "on", "Deployed", "z", "p",
                                [Tags.HOST_MAINTENANCE, Tags.HOST_NO_SCHEDULE, Tags.OpTag("op")]),
          "v" := Inventory.Node("m", "vm", "lxd", "on", "Deployed", "z", "p", [])],
      kcp, map[],
      map["u" := Machine(true, false, "infra", false, "u", "vm", Selector.Options("", "", [], 0, 0, 0, "c"),
                         Some(ProviderIds.Print("z", "v")), Some("v"), true)],
      map[], map[], map[], None)
  }

  const SMOOTH :=
    Vec.Calls(true, true, "", true, true, true, true, true, ["u"], {"u"}, {"u"}, true, true, true, true, true, "x",
      true)

  /** Two of three replicas are up to date. */
  const UNSTABLE := Kcp(None, Some(3), Some(3), Some(2), Some(3), None, None)

  const TWO := Kcp(None, Some(2), Some(2), Some(2), Some(2), None, None)

  lemma DrainedIsMarked()
    ensures var tags := [Tags.HOST_MAINTENANCE, Tags.HOST_NO_SCHEDULE, Tags.OpTag("op")];
      Tags.MarkedForEvacuation(tags) && Tags.LastOpId(tags) == "op"
  {
    var tags := [Tags.HOST_MAINTENANCE, Tags.HOST_NO_SCHEDULE, Tags.OpTag("op")];
    assert tags[0] in tags && tags[1] in tags && tags[2] == Tags.OpTag("op");
    assert Tags.IsOpTag(tags[2]) && tags[2][|Tags.HOST_OP_PREFIX|..] == "op";
  }

  lemma DrainedTarget(kcp: Kcp)
    ensures Vec.Target(Drained(kcp), SMOOTH, "u") == Some(Vec.Found("u", "m", "op"))
  {
    hide Tags.MarkedForEvacuation, Tags.LastOpId, Tags.OpTag, ProviderIds.ExtractSystemID, ProviderIds.Print;
    DrainedIsMarked();
    ProviderIds.RoundTrip("z", "v");
  }

  /**
   * Neither an unstable control plane nor one of two replicas keeps VEC from opening the session, and in neither
   * case does it evacuate anything.
   */
  lemma OpenedForNothing(kcp: Kcp)
    requires kcp in {UNSTABLE, TWO}
    ensures Through(SMOOTH) && Vec.Consistent(Drained(kcp), SMOOTH)
    ensures var (w', e) := Vec.Step(Drained(kcp), SMOOTH);
      e == Vec.Quiet && IsActive(w'.sessions, "op") && w'.sessions["op"].newVm == ""
  {
    hide Vec.Target, Vec.Step, Vec.Findings, Vec.Opened;
    var w := Drained(kcp);
    DrainedTarget(kcp);
    assert SMOOTH.order[0] == "u" && Saved(w, SMOOTH, SMOOTH.order, "op");
    assert Vec.ActiveOps(w.sessions) == {};
    SavedIsFound(w, SMOOTH, SMOOTH.order, "op");
    assert !MayAct(w, SMOOTH, Vec.Findings(w, SMOOTH, SMOOTH.order)[0].uid);
    OpensWithoutActingExactly(w, SMOOTH, "op");
    ScanSessions(w, SMOOTH);
    ScanOpens(w, SMOOTH, SMOOTH.order, "op");
    NothingToComplete(w, SMOOTH);
  }

  lemma NothingToComplete(w: World, c: Vec.Calls)
    requires Vec.ActiveOps(w.sessions) == {}
    ensures !Vec.Step(w, c).1.SessionCompleted?
  {
    hide Vec.Findings, Vec.Opened, Vec.OtherDeleting, Vec.Target, Vec.KcpStable, Vec.Replicas, Vec.NewTemplate,
      Vec.ActiveOps;
  }

  // ----- no session, no handshake -----

  const SINGLE := Kcp(None, Some(1), Some(1), Some(1), Some(1), Some("t"), None)

  function DrainedSingle(): World { Drained(SINGLE).(templates := map["t" := Template("", "spec")]) }

  /** Every call succeeds but the session writes. */
  function Unsaved(suffix: string): Vec.Calls { SMOOTH.(savable := {}, suffix := suffix) }

  ghost predicate SameScan(w: World, w': World) {
    w'.nodes == w.nodes && w'.machines == w.machines && w'.sessions == w.sessions
  }

  lemma {:induction false} NothingSaved(w: World, suffix: string, order: seq<string>)
    ensures Vec.Opened(w, Unsaved(suffix), order) == w.sessions
  {
    hide Vec.Target;
    if order != [] {
      NothingSaved(w, suffix, order[..|order| - 1]);
      TargetHasOp(w, Unsaved(suffix), order[|order| - 1]);
    }
  }

  lemma FindsHost(w: World, suffix: string)
    requires SameScan(DrainedSingle(), w)
    ensures Vec.Target(w, Unsaved(suffix), "u") == Some(Vec.Found("u", "m", "op"))
    ensures Vec.Findings(w, Unsaved(suffix), ["u"]) == [Vec.Found("u", "m", "op")]
  {
    hide Vec.Target;
    DrainedTarget(SINGLE);
    TargetByScan(Drained(SINGLE), w, SMOOTH, Unsaved(suffix), "u");
    assert ["u"][..0] == [] && Vec.Findings(w, Unsaved(suffix), []) == [];
  }

  lemma TargetByScan(a: World, b: World, c: Vec.Calls, d: Vec.Calls, uid: string)
    requires SameScan(a, b) && c.readable == d.readable
    ensures Vec.Target(a, c, uid) == Vec.Target(b, d, uid)
  {
    hide Tags.MarkedForEvacuation, Tags.LastOpId, ProviderIds.ExtractSystemID;
  }

  lemma SwapsAgain(w: World, suffix: string)
    requires SameScan(DrainedSingle(), w) && w.kcp == SINGLE.(template := w.kcp.template, maxSurge := w.kcp.maxSurge)
    requires Vec.NewTemplate(w, Unsaved(suffix)).Some?
    ensures Vec.Step(w, Unsaved(suffix)).1.TemplateSwapped?
    ensures SameScan(DrainedSingle(), Vec.Step(w, Unsaved(suffix)).0)
  {
    hide Vec.Step, Vec.Target, Vec.Findings, Vec.Opened, Vec.NewTemplate;
    var c := Unsaved(suffix);
    FindsHost(w, suffix);
    assert Vec.ActiveOps(w.sessions) == {};
    assert MayAct(w, c, "u");
    ActsExactly(w, c);
    Quorum.ActionFindings(w, c);
    ActionSessions(w, c);
    NothingSaved(w, suffix, c.order);
    SwapKeepsSpec(w, c);
    SwapKeepsNodes(w, c);
  }

  lemma SwapKeepsNodes(w: World, c: Vec.Calls)
    requires Vec.IsAction(Vec.Step(w, c).1)
    ensures Vec.Step(w, c).0.nodes == w.nodes
  {
    hide Vec.Findings, Vec.Opened, Vec.OtherDeleting, Vec.Target, Vec.KcpStable, Vec.Replicas, Vec.NewTemplate;
    hide Vec.ActiveOps;
  }

  lemma SwapNames(w: World, c: Vec.Calls)
    requires Vec.Step(w, c).1.TemplateSwapped? && w.kcp.template.Some?
    ensures Vec.Step(w, c).0.kcp.template == Some(w.kcp.template.value + "-evac-" + c.suffix)
    ensures forall name :: name in Vec.Step(w, c).0.templates ==>
      name in w.templates || Some(name) == Vec.Step(w, c).0.kcp.template
  {
    hide Vec.Findings, Vec.Opened, Vec.OtherDeleting, Vec.Target, Vec.KcpStable, Vec.Replicas, Vec.ActiveOps;
  }

  /**
   * If its session write fails, an action leaves nothing to wait for: VEC swaps the template of the one-replica
   * control plane twice in a row, with no replacement provisioned in between.
   */
  lemma UnsavedActsTwice()
    ensures var (w', e) := Vec.Step(DrainedSingle(), Unsaved("x"));
      e.TemplateSwapped? && Vec.Step(w', Unsaved("y")).1.TemplateSwapped?
  {
    hide Vec.Step, Vec.Target;
    var w := DrainedSingle();
    assert Vec.NewTemplate(w, Unsaved("x")).Some?;
    SwapsAgain(w, "x");
    SwapKeepsSpec(w, Unsaved("x"));
    SwapNames(w, Unsaved("x"));
    var w' := Vec.Step(w, Unsaved("x")).0;
    var name := w'.kcp.template.value + "-evac-" + "y";
    assert |name| > |w'.kcp.template.value| > |"t"|;
    assert name !in w'.templates;
    SwapsAgain(w', "y");
  }
}
