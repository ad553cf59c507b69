/**
 * What one reconcile of VEC decides, in terms of the objects it reads: which Machine it picks, and whether it
 * deletes that Machine, swaps the template or leaves everything as it is.
 */
module Strategy {
  import opened Base
  import opened Inventory
  import opened State
  import Handshake
  import HmcSession
  import ProviderIds
  import Quorum
  import Tags
  import Vec

  // ----- which Machine -----

  /** The operation a host's tags name: the last tag with the prefix decides. */
  ghost predicate NamesOperation(tags: seq<string>, op: string) {
    exists k ::
      && 0 <= k < |tags| && tags[k] == Tags.HOST_OP_PREFIX + op
      && forall j :: k < j < |tags| ==> !(Tags.HOST_OP_PREFIX <= tags[j])
  }

  lemma {:induction false} LastOpIdNames(tags: seq<string>, op: string)
    requires op != ""
    ensures Tags.LastOpId(tags) == op <==> NamesOperation(tags, op)
  {
    if tags != [] {
      var n := |tags| - 1;
      if Tags.HOST_OP_PREFIX <= tags[n] {
        assert tags[n] == Tags.HOST_OP_PREFIX + tags[n][|Tags.HOST_OP_PREFIX|..];
        assert (Tags.HOST_OP_PREFIX + op)[|Tags.HOST_OP_PREFIX|..] == op;
      } else {
        LastOpIdNames(tags[..n], op);
        NamesInPrefix(tags, op);
      }
    }
  }

  lemma NamesInPrefix(tags: seq<string>, op: string)
    requires tags != [] && !(Tags.HOST_OP_PREFIX <= tags[|tags| - 1])
    ensures NamesOperation(tags, op) <==> NamesOperation(tags[..|tags| - 1], op)
  {
    hide Tags.HOST_OP_PREFIX;
    var init := tags[..|tags| - 1];
    if NamesOperation(tags, op) {
      var k :| 0 <= k < |tags| && tags[k] == Tags.HOST_OP_PREFIX + op
        && forall j :: k < j < |tags| ==> !(Tags.HOST_OP_PREFIX <= tags[j]);
      assert k < |init| by { assert Tags.HOST_OP_PREFIX <= Tags.HOST_OP_PREFIX + op; }
      assert init[k] == tags[k];
    }
    if NamesOperation(init, op) {
      var k :| 0 <= k < |init| && init[k] == Tags.HOST_OP_PREFIX + op
        && forall j :: k < j < |init| ==> !(Tags.HOST_OP_PREFIX <= init[j]);
      assert tags[k] == init[k];
      assert forall j :: k < j < |init| ==> tags[j] == init[j];
    }
  }

  /** A control-plane Machine not being deleted whose VM sits on a host with both drain tags and an operation tag. */
  ghost predicate OnDrainingHost(w: World, uid: string, host: string, op: string) {
    && uid in w.machines && w.machines[uid].controlPlane && !w.machines[uid].deleting && w.machines[uid].infraRef != ""
    && (var vm := ProviderIds.ExtractSystemID(Text(w.machines[uid].providerID));
        vm != "" && vm in w.nodes && w.nodes[vm].parent == host)
    && host != "" && host in w.nodes
    && Tags.HOST_MAINTENANCE in w.nodes[host].tags && Tags.HOST_NO_SCHEDULE in w.nodes[host].tags
    && op != "" && NamesOperation(w.nodes[host].tags, op)
  }

  lemma TargetExactly(w: World, c: Vec.Calls, uid: string, host: string, op: string)
    ensures Vec.Target(w, c, uid) == Some(Vec.Found(uid, host, op)) <==>
      uid in c.readable && OnDrainingHost(w, uid, host, op)
  {
    hide Tags.LastOpId, ProviderIds.ExtractSystemID, NamesOperation, Tags.HOST_MAINTENANCE, Tags.HOST_NO_SCHEDULE;
    if host in w.nodes && op != "" {
      LastOpIdNames(w.nodes[host].tags, op);
    }
    if Vec.Target(w, c, uid) == Some(Vec.Found(uid, host, op)) {
      Handshake.TargetHasOp(w, c, uid);
    }
  }

  /** The Machine VEC works on is the first in list order that sits on a draining host and could be read. */
  ghost predicate Picks(w: World, c: Vec.Calls, k: int, f: Vec.Found) {
    && 0 <= k < |c.order| && f.uid == c.order[k]
    && f.uid in c.readable && OnDrainingHost(w, f.uid, f.host, f.opId)
    && forall j, host, op :: 0 <= j < k && c.order[j] in c.readable ==> !OnDrainingHost(w, c.order[j], host, op)
  }

  lemma {:induction false} FirstFoundAt(w: World, c: Vec.Calls, order: seq<string>) returns (k: nat)
    requires Vec.Findings(w, c, order) != []
    ensures k < |order| && Vec.Target(w, c, order[k]) == Some(Vec.Findings(w, c, order)[0])
    ensures forall j :: 0 <= j < k ==> Vec.Target(w, c, order[j]).None?
  {
    hide Vec.Target;
    var n := |order| - 1;
    if Vec.Findings(w, c, order[..n]) != [] {
      k := FirstFoundAt(w, c, order[..n]);
      assert order[..n][k] == order[k];
      assert forall j :: 0 <= j < k ==> order[..n][j] == order[j];
    } else {
      k := n;
      NoneFound(w, c, order[..n]);
      assert forall j :: 0 <= j < n ==> order[..n][j] == order[j];
    }
  }

  lemma {:induction false} NoneFound(w: World, c: Vec.Calls, order: seq<string>)
    ensures Vec.Findings(w, c, order) == [] <==> forall j :: 0 <= j < |order| ==> Vec.Target(w, c, order[j]).None?
  {
    hide Vec.Target;
    if order != [] {
      var n := |order| - 1;
      NoneFound(w, c, order[..n]);
      assert order == order[..n] + [order[n]];
      assert forall j :: 0 <= j < n ==> order[..n][j] == order[j];
    }
  }

  lemma TargetNone(w: World, c: Vec.Calls, uid: string)
    ensures Vec.Target(w, c, uid).None? <==> forall host, op :: uid in c.readable ==> !OnDrainingHost(w, uid, host, op)
  {
    hide Vec.Target, OnDrainingHost;
    forall host, op ensures Vec.Target(w, c, uid) == Some(Vec.Found(uid, host, op))
      <==> uid in c.readable && OnDrainingHost(w, uid, host, op)
    {
      TargetExactly(w, c, uid, host, op);
    }
    Quorum.TargetIsItself(w, c, uid);
    if Vec.Target(w, c, uid).Some? {
      var f := Vec.Target(w, c, uid).value;
      assert f == Vec.Found(uid, f.host, f.opId);
    }
  }

  /** The first finding is the Machine picked, and there is none exactly when no Machine could be picked. */
  lemma FirstIsPicked(w: World, c: Vec.Calls)
    ensures var found := Vec.Findings(w, c, c.order);
      && (found != [] ==> exists k :: Picks(w, c, k, found[0]))
      && (found == [] ==> forall k, f :: !Picks(w, c, k, f))
  {
    hide Vec.Target, OnDrainingHost, Vec.Findings;
    forall j | 0 <= j < |c.order| ensures Vec.Target(w, c, c.order[j]).None?
      <==> forall host, op :: c.order[j] in c.readable ==> !OnDrainingHost(w, c.order[j], host, op)
    {
      TargetNone(w, c, c.order[j]);
    }
    NoneFound(w, c, c.order);
    var found := Vec.Findings(w, c, c.order);
    if found != [] {
      var k := FirstFoundAt(w, c, c.order);
      Quorum.TargetIsItself(w, c, c.order[k]);
      TargetExactly(w, c, found[0].uid, found[0].host, found[0].opId);
      assert Picks(w, c, k, found[0]);
    }
  }

  lemma PickedIsOne(w: World, c: Vec.Calls, k: int, f: Vec.Found, l: int, g: Vec.Found)
    requires Picks(w, c, k, f) && Picks(w, c, l, g)
    ensures f == g
  {
    hide Tags.LastOpId, ProviderIds.ExtractSystemID, NamesOperation, Tags.HOST_MAINTENANCE, Tags.HOST_NO_SCHEDULE;
    LastOpIdNames(w.nodes[f.host].tags, f.opId);
    LastOpIdNames(w.nodes[g.host].tags, g.opId);
  }

  // ----- what becomes of it -----

  /** The four replica counts are there and equal, and the control plane is not paused. */
  predicate Steady(k: Kcp) {
    && (k.paused.None? || !k.paused.value)
    && k.specReplicas.Some? && k.readyReplicas == k.specReplicas && k.updatedReplicas == k.specReplicas
    && k.statusReplicas == k.specReplicas
  }

  lemma StableExactly(k: Kcp)
    ensures Vec.KcpStable(k) <==> Steady(k)
  {
  }

  /** No other control-plane Machine is on its way out. */
  ghost predicate Alone(w: World, uid: string) {
    forall u :: u in w.machines && w.machines[u].controlPlane && w.machines[u].deleting ==> u == uid
  }

  /** At least three, or a count outside int32's non-negative range, which the code takes for three. */
  predicate CountsAsThree(r: int) { r >= 3 || r < 0 }

  /** The control plane names a template that can be read, and its successor can be made or is there with its spec. */
  predicate CanSwap(w: World, c: Vec.Calls) {
    && w.kcp.template.Some? && w.kcp.template.value != "" && c.getTemplateOk && w.kcp.template.value in w.templates
    && var name := w.kcp.template.value + "-evac-" + c.suffix;
       if name !in w.templates then c.createOk
       else c.getExistingOk && w.templates[name].spec == w.templates[w.kcp.template.value].spec
  }

  /** The calls up to the decision go through. */
  predicate Reaches(c: Vec.Calls) {
    c.proceed && c.listSessionsOk && c.listMachinesOk && c.kcpOk && c.recheckOk
  }

  lemma ReplicasOf(k: Kcp)
    requires k.specReplicas.Some?
    ensures Vec.Replicas(k) >= 3 <==> CountsAsThree(k.specReplicas.value)
    ensures Vec.Replicas(k) == 1 <==> k.specReplicas.value == 1
  {
  }

  lemma TemplateExactly(w: World, c: Vec.Calls)
    ensures Vec.NewTemplate(w, c).Some? <==> CanSwap(w, c)
  {
  }

  lemma EvacuationExactly(w: World, c: Vec.Calls, f: Vec.Found)
    requires f.uid in w.machines && w.kcp.specReplicas.Some?
    ensures var e := Vec.Evacuate(w, c, f).1;
      && (e == Vec.MachineDeleted(f.opId, f.uid) <==> CountsAsThree(w.kcp.specReplicas.value) && c.deleteOk)
      && (e == Vec.TemplateSwapped(f.opId, f.uid) <==>
            w.kcp.specReplicas.value == 1 && CanSwap(w, c) && c.updateKcpOk)
      && (Vec.IsAction(e) ==> e.opId == f.opId && e.uid == f.uid)
  {
    hide CanSwap, Vec.NewTemplate, Vec.Replicas;
    ReplicasOf(w.kcp);
    TemplateExactly(w, c);
  }

  lemma ReconcileEvacuates(w: World, c: Vec.Calls)
    requires Vec.ActiveOps(w.sessions) == {}
    ensures var found := Vec.Findings(w, c, c.order);
      Vec.Step(w, c).1 ==
        if Reaches(c) && found != [] && Vec.KcpStable(w.kcp) && !Vec.OtherDeleting(w, found[0].uid)
        then Vec.Evacuate(w.(sessions := Vec.Opened(w, c, c.order)), c, found[0]).1 else Vec.Quiet
  {
    hide Vec.Evacuate, Vec.Findings, Vec.Opened, Vec.KcpStable, Vec.OtherDeleting, Vec.ActiveOps;
  }

  lemma DecidesOn(w: World, c: Vec.Calls, f: Vec.Found)
    requires Vec.ActiveOps(w.sessions) == {} && OnDrainingHost(w, f.uid, f.host, f.opId)
    requires Vec.Findings(w, c, c.order) != [] && Vec.Findings(w, c, c.order)[0] == f
    ensures var e := Vec.Step(w, c).1;
      var acts := Reaches(c) && Steady(w.kcp) && Alone(w, f.uid);
      && (e == Vec.MachineDeleted(f.opId, f.uid) <==> acts && CountsAsThree(w.kcp.specReplicas.value) && c.deleteOk)
      && (e == Vec.TemplateSwapped(f.opId, f.uid) <==>
            acts && w.kcp.specReplicas.value == 1 && CanSwap(w, c) && c.updateKcpOk)
      && (Vec.IsAction(e) ==> e.opId == f.opId && e.uid == f.uid)
  {
    hide Vec.Step, Vec.Evacuate, Vec.Findings, Vec.Opened, Vec.KcpStable, Vec.ActiveOps, CanSwap, NamesOperation;
    hide ProviderIds.ExtractSystemID, Tags.HOST_MAINTENANCE, Tags.HOST_NO_SCHEDULE, Reaches;
    ReconcileEvacuates(w, c);
    StableExactly(w.kcp);
    if w.kcp.specReplicas.Some? {
      var scanned := w.(sessions := Vec.Opened(w, c, c.order));
      EvacuationExactly(scanned, c, f);
      SwapIgnoresSessions(w, Vec.Opened(w, c, c.order), c);
    }
  }

  lemma SwapIgnoresSessions(w: World, sessions: map<string, VecSession>, c: Vec.Calls)
    ensures CanSwap(w.(sessions := sessions), c) == CanSwap(w, c)
    ensures CanSwap(w, c) ==> WithSuccessor(w.(sessions := sessions), c) == WithSuccessor(w, c)
  {
  }

  ghost predicate NoneOpen(sessions: map<string, VecSession>) {
    forall op :: op in sessions && op != "" ==> sessions[op].status != HmcSession.Active
  }

  /**
   * With no session open, a reconcile deletes the picked Machine exactly when its calls go through, the control
   * plane is steady, nothing else of it is being deleted, and it wants at least three replicas (or a number out
   * of range); it swaps the template exactly when it wants one and there is a template to swap to; and it acts on
   * nothing else.
   */
  lemma DecidesExactly(w: World, c: Vec.Calls, op: string, uid: string)
    requires NoneOpen(w.sessions)
    ensures var e := Vec.Step(w, c).1;
      var picked := exists k, host :: Picks(w, c, k, Vec.Found(uid, host, op));
      var acts := picked && Reaches(c) && Steady(w.kcp) && Alone(w, uid);
      && (e == Vec.MachineDeleted(op, uid) <==> acts && CountsAsThree(w.kcp.specReplicas.value) && c.deleteOk)
      && (e == Vec.TemplateSwapped(op, uid) <==>
            acts && w.kcp.specReplicas.value == 1 && CanSwap(w, c) && c.updateKcpOk)
  {
    hide Vec.Step, Vec.Findings, OnDrainingHost, Steady, Alone, CanSwap, CountsAsThree, Reaches;
    assert Vec.ActiveOps(w.sessions) == {};
    FirstIsPicked(w, c);
    var found := Vec.Findings(w, c, c.order);
    if found == [] {
      NothingToDecide(w, c);
    } else {
      var f := found[0];
      var k :| Picks(w, c, k, f);
      DecidesOn(w, c, f);
      assert f == Vec.Found(f.uid, f.host, f.opId);
      forall l, host | Picks(w, c, l, Vec.Found(uid, host, op)) ensures f.uid == uid && f.opId == op {
        PickedIsOne(w, c, k, f, l, Vec.Found(uid, host, op));
      }
    }
  }

  lemma NothingToDecide(w: World, c: Vec.Calls)
    requires Vec.ActiveOps(w.sessions) == {} && Vec.Findings(w, c, c.order) == []
    ensures Vec.Step(w, c).1 == Vec.Quiet
  {
    hide Vec.Step, Vec.Findings, Vec.ActiveOps, Vec.Evacuate, Vec.KcpStable, Vec.OtherDeleting;
    ReconcileEvacuates(w, c);
  }

  /** The template a swap goes to, as the old one has it unless it is there already. */
  function WithSuccessor(w: World, c: Vec.Calls): map<string, Template>
    requires CanSwap(w, c)
  {
    var name := w.kcp.template.value + "-evac-" + c.suffix;
    if name in w.templates then w.templates else w.templates[name := w.templates[w.kcp.template.value]]
  }

  lemma EvacuationWrites(w: World, c: Vec.Calls, f: Vec.Found)
    requires f.uid in w.machines && w.kcp.specReplicas.Some?
    ensures var (w', e) := Vec.Evacuate(w, c, f);
      && w' == w.(machines := w'.machines, templates := w'.templates, kcp := w'.kcp)
      && w'.machines == (if e.MachineDeleted? then w.machines[e.uid := w.machines[f.uid].(deleting := true)]
                         else w.machines)
      && w'.templates == (if w.kcp.specReplicas.value == 1 && CanSwap(w, c) then WithSuccessor(w, c) else w.templates)
      && (!e.TemplateSwapped? ==> w'.kcp == w.kcp)
      && (e.TemplateSwapped? ==>
            && CanSwap(w, c)
            && w'.kcp == w.kcp.(template := Some(w.kcp.template.value + "-evac-" + c.suffix), maxSurge := Some(1)))
  {
    hide Vec.Replicas;
    ReplicasOf(w.kcp);
  }

  /**
   * All a reconcile without an open session writes, sessions aside: the deletion mark or the swap it reports, and
   * the new template, which stays behind if the control plane cannot be pointed to it.
   */
  lemma WritesExactly(w: World, c: Vec.Calls)
    requires NoneOpen(w.sessions)
    ensures var (w', e) := Vec.Step(w, c);
      var swaps := Reaches(c) && Steady(w.kcp) && w.kcp.specReplicas.value == 1 && CanSwap(w, c)
        && exists k, f :: Picks(w, c, k, f) && Alone(w, f.uid);
      && w' == w.(machines := w'.machines, templates := w'.templates, kcp := w'.kcp, sessions := w'.sessions)
      && (!e.MachineDeleted? ==> w'.machines == w.machines)
      && (e.MachineDeleted? ==>
            && e.uid in w.machines
            && w'.machines == w.machines[e.uid := w.machines[e.uid].(deleting := true)])
      && w'.templates == (if swaps then WithSuccessor(w, c) else w.templates)
      && (!e.TemplateSwapped? ==> w'.kcp == w.kcp)
      && (e.TemplateSwapped? ==>
            && swaps
            && w'.kcp == w.kcp.(template := Some(w.kcp.template.value + "-evac-" + c.suffix), maxSurge := Some(1)))
  {
    hide Vec.Evacuate, Vec.Findings, Vec.Opened, Vec.KcpStable, CanSwap, NamesOperation, WithSuccessor;
    hide ProviderIds.ExtractSystemID, Tags.HOST_MAINTENANCE, Tags.HOST_NO_SCHEDULE, Vec.Target;
    assert Vec.ActiveOps(w.sessions) == {};
    FirstIsPicked(w, c);
    StableExactly(w.kcp);
    var found := Vec.Findings(w, c, c.order);
    if found != [] {
      var f := found[0];
      var k :| Picks(w, c, k, f);
      forall l, g | Picks(w, c, l, g) ensures g == f {
        PickedIsOne(w, c, k, f, l, g);
      }
      if w.kcp.specReplicas.Some? {
        EvacuationWrites(w.(sessions := Vec.Opened(w, c, c.order)), c, f);
        EvacuationExactly(w.(sessions := Vec.Opened(w, c, c.order)), c, f);
        SwapIgnoresSessions(w, Vec.Opened(w, c, c.order), c);
      }
    }
  }

  /** Whatever calls fail, VEC deletes only under the first condition, and swaps only under the second. */
  lemma ActsOnlyThen(w: World, c: Vec.Calls)
    ensures Vec.IsAction(Vec.Step(w, c).1) ==> NoneOpen(w.sessions) && Reaches(c)
    ensures Vec.Step(w, c).1.MachineDeleted? ==> Steady(w.kcp) && CountsAsThree(w.kcp.specReplicas.value)
    ensures Vec.Step(w, c).1.TemplateSwapped? ==> Steady(w.kcp) && w.kcp.specReplicas == Some(1)
  {
    hide Vec.KcpStable, Vec.Replicas, Vec.OtherDeleting, Vec.Target, Vec.Findings, Vec.Opened, Vec.Evacuate;
    if op :| op in w.sessions && op != "" && w.sessions[op].status == HmcSession.Active {
      assert op in Vec.ActiveOps(w.sessions);
    }
    if Vec.IsAction(Vec.Step(w, c).1) {
      Quorum.ActionFindings(w, c);
      StableExactly(w.kcp);
      ReplicasOf(w.kcp);
    }
  }

  /** The session a scan opens names the draining host of a Machine whose session write went through. */
  lemma {:induction false} SessionNamesHost(w: World, c: Vec.Calls, order: seq<string>, op: string)
    ensures var after := Vec.Opened(w, c, order);
      op in after ==>
        || (op in w.sessions && after[op] == w.sessions[op])
        || (exists uid, host ::
              && uid in order && uid in c.savable && uid in c.readable && OnDrainingHost(w, uid, host, op)
              && after[op] == VecSession(HmcSession.Active, host, ""))
  {
    hide Vec.Target, OnDrainingHost;
    if order != [] {
      var n := |order| - 1;
      SessionNamesHost(w, c, order[..n], op);
      assert order == order[..n] + [order[n]];
      Quorum.TargetIsItself(w, c, order[n]);
      if Vec.Target(w, c, order[n]).Some? {
        var f := Vec.Target(w, c, order[n]).value;
        TargetExactly(w, c, order[n], f.host, f.opId);
      }
    }
  }

  // ----- an open session -----

  /** Everything up to the ready tag goes through, and there is a VM to tag. */
  predicate TagsReplacement(w: World, c: Vec.Calls) {
    && c.proceed && c.listSessionsOk && c.kcpOk && Steady(w.kcp) && c.getSessionOk && c.assignOk
    && c.active in w.sessions && w.sessions[c.active].newVm != ""
  }

  /**
   * With a session open the replacement VM on record gets the ready tag of that session's operation once the control
   * plane is steady, even if completing the session then fails; the session is completed when both go through;
   * nothing else changes.
   */
  lemma CompletionExactly(w: World, c: Vec.Calls)
    requires Vec.Consistent(w, c) && !NoneOpen(w.sessions)
    ensures c.active in w.sessions
    ensures var (w', e) := Vec.Step(w, c);
      var vm := w.sessions[c.active].newVm;
      && w' == w.(nodes := w'.nodes, sessions := w'.sessions) && w'.nodes.Keys == w.nodes.Keys
      && (forall x :: x in w.nodes && !(TagsReplacement(w, c) && x == vm) ==> w'.nodes[x] == w.nodes[x])
      && (TagsReplacement(w, c) && vm in w.nodes ==>
            && w'.nodes[vm] == w.nodes[vm].(tags := w'.nodes[vm].tags)
            && forall t :: t in w'.nodes[vm].tags <==> t in w.nodes[vm].tags || t == Tags.VM_READY_OP_PREFIX + c.active)
      && (if TagsReplacement(w, c) && c.completeOk
          then e == Vec.SessionCompleted(c.active, vm)
            && w'.sessions == w.sessions[c.active := w.sessions[c.active].(status := HmcSession.Completed)]
          else e == Vec.Quiet && w'.sessions == w.sessions)
  {
    hide Vec.KcpStable, Steady, Tags.VM_READY_OP_PREFIX, Vec.Findings, Vec.Opened, Vec.Evacuate, Vec.OtherDeleting;
    StableExactly(w.kcp);
    if op :| op in w.sessions && op != "" && w.sessions[op].status == HmcSession.Active {
      assert op in Vec.ActiveOps(w.sessions);
    }
  }

  /** When VEC may not proceed, or cannot list its sessions or then the Machines, it leaves everything as it was. */
  lemma NothingWithoutLists(w: World, c: Vec.Calls)
    requires !c.proceed || !c.listSessionsOk || (NoneOpen(w.sessions) && !c.listMachinesOk)
    ensures Vec.Step(w, c) == (w, Vec.Quiet)
  {
    hide Vec.Findings, Vec.Opened, Vec.Evacuate, Vec.OtherDeleting, Vec.KcpStable, Vec.TagAndComplete;
    assert NoneOpen(w.sessions) ==> Vec.ActiveOps(w.sessions) == {};
  }
}
