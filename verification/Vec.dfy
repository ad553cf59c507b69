/**
 * The VM Evacuation Controller: it moves control-plane VMs off hosts under maintenance, one at a time
 * (controllers/vmevacuation_controller.go).
 */
module Vec {
  import opened Base
  import opened Inventory
  import opened State
  import opened HmcSession
  import ProviderIds
  import Tags

  /**
   * Everything one reconcile does not control: which remote calls succeed, the order of lists, the map
   * entry Go's iteration happens to yield first, and the random suffix of a template name.
   */
  datatype Calls = Calls(
    proceed: bool,
    listSessionsOk: bool,
    active: string,
    kcpOk: bool,
    getSessionOk: bool,
    assignOk: bool,
    completeOk: bool,
    listMachinesOk: bool,
    order: seq<string>,
    readable: set<string>,
    savable: set<string>,
    recheckOk: bool,
    deleteOk: bool,
    getTemplateOk: bool,
    createOk: bool,
    getExistingOk: bool,
    suffix: string,
    updateKcpOk: bool)

  datatype Event =
    | Quiet
    | SessionCompleted(opId: string, vm: string)
    | MachineDeleted(opId: string, uid: string)
    | TemplateSwapped(opId: string, uid: string)

  predicate IsAction(e: Event) { e.MachineDeleted? || e.TemplateSwapped? }

  /** A control-plane Machine found on a draining host. */
  datatype Found = Found(uid: string, host: string, opId: string)

  // ----- reads -----

  function ActiveOps(sessions: map<string, VecSession>): set<string> {
    set op | op in sessions && op != "" && sessions[op].status == Active
  }

  predicate KcpStable(k: Kcp) {
    && k.paused != Some(true)
    && k.specReplicas.Some? && k.readyReplicas.Some? && k.updatedReplicas.Some? && k.statusReplicas.Some?
    && k.readyReplicas == k.updatedReplicas == k.statusReplicas == k.specReplicas
  }

  /** The replica count the strategy is chosen by: 3 unless the spec gives a value in int32 range. */
  function Replicas(k: Kcp): int {
    match k.specReplicas
    case None => 3
    case Some(r) => if r < 0 || r > 2147483647 then 3 else r
  }

  predicate IsCp(w: World, uid: string) { uid in w.machines && w.machines[uid].controlPlane }

  predicate OtherDeleting(w: World, uid: string) {
    exists u :: u in w.machines && w.machines[u].controlPlane && u != uid && w.machines[u].deleting
  }

  /** Whether a machine sits on a draining host, as far as the calls for it succeed. */
  function Target(w: World, c: Calls, uid: string): Option<Found> {
    if !IsCp(w, uid) || w.machines[uid].deleting || w.machines[uid].infraRef == "" || uid !in c.readable then None
    else
      var vm := ProviderIds.ExtractSystemID(Text(w.machines[uid].providerID));
      if vm == "" || vm !in w.nodes then None
      else
        var host := w.nodes[vm].parent;
        if host == "" || host !in w.nodes || !Tags.MarkedForEvacuation(w.nodes[host].tags) then None
        else Some(Found(uid, host, Tags.LastOpId(w.nodes[host].tags)))
  }

  /** The scan's findings, in list order. */
  function Findings(w: World, c: Calls, order: seq<string>): seq<Found> {
    if order == [] then []
    else
      Findings(w, c, order[..|order| - 1])
      + match Target(w, c, order[|order| - 1]) case Some(f) => [f] case None => []
  }

  /** The scan's side effect: a fresh Active session for each finding whose ConfigMap write succeeds. */
  function Opened(w: World, c: Calls, order: seq<string>): map<string, VecSession> {
    if order == [] then w.sessions
    else
      var before := Opened(w, c, order[..|order| - 1]);
      match Target(w, c, order[|order| - 1])
      case Some(f) => if f.uid in c.savable then before[f.opId := VecSession(Active, f.host, "")] else before
      case None => before
  }

  // ----- writes -----

  /** createNewMaasMachineTemplate: the templates afterwards and the name to use. */
  function NewTemplate(w: World, c: Calls): Option<(map<string, Template>, string)> {
    if w.kcp.template.None? || w.kcp.template.value == "" || !c.getTemplateOk || w.kcp.template.value !in w.templates
      then None
    else
      var current := w.templates[w.kcp.template.value];
      var name := w.kcp.template.value + "-evac-" + c.suffix;
      if name !in w.templates then
        if c.createOk then Some((w.templates[name := current], name)) else None
      else if c.getExistingOk && w.templates[name].spec == current.spec then Some((w.templates, name))
      else None
  }

  function Evacuate(w: World, c: Calls, f: Found): (World, Event) {
    if Replicas(w.kcp) >= 3 then
      if c.deleteOk && f.uid in w.machines then
        (w.(machines := w.machines[f.uid := w.machines[f.uid].(deleting := true)]), MachineDeleted(f.opId, f.uid))
      else (w, Quiet)
    else if Replicas(w.kcp) == 1 then
      match NewTemplate(w, c)
      case None => (w, Quiet)
      case Some((templates, name)) =>
        if c.updateKcpOk then
          (w.(templates := templates, kcp := w.kcp.(template := Some(name), maxSurge := Some(1))),
            TemplateSwapped(f.opId, f.uid))
        else (w.(templates := templates), Quiet)
    else (w, Quiet)
  }

  function TagAndComplete(w: World, c: Calls, opId: string): (World, Event)
    requires opId in w.sessions
  {
    var vm := w.sessions[opId].newVm;
    if !c.getSessionOk || vm == "" || !c.assignOk then (w, Quiet)
    else
      var tagged := w.(nodes := Assign(w.nodes, vm, Tags.ReadyOpTag(opId)));
      if !c.completeOk then (tagged, Quiet)
      else (tagged.(sessions := w.sessions[opId := w.sessions[opId].(status := Completed)]), SessionCompleted(opId, vm))
  }

  /** One reconcile of the workload cluster. */
  function Step(w: World, c: Calls): (World, Event) {
    if !c.proceed || !c.listSessionsOk then (w, Quiet)
    else if ActiveOps(w.sessions) != {} then
      if c.active !in ActiveOps(w.sessions) || !c.kcpOk || !KcpStable(w.kcp) then (w, Quiet)
      else TagAndComplete(w, c, c.active)
    else if !c.listMachinesOk then (w, Quiet)
    else
      var found := Findings(w, c, c.order);
      var scanned := w.(sessions := Opened(w, c, c.order));
      if found == [] || !c.kcpOk || !KcpStable(w.kcp) || !c.recheckOk || OtherDeleting(w, found[0].uid)
        then (scanned, Quiet)
      else Evacuate(scanned, c, found[0])
  }

  // ----- the controller itself -----

  /** What the lists returned by the API server look like. */
  ghost predicate Lists(w: World, order: seq<string>) { forall uid :: uid in order <==> IsCp(w, uid) }

  ghost predicate Consistent(w: World, c: Calls) {
    && Lists(w, c.order)
    && (ActiveOps(w.sessions) != {} ==> c.active in ActiveOps(w.sessions))
  }

  method ScanHostTags(tags: seq<string>) returns (hasMaintenance: bool, hasNoSchedule: bool, opId: string)
    ensures hasMaintenance == (Tags.HOST_MAINTENANCE in tags) && hasNoSchedule == (Tags.HOST_NO_SCHEDULE in tags)
    ensures opId == Tags.LastOpId(tags)
  {
    hasMaintenance, hasNoSchedule, opId := false, false, "";
    for i := 0 to |tags|
      invariant hasMaintenance == (Tags.HOST_MAINTENANCE in tags[..i])
        && hasNoSchedule == (Tags.HOST_NO_SCHEDULE in tags[..i])
      invariant opId == Tags.LastOpId(tags[..i])
    {
      assert tags[..i + 1][..i] == tags[..i];
      if tags[i] == Tags.HOST_MAINTENANCE {
        hasMaintenance := true;
      }
      if tags[i] == Tags.HOST_NO_SCHEDULE {
        hasNoSchedule := true;
      }
      if Tags.HOST_OP_PREFIX <= tags[i] {
        opId := tags[i][|Tags.HOST_OP_PREFIX|..];
      }
    }
    assert tags[..|tags|] == tags;
  }

  method InspectMachine(st: Store, c: Calls, uid: string) returns (f: Option<Found>)
    requires uid in st.machines && st.machines[uid].controlPlane
    ensures f == Target(st.Snapshot(), c, uid)
  {
    var m := st.machines[uid];
    if m.deleting {
      return None;
    }
    if m.infraRef == "" {
      return None;
    }
    if uid !in c.readable {
      return None;
    }
    if m.providerID.None? || m.providerID.value == "" {
      return None;
    }
    var vm := ProviderIds.ExtractSystemID(m.providerID.value);
    if vm == "" || vm !in st.nodes {
      return None;
    }
    var host := st.nodes[vm].parent;
    if host == "" || host !in st.nodes {
      return None;
    }
    var hasMaintenance, hasNoSchedule, opId := ScanHostTags(st.nodes[host].tags);
    if hasMaintenance && hasNoSchedule && opId != "" {
      return Some(Found(uid, host, opId));
    }
    return None;
  }

  /** Creates the session ConfigMap, or replaces all data of the one that exists. */
  method SaveMaintenanceSession(st: Store, opId: string, host: string, writeOk: bool)
    modifies st`sessions
    ensures st.sessions == if writeOk then old(st.sessions)[opId := VecSession(Active, host, "")] else old(st.sessions)
  {
    if writeOk {
      st.sessions := st.sessions[opId := VecSession(Active, host, "")];
    }
  }

  method FindCpMachinesOnMaintenanceHosts(st: Store, c: Calls) returns (found: seq<Found>)
    requires Consistent(st.Snapshot(), c)
    modifies st`sessions
    ensures found == Findings(old(st.Snapshot()), c, c.order)
    ensures st.Snapshot() == old(st.Snapshot()).(sessions := Opened(old(st.Snapshot()), c, c.order))
  {
    ghost var w := st.Snapshot();
    found := [];
    for i := 0 to |c.order|
      invariant found == Findings(w, c, c.order[..i])
      invariant st.sessions == Opened(w, c, c.order[..i])
      invariant st.Snapshot() == w.(sessions := st.sessions)
    {
      var uid := c.order[i];
      assert c.order[..i + 1][..i] == c.order[..i];
      assert IsCp(w, uid);
      var f := InspectMachine(st, c, uid);
      assert f == Target(w, c, uid);
      if f.Some? {
        SaveMaintenanceSession(st, f.value.opId, f.value.host, uid in c.savable);
        found := found + [f.value];
      }
    }
    assert c.order[..|c.order|] == c.order;
  }

  method HasOtherCpBeingDeleted(st: Store, c: Calls, uid: string) returns (blocked: bool)
    requires Lists(st.Snapshot(), c.order)
    ensures blocked == (!c.recheckOk || OtherDeleting(st.Snapshot(), uid))
  {
    if !c.recheckOk {
      return true;
    }
    assert forall j :: 0 <= j < |c.order| ==> c.order[j] in c.order && IsCp(st.Snapshot(), c.order[j]);
    for i := 0 to |c.order|
      invariant forall j :: 0 <= j < i ==> c.order[j] == uid || !st.machines[c.order[j]].deleting
    {
      var other := c.order[i];
      if other == uid {
        continue;
      }
      if st.machines[other].deleting {
        return true;
      }
    }
    forall u | IsCp(st.Snapshot(), u) && u != uid ensures !st.machines[u].deleting {
      assert u in c.order;
    }
    return false;
  }

  method CreateNewTemplate(st: Store, c: Calls) returns (name: Option<string>)
    modifies st`templates
    ensures match NewTemplate(old(st.Snapshot()), c)
      case None => name == None && st.templates == old(st.templates)
      case Some((templates, n)) => name == Some(n) && st.templates == templates
  {
    if st.kcp.template.None? || st.kcp.template.value == "" {
      return None;
    }
    if !c.getTemplateOk || st.kcp.template.value !in st.templates {
      return None;
    }
    var current := st.templates[st.kcp.template.value];
    var n := st.kcp.template.value + "-evac-" + c.suffix;
    if n in st.templates {
      if !c.getExistingOk || st.templates[n].spec != current.spec {
        return None;
      }
    } else {
      if !c.createOk {
        return None;
      }
      st.templates := st.templates[n := Template(current.labels, current.spec)];
    }
    return Some(n);
  }

  method TagReplacementVmAndCompleteSession(st: Store, c: Calls, opId: string) returns (e: Event)
    requires opId in st.sessions
    modifies st`nodes, st`sessions
    ensures st.Snapshot() == TagAndComplete(old(st.Snapshot()), c, opId).0
    ensures e == TagAndComplete(old(st.Snapshot()), c, opId).1
  {
    if !c.getSessionOk {
      return Quiet;
    }
    var newVm := st.sessions[opId].newVm;
    if newVm == "" {
      return Quiet;
    }
    var ok := AddTagTo(st, newVm, Tags.ReadyOpTag(opId), c.assignOk);
    if !ok {
      return Quiet;
    }
    if !c.completeOk {
      return Quiet;
    }
    st.sessions := st.sessions[opId := st.sessions[opId].(status := Completed)];
    return SessionCompleted(opId, newVm);
  }

  method Reconcile(st: Store, c: Calls) returns (e: Event)
    requires Consistent(st.Snapshot(), c)
    modifies st
    ensures st.Snapshot() == Step(old(st.Snapshot()), c).0
    ensures e == Step(old(st.Snapshot()), c).1
  {
    if !c.proceed {
      return Quiet;
    }
    if !c.listSessionsOk {
      return Quiet;
    }
    var active := ActiveOps(st.sessions);
    if |active| > 0 {
      if !c.kcpOk {
        return Quiet;
      }
      if !KcpStable(st.kcp) {
        return Quiet;
      }
      e := TagReplacementVmAndCompleteSession(st, c, c.active);
      return e;
    }
    if !c.listMachinesOk {
      return Quiet;
    }
    ghost var w := st.Snapshot();
    var found := FindCpMachinesOnMaintenanceHosts(st, c);
    if |found| == 0 {
      return Quiet;
    }
    var first := found[0];
    if !c.kcpOk {
      return Quiet;
    }
    if !KcpStable(st.kcp) {
      return Quiet;
    }
    var blocked := HasOtherCpBeingDeleted(st, c, first.uid);
    if blocked {
      return Quiet;
    }
    e := EvacuateMachine(st, c, first);
  }

  method EvacuateMachine(st: Store, c: Calls, f: Found) returns (e: Event)
    modifies st`machines, st`templates, st`kcp
    ensures st.Snapshot() == Evacuate(old(st.Snapshot()), c, f).0
    ensures e == Evacuate(old(st.Snapshot()), c, f).1
  {
    var replicas := 3;
    if st.kcp.specReplicas.Some? {
      var r := st.kcp.specReplicas.value;
      if !(r < 0 || r > 2147483647) {
        replicas := r;
      }
    }
    if replicas >= 3 {
      if !c.deleteOk || f.uid !in st.machines {
        return Quiet;
      }
      st.machines := st.machines[f.uid := st.machines[f.uid].(deleting := true)];
      return MachineDeleted(f.opId, f.uid);
    } else if replicas == 1 {
      var name := CreateNewTemplate(st, c);
      if name.None? {
        return Quiet;
      }
      if !c.updateKcpOk {
        return Quiet;
      }
      st.kcp := st.kcp.(template := name);
      st.kcp := st.kcp.(maxSurge := Some(1));
      return TemplateSwapped(f.opId, f.uid);
    }
    return Quiet;
  }
}
