/**
 * The Host Maintenance Controller: sessions, tags, gates and the evacuation finalizer of a host
 * (controllers/host_maintenance_controller.go, controllers/host_maintenance_service.go).
 */
module Hmc {
  import opened Base
  import opened Inventory
  import opened State
  import opened HmcSession
  import Gates
  import HostTags

  /** Outcomes of the remote calls of one reconcile; ensureCalls and clearCalls say where those series are cut off. */
  datatype Calls = Calls(
    isHcp: bool,
    ownerOk: bool,
    loadOk: bool,
    opId: string,
    now: int,
    startOk: bool,
    clientOk: bool,
    ensureCalls: nat,
    serviceOk: bool,
    first: Option<Gates.Listing>,
    hostOk: bool,
    second: Option<Gates.Listing>,
    all: Option<Gates.Listing>,
    gateLoadOk: bool,
    trackOk: bool,
    clearCalls: nat,
    updateOk: bool,
    annotateOk: bool,
    completeOk: bool)

  datatype Event = Quiet | Evacuated(uid: string, host: string) | TooManySessions

  function ReadHost(nodes: Nodes, host: string, l: Option<Gates.Listing>): Option<seq<Gates.Vm>> {
    match l case None => None case Some(listing) => Some(Gates.HostVms(nodes, listing, host))
  }

  function ReadAll(nodes: Nodes, l: Option<Gates.Listing>): Option<seq<Gates.Vm>> {
    match l case None => None case Some(listing) => Some(Gates.AllVms(nodes, listing))
  }

  function Verdict(nodes: Nodes, host: string, c: Calls): Gates.Verdict {
    Gates.GatesVerdict(
      ReadHost(nodes, host, c.first),
      if c.hostOk && host in nodes then Some(nodes[host]) else None,
      ReadHost(nodes, host, c.second),
      ReadAll(nodes, c.all))
  }

  function Tracked(session: Stored, t: Option<Gates.Tracking>, c: Calls): Stored {
    if t.Some? && c.gateLoadOk then Track(session, t.value.affected, t.value.pending, c.trackOk) else session
  }

  /** Gates passed: clear the tags, drop the finalizer, annotate, complete the session. */
  function Finish(w: World, uid: string, host: string, opId: string, c: Calls): (World, Event)
    requires uid in w.hosts
  {
    var cleared := w.(nodes := HostTags.Clear(w.nodes, host, c.clearCalls));
    if !HostTags.ClearSucceeds(w.nodes, host, c.clearCalls) || !c.updateOk then (cleared, Quiet)
    else
      var h := w.hosts[uid].(evacuationFinalizer := false);
      var annotated := if c.annotateOk then h.(completed := opId) else h;
      (cleared.(hosts := w.hosts[uid := annotated], session := Complete(w.session, c.completeOk)), Evacuated(uid, host))
  }

  /** A session is open: tag the host, then look at the gates. */
  function Evacuate(w: World, uid: string, host: string, opId: string, c: Calls): (World, Event)
    requires uid in w.hosts
  {
    if !c.clientOk then (w, Quiet)
    else
      var tagged := w.(nodes := HostTags.Ensure(w.nodes, host, opId, c.ensureCalls));
      if c.ensureCalls < HostTags.ENSURE_CALLS || !c.serviceOk then (tagged, Quiet)
      else
        var v := Verdict(tagged.nodes, host, c);
        var tracked := tagged.(session := Tracked(tagged.session, v.tracking, c));
        if v.ready != Some(true) then (tracked, Quiet) else Finish(tracked, uid, host, opId, c)
  }

  function NeedsSession(session: Stored): bool { Load(session).opId == "" || Load(session).status != Active }

  /** reconcileMaasMachine for one host MaasMachine. */
  function Step(w: World, uid: string, c: Calls): (World, Event)
    requires uid in w.hosts
  {
    var h := w.hosts[uid];
    if Text(h.parent) != "" || !c.isHcp || !c.ownerOk || !h.machineDeleting || h.completed != ""
       || !h.evacuationFinalizer || !c.loadOk || h.systemID.None? then (w, Quiet)
    else
      var host := h.systemID.value;
      if !NeedsSession(w.session) then Evacuate(w, uid, host, Load(w.session).opId, c)
      else
        match StartResult(w.session, host, c.opId, c.now, c.startOk)
        case None => (w, Quiet)
        case Some(st) => Evacuate(w.(session := Start(w.session, host, c.opId, c.now, c.startOk)), uid, host, st.opId,
          c)
  }

  /** reconcileConfigMap: an operator may ask for a session; an open one keeps its host tagged. */
  function ConfigMapStep(w: World, c: Calls): (World, Event) {
    if !c.loadOk then (w, Quiet)
    else
      var started := match Trigger(w.session)
        case Some(host) => StartResult(w.session, host, c.opId, c.now, c.startOk)
        case None => Some(Load(w.session));
      if started.None? then (w, Quiet)
      else
        var st := started.value;
        var w1 := match Trigger(w.session)
          case Some(host) => w.(session := Start(w.session, host, c.opId, c.now, c.startOk))
          case None => w;
        if st.status != Active || st.currentHost == "" || st.opId == "" then (w1, Quiet)
        else if st.activeSessions > 1 then (w1, TooManySessions)
        else if !c.clientOk then (w1, Quiet)
        else (w1.(nodes := HostTags.Ensure(w1.nodes, st.currentHost, st.opId, c.ensureCalls)), Quiet)
  }

  // ----- the controller itself -----

  method CheckGates(st: Store, host: string, c: Calls) returns (v: Gates.Verdict)
    ensures v == Verdict(st.nodes, host, c)
  {
    var first, second, all: Option<seq<Gates.Vm>> := None, None, None;
    if c.first.Some? {
      var vms := Gates.ListHostVms(st.nodes, c.first.value, host);
      first := Some(vms);
    }
    if c.second.Some? {
      var vms := Gates.ListHostVms(st.nodes, c.second.value, host);
      second := Some(vms);
    }
    if c.all.Some? {
      var vms := Gates.ListAllVms(st.nodes, c.all.value);
      all := Some(vms);
    }
    v := Gates.CheckEvacuationGates(first, if c.hostOk && host in st.nodes then Some(st.nodes[host])
      else None, second, all);
  }

  method SaveTracking(st: Store, t: Option<Gates.Tracking>, c: Calls)
    modifies st.session
    ensures st.session.cm == Tracked(old(st.session.cm), t, c)
  {
    if t.Some? && c.gateLoadOk {
      var session := Load(st.session.cm);
      if session.opId != "" {
        var _ := st.session.SaveSession(session.(affected := t.value.affected, pending := t.value.pending), c.trackOk);
      }
    }
  }

  method ClearTagsAndRemoveFinalizer(st: Store, uid: string, host: string, opId: string, c: Calls) returns (e: Event)
    requires uid in st.hosts
    modifies st`nodes, st`hosts, st.session
    ensures st.Snapshot() == Finish(old(st.Snapshot()), uid, host, opId, c).0
    ensures e == Finish(old(st.Snapshot()), uid, host, opId, c).1
  {
    var ok := HostTags.ClearMaintenanceTags(st, host, c.clearCalls);
    if !ok {
      return Quiet;
    }
    if !c.updateOk {
      return Quiet;
    }
    st.hosts := st.hosts[uid := st.hosts[uid].(evacuationFinalizer := false)];
    if c.annotateOk {
      st.hosts := st.hosts[uid := st.hosts[uid].(completed := opId)];
    }
    var _ := st.session.CompleteSession(c.completeOk);
    return Evacuated(uid, host);
  }

  method EvacuateHost(st: Store, uid: string, host: string, opId: string, c: Calls) returns (e: Event)
    requires uid in st.hosts
    modifies st`nodes, st`hosts, st.session
    ensures st.Snapshot() == Evacuate(old(st.Snapshot()), uid, host, opId, c).0
    ensures e == Evacuate(old(st.Snapshot()), uid, host, opId, c).1
  {
    if !c.clientOk {
      return Quiet;
    }
    var ok := HostTags.EnsureHostMaintenanceTags(st, host, opId, c.ensureCalls);
    if !ok {
      return Quiet;
    }
    if !c.serviceOk {
      return Quiet;
    }
    var v := CheckGates(st, host, c);
    SaveTracking(st, v.tracking, c);
    if v.ready != Some(true) {
      return Quiet;
    }
    e := ClearTagsAndRemoveFinalizer(st, uid, host, opId, c);
  }

  method ReconcileMaasMachine(st: Store, uid: string, c: Calls) returns (e: Event)
    requires uid in st.hosts
    modifies st`nodes, st`hosts, st.session
    ensures st.Snapshot() == Step(old(st.Snapshot()), uid, c).0 && e == Step(old(st.Snapshot()), uid, c).1
  {
    var h := st.hosts[uid];
    if Text(h.parent) != "" {
      return Quiet;
    }
    if !c.isHcp {
      return Quiet;
    }
    if !c.ownerOk {
      return Quiet;
    }
    if !h.machineDeleting {
      return Quiet;
    }
    if h.completed != "" {
      return Quiet;
    }
    if !h.evacuationFinalizer {
      return Quiet;
    }
    if !c.loadOk {
      return Quiet;
    }
    var session := Load(st.session.cm);
    if session.opId == "" || session.status != Active {
      if h.systemID.Some? {
        var r := st.session.StartSession(h.systemID.value, c.opId, c.now, c.startOk);
        if r.None? {
          return Quiet;
        }
        session := r.value;
      }
    }
    if h.systemID.None? {
      return Quiet;
    }
    e := EvacuateHost(st, uid, h.systemID.value, session.opId, c);
  }

  method ReconcileConfigMap(st: Store, c: Calls) returns (e: Event)
    modifies st`nodes, st.session
    ensures st.Snapshot() == ConfigMapStep(old(st.Snapshot()), c).0 && e == ConfigMapStep(old(st.Snapshot()), c).1
  {
    if !c.loadOk {
      return Quiet;
    }
    var session := Load(st.session.cm);
    var trigger := Trigger(st.session.cm);
    if trigger.Some? {
      var r := st.session.StartSession(trigger.value, c.opId, c.now, c.startOk);
      if r.None? {
        return Quiet;
      }
      session := r.value;
    }
    if session.status != Active || session.currentHost == "" || session.opId == "" {
      return Quiet;
    }
    if session.activeSessions > 1 {
      return TooManySessions;
    }
    if !c.clientOk {
      return Quiet;
    }
    var _ := HostTags.EnsureHostMaintenanceTags(st, session.currentHost, session.opId, c.ensureCalls);
    return Quiet;
  }
}
