/** What an HMC reconcile proves about a host when it lets it go: the gate it passed, and the tags it left. */
module Evacuation {
  import opened Base
  import opened Inventory
  import opened State
  import Effects
  import Gates
  import Hmc
  import HmcSession
  import HostTags

  // ----- the gate -----

  /** The gate's own list call returned no VM parented to the host. */
  ghost predicate ReadEmpty(nodes: Nodes, host: string, c: Hmc.Calls) {
    c.first.Some?
    && forall id :: id in c.first.value.ids && id in c.first.value.fetched && id in nodes ==> nodes[id].parent != host
  }

  lemma VerdictMeansEmpty(nodes: Nodes, host: string, c: Hmc.Calls)
    requires Hmc.Verdict(nodes, host, c).ready == Some(true)
    ensures ReadEmpty(nodes, host, c)
  {
    hide Gates.HostVms, Gates.AllVms, Gates.WlcVerdict;
    Gates.PassingMeansEmptyRead(nodes, c.first.value, host,
      if c.hostOk && host in nodes then Some(nodes[host])
        else None, Hmc.ReadHost(nodes, host, c.second), Hmc.ReadAll(nodes, c.all));
  }

  lemma SameReads(a: Nodes, b: Nodes, host: string, c: Hmc.Calls, h: string)
    requires HostTags.SameButDrainTags(a, b, h) && ReadEmpty(b, host, c)
    ensures ReadEmpty(a, host, c)
  {
    hide HostTags.Strip;
    assert forall id :: id in a ==> b[id].(tags := []) == a[id].(tags := []);
  }

  /** HMC drops a finalizer, and clears the drain tags, only after it read the host as empty. */
  lemma EvacuatePassesGate(w: World, uid: string, host: string, opId: string, c: Hmc.Calls)
    requires uid in w.hosts
    ensures var (w', e) := Hmc.Evacuate(w, uid, host, opId, c);
      && (w'.nodes == w.nodes || w'.nodes == HostTags.Ensure(w.nodes, host, opId, c.ensureCalls)
        || ReadEmpty(w.nodes, host, c))
      && (match e
          case Evacuated(u, h) => u == uid && h == host && ReadEmpty(w.nodes, host, c)
            && w'.hosts == w.hosts[uid :=
              w.hosts[uid].(evacuationFinalizer := false, completed := w'.hosts[uid].completed)]
          case _ => w'.hosts == w.hosts)
  {
    hide HostTags.Ensure, HostTags.Clear, HostTags.ClearSucceeds, Hmc.Tracked, HmcSession.Complete,
      HostTags.SameButDrainTags;
    hide Hmc.Verdict, ReadEmpty;
    var n := HostTags.Ensure(w.nodes, host, opId, c.ensureCalls);
    Effects.SameAsItself(w.nodes, host);
    HostTags.EnsureOnlyDrainTags(w.nodes, w.nodes, host, opId, c.ensureCalls);
    if Hmc.Verdict(n, host, c).ready == Some(true) {
      VerdictMeansEmpty(n, host, c);
      SameReads(w.nodes, n, host, c, host);
    }
  }

  /** What one HMC reconcile does to the hosts and their drain tags. */
  ghost predicate HmcEffect(w: World, uid: string, c: Hmc.Calls, w': World, e: Hmc.Event)
    requires uid in w.hosts
  {
    var host := Text(w.hosts[uid].systemID);
    && (w'.nodes == w.nodes || (exists op :: w'.nodes == HostTags.Ensure(w.nodes, host, op, c.ensureCalls))
      || ReadEmpty(w.nodes, host, c))
    && match e
       case Evacuated(u, h) => u == uid && w.hosts[uid].systemID == Some(h) && ReadEmpty(w.nodes, h, c)
         && w.hosts[uid].evacuationFinalizer
         && uid in w'.hosts
         && w'.hosts == w.hosts[uid :=
           w.hosts[uid].(evacuationFinalizer := false, completed := w'.hosts[uid].completed)]
       case _ => w'.hosts == w.hosts
  }

  lemma HmcPassesGate(w: World, uid: string, c: Hmc.Calls)
    requires uid in w.hosts
    ensures HmcEffect(w, uid, c, Hmc.Step(w, uid, c).0, Hmc.Step(w, uid, c).1)
  {
    hide Hmc.Evacuate, HmcSession.Start, HmcSession.StartResult, HmcSession.Load, Hmc.NeedsSession, HostTags.Ensure,
      ReadEmpty;
    var host := Text(w.hosts[uid].systemID);
    EvacuatePassesGate(w, uid, host, HmcSession.Load(w.session).opId, c);
    var r := HmcSession.StartResult(w.session, host, c.opId, c.now, c.startOk);
    if r.Some? {
      EvacuatePassesGate(w.(session := HmcSession.Start(w.session, host, c.opId, c.now, c.startOk)), uid, host,
        r.value.opId, c);
    }
  }

  // ----- what an evacuation leaves behind -----

  /** The session one HMC reconcile works under: the open one, or the one it starts for its host. */
  function InForce(w: World, uid: string, c: Hmc.Calls): Option<HmcSession.Session>
    requires uid in w.hosts
  {
    if Hmc.NeedsSession(w.session) then
      HmcSession.StartResult(w.session, Text(w.hosts[uid].systemID), c.opId, c.now, c.startOk)
    else Some(HmcSession.Load(w.session))
  }

  /**
   * The outcome of an evacuation under session st: tags, finalizer and annotation of the host, and st itself
   * completed if the completing write went through, still open otherwise.
   */
  ghost predicate LeftClean(w: World, uid: string, host: string, st: HmcSession.Session, c: Hmc.Calls, w': World)
    requires uid in w.hosts
  {
    && host in w.nodes
    && w'.nodes == w.nodes[host := w.nodes[host].(tags := HostTags.Strip(w.nodes[host].tags))]
    && uid in w'.hosts && !w'.hosts[uid].evacuationFinalizer
    && w'.hosts[uid].completed == (if c.annotateOk then st.opId else w.hosts[uid].completed)
    && ClosedOrOpen(st, HmcSession.Load(w'.session), c.completeOk)
  }

  predicate ClosedOrOpen(st: HmcSession.Session, after: HmcSession.Session, completeOk: bool) {
    if completeOk then after == HmcSession.Closed(st)
    else after == st.(affected := after.affected, pending := after.pending)
  }

  lemma EvacuateLeavesClean(w: World, uid: string, host: string, st: HmcSession.Session, c: Hmc.Calls)
    requires uid in w.hosts && st == HmcSession.Load(w.session) && st.status == HmcSession.Active
    requires Hmc.Evacuate(w, uid, host, st.opId, c).1.Evacuated?
    ensures LeftClean(w, uid, host, st, c, Hmc.Evacuate(w, uid, host, st.opId, c).0)
  {
    hide HostTags.Ensure, HostTags.Clear, HostTags.ClearSucceeds, Hmc.Tracked, HmcSession.Complete, HostTags.Strip;
    hide Hmc.Verdict, ClosedOrOpen, HmcSession.Load;
    var n := HostTags.Ensure(w.nodes, host, st.opId, c.ensureCalls);
    var v := Hmc.Verdict(n, host, c);
    TrackedThenCompleted(w.session, v.tracking, c);
    EnsureThenClear(w.nodes, host, st.opId, c);
  }

  lemma TrackedThenCompleted(cm: HmcSession.Stored, t: Option<Gates.Tracking>, c: Hmc.Calls)
    requires HmcSession.Load(cm).status == HmcSession.Active
    ensures ClosedOrOpen(HmcSession.Load(cm),
      HmcSession.Load(HmcSession.Complete(Hmc.Tracked(cm, t, c), c.completeOk)), c.completeOk)
  {
  }

  lemma EnsureThenClear(nodes: Nodes, host: string, opId: string, c: Hmc.Calls)
    requires HostTags.ClearSucceeds(HostTags.Ensure(nodes, host, opId, c.ensureCalls), host, c.clearCalls)
    ensures host in nodes
    ensures HostTags.Clear(HostTags.Ensure(nodes, host, opId, c.ensureCalls), host, c.clearCalls)
         == nodes[host := nodes[host].(tags := HostTags.Strip(nodes[host].tags))]
  {
    hide HostTags.Ensure, HostTags.Clear, HostTags.ToClear, HostTags.Strip, HostTags.IsDrainTag,
      HostTags.SameButDrainTags;
    var once := [HostTags.TryEnsure(opId, c.ensureCalls)];
    var n := HostTags.Ensure(nodes, host, opId, c.ensureCalls);
    assert once[..0] == [] && HostTags.Apply(nodes, host, []) == nodes;
    assert HostTags.Apply(nodes, host, once) == n;
    Effects.SameAsItself(nodes, host);
    HostTags.EnsureOnlyDrainTags(nodes, nodes, host, opId, c.ensureCalls);
    assert n.Keys == nodes.Keys by { SameKeys(nodes, n, host); }
    HostTags.ClearUndoesEverything(nodes, host, once, c.clearCalls);
  }

  lemma SameKeys(a: Nodes, b: Nodes, host: string)
    requires HostTags.SameButDrainTags(a, b, host)
    ensures a.Keys == b.Keys
  {
    hide HostTags.Strip;
  }

  lemma InForceIsStored(w: World, uid: string, c: Hmc.Calls)
    requires uid in w.hosts && InForce(w, uid, c).Some?
    ensures InForce(w, uid, c).value.status == HmcSession.Active
    ensures Hmc.NeedsSession(w.session) ==>
      HmcSession.Load(HmcSession.Start(w.session, Text(w.hosts[uid].systemID), c.opId, c.now,
        c.startOk)) == InForce(w, uid, c).value
  {
  }

  /**
   * A reconcile that drops a host's finalizer leaves the host without any drain tag, with all its other tags
   * in their order, and every other machine as it was; it annotates the host with the operation it worked
   * under, and completes that operation's session if the write goes through.
   */
  lemma EvacuatedHostIsClean(w: World, uid: string, c: Hmc.Calls)
    requires uid in w.hosts && Hmc.Step(w, uid, c).1.Evacuated?
    ensures w.hosts[uid].systemID.Some? && InForce(w, uid, c).Some?
    ensures LeftClean(w, uid, w.hosts[uid].systemID.value, InForce(w, uid, c).value, c, Hmc.Step(w, uid, c).0)
  {
    hide Hmc.Evacuate, HmcSession.StartResult, HmcSession.Start, Hmc.NeedsSession, LeftClean;
    var host := Text(w.hosts[uid].systemID);
    InForceIsStored(w, uid, c);
    var st := InForce(w, uid, c).value;
    if !Hmc.NeedsSession(w.session) {
      EvacuateLeavesClean(w, uid, host, st, c);
    } else {
      var w1 := w.(session := HmcSession.Start(w.session, host, c.opId, c.now, c.startOk));
      EvacuateLeavesClean(w1, uid, host, st, c);
      LeftCleanFrom(w, w1, uid, host, st, c, Hmc.Step(w, uid, c).0);
    }
  }

  lemma LeftCleanFrom(w: World, w1: World, uid: string, host: string, st: HmcSession.Session, c: Hmc.Calls, w': World)
    requires uid in w.hosts && w1.hosts == w.hosts && w1.nodes == w.nodes && LeftClean(w1, uid, host, st, c, w')
    ensures LeftClean(w, uid, host, st, c, w')
  {
    hide HostTags.Strip, ClosedOrOpen;
  }

  /**
   * The session an evacuation works under and completes names another host exactly when, before the step, a
   * session with an operation ID was Active and named another host; a session started for the purpose names the
   * evacuated one.
   */
  lemma CompletesAnotherHostsSession(w: World, uid: string, c: Hmc.Calls, used: set<string>)
    requires uid in w.hosts && Hmc.Step(w, uid, c).1.Evacuated? && HmcSession.Sound(w.session, used)
    ensures w.hosts[uid].systemID.Some? && InForce(w, uid, c).Some?
    ensures var st, was, host := InForce(w, uid, c).value, HmcSession.Load(w.session), w.hosts[uid].systemID.value;
      && (st.currentHost != host <==> was.status == HmcSession.Active && was.opId != "" && was.currentHost != host)
      && st.opId == (if Hmc.NeedsSession(w.session) then c.opId else was.opId)
      && (c.completeOk ==> HmcSession.Load(Hmc.Step(w, uid, c).0.session) == HmcSession.Closed(st))
  {
    hide Hmc.Step, HostTags.Strip;
    EvacuatedHostIsClean(w, uid, c);
  }

  // ----- when HMC evacuates -----

  /** The list call returned every machine and every one could be fetched. */
  predicate Complete(nodes: Nodes, l: Option<Gates.Listing>) {
    l.Some? ==> forall id :: id in nodes ==> id in l.value.ids && id in l.value.fetched
  }

  ghost predicate NoGuests(nodes: Nodes, host: string) { forall id :: id in nodes ==> nodes[id].parent != host }

  /** If the gate's list call was complete, a host that is let go had no VM. */
  lemma CompleteReadMeansEmpty(w: World, uid: string, c: Hmc.Calls)
    requires uid in w.hosts && Hmc.Step(w, uid, c).1.Evacuated? && Complete(w.nodes, c.first)
    ensures NoGuests(w.nodes, Hmc.Step(w, uid, c).1.host)
  {
    hide Hmc.Step, HostTags.Ensure;
    HmcPassesGate(w, uid, c);
  }

  /** Every remote call of the reconcile succeeds, and the tag calls are not cut off. */
  predicate Through(c: Hmc.Calls) {
    && c.isHcp && c.ownerOk && c.loadOk && c.startOk && c.clientOk && c.ensureCalls >= HostTags.ENSURE_CALLS
      && c.serviceOk
    && c.first.Some? && c.hostOk && c.second.Some? && c.updateOk
  }

  /** The host asks for evacuation, and HMC has not done it yet. */
  predicate AwaitsEvacuation(h: Host) {
    Text(h.parent) == "" && h.machineDeleting && h.completed == "" && h.evacuationFinalizer && h.systemID.Some?
  }

  lemma EmptyHostPasses(nodes: Nodes, host: string, c: Hmc.Calls)
    requires NoGuests(nodes, host) && host in nodes && Through(c)
    ensures Hmc.Verdict(nodes, host, c).ready == Some(true)
  {
    hide Gates.AllVms, Gates.Select;
    NoGuestsRead(nodes, c.first.value, host);
    NoGuestsRead(nodes, c.second.value, host);
  }

  lemma NoGuestsRead(nodes: Nodes, l: Gates.Listing, host: string)
    requires NoGuests(nodes, host)
    ensures Gates.HostVms(nodes, l, host) == []
  {
    hide Gates.Select;
    var vms := Gates.HostVms(nodes, l, host);
    assert |vms| > 0 ==> vms[0] in vms;
    Gates.SelectFinds(nodes, l, (n: Node) => n.parent == host);
  }

  lemma EvacuatesWhen(w: World, uid: string, host: string, opId: string, c: Hmc.Calls)
    requires uid in w.hosts && host in w.nodes && NoGuests(w.nodes, host) && Through(c)
    requires c.clearCalls >= 1 + |HostTags.ToClear(HostTags.Ensure(w.nodes, host, opId, c.ensureCalls)[host].tags)|
    ensures Hmc.Evacuate(w, uid, host, opId, c).1 == Hmc.Evacuated(uid, host)
  {
    hide HostTags.Ensure, HostTags.Clear, HostTags.ToClear, HostTags.SameButDrainTags, Hmc.Verdict, Hmc.Tracked,
      HmcSession.Complete;
    hide NoGuests;
    var n := HostTags.Ensure(w.nodes, host, opId, c.ensureCalls);
    Effects.SameAsItself(w.nodes, host);
    HostTags.EnsureOnlyDrainTags(w.nodes, w.nodes, host, opId, c.ensureCalls);
    SameKeys(w.nodes, n, host);
    SameGuests(w.nodes, n, host);
    EmptyHostPasses(n, host, c);
  }

  lemma SameGuests(a: Nodes, b: Nodes, host: string)
    requires HostTags.SameButDrainTags(a, b, host) && NoGuests(a, host)
    ensures NoGuests(b, host)
  {
    hide HostTags.Strip;
    assert forall id :: id in a ==> b[id].(tags := []) == a[id].(tags := []);
  }

  /** The operation ID a reconcile whose calls go through works under. */
  function OpIdInForce(w: World, uid: string, c: Hmc.Calls): string
    requires uid in w.hosts
  {
    if InForce(w, uid, c).Some? then InForce(w, uid, c).value.opId else ""
  }

  lemma HmcEvacuates(w: World, uid: string, c: Hmc.Calls)
    requires uid in w.hosts && AwaitsEvacuation(w.hosts[uid]) && Through(c)
    requires var host := w.hosts[uid].systemID.value;
      && host in w.nodes && NoGuests(w.nodes, host)
      && c.clearCalls >= 1 + |HostTags.ToClear(HostTags.Ensure(w.nodes, host, OpIdInForce(w, uid, c),
        c.ensureCalls)[host].tags)|
    ensures Hmc.Step(w, uid, c).1 == Hmc.Evacuated(uid, w.hosts[uid].systemID.value)
  {
    hide Hmc.Evacuate, HostTags.Ensure, HostTags.ToClear, NoGuests, HmcSession.IsOpen, HmcSession.Load;
    var host := w.hosts[uid].systemID.value;
    if Hmc.NeedsSession(w.session) {
      var w1 := w.(session := HmcSession.Start(w.session, host, c.opId, c.now, c.startOk));
      EvacuatesWhen(w1, uid, host, OpIdInForce(w, uid, c), c);
    } else {
      EvacuatesWhen(w, uid, host, OpIdInForce(w, uid, c), c);
    }
  }

  /** Nothing else makes HMC let a host go. */
  lemma EvacuatedAwaited(w: World, uid: string, c: Hmc.Calls)
    requires uid in w.hosts && Hmc.Step(w, uid, c).1.Evacuated?
    ensures AwaitsEvacuation(w.hosts[uid]) && w.hosts[uid].systemID.value in w.nodes
    ensures Hmc.Step(w, uid, c).1 == Hmc.Evacuated(uid, w.hosts[uid].systemID.value)
  {
    hide Hmc.Evacuate, HmcSession.StartResult, HmcSession.Start, HmcSession.Load, Hmc.NeedsSession, LeftClean;
    HmcPassesGate(w, uid, c);
    EvacuatedHostIsClean(w, uid, c);
    LeftCleanKnown(w, uid, w.hosts[uid].systemID.value, InForce(w, uid, c).value, c, Hmc.Step(w, uid, c).0);
  }

  lemma LeftCleanKnown(w: World, uid: string, host: string, st: HmcSession.Session, c: Hmc.Calls, w': World)
    requires uid in w.hosts && LeftClean(w, uid, host, st, c, w')
    ensures host in w.nodes
  {
    hide HostTags.Strip;
  }

  // ----- the whole condition -----

  /** The gates of one reconcile, reads and all. */
  ghost predicate GatesOpen(nodes: Nodes, host: string, c: Hmc.Calls) {
    && c.first.Some? && c.hostOk && host in nodes && c.second.Some?
    && (forall id :: id in c.first.value.ids && id in c.first.value.fetched && id in nodes ==> nodes[id].parent != host)
    && Gates.WlcVerdict(Some(nodes[host]), Hmc.ReadHost(nodes, host, c.second),
      Hmc.ReadAll(nodes, c.all)).ready == Some(true)
  }

  lemma GatesExactly(nodes: Nodes, host: string, c: Hmc.Calls)
    ensures Hmc.Verdict(nodes, host, c).ready == Some(true) <==> GatesOpen(nodes, host, c)
  {
    hide Gates.Select, Gates.AllVms;
    if c.first.Some? {
      EmptyReadExactly(nodes, c.first.value, host);
    }
    Gates.VerdictNeedsReads(if c.hostOk && host in nodes then Some(nodes[host]) else None,
      Hmc.ReadHost(nodes, host, c.second), Hmc.ReadAll(nodes, c.all));
  }

  lemma EmptyReadExactly(nodes: Nodes, l: Gates.Listing, host: string)
    ensures Gates.HostVms(nodes, l, host) == [] <==>
      forall id :: id in l.ids && id in l.fetched && id in nodes ==> nodes[id].parent != host
  {
    hide Gates.Select;
    var vms := Gates.HostVms(nodes, l, host);
    assert |vms| > 0 ==> vms[0] in vms;
    Gates.SelectFinds(nodes, l, (n: Node) => n.parent == host);
    assert forall id :: id in l.ids && id in l.fetched && id in nodes && nodes[id].parent == host ==>
      Gates.Vm(id, nodes[id]) in vms;
  }

  /** A session is open with an operation ID, or one can be opened. */
  predicate HasSession(cm: HmcSession.Stored, startOk: bool) {
    var st := HmcSession.Load(cm);
    (st.status == HmcSession.Active && (st.opId != "" || (cm.Some? && st.activeSessions == 1))) || startOk
  }

  lemma InForceExactly(w: World, uid: string, c: Hmc.Calls)
    requires uid in w.hosts
    ensures InForce(w, uid, c).Some? <==> HasSession(w.session, c.startOk)
  {
  }

  lemma EvacuateExactly(w: World, uid: string, host: string, opId: string, c: Hmc.Calls)
    requires uid in w.hosts
    ensures var n := HostTags.Ensure(w.nodes, host, opId, c.ensureCalls);
      Hmc.Evacuate(w, uid, host, opId, c).1.Evacuated? <==>
        && c.clientOk && c.ensureCalls >= 6 && c.serviceOk && GatesOpen(n, host, c)
        && c.clearCalls >= 3 + |HostTags.OpTags(n[host].tags)| && c.updateOk
  {
    hide HostTags.Ensure, HostTags.Clear, Hmc.Verdict, Hmc.Tracked, HmcSession.Complete, GatesOpen, HostTags.OpTags;
    var n := HostTags.Ensure(w.nodes, host, opId, c.ensureCalls);
    GatesExactly(n, host, c);
    OpenKnows(n, host, c);
  }

  lemma OpenKnows(nodes: Nodes, host: string, c: Hmc.Calls)
    ensures GatesOpen(nodes, host, c) ==> host in nodes
  {
    hide Gates.WlcVerdict;
  }

  /** The gates got as far as looking for replacements: the first read was empty, and the second went through. */
  ghost predicate LooksForReplacements(nodes: Nodes, host: string, c: Hmc.Calls) {
    && c.first.Some? && c.hostOk && host in nodes && c.second.Some?
    && (forall id :: id in c.first.value.ids && id in c.first.value.fetched && id in nodes ==> nodes[id].parent != host)
  }

  /**
   * Unless the gates open the host keeps the tags it got, and the session gets the clusters and VMs still waited for,
   * provided the check got as far as collecting them and the session could be loaded and saved.
   */
  lemma TracksExactly(w: World, uid: string, host: string, opId: string, c: Hmc.Calls)
    requires uid in w.hosts && c.clientOk
    requires c.ensureCalls < 6 || !c.serviceOk
      || !GatesOpen(HostTags.Ensure(w.nodes, host, opId, c.ensureCalls), host, c)
    ensures var n := HostTags.Ensure(w.nodes, host, opId, c.ensureCalls);
      var saved := c.ensureCalls >= 6 && c.serviceOk && LooksForReplacements(n, host, c) && c.gateLoadOk && c.trackOk
        && HmcSession.Load(w.session).opId != "";
      var (w', e) := Hmc.Evacuate(w, uid, host, opId, c);
      && e == Hmc.Quiet && w' == w.(nodes := n, session := w'.session)
      && (!saved ==> w'.session == w.session)
      && (saved ==>
            var t := Gates.TrackingOf(Gates.HostVms(n, c.second.value, host));
            HmcSession.Load(w'.session) == HmcSession.Load(w.session).(affected := t.affected, pending := t.pending))
  {
    hide HostTags.Ensure, GatesOpen, Gates.HostVms, Gates.AllVms, Gates.ReplacementsReady, Gates.TrackingOf,
      HostTags.Clear, HostTags.ClearSucceeds;
    var n := HostTags.Ensure(w.nodes, host, opId, c.ensureCalls);
    GatesExactly(n, host, c);
    if c.first.Some? {
      EmptyReadExactly(n, c.first.value, host);
    }
    HmcSession.TrackExactly(w.session, {}, [], c.trackOk);
  }

  /** Once the gates open the tags go as far as the calls do, whether or not the host is then let go. */
  lemma ClearsOnceOpen(w: World, uid: string, host: string, opId: string, c: Hmc.Calls)
    requires uid in w.hosts && c.clientOk && c.ensureCalls >= 6 && c.serviceOk
    requires GatesOpen(HostTags.Ensure(w.nodes, host, opId, c.ensureCalls), host, c)
    ensures var n := HostTags.Ensure(w.nodes, host, opId, c.ensureCalls);
      var (w', e) := Hmc.Evacuate(w, uid, host, opId, c);
      && w'.nodes == HostTags.Clear(n, host, c.clearCalls)
      && (!e.Evacuated? ==> w'.hosts == w.hosts)
  {
    hide HostTags.Ensure, GatesOpen, Hmc.Verdict, Hmc.Tracked, HostTags.Clear, HostTags.ClearSucceeds;
    GatesExactly(HostTags.Ensure(w.nodes, host, opId, c.ensureCalls), host, c);
  }

  /**
   * A reconcile lets a host go exactly when the host is bare metal of a host cluster, its owner is being
   * deleted, its evacuation finalizer is on and it was not evacuated before, it has a system ID, a session is or
   * can be opened, all tags could be placed, the gates are open, and all tags could be cleared again.
   */
  lemma HmcEvacuatesExactly(w: World, uid: string, c: Hmc.Calls)
    requires uid in w.hosts
    ensures var h := w.hosts[uid];
      Hmc.Step(w, uid, c).1.Evacuated? <==>
        && (h.parent.None? || h.parent.value == "") && c.isHcp && c.ownerOk && h.machineDeleting && h.completed == ""
        && h.evacuationFinalizer && c.loadOk && h.systemID.Some? && HasSession(w.session, c.startOk)
        && c.clientOk && c.ensureCalls >= 6 && c.serviceOk && c.updateOk
        && (var n := HostTags.Ensure(w.nodes, h.systemID.value, OpIdInForce(w, uid, c), c.ensureCalls);
            GatesOpen(n, h.systemID.value, c) && c.clearCalls >= 3 + |HostTags.OpTags(n[h.systemID.value].tags)|)
  {
    hide Hmc.Evacuate, HostTags.Ensure, GatesOpen, HasSession, HostTags.OpTags;
    var host := Text(w.hosts[uid].systemID);
    InForceExactly(w, uid, c);
    if InForce(w, uid, c).Some? {
      var op := OpIdInForce(w, uid, c);
      EvacuateExactly(w, uid, host, op, c);
      EvacuateExactly(w.(session := HmcSession.Start(w.session, host, c.opId, c.now, c.startOk)), uid, host, op, c);
      OpenKnows(HostTags.Ensure(w.nodes, host, op, c.ensureCalls), host, c);
    }
  }
}
