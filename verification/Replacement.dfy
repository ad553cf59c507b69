/**
 * A whole evacuation as a run: a control-plane Machine gets its VM, the VM's host starts to drain, VEC deletes the
 * Machine, its replacement is composed on another host and offered to the session, and VEC completes the session.
 */
module Replacement {
  import opened Base
  import opened Inventory
  import opened State
  import opened Protocol
  import opened Scenarios
  import Effects
  import Gates
  import Handshake
  import Hmc
  import HmcSession
  import HostTags
  import Offers
  import ProviderIds
  import Provision
  import Quorum
  import Selector
  import Stalling
  import Strategy
  import Tags
  import Vec
  import Wedge

  // ----- the cast -----

  const FREE := Node("", "hn", "ipmi", "on", "Deployed", "z", "p", [])
  const DRAINING := Node("", "hm", "ipmi", "on", "Deployed", "z", "p", [])

  function Member(name: string, vmName: string): Machine {
    Machine(true, false, "infra", false, name, vmName, Selector.Options("z", "p", [], 0, 0, 0, "c"), None, None, true)
  }

  function LxdHost(id: string): Selector.VmHost {
    Selector.VmHost("lxd-host-x", "vh", id, Some("z"), Some("p"), [], 8, 16384, [])
  }

  /** An attempt in which every call succeeds and one host is offered. */
  function Attempt(host: string, node: Node, newId: string, firstActive: string): Provision.Calls {
    Provision.Calls(true, true, true, "z", Some([LxdHost(host)]), Some([]), map[host := node], true, newId, false, None,
      true, true, true, true, firstActive, true, true, true)
  }

  const STABLE := Kcp(None, Some(3), Some(3), Some(3), Some(3), None, None)

  function Open(): Sys {
    Sys(World(map["m" := DRAINING, "n" := FREE], STABLE, map[], map[], map[], map[], map[], None),
        History({}, map[], map[], {}, {}, {}, {}, {}))
  }

  // ----- names -----

  lemma Lowered()
    ensures Tags.Lower("a") == "a" && Tags.Lower("b") == "b" && Tags.Lower("hm") == "hm" && Tags.Lower("hn") == "hn"
    ensures Tags.Lower("vm-x") == "vm-x" && Tags.Lower("vm-y") == "vm-y"
  {
    Tags.LowerFixpoint("a");
    Tags.LowerFixpoint("b");
    Tags.LowerFixpoint("hm");
    Tags.LowerFixpoint("hn");
    Tags.LowerFixpoint("vm-x");
    Tags.LowerFixpoint("vm-y");
  }

  lemma NamesOfMembers()
    ensures NamesOf(Member("x", "a")) == Names("a", "vm-x") && NamesOf(Member("y", "b")) == Names("b", "vm-y")
  {
    hide Tags.Lower;
    Lowered();
    assert Provision.DeployName(Member("x", "a")) == "vm-x" && Provision.DeployName(Member("y", "b")) == "vm-y";
  }

  // ----- composing -----

  lemma OneChoice(w: World, uid: string, c: Provision.Calls, host: string, node: Node)
    requires uid in w.machines && c.hosts == Some([LxdHost(host)]) && c.machines == Some([])
      && c.view == map[host := node]
    requires w.machines[uid].placement == Selector.Options("z", "p", [], 0, 0, 0, "c")
    requires host != "" && node.powerState == "on" && node.state == "Deployed" && !Tags.HasMaintenanceTag(node.tags)
    ensures Provision.Picks(w, uid, c, Some(LxdHost(host)))
  {
    hide Tags.HasMaintenanceTag, Selector.Better, Selector.Rank;
    var r := Selector.Rank(LxdHost(host), w.machines[uid].placement, c.machines);
    Selector.BetterIsStrictWeakOrder(r, r, r);
    assert LxdHost(host) in c.hosts.value;
  }

  /** At most the tags of machine id differ. */
  ghost predicate TouchesOne(a: Nodes, b: Nodes, id: string) {
    && b.Keys == a.Keys && (forall x :: x in a && x != id ==> b[x] == a[x])
    && (id in a ==> b[id].parent == a[id].parent && b[id].hostname == a[id].hostname)
  }

  lemma TagVmTouchesOne(nodes: Nodes, id: string, clusterId: string, cpOk: bool, clusterOk: bool)
    ensures TouchesOne(nodes, Provision.TagVm(nodes, id, clusterId, cpOk, clusterOk), id)
  {
    hide Tags.ClusterTag, Tags.VM_CONTROL_PLANE;
  }

  lemma TaggingTouchesOne(w: World, id: string, clusterId: string, c: Provision.Calls)
    ensures TouchesOne(w.nodes, Provision.TagControlPlane(w, id, clusterId, c).nodes, id)
  {
    hide Provision.TagVm, Provision.OfferedTo;
    var n1 := Provision.TagVm(w.nodes, id, clusterId, c.cpTagOk, c.clusterTagOk);
    TagVmTouchesOne(w.nodes, id, clusterId, c.cpTagOk, c.clusterTagOk);
    TagVmTouchesOne(n1, id, clusterId, c.retagCpOk, c.retagClusterOk);
  }

  lemma FinishTouchesOne(w: World, uid: string, id: string, zone: string, c: Provision.Calls)
    requires uid in w.machines
    ensures TouchesOne(w.nodes, Provision.Finish(w, uid, id, zone, c).nodes, id)
  {
    hide ProviderIds.Print, Provision.TagControlPlane, TouchesOne;
    TaggingTouchesOne(Provision.Record(w, uid, id, zone, c.patchOk), id, w.machines[uid].placement.clusterId, c);
    assert TouchesOne(w.nodes, w.nodes, id) by { Untouched(w.nodes, id); }
  }

  lemma Untouched(nodes: Nodes, id: string)
    ensures TouchesOne(nodes, nodes, id)
  {
  }

  /** The machines that were there keep their tags, and the new VM is what the host and the Machine ask for. */
  ghost predicate Added(a: Nodes, b: Nodes, vm: string, parent: string, hostname: string) {
    && b.Keys == a.Keys + {vm} && (forall x :: x in a ==> b[x] == a[x])
    && b[vm].parent == parent && b[vm].hostname == hostname
  }

  lemma ComposedNodes(w: World, uid: string, c: Provision.Calls, pick: Option<Selector.VmHost>, vm: string)
    requires uid in w.machines && w.machines[uid].controlPlane && Offers.Composes(w, uid, c, pick, vm) && vm !in w.nodes
    ensures Added(w.nodes, Provision.Step(w, uid, c, pick).0.nodes, vm, pick.value.hostSystemId, w.machines[uid].vmName)
  {
    hide ProviderIds.InstanceId, Provision.Finish, Provision.Offer;
    var m := w.machines[uid];
    var w1 := w.(nodes := w.nodes[vm := Provision.NewVm(pick.value, m)]);
    FinishTouchesOne(w1, uid, vm, m.placement.zone, c);
  }

  /** What composing for this Machine comes to, but for the session. */
  ghost predicate ComposedFor(w: World, w': World, e: Provision.Event, uid: string, vm: string, parent: string)
    requires uid in w.machines
  {
    && Added(w.nodes, w'.nodes, vm, parent, w.machines[uid].vmName)
    && w'.machines == w.machines[uid :=
      w.machines[uid].(systemID := Some(vm), providerID := Some(ProviderIds.Print("z", vm)))]
    && w' == w.(nodes := w'.nodes, machines := w'.machines, sessions := w'.sessions)
    && e.Provisioned? && e.uid == uid && e.vm == vm && e.composed
  }

  lemma EventOfCompose(w: World, uid: string, c: Provision.Calls, pick: Option<Selector.VmHost>)
    requires uid in w.machines
    ensures Provision.Step(w, uid, c, pick).1.Provisioned? ==> Provision.Step(w, uid, c, pick).1.uid == uid
  {
    hide ProviderIds.InstanceId, Provision.Finish, Provision.Offer, Provision.HostnameTaken, Provision.SameHostname,
      Provision.Record;
  }

  lemma PrintIs(id: string)
    ensures ProviderIds.Print("z", id) == "maas:///" + "z" + "/" + id
  {
  }

  lemma Recorded(w: World, w': World, uid: string, vm: string)
    requires uid in w.machines && Offers.RecordedAs(w, w', uid, vm, "z", true)
    ensures w'.machines == w.machines[uid :=
      w.machines[uid].(systemID := Some(vm), providerID := Some(ProviderIds.Print("z", vm)))]
  {
    hide ProviderIds.Print;
    PrintIs(vm);
  }

  lemma Composing(w: World, uid: string, c: Provision.Calls, pick: Option<Selector.VmHost>, vm: string)
    requires uid in w.machines && w.machines[uid].controlPlane && w.machines[uid].placement.zone == "z"
    requires Offers.Composes(w, uid, c, pick, vm) && vm !in w.nodes && c.patchOk
    ensures var (w', e) := Provision.Step(w, uid, c, pick); ComposedFor(w, w', e, uid, vm, pick.value.hostSystemId)
  {
    hide Provision.Step, Offers.Composes, Added, ProviderIds.Print, Offers.Filled, Offers.RecordedAs;
    Offers.ComposeOffers(w, uid, c, pick, vm, "");
    Offers.ComposeRecords(w, uid, c, pick, vm);
    Effects.ProvisionFrame(w, uid, c, pick);
    EventOfCompose(w, uid, c, pick);
    ComposedNodes(w, uid, c, pick, vm);
    Recorded(w, Provision.Step(w, uid, c, pick).0, uid, vm);
  }

  // ----- the stages -----

  /** Member u with its VM v on host m; nothing else yet. */
  ghost predicate Settled(s: Sys) {
    && s.w.machines == map["u" :=
      Member("x", "a").(systemID := Some("v"), providerID := Some(ProviderIds.Print("z", "v")))]
    && s.w.nodes.Keys == {"m", "n", "v"} && s.w.nodes["n"] == FREE && s.w.nodes["m"].parent == ""
    && s.w.nodes["m"].hostname == "hm" && s.w.nodes["v"].parent == "m" && s.w.nodes["v"].hostname == "a"
    && s.w.sessions == map[] && s.w.kcp == STABLE
    && s.h.uids == {"u"} && s.h.names == map["u" := Names("a", "vm-x")] && s.h.composed == map["v" := "u"]
  }

  lemma FirstMember(r: Run) returns (r': Run)
    requires IsRun(r) && Last(r) == Open()
    ensures IsRun(r') && Last(r').w == Open().w.(machines := map["u" := Member("x", "a")])
    ensures Last(r').h == Open().h.(uids := {"u"}, names := map["u" := Names("a", "vm-x")])
    ensures r'.events == r.events + [Silent]
  {
    hide Leads, Initial, NamesOf, Tags.Lower;
    NamesOfMembers();
    Lowered();
    r' := TakeCreation(r, "u", Member("x", "a"), Names("a", "vm-x"));
  }

  lemma TakeCreation(r: Run, uid: string, m: Machine, n: Names) returns (r': Run)
    requires IsRun(r) && Enabled(Last(r), MachineCreated(uid, m)) && NamesOf(m) == n
    ensures IsRun(r') && Last(r').w == Last(r).w.(machines := Last(r).w.machines[uid := m])
    ensures Last(r').h == Last(r).h.(uids := Last(r).h.uids + {uid}, names := Last(r).h.names[uid := n])
    ensures r'.events == r.events + [Silent]
  {
    hide Leads, Initial, Enabled, NamesOf;
    r' := Take(r, MachineCreated(uid, m));
  }

  lemma TakeVec(r: Run, c: Vec.Calls) returns (r': Run)
    requires IsRun(r) && Vec.Consistent(Last(r).w, c)
    ensures IsRun(r') && Last(r').w == Vec.Step(Last(r).w, c).0
    ensures var e := Vec.Step(Last(r).w, c).1;
      r'.events == r.events + [FromVec(e)]
      && Last(r').h == Remember(Last(r).h, Last(r).w, VecReconcile(c), FromVec(e))
  {
    hide Leads, Initial, Vec.Step, Vec.Consistent, Remember;
    r' := Take(r, VecReconcile(c));
  }

  lemma TakeProvision(r: Run, uid: string, c: Provision.Calls, pick: Option<Selector.VmHost>) returns (r': Run)
    requires IsRun(r) && Provision.Consistent(Last(r).w, uid, c) && Provision.Picks(Last(r).w, uid, c, pick)
    requires c.newId !in Last(r).h.composed && '\n' !in c.zone
    ensures IsRun(r') && Last(r').w == Provision.Step(Last(r).w, uid, c, pick).0
    ensures var e := Provision.Step(Last(r).w, uid, c, pick).1;
      && r'.events == r.events + [FromProvision(e)]
      && Last(r').h == Remember(Last(r).h, Last(r).w, ProvisionVm(uid, c, pick), FromProvision(e))
  {
    hide Leads, Initial, Provision.Step, Provision.Picks, Remember;
    r' := Take(r, ProvisionVm(uid, c, pick));
  }

  lemma FirstComposes(w: World, c: Provision.Calls, pick: Option<Selector.VmHost>)
    requires w == Open().w.(machines := map["u" := Member("x", "a")])
    requires c == Attempt("m", DRAINING, "v", "") && pick == Some(LxdHost("m"))
    ensures Provision.Consistent(w, "u", c) && Provision.Picks(w, "u", c, pick) && Offers.Composes(w, "u", c, pick, "v")
  {
    hide Provision.Picks, ProviderIds.InstanceId;
    ProviderIds.NoProviderIdNoInstance(None);
    OneChoice(w, "u", c, "m", DRAINING);
  }

  lemma FirstVm(r: Run) returns (r': Run)
    requires IsRun(r) && Last(r).w == Open().w.(machines := map["u" := Member("x", "a")])
    requires Last(r).h == Open().h.(uids := {"u"}, names := map["u" := Names("a", "vm-x")])
    ensures IsRun(r') && Settled(Last(r')) && Last(r').w.nodes["m"] == DRAINING
    ensures Last(r').w.session == None && Last(r').h.opIds == {} && |r'.events| == |r.events| + 1
  {
    hide Leads, Initial, Provision.Step, Provision.Picks, ProviderIds.Print, Provision.Consistent, Offers.Composes;
    var w := Last(r).w;
    var c := Attempt("m", DRAINING, "v", "");
    var pick := Some(LxdHost("m"));
    FirstComposes(w, c, pick);
    Composing(w, "u", c, pick, "v");
    NoOffer(w, "u", c, pick, "v");
    r' := TakeProvision(r, "u", c, pick);
  }

  lemma NoOffer(w: World, uid: string, c: Provision.Calls, pick: Option<Selector.VmHost>, vm: string)
    requires uid in w.machines && w.machines[uid].controlPlane && Offers.Composes(w, uid, c, pick, vm)
      && w.sessions == map[]
    ensures var (w', e) := Provision.Step(w, uid, c, pick); e.Provisioned? && e.offered == None && w'.sessions == map[]
  {
    hide Provision.Step, Offers.Composes;
    Offers.OffersExactly(w, uid, c, pick, vm, "");
    var e := Provision.Step(w, uid, c, pick).1;
    if e.offered.Some? {
      Offers.OffersExactly(w, uid, c, pick, vm, e.offered.value);
    }
  }

  /** An operator asks for a session on host m. */
  lemma AskForDrain(r: Run) returns (r': Run)
    requires IsRun(r) && Settled(Last(r)) && Last(r).w.nodes["m"] == DRAINING && Last(r).w.session == None
    ensures IsRun(r') && Settled(Last(r')) && Last(r').w.nodes["m"] == DRAINING && Last(r').h.opIds == Last(r).h.opIds
    ensures HmcSession.Load(Last(r').w.session) == HmcSession.EMPTY
      && HmcSession.Trigger(Last(r').w.session) == Some("m")
    ensures |r'.events| == |r.events| + 1
  {
    hide Leads, Initial, ProviderIds.Print;
    r' := Take(r, OperatorEdits(map["start" := "true", "hostSystemID" := "m"]));
  }

  ghost predicate MarkedM(s: Sys) {
    "m" in s.w.nodes && s.w.nodes["m"].tags == [Tags.HOST_MAINTENANCE, Tags.HOST_NO_SCHEDULE, Tags.OpTag("op")]
  }

  lemma DrainTagsDiffer(opId: string)
    ensures Tags.HOST_MAINTENANCE != Tags.HOST_NO_SCHEDULE
    ensures Tags.OpTag(opId) != Tags.HOST_MAINTENANCE && Tags.OpTag(opId) != Tags.HOST_NO_SCHEDULE
  {
    assert Tags.HOST_MAINTENANCE[14] == 'm' && Tags.HOST_NO_SCHEDULE[14] == 'n';
    assert Tags.HOST_MAINTENANCE[10] == 'o' && Tags.HOST_NO_SCHEDULE[10] == 'o' && Tags.HOST_OP_PREFIX[10] == 'c';
    assert Tags.OpTag(opId)[10] == Tags.HOST_OP_PREFIX[10];
  }

  lemma EnsuredTags(nodes: Nodes)
    requires "m" in nodes && nodes["m"] == DRAINING
    ensures HostTags.Ensure(nodes, "m", "op", 6)
         == nodes["m" := DRAINING.(tags := [Tags.HOST_MAINTENANCE, Tags.HOST_NO_SCHEDULE, Tags.OpTag("op")])]
  {
    DrainTagsDiffer("op");
    hide Tags.HOST_MAINTENANCE, Tags.HOST_NO_SCHEDULE, Tags.OpTag;
    var a, b, c := Tags.HOST_MAINTENANCE, Tags.HOST_NO_SCHEDULE, Tags.OpTag("op");
    assert AddTag([], a) == [a];
    assert AddTag([a], b) == [a, b];
    assert AddTag([a, b], c) == [a, b, c];
  }

  function Watching(): Hmc.Calls {
    Wedge.Smooth(Gates.Listing([], {}), "op", 0)
  }

  lemma OpensAndTags(w: World)
    requires HmcSession.Load(w.session) == HmcSession.EMPTY && HmcSession.Trigger(w.session) == Some("m")
    requires "m" in w.nodes && w.nodes["m"] == DRAINING
    ensures var w' := Hmc.ConfigMapStep(w, Watching()).0;
      && w' == w.(nodes := w'.nodes, session := w'.session)
      && w'.nodes == w.nodes["m" := DRAINING.(tags := [Tags.HOST_MAINTENANCE, Tags.HOST_NO_SCHEDULE, Tags.OpTag("op")])]
  {
    hide HmcSession.Trigger, HostTags.Ensure, Tags.OpTag, Tags.HOST_MAINTENANCE, Tags.HOST_NO_SCHEDULE;
    EnsuredTags(w.nodes);
  }

  lemma TakeConfigMap(r: Run, c: Hmc.Calls) returns (r': Run)
    requires IsRun(r) && FreshOp(Last(r).h, c.opId)
    ensures IsRun(r') && Last(r').w == Hmc.ConfigMapStep(Last(r).w, c).0
    ensures Last(r').h == Last(r).h.(opIds := Last(r).h.opIds + {c.opId}) && |r'.events| == |r.events| + 1
  {
    hide Leads, Initial, Hmc.ConfigMapStep;
    r' := Take(r, HmcConfigMap(c));
  }

  /** HMC opens it and tags the host. */
  lemma StartDrain(r: Run) returns (r': Run)
    requires IsRun(r) && Settled(Last(r)) && Last(r).w.nodes["m"] == DRAINING && Last(r).h.opIds == {}
    requires HmcSession.Load(Last(r).w.session) == HmcSession.EMPTY
      && HmcSession.Trigger(Last(r).w.session) == Some("m")
    ensures IsRun(r') && Settled(Last(r')) && MarkedM(Last(r')) && |r'.events| == |r.events| + 1
  {
    hide Leads, Initial, ProviderIds.Print, HmcSession.Trigger, Hmc.ConfigMapStep, Tags.OpTag, Tags.HOST_MAINTENANCE;
    hide Tags.HOST_NO_SCHEDULE;
    OpensAndTags(Last(r).w);
    r' := TakeConfigMap(r, Watching());
  }

  // ----- VEC acts -----

  function Reconciles(order: seq<string>): Vec.Calls {
    Stalling.SMOOTH.(order := order, active := "op")
  }

  lemma Finds(w: World)
    requires "m" in w.nodes && "v" in w.nodes && w.nodes["v"].parent == "m"
    requires w.nodes["m"].tags == [Tags.HOST_MAINTENANCE, Tags.HOST_NO_SCHEDULE, Tags.OpTag("op")]
    requires "u" in w.machines && w.machines["u"].controlPlane && !w.machines["u"].deleting
      && w.machines["u"].infraRef != ""
    requires w.machines["u"].providerID == Some(ProviderIds.Print("z", "v"))
    ensures Vec.Target(w, Reconciles(["u"]), "u") == Some(Vec.Found("u", "m", "op"))
  {
    hide Tags.MarkedForEvacuation, Tags.LastOpId, Tags.OpTag, ProviderIds.ExtractSystemID, ProviderIds.Print;
    Stalling.DrainedIsMarked();
    ProviderIds.RoundTrip("z", "v");
  }

  lemma ScansIt(w: World, c: Vec.Calls)
    requires Vec.Target(w, c, "u") == Some(Vec.Found("u", "m", "op")) && "u" in c.savable
    ensures Vec.Findings(w, c, ["u"]) == [Vec.Found("u", "m", "op")]
    ensures Vec.Opened(w, c, ["u"]) == w.sessions["op" := VecSession(HmcSession.Active, "m", "")]
  {
    hide Vec.Target;
    assert ["u"][..0] == [];
  }

  lemma VecDeletes(w: World)
    requires "m" in w.nodes && "v" in w.nodes && w.nodes["v"].parent == "m" && w.sessions == map[] && w.kcp == STABLE
    requires w.nodes["m"].tags == [Tags.HOST_MAINTENANCE, Tags.HOST_NO_SCHEDULE, Tags.OpTag("op")]
    requires w.machines == map["u" :=
      Member("x", "a").(systemID := Some("v"), providerID := Some(ProviderIds.Print("z", "v")))]
    ensures Vec.Consistent(w, Reconciles(["u"]))
    ensures var (w', e) := Vec.Step(w, Reconciles(["u"]));
      && e == Vec.MachineDeleted("op", "u") && w'.nodes == w.nodes
      && w'.machines == w.machines["u" := w.machines["u"].(deleting := true)]
      && w'.sessions == map["op" := VecSession(HmcSession.Active, "m", "")]
  {
    hide Vec.Step, Vec.Target, Vec.Findings, Vec.Opened, ProviderIds.Print, Tags.OpTag;
    var c := Reconciles(["u"]);
    Finds(w);
    ScansIt(w, c);
    assert ["u"][0] == "u" && Vec.IsCp(w, "u");
    assert Vec.ActiveOps(w.sessions) == {};
    assert Stalling.MayAct(w, c, "u");
    Stalling.ActsExactly(w, c);
    Quorum.ActionFindings(w, c);
    Strategy.ReconcileEvacuates(w, c);
    Handshake.ActionSessions(w, c);
    Effects.VecMachines(w, c);
    Stalling.SwapKeepsNodes(w, c);
  }

  ghost predicate Evacuating(s: Sys) {
    && s.w.machines.Keys == {"u"} && s.w.machines["u"].vmName == "a" && s.w.machines["u"].controlPlane
    && s.w.nodes.Keys == {"m", "n", "v"} && s.w.nodes["n"] == FREE && s.w.nodes["m"].hostname == "hm"
    && s.w.nodes["v"].hostname == "a" && s.w.kcp == STABLE
    && s.w.sessions == map["op" := VecSession(HmcSession.Active, "m", "")]
    && s.h.uids == {"u"} && s.h.names == map["u" := Names("a", "vm-x")] && s.h.composed == map["v" := "u"]
  }

  lemma ActsOnIt(r: Run) returns (r': Run)
    requires IsRun(r) && Settled(Last(r)) && MarkedM(Last(r))
    ensures IsRun(r') && Evacuating(Last(r')) && r'.events == r.events + [FromVec(Vec.MachineDeleted("op", "u"))]
  {
    hide Leads, Initial, ProviderIds.Print, Tags.OpTag, Vec.Step;
    VecDeletes(Last(r).w);
    VecKcp(Last(r).w, Reconciles(["u"]));
    r' := TakeVec(r, Reconciles(["u"]));
  }

  lemma VecKcp(w: World, c: Vec.Calls)
    requires Vec.Step(w, c).1.MachineDeleted?
    ensures Vec.Step(w, c).0.kcp == w.kcp
  {
    hide Vec.Findings, Vec.Opened, Vec.OtherDeleting, Vec.Target, Vec.KcpStable, Vec.Replicas, Vec.ActiveOps;
  }

  // ----- the replacement -----

  lemma SecondMember(r: Run) returns (r': Run)
    requires IsRun(r) && Evacuating(Last(r))
    ensures IsRun(r') && r'.events == r.events + [Silent]
    ensures Last(r').w == Last(r).w.(machines := Last(r).w.machines["t" := Member("y", "b")])
    ensures Last(r').h == Last(r).h.(uids := {"u", "t"}, names :=
      map["u" := Names("a", "vm-x"), "t" := Names("b", "vm-y")])
  {
    hide Leads, Initial, NamesOf, Tags.Lower;
    NamesOfMembers();
    Lowered();
    r' := TakeCreation(r, "t", Member("y", "b"), Names("b", "vm-y"));
  }

  ghost predicate Offered(s: Sys) {
    && s.w.kcp == STABLE && s.w.sessions == map["op" := VecSession(HmcSession.Active, "m", "q")]
    && s.w.machines.Keys == {"u", "t"} && s.w.machines["u"].controlPlane && s.w.machines["t"].controlPlane
  }

  lemma SecondComposes(before: Sys, w: World, c: Provision.Calls, pick: Option<Selector.VmHost>)
    requires Evacuating(before) && w == before.w.(machines := before.w.machines["t" := Member("y", "b")])
    requires c == Attempt("n", FREE, "q", "op") && pick == Some(LxdHost("n"))
    ensures Provision.Consistent(w, "t", c) && Provision.Picks(w, "t", c, pick) && Offers.Composes(w, "t", c, pick, "q")
  {
    hide Provision.Picks, ProviderIds.InstanceId;
    ProviderIds.NoProviderIdNoInstance(None);
    OneChoice(w, "t", c, "n", FREE);
  }

  lemma SecondVm(r: Run, before: Sys) returns (r': Run)
    requires IsRun(r) && Evacuating(before)
    requires Last(r).w == before.w.(machines := before.w.machines["t" := Member("y", "b")])
      && Last(r).h.composed == before.h.composed
    ensures IsRun(r') && Offered(Last(r'))
    ensures r'.events == r.events + [FromProvision(Provision.Provisioned("t", "q", true, Some("op")))]
  {
    hide Leads, Initial, Provision.Step, Provision.Picks, ProviderIds.Print, Provision.Consistent, Offers.Composes,
      Added;
    hide Remember;
    var w := Last(r).w;
    var c := Attempt("n", FREE, "q", "op");
    var pick := Some(LxdHost("n"));
    SecondComposes(before, w, c, pick);
    Composing(w, "t", c, pick, "q");
    Offers.OffersExactly(w, "t", c, pick, "q", "op");
    r' := TakeProvision(r, "t", c, pick);
  }

  lemma Completes(r: Run) returns (r': Run)
    requires IsRun(r) && Offered(Last(r))
    ensures IsRun(r') && r'.events == r.events + [FromVec(Vec.SessionCompleted("op", "q"))]
    ensures Last(r').w.sessions == map["op" := VecSession(HmcSession.Completed, "m", "q")]
  {
    hide Leads, Initial, Vec.Step;
    var w, c := Last(r).w, Reconciles(["u", "t"]);
    assert "op" in Vec.ActiveOps(w.sessions);
    assert ["u", "t"][0] == "u" && ["u", "t"][1] == "t";
    Stalling.CompletesExactly(w, c);
    Handshake.CompletionIsProper(w, c);
    r' := TakeVec(r, c);
  }

  /**
   * Evacuating a Machine of a three-member control plane, from nothing: the deletion, the replacement that is
   * composed and offered, and the completion of the session are the fifth, seventh and eighth step.
   */
  lemma EvacuationCompletes() returns (r: Run)
    ensures IsRun(r) && |r.events| == 8
    ensures r.events[4] == FromVec(Vec.MachineDeleted("op", "u"))
    ensures r.events[6] == FromProvision(Provision.Provisioned("t", "q", true, Some("op")))
    ensures r.events[7] == FromVec(Vec.SessionCompleted("op", "q"))
    ensures Last(r).w.sessions == map["op" := VecSession(HmcSession.Completed, "m", "q")]
  {
    hide Leads, Initial, Settled, Evacuating, Offered, MarkedM, ProviderIds.Print;
    OpenIsInitial();
    r := Run([Open()], [], []);
    r := FirstMember(r);
    r := FirstVm(r);
    r := AskForDrain(r);
    r := StartDrain(r);
    r := ActsOnIt(r);
    var evacuating := Last(r);
    r := SecondMember(r);
    r := SecondVm(r, evacuating);
    r := Completes(r);
  }

  lemma OpenIsInitial()
    ensures IsRun(Run([Open()], [], []))
  {
  }
}
