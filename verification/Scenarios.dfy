/**
 * Runs that reach the states the other modules warn about: one host, from its creation to an evacuation, and
 * what goes wrong after or during it.
 */
module Scenarios {
  import opened Base
  import opened Inventory
  import opened State
  import opened Protocol
  import Allocation
  import Effects
  import Evacuation
  import Gates
  import Hmc
  import HmcSession
  import HostMachines
  import HostTags
  import ProviderIds
  import Tags
  import Wedge

  // ----- runs, one step at a time -----

  ghost function Last(r: Run): Sys
    requires |r.states| > 0
  {
    r.states[|r.states| - 1]
  }

  lemma Extend(r: Run, a: Action, t: Sys, e: Event) returns (r': Run)
    requires IsRun(r) && Leads(Last(r), a, t, e)
    ensures IsRun(r') && Last(r') == t
    ensures r'.actions == r.actions + [a] && r'.events == r.events + [e] && r'.states == r.states + [t]
  {
    hide Leads, Initial;
    r' := Run(r.states + [t], r.actions + [a], r.events + [e]);
    forall i | 0 <= i < |r'.actions| ensures Leads(r'.states[i], r'.actions[i], r'.states[i + 1], r'.events[i]) {
      if i < |r.actions| {
        assert r'.states[i] == r.states[i] && r'.states[i + 1] == r.states[i + 1];
      } else {
        assert r'.states[i] == Last(r) && r'.states[i + 1] == t;
      }
    }
  }

  /** Takes a step that is enabled. */
  lemma Take(r: Run, a: Action) returns (r': Run)
    requires IsRun(r) && Enabled(Last(r), a)
    ensures IsRun(r') && Last(r').w == Step(Last(r).w, a).0
      && Last(r').h == Remember(Last(r).h, Last(r).w, a, Step(Last(r).w, a).1)
    ensures r'.actions == r.actions + [a] && r'.events == r.events + [Step(Last(r).w, a).1]
    ensures r'.states == r.states + [Last(r')]
  {
    hide Permitted, Step, Remember, Initial;
    var (w, e) := Step(Last(r).w, a);
    r' := Extend(r, a, Sys(w, Remember(Last(r).h, Last(r).w, a, e)), e);
  }

  // ----- a host is created and deployed -----

  const BARE := Node("", "bare", "ipmi", "on", "Deployed", "z", "p", [])
  const NO_KCP := Kcp(None, None, None, None, None, None, None)
  const NEW_HOST := Host(None, false, false, false, false, "", None, None)

  function Begin(): Sys {
    Sys(World(map["m" := BARE], NO_KCP, map[], map[], map[], map[], map[], None),
        History({}, map[], map[], {}, {}, {}, {}, {}))
  }

  /** MAAS grants machine m and everything goes well. */
  const DEPLOYING := HostMachines.NormalCalls(true,
    Allocation.Calls(true, Allocation.NotFound, true, Some(Allocation.Grant("m", "z")), None, true, "ipmi", true,
      true, true, true, "z", true),
    false, {})

  function Deployed(): Host {
    NEW_HOST.(machineFinalizer := true, evacuationFinalizer := true,
              providerID := Some(ProviderIds.Print("z", "m")), systemID := Some("m"))
  }

  /** A state with this one host, and the machine behind it carrying these tags. */
  ghost predicate OneHost(s: Sys, h: Host, tags: seq<string>) {
    && s.w.hosts == map["u" := h] && s.w.nodes == map["m" := BARE.(tags := tags)]
    && s.h.hostUids == {"u"} && s.h.names == map[] && s.w.machines == map[]
  }

  lemma NotAVmHost()
    ensures !Allocation.Rejected(DEPLOYING.alloc)
  {
    assert |Tags.Lower("ipmi")| == 4 && Tags.Lower("ipmi")[0] == 'i';
    assert "lxd"[0] == 'l' && "lxdvm"[0] == 'l' && "virsh"[0] == 'v';
  }

  lemma DeployStep(w: World, h: Host)
    requires w.hosts == map["u" := h] && h == NEW_HOST.(machineFinalizer := true, evacuationFinalizer := true)
    ensures var w' := HostMachines.NormalStep(w, "u", DEPLOYING);
      w'.hosts == map["u" := Deployed()] && w'.nodes == w.nodes && w'.session == w.session && w'.machines == w.machines
  {
    hide ProviderIds.Print, HostMachines.DeployedNow, Allocation.Rejected;
    NotAVmHost();
    ProviderIds.NoProviderIdNoInstance(None);
  }

  lemma CreateStep(r: Run) returns (r': Run)
    requires IsRun(r) && Last(r) == Begin()
    ensures IsRun(r') && OneHost(Last(r'), NEW_HOST, []) && Last(r').w.session == None && Last(r').h.opIds == {}
  {
    r' := Take(r, HostCreated("u", NEW_HOST));
    assert BARE.(tags := []) == BARE;
  }

  /** One of the steps in which reconcileNormal only adds a finalizer. */
  lemma FinalizerStep(r: Run, h: Host, tags: seq<string>) returns (r': Run)
    requires IsRun(r) && OneHost(Last(r), h, tags) && !h.deleting && Text(h.parent) == ""
    requires !h.machineFinalizer || !h.evacuationFinalizer
    ensures IsRun(r') && Last(r').w.session == Last(r).w.session && Last(r').h.opIds == Last(r).h.opIds
    ensures OneHost(Last(r'), if !h.machineFinalizer then h.(machineFinalizer := true)
      else h.(evacuationFinalizer := true), tags)
    ensures r'.actions == r.actions + [HostNormal("u", DEPLOYING)] && r'.events == r.events + [Silent]
  {
    hide Allocation.ReconcileResult, HostMachines.DeployedNow, HostMachines.Cleanup, Leads, Initial;
    r' := Take(r, HostNormal("u", DEPLOYING));
  }

  lemma DeployHost(r: Run, h: Host) returns (r': Run)
    requires IsRun(r) && OneHost(Last(r), h, [])
      && h == NEW_HOST.(machineFinalizer := true, evacuationFinalizer := true)
    ensures IsRun(r') && OneHost(Last(r'), Deployed(), [])
    ensures Last(r').w.session == Last(r).w.session && Last(r').h.opIds == Last(r).h.opIds
  {
    hide HostMachines.NormalStep, ProviderIds.Print, Leads, Initial;
    DeployStep(Last(r).w, h);
    r' := Take(r, HostNormal("u", DEPLOYING));
  }

  lemma MarkOwner(r: Run, h: Host, tags: seq<string>) returns (r': Run)
    requires IsRun(r) && OneHost(Last(r), h, tags)
    ensures IsRun(r') && OneHost(Last(r'), h.(machineDeleting := true), tags)
    ensures Last(r').w.session == Last(r).w.session && Last(r').h.opIds == Last(r).h.opIds
  {
    hide Leads, Initial;
    r' := Take(r, HostMachineMarked("u"));
  }

  lemma MarkHost(r: Run, h: Host, tags: seq<string>) returns (r': Run)
    requires IsRun(r) && OneHost(Last(r), h, tags)
    ensures IsRun(r') && OneHost(Last(r'), h.(deleting := true), tags)
    ensures r'.actions == r.actions + [HostMarked("u")] && r'.events == r.events + [Silent]
  {
    hide Leads, Initial;
    r' := Take(r, HostMarked("u"));
  }

  lemma BeginIsInitial()
    ensures IsRun(Run([Begin()], [], []))
  {
  }

  /** A deployed host whose owner is being deleted: HMC's turn. */
  lemma ReadyForEvacuation() returns (r: Run)
    ensures IsRun(r) && OneHost(Last(r), Deployed().(machineDeleting := true), []) && Last(r).w.session == None
      && Last(r).h.opIds == {}
  {
    hide Leads, Initial, OneHost, ProviderIds.Print;
    BeginIsInitial();
    r := Run([Begin()], [], []);
    r := CreateStep(r);
    r := FinalizerStep(r, NEW_HOST, []);
    r := FinalizerStep(r, NEW_HOST.(machineFinalizer := true), []);
    r := DeployHost(r, NEW_HOST.(machineFinalizer := true, evacuationFinalizer := true));
    r := MarkOwner(r, Deployed(), []);
  }

  // ----- evacuating it -----

  /** The only machine there is, listed and fetched. */
  const ALL := Gates.Listing(["m"], {"m"})

  /** Ensuring the tags of an operation on a bare host leaves exactly three, all of them to clear. */
  lemma TagsOfHost(w: World, opId: string)
    requires w.nodes == map["m" := BARE]
    ensures var n := HostTags.Ensure(w.nodes, "m", opId, HostTags.ENSURE_CALLS);
      "m" in n && |HostTags.ToClear(n["m"].tags)| <= 5
  {
    hide Tags.OpTag;
    var n := HostTags.Ensure(w.nodes, "m", opId, HostTags.ENSURE_CALLS);
    assert |n["m"].tags| <= 3;
    FewOpTags(n["m"].tags);
  }

  lemma {:induction false} FewOpTags(tags: seq<string>)
    ensures |HostTags.OpTags(tags)| <= |tags|
  {
    if tags != [] {
      FewOpTags(tags[..|tags| - 1]);
    }
  }

  lemma EvacuateStep(w: World, c: Hmc.Calls, host: Host)
    requires w.hosts == map["u" := host] && w.nodes == map["m" := BARE]
    requires Evacuation.AwaitsEvacuation(host) && host.systemID == Some("m")
    requires Evacuation.Through(c) && c.ensureCalls == HostTags.ENSURE_CALLS && c.clearCalls == 6 && c.annotateOk
      && c.completeOk
    ensures var (w', e) := Hmc.Step(w, "u", c);
      && e == Hmc.Evacuated("u", "m") && Evacuation.InForce(w, "u", c).Some?
      && w'.hosts == map["u" :=
        host.(evacuationFinalizer := false, completed := Evacuation.InForce(w, "u", c).value.opId)]
      && w'.nodes == w.nodes && w'.machines == w.machines
      && HmcSession.Load(w'.session) == HmcSession.Closed(Evacuation.InForce(w, "u", c).value)
  {
    hide Hmc.Step, HostTags.Ensure, HostTags.ToClear, Evacuation.InForce;
    TagsOfHost(w, Evacuation.OpIdInForce(w, "u", c));
    Evacuation.HmcEvacuates(w, "u", c);
    Evacuation.EvacuatedHostIsClean(w, "u", c);
    Evacuation.HmcPassesGate(w, "u", c);
    assert HostTags.Strip([]) == [];
    HmcMachines(w, "u", c);
  }

  lemma HmcMachines(w: World, uid: string, c: Hmc.Calls)
    requires uid in w.hosts
    ensures Hmc.Step(w, uid, c).0.machines == w.machines
  {
    hide Hmc.Step;
    Effects.HmcFrame(w, uid, c);
  }

  lemma EvacuateHost(r: Run, host: Host, opId: string) returns (r': Run)
    requires IsRun(r) && OneHost(Last(r), host, [])
    requires Evacuation.AwaitsEvacuation(host) && host.systemID == Some("m") && FreshOp(Last(r).h, opId)
    ensures var c := Wedge.Smooth(ALL, opId, 6); var st := Evacuation.InForce(Last(r).w, "u", c);
      && IsRun(r') && st.Some?
      && OneHost(Last(r'), host.(evacuationFinalizer := false, completed := st.value.opId), [])
      && r'.actions == r.actions + [HmcReconcile("u", c)] && r'.events == r.events + [FromHmc(Hmc.Evacuated("u", "m"))]
      && r'.states == r.states + [Last(r')]
      && HmcSession.Load(Last(r').w.session) == HmcSession.Closed(st.value)
  {
    hide Hmc.Step, Leads, Initial, Evacuation.InForce;
    var c := Wedge.Smooth(ALL, opId, 6);
    assert BARE.(tags := []) == BARE;
    EvacuateStep(Last(r).w, c, host);
    r' := Take(r, HmcReconcile("u", c));
  }

  // ----- the finalizer comes back -----

  /**
   * HMC evacuates the host, reconcileNormal runs once more before the host itself is marked for deletion, and
   * the host is wedged: Wedge.WedgedForever applies from there on.
   */
  lemma WedgedIsReached() returns (r: Run)
    ensures IsRun(r) && Wedge.Wedged(Last(r), "u") && |r.actions| >= 3
    ensures var n := |r.actions|;
      && r.events[n - 3] == FromHmc(Hmc.Evacuated("u", "m"))
      && r.actions[n - 2] == HostNormal("u", DEPLOYING) && r.actions[n - 1] == HostMarked("u")
  {
    hide Leads, Initial, OneHost, ProviderIds.Print;
    r := ReadyForEvacuation();
    var host := Deployed().(machineDeleting := true);
    OneHostIs(Last(r), host, []);
    StartsSession(Last(r).w, Wedge.Smooth(ALL, "op", 6), host);
    r := EvacuateHost(r, host, "op");
    var gone := host.(evacuationFinalizer := false, completed := "op");
    r := FinalizerStep(r, gone, []);
    r := MarkHost(r, gone.(evacuationFinalizer := true), []);
    OneHostIs(Last(r), gone.(evacuationFinalizer := true, deleting := true), []);
  }

  lemma OneHostIs(s: Sys, h: Host, tags: seq<string>)
    requires OneHost(s, h, tags)
    ensures "u" in s.w.hosts && s.w.hosts["u"] == h
  {
  }

  lemma StartsSession(w: World, c: Hmc.Calls, host: Host)
    requires w.session == None && "u" in w.hosts && c.startOk
    ensures Evacuation.InForce(w, "u", c).Some? && Evacuation.InForce(w, "u", c).value.opId == c.opId
  {
  }

  // ----- a session for another host -----

  /** An operator asks for a session on host b, and HMC opens it. */
  lemma SessionForAnother(r: Run, host: Host) returns (r': Run)
    requires IsRun(r) && OneHost(Last(r), host, []) && Last(r).w.session == None && Last(r).h.opIds == {}
    ensures IsRun(r') && OneHost(Last(r'), host, []) && Last(r').h.opIds == {"op"}
    ensures HmcSession.Load(Last(r').w.session) == HmcSession.Fresh("b", "op", 0)
  {
    hide Leads, Initial;
    var r1 := AskForAnother(r, host);
    r' := OpenForAnother(r1, host);
  }

  ghost predicate AskedForB(cm: HmcSession.Stored) {
    HmcSession.Load(cm) == HmcSession.EMPTY && HmcSession.Trigger(cm) == Some("b")
  }

  lemma AskForAnother(r: Run, host: Host) returns (r': Run)
    requires IsRun(r) && OneHost(Last(r), host, []) && Last(r).w.session == None && Last(r).h.opIds == {}
    ensures IsRun(r') && OneHost(Last(r'), host, []) && Last(r').h.opIds == {} && AskedForB(Last(r').w.session)
  {
    hide Leads, Initial;
    var other := map["start" := "true", "hostSystemID" := "b"];
    r' := Take(r, OperatorEdits(other));
  }

  lemma OpenForAnother(r: Run, host: Host) returns (r': Run)
    requires IsRun(r) && OneHost(Last(r), host, []) && Last(r).h.opIds == {} && AskedForB(Last(r).w.session)
    ensures IsRun(r') && OneHost(Last(r'), host, []) && Last(r').h.opIds == {"op"}
    ensures HmcSession.Load(Last(r').w.session) == HmcSession.Fresh("b", "op", 0)
  {
    hide Leads, Initial, HmcSession.Trigger;
    r' := Take(r, HmcConfigMap(Wedge.Smooth(ALL, "op", 0).(clientOk := false)));
  }

  /** The host m is evacuated under the session open for host b, which is Completed by it. */
  lemma AnotherHostsSessionIsCompleted() returns (r: Run, i: nat)
    ensures IsRun(r) && i + 1 == |r.actions| && r.events[i] == FromHmc(Hmc.Evacuated("u", "m"))
    ensures var st := HmcSession.Load(r.states[i].w.session);
      st.status == HmcSession.Active && st.currentHost == "b" && st.opId == "op"
    ensures var st := HmcSession.Load(r.states[i + 1].w.session);
      st.status == HmcSession.Completed && st.opId == "op"
  {
    hide Leads, Initial, OneHost, ProviderIds.Print;
    r := ReadyForEvacuation();
    var host := Deployed().(machineDeleting := true);
    r := SessionForAnother(r, host);
    i := |r.actions|;
    assert Last(r) == r.states[i] by { LastIs(r); }
    OneHostIs(Last(r), host, []);
    KeepsSession(Last(r).w, Wedge.Smooth(ALL, "op2", 6));
    r := EvacuateHost(r, host, "op2");
  }

  lemma LastIs(r: Run)
    requires IsRun(r)
    ensures |r.states| == |r.actions| + 1 && Last(r) == r.states[|r.actions|] && |r.events| == |r.actions|
  {
    hide Leads, Initial;
  }

  lemma KeepsSession(w: World, c: Hmc.Calls)
    requires "u" in w.hosts && HmcSession.Load(w.session) == HmcSession.Fresh("b", "op", 0)
    ensures Evacuation.InForce(w, "u", c) == Some(HmcSession.Fresh("b", "op", 0))
  {
  }
}
