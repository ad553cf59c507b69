/**
 * The API server's DNS record, written by one controller and read by another: the cluster controller decides
 * who is in it, and the machine controller releases a control-plane machine only once it is out
 * (controllers/maascluster_controller.go, controllers/maasmachine_controller.go, pkg/maas/dns/dns.go).
 */
module Dns {
  import opened Base

  datatype AddressType = ExternalIP | InternalIP | ExternalDNS | InternalDNS

  datatype Address = Address(kind: AddressType, text: string)

  /**
   * A MaasMachine as the two controllers see it. labelled is the control-plane label on the MaasMachine,
   * controlPlane the one on its owner Machine; state, powered and addresses are its status.
   */
  datatype Machine = Machine(
    labelled: bool,
    controlPlane: bool,
    deleting: bool,
    state: Option<string>,
    powered: bool,
    addresses: seq<Address>)

  /** maas holds the addresses MAAS has for the machine behind each MaasMachine; record is what was last written. */
  datatype World = World(machines: map<string, Machine>, maas: map<string, seq<Address>>, record: seq<string>)

  const RUNNING: set<string> := {"Deploying", "Deployed"}
  const KNOWN: set<string> := {"Deploying", "Deployed", "Allocated", "Disk erasing", "Releasing", "Ready", "New"}

  /** How the cluster step ends: Requeue stands for ErrRequeueDNS. */
  datatype Result = Done | Requeue | Failed

  datatype ClusterCalls = ClusterCalls(listOk: bool, order: seq<string>, readOk: bool, getOk: bool, modifyOk: bool)

  /** found: the machine lookup succeeded; readOk: so did the read of the record. */
  datatype DeleteCalls = DeleteCalls(found: bool, readOk: bool)

  // ----- reading -----

  function ExternalIp(addresses: seq<Address>): string {
    if addresses == [] then ""
    else if addresses[0].kind == ExternalIP then addresses[0].text
    else ExternalIp(addresses[1..])
  }

  predicate IsRunning(m: Machine) { m.powered && m.state.Some? && m.state.value in RUNNING }

  /** Whether the record should hold the machine. */
  predicate Serves(m: Machine) { m.labelled && !m.deleting && IsRunning(m) }

  function ReadRecord(record: seq<string>): set<string> { set ip | ip in record && ip != "" }

  predicate Registered(addresses: seq<Address>, record: seq<string>) {
    exists a :: a in addresses && a.text in ReadRecord(record)
  }

  lemma ServingIsLabelled(m: Machine)
    ensures Serves(m) ==> m.labelled
  {
  }

  // ----- the cluster step -----

  function RunningIps(machines: map<string, Machine>, order: seq<string>): seq<string> {
    if order == [] then []
    else
      var uid := order[|order| - 1];
      RunningIps(machines, order[..|order| - 1])
      + if uid in machines && Serves(machines[uid]) then [ExternalIp(machines[uid].addresses)] else []
  }

  /** A machine the record is wrong about: one to attach, or one to detach. */
  predicate Pending(w: World, uid: string) {
    uid in w.machines && w.machines[uid].labelled
    && (Serves(w.machines[uid]) <==> ExternalIp(w.machines[uid].addresses) !in ReadRecord(w.record))
  }

  function ClusterStep(w: World, c: ClusterCalls): (World, Result) {
    if !c.listOk || !c.readOk || !c.getOk || !c.modifyOk then (w, Failed)
    else (w.(record := RunningIps(w.machines, c.order)), if exists uid :: uid in c.order && Pending(w, uid)
      then Requeue else Done)
  }

  ghost predicate Lists(w: World, order: seq<string>) { forall uid :: uid in order <==> uid in w.machines }

  class Controllers {
    var machines: map<string, Machine>
    var maas: map<string, seq<Address>>
    var record: seq<string>

    constructor ()
      ensures Snapshot() == World(map[], map[], [])
    {
      machines, maas, record := map[], map[], [];
    }

    function Snapshot(): World
      reads this
    {
      World(machines, maas, record)
    }

    method GetExternalMachineIp(addresses: seq<Address>) returns (ip: string)
      ensures ip == ExternalIp(addresses)
    {
      for i := 0 to |addresses|
        invariant ExternalIp(addresses) == ExternalIp(addresses[i..])
      {
        if addresses[i].kind == ExternalIP {
          return addresses[i].text;
        }
        assert addresses[i..][1..] == addresses[i + 1..];
      }
      return "";
    }

    method GetApiServerDnsRecords() returns (ips: set<string>)
      ensures ips == ReadRecord(record)
    {
      ips := {};
      for i := 0 to |record|
        invariant ips == ReadRecord(record[..i])
      {
        assert record[..i + 1] == record[..i] + [record[i]];
        if record[i] != "" {
          ips := ips + {record[i]};
        }
      }
      assert record[..|record|] == record;
    }

    method UpdateDnsAttachments(ips: seq<string>, getOk: bool, modifyOk: bool) returns (ok: bool)
      modifies this`record
      ensures ok == (getOk && modifyOk) && record == if ok then ips else old(record)
    {
      if !getOk {
        return false;
      }
      if !modifyOk {
        return false;
      }
      record := ips;
      return true;
    }

    method Classify(m: Machine, currentIps: set<string>) returns (ip: string, attach: bool, detach: bool, running: bool)
      ensures ip == ExternalIp(m.addresses) && running == Serves(m)
      ensures attach == (running && ip !in currentIps)
      ensures detach == (m.labelled && !running && ip in currentIps)
    {
      ip, attach, detach, running := "", false, false, false;
      ip := GetExternalMachineIp(m.addresses);
      if !m.labelled {
        return;
      }
      var attached := ip in currentIps;
      if m.deleting || !IsRunning(m) {
        detach := attached;
      } else {
        attach := !attached;
        running := true;
      }
    }

    method ReconcileDnsAttachments(c: ClusterCalls) returns (r: Result)
      requires Lists(Snapshot(), c.order)
      modifies this`record
      ensures Snapshot() == ClusterStep(old(Snapshot()), c).0 && r == ClusterStep(old(Snapshot()), c).1
    {
      hide IsRunning, ExternalIp, ReadRecord, Serves;
      if !c.listOk {
        return Failed;
      }
      if !c.readOk {
        return Failed;
      }
      var currentIps := GetApiServerDnsRecords();
      var runningIps: seq<string> := [];
      var pendingAttachment: seq<string>, pendingDetachment: seq<string> := [], [];
      ghost var w, pending := Snapshot(), 0;
      assert forall j :: 0 <= j < |c.order| ==> c.order[j] in c.order && c.order[j] in machines;
      for i := 0 to |c.order|
        invariant Snapshot() == w && runningIps == RunningIps(w.machines, c.order[..i])
        invariant |pendingAttachment| + |pendingDetachment| == 0 ==> forall j :: 0 <= j < i ==> !Pending(w, c.order[j])
        invariant |pendingAttachment| + |pendingDetachment| > 0 ==> 0 <= pending < i && Pending(w, c.order[pending])
      {
        assert c.order[..i + 1][..i] == c.order[..i];
        var uid := c.order[i];
        var ip, attach, detach, running := Classify(machines[uid], currentIps);
        assert Pending(w, uid) <==> attach || detach by { ServingIsLabelled(machines[uid]); }
        if attach {
          pending := i;
          pendingAttachment := pendingAttachment + [uid];
        }
        if detach {
          pending := i;
          pendingDetachment := pendingDetachment + [uid];
        }
        if running {
          runningIps := runningIps + [ip];
        }
      }
      assert c.order[..|c.order|] == c.order;
      var ok := UpdateDnsAttachments(runningIps, c.getOk, c.modifyOk);
      if !ok {
        return Failed;
      }
      if |pendingAttachment| + |pendingDetachment| > 0 {
        assert c.order[pending] in c.order;
        return Requeue;
      }
      return Done;
    }

    /** reconcileNormal's last part, for what MAAS reports about the machine. */
    method ReconcileStatus(uid: string, state: string, powerState: string, closeOk: bool)
      requires uid in machines && uid in maas
      modifies this`machines
      ensures machines == if closeOk
        then old(machines)[uid := Reported(old(machines)[uid], maas[uid], state, powerState)] else old(machines)
    {
      hide KNOWN;
      var m := machines[uid];
      m := m.(state := Some(state));
      m := m.(powered := powerState == "on");
      if state in KNOWN && !(powerState == "off" && state == "Deployed") {
        m := m.(addresses := maas[uid]);
      }
      if closeOk {
        machines := machines[uid := m];
      }
    }

    method MachineIsRegistered(addresses: seq<Address>) returns (registered: bool)
      ensures registered == Registered(addresses, record)
    {
      var ips := GetApiServerDnsRecords();
      for i := 0 to |addresses|
        invariant forall j :: 0 <= j < i ==> addresses[j].text !in ips
      {
        if addresses[i].text in ips {
          return true;
        }
      }
      return false;
    }

    /** The delete path up to the release: true when MAAS is asked to release the machine. */
    method ReconcileDelete(uid: string, c: DeleteCalls) returns (release: bool)
      requires uid in machines && machines[uid].deleting
      ensures release == Releases(Snapshot(), uid, c)
    {
      if !c.found || uid !in maas {
        return false;
      }
      if machines[uid].controlPlane {
        if !c.readOk {
          return false;
        }
        var registered := MachineIsRegistered(maas[uid]);
        if registered {
          return false;
        }
      }
      return true;
    }
  }

  predicate Releases(w: World, uid: string, c: DeleteCalls)
    requires uid in w.machines
  {
    c.found && uid in w.maas && (w.machines[uid].controlPlane ==> c.readOk && !Registered(w.maas[uid], w.record))
  }

  // ----- what one cluster step leaves -----

  lemma {:induction false} RunningIpsFinds(machines: map<string, Machine>, order: seq<string>)
    ensures forall ip :: ip in RunningIps(machines, order) <==>
      exists uid :: uid in order && uid in machines && Serves(machines[uid])
        && ip == ExternalIp(machines[uid].addresses)
  {
    if order != [] {
      var n := |order| - 1;
      RunningIpsFinds(machines, order[..n]);
      assert order == order[..n] + [order[n]];
    }
  }

  /** The addresses of the machines that serve. */
  ghost function ServingIps(w: World): set<string> {
    set uid | uid in w.machines && Serves(w.machines[uid]) :: ExternalIp(w.machines[uid].addresses)
  }

  /**
   * A step that goes through leaves exactly the addresses of the machines that serve; it settles, asking for no
   * further round, exactly when the record was already right about every control-plane machine.
   */
  lemma StepLeavesServing(w: World, c: ClusterCalls)
    requires Lists(w, c.order) && ClusterStep(w, c).1 != Failed
    ensures forall ip :: ip in ClusterStep(w, c).0.record <==> ip in ServingIps(w)
    ensures ClusterStep(w, c).1 == Done <==>
      forall uid :: uid in w.machines && w.machines[uid].labelled ==>
        (Serves(w.machines[uid]) <==> ExternalIp(w.machines[uid].addresses) in ReadRecord(w.record))
  {
    RunningIpsFinds(w.machines, c.order);
    var record := ClusterStep(w, c).0.record;
    forall ip | ip in record ensures ip in ServingIps(w) {
      var uid :| uid in c.order && uid in w.machines && Serves(w.machines[uid])
        && ip == ExternalIp(w.machines[uid].addresses);
    }
    forall ip | ip in ServingIps(w) ensures ip in record {
      var uid :| uid in w.machines && Serves(w.machines[uid]) && ip == ExternalIp(w.machines[uid].addresses);
      assert uid in c.order;
    }
    if ClusterStep(w, c).1 == Done {
      forall uid | uid in w.machines && w.machines[uid].labelled
        ensures Serves(w.machines[uid]) <==> ExternalIp(w.machines[uid].addresses) in ReadRecord(w.record)
      {
        assert uid in c.order && !Pending(w, uid);
      }
    }
  }

  // ----- the record, in terms of the machines' status -----

  /** The first external address of the list has this text. */
  ghost predicate FirstExternal(addresses: seq<Address>, text: string) {
    exists k ::
      && 0 <= k < |addresses| && addresses[k] == Address(ExternalIP, text)
      && forall j :: 0 <= j < k ==> !addresses[j].kind.ExternalIP?
  }

  ghost predicate NoExternal(addresses: seq<Address>) {
    forall j :: 0 <= j < |addresses| ==> !addresses[j].kind.ExternalIP?
  }

  lemma {:induction false} ExternalIpExactly(addresses: seq<Address>, text: string)
    ensures ExternalIp(addresses) == text <==> FirstExternal(addresses, text) || (NoExternal(addresses) && text == "")
  {
    if addresses != [] && !addresses[0].kind.ExternalIP? {
      var rest := addresses[1..];
      ExternalIpExactly(rest, text);
      if FirstExternal(rest, text) {
        var k :| 0 <= k < |rest| && rest[k] == Address(ExternalIP, text)
          && forall j :: 0 <= j < k ==> !rest[j].kind.ExternalIP?;
        assert addresses[k + 1] == rest[k] && forall j :: 0 < j < k + 1 ==> addresses[j] == rest[j - 1];
      }
      if FirstExternal(addresses, text) {
        var k :| 0 <= k < |addresses| && addresses[k] == Address(ExternalIP, text)
          && forall j :: 0 <= j < k ==> !addresses[j].kind.ExternalIP?;
        assert rest[k - 1] == addresses[k] && forall j :: 0 <= j < k - 1 ==> rest[j] == addresses[j + 1];
      }
      assert NoExternal(addresses) <==> NoExternal(rest) by {
        assert forall j :: 0 <= j < |rest| ==> rest[j] == addresses[j + 1];
      }
    } else if addresses != [] {
      assert addresses[0] == Address(ExternalIP, addresses[0].text);
    }
  }

  /** A control-plane machine that stays, is powered on and deployed or being deployed. */
  predicate InService(m: Machine) {
    m.labelled && !m.deleting && m.powered && (m.state == Some("Deploying") || m.state == Some("Deployed"))
  }

  lemma ServesExactly(m: Machine)
    ensures Serves(m) <==> InService(m)
  {
  }

  /**
   * After a cluster step that goes through, a text is in the record exactly when it is the first external
   * address of a machine in service, or empty while some machine in service has no external address.
   */
  lemma RecordExactly(w: World, c: ClusterCalls, text: string)
    requires Lists(w, c.order) && c.listOk && c.readOk && c.getOk && c.modifyOk
    ensures text in ClusterStep(w, c).0.record <==>
      exists uid :: uid in w.machines && InService(w.machines[uid])
        && (FirstExternal(w.machines[uid].addresses, text) || (NoExternal(w.machines[uid].addresses) && text == ""))
  {
    hide Serves, ExternalIp, InService, FirstExternal, NoExternal;
    StepLeavesServing(w, c);
    forall uid | uid in w.machines
      ensures Serves(w.machines[uid]) <==> InService(w.machines[uid])
      ensures ExternalIp(w.machines[uid].addresses) == text <==>
        FirstExternal(w.machines[uid].addresses, text) || (NoExternal(w.machines[uid].addresses) && text == "")
    {
      ServesExactly(w.machines[uid]);
      ExternalIpExactly(w.machines[uid].addresses, text);
    }
    if text in ServingIps(w) {
      var uid :| uid in w.machines && Serves(w.machines[uid]) && ExternalIp(w.machines[uid].addresses) == text;
      assert InService(w.machines[uid]);
    }
  }

  /** A step that does not go through leaves the record as it was. */
  lemma RecordKept(w: World, c: ClusterCalls)
    ensures ClusterStep(w, c).1 == Failed <==> !c.listOk || !c.readOk || !c.getOk || !c.modifyOk
    ensures ClusterStep(w, c).1 == Failed ==> ClusterStep(w, c).0 == w
  {
  }

  /** The delete path releases a machine it finds, a control-plane one only after a look at the record. */
  lemma ReleasesExactly(w: World, uid: string, c: DeleteCalls)
    requires uid in w.machines
    ensures Releases(w, uid, c) <==>
      && c.found && uid in w.maas
      && (!w.machines[uid].controlPlane
          || (c.readOk && forall a :: a in w.maas[uid] ==> a.text == "" || a.text !in w.record))
  {
  }

  /** A second step settles exactly when every serving machine has an address and no other one shares it. */
  lemma WhenItSettles(w: World, c: ClusterCalls, d: ClusterCalls)
    requires Lists(w, c.order) && Lists(w, d.order) && ClusterStep(w, c).1 != Failed
      && ClusterStep(ClusterStep(w, c).0, d).1 != Failed
    ensures ClusterStep(ClusterStep(w, c).0, d).1 == Done <==>
      && "" !in ServingIps(w)
      && forall uid :: uid in w.machines && w.machines[uid].labelled && !Serves(w.machines[uid]) ==>
           ExternalIp(w.machines[uid].addresses) !in ServingIps(w)
  {
    hide Serves, ExternalIp;
    var w1 := ClusterStep(w, c).0;
    StepLeavesServing(w, c);
    StepLeavesServing(w1, d);
    assert forall ip :: ip in ReadRecord(w1.record) <==> ip in ServingIps(w) && ip != "";
    if ClusterStep(w1, d).1 == Done {
      forall uid | uid in w.machines && Serves(w.machines[uid]) ensures ExternalIp(w.machines[uid].addresses) != "" {
        ServingIsLabelled(w.machines[uid]);
      }
    } else {
      var uid :| uid in w.machines && w.machines[uid].labelled
        && !(Serves(w.machines[uid]) <==> ExternalIp(w.machines[uid].addresses) in ReadRecord(w1.record));
    }
  }

  // ----- runs -----

  datatype Action =
    | ClusterReconcile(cluster: ClusterCalls)
    | MachineReport(uid: string, state: string, powerState: string, closeOk: bool)
    | MachineDelete(uid: string, delete: DeleteCalls)
    | Created(uid: string, machine: Machine)
    | Marked(uid: string)
    | Gone(uid: string)
    | AddressesChange(uid: string, addresses: seq<Address>)

  /** Who was ever given an address, and every MaasMachine there ever was; no controller reads either. */
  datatype History = History(owner: map<string, string>, uids: set<string>)

  datatype Sys = Sys(w: World, h: History)

  /** reconcileNormal's last part: status from MAAS; addresses in a known state, unless it powers the machine on. */
  function Reported(m: Machine, addresses: seq<Address>, state: string, powerState: string): Machine {
    var m1 := m.(state := Some(state), powered := powerState == "on");
    if state in KNOWN && !(powerState == "off" && state == "Deployed") then m1.(addresses := addresses) else m1
  }

  function Claimed(owner: map<string, string>, uid: string, addresses: seq<Address>): map<string, string> {
    owner + map a | a in addresses :: a.text := uid
  }

  /** Addresses of different machines are different, deleted machines included. */
  predicate Claimable(owner: map<string, string>, uid: string, addresses: seq<Address>) {
    forall a :: a in addresses ==> a.text != "" && (a.text in owner ==> owner[a.text] == uid)
  }

  ghost predicate Enabled(s: Sys, a: Action) {
    match a
    case ClusterReconcile(c) => Lists(s.w, c.order)
    case MachineReport(uid, _, _, _) => uid in s.w.machines && uid in s.w.maas && !s.w.machines[uid].deleting
    case MachineDelete(uid, _) => uid in s.w.machines && s.w.machines[uid].deleting
    case Created(uid, m) => uid !in s.h.uids && !m.deleting && m.state == None && m.addresses == []
    case Marked(uid) => uid in s.w.machines
    case Gone(uid) => uid in s.w.machines && s.w.machines[uid].deleting
    case AddressesChange(uid, addresses) => uid in s.h.uids && Claimable(s.h.owner, uid, addresses)
  }

  function Step(w: World, a: Action): World
    requires a.MachineReport? ==> a.uid in w.machines && a.uid in w.maas
    requires a.MachineDelete? || a.Marked? ==> a.uid in w.machines
  {
    match a
    case ClusterReconcile(c) => ClusterStep(w, c).0
    case MachineReport(uid, state, powerState, closeOk) =>
      if closeOk then w.(machines := w.machines[uid := Reported(w.machines[uid], w.maas[uid], state, powerState)])
        else w
    case MachineDelete(uid, _) => w
    case Created(uid, m) => w.(machines := w.machines[uid := m])
    case Marked(uid) => w.(machines := w.machines[uid := w.machines[uid].(deleting := true)])
    case Gone(uid) => w.(machines := w.machines - {uid})
    case AddressesChange(uid, addresses) => w.(maas := w.maas[uid := addresses])
  }

  function Remember(h: History, a: Action): History {
    match a
    case Created(uid, _) => h.(uids := h.uids + {uid})
    case AddressesChange(uid, addresses) => h.(owner := Claimed(h.owner, uid, addresses))
    case _ => h
  }

  ghost predicate Leads(s: Sys, a: Action, t: Sys) {
    Enabled(s, a) && t == Sys(Step(s.w, a), Remember(s.h, a))
  }

  ghost predicate Initial(s: Sys) { s == Sys(World(map[], map[], []), History(map[], {})) }

  datatype Run = Run(states: seq<Sys>, actions: seq<Action>)

  ghost predicate IsRun(r: Run) {
    && |r.states| == |r.actions| + 1 && Initial(r.states[0])
    && forall i :: 0 <= i < |r.actions| ==> Leads(r.states[i], r.actions[i], r.states[i + 1])
  }

  /** MAAS is asked to release this machine at step i. */
  predicate ReleasesAt(r: Run, i: nat)
    requires i < |r.actions| < |r.states|
  {
    var a, w := r.actions[i], r.states[i].w;
    a.MachineDelete? && a.uid in w.machines && Releases(w, a.uid, a.delete)
  }

  /** What a report makes of the status, state by state. */
  lemma ReportedExactly(m: Machine, addresses: seq<Address>, state: string, powerState: string)
    ensures var m' := Reported(m, addresses, state, powerState);
      && m'.state == Some(state) && (m'.powered <==> powerState == "on")
      && m'.labelled == m.labelled && m'.controlPlane == m.controlPlane && m'.deleting == m.deleting
      && (state in {"Deploying", "Allocated", "Disk erasing", "Releasing", "Ready", "New"} ==>
        m'.addresses == addresses)
      && (state == "Deployed" ==> m'.addresses == if powerState == "off" then m.addresses else addresses)
      && (state !in {"Deploying", "Deployed", "Allocated", "Disk erasing", "Releasing", "Ready", "New"} ==>
            m'.addresses == m.addresses)
  {
  }

  // ----- addresses stay with their machine -----

  ghost predicate OwnAddresses(addresses: seq<Address>, uid: string, owner: map<string, string>) {
    forall a :: a in addresses ==> a.text != "" && a.text in owner && owner[a.text] == uid
  }

  ghost predicate Inv(s: Sys) {
    && s.w.machines.Keys <= s.h.uids
    && (forall uid :: uid in s.w.machines ==> OwnAddresses(s.w.machines[uid].addresses, uid, s.h.owner))
    && (forall uid :: uid in s.w.maas ==> OwnAddresses(s.w.maas[uid], uid, s.h.owner))
  }

  ghost predicate OwnersKept(a: map<string, string>, b: map<string, string>)
  {
    forall x :: x in a ==> x in b && b[x] == a[x]
  }

  lemma StepKeepsInv(s: Sys, a: Action, t: Sys)
    requires Leads(s, a, t) && Inv(s)
    ensures Inv(t) && OwnersKept(s.h.owner, t.h.owner) && s.h.uids <= t.h.uids
  {
    hide KNOWN, ClusterStep, Claimed;
    match a
    case ClusterReconcile(c) => RecordOnly(s.w, c);
    case AddressesChange(uid, addresses) => ClaimKeepsOwners(s.h.owner, uid, addresses);
    case _ =>
  }

  lemma ClaimKeepsOwners(owner: map<string, string>, uid: string, addresses: seq<Address>)
    requires Claimable(owner, uid, addresses)
    ensures OwnersKept(owner, Claimed(owner, uid, addresses))
      && OwnAddresses(addresses, uid, Claimed(owner, uid, addresses))
  {
  }

  lemma RecordOnly(w: World, c: ClusterCalls)
    ensures ClusterStep(w, c).0 == w.(record := ClusterStep(w, c).0.record)
  {
  }

  lemma FailedStepChangesNothing(w: World, c: ClusterCalls)
    ensures ClusterStep(w, c).1 == Failed ==> ClusterStep(w, c).0 == w
  {
  }

  lemma {:induction false} Always(r: Run, i: nat)
    requires IsRun(r) && i < |r.states|
    ensures Inv(r.states[i])
  {
    hide Leads;
    if i > 0 {
      Always(r, i - 1);
      StepKeepsInv(r.states[i - 1], r.actions[i - 1], r.states[i]);
    }
  }

  // ----- detached stays detached -----

  /** The machine is on its way out, or gone: no cluster step will take its addresses for serving ones. */
  predicate Leaving(s: Sys, uid: string) { uid in s.h.uids && (uid in s.w.machines ==> s.w.machines[uid].deleting) }

  ghost predicate Detached(s: Sys, uid: string, ips: set<string>) {
    forall ip :: ip in ips ==> ip != "" && ip in s.h.owner && s.h.owner[ip] == uid && ip !in s.w.record
  }

  lemma {:induction false} ExternalIpIsListed(addresses: seq<Address>)
    ensures ExternalIp(addresses) == "" || exists a :: a in addresses && a.text == ExternalIp(addresses)
  {
    if addresses != [] && addresses[0].kind != ExternalIP {
      ExternalIpIsListed(addresses[1..]);
    } else if addresses != [] {
      assert addresses[0] in addresses;
    }
  }

  /** What serves is not on its way out, so its address belongs to somebody else. */
  lemma ServingIpsOfOthers(s: Sys, uid: string)
    requires Inv(s) && Leaving(s, uid)
    ensures forall ip :: ip in ServingIps(s.w) && ip != "" ==> ip in s.h.owner && s.h.owner[ip] != uid
  {
    hide IsRunning;
    forall ip | ip in ServingIps(s.w) && ip != "" ensures ip in s.h.owner && s.h.owner[ip] != uid {
      var u :| u in s.w.machines && Serves(s.w.machines[u]) && ip == ExternalIp(s.w.machines[u].addresses);
      ExternalIpIsListed(s.w.machines[u].addresses);
      assert OwnAddresses(s.w.machines[u].addresses, u, s.h.owner);
    }
  }

  lemma StepKeepsDetached(s: Sys, a: Action, t: Sys, uid: string, ips: set<string>)
    requires Leads(s, a, t) && Inv(s) && Leaving(s, uid) && Detached(s, uid, ips)
    ensures Leaving(t, uid) && Detached(t, uid, ips)
  {
    hide KNOWN, ClusterStep, Serves, ServingIps;
    StepKeepsInv(s, a, t);
    match a
    case ClusterReconcile(c) =>
      RecordOnly(s.w, c);
      ServingIpsOfOthers(s, uid);
      if ClusterStep(s.w, c).1 != Failed {
        StepLeavesServing(s.w, c);
      } else {
        FailedStepChangesNothing(s.w, c);
      }
    case _ =>
  }

  /** Once a machine is being deleted and some of its addresses are out of the record, no later step puts them back. */
  lemma {:induction false} StaysDetached(r: Run, i: nat, j: nat, uid: string, ips: set<string>)
    requires IsRun(r) && i <= j < |r.states| && Leaving(r.states[i], uid) && Detached(r.states[i], uid, ips)
    ensures Leaving(r.states[j], uid) && Detached(r.states[j], uid, ips)
  {
    hide Leads, Leaving, Detached, Inv;
    if i < j {
      StaysDetached(r, i, j - 1, uid, ips);
      Always(r, j - 1);
      StepKeepsDetached(r.states[j - 1], r.actions[j - 1], r.states[j], uid, ips);
    }
  }

  ghost function Texts(addresses: seq<Address>): set<string> { set a | a in addresses :: a.text }

  /**
   * A control-plane machine is released only when the record holds none of the addresses MAAS has for it, and
   * the record never holds any of them again.
   */
  lemma DetachBeforeRelease(r: Run, i: nat, j: nat)
    requires IsRun(r) && i < |r.actions| && i <= j < |r.states| && ReleasesAt(r, i)
    requires r.states[i].w.machines[r.actions[i].uid].controlPlane
    ensures Texts(r.states[i].w.maas[r.actions[i].uid]) !! ReadRecord(r.states[j].w.record)
  {
    var s, uid := r.states[i], r.actions[i].uid;
    var ips := Texts(s.w.maas[uid]);
    assert Leads(s, r.actions[i], r.states[i + 1]);
    Always(r, i);
    assert OwnAddresses(s.w.maas[uid], uid, s.h.owner);
    forall ip | ip in ips ensures ip != "" && ip in s.h.owner && s.h.owner[ip] == uid && ip !in s.w.record {
      var a :| a in s.w.maas[uid] && a.text == ip;
      assert a.text !in ReadRecord(s.w.record);
    }
    StaysDetached(r, i, j, uid, ips);
  }

  /** The other half of the handshake: one cluster step that goes through detaches every machine on its way out. */
  lemma ClusterStepDetaches(r: Run, i: nat, uid: string, ips: set<string>)
    requires IsRun(r) && i < |r.actions| && r.actions[i].ClusterReconcile?
      && ClusterStep(r.states[i].w, r.actions[i].cluster).1 != Failed
    requires Leaving(r.states[i], uid)
    requires forall ip :: ip in ips ==> ip != "" && ip in r.states[i].h.owner && r.states[i].h.owner[ip] == uid
    ensures Detached(r.states[i + 1], uid, ips)
  {
    hide IsRunning;
    var s, c := r.states[i], r.actions[i].cluster;
    assert Leads(s, r.actions[i], r.states[i + 1]);
    Always(r, i);
    StepLeavesServing(s.w, c);
    ServingIpsOfOthers(s, uid);
  }
}
