/**
 * Who holds which bare-metal machine: allocate, record, deploy, release
 * (pkg/maas/machine/machine.go: DeployMachine; controllers/maasmachine_controller.go: reconcileNormal).
 */
module Allocation {
  import opened Base
  import ProviderIds
  import Tags

  /** The two IDs in a MaasMachine's spec. */
  datatype Ids = Ids(providerID: Option<string>, systemID: Option<string>)

  const NO_IDS := Ids(None, None)

  /** One MAAS allocation: the MaasMachine it was made for, and whether a release call was made for it. */
  datatype Lease = Lease(holder: string, releaseRequested: bool)

  type Leases = map<string, Lease>

  datatype Grant = Grant(id: string, zone: string)

  /** What findMachine and the state of the machine it finds amount to. */
  datatype Lookup = LookupFailed | NotFound | Idle | Running

  /**
   * Outcomes of the remote calls of one reconcile. grant is Allocate's answer; broken is a machine named in
   * its error text. patchOk is the patch right after allocation, clearPatchOk the one that clears the IDs,
   * closeOk the closing patch of the reconcile.
   */
  datatype Calls = Calls(
    proceed: bool,
    lookup: Lookup,
    lxdHost: bool,
    grant: Option<Grant>,
    broken: Option<string>,
    getOk: bool,
    powerType: string,
    patchOk: bool,
    swapOk: bool,
    deployOk: bool,
    clearPatchOk: bool,
    zone: string,
    closeOk: bool)

  /** mem is the object in memory, stored what the API server has. */
  datatype Progress = Progress(mem: Ids, stored: Ids, leases: Leases, result: Option<string>)

  function Release(leases: Leases, id: string): Leases {
    if id in leases then leases[id := leases[id].(releaseRequested := true)] else leases
  }

  /** A host cluster must not run on machines that are VMs themselves. */
  predicate Rejected(c: Calls) {
    c.lxdHost && Tags.Lower(c.powerType) in {"lxd", "lxdvm", "virsh"}
  }

  function Cleared(p: Progress, c: Calls): Progress {
    Progress(NO_IDS, if c.clearPatchOk then NO_IDS else p.stored, p.leases, None)
  }

  /** The part after a machine is in hand, with the deferred release on failure. */
  function Deploy(p: Progress, id: string, c: Calls): Progress {
    if c.swapOk && c.deployOk then p.(result := Some(id))
    else Cleared(p.(leases := Release(p.leases, id)), c)
  }

  function DeployResult(ids: Ids, leases: Leases, holder: string, c: Calls): Progress {
    var start := Progress(ids, ids, leases, None);
    if Text(ids.providerID) == "" then
      match c.grant
      case None => if c.broken.Some? then start.(leases := Release(leases, c.broken.value)) else start
      case Some(g) =>
        var held := leases[g.id := Lease(holder, false)];
        if Rejected(c) then start.(leases := Release(held, g.id))
        else
          var mem := ids.(providerID := Some(ProviderIds.Print(g.zone, g.id)));
          if !c.patchOk then Progress(mem, ids, held, None)
          else Deploy(Progress(mem, mem, held, None), g.id, c)
    else
      var id := ProviderIds.InstanceId(ids.providerID);
      if id == "" || !c.getOk then start
      else if Rejected(c) then Cleared(start.(leases := Release(leases, id)), c)
      else Deploy(start, id, c)
  }

  /** reconcileNormal from the lookup on: deploy unless a running machine was found, then record the IDs. */
  function ReconcileResult(ids: Ids, leases: Leases, holder: string, c: Calls): (Ids, Leases) {
    var id := ProviderIds.InstanceId(ids.providerID);
    var lookup := if id == "" then NotFound else c.lookup;
    if !c.proceed || lookup == LookupFailed then (ids, leases)
    else
      var p := if lookup == Running then Progress(ids, ids, leases, Some(id)) else DeployResult(ids, leases, holder, c);
      var mem := if p.result.Some? then Ids(Some(ProviderIds.Print(c.zone, p.result.value)), p.result) else p.mem;
      (if c.closeOk then mem else p.stored, p.leases)
  }

  /** The machine the reconcile deploys, if it gets that far. */
  function Deployed(ids: Ids, leases: Leases, holder: string, c: Calls): Option<string> {
    var id := ProviderIds.InstanceId(ids.providerID);
    if !c.proceed || (id != "" && c.lookup in {LookupFailed, Running}) then None
    else DeployResult(ids, leases, holder, c).result
  }

  /** The controller's side of it, with MAAS's allocations beside the object. */
  class MachineScope {
    var mem: Ids
    var stored: Ids
    var leases: Leases
    const holder: string

    constructor (holder: string, ids: Ids, leases: Leases)
      ensures this.holder == holder && mem == stored == ids && this.leases == leases
    {
      this.holder, mem, stored, this.leases := holder, ids, ids, leases;
    }

    function Snapshot(result: Option<string>): Progress
      reads this
    {
      Progress(mem, stored, leases, result)
    }

    method PatchObject(patchOk: bool)
      modifies this`stored
      ensures stored == if patchOk then mem else old(stored)
    {
      if patchOk {
        stored := mem;
      }
    }

    method ReleaseMachine(id: string)
      modifies this`leases
      ensures leases == Release(old(leases), id)
    {
      if id in leases {
        leases := leases[id := leases[id].(releaseRequested := true)];
      }
    }

    method ClearIds(c: Calls)
      modifies this`mem, this`stored
      ensures Snapshot(None) == Cleared(old(Snapshot(None)), c)
    {
      mem := mem.(providerID := None);
      mem := mem.(systemID := None);
      PatchObject(c.clearPatchOk);
    }

    method FinishDeploy(id: string, c: Calls) returns (r: Option<string>)
      modifies this`mem, this`stored, this`leases
      ensures Snapshot(r) == Deploy(old(Snapshot(None)), id, c)
    {
      r := Some(id);
      if !c.swapOk {
        r := None;
      } else if !c.deployOk {
        r := None;
      }
      // deferred cleanup
      if r.None? {
        ReleaseMachine(id);
        ClearIds(c);
      }
    }

    method DeployMachine(c: Calls) returns (r: Option<string>)
      requires mem == stored
      modifies this`mem, this`stored, this`leases
      ensures Snapshot(r) == DeployResult(old(mem), old(leases), holder, c)
    {
      var id;
      if Text(mem.providerID) == "" {
        if c.grant.None? {
          if c.broken.Some? {
            ReleaseMachine(c.broken.value);
          }
          return None;
        }
        id := c.grant.value.id;
        leases := leases[id := Lease(holder, false)];
        if Rejected(c) {
          ReleaseMachine(id);
          return None;
        }
        mem := mem.(providerID := Some(ProviderIds.Print(c.grant.value.zone, id)));
        PatchObject(c.patchOk);
        if !c.patchOk {
          return None;
        }
      } else {
        id := ProviderIds.InstanceId(mem.providerID);
        if id == "" || !c.getOk {
          return None;
        }
        if Rejected(c) {
          ReleaseMachine(id);
          ClearIds(c);
          return None;
        }
      }
      r := FinishDeploy(id, c);
    }

    method Reconcile(c: Calls) returns (deployed: Option<string>)
      requires mem == stored
      modifies this`mem, this`stored, this`leases
      ensures (stored, leases) == ReconcileResult(old(stored), old(leases), holder, c)
      ensures deployed == Deployed(old(stored), old(leases), holder, c)
    {
      hide ProviderIds.InstanceId, ProviderIds.Print;
      deployed := None;
      if !c.proceed {
        return;
      }
      var id := ProviderIds.InstanceId(mem.providerID);
      var lookup := if id == "" then NotFound else c.lookup;
      if lookup == LookupFailed {
        return;
      }
      var r := Some(id);
      if lookup != Running {
        r := DeployMachine(c);
        deployed := r;
      }
      if r.Some? {
        mem := mem.(providerID := Some(ProviderIds.Print(c.zone, r.value)));
        mem := mem.(systemID := Some(r.value));
      }
      PatchObject(c.closeOk);
    }
  }

  // ----- conservation -----

  /** The machine a DeployMachine call works on. */
  function Obtained(ids: Ids, c: Calls): Option<string> {
    if Text(ids.providerID) == "" then (match c.grant case Some(g) => Some(g.id) case None => None)
    else if ProviderIds.InstanceId(ids.providerID) != "" && c.getOk then Some(ProviderIds.InstanceId(ids.providerID))
    else None
  }

  /** MAAS hands out machines nobody holds; IDs and zone names can stand in a providerID. */
  ghost predicate Consistent(leases: Leases, c: Calls) {
    && '\n' !in c.zone
    && (c.grant.Some? ==>
          && c.grant.value.id != "" && '/' !in c.grant.value.id && '\n' !in c.grant.value.id
            && '\n' !in c.grant.value.zone
          && (c.grant.value.id in leases ==> leases[c.grant.value.id].releaseRequested))
  }

  lemma PrintedId(zone: string, id: string)
    requires id != "" && '/' !in id && '\n' !in id && '\n' !in zone
    ensures ProviderIds.InstanceId(Some(ProviderIds.Print(zone, id))) == id
    ensures ProviderIds.Print(zone, id) != ""
  {
    ProviderIds.RoundTrip(zone, id);
    assert forall c :: c in id[..|id| - 1] ==> c in id;
  }

  /** After every call the machine in hand is the one the providerID names, or a release was requested for it. */
  lemma ObtainedIsNamedOrReleased(ids: Ids, leases: Leases, holder: string, c: Calls)
    requires Consistent(leases, c) && Obtained(ids, c).Some?
    requires Text(ids.providerID) != "" ==> Obtained(ids, c).value in leases
    ensures var id, p := Obtained(ids, c).value, DeployResult(ids, leases, holder, c);
      id in p.leases && (p.leases[id].releaseRequested || ProviderIds.InstanceId(p.mem.providerID) == id)
  {
    if c.grant.Some? {
      PrintedId(c.grant.value.zone, c.grant.value.id);
    }
  }

  type Fleet = map<string, Ids>

  /** Every machine held without a release request is the one its holder's stored providerID names. */
  ghost predicate AllNamed(fleet: Fleet, leases: Leases) {
    && (forall id :: id in leases ==> id != "" && '/' !in id && '\n' !in id)
    && forall h, id :: h in fleet && id in leases && leases[id] == Lease(h, false) ==>
         ProviderIds.InstanceId(fleet[h].providerID) == id
  }

  ghost function HeldBy(leases: Leases, holder: string): set<string> {
    set id | id in leases && leases[id] == Lease(holder, false)
  }

  /** The one way to lose track of a machine: both the patch after allocation and the closing patch fail. */
  predicate Leaks(ids: Ids, c: Calls) {
    c.proceed && Text(ids.providerID) == "" && c.grant.Some? && !Rejected(c) && !c.patchOk && !c.closeOk
  }

  /** What one reconcile does to the leases of everybody else: nothing, or it asks for a release. */
  lemma OtherLeases(ids: Ids, leases: Leases, holder: string, c: Calls, id: string)
    requires Consistent(leases, c)
    ensures var after := ReconcileResult(ids, leases, holder, c).1;
      id in after && !after[id].releaseRequested ==>
        (id in leases && leases[id] == after[id])
          || (after[id].holder == holder && c.grant.Some? && id == c.grant.value.id)
  {
    hide ProviderIds.Print, ProviderIds.InstanceId;
  }

  lemma OwnLease(ids: Ids, leases: Leases, holder: string, c: Calls, id: string)
    requires Consistent(leases, c) && !Leaks(ids, c)
    requires forall x :: x in leases ==> x != "" && '/' !in x && '\n' !in x
    requires forall x :: x in leases && leases[x] == Lease(holder, false) ==>
      ProviderIds.InstanceId(ids.providerID) == x
    ensures var (after, leases') := ReconcileResult(ids, leases, holder, c);
      id in leases' && leases'[id] == Lease(holder, false) ==> ProviderIds.InstanceId(after.providerID) == id
  {
    hide ProviderIds.InstanceId, ProviderIds.Print;
    if c.grant.Some? {
      PrintedId(c.grant.value.zone, c.grant.value.id);
      PrintedId(c.zone, c.grant.value.id);
    }
    var now := ProviderIds.InstanceId(ids.providerID);
    if now in leases {
      PrintedId(c.zone, now);
    }
    ProviderIds.NoProviderIdNoInstance(ids.providerID);
    ProviderIds.NoProviderIdNoInstance(None);
  }

  /** A reconcile keeps every held machine named exactly when it does not leak. */
  lemma ConservationExactly(fleet: Fleet, leases: Leases, holder: string, c: Calls)
    requires holder in fleet && AllNamed(fleet, leases) && Consistent(leases, c)
    ensures var (ids, leases') := ReconcileResult(fleet[holder], leases, holder, c);
      AllNamed(fleet[holder := ids], leases') <==> !Leaks(fleet[holder], c)
  {
    hide ProviderIds.Print, ProviderIds.InstanceId;
    var (ids, leases') := ReconcileResult(fleet[holder], leases, holder, c);
    forall id ensures id in leases' && !leases'[id].releaseRequested ==>
      (id in leases && leases[id] == leases'[id])
        || (leases'[id].holder == holder && c.grant.Some? && id == c.grant.value.id)
    {
      OtherLeases(fleet[holder], leases, holder, c, id);
    }
    if Leaks(fleet[holder], c) {
      var id := c.grant.value.id;
      ProviderIds.NoProviderIdNoInstance(fleet[holder].providerID);
      assert leases'[id] == Lease(holder, false);
    } else {
      forall h, id | h in fleet && id in leases' && leases'[id] == Lease(h, false)
        ensures ProviderIds.InstanceId(fleet[holder := ids][h].providerID) == id
      {
        if h == holder {
          OwnLease(fleet[holder], leases, holder, c, id);
        }
      }
    }
  }

  // ----- outcomes, case by case -----

  lemma RejectedExactly(c: Calls)
    ensures Rejected(c) <==>
      var kind := Tags.Lower(c.powerType); c.lxdHost && (kind == "lxd" || kind == "lxdvm" || kind == "virsh")
  {
  }

  /** What a MaasMachine that works on a machine has on record once everything went through. */
  predicate RecordIs(ids: Ids, zone: string, id: string) {
    ids.systemID == Some(id) && ids.providerID == Some("maas:///" + zone + "/" + id)
  }

  /** Nothing happens before the lookup went through; a running machine is recorded and not touched. */
  lemma LookedUp(ids: Ids, leases: Leases, holder: string, c: Calls)
    ensures var (after, leases') := ReconcileResult(ids, leases, holder, c);
      var id := ProviderIds.InstanceId(ids.providerID);
      && (!c.proceed || (id != "" && c.lookup == LookupFailed) ==> after == ids && leases' == leases)
      && (c.proceed && id != "" && c.lookup == Running ==>
            leases' == leases && if c.closeOk then RecordIs(after, c.zone, id) else after == ids)
  {
    hide ProviderIds.InstanceId;
  }

  /** A machine is deployed exactly when one is granted or on record, may be used, and all calls go through. */
  lemma DeployedExactly(ids: Ids, leases: Leases, holder: string, c: Calls, id: string)
    ensures Deployed(ids, leases, holder, c) == Some(id) <==>
      && c.proceed && !Rejected(c) && c.swapOk && c.deployOk
      && (if Text(ids.providerID) == "" then c.grant.Some? && c.grant.value.id == id && c.patchOk
          else
            (ProviderIds.InstanceId(ids.providerID) == id != "" && (c.lookup == NotFound || c.lookup == Idle)
             && c.getOk))
  {
    hide ProviderIds.InstanceId, ProviderIds.Print, Rejected;
    ProviderIds.NoProviderIdNoInstance(ids.providerID);
  }

  /** Without a record: no grant, a grant of a VM host, and a grant that is kept. */
  lemma Granted(ids: Ids, leases: Leases, holder: string, c: Calls)
    requires c.proceed && Text(ids.providerID) == ""
    ensures var (after, leases') := ReconcileResult(ids, leases, holder, c);
      match c.grant
      case None =>
        && after == ids && leases'.Keys == leases.Keys
        && forall id :: id in leases ==>
             leases'[id] == if c.broken == Some(id) then Lease(leases[id].holder, true) else leases[id]
      case Some(g) =>
        && (Rejected(c) ==> after == ids && leases' == leases[g.id := Lease(holder, true)])
        && (!Rejected(c) && !c.patchOk ==>
              leases' == leases[g.id := Lease(holder, false)]
              && after == if c.closeOk then ids.(providerID := Some("maas:///" + g.zone + "/" + g.id)) else ids)
        && (!Rejected(c) && c.patchOk && c.swapOk && c.deployOk ==>
              && leases' == leases[g.id := Lease(holder, false)]
              && if c.closeOk then RecordIs(after, c.zone, g.id)
                 else after == ids.(providerID := Some("maas:///" + g.zone + "/" + g.id)))
        && (!Rejected(c) && c.patchOk && !(c.swapOk && c.deployOk) ==>
              && leases' == leases[g.id := Lease(holder, true)]
              && after == if c.clearPatchOk || c.closeOk then Ids(None, None)
                          else ids.(providerID := Some("maas:///" + g.zone + "/" + g.id)))
  {
    hide ProviderIds.InstanceId, Rejected;
    ProviderIds.NoProviderIdNoInstance(ids.providerID);
  }

  /** With a record of a machine that is not running: it is unreachable, unfit, deployed, or given back. */
  lemma Reused(ids: Ids, leases: Leases, holder: string, c: Calls)
    requires c.proceed && ProviderIds.InstanceId(ids.providerID) != "" && c.lookup !in {LookupFailed, Running}
    ensures var (after, leases') := ReconcileResult(ids, leases, holder, c);
      var id := ProviderIds.InstanceId(ids.providerID);
      && (!c.getOk ==> after == ids && leases' == leases)
      && (c.getOk && !Rejected(c) && c.swapOk && c.deployOk ==>
            leases' == leases && if c.closeOk then RecordIs(after, c.zone, id) else after == ids)
      && (c.getOk && (Rejected(c) || !(c.swapOk && c.deployOk)) ==>
            && leases'.Keys == leases.Keys
            && (id in leases ==> leases'[id] == Lease(leases[id].holder, true))
            && (forall x :: x in leases && x != id ==> leases'[x] == leases[x])
            && after == if c.clearPatchOk || c.closeOk then Ids(None, None) else ids)
  {
    hide ProviderIds.InstanceId, Rejected;
    ProviderIds.NoProviderIdNoInstance(ids.providerID);
  }

  // ----- runs -----

  datatype Step =
    | Created(holder: string)
    | Reconciled(holder: string, calls: Calls)
    | Deleted(holder: string)

  /** Deleted: the delete path releases the machine the providerID names and lets the object go. */
  function Next(fleet: Fleet, leases: Leases, s: Step): (Fleet, Leases)
    requires s.Created? || s.holder in fleet
  {
    match s
    case Created(h) => (fleet[h := NO_IDS], leases)
    case Reconciled(h, c) => var (ids, leases') := ReconcileResult(fleet[h], leases, h, c); (fleet[h := ids], leases')
    case Deleted(h) => (fleet - {h}, Release(leases, ProviderIds.InstanceId(fleet[h].providerID)))
  }

  ghost predicate Allowed(fleet: Fleet, leases: Leases, s: Step) {
    match s
    case Created(h) => h !in fleet && forall id :: id in leases ==> leases[id].holder != h
    case Reconciled(h, c) => h in fleet && Consistent(leases, c) && !Leaks(fleet[h], c)
    case Deleted(h) => h in fleet
  }

  datatype Run = Start | Then(before: Run, step: Step)

  ghost predicate ValidRun(r: Run)
    decreases r, 0
  {
    match r
    case Start => true
    case Then(before, s) => ValidRun(before) && Allowed(Outcome(before).0, Outcome(before).1, s)
  }

  ghost function Outcome(r: Run): (Fleet, Leases)
    requires ValidRun(r)
    decreases r, 1
  {
    match r
    case Start => (map[], map[])
    case Then(before, s) => Next(Outcome(before).0, Outcome(before).1, s)
  }

  lemma StepKeepsNamed(fleet: Fleet, leases: Leases, s: Step)
    requires AllNamed(fleet, leases) && Allowed(fleet, leases, s)
    ensures AllNamed(Next(fleet, leases, s).0, Next(fleet, leases, s).1)
  {
    hide ProviderIds.InstanceId, ProviderIds.Print;
    match s
    case Created(h) =>
    case Reconciled(h, c) => ConservationExactly(fleet, leases, h, c);
    case Deleted(h) =>
  }

  /** In every run without a leak each MaasMachine holds at most one machine, the one it names. */
  lemma {:induction false} AtMostOneMachineEach(r: Run, holder: string)
    requires ValidRun(r)
    ensures AllNamed(Outcome(r).0, Outcome(r).1)
    ensures holder in Outcome(r).0 ==>
      HeldBy(Outcome(r).1, holder) <= {ProviderIds.InstanceId(Outcome(r).0[holder].providerID)}
  {
    match r
    case Start =>
    case Then(before, s) =>
      AtMostOneMachineEach(before, holder);
      StepKeepsNamed(Outcome(before).0, Outcome(before).1, s);
  }

  /** An attempt whose two patches both fail after MAAS granted machine a. */
  const LEAKING :=
    Calls(true, NotFound, false, Some(Grant("a", "z")), None, true, "ipmi", false, true, true, true, "z", false)

  /** A later attempt in which everything goes well and MAAS grants machine b. */
  const RECOVERING :=
    Calls(true, NotFound, false, Some(Grant("b", "z")), None, true, "ipmi", true, true, true, true, "z", true)

  /** With a leak a MaasMachine can end up holding two machines: the IDs of the first were never stored. */
  lemma LeakHoldsTwo(holder: string)
    ensures Leaks(NO_IDS, LEAKING) && Consistent(map[], LEAKING)
    ensures var (ids, leases) := ReconcileResult(NO_IDS, map[], holder, LEAKING);
      Consistent(leases, RECOVERING) && HeldBy(ReconcileResult(ids, leases, holder, RECOVERING).1, holder) == {"a", "b"}
  {
    hide ProviderIds.Print;
    ProviderIds.NoProviderIdNoInstance(None);
    var (ids, leases) := ReconcileResult(NO_IDS, map[], holder, LEAKING);
    assert ids == NO_IDS && leases == map["a" := Lease(holder, false)];
    var after := ReconcileResult(ids, leases, holder, RECOVERING).1;
    assert after == map["a" := Lease(holder, false), "b" := Lease(holder, false)];
  }
}
