/**
 * No two MaasMachines on one machine: what a stored providerID names is held by that MaasMachine alone, and
 * deleting it releases nobody else's machine (pkg/maas/machine/machine.go: DeployMachine and its deferred cleanup).
 */
module Exclusivity {
  import opened Base
  import opened Allocation
  import ProviderIds

  function Named(ids: Ids): string { ProviderIds.InstanceId(ids.providerID) }

  ghost predicate NamesHeld(fleet: Fleet, leases: Leases) {
    forall h :: h in fleet && Named(fleet[h]) != "" ==>
      Named(fleet[h]) in leases && leases[Named(fleet[h])] == Lease(h, false)
  }

  /** Holding a machine and naming it in the store are the same thing, both ways. */
  ghost predicate Matched(fleet: Fleet, leases: Leases) { AllNamed(fleet, leases) && NamesHeld(fleet, leases) }

  /** The reconcile asks for the release of a machine the store names, because it is unfit or its deployment failed. */
  predicate GivesUp(ids: Ids, c: Calls) {
    && c.proceed && Obtained(ids, c).Some?
    && if Text(ids.providerID) == "" then !Rejected(c) && c.patchOk && !(c.swapOk && c.deployOk)
       else c.lookup !in {LookupFailed, Running} && (Rejected(c) || !(c.swapOk && c.deployOk))
  }

  /** The release was asked for, and neither the clearing patch nor the closing patch took the name out of the store. */
  predicate Strands(ids: Ids, c: Calls) { GivesUp(ids, c) && !c.clearPatchOk && !c.closeOk }

  /** MAAS's allocation error names a machine some MaasMachine holds, and the reconcile force-releases it. */
  predicate ForcesOff(fleet: Fleet, leases: Leases, ids: Ids, c: Calls) {
    && c.proceed && Text(ids.providerID) == "" && c.grant.None? && c.broken.Some?
    && c.broken.value in leases && !leases[c.broken.value].releaseRequested && leases[c.broken.value].holder in fleet
  }

  /** A machine held by somebody else stays held, unless it is the one that is forced off. */
  lemma OthersHold(fleet: Fleet, leases: Leases, holder: string, ids: Ids, c: Calls, h: string, id: string)
    requires Consistent(leases, c) && h in fleet && h != holder && Named(ids) != id
    requires id in leases && leases[id] == Lease(h, false)
    requires !ForcesOff(fleet, leases, ids, c)
    ensures var after := ReconcileResult(ids, leases, holder, c).1; id in after && after[id] == leases[id]
  {
    hide ProviderIds.InstanceId, ProviderIds.Print;
    ProviderIds.NoProviderIdNoInstance(ids.providerID);
  }

  /** What the holder's store names after a reconcile that strands nothing is held by the holder. */
  lemma OwnHold(leases: Leases, holder: string, ids: Ids, c: Calls)
    requires Consistent(leases, c) && !Strands(ids, c)
    requires forall x :: x in leases ==> x != "" && '/' !in x && '\n' !in x
    requires Named(ids) != "" ==> Named(ids) in leases && leases[Named(ids)] == Lease(holder, false)
    ensures var (ids', after) := ReconcileResult(ids, leases, holder, c);
      Named(ids') != "" ==> Named(ids') in after && after[Named(ids')] == Lease(holder, false)
  {
    hide ProviderIds.InstanceId, ProviderIds.Print;
    ProviderIds.NoProviderIdNoInstance(ids.providerID);
    ProviderIds.NoProviderIdNoInstance(None);
    if c.grant.Some? {
      PrintedId(c.grant.value.zone, c.grant.value.id);
      PrintedId(c.zone, c.grant.value.id);
    }
    if Named(ids) != "" {
      PrintedId(c.zone, Named(ids));
    }
  }

  lemma StrandedStaysNamed(leases: Leases, holder: string, ids: Ids, c: Calls)
    requires Consistent(leases, c) && Strands(ids, c)
    requires Named(ids) != "" ==> Named(ids) in leases
    ensures var (ids', after) := ReconcileResult(ids, leases, holder, c);
      Named(ids') != "" && Named(ids') in after && after[Named(ids')].releaseRequested
  {
    hide ProviderIds.InstanceId, ProviderIds.Print;
    ProviderIds.NoProviderIdNoInstance(ids.providerID);
    if c.grant.Some? {
      PrintedId(c.grant.value.zone, c.grant.value.id);
    }
  }

  /** A forced-off machine has a holder that still names it. */
  lemma ForcedOffStaysNamed(fleet: Fleet, leases: Leases, holder: string, c: Calls)
    requires holder in fleet && AllNamed(fleet, leases) && ForcesOff(fleet, leases, fleet[holder], c)
    ensures var (ids', after) := ReconcileResult(fleet[holder], leases, holder, c);
      !NamesHeld(fleet[holder := ids'], after)
  {
    hide ProviderIds.InstanceId, ProviderIds.Print;
    ProviderIds.NoProviderIdNoInstance(fleet[holder].providerID);
    var (ids', after) := ReconcileResult(fleet[holder], leases, holder, c);
    var id := c.broken.value;
    var h := leases[id].holder;
    assert leases[id] == Lease(h, false);
    assert Named(fleet[h]) == id && h != holder;
    assert fleet[holder := ids'][h] == fleet[h] && after[id].releaseRequested;
  }

  /**
   * A reconcile keeps holding and naming matched exactly when it loses no new machine, strands no released one
   * in the store, and forces no held one off.
   */
  lemma MatchKeptExactly(fleet: Fleet, leases: Leases, holder: string, c: Calls)
    requires holder in fleet && Matched(fleet, leases) && Consistent(leases, c)
    ensures var (ids, leases') := ReconcileResult(fleet[holder], leases, holder, c);
      Matched(fleet[holder := ids], leases') <==>
        !Leaks(fleet[holder], c) && !Strands(fleet[holder], c) && !ForcesOff(fleet, leases, fleet[holder], c)
  {
    hide ProviderIds.InstanceId, ProviderIds.Print, ReconcileResult, Leaks, Strands, ForcesOff, AllNamed;
    var (ids, leases') := ReconcileResult(fleet[holder], leases, holder, c);
    var after := fleet[holder := ids];
    ConservationExactly(fleet, leases, holder, c);
    if ForcesOff(fleet, leases, fleet[holder], c) {
      ForcedOffStaysNamed(fleet, leases, holder, c);
    } else if Strands(fleet[holder], c) {
      StrandedStaysNamed(leases, holder, fleet[holder], c);
      assert Named(after[holder]) != "" && leases'[Named(after[holder])] != Lease(holder, false);
    } else {
      WellNamed(fleet, leases);
      OwnHold(leases, holder, fleet[holder], c);
      forall h | h in after && Named(after[h]) != "" && h != holder
        ensures Named(after[h]) in leases' && leases'[Named(after[h])] == Lease(h, false)
      {
        assert after[h] == fleet[h] && leases[Named(fleet[h])] == Lease(h, false);
        OthersHold(fleet, leases, holder, fleet[holder], c, h, Named(fleet[h]));
      }
    }
  }

  lemma WellNamed(fleet: Fleet, leases: Leases)
    requires AllNamed(fleet, leases)
    ensures forall id :: id in leases ==> id != "" && '/' !in id && '\n' !in id
  {
  }

  // ----- over runs -----

  /** No reconcile of the run strands a machine or forces one off. */
  ghost predicate Careful(r: Run)
    requires ValidRun(r)
  {
    match r
    case Start => true
    case Then(before, s) =>
      && Careful(before)
      && (s.Reconciled? ==>
            var (fleet, leases) := Outcome(before);
            !Strands(fleet[s.holder], s.calls) && !ForcesOff(fleet, leases, fleet[s.holder], s.calls))
  }

  lemma DeletionKeepsMatched(fleet: Fleet, leases: Leases, h: string)
    requires h in fleet && Matched(fleet, leases)
    ensures Matched(fleet - {h}, Release(leases, Named(fleet[h])))
  {
    hide ProviderIds.InstanceId;
  }

  lemma CreationKeepsMatched(fleet: Fleet, leases: Leases, h: string)
    requires Matched(fleet, leases) && forall id :: id in leases ==> leases[id].holder != h
    ensures Matched(fleet[h := NO_IDS], leases)
  {
    hide ProviderIds.InstanceId;
    ProviderIds.NoProviderIdNoInstance(None);
  }

  lemma {:induction false} AlwaysMatched(r: Run)
    requires ValidRun(r) && Careful(r)
    ensures Matched(Outcome(r).0, Outcome(r).1)
  {
    hide ProviderIds.InstanceId, ProviderIds.Print, ReconcileResult, Matched, Leaks, Strands, ForcesOff;
    match r
    case Start => NothingIsMatched();
    case Then(before, s) =>
      AlwaysMatched(before);
      var (fleet, leases) := Outcome(before);
      match s {
        case Created(h) => CreationKeepsMatched(fleet, leases, h);
        case Reconciled(h, c) => MatchKeptExactly(fleet, leases, h, c);
        case Deleted(h) => DeletionKeepsMatched(fleet, leases, h);
      }
  }

  lemma NothingIsMatched()
    ensures Matched(map[], map[])
  {
  }

  /**
   * In such a run no two MaasMachines' stored IDs name the same machine, whoever they name holds it, and a
   * deletion asks for the release of no machine but the deleted one's own.
   */
  lemma NoTwoShareAMachine(r: Run, g: string, h: string)
    requires ValidRun(r) && Careful(r) && g in Outcome(r).0 && h in Outcome(r).0 && g != h
    ensures var (fleet, leases) := Outcome(r);
      && (Named(fleet[g]) != "" ==> Named(fleet[g]) != Named(fleet[h]))
      && forall id :: id in leases && Next(fleet, leases, Deleted(h)).1[id] != leases[id] ==>
        leases[id] == Lease(h, false)
  {
    hide ProviderIds.InstanceId, ProviderIds.Print, ReconcileResult;
    AlwaysMatched(r);
  }

  // ----- an instance of stranding -----

  const GRANTED :=
    Calls(true, NotFound, false, Some(Grant("a", "z")), None, true, "ipmi", true, true, true, true, "z", true)

  /** The deployment fails, the release is asked for, and both patches fail. */
  const STRANDING := Calls(true, Idle, false, None, None, true, "ipmi", true, true, false, false, "z", false)

  const RUNNING := Calls(true, Running, false, None, None, true, "ipmi", true, true, true, true, "z", true)

  function Shared(h: string, g: string): Run {
    Then(Then(Then(Then(Then(Start, Created(h)), Created(g)), Reconciled(h, GRANTED)), Reconciled(h, STRANDING)),
      Reconciled(g, GRANTED))
  }

  lemma GrantedNames(leases: Leases, holder: string)
    requires "a" !in leases || leases["a"].releaseRequested
    ensures Consistent(leases, GRANTED) && !Leaks(NO_IDS, GRANTED)
    ensures ReconcileResult(NO_IDS, leases, holder, GRANTED)
         == (Ids(Some(ProviderIds.Print("z", "a")), Some("a")), leases["a" := Lease(holder, false)])
  {
    hide ProviderIds.Print;
    ProviderIds.NoProviderIdNoInstance(None);
  }

  lemma StrandingKeepsName(leases: Leases, holder: string, ids: Ids)
    requires "a" in leases && Named(ids) == "a"
    ensures Consistent(leases, STRANDING) && !Leaks(ids, STRANDING) && Strands(ids, STRANDING)
    ensures ReconcileResult(ids, leases, holder, STRANDING) == (ids,
      leases["a" := leases["a"].(releaseRequested := true)])
  {
    hide ProviderIds.InstanceId;
    ProviderIds.NoProviderIdNoInstance(ids.providerID);
  }

  lemma RunningKeepsName(leases: Leases, holder: string, ids: Ids)
    requires Named(ids) == "a"
    ensures Consistent(leases, RUNNING) && !Leaks(ids, RUNNING)
    ensures ReconcileResult(ids, leases, holder, RUNNING) == (Ids(Some(ProviderIds.Print("z", "a")), Some("a")), leases)
  {
    hide ProviderIds.InstanceId, ProviderIds.Print;
    ProviderIds.NoProviderIdNoInstance(ids.providerID);
  }

  /**
   * After a stranding the next MaasMachine is granted the machine, both name it, the first one's next reconcile
   * keeps it because it is running, and deleting the first one releases the second one's machine. No step leaks.
   */
  lemma StrandedMachineIsShared(h: string, g: string)
    requires h != g
    ensures ValidRun(Shared(h, g)) && !Careful(Shared(h, g))
    ensures var r := Then(Shared(h, g), Reconciled(h, RUNNING));
      && ValidRun(r)
      && var (fleet, leases) := Outcome(r);
         && h in fleet && g in fleet && Named(fleet[h]) == Named(fleet[g]) == "a"
         && leases == map["a" := Lease(g, false)]
         && Next(fleet, leases, Deleted(h)).1 == map["a" := Lease(g, true)]
  {
    hide ProviderIds.InstanceId, ProviderIds.Print, ReconcileResult, Consistent, Leaks, Strands, ForcesOff;
    hide ValidRun, Outcome;
    var ids := Ids(Some(ProviderIds.Print("z", "a")), Some("a"));
    assert Named(ids) == "a" by { PrintedId("z", "a"); }
    NothingYet();
    OneMore(Start, Created(h));
    var r2 := Then(Then(Start, Created(h)), Created(g));
    OneMore(Then(Start, Created(h)), Created(g));
    GrantedNames(map[], h);
    OneMore(r2, Reconciled(h, GRANTED));
    var r3 := Then(r2, Reconciled(h, GRANTED));
    assert Outcome(r3).0 == map[h := ids, g := NO_IDS];
    assert Outcome(r3).1 == map["a" := Lease(h, false)];
    StrandingKeepsName(Outcome(r3).1, h, ids);
    OneMore(r3, Reconciled(h, STRANDING));
    var r4 := Then(r3, Reconciled(h, STRANDING));
    assert Outcome(r4).0 == map[h := ids, g := NO_IDS];
    assert Outcome(r4).1 == map["a" := Lease(h, true)];
    GrantedNames(Outcome(r4).1, g);
    OneMore(r4, Reconciled(g, GRANTED));
    var r5 := Then(r4, Reconciled(g, GRANTED));
    assert Outcome(r5).0 == map[h := ids, g := ids];
    assert Outcome(r5).1 == map["a" := Lease(g, false)];
    RunningKeepsName(Outcome(r5).1, h, ids);
    OneMore(r5, Reconciled(h, RUNNING));
    assert !Careful(r4);
  }

  lemma NothingYet()
    ensures ValidRun(Start) && Outcome(Start) == (map[], map[])
  {
  }

  lemma OneMore(r: Run, s: Step)
    requires ValidRun(r) && Allowed(Outcome(r).0, Outcome(r).1, s)
    ensures ValidRun(Then(r, s)) && Outcome(Then(r, s)) == Next(Outcome(r).0, Outcome(r).1, s)
  {
    hide Allowed, Next;
  }
}
