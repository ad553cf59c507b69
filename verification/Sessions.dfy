/** The one HMC session over whole runs: its shape, its operation IDs, and the error branch that never fires. */
module Sessions {
  import opened Base
  import opened State
  import opened Protocol
  import Effects
  import Hmc
  import HmcSession
  import HostMachines
  import HostTags
  import Provision
  import Tags
  import Vec

  ghost predicate Inv(s: Sys) { HmcSession.Sound(s.w.session, s.h.opIds) }

  function OpId(s: Sys): string { HmcSession.Load(s.w.session).opId }

  /** An operation ID is only ever replaced by one nobody used, for a session that is open from then on. */
  ghost predicate OpIdStep(before: HmcSession.Stored, after: HmcSession.Stored, used: set<string>, newOpId: string) {
    var st, st' := HmcSession.Load(before), HmcSession.Load(after);
    st'.opId != st.opId ==> st'.opId == newOpId && newOpId !in used && !HmcSession.IsOpen(before)
  }

  /** Once a session is open, the rest of a reconcile keeps its operation ID. */
  lemma EvacuateSession(w: World, uid: string, host: string, opId: string, c: Hmc.Calls, used: set<string>)
    requires uid in w.hosts && HmcSession.Sound(w.session, used)
      && HmcSession.Load(w.session).status == HmcSession.Active
    ensures var w' := Hmc.Evacuate(w, uid, host, opId, c).0;
      HmcSession.Sound(w'.session, used) && HmcSession.Load(w'.session).opId == HmcSession.Load(w.session).opId
  {
    hide HostTags.Ensure, HostTags.Clear, HostTags.ClearSucceeds, Hmc.Verdict, HmcSession.Complete, HmcSession.Track,
      HmcSession.Sound;
    var v := Hmc.Verdict(HostTags.Ensure(w.nodes, host, opId, c.ensureCalls), host, c);
    var tracked := Hmc.Tracked(w.session, v.tracking, c);
    if v.tracking.Some? {
      HmcSession.TrackKeepsSound(w.session, used, v.tracking.value.affected, v.tracking.value.pending, c.trackOk);
    }
    HmcSession.CompleteKeepsSound(tracked, used, c.completeOk);
  }

  lemma MoreUsed(cm: HmcSession.Stored, used: set<string>, more: set<string>)
    requires HmcSession.Sound(cm, used) && used <= more
    ensures HmcSession.Sound(cm, more)
  {
  }

  lemma HmcKeepsSession(w: World, uid: string, c: Hmc.Calls, used: set<string>)
    requires uid in w.hosts && HmcSession.Sound(w.session, used) && c.opId != "" && c.opId !in used
    ensures var w' := Hmc.Step(w, uid, c).0;
      HmcSession.Sound(w'.session, used + {c.opId}) && OpIdStep(w.session, w'.session, used, c.opId)
  {
    hide Hmc.Evacuate, HmcSession.Sound;
    var host := Text(w.hosts[uid].systemID);
    MoreUsed(w.session, used, used + {c.opId});
    if !Hmc.NeedsSession(w.session) {
      EvacuateSession(w, uid, host, HmcSession.Load(w.session).opId, c, used + {c.opId});
    }
    HmcSession.StartKeepsSound(w.session, used, host, c.opId, c.now, c.startOk);
    var r := HmcSession.StartResult(w.session, host, c.opId, c.now, c.startOk);
    if r.Some? {
      var started := w.(session := HmcSession.Start(w.session, host, c.opId, c.now, c.startOk));
      EvacuateSession(started, uid, host, r.value.opId, c, used + {c.opId});
    }
  }

  lemma ConfigMapKeepsSession(w: World, c: Hmc.Calls, used: set<string>)
    requires HmcSession.Sound(w.session, used) && c.opId != "" && c.opId !in used
    ensures var (w', e) := Hmc.ConfigMapStep(w, c);
      HmcSession.Sound(w'.session, used + {c.opId}) && OpIdStep(w.session, w'.session, used, c.opId)
        && e != Hmc.TooManySessions
  {
    hide HostTags.Ensure, HmcSession.Trigger;
    var t := HmcSession.Trigger(w.session);
    if t.Some? {
      HmcSession.StartKeepsSound(w.session, used, t.value, c.opId, c.now, c.startOk);
    }
  }

  /**
   * While a session is open, a reconcile of its ConfigMap puts the three drain tags of its operation on the
   * host it names, a trigger for another host notwithstanding, and touches no other machine.
   */
  lemma OpenSessionTagsItsHost(w: World, c: Hmc.Calls)
    requires HmcSession.IsOpen(w.session) && HmcSession.Load(w.session).currentHost in w.nodes
    requires HmcSession.Load(w.session).currentHost != "" && HmcSession.Load(w.session).opId != ""
    requires c.loadOk && c.clientOk && c.ensureCalls >= HostTags.ENSURE_CALLS
    ensures var (st, w') := (HmcSession.Load(w.session), Hmc.ConfigMapStep(w, c).0);
      && w'.nodes.Keys == w.nodes.Keys
      && Tags.HOST_MAINTENANCE in w'.nodes[st.currentHost].tags
        && Tags.HOST_NO_SCHEDULE in w'.nodes[st.currentHost].tags
      && Tags.OpTag(st.opId) in w'.nodes[st.currentHost].tags
      && (forall id :: id in w.nodes && id != st.currentHost ==> w'.nodes[id] == w.nodes[id])
      && w'.session == w.session
  {
    hide Tags.OpTag, HmcSession.Trigger;
  }

  /** With no session open, a trigger opens one for the host it names, and the host gets its tags. */
  lemma TriggerOpens(w: World, c: Hmc.Calls, host: string)
    requires w.session.Some? && "start" in w.session.value.other && w.session.value.other["start"] == "true"
    requires host == if "hostSystemID" in w.session.value.other then w.session.value.other["hostSystemID"] else ""
    requires !(HmcSession.Load(w.session).status == HmcSession.Active && HmcSession.Load(w.session).activeSessions == 1)
    requires c.loadOk && c.startOk && c.clientOk && c.opId != ""
    ensures var w' := Hmc.ConfigMapStep(w, c).0;
      && HmcSession.Load(w'.session) == HmcSession.Session(c.opId, HmcSession.Active, host, c.now, 1, {}, [])
      && w'.nodes == if host == "" then w.nodes else HostTags.Ensure(w.nodes, host, c.opId, c.ensureCalls)
  {
    hide HostTags.Ensure;
    HmcSession.TriggerExactly(w.session, host);
    HmcSession.StartExactly(w.session, host, c.opId, c.now, c.startOk);
  }

  /** The controller refuses to work under more than one session, unless a trigger replaces them by one. */
  lemma TooManyExactly(w: World, c: Hmc.Calls)
    ensures var (w', e) := Hmc.ConfigMapStep(w, c);
      var st := HmcSession.Load(w.session);
      && (e == Hmc.TooManySessions <==>
            && c.loadOk && st.status == HmcSession.Active && st.currentHost != "" && st.opId != ""
              && st.activeSessions > 1
            && !(w.session.Some? && ("start", "true") in w.session.value.other.Items))
      && (e == Hmc.TooManySessions ==> w' == w)
  {
    hide HostTags.Ensure;
  }

  /** Without a trigger and without an open session nothing happens. */
  lemma NothingAsked(w: World, c: Hmc.Calls)
    requires w.session.None? || "start" !in w.session.value.other || w.session.value.other["start"] != "true"
    requires HmcSession.Load(w.session).status != HmcSession.Active
    ensures Hmc.ConfigMapStep(w, c) == (w, Hmc.Quiet)
  {
    hide HostTags.Ensure;
  }

  // ----- over runs -----

  lemma HmcStep(s: Sys, a: Action, t: Sys, e: Event)
    requires Leads(s, a, t, e) && a.HmcReconcile? && Inv(s)
    ensures Inv(t) && OpIdStep(s.w.session, t.w.session, s.h.opIds, a.hmc.opId)
    ensures e.FromHmc? && e.h != Hmc.TooManySessions
  {
    hide Hmc.Step, HmcSession.Sound, OpIdStep;
    HmcKeepsSession(s.w, a.uid, a.hmc, s.h.opIds);
    NeverTooMany(s.w, a.uid, a.hmc);
  }

  lemma NeverTooMany(w: World, uid: string, c: Hmc.Calls)
    requires uid in w.hosts
    ensures Hmc.Step(w, uid, c).1 != Hmc.TooManySessions
  {
    hide HostTags.Ensure, HostTags.Clear, HostTags.ClearSucceeds, Hmc.Verdict, Hmc.Tracked, HmcSession.Complete;
    hide HmcSession.Start, HmcSession.StartResult, HmcSession.Load, Hmc.NeedsSession;
  }

  lemma ConfigMapStep(s: Sys, a: Action, t: Sys, e: Event)
    requires Leads(s, a, t, e) && a.HmcConfigMap? && Inv(s)
    ensures Inv(t) && OpIdStep(s.w.session, t.w.session, s.h.opIds, a.hmc.opId)
    ensures e.FromHmc? && e.h != Hmc.TooManySessions
  {
    hide Hmc.ConfigMapStep, HmcSession.Sound, OpIdStep;
    ConfigMapKeepsSession(s.w, a.hmc, s.h.opIds);
  }

  /** Nobody but HMC touches the session; an operator's edit only touches the other keys. */
  lemma OtherStep(s: Sys, a: Action, t: Sys, e: Event)
    requires Leads(s, a, t, e) && !a.HmcReconcile? && !a.HmcConfigMap?
    ensures HmcSession.Load(t.w.session) == HmcSession.Load(s.w.session) && t.h.opIds == s.h.opIds
  {
    hide Permitted, Vec.Step, Provision.Step, HostMachines.NormalStep, HostMachines.DeleteStep;
    match a
    case VecReconcile(c) => Effects.VecFrame(s.w, c);
    case ProvisionVm(uid, c, pick) => Effects.ProvisionFrame(s.w, uid, c, pick);
    case HostNormal(uid, c) => Effects.NormalFrame(s.w, uid, c);
    case HostDelete(uid, c) => Effects.DeleteFrame(s.w, uid, c);
    case _ =>
  }

  lemma StepKeepsInv(s: Sys, a: Action, t: Sys, e: Event)
    requires Leads(s, a, t, e) && Inv(s)
    ensures Inv(t)
    ensures OpId(t) != OpId(s) ==> OpId(t) !in s.h.opIds && HmcSession.Load(s.w.session).status != HmcSession.Active
    ensures s.h.opIds <= t.h.opIds
    ensures e != FromHmc(Hmc.TooManySessions)
  {
    hide Leads;
    OpIdsGrow(s, a, t, e);
    if a.HmcReconcile? {
      HmcStep(s, a, t, e);
    } else if a.HmcConfigMap? {
      ConfigMapStep(s, a, t, e);
    } else {
      OtherStep(s, a, t, e);
    }
  }

  lemma OpIdsGrow(s: Sys, a: Action, t: Sys, e: Event)
    requires Leads(s, a, t, e)
    ensures s.h.opIds <= t.h.opIds
    ensures e.FromHmc? ==> a.HmcReconcile? || a.HmcConfigMap?
  {
    hide Permitted, Vec.Step, Provision.Step, HostMachines.NormalStep, HostMachines.DeleteStep, Hmc.Step,
      Hmc.ConfigMapStep;
  }

  /**
   * In every reachable state the session is Active exactly when it counts one active session, nothing is left
   * over in a Completed one, and no reconcile ever reports more than one.
   */
  lemma {:induction false} AlwaysSound(r: Run, i: nat)
    requires IsRun(r) && i < |r.states|
    ensures HmcSession.Sound(r.states[i].w.session, r.states[i].h.opIds)
    ensures forall k :: 0 <= k < i ==> r.events[k] != FromHmc(Hmc.TooManySessions)
  {
    hide Leads;
    if i > 0 {
      AlwaysSound(r, i - 1);
      StepKeepsInv(r.states[i - 1], r.actions[i - 1], r.states[i], r.events[i - 1]);
    }
  }

  /** An operation ID that was replaced never comes back. */
  lemma {:induction false} OpIdsNeverRepeat(r: Run, i: nat, j: nat, k: nat)
    requires IsRun(r) && i < j <= k < |r.states|
    requires OpId(r.states[i]) != "" && OpId(r.states[j]) != OpId(r.states[i])
    ensures OpId(r.states[k]) != OpId(r.states[i])
    ensures OpId(r.states[i]) in r.states[k].h.opIds
  {
    hide Leads, HmcSession.Load;
    if j < k {
      OpIdsNeverRepeat(r, i, j, k - 1);
      AlwaysSound(r, k - 1);
      StepKeepsInv(r.states[k - 1], r.actions[k - 1], r.states[k], r.events[k - 1]);
    } else {
      OpIdIsUsed(r, i, k);
    }
  }

  lemma {:induction false} OpIdIsUsed(r: Run, i: nat, k: nat)
    requires IsRun(r) && i <= k < |r.states| && OpId(r.states[i]) != ""
    ensures OpId(r.states[i]) in r.states[k].h.opIds
  {
    hide Leads;
    if i < k {
      OpIdIsUsed(r, i, k - 1);
      OpIdsGrow(r.states[k - 1], r.actions[k - 1], r.states[k], r.events[k - 1]);
    } else {
      AlwaysSound(r, i);
    }
  }
}
