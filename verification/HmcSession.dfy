/**
 * The maintenance session HMC keeps in one ConfigMap (pkg/maas/maintenance/session.go). Encodings of
 * numbers, times and lists are library codecs: the session is a record, beside the keys it never touches.
 */
module HmcSession {
  import opened Base

  datatype Status = Unset | Active | Completed | Aborted

  datatype Session = Session(
    opId: string,
    status: Status,
    currentHost: string,
    startedAt: int,
    activeSessions: int,
    affected: set<string>,
    pending: seq<string>)

  /** other holds every key a save leaves alone, the trigger keys start and hostSystemID among them. */
  datatype ConfigMap = ConfigMap(session: Session, progress: string, other: map<string, string>)

  type Stored = Option<ConfigMap>

  const EMPTY := Session("", Unset, "", 0, 0, {}, [])

  function Load(cm: Stored): Session {
    if cm.None? then EMPTY else cm.value.session
  }

  function Save(cm: Stored, st: Session): Stored {
    match cm
    case None => Some(ConfigMap(st, "{}", map[]))
    case Some(was) => Some(ConfigMap(st, if was.progress == "" then "{}" else was.progress, was.other))
  }

  predicate IsOpen(cm: Stored) { cm.Some? && Load(cm).status == Active && Load(cm).activeSessions == 1 }

  function Fresh(host: string, opId: string, now: int): Session { Session(opId, Active, host, now, 1, {}, []) }

  /** StartSession: the stored session if one is open, otherwise a new one; None when the write failed. */
  function StartResult(cm: Stored, host: string, opId: string, now: int, writeOk: bool): Option<Session> {
    if IsOpen(cm) then Some(Load(cm)) else if writeOk then Some(Fresh(host, opId, now)) else None
  }

  function Start(cm: Stored, host: string, opId: string, now: int, writeOk: bool): Stored {
    if IsOpen(cm) || !writeOk then cm else Save(cm, Fresh(host, opId, now))
  }

  function Closed(st: Session): Session {
    st.(status := Completed, activeSessions := 0, currentHost := "", affected := {}, pending := [])
  }

  function Complete(cm: Stored, writeOk: bool): Stored {
    if Load(cm).status == Completed || !writeOk then cm else Save(cm, Closed(Load(cm)))
  }

  /** The gate check records what it is waiting for, provided the session it loaded has an operation ID. */
  function Track(cm: Stored, affected: set<string>, pending: seq<string>, writeOk: bool): Stored {
    if Load(cm).opId == "" || !writeOk then cm else Save(cm, Load(cm).(affected := affected, pending := pending))
  }

  /** ShouldStartFromTrigger: the host an operator asked for. */
  function Trigger(cm: Stored): Option<string> {
    if cm.Some? && "start" in cm.value.other && cm.value.other["start"] == "true" then
      Some(if "hostSystemID" in cm.value.other then cm.value.other["hostSystemID"] else "")
    else None
  }

  class SessionConfigMap {
    var cm: Stored

    constructor ()
      ensures cm == None
    {
      cm := None;
    }

    method SaveSession(st: Session, writeOk: bool) returns (ok: bool)
      modifies this
      ensures ok == writeOk
      ensures cm == if ok then Save(old(cm), st) else old(cm)
    {
      if !writeOk {
        return false;
      }
      var progress := "";
      var other: map<string, string> := map[];
      if cm.Some? {
        progress, other := cm.value.progress, cm.value.other;
      }
      if progress == "" {
        progress := "{}";
      }
      cm := Some(ConfigMap(st, progress, other));
      return true;
    }

    method StartSession(host: string, opId: string, now: int, writeOk: bool) returns (r: Option<Session>)
      modifies this
      ensures r == StartResult(old(cm), host, opId, now, writeOk)
      ensures cm == Start(old(cm), host, opId, now, writeOk)
    {
      var st := Load(cm);
      if cm.Some? && st.status == Active && st.activeSessions == 1 {
        return Some(st);
      }
      st := Session(opId, Active, host, now, 1, {}, []);
      var ok := SaveSession(st, writeOk);
      if !ok {
        return None;
      }
      return Some(st);
    }

    method CompleteSession(writeOk: bool) returns (ok: bool)
      modifies this
      ensures cm == Complete(old(cm), writeOk)
      ensures ok <==> Load(cm).status == Completed
    {
      var st := Load(cm);
      if st.status == Completed {
        return true;
      }
      st := st.(status := Completed);
      st := st.(activeSessions := 0);
      st := st.(currentHost := "");
      st := st.(affected := {}, pending := []);
      ok := SaveSession(st, writeOk);
    }
  }

  // ----- what every run keeps -----

  /** used holds every operation ID handed out so far. */
  ghost predicate Sound(cm: Stored, used: set<string>) {
    var st := Load(cm);
    && (st.status == Active <==> st.activeSessions == 1)
    && (st.status != Active ==> st.activeSessions == 0)
    && (st.status == Active ==> st.opId != "")
    && (st.status == Completed ==> st.currentHost == "" && st.affected == {} && st.pending == [])
    && st.status != Aborted
    && (st.opId != "" ==> st.opId in used)
  }

  lemma StartKeepsSound(cm: Stored, used: set<string>, host: string, opId: string, now: int, writeOk: bool)
    requires Sound(cm, used) && opId != ""
    ensures Sound(Start(cm, host, opId, now, writeOk), used + {opId})
    ensures var cm' := Start(cm, host, opId, now, writeOk);
      Load(cm').opId != Load(cm).opId ==> Load(cm').opId == opId && Load(cm').status == Active && !IsOpen(cm)
  {
  }

  lemma CompleteKeepsSound(cm: Stored, used: set<string>, writeOk: bool)
    requires Sound(cm, used)
    ensures Sound(Complete(cm, writeOk), used) && Load(Complete(cm, writeOk)).opId == Load(cm).opId
  {
  }

  /** Tracking data is only sound to record while the session is open, which is when HMC records it. */
  lemma TrackKeepsSound(cm: Stored, used: set<string>, affected: set<string>, pending: seq<string>, writeOk: bool)
    requires Sound(cm, used) && Load(cm).status == Active
    ensures var cm' := Track(cm, affected, pending, writeOk);
      Sound(cm', used) && Load(cm').opId == Load(cm).opId && Load(cm').status == Active
  {
  }

  /** Starting twice is starting once: the second call, for any host, returns the first one's session. */
  lemma StartIdempotent(cm: Stored, h1: string, id1: string, t1: int, h2: string, id2: string, t2: int, ok2: bool)
    ensures var once := Start(cm, h1, id1, t1, true);
      && Start(once, h2, id2, t2, ok2) == once
      && StartResult(once, h2, id2, t2, ok2) == StartResult(cm, h1, id1, t1, true)
  {
  }

  lemma CompleteIdempotent(cm: Stored, ok2: bool)
    ensures Complete(Complete(cm, true), ok2) == Complete(cm, true)
    ensures Load(Complete(cm, true)).status == Completed
  {
  }

  /** No session operation touches the keys that belong to others. */
  lemma OtherKeysUntouched(cm: Stored, host: string, opId: string, now: int, a: set<string>, p: seq<string>, ok: bool)
    requires cm.Some?
    ensures Start(cm, host, opId, now, ok).Some? && Start(cm, host, opId, now, ok).value.other == cm.value.other
    ensures Complete(cm, ok).Some? && Complete(cm, ok).value.other == cm.value.other
    ensures Track(cm, a, p, ok).Some? && Track(cm, a, p, ok).value.other == cm.value.other
    ensures Trigger(Complete(cm, ok)) == Trigger(cm)
  {
  }

  // ----- field by field -----

  /** A start writes a whole new session, unless one is open or the write fails. */
  lemma StartExactly(cm: Stored, host: string, opId: string, now: int, writeOk: bool)
    ensures var open := cm.Some? && cm.value.session.status == Active && cm.value.session.activeSessions == 1;
      var after := Start(cm, host, opId, now, writeOk);
      var result := StartResult(cm, host, opId, now, writeOk);
      && (open ==> after == cm && result == Some(cm.value.session))
      && (!open && !writeOk ==> after == cm && result == None)
      && (!open && writeOk ==>
            && after.Some? && result == Some(after.value.session)
            && after.value.session == Session(opId, Active, host, now, 1, {}, [])
            && after.value.other == (if cm.Some? then cm.value.other else map[])
            && after.value.progress == (if cm.Some? && cm.value.progress != "" then cm.value.progress else "{}"))
  {
  }

  /** A completion keeps the operation ID and the start time, and clears the rest. */
  lemma CompleteExactly(cm: Stored, writeOk: bool)
    ensures var st, after := Load(cm), Complete(cm, writeOk);
      if st.status == Completed || !writeOk then after == cm
      else after.Some? && after.value.session == Session(st.opId, Completed, "", st.startedAt, 0, {}, [])
  {
  }

  /** Tracking data changes the two lists, and only of a session with an operation ID. */
  lemma TrackExactly(cm: Stored, affected: set<string>, pending: seq<string>, writeOk: bool)
    ensures var st, after := Load(cm), Track(cm, affected, pending, writeOk);
      if st.opId == "" || !writeOk then after == cm
      else
        && after.Some?
        && after.value.session
           == Session(st.opId, st.status, st.currentHost, st.startedAt, st.activeSessions, affected, pending)
  {
  }

  /** A trigger is the word true under start; the host it asks for is under hostSystemID, or empty. */
  lemma TriggerExactly(cm: Stored, host: string)
    ensures Trigger(cm) == Some(host) <==>
      && cm.Some? && ("start", "true") in cm.value.other.Items
      && (("hostSystemID", host) in cm.value.other.Items || ("hostSystemID" !in cm.value.other && host == ""))
  {
  }
}
