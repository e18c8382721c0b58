/**
 The Worker's profiling sessions and the forward-only ledger of their cases
 (src/edgeshard/control/worker/profiling_sessions.py, src/edgeshard/profiling/domain/experiment.py).
 */
module Ledger {
  import opened Options

  /** Where a measurement was taken; network measurements name no device. */
  datatype Environment = Environment(workerId: string, deviceId: Option<string>)

  datatype Measurement = Measurement(measurementId: string, caseId: string, environment: Option<Environment>,
                                     samples: seq<real>)

  datatype Category = CANCELLED_BY_MASTER | INTERNAL_ERROR | WORKER_LOST | OTHER_FAILURE(name: string)

  /** Exactly one of a record and a failure. */
  datatype Outcome = Measured(record: Measurement) | Failure(category: Category, message: string)

  datatype CaseState = PENDING | RUNNING | COMPLETED | FAILED | CANCELLED

  predicate Terminal(s: CaseState)
  {
    s == COMPLETED || s == FAILED || s == CANCELLED
  }

  datatype Entry = Entry(state: CaseState, outcome: Option<Outcome>)

  datatype SessionKind = MODEL_SESSION | OPERATOR_SESSION | NETWORK_SESSION

  datatype Record = Record(kind: SessionKind, devices: seq<string>, cases: map<string, Entry>, closed: bool)

  type Sessions = map<string, Record>

  datatype Rejection = UNKNOWN_SESSION | SESSION_CLOSED | SESSION_KIND_MISMATCH | DEVICE_BUSY | UNKNOWN_CASE

  /** `Refused` is the typed refusal, `Broken` the ValueError of a protocol violation. */
  datatype Result<+T> = Ok(value: T) | Refused(reason: Rejection) | Broken

  function RequireOpen(sessions: Sessions, sid: string): Result<Record>
  {
    if sid !in sessions then Refused(UNKNOWN_SESSION)
    else if sessions[sid].closed then Refused(SESSION_CLOSED)
    else Ok(sessions[sid])
  }

  function WithEntry(sessions: Sessions, sid: string, cid: string, entry: Entry): Sessions
    requires sid in sessions
  {
    sessions[sid := sessions[sid].(cases := sessions[sid].cases[cid := entry])]
  }

  function Create(sessions: Sessions, sid: string, kind: SessionKind, devices: seq<string>): (Sessions, Result<Record>)
  {
    if sid in sessions then (sessions, Broken)
    else var record := Record(kind, devices, map[], false); (sessions[sid := record], Ok(record))
  }

  /** Whether this call did close the session is the second component. */
  function Close(sessions: Sessions, sid: string): (Sessions, bool)
  {
    if sid !in sessions || sessions[sid].closed then (sessions, false)
    else (sessions[sid := sessions[sid].(closed := true)], true)
  }

  predicate Decided(cases: map<string, Entry>, cid: string)
  {
    cid in cases && Terminal(cases[cid].state)
  }

  function MarkRunning(sessions: Sessions, sid: string, cid: string): (Sessions, Result<()>)
  {
    var open := RequireOpen(sessions, sid);
    if open.Refused? then (sessions, Refused(open.reason))
    else if open.Broken? || Decided(sessions[sid].cases, cid) then (sessions, Broken)
    else (WithEntry(sessions, sid, cid, Entry(RUNNING, None)), Ok(()))
  }

  function Decide(sessions: Sessions, sid: string, cid: string, state: CaseState, outcome: Outcome)
    : (Sessions, Result<Entry>)
  {
    var open := RequireOpen(sessions, sid);
    if !Terminal(state) then (sessions, Broken)
    else if open.Refused? then (sessions, Refused(open.reason))
    else if open.Broken? || Decided(sessions[sid].cases, cid) then (sessions, Broken)
    else var entry := Entry(state, Some(outcome)); (WithEntry(sessions, sid, cid, entry), Ok(entry))
  }

  const CANCELLED_ENTRY := Entry(CANCELLED, Some(Failure(CANCELLED_BY_MASTER, "case cancelled before execution")))

  function Cancel(sessions: Sessions, sid: string, cid: string): (Sessions, Result<Entry>)
  {
    var open := RequireOpen(sessions, sid);
    if open.Refused? then (sessions, Refused(open.reason))
    else if open.Broken? then (sessions, Broken)
    else if Decided(sessions[sid].cases, cid) then (sessions, Ok(sessions[sid].cases[cid]))
    else (WithEntry(sessions, sid, cid, CANCELLED_ENTRY), Ok(CANCELLED_ENTRY))
  }

  // ---------------------------------------------------------------------------
  // What every operation keeps
  // ---------------------------------------------------------------------------

  /** A terminal entry carries its outcome, a record exactly when it completed; a running one carries none. */
  predicate EntryOk(e: Entry)
  {
    && e.state != PENDING
    && (e.state == RUNNING <==> e.outcome.None?)
    && (e.state == COMPLETED <==> e.outcome.Some? && e.outcome.value.Measured?)
  }

  ghost predicate LedgerOk(sessions: Sessions)
  {
    forall sid, cid :: sid in sessions && cid in sessions[sid].cases ==> EntryOk(sessions[sid].cases[cid])
  }

  /** History is never rewritten: `after` keeps every session, every decision and every closed record. */
  ghost predicate Extends(before: Sessions, after: Sessions)
  {
    forall sid :: sid in before ==> sid in after && Successor(before[sid], after[sid])
  }

  ghost predicate Successor(r: Record, r': Record)
  {
    && r'.kind == r.kind && r'.devices == r.devices
    && (r.closed ==> r' == r)
    && (forall cid :: cid in r.cases ==> cid in r'.cases)
    && (forall cid :: cid in r.cases && Terminal(r.cases[cid].state) ==> r'.cases[cid] == r.cases[cid])
  }

  /** Only entries differ: the same sessions exist and the same ones are open. */
  ghost predicate SameOpen(before: Sessions, after: Sessions)
  {
    before.Keys == after.Keys && forall sid :: sid in before ==> after[sid].closed == before[sid].closed
  }

  ghost predicate Grows(before: Sessions, after: Sessions)
  {
    Extends(before, after) && LedgerOk(after) && SameOpen(before, after)
  }

  lemma EntryGrows(sessions: Sessions, sid: string, cid: string, entry: Entry)
    requires LedgerOk(sessions) && sid in sessions && !sessions[sid].closed && EntryOk(entry)
    requires !Decided(sessions[sid].cases, cid)
    ensures Grows(sessions, WithEntry(sessions, sid, cid, entry))
  {
  }

  lemma CreateExtends(sessions: Sessions, sid: string, kind: SessionKind, devices: seq<string>)
    requires LedgerOk(sessions)
    ensures var s := Create(sessions, sid, kind, devices).0; Extends(sessions, s) && LedgerOk(s)
  {
  }

  lemma CloseExtends(sessions: Sessions, sid: string)
    requires LedgerOk(sessions)
    ensures var s := Close(sessions, sid).0; Extends(sessions, s) && LedgerOk(s)
  {
  }

  lemma MarkGrows(sessions: Sessions, sid: string, cid: string)
    requires LedgerOk(sessions)
    ensures Grows(sessions, MarkRunning(sessions, sid, cid).0)
  {
    if sid in sessions && !sessions[sid].closed && !Decided(sessions[sid].cases, cid) {
      EntryGrows(sessions, sid, cid, Entry(RUNNING, None));
    }
  }

  lemma DecideGrows(sessions: Sessions, sid: string, cid: string, state: CaseState, outcome: Outcome)
    requires LedgerOk(sessions) && (Terminal(state) ==> (state == COMPLETED <==> outcome.Measured?))
    ensures Grows(sessions, Decide(sessions, sid, cid, state, outcome).0)
  {
    if Terminal(state) && sid in sessions && !sessions[sid].closed && !Decided(sessions[sid].cases, cid) {
      EntryGrows(sessions, sid, cid, Entry(state, Some(outcome)));
    }
  }

  lemma CancelGrows(sessions: Sessions, sid: string, cid: string)
    requires LedgerOk(sessions)
    ensures Grows(sessions, Cancel(sessions, sid, cid).0)
  {
    if sid in sessions && !sessions[sid].closed && !Decided(sessions[sid].cases, cid) {
      EntryGrows(sessions, sid, cid, CANCELLED_ENTRY);
    }
  }

  lemma ExtendsTransitive(a: Sessions, b: Sessions, c: Sessions)
    requires Extends(a, b) && Extends(b, c)
    ensures Extends(a, c)
  {
    forall sid | sid in a ensures sid in c && Successor(a[sid], c[sid]) {
      assert Successor(a[sid], b[sid]) && Successor(b[sid], c[sid]);
    }
  }

  // ---------------------------------------------------------------------------
  // What every operation does
  // ---------------------------------------------------------------------------

  predicate IsOpen(sessions: Sessions, sid: string)
  {
    sid in sessions && !sessions[sid].closed
  }

  /** What a missing or closed session is refused with. */
  predicate NotOpen<T>(sessions: Sessions, sid: string, r: Result<T>)
  {
    && (sid !in sessions ==> r == Refused(UNKNOWN_SESSION))
    && (sid in sessions && sessions[sid].closed ==> r == Refused(SESSION_CLOSED))
  }

  /** Only the entry of one case differs, and it is `entry` now. */
  predicate OnlyEntry(before: Sessions, after: Sessions, sid: string, cid: string, entry: Entry)
  {
    && sid in before && sid in after && after - {sid} == before - {sid}
    && after[sid].kind == before[sid].kind && after[sid].devices == before[sid].devices
    && after[sid].closed == before[sid].closed
    && cid in after[sid].cases && after[sid].cases[cid] == entry
    && after[sid].cases - {cid} == before[sid].cases - {cid}
  }

  predicate CanDecide(sessions: Sessions, sid: string, cid: string)
  {
    IsOpen(sessions, sid) && (cid in sessions[sid].cases ==> !Terminal(sessions[sid].cases[cid].state))
  }

  /** A case is marked running in an open session unless it is decided there. */
  lemma MarkMeans(sessions: Sessions, sid: string, cid: string)
    ensures var (after, r) := MarkRunning(sessions, sid, cid);
            && (!IsOpen(sessions, sid) ==> NotOpen(sessions, sid, r) && after == sessions)
            && (IsOpen(sessions, sid) && !CanDecide(sessions, sid, cid) ==> r == Broken && after == sessions)
            && (CanDecide(sessions, sid, cid) ==>
                  r == Ok(()) && OnlyEntry(sessions, after, sid, cid, Entry(RUNNING, None)))
  {
  }

  /** A case is decided, with the state and outcome given, in an open session unless it is decided there. */
  lemma DecideMeans(sessions: Sessions, sid: string, cid: string, state: CaseState, outcome: Outcome)
    ensures var (after, r) := Decide(sessions, sid, cid, state, outcome);
            && (!Terminal(state) ==> r == Broken && after == sessions)
            && (Terminal(state) && !IsOpen(sessions, sid) ==> NotOpen(sessions, sid, r) && after == sessions)
            && (IsOpen(sessions, sid) && !CanDecide(sessions, sid, cid) ==> r == Broken && after == sessions)
            && (Terminal(state) && CanDecide(sessions, sid, cid) ==>
                  && r == Ok(Entry(state, Some(outcome)))
                  && OnlyEntry(sessions, after, sid, cid, Entry(state, Some(outcome))))
  {
  }

  /** A cancellation decides what is undecided, also what was never started, and otherwise answers the decision. */
  lemma CancelMeans(sessions: Sessions, sid: string, cid: string)
    ensures var (after, r) := Cancel(sessions, sid, cid);
            && (!IsOpen(sessions, sid) ==> NotOpen(sessions, sid, r) && after == sessions)
            && (IsOpen(sessions, sid) && !CanDecide(sessions, sid, cid) ==>
                  r == Ok(sessions[sid].cases[cid]) && after == sessions)
            && (CanDecide(sessions, sid, cid) ==>
                  && r.Ok? && OnlyEntry(sessions, after, sid, cid, r.value) && r.value.state == CANCELLED
                  && r.value.outcome.Some? && r.value.outcome.value.Failure?
                  && r.value.outcome.value.category == CANCELLED_BY_MASTER)
  {
  }

  /** A new session is open and empty; an existing one is left alone. */
  lemma CreateMeans(sessions: Sessions, sid: string, kind: SessionKind, devices: seq<string>)
    ensures var (after, r) := Create(sessions, sid, kind, devices);
            && (sid in sessions ==> r == Broken && after == sessions)
            && (sid !in sessions ==>
                  && r.Ok? && sid in after && after[sid] == r.value && after - {sid} == sessions
                  && r.value.kind == kind && r.value.devices == devices && r.value.cases == map[]
                  && IsOpen(after, sid))
  {
  }

  /** Closing changes one thing, and says whether it did. */
  lemma CloseMeans(sessions: Sessions, sid: string)
    ensures var (after, closed) := Close(sessions, sid);
            && (closed <==> IsOpen(sessions, sid)) && !IsOpen(after, sid)
            && after.Keys == sessions.Keys && after - {sid} == sessions - {sid}
            && (sid in sessions ==> after[sid] == sessions[sid].(closed := true))
  {
    if sid in sessions && sessions[sid].closed { assert sessions[sid] == sessions[sid].(closed := true); }
  }

  // ---------------------------------------------------------------------------
  // The manager itself
  // ---------------------------------------------------------------------------

  class ProfilingSessionManager {
    var sessions: Sessions

    constructor ()
      ensures sessions == map[]
    {
      sessions := map[];
    }

    method CreateSession(sid: string, kind: SessionKind, devices: seq<string>) returns (r: Result<Record>)
      modifies this
      ensures (sessions, r) == Create(old(sessions), sid, kind, devices)
    {
      if sid in sessions {
        return Broken;
      }
      var record := Record(kind, devices, map[], false);
      sessions := sessions[sid := record];
      r := Ok(record);
    }

    method CloseSession(sid: string) returns (closed: bool)
      modifies this
      ensures (sessions, closed) == Close(old(sessions), sid)
    {
      if sid !in sessions || sessions[sid].closed {
        return false;
      }
      sessions := sessions[sid := sessions[sid].(closed := true)];
      closed := true;
    }

    method Start(sid: string, cid: string) returns (r: Result<()>)
      modifies this
      ensures (sessions, r) == MarkRunning(old(sessions), sid, cid)
    {
      var open := RequireOpen(sessions, sid);
      if open.Refused? {
        return Refused(open.reason);
      }
      if Decided(open.value.cases, cid) {
        return Broken;
      }
      sessions := sessions[sid := open.value.(cases := open.value.cases[cid := Entry(RUNNING, None)])];
      r := Ok(());
    }

    method DecideCase(sid: string, cid: string, state: CaseState, outcome: Outcome) returns (r: Result<Entry>)
      modifies this
      ensures (sessions, r) == Decide(old(sessions), sid, cid, state, outcome)
    {
      if !Terminal(state) {
        return Broken;
      }
      var open := RequireOpen(sessions, sid);
      if open.Refused? {
        return Refused(open.reason);
      }
      if Decided(open.value.cases, cid) {
        return Broken;
      }
      var entry := Entry(state, Some(outcome));
      sessions := sessions[sid := open.value.(cases := open.value.cases[cid := entry])];
      r := Ok(entry);
    }

    method CancelCase(sid: string, cid: string) returns (r: Result<Entry>)
      modifies this
      ensures (sessions, r) == Cancel(old(sessions), sid, cid)
    {
      var open := RequireOpen(sessions, sid);
      if open.Refused? {
        return Refused(open.reason);
      }
      if Decided(open.value.cases, cid) {
        return Ok(open.value.cases[cid]);
      }
      sessions := sessions[sid := open.value.(cases := open.value.cases[cid := CANCELLED_ENTRY])];
      r := Ok(CANCELLED_ENTRY);
    }
  }
}
