/** The queue rows of `signing_sessions`: each function is one UPDATE statement of the worker or the sweeper. */
module SigningSessions {
  import opened Wrappers
  import opened OfficialRows

  type SessionId = nat
  type WorkerId = nat
  type Schema = nat

  const PENDING_TTL: Time := 30 * 60
  const PROCESSING_TTL: Time := 10 * 60
  const GUARD_MAX_ATTEMPTS: nat := 5
  const POST_UPLOAD_MAX_RETRIES: nat := 3

  datatype JobType = Sign | SignCommon | SignCitizen | DigitalComplete | Dts

  datatype SessionStatus = Pending | Processing | Signed | Failed | Expired

  /** The year and sequence of an official number. */
  datatype Num = Num(year: nat, sequence: nat)

  datatype Payload = Payload(number: Num, isConfirming: bool, autoheal: bool, guardAttempts: nat, updateRetries: nat)

  datatype Session = Session(
    schema: Schema,
    doc: DocId,
    ticket: Option<Ticket>,
    job: JobType,
    status: SessionStatus,
    claimedBy: Option<WorkerId>,
    expiresAt: Time,
    availableAt: Option<Time>,
    createdAt: Time,
    payload: Payload)

  type Sessions = map<SessionId, Session>

  predicate Live(session: Session) {
    session.status == Pending || session.status == Processing
  }

  predicate Terminal(session: Session) {
    !Live(session)
  }

  predicate InStatus(ss: Sessions, s: SessionId, status: SessionStatus) {
    s in ss && ss[s].status == status
  }

  /** The fence: the session is processing under this worker's claim. */
  predicate Holds(ss: Sessions, s: SessionId, w: WorkerId) {
    InStatus(ss, s, Processing) && ss[s].claimedBy == Some(w)
  }

  function Claim(ss: Sessions, s: SessionId, w: WorkerId, now: Time): Sessions
    requires s in ss
  {
    ss[s := ss[s].(status := Processing, claimedBy := Some(w), expiresAt := now + PROCESSING_TTL, availableAt := None)]
  }

  function RenewClaim(ss: Sessions, s: SessionId, w: WorkerId, now: Time): Sessions {
    if Holds(ss, s, w) then ss[s := ss[s].(expiresAt := now + PROCESSING_TTL)] else ss
  }

  /** Clean shutdown: the lease is given back, its expiry untouched. */
  function RequeueOnCancel(ss: Sessions, s: SessionId, w: WorkerId): Sessions {
    if Holds(ss, s, w) then ss[s := ss[s].(status := Pending, claimedBy := None, availableAt := None)] else ss
  }

  /** Back to the queue with a fresh pending lifetime; the claim's owner is not checked. */
  function Requeue(ss: Sessions, s: SessionId, payload: Payload, available: Option<Time>, now: Time): Sessions {
    if InStatus(ss, s, Processing) then
      ss[s := ss[s].(status := Pending, claimedBy := None, expiresAt := now + PENDING_TTL, availableAt := available,
        payload := payload)]
    else ss
  }

  function RequeuePending(ss: Sessions, s: SessionId, retryAfter: nat, now: Time): Sessions {
    if s in ss then Requeue(ss, s, ss[s].payload, if retryAfter > 0 then Some(now + retryAfter) else None, now) else ss
  }

  function MarkFailed(ss: Sessions, s: SessionId): Sessions {
    if InStatus(ss, s, Processing) then ss[s := ss[s].(status := Failed)] else ss
  }

  /** `_requeue_guard_unverifiable`: the counter comes from the payload the job was claimed with. */
  function RequeueGuard(ss: Sessions, s: SessionId, claimed: Payload, retryAfter: nat, now: Time): Sessions {
    if claimed.guardAttempts + 1 >= GUARD_MAX_ATTEMPTS then MarkFailed(ss, s)
    else Requeue(ss, s, claimed.(guardAttempts := claimed.guardAttempts + 1), Some(now + retryAfter), now)
  }

  /** `_requeue_or_fail_post_upload`: the counter is incremented in the row itself, whatever its status. */
  function RequeuePostUpload(ss: Sessions, s: SessionId, now: Time): Sessions {
    if s !in ss then ss
    else
      var n := ss[s].payload.updateRetries + 1;
      var counted := ss[s := ss[s].(payload := ss[s].payload.(updateRetries := n))];
      if n >= POST_UPLOAD_MAX_RETRIES then MarkFailed(counted, s)
      else Requeue(counted, s, counted[s].payload, Some(now + 30 * n), now)
  }

  /** `_mark_session_signed` takes a session that is pending, or processing under this worker or nobody. */
  predicate CanMarkSigned(ss: Sessions, s: SessionId, w: WorkerId) {
    s in ss && (ss[s].status == Pending
      || (ss[s].status == Processing && (ss[s].claimedBy == None || ss[s].claimedBy == Some(w))))
  }

  function MarkSigned(ss: Sessions, s: SessionId, w: WorkerId, number: Num): Sessions {
    if CanMarkSigned(ss, s, w) then
      ss[s := ss[s].(status := Signed, claimedBy := Some(w), payload := ss[s].payload.(number := number))]
    else ss
  }

  predicate PendingExpired(session: Session, schema: Schema, job: JobType, now: Time) {
    session.schema == schema && session.job == job && session.status == Pending && session.expiresAt < now
  }

  predicate ProcessingExpired(session: Session, schema: Schema, job: JobType, now: Time) {
    session.schema == schema && session.job == job && session.status == Processing && session.expiresAt < now
  }

  /** `_handle_pending_expired` and `_handle_common_pending_expired`: one statement over all matching rows. */
  function ExpirePending(ss: Sessions, schema: Schema, job: JobType, now: Time): Sessions {
    map s | s in ss :: if PendingExpired(ss[s], schema, job, now) then ss[s].(status := Expired) else ss[s]
  }

  /** The payload `_handle_processing_expired` writes back: the claimed one, flagged when the row is CONFIRMING. */
  function SweptPayload(payload: Payload, rowConfirming: bool): Payload {
    if rowConfirming then payload.(isConfirming := true) else payload
  }

  function RequeueExpired(ss: Sessions, s: SessionId, rowConfirming: bool, now: Time): Sessions
    requires s in ss
  {
    if ss[s].status == Processing then
      ss[s := ss[s].(status := Pending, claimedBy := None, expiresAt := now + PENDING_TTL,
                     payload := SweptPayload(ss[s].payload, rowConfirming))]
    else ss
  }

  // --- What every statement respects ---

  /** No session disappears, changes document or ticket, or comes back from a terminal status. */
  ghost predicate Forward(ss: Sessions, ss': Sessions) {
    forall s | s in ss ::
      && s in ss' && ss'[s].doc == ss[s].doc && ss'[s].ticket == ss[s].ticket
      && ss'[s].schema == ss[s].schema && ss'[s].job == ss[s].job && ss'[s].createdAt == ss[s].createdAt
      && (Terminal(ss[s]) ==> ss'[s].status == ss[s].status)
  }

  lemma RequeuesAreForward(ss: Sessions, s: SessionId, w: WorkerId, payload: Payload, n: nat, flag: bool, now: Time)
    ensures Forward(ss, RequeueOnCancel(ss, s, w)) && Forward(ss, RequeuePending(ss, s, n, now))
    ensures Forward(ss, RequeueGuard(ss, s, payload, n, now))
    ensures s in ss ==> Forward(ss, RequeueExpired(ss, s, flag, now))
  {
  }

  lemma PostUploadIsForward(ss: Sessions, s: SessionId, now: Time)
    ensures Forward(ss, RequeuePostUpload(ss, s, now))
  {
  }

  lemma ClosingsAreForward(ss: Sessions, s: SessionId, w: WorkerId, schema: Schema, job: JobType, number: Num,
      now: Time)
    ensures Forward(ss, MarkFailed(ss, s)) && Forward(ss, MarkSigned(ss, s, w, number))
    ensures Forward(ss, ExpirePending(ss, schema, job, now))
  {
  }

  lemma ClaimsAreForward(ss: Sessions, s: SessionId, w: WorkerId, now: Time)
    ensures Forward(ss, RenewClaim(ss, s, w, now))
    ensures InStatus(ss, s, Pending) ==> Forward(ss, Claim(ss, s, w, now))
  {
  }

  /** Marking a session signed never takes it from another worker's active claim. */
  lemma MarkSignedRespectsClaims(ss: Sessions, s: SessionId, w: WorkerId, other: WorkerId, number: Num)
    requires Holds(ss, s, other) && other != w
    ensures MarkSigned(ss, s, w, number) == ss
  {
  }

  // --- Fair claiming ---

  ghost function InFlightSet(ss: Sessions, schema: Schema): set<SessionId> {
    set s | s in ss && ss[s].status == Processing && ss[s].schema == schema
  }

  ghost function InFlight(ss: Sessions, schema: Schema): nat {
    |InFlightSet(ss, schema)|
  }

  predicate Claimable(ss: Sessions, s: SessionId, now: Time) {
    && InStatus(ss, s, Pending)
    && ss[s].job != Dts
    && (ss[s].availableAt.None? || ss[s].availableAt.value <= now)
  }

  /** ORDER BY en_vuelo, created_at FOR UPDATE SKIP LOCKED LIMIT 1: the first of the jobs nobody else holds. */
  ghost predicate ClaimAnswer(ss: Sessions, held: set<SessionId>, s: SessionId, now: Time) {
    && Claimable(ss, s, now) && s !in held
    && forall o | Claimable(ss, o, now) && o !in held ::
         || InFlight(ss, ss[s].schema) < InFlight(ss, ss[o].schema)
         || (InFlight(ss, ss[s].schema) == InFlight(ss, ss[o].schema) && ss[s].createdAt <= ss[o].createdAt)
  }

  /** The answer when nobody else is claiming. */
  ghost predicate ClaimChoice(ss: Sessions, s: SessionId, now: Time) {
    ClaimAnswer(ss, {}, s, now)
  }

  /** The successive queues of a batch: every claim is the query's choice at that moment. */
  ghost predicate ClaimTrace(queues: seq<Sessions>, jobs: seq<SessionId>, w: WorkerId, now: Time) {
    && |queues| == |jobs| + 1
    && forall k | 0 <= k < |jobs| :: ClaimedNext(queues[k], jobs[k], w, now, queues[k + 1])
  }

  ghost predicate ClaimedNext(ss: Sessions, s: SessionId, w: WorkerId, now: Time, ss': Sessions) {
    ClaimChoice(ss, s, now) && ss' == Claim(ss, s, w, now)
  }

  lemma ClaimCounts(ss: Sessions, s: SessionId, w: WorkerId, now: Time, schema: Schema)
    requires InStatus(ss, s, Pending)
    ensures InFlight(Claim(ss, s, w, now), schema) == InFlight(ss, schema) + (if ss[s].schema == schema then 1 else 0)
    ensures forall o :: Claimable(Claim(ss, s, w, now), o, now) <==> Claimable(ss, o, now) && o != s
  {
    var ss' := Claim(ss, s, w, now);
    if ss[s].schema == schema {
      assert InFlightSet(ss', schema) == InFlightSet(ss, schema) + {s};
    } else {
      assert InFlightSet(ss', schema) == InFlightSet(ss, schema);
    }
  }

  /** Some job of the tenant is among those claimed. */
  predicate Served(queue: Sessions, jobs: seq<SessionId>, schema: Schema) {
    exists k | 0 <= k < |jobs| :: jobs[k] in queue && queue[jobs[k]].schema == schema
  }

  ghost predicate Waiting(ss: Sessions, schema: Schema, now: Time) {
    exists o :: Claimable(ss, o, now) && ss[o].schema == schema
  }

  /** Along a batch sessions keep schema and creation time, and only leave the claimable set. */
  lemma {:induction false} BatchShrinksQueue(queues: seq<Sessions>, jobs: seq<SessionId>, w: WorkerId, now: Time,
      i: nat, j: nat)
    requires ClaimTrace(queues, jobs, w, now) && i <= j < |queues|
    ensures queues[j].Keys == queues[i].Keys
    ensures forall s | s in queues[i] ::
        queues[j][s].schema == queues[i][s].schema && queues[j][s].createdAt == queues[i][s].createdAt
    ensures forall o | Claimable(queues[j], o, now) :: Claimable(queues[i], o, now)
    decreases j
  {
    if i < j {
      BatchShrinksQueue(queues, jobs, w, now, i, j - 1);
      assert ClaimedNext(queues[j - 1], jobs[j - 1], w, now, queues[j]);
    }
  }

  /** One claim: the tenant served, if it is a, is no more loaded than the waiting b. */
  lemma ClaimIsFair(ss: Sessions, s: SessionId, w: WorkerId, now: Time, a: Schema, b: Schema)
    requires ClaimChoice(ss, s, now) && Waiting(Claim(ss, s, w, now), b, now)
    ensures Waiting(ss, b, now)
    ensures ss[s].schema == a ==> InFlight(Claim(ss, s, w, now), a) <= InFlight(Claim(ss, s, w, now), b) + 1
    ensures ss[s].schema != a ==> InFlight(Claim(ss, s, w, now), a) == InFlight(ss, a)
    ensures InFlight(Claim(ss, s, w, now), b) >= InFlight(ss, b)
  {
    ClaimCounts(ss, s, w, now, a);
    ClaimCounts(ss, s, w, now, b);
    var o :| Claimable(Claim(ss, s, w, now), o, now) && Claim(ss, s, w, now)[o].schema == b;
    assert Claimable(ss, o, now) && ss[o].schema == b;
  }

  /** Max-min fairness: a tenant that was served ends with at most one more job in flight than any
      tenant that still has a claimable job. */
  lemma {:induction false} BatchIsFair(queues: seq<Sessions>, jobs: seq<SessionId>, w: WorkerId, now: Time,
      a: Schema, b: Schema)
    requires ClaimTrace(queues, jobs, w, now)
    requires Served(queues[0], jobs, a) && Waiting(queues[|jobs|], b, now)
    ensures InFlight(queues[|jobs|], a) <= InFlight(queues[|jobs|], b) + 1
    decreases |jobs|
  {
    var n := |jobs| - 1;
    var mid, last := queues[n], jobs[n];
    assert ClaimedNext(mid, last, w, now, queues[n + 1]);
    BatchShrinksQueue(queues, jobs, w, now, 0, n);
    ClaimIsFair(mid, last, w, now, a, b);
    if mid[last].schema != a {
      var k :| 0 <= k < |jobs| && jobs[k] in queues[0] && queues[0][jobs[k]].schema == a;
      assert k < n && jobs[..n][k] == jobs[k];
      assert ClaimTrace(queues[..n + 1], jobs[..n], w, now);
      BatchIsFair(queues[..n + 1], jobs[..n], w, now, a, b);
    }
  }

  /** Within a tenant claims follow creation order, and no claimed job is younger than one left waiting. */
  lemma BatchIsOrdered(queues: seq<Sessions>, jobs: seq<SessionId>, w: WorkerId, now: Time, i: nat, j: nat,
      o: SessionId)
    requires ClaimTrace(queues, jobs, w, now) && i < |jobs| && i <= j <= |jobs|
    requires o in queues[0] && jobs[i] in queues[0] && queues[0][o].schema == queues[0][jobs[i]].schema
    requires if j < |jobs| then jobs[j] == o else Claimable(queues[j], o, now)
    ensures queues[0][jobs[i]].createdAt <= queues[0][o].createdAt
  {
    BatchShrinksQueue(queues, jobs, w, now, 0, i);
    BatchShrinksQueue(queues, jobs, w, now, i, j);
    assert ClaimedNext(queues[i], jobs[i], w, now, queues[i + 1]);
    if j < |jobs| {
      assert ClaimedNext(queues[j], jobs[j], w, now, queues[j + 1]);
    }
    assert Claimable(queues[i], o, now);
  }

  // --- The table ---

  class SessionTable {
    var sessions: Sessions

    constructor ()
      ensures sessions == map[]
    {
      sessions := map[];
    }

    method CountInFlight(schema: Schema) returns (n: nat)
      ensures n == InFlight(sessions, schema)
    {
      n := 0;
      var rest := sessions.Keys;
      ghost var seen: set<SessionId> := {};
      while rest != {}
        invariant rest <= sessions.Keys && rest !! seen
        invariant seen <= InFlightSet(sessions, schema) && n == |seen|
        invariant forall s | s in InFlightSet(sessions, schema) :: s in rest || s in seen
        decreases rest
      {
        var s :| s in rest;
        rest := rest - {s};
        if sessions[s].status == Processing && sessions[s].schema == schema {
          n := n + 1;
          seen := seen + {s};
        }
      }
      assert seen == InFlightSet(sessions, schema);
    }

    /** The least loaded tenant's oldest claimable job, among those other claimers do not hold. */
    method ClaimOne(w: WorkerId, now: Time, held: set<SessionId>) returns (job: Option<SessionId>)
      modifies this
      ensures job.Some? ==>
          ClaimAnswer(old(sessions), held, job.value, now) && sessions == Claim(old(sessions), job.value, w, now)
      ensures job.None? ==> sessions == old(sessions) && forall o | Claimable(sessions, o, now) :: o in held
    {
      job := None;
      var least := 0;
      var rest := sessions.Keys;
      while rest != {}
        invariant rest <= sessions.Keys && sessions == old(sessions)
        invariant job.Some? ==>
            Claimable(sessions, job.value, now) && job.value !in held
            && least == InFlight(sessions, sessions[job.value].schema)
        invariant forall o | o in sessions && o !in rest && Claimable(sessions, o, now) && o !in held ::
          && job.Some?
          && (least < InFlight(sessions, sessions[o].schema)
              || (least == InFlight(sessions, sessions[o].schema)
                 && sessions[job.value].createdAt <= sessions[o].createdAt))
        decreases rest
      {
        var s :| s in rest;
        rest := rest - {s};
        if Claimable(sessions, s, now) && s !in held {
          var n := CountInFlight(sessions[s].schema);
          if job.None? || n < least || (n == least && sessions[s].createdAt < sessions[job.value].createdAt) {
            job, least := Some(s), n;
          }
        }
      }
      if job.Some? {
        sessions := Claim(sessions, job.value, w, now);
      }
    }

    /** Nobody else claims meanwhile. */
    method ClaimBatch(w: WorkerId, max: nat, now: Time) returns (jobs: seq<SessionId>, ghost queues: seq<Sessions>)
      modifies this
      ensures ClaimTrace(queues, jobs, w, now) && queues[0] == old(sessions) && queues[|jobs|] == sessions
      ensures |jobs| <= max && (|jobs| < max ==> forall o :: !Claimable(sessions, o, now))
    {
      jobs, queues := [], [sessions];
      while |jobs| < max
        invariant |jobs| <= max
        invariant ClaimTrace(queues, jobs, w, now) && queues[0] == old(sessions) && queues[|jobs|] == sessions
      {
        var job := ClaimOne(w, now, {});
        if job.None? {
          break;
        }
        assert ClaimedNext(queues[|jobs|], job.value, w, now, sessions);
        jobs, queues := jobs + [job.value], queues + [sessions];
      }
    }

    method Renew(s: SessionId, w: WorkerId, now: Time) returns (ok: bool)
      modifies this
      ensures ok == Holds(old(sessions), s, w) && sessions == RenewClaim(old(sessions), s, w, now)
    {
      ok := Holds(sessions, s, w);
      if ok {
        sessions := sessions[s := sessions[s].(expiresAt := now + PROCESSING_TTL)];
      }
    }

    /** The strict compare-and-set first, the recovery statement only when it matched no row. */
    method MarkSessionSigned(s: SessionId, w: WorkerId, number: Num)
      modifies this
      ensures sessions == MarkSigned(old(sessions), s, w, number)
    {
      if Holds(sessions, s, w) {
        sessions := sessions[s := sessions[s].(status := Signed, payload := sessions[s].payload.(number := number))];
      } else if s in sessions && (sessions[s].status == Pending
        || (sessions[s].status == Processing && sessions[s].claimedBy == None)) {
        sessions := sessions[s := sessions[s].(status := Signed, claimedBy := Some(w),
          payload := sessions[s].payload.(number := number))];
      }
    }

    method MarkSessionFailed(s: SessionId)
      modifies this
      ensures sessions == MarkFailed(old(sessions), s)
    {
      if s in sessions && sessions[s].status == Processing {
        sessions := sessions[s := sessions[s].(status := Failed)];
      }
    }

    method RequeueOrFailPostUpload(s: SessionId, now: Time)
      modifies this
      ensures sessions == RequeuePostUpload(old(sessions), s, now)
    {
      if s !in sessions {
        return;
      }
      var n := sessions[s].payload.updateRetries + 1;
      sessions := sessions[s := sessions[s].(payload := sessions[s].payload.(updateRetries := n))];
      if n >= POST_UPLOAD_MAX_RETRIES {
        MarkSessionFailed(s);
        return;
      }
      if sessions[s].status == Processing {
        sessions := sessions[s := sessions[s].(status := Pending, claimedBy := None, expiresAt := now + PENDING_TTL,
                                               availableAt := Some(now + 30 * n))];
      }
    }

    method RequeueGuardUnverifiable(s: SessionId, claimed: Payload, retryAfter: nat, now: Time)
      modifies this
      ensures sessions == RequeueGuard(old(sessions), s, claimed, retryAfter, now)
    {
      var attempts := claimed.guardAttempts + 1;
      if attempts >= GUARD_MAX_ATTEMPTS {
        MarkSessionFailed(s);
        return;
      }
      if s in sessions && sessions[s].status == Processing {
        sessions := sessions[s := sessions[s].(status := Pending, claimedBy := None, expiresAt := now + PENDING_TTL,
                                               availableAt := Some(now + retryAfter),
                                                 payload := claimed.(guardAttempts := attempts))];
      }
    }

    /** `_handle_processing_expired`: the selected rows are requeued one by one, each flagged by a fresh
        reading of its document's row. */
    method HandleProcessingExpired(schema: Schema, docs: Docs, now: Time)
      modifies this
      ensures sessions.Keys == old(sessions).Keys
      ensures forall s | s in sessions ::
        sessions[s] == if ProcessingExpired(old(sessions)[s], schema, Sign, now)
                       then RequeueExpired(old(sessions), s, RowConfirming(docs, old(sessions)[s].doc), now)[s]
                       else old(sessions)[s]
    {
      ghost var before := sessions;
      var rows := set s | s in sessions && ProcessingExpired(sessions[s], schema, Sign, now);
      while rows != {}
        invariant rows <= sessions.Keys && sessions.Keys == before.Keys
        invariant forall s | s in rows :: ProcessingExpired(before[s], schema, Sign, now) && sessions[s] == before[s]
        invariant forall s | s in before && s !in rows ::
          sessions[s] == if ProcessingExpired(before[s], schema, Sign, now)
                         then RequeueExpired(before, s, RowConfirming(docs, before[s].doc), now)[s]
                         else before[s]
        decreases rows
      {
        var s :| s in rows;
        rows := rows - {s};
        var payload := sessions[s].payload;
        if RowConfirming(docs, sessions[s].doc) {
          payload := payload.(isConfirming := true);
        }
        if sessions[s].status == Processing {
          sessions := sessions[s := sessions[s].(status := Pending, claimedBy := None,
            expiresAt := now + PENDING_TTL, payload := payload)];
        }
      }
    }
  }

  predicate RowConfirming(docs: Docs, d: DocId) {
    d in docs && docs[d].status == Confirming
  }
}
