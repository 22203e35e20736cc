/** When a queue row can be claimed, expires or is over, statement by statement, and how often the post-upload handler
    sends a session back. Times are in seconds. */
module SessionTimes {
  import opened Wrappers
  import opened OfficialRows
  import opened SigningSessions
  import C = CommonSigning

  /** From `start` on, and not before, a worker can claim the session. */
  ghost predicate ClaimableFrom(ss: Sessions, s: SessionId, start: Time) {
    forall t: Time :: Claimable(ss, s, t) <==> t >= start
  }

  /** The sweeper expires the pending session after `last`, and not before. */
  ghost predicate PendingUntil(session: Session, last: Time) {
    forall t: Time :: PendingExpired(session, session.schema, session.job, t) <==> t > last
  }

  /** The sweeper takes the processing session away after `last`, and not before. */
  ghost predicate ProcessingUntil(session: Session, last: Time) {
    forall t: Time :: ProcessingExpired(session, session.schema, session.job, t) <==> t > last
  }

  predicate OthersAlone(ss: Sessions, ss': Sessions, s: SessionId) {
    ss'.Keys == ss.Keys && forall o | o in ss && o != s :: ss'[o] == ss[o]
  }

  /** A claim gives the worker alone the session for ten minutes. */
  lemma ClaimGivesTenMinutes(ss: Sessions, s: SessionId, w: WorkerId, now: Time)
    requires Claimable(ss, s, now)
    ensures var ss' := Claim(ss, s, w, now);
            && OthersAlone(ss, ss', s) && Holds(ss', s, w) && ProcessingUntil(ss'[s], now + 600)
            && ss'[s].payload == ss[s].payload
            && (forall t :: !Claimable(ss', s, t)) && (forall v | v != w :: !CanMarkSigned(ss', s, v))
  {
  }

  /** A renewal gives ten more minutes to the holder, and nothing to anybody else. */
  lemma RenewalGivesTenMinutes(ss: Sessions, s: SessionId, w: WorkerId, now: Time)
    ensures if Holds(ss, s, w)
            then OthersAlone(ss, RenewClaim(ss, s, w, now), s) && Holds(RenewClaim(ss, s, w, now), s, w)
                 && ProcessingUntil(RenewClaim(ss, s, w, now)[s], now + 600)
                 && RenewClaim(ss, s, w, now)[s].payload == ss[s].payload
            else RenewClaim(ss, s, w, now) == ss
  {
  }

  /** An open breaker sends the session back for `retryAfter` seconds, with half an hour to be claimed. */
  lemma BreakerWaits(ss: Sessions, s: SessionId, retryAfter: nat, now: Time)
    requires InStatus(ss, s, Processing) && ss[s].job != Dts && retryAfter > 0
    ensures var ss' := RequeuePending(ss, s, retryAfter, now);
            && OthersAlone(ss, ss', s) && ClaimableFrom(ss', s, now + retryAfter) && PendingUntil(ss'[s], now + 1800)
            && ss'[s].claimedBy == None && ss'[s].payload == ss[s].payload
  {
  }

  /** An unreadable status sends it back likewise, counted in the payload, or fails it at the fifth attempt. */
  lemma GuardWaits(ss: Sessions, s: SessionId, claimed: Payload, retryAfter: nat, now: Time)
    requires InStatus(ss, s, Processing) && ss[s].job != Dts
    ensures var ss' := RequeueGuard(ss, s, claimed, retryAfter, now);
            && OthersAlone(ss, ss', s)
            && if claimed.guardAttempts >= 4 then ss'[s] == ss[s].(status := Failed)
               else
                 && ClaimableFrom(ss', s, now + retryAfter) && PendingUntil(ss'[s], now + 1800)
                 && ss'[s].claimedBy == None && ss'[s].payload == claimed.(guardAttempts := claimed.guardAttempts + 1)
  {
  }

  /** The sweeper sends an abandoned session back at once, with half an hour to be claimed; the next claim resumes the
      number exactly when it already resumed or the row is CONFIRMING now. */
  lemma AbandonedGoesBack(ss: Sessions, s: SessionId, rowConfirming: bool, now: Time)
    requires InStatus(ss, s, Processing) && ss[s].availableAt == None && ss[s].job != Dts
    ensures var ss' := RequeueExpired(ss, s, rowConfirming, now);
            && OthersAlone(ss, ss', s) && (forall t :: Claimable(ss', s, t)) && PendingUntil(ss'[s], now + 1800)
            && ss'[s].claimedBy == None
            && (ss'[s].payload.isConfirming <==> ss[s].payload.isConfirming || rowConfirming)
            && ss'[s].payload == ss[s].payload.(isConfirming := ss'[s].payload.isConfirming)
  {
  }

  /** A clean shutdown gives the session back at once, if the worker still holds it. */
  lemma ShutdownGivesBack(ss: Sessions, s: SessionId, w: WorkerId)
    ensures if Holds(ss, s, w) && ss[s].job != Dts
            then OthersAlone(ss, RequeueOnCancel(ss, s, w), s)
              && (forall t :: Claimable(RequeueOnCancel(ss, s, w), s, t))
                 && RequeueOnCancel(ss, s, w)[s].claimedBy == None
                 && RequeueOnCancel(ss, s, w)[s].payload == ss[s].payload
                 && PendingUntil(RequeueOnCancel(ss, s, w)[s], ss[s].expiresAt)
            else Holds(ss, s, w) || RequeueOnCancel(ss, s, w) == ss
  {
  }

  /** A session is closed as signed exactly when it is pending, or processing and not somebody else's. */
  lemma ClosesExactly(ss: Sessions, s: SessionId, w: WorkerId, number: Num)
    requires s in ss && Live(ss[s])
    ensures var ss' := MarkSigned(ss, s, w, number);
            && OthersAlone(ss, ss', s)
            && (InStatus(ss', s, Signed) <==> !exists v :: v != w && Holds(ss, s, v))
            && (ss' != ss ==> ss'[s].claimedBy == Some(w) && ss'[s].payload == ss[s].payload.(number := number))
  {
    if CanMarkSigned(ss, s, w) {
      assert forall v :: Holds(ss, s, v) ==> v == w;
    } else {
      assert Holds(ss, s, ss[s].claimedBy.value);
    }
  }

  // --- The post-upload handler ---

  /** The statements that touch a common session's row. */
  datatype Statement =
    | ClaimBy(w: WorkerId, now: Time)
    | RenewBy(w: WorkerId, now: Time)
    | CloseBy(w: WorkerId)
    | Fail
    | SweepPending(now: Time)
    | SweepProcessing(now: Time)
    | PostUpload(now: Time)

  function After(ss: Sessions, s: SessionId, st: Statement): (ss': Sessions)
    requires s in ss
    ensures s in ss'
  {
    match st
    case ClaimBy(w, now) => if Claimable(ss, s, now) then Claim(ss, s, w, now) else ss
    case RenewBy(w, now) => RenewClaim(ss, s, w, now)
    case CloseBy(w) => MarkSigned(ss, s, w, ss[s].payload.number)
    case Fail => MarkFailed(ss, s)
    case SweepPending(now) => ExpirePending(ss, ss[s].schema, ss[s].job, now)
    case SweepProcessing(now) =>
      if ProcessingExpired(ss[s], ss[s].schema, ss[s].job, now) then RequeueExpired(ss, s, false, now) else ss
    case PostUpload(now) => RequeuePostUpload(ss, s, now)
  }

  function AfterAll(ss: Sessions, s: SessionId, sts: seq<Statement>): (ss': Sessions)
    requires s in ss
    ensures s in ss'
  {
    if sts == [] then ss else After(AfterAll(ss, s, sts[..|sts| - 1]), s, sts[|sts| - 1])
  }

  /** How many post-upload failures there were. */
  function Calls(sts: seq<Statement>): nat {
    if sts == [] then 0 else Calls(sts[..|sts| - 1]) + (if sts[|sts| - 1].PostUpload? then 1 else 0)
  }

  /** How many of them put the session back in the queue. */
  function Requeues(ss: Sessions, s: SessionId, sts: seq<Statement>): nat
    requires s in ss
  {
    if sts == [] then 0
    else
      var before := AfterAll(ss, s, sts[..|sts| - 1]);
      var last := sts[|sts| - 1];
      Requeues(ss, s, sts[..|sts| - 1])
      + (if last.PostUpload? && before[s].status == Processing
        && After(before, s, last)[s].status == Pending then 1 else 0)
  }

  lemma {:induction false} CallsAreCounted(ss: Sessions, s: SessionId, sts: seq<Statement>)
    requires s in ss && ss[s].payload.updateRetries == 0
    ensures AfterAll(ss, s, sts)[s].payload.updateRetries == Calls(sts) && AfterAll(ss, s, sts)[s].job == ss[s].job
  {
    if sts != [] {
      CallsAreCounted(ss, s, sts[..|sts| - 1]);
    }
  }

  /** One failure after the upload, after any history of the session: it is counted; the first sends a session being
      processed back for 30 seconds and the second for 60, unclaimed and with half an hour to be claimed; from the
      third on it fails the session. A session that is no longer being processed keeps its status. */
  lemma PostUploadAnswers(ss: Sessions, s: SessionId, sts: seq<Statement>, now: Time)
    requires s in ss && ss[s].payload.updateRetries == 0 && ss[s].job != Dts
    ensures var before, k := AfterAll(ss, s, sts), Calls(sts) + 1;
            var after := RequeuePostUpload(before, s, now);
            && OthersAlone(before, after, s) && after[s].payload == before[s].payload.(updateRetries := k)
            && if before[s].status != Processing then
                 after[s].status == before[s].status && after[s].claimedBy == before[s].claimedBy
               else if k >= 3 then
                 after[s].status == Failed
               else
                 && after[s].status == Pending && after[s].claimedBy == None
                 && ClaimableFrom(after, s, now + 30 * k) && PendingUntil(after[s], now + 1800)
  {
    CallsAreCounted(ss, s, sts);
  }

  /** So however claims, renewals, closings and sweeps come in between, a session is requeued at most twice. */
  lemma {:induction false} RequeuedAtMostTwice(ss: Sessions, s: SessionId, sts: seq<Statement>)
    requires s in ss && ss[s].payload.updateRetries == 0 && ss[s].job != Dts
    ensures Requeues(ss, s, sts) <= 2 && Requeues(ss, s, sts) <= Calls(sts)
  {
    if sts != [] {
      var earlier, last := sts[..|sts| - 1], sts[|sts| - 1];
      RequeuedAtMostTwice(ss, s, earlier);
      if last.PostUpload? {
        PostUploadAnswers(ss, s, earlier, last.now);
      }
    }
  }

  /** The row of the common session that a queue row is. */
  predicate Matches(st: C.State, session: Session) {
    st.status == session.status && st.claimedBy == session.claimedBy && st.retries == session.payload.updateRetries
  }

  /** The two statements of the common session's handler, and the failing one behind them, do to its row what this
      table's method does. */
  lemma CommonHandlerMatches(st: C.State, w: WorkerId, ss: Sessions, s: SessionId, now: Time)
    requires w in st.jobs && st.jobs[w].pc.PostCount? && s in ss && Matches(st, ss[s])
    ensures var decided := C.DoWork(C.DoWork(st, w, C.Done), w, C.Done);
            Matches(if w in decided.jobs then C.DoWork(decided, w, C.Done)
              else decided, RequeuePostUpload(ss, s, now)[s])
  {
    var counted := C.Count(st, w, C.Done);
    assert C.DoWork(st, w, C.Done) == counted;
    var decided := C.Decide(counted, w, C.Done);
    assert C.DoWork(counted, w, C.Done) == decided;
    if st.retries + 1 >= POST_UPLOAD_MAX_RETRIES {
      assert decided == C.Goto(counted, w, C.MarkFailed);
      assert C.DoWork(decided, w, C.Done) == C.End(C.Failed(decided), w);
    }
  }
}
