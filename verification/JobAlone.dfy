/** What a numerator job does when it runs by itself, its calls succeeding and its claim held, from the claim to the
    end: the exact row, PDF, draft and session it leaves. Then what a failing call leaves, and when the session is
    handed back. */
module JobAlone {
  import opened Wrappers
  import opened OfficialRows
  import opened SigningSessions
  import opened SigningProtocol
  import opened SigningSafety
  import T = SessionTimes

  /** The job's next step when its call succeeds. */
  function OwnStep(st: State, w: WorkerId): Step
    requires w in st.tasks
  {
    match st.tasks[w].pc
    case Start => Begin(w)
    case CheckReservation => ReadReservation(w, true)
    case Prepare => PrepareAndSign(w, SignedPdf)
    case ConfirmNumber => ConfirmCas(w, Done)
    case StaleCheck => ReadStale(w, true)
    case Fence => FenceAndUpload(w, Done)
    case Uploaded => FinalizeCas(w, Done)
    case MarkDocument => MarkDocumentSigned(w, Done)
    case MarkSession => MarkSessionSigned(w, Done)
    case RejectedRead => ReadRejected(w, true)
    case RejectedDelete => DeleteOfficial(w, Done)
    case FailureRead => ReadFailure(w, true)
    case SupersededMark => MarkSuperseded(w, Done)
    case FailureCancel => CancelReservation(w, Done)
    case FailureMark => MarkJobFailed(w)
  }

  lemma OwnStepIsEnabled(st: State, w: WorkerId, now: Time)
    requires w in st.tasks
    ensures Enabled(st, OwnStep(st, w), now) && IsJobStep(OwnStep(st, w))
  {
  }

  /** k of the job's own steps, one after the other. */
  ghost function Alone(st: State, w: WorkerId, now: Time, k: nat): State
    decreases k
  {
    if k == 0 || w !in st.tasks then st
    else
      OwnStepIsEnabled(st, w, now);
      Alone(ApplyJob(st, OwnStep(st, w), now), w, now, k - 1)
  }

  ghost predicate AloneEnds(st: State, w: WorkerId, now: Time, st': State) {
    w !in st'.tasks && exists k: nat :: Alone(st, w, now, k) == st'
  }

  lemma AfterOwnStep(st: State, w: WorkerId, now: Time, next: State, st': State)
    requires w in st.tasks && AloneEnds(next, w, now, st')
    requires Enabled(st, OwnStep(st, w), now) && IsJobStep(OwnStep(st, w)) && next == ApplyJob(st, OwnStep(st, w), now)
    ensures AloneEnds(st, w, now, st')
  {
    var k: nat :| Alone(next, w, now, k) == st';
    assert Alone(st, w, now, k + 1) == st';
  }

  /** Everything the job leaves behind. */
  predicate Leaves(st: State, w: WorkerId, st': State, docs: Docs, store: map<Num, Ticket>,
      drafts: map<DocId, DraftStatus>, status: SessionStatus)
    requires w in st.tasks
  {
    var s := st.tasks[w].session;
    && st'.num == st.num.(docs := docs) && st'.store == store && st'.drafts == drafts
    && st'.tasks == st.tasks - {w} && st'.workersUsed == st.workersUsed && st'.digital == st.digital
    && st'.sessions.Keys == st.sessions.Keys && InStatus(st'.sessions, s, status)
    && forall o | o in st.sessions && o != s :: st'.sessions[o] == st.sessions[o]
  }

  predicate Claims(st: State, w: WorkerId) {
    w in st.tasks && Holds(st.sessions, st.tasks[w].session, w)
  }

  predicate Waiting(st: State, w: WorkerId)
    requires w in st.tasks
  {
    DraftIs(st, st.tasks[w].job.doc, SentToSign)
  }

  lemma FromMarkSession(st: State, w: WorkerId, now: Time) returns (st': State)
    requires Claims(st, w) && AtPc(st, w, MarkSession)
    ensures AloneEnds(st, w, now, st') && Leaves(st, w, st', st.num.docs, st.store, st.drafts, Signed)
  {
    st' := DoMarkSession(st, w, Done);
    assert Alone(st', w, now, 0) == st';
    AfterOwnStep(st, w, now, st', st');
  }

  lemma FromFailureMark(st: State, w: WorkerId, now: Time) returns (st': State)
    requires Claims(st, w) && AtPc(st, w, FailureMark)
    ensures AloneEnds(st, w, now, st') && Leaves(st, w, st', st.num.docs, st.store, st.drafts, Failed)
  {
    st' := DoFail(st, w);
    assert Alone(st', w, now, 0) == st';
    AfterOwnStep(st, w, now, st', st');
  }

  lemma FromRejectedRead(st: State, w: WorkerId, now: Time) returns (st': State)
    requires Claims(st, w) && AtPc(st, w, RejectedRead) && DocConfirmed(st.num.docs, st.tasks[w].job.doc)
    ensures AloneEnds(st, w, now, st') && Leaves(st, w, st', st.num.docs, st.store, st.drafts, Failed)
  {
    var next := DoReadRejected(st, w, true);
    st' := FromFailureMark(next, w, now);
    AfterOwnStep(st, w, now, next, st');
  }

  function DraftsAfter(st: State, w: WorkerId): map<DocId, DraftStatus>
    requires w in st.tasks
  {
    if Waiting(st, w) then st.drafts[st.tasks[w].job.doc := DraftSigned] else st.drafts
  }

  lemma FromMarkDocument(st: State, w: WorkerId, now: Time) returns (st': State)
    requires Claims(st, w) && AtPc(st, w, MarkDocument) && DocConfirmed(st.num.docs, st.tasks[w].job.doc)
    ensures AloneEnds(st, w, now, st')
    ensures Leaves(st, w, st', st.num.docs, st.store, DraftsAfter(st, w), if Waiting(st, w) then Signed else Failed)
  {
    var next := DoMarkDocument(st, w, Done);
    if Waiting(st, w) {
      st' := FromMarkSession(next, w, now);
    } else {
      st' := FromRejectedRead(next, w, now);
    }
    AfterOwnStep(st, w, now, next, st');
  }

  /** The job's number is CONFIRMING under its ticket, and is a GLOBAL one. */
  predicate Confirmable(st: State, w: WorkerId) {
    && w in st.tasks && HoldsTicket(st.num.docs, st.tasks[w].job.doc, TicketOf(st.tasks[w]))
    && st.num.docs[st.tasks[w].job.doc].status == Confirming && st.num.docs[st.tasks[w].job.doc].regime == Global
  }

  function DocsAfter(st: State, w: WorkerId, now: Time): Docs
    requires w in st.tasks && HoldsTicket(st.num.docs, st.tasks[w].job.doc, TicketOf(st.tasks[w]))
  {
    var d := st.tasks[w].job.doc;
    st.num.docs[d := st.num.docs[d].(status := Confirmed, updatedAt := now)]
  }

  lemma FromUploaded(st: State, w: WorkerId, now: Time) returns (st': State)
    requires Claims(st, w) && AtPc(st, w, Uploaded) && Confirmable(st, w)
    ensures AloneEnds(st, w, now, st')
    ensures Leaves(st, w, st', DocsAfter(st, w, now), st.store, DraftsAfter(st, w),
        if Waiting(st, w) then Signed else Failed)
  {
    var next := DoFinalizeCas(st, w, Done, now);
    assert next.num == st.num.(docs := DocsAfter(st, w, now));
    st' := FromMarkDocument(next, w, now);
    AfterOwnStep(st, w, now, next, st');
  }

  lemma FromFence(st: State, w: WorkerId, now: Time) returns (st': State)
    requires Claims(st, w) && AtPc(st, w, Fence) && Confirmable(st, w)
    ensures AloneEnds(st, w, now, st')
    ensures Leaves(st, w, st', DocsAfter(st, w, now), StoreAfter(st, w), DraftsAfter(st, w),
        if Waiting(st, w) then Signed else Failed)
  {
    var next := DoFenceAndUpload(st, w, Done);
    st' := FromUploaded(next, w, now);
    AfterOwnStep(st, w, now, next, st');
  }

  function StoreAfter(st: State, w: WorkerId): map<Num, Ticket>
    requires w in st.tasks
  {
    st.store[st.tasks[w].job.payload.number := TicketOf(st.tasks[w])]
  }

  lemma FromStaleCheck(st: State, w: WorkerId, now: Time) returns (st': State)
    requires Claims(st, w) && AtPc(st, w, StaleCheck) && !DocConfirmed(st.num.docs, st.tasks[w].job.doc)
    requires forall d | d in st.num.docs :: st.num.docs[d].regime == Global
    ensures AloneEnds(st, w, now, st')
    ensures if Confirmable(st, w)
            then Leaves(st, w, st', DocsAfter(st, w, now), StoreAfter(st, w), DraftsAfter(st, w),
                if Waiting(st, w) then Signed else Failed)
            else Leaves(st, w, st', st.num.docs, st.store, st.drafts, Failed)
  {
    var next := DoReadStale(st, w, true, now);
    if Confirmable(st, w) {
      st' := FromFence(next, w, now);
    } else {
      st' := next;
      assert Alone(st', w, now, 0) == st';
    }
    AfterOwnStep(st, w, now, next, st');
  }

  /** A confirm that finds no RESERVED row under the ticket: a number already CONFIRMING under it is completed, one
      already CONFIRMED under it only has its document and session marked, anything else fails the session. */
  lemma StaleTicketEnds(st: State, w: WorkerId, now: Time) returns (st': State)
    requires Inv(st) && Claims(st, w) && AtPc(st, w, StaleCheck)
    ensures AloneEnds(st, w, now, st')
    ensures var status := if Waiting(st, w) then Signed else Failed;
            if Confirmable(st, w)
            then Leaves(st, w, st', DocsAfter(st, w, now), StoreAfter(st, w), DraftsAfter(st, w), status)
            else if HoldsTicket(st.num.docs, st.tasks[w].job.doc, TicketOf(st.tasks[w]))
                    && DocConfirmed(st.num.docs, st.tasks[w].job.doc)
            then Leaves(st, w, st', st.num.docs, st.store, DraftsAfter(st, w), status)
            else Leaves(st, w, st', st.num.docs, st.store, st.drafts, Failed)
  {
    if !DocConfirmed(st.num.docs, st.tasks[w].job.doc) {
      st' := FromStaleCheck(st, w, now);
    } else {
      st' := StaleOfConfirmed(st, w, now);
    }
  }

  lemma StaleOfConfirmed(st: State, w: WorkerId, now: Time) returns (st': State)
    requires Claims(st, w) && AtPc(st, w, StaleCheck) && DocConfirmed(st.num.docs, st.tasks[w].job.doc)
    ensures AloneEnds(st, w, now, st')
    ensures if HoldsTicket(st.num.docs, st.tasks[w].job.doc, TicketOf(st.tasks[w]))
            then Leaves(st, w, st', st.num.docs, st.store, DraftsAfter(st, w), if Waiting(st, w) then Signed
              else Failed)
            else Leaves(st, w, st', st.num.docs, st.store, st.drafts, Failed)
  {
    var next := DoReadStale(st, w, true, now);
    if HoldsTicket(st.num.docs, st.tasks[w].job.doc, TicketOf(st.tasks[w])) {
      st' := FromMarkDocument(next, w, now);
    } else {
      st' := next;
      assert Alone(st', w, now, 0) == st';
    }
    AfterOwnStep(st, w, now, next, st');
  }

  /** The number is under the job's ticket, RESERVED or already CONFIRMING. */
  predicate Ready(st: State, w: WorkerId) {
    && w in st.tasks && HoldsTicket(st.num.docs, st.tasks[w].job.doc, TicketOf(st.tasks[w]))
    && st.num.docs[st.tasks[w].job.doc].status in {Reserved, Confirming}
  }

  lemma FromConfirmNumber(st: State, w: WorkerId, now: Time) returns (st': State)
    requires Claims(st, w) && AtPc(st, w, ConfirmNumber) && !DocConfirmed(st.num.docs, st.tasks[w].job.doc)
    requires forall d | d in st.num.docs :: st.num.docs[d].regime == Global
    ensures AloneEnds(st, w, now, st')
    ensures if Ready(st, w)
            then Leaves(st, w, st', DocsAfter(st, w, now), StoreAfter(st, w), DraftsAfter(st, w),
                if Waiting(st, w) then Signed else Failed)
            else Leaves(st, w, st', st.num.docs, st.store, st.drafts, Failed)
  {
    var d, t := st.tasks[w].job.doc, TicketOf(st.tasks[w]);
    var next := DoConfirmCas(st, w, Done, now);
    if CanConfirm(st.num.docs, d, t) {
      assert next.num == st.num.(docs := st.num.docs[d := st.num.docs[d].(status := Confirming, updatedAt := now)]);
      st' := FromFence(next, w, now);
      assert DocsAfter(next, w, now) == DocsAfter(st, w, now);
    } else {
      assert next == Goto(st, w, StaleCheck);
      st' := FromStaleCheck(next, w, now);
    }
    AfterOwnStep(st, w, now, next, st');
  }

  lemma FromPrepare(st: State, w: WorkerId, now: Time) returns (st': State)
    requires Claims(st, w) && AtPc(st, w, Prepare) && !DocConfirmed(st.num.docs, st.tasks[w].job.doc)
    requires forall d | d in st.num.docs :: st.num.docs[d].regime == Global
    requires st.tasks[w].resume ==> Confirmable(st, w)
    ensures AloneEnds(st, w, now, st')
    ensures if Ready(st, w)
            then Leaves(st, w, st', DocsAfter(st, w, now), StoreAfter(st, w), DraftsAfter(st, w),
                if Waiting(st, w) then Signed else Failed)
            else Leaves(st, w, st', st.num.docs, st.store, st.drafts, Failed)
  {
    var next := DoPrepareAndSign(st, w, SignedPdf, now);
    if st.tasks[w].resume {
      st' := FromFence(next, w, now);
    } else {
      st' := FromConfirmNumber(next, w, now);
    }
    AfterOwnStep(st, w, now, next, st');
  }

  lemma FromCheck(st: State, w: WorkerId, now: Time) returns (st': State)
    requires Claims(st, w) && AtPc(st, w, CheckReservation)
    requires forall d | d in st.num.docs :: st.num.docs[d].regime == Global
    requires st.tasks[w].resume ==> Confirmable(st, w) || DocConfirmed(st.num.docs, st.tasks[w].job.doc)
    ensures AloneEnds(st, w, now, st') && Outcome(st, w, st', now)
  {
    var next := DoReadReservation(st, w, true, now);
    if DocConfirmed(st.num.docs, st.tasks[w].job.doc) {
      st' := FromMarkDocument(next, w, now);
    } else {
      st' := FromPrepare(next, w, now);
    }
    AfterOwnStep(st, w, now, next, st');
  }

  /** A CONFIRMED number stays as it is; a number under the job's ticket becomes CONFIRMED, with the PDF stored under
      it; either way the waiting draft is signed, and the session too, and a draft that does not wait fails the session.
      Any other number is left alone and the session fails. */
  predicate Outcome(st: State, w: WorkerId, st': State, now: Time)
    requires w in st.tasks
  {
    var status := if Waiting(st, w) then Signed else Failed;
    if DocConfirmed(st.num.docs, st.tasks[w].job.doc)
    then Leaves(st, w, st', st.num.docs, st.store, DraftsAfter(st, w), status)
    else if Ready(st, w) then Leaves(st, w, st', DocsAfter(st, w, now), StoreAfter(st, w), DraftsAfter(st, w), status)
    else Leaves(st, w, st', st.num.docs, st.store, st.drafts, Failed)
  }

  /** How a job starts: under the claim, with the row as it was claimed, resuming exactly when the row says so. */
  lemma ClaimStartsTheJob(st: State, s: SessionId, w: WorkerId, now: Time)
    requires Enabled(st, ClaimJob(s, w), now)
    ensures var st' := Apply(st, ClaimJob(s, w), now);
            && Claims(st', w) && AtPc(st', w, Start) && st'.tasks[w].session == s
            && st'.tasks[w].job == st'.sessions[s] && st'.sessions[s].payload == st.sessions[s].payload
            && (st'.tasks[w].resume <==> st.sessions[s].payload.isConfirming)
            && st'.tasks == st.tasks[w := st'.tasks[w]] && st'.sessions == st.sessions[s := st'.sessions[s]]
            && st'.num == st.num && st'.store == st.store && st'.drafts == st.drafts
  {
    assert Apply(st, ClaimJob(s, w), now) == DoClaim(st, s, w, now);
  }

  lemma StartFacts(st: State, w: WorkerId)
    requires Inv(st) && AtPc(st, w, Start)
    ensures forall d | d in st.num.docs :: st.num.docs[d].regime == Global
    ensures st.tasks[w].job.payload.autoheal ==> DocConfirmed(st.num.docs, st.tasks[w].job.doc)
    ensures st.tasks[w].resume ==> Confirmable(st, w) || DocConfirmed(st.num.docs, st.tasks[w].job.doc)
  {
    assert TaskOk(st, st.tasks[w]);
  }

  /** A job just claimed, left to itself, ends with exactly this outcome. */
  lemma JobRunsToItsEnd(st: State, w: WorkerId, now: Time) returns (st': State)
    requires Inv(st) && Claims(st, w) && AtPc(st, w, Start)
    ensures AloneEnds(st, w, now, st') && Outcome(st, w, st', now)
  {
    StartFacts(st, w);
    st' := FromStart(st, w, now);
  }

  lemma FromStart(st: State, w: WorkerId, now: Time) returns (st': State)
    requires Claims(st, w) && AtPc(st, w, Start)
    requires forall d | d in st.num.docs :: st.num.docs[d].regime == Global
    requires st.tasks[w].job.payload.autoheal ==> DocConfirmed(st.num.docs, st.tasks[w].job.doc)
    requires st.tasks[w].resume ==> Confirmable(st, w) || DocConfirmed(st.num.docs, st.tasks[w].job.doc)
    ensures AloneEnds(st, w, now, st') && Outcome(st, w, st', now)
  {
    var next := DoBegin(st, w);
    if st.tasks[w].job.payload.autoheal {
      st' := FromMarkDocument(next, w, now);
    } else {
      st' := FromCheck(next, w, now);
    }
    AfterOwnStep(st, w, now, next, st');
  }

  // --- Calls that fail ---

  predicate IsCall(step: Step) {
    step.ConfirmCas? || step.FenceAndUpload? || step.FinalizeCas? || step.MarkDocumentSigned? || step.MarkSessionSigned?
  }

  /** The same call with another end. */
  function With(step: Step, effect: Effect): Step
    requires IsCall(step)
  {
    match step
    case ConfirmCas(w, _) => ConfirmCas(w, effect)
    case FenceAndUpload(w, _) => FenceAndUpload(w, effect)
    case FinalizeCas(w, _) => FinalizeCas(w, effect)
    case MarkDocumentSigned(w, _) => MarkDocumentSigned(w, effect)
    case MarkSessionSigned(w, _) => MarkSessionSigned(w, effect)
  }

  predicate SameTables(st: State, st': State) {
    st'.num == st.num && st'.drafts == st.drafts && st'.sessions == st.sessions && st'.store == st.store
  }

  /** A call that fails without effect changes no table and one that fails after it changes what a successful one
      changes; the job goes to its failure handler, unless the fence has ended it or the draft was not waiting. */
  lemma FailedCallsGoToTheHandler(st: State, step: Step, now: Time)
    requires IsCall(step) && Enabled(st, step, now) && step.effect == Done
    ensures var w := step.w;
            var before, after := ApplyJob(st, With(step, LostBefore), now), ApplyJob(st, With(step, LostAfter), now);
            && SameTables(st, before) && SameTables(ApplyJob(st, step, now), after)
            && (if step.FenceAndUpload? && !Claims(st, w) then w !in before.tasks else AtPc(before, w, FailureRead))
            && (if step.FenceAndUpload? && !Claims(st, w) then w !in after.tasks
                else if step.MarkDocumentSigned? && !Waiting(st, w) then AtPc(after, w, RejectedRead)
                else AtPc(after, w, FailureRead))
  {
    match step
    case ConfirmCas(w, _) => ConfirmFails(st, w, now);
    case FenceAndUpload(w, _) =>
    case FinalizeCas(w, _) =>
    case MarkDocumentSigned(w, _) =>
    case MarkSessionSigned(w, _) =>
  }

  lemma ConfirmFails(st: State, w: WorkerId, now: Time)
    requires AtPc(st, w, ConfirmNumber)
    ensures SameTables(st, DoConfirmCas(st, w, LostBefore, now))
    ensures SameTables(DoConfirmCas(st, w, Done, now), DoConfirmCas(st, w, LostAfter, now))
  {
  }

  /** An upload happens only under the claim, and a preparation that fails or loses its lease changes no table. */
  lemma NoUploadWithoutTheClaim(st: State, w: WorkerId, effect: Effect, now: Time)
    requires w in st.tasks && !Holds(st.sessions, st.tasks[w].session, w)
    ensures AtPc(st, w, Fence) ==>
              SameTables(st, ApplyJob(st, FenceAndUpload(w, effect), now))
              && w !in ApplyJob(st, FenceAndUpload(w, effect), now).tasks
  {
  }

  lemma FailedPreparation(st: State, w: WorkerId, now: Time)
    requires AtPc(st, w, Prepare)
    ensures var failed := ApplyJob(st, PrepareAndSign(w, PrepareFailed), now);
            var lost := ApplyJob(st, PrepareAndSign(w, LeaseLost), now);
            SameTables(st, failed) && AtPc(failed, w, FailureRead) && SameTables(st, lost) && w !in lost.tasks
  {
  }

  // --- Sessions handed back ---

  /** The job ends, its session goes back to the queue unclaimed, and nothing else changes. */
  predicate HandedBack(st: State, w: WorkerId, st': State)
    requires w in st.tasks
  {
    var s := st.tasks[w].session;
    && st'.num == st.num && st'.store == st.store && st'.drafts == st.drafts && st'.tasks == st.tasks - {w}
    && T.OthersAlone(st.sessions, st'.sessions, s) && InStatus(st'.sessions, s, Pending)
    && st'.sessions[s].claimedBy == None && st'.sessions[s].doc == st.sessions[s].doc
    && st'.sessions[s].ticket == st.sessions[s].ticket
  }

  /** An open breaker hands the session back for as long as it says. */
  lemma BreakerHandsBack(st: State, w: WorkerId, retryAfter: nat, now: Time)
    requires Claims(st, w) && AtPc(st, w, Prepare) && st.sessions[st.tasks[w].session].job == JobType.Sign
    requires retryAfter > 0
    ensures var st' := ApplyJob(st, PrepareAndSign(w, BreakerOpen(retryAfter)), now);
            HandedBack(st, w, st') && T.ClaimableFrom(st'.sessions, st.tasks[w].session, now + retryAfter)
  {
    T.BreakerWaits(st.sessions, st.tasks[w].session, retryAfter, now);
  }

  /** A status that cannot be read, before the number is used or after its confirm failed, does so for 30 seconds, or
      fails the session at the fifth attempt. */
  lemma GuardHandsBack(st: State, w: WorkerId, step: Step, now: Time)
    requires Claims(st, w) && st.sessions[st.tasks[w].session].job == JobType.Sign
    requires step in {ReadReservation(w, false), ReadStale(w, false)} && Enabled(st, step, now)
    ensures var st' := ApplyJob(st, step, now);
            if st.tasks[w].job.payload.guardAttempts < 4
            then HandedBack(st, w, st') && T.ClaimableFrom(st'.sessions, st.tasks[w].session, now + 30)
            else Leaves(st, w, st', st.num.docs, st.store, st.drafts, Failed)
  {
    assert ApplyJob(st, step, now) == GuardRequeue(st, w, now);
    T.GuardWaits(st.sessions, st.tasks[w].session, st.tasks[w].job.payload, 30, now);
  }

  /** A clean shutdown hands the session back at once if the job still holds it, and else only ends the job. */
  lemma ShutdownHandsBack(st: State, w: WorkerId, now: Time)
    requires w in st.tasks && (Claims(st, w) ==> st.sessions[st.tasks[w].session].job == JobType.Sign)
    ensures var st' := Apply(st, Shutdown(w), now);
            if Claims(st, w)
            then HandedBack(st, w, st') && forall t :: Claimable(st'.sessions, st.tasks[w].session, t)
            else st' == st.(tasks := st.tasks - {w})
  {
    T.ShutdownGivesBack(st.sessions, st.tasks[w].session, w);
    assert Apply(st, Shutdown(w), now) == ApplySystem(st, Shutdown(w), now);
  }

  /** A heartbeat keeps the claim for ten minutes more; without the claim it changes nothing. */
  lemma HeartbeatKeepsTheClaim(st: State, w: WorkerId, now: Time)
    requires w in st.tasks
    ensures var st', s := Apply(st, Renew(w), now), st.tasks[w].session;
            if Claims(st, w)
            then
              && st' == st.(sessions := st'.sessions) && Claims(st', w) && T.OthersAlone(st.sessions, st'.sessions, s)
              && T.ProcessingUntil(st'.sessions[s], now + 600)
            else st' == st
  {
    T.RenewalGivesTenMinutes(st.sessions, st.tasks[w].session, w, now);
    assert Apply(st, Renew(w), now) == ApplySystem(st, Renew(w), now);
  }
}
