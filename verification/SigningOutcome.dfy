/** How a job ends, whatever everybody else does meanwhile: once its number is CONFIRMED and it sets out to mark the
    document signed, and once it has failed and asks what became of the number. */
module SigningOutcome {
  import opened Wrappers
  import opened OfficialRows
  import opened SigningSessions
  import opened SigningProtocol
  import opened SigningSafety
  import opened SigningTheorems

  /** The job does not die, and every call it makes succeeds. */
  predicate Succeeds(step: Step, w: WorkerId) {
    && step != Crash(w) && step != Shutdown(w)
    && (IsJobStep(step) && step.w == w ==> CallSucceeds(step))
  }

  predicate CallSucceeds(step: Step)
    requires IsJobStep(step)
  {
    match step
    case Begin(_) => true
    case ReadReservation(_, readOk) => readOk
    case PrepareAndSign(_, result) => result.SignedPdf?
    case ReadStale(_, readOk) => readOk
    case ReadRejected(_, readOk) => readOk
    case ReadFailure(_, readOk) => readOk
    case MarkJobFailed(_) => true
    case _ => step.effect.Done?
  }

  /** What is left to do: close the session of a document just marked, fail that of a document taken for rejected,
      close the session of a number somebody else finished, or give the job up. */
  datatype Plan = CloseMarked | FailRejected | CloseSuperseded | GiveUp

  predicate Finishing(st: State, w: WorkerId, s: SessionId, plan: Plan) {
    && w in st.tasks && st.tasks[w].session == s
    && match plan
       case CloseMarked => st.tasks[w].pc == MarkSession
       case FailRejected => st.tasks[w].pc == RejectedRead || st.tasks[w].pc == FailureMark
       case CloseSuperseded => st.tasks[w].pc == SupersededMark
       case GiveUp => st.tasks[w].pc == FailureCancel || st.tasks[w].pc == FailureMark
  }

  predicate EndsSigned(plan: Plan) {
    plan == CloseMarked || plan == CloseSuperseded
  }

  predicate Ended(st: State, w: WorkerId, s: SessionId, plan: Plan) {
    w !in st.tasks && InStatus(st.sessions, s, if EndsSigned(plan) then Signed else Failed)
  }

  lemma OthersLeaveTheJob(st: State, step: Step, now: Time, w: WorkerId)
    requires Enabled(st, step, now) && w in st.tasks && w in st.workersUsed && Succeeds(step, w)
    requires IsJobStep(step) ==> step.w != w
    ensures w in Apply(st, step, now).tasks && Apply(st, step, now).tasks[w] == st.tasks[w]
  {
    if !IsJobStep(step) {
      assert Apply(st, step, now) == ApplySystem(st, step, now);
    }
  }

  lemma MarkingDecides(st: State, w: WorkerId)
    requires AtPc(st, w, MarkDocument)
    ensures Finishing(DoMarkDocument(st, w, Done), w, st.tasks[w].session,
        if DraftIs(st, st.tasks[w].job.doc, SentToSign) then CloseMarked else FailRejected)
  {
  }

  /** The one step the job can take. */
  lemma OwnStepIs(st: State, step: Step, now: Time, w: WorkerId, s: SessionId, plan: Plan)
    requires Enabled(st, step, now) && Finishing(st, w, s, plan) && Succeeds(step, w) && IsJobStep(step)
        && step.w == w
    ensures step == match st.tasks[w].pc
                    case MarkSession => MarkSessionSigned(w, Done)
                    case SupersededMark => MarkSuperseded(w, Done)
                    case FailureMark => MarkJobFailed(w)
                    case FailureCancel => CancelReservation(w, Done)
                    case _ => ReadRejected(w, true)
  {
  }

  lemma RejectedIsConfirmed(st: State, w: WorkerId)
    requires Inv(st) && AtPc(st, w, RejectedRead)
    ensures DocConfirmed(st.num.docs, st.tasks[w].job.doc)
  {
    assert TaskOk(st, st.tasks[w]);
  }

  /** One more step of the job or of somebody else. */
  predicate Progresses(st: State, st': State, w: WorkerId, s: SessionId, plan: Plan) {
    Finishing(st', w, s, plan) || (w !in st'.tasks && (Holds(st.sessions, s, w) ==> Ended(st', w, s, plan)))
  }

  lemma OwnStepFinishes(st: State, step: Step, now: Time, w: WorkerId, s: SessionId, plan: Plan)
    requires Inv(st) && Enabled(st, step, now) && Finishing(st, w, s, plan) && Succeeds(step, w)
    requires IsJobStep(step) && step.w == w
    ensures Progresses(st, ApplyJob(st, step, now), w, s, plan)
  {
    OwnStepIs(st, step, now, w, s, plan);
    if EndsSigned(plan) {
      ClosingEnds(st, w, s, plan);
    } else if AtPc(st, w, FailureMark) {
      FailingEnds(st, w, s, plan);
    } else if plan == FailRejected {
      RejectedIsConfirmed(st, w);
      ReadingGoesOn(st, w, s);
    } else {
      CancellingGoesOn(st, w, s, now);
    }
  }

  lemma ClosingEnds(st: State, w: WorkerId, s: SessionId, plan: Plan)
    requires Finishing(st, w, s, plan) && EndsSigned(plan)
    ensures var st' := if plan == CloseMarked then DoMarkSession(st, w, Done) else DoMarkSuperseded(st, w, Done);
            w !in st'.tasks && (Holds(st.sessions, s, w) ==> Ended(st', w, s, plan))
  {
  }

  lemma FailingEnds(st: State, w: WorkerId, s: SessionId, plan: Plan)
    requires AtPc(st, w, FailureMark) && st.tasks[w].session == s && !EndsSigned(plan)
    ensures var st' := DoFail(st, w); w !in st'.tasks && (Holds(st.sessions, s, w) ==> Ended(st', w, s, plan))
  {
  }

  lemma ReadingGoesOn(st: State, w: WorkerId, s: SessionId)
    requires AtPc(st, w, RejectedRead) && st.tasks[w].session == s && DocConfirmed(st.num.docs, st.tasks[w].job.doc)
    ensures Finishing(DoReadRejected(st, w, true), w, s, FailRejected)
  {
  }

  lemma CancellingGoesOn(st: State, w: WorkerId, s: SessionId, now: Time)
    requires AtPc(st, w, FailureCancel) && st.tasks[w].session == s
    ensures AtPc(DoCancel(st, w, Done, now), w, FailureMark) && Finishing(DoCancel(st, w, Done, now), w, s, GiveUp)
  {
  }

  lemma StepFinishes(st: State, step: Step, now: Time, w: WorkerId, s: SessionId, plan: Plan)
    requires Inv(st) && Enabled(st, step, now) && Finishing(st, w, s, plan) && Succeeds(step, w)
    ensures Progresses(st, Apply(st, step, now), w, s, plan)
  {
    if IsJobStep(step) && step.w == w {
      OwnStepFinishes(st, step, now, w, s, plan);
    } else {
      OthersLeaveTheJob(st, step, now, w);
    }
  }

  lemma {:induction false} SoundRunKeepsInv(states: seq<State>, events: seq<Event>, i: nat)
    requires Run(states, events) && Inv(states[0]) && i < |states|
    requires forall k | 0 <= k < |events| :: RejectionReadsSucceed(events[k].step)
    ensures Inv(states[i])
  {
    if i > 0 {
      SoundRunKeepsInv(states, events, i - 1);
      assert StepAt(states, events, i - 1);
      StepKeepsInv(states[i - 1], events[i - 1].step, events[i - 1].now);
    }
  }

  lemma {:induction false} StillFinishing(states: seq<State>, events: seq<Event>, i: nat, j: nat, w: WorkerId,
      s: SessionId, plan: Plan)
    requires Run(states, events) && Inv(states[0]) && i <= j <= |events|
    requires forall k | 0 <= k < |events| :: RejectionReadsSucceed(events[k].step)
    requires Finishing(states[i], w, s, plan) && forall k | i <= k < j :: Succeeds(events[k].step, w)
    requires forall k | i <= k <= j :: w in states[k].tasks
    ensures Finishing(states[j], w, s, plan)
    decreases j
  {
    if i < j {
      StillFinishing(states, events, i, j - 1, w, s, plan);
      OneMoreStep(states, events, j - 1, w, s, plan);
    }
  }

  lemma OneMoreStep(states: seq<State>, events: seq<Event>, k: nat, w: WorkerId, s: SessionId, plan: Plan)
    requires Run(states, events) && Inv(states[0]) && k < |events|
    requires forall i | 0 <= i < |events| :: RejectionReadsSucceed(events[i].step)
    requires Finishing(states[k], w, s, plan) && Succeeds(events[k].step, w) && w in states[k + 1].tasks
    ensures Finishing(states[k + 1], w, s, plan)
  {
    SoundRunKeepsInv(states, events, k);
    assert StepAt(states, events, k);
    StaysFinishing(states[k], events[k], states[k + 1], w, s, plan);
  }

  lemma StaysFinishing(st: State, e: Event, st': State, w: WorkerId, s: SessionId, plan: Plan)
    requires Inv(st) && Next(st, e, st') && Finishing(st, w, s, plan) && Succeeds(e.step, w) && w in st'.tasks
    ensures Finishing(st', w, s, plan)
  {
    StepFinishes(st, e.step, e.now, w, s, plan);
  }

  /** From step i on the job only finishes; it ends in step j. */
  ghost predicate RunsOut(states: seq<State>, events: seq<Event>, i: nat, j: nat, w: WorkerId) {
    && Run(states, events) && Inv(states[0]) && i <= j < |events|
    && (forall k | 0 <= k < |events| :: RejectionReadsSucceed(events[k].step))
    && (forall k | i < k <= j :: Succeeds(events[k].step, w))
    && (forall k | i <= k <= j :: w in states[k].tasks) && w !in states[j + 1].tasks
    && Holds(states[j].sessions, states[i].tasks[w].session, w)
  }

  lemma PlanIsCarriedOut(states: seq<State>, events: seq<Event>, i: nat, j: nat, w: WorkerId, plan: Plan)
    requires RunsOut(states, events, i, j, w) && i < j
    requires Finishing(states[i + 1], w, states[i].tasks[w].session, plan)
    ensures Ended(states[j + 1], w, states[i].tasks[w].session, plan)
    ensures Finishing(states[j], w, states[i].tasks[w].session, plan)
  {
    StillFinishing(states, events, i + 1, j, w, states[i].tasks[w].session, plan);
    LastStep(states, events, j, w, states[i].tasks[w].session, plan);
  }

  lemma LastStep(states: seq<State>, events: seq<Event>, j: nat, w: WorkerId, s: SessionId, plan: Plan)
    requires Run(states, events) && Inv(states[0]) && j < |events|
    requires forall k | 0 <= k < |events| :: RejectionReadsSucceed(events[k].step)
    requires Finishing(states[j], w, s, plan) && Succeeds(events[j].step, w) && w !in states[j + 1].tasks
    requires Holds(states[j].sessions, s, w)
    ensures Ended(states[j + 1], w, s, plan)
  {
    SoundRunKeepsInv(states, events, j);
    assert StepAt(states, events, j);
    StepFinishes(states[j], events[j].step, events[j].now, w, s, plan);
  }

  // --- A job that marks its document ---

  /** Job w marks its document in step i and ends in step j. Whatever everybody else does in between, if its own
      calls succeed and it holds the claim at the end, its session ends signed if and only if the draft was waiting
      for the signature at step i, and failed otherwise, although the number is CONFIRMED either way. */
  lemma SessionEndsSignedExactly(states: seq<State>, events: seq<Event>, i: nat, j: nat, w: WorkerId)
    requires RunsOut(states, events, i, j, w) && i < j && events[i].step == MarkDocumentSigned(w, Done)
    ensures var s, d := states[i].tasks[w].session, states[i].tasks[w].job.doc;
            && (InStatus(states[j + 1].sessions, s, Signed) <==> DraftIs(states[i], d, SentToSign))
            && (InStatus(states[j + 1].sessions, s, Failed) <==> !DraftIs(states[i], d, SentToSign))
            && DocConfirmed(states[i].num.docs, d)
  {
    MarkingStep(states, events, i, w);
    PlanIsCarriedOut(states, events, i, j, w,
      if DraftIs(states[i], states[i].tasks[w].job.doc, SentToSign) then CloseMarked else FailRejected);
  }

  lemma MarkingStep(states: seq<State>, events: seq<Event>, i: nat, w: WorkerId)
    requires Run(states, events) && Inv(states[0]) && i < |events|
    requires forall k | 0 <= k < |events| :: RejectionReadsSucceed(events[k].step)
    requires events[i].step == MarkDocumentSigned(w, Done)
    ensures AtPc(states[i], w, MarkDocument) && DocConfirmed(states[i].num.docs, states[i].tasks[w].job.doc)
    ensures Finishing(states[i + 1], w, states[i].tasks[w].session,
        if DraftIs(states[i], states[i].tasks[w].job.doc, SentToSign) then CloseMarked else FailRejected)
  {
    SoundRunKeepsInv(states, events, i);
    assert StepAt(states, events, i);
    MarkDocumentFinds(states[i], w, events[i].now, states[i + 1]);
  }

  lemma MarkDocumentFinds(st: State, w: WorkerId, now: Time, st': State)
    requires Inv(st) && Next(st, Event(MarkDocumentSigned(w, Done), now), st')
    ensures AtPc(st, w, MarkDocument) && DocConfirmed(st.num.docs, st.tasks[w].job.doc)
    ensures Finishing(st', w, st.tasks[w].session,
        if DraftIs(st, st.tasks[w].job.doc, SentToSign) then CloseMarked else FailRejected)
  {
    assert TaskOk(st, st.tasks[w]);
    assert Apply(st, MarkDocumentSigned(w, Done), now) == DoMarkDocument(st, w, Done);
    MarkingDecides(st, w);
  }

  // --- A job that has failed ---

  lemma FailureFinds(st: State, w: WorkerId, now: Time, st': State)
    requires Next(st, Event(ReadFailure(w, true), now), st')
    ensures AtPc(st, w, FailureRead)
    ensures var task, docs := st.tasks[w], st.num.docs;
            if InStatusOf(docs, task.job.doc, {Confirming}) then st' == st.(tasks := st.tasks - {w})
            else if InStatusOf(docs, task.job.doc, {Confirmed}) then Finishing(st', w, task.session, CloseSuperseded)
            else Finishing(st', w, task.session, GiveUp)
                 && st'.tasks[w].pc == (if task.resume then FailureMark else FailureCancel) && st'.num == st.num
  {
    assert Apply(st, ReadFailure(w, true), now) == DoReadFailure(st, w, true);
  }

  lemma FailureStep(states: seq<State>, events: seq<Event>, i: nat, w: WorkerId)
    requires Run(states, events) && i < |events| && events[i].step == ReadFailure(w, true)
    ensures AtPc(states[i], w, FailureRead)
    ensures Reads(states[i], w, Confirming) ==> states[i + 1] == states[i].(tasks := states[i].tasks - {w})
    ensures Reads(states[i], w, Confirmed) ==> Finishing(states[i + 1], w, states[i].tasks[w].session, CloseSuperseded)
    ensures !Reads(states[i], w, Confirming) && !Reads(states[i], w, Confirmed) ==>
              && Finishing(states[i + 1], w, states[i].tasks[w].session, GiveUp)
              && states[i + 1].tasks[w].pc == (if states[i].tasks[w].resume then FailureMark else FailureCancel)
  {
    assert StepAt(states, events, i);
    FailureFinds(states[i], w, events[i].now, states[i + 1]);
  }

  /** The status of the document's row when the failed job reads it. */
  predicate Reads(st: State, w: WorkerId, status: Status)
    requires w in st.tasks
  {
    st.tasks[w].job.doc in st.num.docs && st.num.docs[st.tasks[w].job.doc].status == status
  }

  /** A failed job reads the status of its document's row in step i and ends in step j, its calls succeeding and its
      claim held. If the row is CONFIRMED the session ends signed; if it is CONFIRMING the job ends at once and nothing
      changes; otherwise the session ends failed. */
  lemma FailureEndsExactly(states: seq<State>, events: seq<Event>, i: nat, j: nat, w: WorkerId)
    requires RunsOut(states, events, i, j, w) && events[i].step == ReadFailure(w, true)
    ensures var s := states[i].tasks[w].session;
            && (InStatus(states[j + 1].sessions, s, Signed) <==> Reads(states[i], w, Confirmed))
            && (Reads(states[i], w, Confirming) ==>
                  j == i && states[i + 1] == states[i].(tasks := states[i].tasks - {w}))
            && (InStatus(states[j + 1].sessions, s, Failed) <==>
                  !Reads(states[i], w, Confirmed) && !Reads(states[i], w, Confirming))
  {
    FailureStep(states, events, i, w);
    if !Reads(states[i], w, Confirming) {
      PlanIsCarriedOut(states, events, i, j, w, if Reads(states[i], w, Confirmed) then CloseSuperseded else GiveUp);
    }
  }

  /** Between the two handler's pcs lies the cancellation. */
  lemma {:induction false} CancelComes(states: seq<State>, events: seq<Event>, i: nat, j: nat, w: WorkerId,
      s: SessionId)
      returns (k: nat)
    requires Run(states, events) && Inv(states[0]) && i <= j <= |events|
    requires forall k | 0 <= k < |events| :: RejectionReadsSucceed(events[k].step)
    requires forall k | i <= k < j :: Succeeds(events[k].step, w)
    requires forall k | i <= k <= j :: Finishing(states[k], w, s, GiveUp)
    requires AtPc(states[i], w, FailureCancel) && AtPc(states[j], w, FailureMark)
    ensures i <= k < j && events[k].step == CancelReservation(w, Done)
    decreases j
  {
    if AtPc(states[j - 1], w, FailureMark) {
      k := CancelComes(states, events, i, j - 1, w, s);
    } else {
      k := j - 1;
      CancelIsThere(states, events, j - 1, w, s);
    }
  }

  lemma CancelIsThere(states: seq<State>, events: seq<Event>, k: nat, w: WorkerId, s: SessionId)
    requires Run(states, events) && Inv(states[0]) && k < |events|
    requires forall i | 0 <= i < |events| :: RejectionReadsSucceed(events[i].step)
    requires Succeeds(events[k].step, w) && Finishing(states[k], w, s, GiveUp)
    requires AtPc(states[k], w, FailureCancel) && AtPc(states[k + 1], w, FailureMark)
    ensures events[k].step == CancelReservation(w, Done)
  {
    SoundRunKeepsInv(states, events, k);
    assert StepAt(states, events, k);
    CancelIsNext(states[k], events[k], states[k + 1], w, s);
  }

  lemma CancelIsNext(st: State, e: Event, st': State, w: WorkerId, s: SessionId)
    requires Inv(st) && Next(st, e, st') && AtPc(st, w, FailureCancel) && Finishing(st, w, s, GiveUp)
    requires Succeeds(e.step, w) && AtPc(st', w, FailureMark)
    ensures e.step == CancelReservation(w, Done)
  {
    if IsJobStep(e.step) && e.step.w == w {
      OwnStepIs(st, e.step, e.now, w, s, GiveUp);
    } else {
      OthersLeaveTheJob(st, e.step, e.now, w);
    }
  }

  /** The job's cancellation frees a RESERVED row under its own ticket and no other. */
  lemma CancelFrees(st: State, w: WorkerId, now: Time, st': State)
    requires Next(st, Event(CancelReservation(w, Done), now), st')
    ensures var d, t := st.tasks[w].job.doc, TicketOf(st.tasks[w]);
            st'.num.docs == if HoldsTicket(st.num.docs, d, t) && st.num.docs[d].status == Reserved
                            then st.num.docs[d := st.num.docs[d].(status := Cancelled, updatedAt := now)]
                              else st.num.docs
  {
    assert Apply(st, CancelReservation(w, Done), now) == DoCancel(st, w, Done, now);
  }

  /** A failed job that gives up and is not resuming a number cancels its reservation on the way. */
  lemma GivingUpCancels(states: seq<State>, events: seq<Event>, i: nat, j: nat, w: WorkerId) returns (k: nat)
    requires RunsOut(states, events, i, j, w) && events[i].step == ReadFailure(w, true)
    requires !Reads(states[i], w, Confirmed) && !Reads(states[i], w, Confirming) && !states[i].tasks[w].resume
    ensures i < k < j && events[k].step == CancelReservation(w, Done)
  {
    var s := states[i].tasks[w].session;
    FailureStep(states, events, i, w);
    forall m | i + 1 <= m <= j
      ensures Finishing(states[m], w, s, GiveUp)
    {
      StillFinishing(states, events, i + 1, m, w, s, GiveUp);
    }
    GivesUpAtTheEnd(states, events, j, w, s);
    k := CancelComes(states, events, i + 1, j, w, s);
  }

  lemma GivesUpAtTheEnd(states: seq<State>, events: seq<Event>, j: nat, w: WorkerId, s: SessionId)
    requires Run(states, events) && Inv(states[0]) && j < |events|
    requires forall i | 0 <= i < |events| :: RejectionReadsSucceed(events[i].step)
    requires Finishing(states[j], w, s, GiveUp) && Succeeds(events[j].step, w) && w !in states[j + 1].tasks
    ensures AtPc(states[j], w, FailureMark)
  {
    SoundRunKeepsInv(states, events, j);
    assert StepAt(states, events, j);
    EndsAtFailureMark(states[j], events[j], states[j + 1], w, s);
  }

  lemma EndsAtFailureMark(st: State, e: Event, st': State, w: WorkerId, s: SessionId)
    requires Inv(st) && Next(st, e, st') && Finishing(st, w, s, GiveUp) && Succeeds(e.step, w) && w !in st'.tasks
    ensures AtPc(st, w, FailureMark)
  {
    if IsJobStep(e.step) && e.step.w == w {
      OwnStepIs(st, e.step, e.now, w, s, GiveUp);
      if AtPc(st, w, FailureCancel) {
        CancellingGoesOn(st, w, s, e.now);
      }
    } else {
      OthersLeaveTheJob(st, e.step, e.now, w);
    }
  }

  /** One that resumes a number goes straight to failing its session. */
  lemma {:induction false} ResumingNeverCancels(states: seq<State>, events: seq<Event>, i: nat, j: nat, k: nat,
      w: WorkerId)
    requires RunsOut(states, events, i, j, w) && events[i].step == ReadFailure(w, true)
    requires !Reads(states[i], w, Confirmed) && !Reads(states[i], w, Confirming) && states[i].tasks[w].resume
    requires i < k <= j
    ensures AtPc(states[k], w, FailureMark) && states[k].tasks[w].session == states[i].tasks[w].session
    decreases k
  {
    assert w in states[k].tasks;
    if k == i + 1 {
      FailureStep(states, events, i, w);
    } else {
      ResumingNeverCancels(states, events, i, j, k - 1, w);
      StillFailing(states, events, k - 1, w, states[i].tasks[w].session);
    }
  }

  lemma StillFailing(states: seq<State>, events: seq<Event>, k: nat, w: WorkerId, s: SessionId)
    requires Run(states, events) && Inv(states[0]) && k < |events|
    requires forall i | 0 <= i < |events| :: RejectionReadsSucceed(events[i].step)
    requires AtPc(states[k], w, FailureMark) && states[k].tasks[w].session == s
    requires Succeeds(events[k].step, w) && w in states[k + 1].tasks
    ensures AtPc(states[k + 1], w, FailureMark) && states[k + 1].tasks[w].session == s
  {
    SoundRunKeepsInv(states, events, k);
    assert StepAt(states, events, k);
    FailureMarkStays(states[k], events[k], states[k + 1], w, s);
  }

  lemma FailureMarkStays(st: State, e: Event, st': State, w: WorkerId, s: SessionId)
    requires Inv(st) && Next(st, e, st') && AtPc(st, w, FailureMark) && st.tasks[w].session == s
    requires Succeeds(e.step, w) && w in st'.tasks
    ensures AtPc(st', w, FailureMark) && st'.tasks[w].session == s
  {
    if IsJobStep(e.step) && e.step.w == w {
      OwnStepIs(st, e.step, e.now, w, s, GiveUp);
      FailingEnds(st, w, s, GiveUp);
    } else {
      OthersLeaveTheJob(st, e.step, e.now, w);
    }
  }

  // --- A rejection ---

  /** A rejection and the expiry after it leave the document rejected, its RESERVED number CANCELLED and its pending and
      processing sessions EXPIRED, and touch no other document, number or session. */
  lemma RejectionCleansUp(st: State, d: DocId, now: Time, later: Time)
    requires Enabled(st, RejectDocument(d), now)
    ensures var rejected := Apply(st, RejectDocument(d), now);
            && Enabled(rejected, ExpireRejected(d), later)
            && var st' := Apply(rejected, ExpireRejected(d), later);
               var docs, docs' := st.num.docs, st'.num.docs;
               && st'.drafts == st.drafts[d := DraftRejected]
               && docs'.Keys == docs.Keys
               && (forall e | e in docs :: docs'[e] == if e == d && docs[d].status == Reserved
                     then docs[d].(status := Cancelled, updatedAt := now) else docs[e])
               && (d in docs' ==> docs'[d].status == Cancelled)
               && st'.sessions.Keys == st.sessions.Keys
               && (forall s | s in st.sessions :: st'.sessions[s] ==
                     if st.sessions[s].doc == d && st.sessions[s].status in {Pending, Processing}
                     then st.sessions[s].(status := Expired) else st.sessions[s])
               && st'.store == st.store && st'.tasks == st.tasks
  {
    assert Apply(st, RejectDocument(d), now).sessions == st.sessions;
  }
}
