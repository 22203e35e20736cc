/** Why the rejection handler's status read is assumed to succeed. Job 1 signs document 1 and dies between marking
    the document and closing its session; the sweeper requeues the session; job 2 reads CONFIRMED, finds the draft
    already signed and takes it for rejected. If the status read then fails, the PDF of a CONFIRMED number is
    deleted; if it succeeds, the session of a signed document ends failed. */
module LostPdf {
  import opened Wrappers
  import opened OfficialRows
  import opened SigningSessions
  import opened SigningProtocol
  import G = GlobalNumbering
  import N = NumberingRuns

  const REQ := Request(1, Lane(0, 2026, 0), NumberParts("IF", "LUJAN", "DG"), Some(7), None)
  const RESERVE := N.ReserveGlobal(REQ, 5, None)
  const NUMBER := Num(2026, 1)
  const ROW: Row := G.ReservedRow(REQ, 1, 5, 0)
  const QUEUED := NewSession(1, 5, Pending, Payload(NUMBER, false, false, 0, 0), 0)
  const CLAIMED1 := QUEUED.(status := Processing, claimedBy := Some(1), expiresAt := PROCESSING_TTL)
  const REQUEUED := CLAIMED1.(status := Pending, claimedBy := None, expiresAt := 601 + PENDING_TTL)
  const CLAIMED2 := REQUEUED.(status := Processing, claimedBy := Some(2), expiresAt := 601 + PROCESSING_TTL)

  const Reserved0 := Init.(num := N.State(map[1 := ROW], map[], {5}))
  const Sent := Reserved0.(drafts := map[1 := SentToSign])
  const Queued := Sent.(sessions := map[1 := QUEUED])
  const Claimed1 := Queued.(sessions := map[1 := CLAIMED1], workersUsed := {1},
    tasks := map[1 := Task(1, CLAIMED1, false, Start)])
  const Signing := Job(Claimed1, 1, CLAIMED1, ConfirmNumber)
  const ConfirmedCas := Job(Claimed1, 1, CLAIMED1,
    Fence).(num := Queued.num.(docs := map[1 := ROW.(status := Confirming)]))
  const PdfStored := Job(ConfirmedCas, 1, CLAIMED1, Uploaded).(store := map[NUMBER := 5])
  const Finalized := Job(PdfStored, 1, CLAIMED1,
    MarkDocument).(num := Queued.num.(docs := map[1 := ROW.(status := Confirmed)]))
  const DocSigned := Job(Finalized, 1, CLAIMED1, MarkSession).(drafts := map[1 := DraftSigned])
  const Crashed := DocSigned.(tasks := map[])
  const Requeued := Crashed.(sessions := map[1 := REQUEUED])
  const Claimed2 := Requeued.(sessions := map[1 := CLAIMED2], workersUsed := {1, 2},
    tasks := map[2 := Task(1, CLAIMED2, false, Start)])

  function Job(st: State, w: WorkerId, job: Session, pc: Pc): State {
    st.(tasks := map[w := Task(1, job, false, pc)])
  }

  function Second(pc: Pc): State {
    Job(Claimed2, 2, CLAIMED2, pc)
  }

  // What a claim and the steps of a job give, in any state.

  lemma Claims(st: State, s: SessionId, w: WorkerId, now: Time)
    requires Enabled(st, ClaimJob(s, w), now)
    ensures Next(st, Event(ClaimJob(s, w), now), DoClaim(st, s, w, now))
  {
  }

  lemma Begins(st: State, w: WorkerId, now: Time)
    requires AtPc(st, w, Start)
    ensures Next(st, Event(Begin(w), now), DoBegin(st, w))
  {
  }

  lemma Reads(st: State, w: WorkerId, now: Time)
    requires AtPc(st, w, CheckReservation)
    ensures Next(st, Event(ReadReservation(w, true), now), DoReadReservation(st, w, true, now))
  {
  }

  lemma Marks(st: State, w: WorkerId, now: Time)
    requires AtPc(st, w, MarkDocument)
    ensures Next(st, Event(MarkDocumentSigned(w, Done), now), DoMarkDocument(st, w, Done))
  {
  }

  lemma Deletes(st: State, w: WorkerId, now: Time)
    requires AtPc(st, w, RejectedDelete)
    ensures Next(st, Event(DeleteOfficial(w, Done), now), DoDelete(st, w, Done))
  {
  }

  lemma Fails(st: State, w: WorkerId, now: Time)
    requires AtPc(st, w, FailureMark)
    ensures Next(st, Event(MarkJobFailed(w), now), DoFail(st, w))
  {
  }

  lemma Reserving()
    ensures Next(Init, Event(Numbering(RESERVE), 0), Reserved0)
  {
    assert G.LiveNumbers(map[], 2026) == {};
    assert RemovePick(map[], None) == map[];
    assert G.Reserve(map[], REQ, 5, 0, None).0 == map[1 := ROW];
  }

  lemma Queueing()
    ensures Next(Reserved0, Event(SetDraft(1, SentToSign), 0), Sent)
    ensures Next(Sent, Event(Enqueue(1, 1), 0), Queued)
  {
  }

  lemma Claiming()
    ensures Next(Queued, Event(ClaimJob(1, 1), 0), Claimed1)
  {
    Claims(Queued, 1, 1, 0);
    assert DoClaim(Queued, 1, 1, 0) == Claimed1;
  }

  lemma FirstJobStarts()
    ensures Next(Claimed1, Event(Begin(1), 0), Job(Claimed1, 1, CLAIMED1, CheckReservation))
    ensures Next(Job(Claimed1, 1, CLAIMED1, CheckReservation), Event(ReadReservation(1, true), 0),
        Job(Claimed1, 1, CLAIMED1, Prepare))
  {
    Begins(Claimed1, 1, 0);
    assert DoBegin(Claimed1, 1) == Job(Claimed1, 1, CLAIMED1, CheckReservation);
    Reads(Job(Claimed1, 1, CLAIMED1, CheckReservation), 1, 0);
    assert DoReadReservation(Job(Claimed1, 1, CLAIMED1, CheckReservation), 1, true, 0)
      == Job(Claimed1, 1, CLAIMED1, Prepare);
  }

  lemma FirstJobSigns()
    ensures Next(Job(Claimed1, 1, CLAIMED1, Prepare), Event(PrepareAndSign(1, SignedPdf), 0), Signing)
  {
    assert Apply(Job(Claimed1, 1, CLAIMED1, Prepare), PrepareAndSign(1, SignedPdf), 0)
        == DoPrepareAndSign(Job(Claimed1, 1, CLAIMED1, Prepare), 1, SignedPdf, 0);
  }

  lemma FirstJobConfirms()
    ensures Next(Signing, Event(ConfirmCas(1, Done), 0), ConfirmedCas)
  {
    assert Apply(Signing, ConfirmCas(1, Done), 0) == DoConfirmCas(Signing, 1, Done, 0);
  }

  lemma FirstJobUploads()
    ensures Next(ConfirmedCas, Event(FenceAndUpload(1, Done), 0), PdfStored)
  {
    assert Apply(ConfirmedCas, FenceAndUpload(1, Done), 0) == DoFenceAndUpload(ConfirmedCas, 1, Done);
  }

  lemma FirstJobFinalizes()
    ensures Next(PdfStored, Event(FinalizeCas(1, Done), 0), Finalized)
  {
    assert Apply(PdfStored, FinalizeCas(1, Done), 0) == DoFinalizeCas(PdfStored, 1, Done, 0);
  }

  lemma FirstJobDies()
    ensures Next(DocSigned, Event(Crash(1), 0), Crashed)
  {
  }

  lemma FirstJobMarksDocument()
    ensures Next(Finalized, Event(MarkDocumentSigned(1, Done), 0), DocSigned)
  {
    Marks(Finalized, 1, 0);
    assert DoMarkDocument(Finalized, 1, Done) == DocSigned;
  }

  lemma Sweeping()
    ensures Next(Crashed, Event(SweepProcessing(1), 601), Requeued)
  {
    assert RequeueExpired(Crashed.sessions, 1, false, 601) == map[1 := REQUEUED];
  }

  lemma ClaimingAgain()
    ensures Next(Requeued, Event(ClaimJob(1, 2), 601), Claimed2)
  {
    Claims(Requeued, 1, 2, 601);
    assert DoClaim(Requeued, 1, 2, 601) == Claimed2;
  }

  lemma SecondJobStarts()
    ensures Next(Claimed2, Event(Begin(2), 601), Second(CheckReservation))
  {
    Begins(Claimed2, 2, 601);
    assert DoBegin(Claimed2, 2) == Second(CheckReservation);
  }

  lemma SecondJobReads()
    ensures Next(Second(CheckReservation), Event(ReadReservation(2, true), 601), Second(MarkDocument))
  {
    Reads(Second(CheckReservation), 2, 601);
    assert DoReadReservation(Second(CheckReservation), 2, true, 601) == Second(MarkDocument);
  }

  lemma SecondJobMistakes()
    ensures Next(Second(MarkDocument), Event(MarkDocumentSigned(2, Done), 601), Second(RejectedRead))
  {
    Marks(Second(MarkDocument), 2, 601);
    assert DoMarkDocument(Second(MarkDocument), 2, Done) == Second(RejectedRead);
  }

  lemma SecondJobKeepsPdf()
    ensures Next(Second(RejectedRead), Event(ReadRejected(2, true), 601), Second(FailureMark))
  {
    assert Apply(Second(RejectedRead), ReadRejected(2, true), 601) == DoReadRejected(Second(RejectedRead), 2, true);
  }

  lemma SecondJobCannotRead()
    ensures Next(Second(RejectedRead), Event(ReadRejected(2, false), 601), Second(RejectedDelete))
  {
    assert Apply(Second(RejectedRead), ReadRejected(2, false), 601) == DoReadRejected(Second(RejectedRead), 2, false);
  }

  lemma SecondJobDeletes()
    ensures Next(Second(RejectedDelete), Event(DeleteOfficial(2, Done), 601), Second(FailureCancel).(store := map[]))
  {
    Deletes(Second(RejectedDelete), 2, 601);
    assert map[NUMBER := 5] - {NUMBER} == map[];
    assert DoDelete(Second(RejectedDelete), 2, Done) == Second(FailureCancel).(store := map[]);
  }

  lemma SecondJobFails()
    ensures Next(Second(FailureMark), Event(MarkJobFailed(2), 601),
        Claimed2.(tasks := map[], sessions := map[1 := CLAIMED2.(status := Failed)]))
  {
    Fails(Second(FailureMark), 2, 601);
    assert DoFail(Second(FailureMark), 2)
      == Claimed2.(tasks := map[], sessions := map[1 := CLAIMED2.(status := Failed)]);
  }

  /** A run from the empty system ends in st, with no failed status read before. */
  ghost predicate Reached(st: State) {
    exists states: seq<State>, events: seq<Event> :: CleanPath(states, events, st)
  }

  ghost predicate CleanPath(states: seq<State>, events: seq<Event>, st: State) {
    && Run(states, events) && states[0] == Init && states[|events|] == st
    && forall e | e in events :: RejectionReadsSucceed(e.step)
  }

  lemma Then(st: State, e: Event, st': State)
    requires Reached(st) && Next(st, e, st') && RejectionReadsSucceed(e.step)
    ensures Reached(st')
  {
    var states: seq<State>, events: seq<Event> :| CleanPath(states, events, st);
    ExtendRun(states, events, e, st');
    assert CleanPath(states + [st'], events + [e], st');
  }

  lemma UntilTheQueue()
    ensures Reached(Queued)
  {
    var states, events: seq<Event> := [Init], [];
    assert CleanPath(states, events, Init);
    Reserving();
    Then(Init, Event(Numbering(RESERVE), 0), Reserved0);
    Queueing();
    Then(Reserved0, Event(SetDraft(1, SentToSign), 0), Sent);
    Then(Sent, Event(Enqueue(1, 1), 0), Queued);
  }

  lemma UntilTheConfirm()
    ensures Reached(Signing)
  {
    UntilTheQueue();
    Claiming();
    Then(Queued, Event(ClaimJob(1, 1), 0), Claimed1);
    FirstJobStarts();
    Then(Claimed1, Event(Begin(1), 0), Job(Claimed1, 1, CLAIMED1, CheckReservation));
    Then(Job(Claimed1, 1, CLAIMED1, CheckReservation), Event(ReadReservation(1, true), 0),
      Job(Claimed1, 1, CLAIMED1, Prepare));
    FirstJobSigns();
    Then(Job(Claimed1, 1, CLAIMED1, Prepare), Event(PrepareAndSign(1, SignedPdf), 0), Signing);
  }

  lemma UntilTheNumberIsFinal()
    ensures Reached(Finalized)
  {
    UntilTheConfirm();
    FirstJobConfirms();
    Then(Signing, Event(ConfirmCas(1, Done), 0), ConfirmedCas);
    FirstJobUploads();
    Then(ConfirmedCas, Event(FenceAndUpload(1, Done), 0), PdfStored);
    FirstJobFinalizes();
    Then(PdfStored, Event(FinalizeCas(1, Done), 0), Finalized);
  }

  lemma UntilTheCrash()
    ensures Reached(Crashed)
  {
    UntilTheNumberIsFinal();
    FirstJobMarksDocument();
    Then(Finalized, Event(MarkDocumentSigned(1, Done), 0), DocSigned);
    FirstJobDies();
    Then(DocSigned, Event(Crash(1), 0), Crashed);
  }

  lemma UntilTheSecondClaim()
    ensures Reached(Claimed2)
  {
    UntilTheCrash();
    Sweeping();
    Then(Crashed, Event(SweepProcessing(1), 601), Requeued);
    ClaimingAgain();
    Then(Requeued, Event(ClaimJob(1, 2), 601), Claimed2);
  }

  /** The run up to the mistaken rejection. */
  lemma UntilTheMistake()
    ensures Reached(Second(RejectedRead))
  {
    UntilTheSecondClaim();
    SecondJobStarts();
    Then(Claimed2, Event(Begin(2), 601), Second(CheckReservation));
    SecondJobReads();
    Then(Second(CheckReservation), Event(ReadReservation(2, true), 601), Second(MarkDocument));
    SecondJobMistakes();
    Then(Second(MarkDocument), Event(MarkDocumentSigned(2, Done), 601), Second(RejectedRead));
  }

  /** With a failed status read a CONFIRMED number loses its PDF: from the reached state `st`, by the two events. */
  lemma FailedReadLosesThePdf() returns (st: State, mid: State, st': State)
    ensures Reached(st) && Next(st, Event(ReadRejected(2, false), 601), mid)
        && Next(mid, Event(DeleteOfficial(2, Done), 601), st')
    ensures HoldsTicket(st'.num.docs, 1, 5) && st'.num.docs[1].status == Confirmed
        && NumOf(st'.num.docs[1]) !in st'.store
  {
    st, mid, st' := Second(RejectedRead), Second(RejectedDelete), Second(FailureCancel).(store := map[]);
    UntilTheMistake();
    SecondJobCannotRead();
    SecondJobDeletes();
  }

  /** With a successful one the signed document's only session ends failed. */
  lemma SignedDocumentSessionFails() returns (st: State)
    ensures Reached(st)
    ensures HoldsTicket(st.num.docs, 1, 5) && st.num.docs[1].status == Confirmed && DraftIs(st, 1, DraftSigned)
    ensures InStatus(st.sessions, 1, Failed) && st.sessions.Keys == {1}
  {
    st := Claimed2.(tasks := map[], sessions := map[1 := CLAIMED2.(status := Failed)]);
    UntilTheMistake();
    SecondJobKeepsPdf();
    Then(Second(RejectedRead), Event(ReadRejected(2, true), 601), Second(FailureMark));
    SecondJobFails();
    Then(Second(FailureMark), Event(MarkJobFailed(2), 601), st);
  }
}
