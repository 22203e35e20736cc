/** What a job of the common flow leaves behind when it runs by itself with its claim held, what a failing call of it
    leaves, and what the sweeper does with a session left lying. */
module CommonAlone {
  import opened Wrappers
  import S = SigningSessions
  import opened CommonSigning

  /** k of the job's own steps, one after the other. */
  function Alone(st: State, w: S.WorkerId, k: nat): State
    decreases k
  {
    if k == 0 || w !in st.jobs then st else Alone(DoWork(st, w, Done), w, k - 1)
  }

  ghost predicate AloneEnds(st: State, w: S.WorkerId, st': State) {
    w !in st'.jobs && exists k: nat :: Alone(st, w, k) == st'
  }

  predicate AtPc(st: State, w: S.WorkerId, pc: Pc) {
    w in st.jobs && st.jobs[w].pc == pc
  }

  lemma Ends(st: State, w: S.WorkerId)
    requires w in st.jobs && w !in DoWork(st, w, Done).jobs
    ensures AloneEnds(st, w, DoWork(st, w, Done))
  {
    assert Alone(DoWork(st, w, Done), w, 0) == DoWork(st, w, Done);
    AfterStep(st, w, DoWork(st, w, Done), DoWork(st, w, Done));
  }

  lemma AfterStep(st: State, w: S.WorkerId, next: State, st': State)
    requires w in st.jobs && next == DoWork(st, w, Done) && AloneEnds(next, w, st')
    ensures AloneEnds(st, w, st')
  {
    var k: nat :| Alone(next, w, k) == st';
    assert Alone(st, w, k + 1) == st';
  }

  /** What a job that closes the session leaves: the signer marked, the marker set, nothing locked. */
  function Finished(st: State, w: S.WorkerId, tosign: Option<Pdf>): State {
    End(st.(status := S.Signed, claimedBy := Some(w), signerDone := true, marker := true, inprocess := None,
        tosign := tosign), w)
  }

  lemma FromClose(st: State, w: S.WorkerId)
    requires Holds(st, w) && AtPc(st, w, CloseSession) && st.signerDone && st.marker
    requires st.jobs[w].resume || st.inprocess == None
    ensures AloneEnds(st, w, Finished(st, w, st.tosign))
  {
    var closed := DoWork(st, w, Done);
    var logged := DoWork(closed, w, Done);
    if st.jobs[w].resume {
      Ends(logged, w);
      AfterStep(closed, w, logged, DoWork(logged, w, Done));
    } else {
      Ends(closed, w);
    }
    AfterStep(st, w, closed, Finished(st, w, st.tosign));
  }

  lemma FromConfirm(st: State, w: S.WorkerId)
    requires Holds(st, w) && AtPc(st, w, Confirm) && (st.jobs[w].resume || st.inprocess == None)
    ensures AloneEnds(st, w, Finished(st, w, st.tosign))
  {
    var confirmed := DoWork(st, w, Done);
    var updated := DoWork(confirmed, w, Done);
    FromClose(updated, w);
    AfterStep(confirmed, w, updated, Finished(updated, w, st.tosign));
    AfterStep(st, w, confirmed, Finished(st, w, st.tosign));
  }

  /** From the moment the PDF is in hand. */
  function Uploaded(st: State, w: S.WorkerId): State
    requires w in st.jobs && st.jobs[w].pdf.Some?
  {
    var pdf := st.jobs[w].pdf;
    Finished(st, w, Some(pdf.value + [st.signer])).(saved := pdf, uploads := st.uploads + 1)
  }

  lemma FromPut(st: State, w: S.WorkerId)
    requires Holds(st, w) && AtPc(st, w, Put) && st.jobs[w].pdf.Some? && !st.jobs[w].resume
    requires st.saved == st.jobs[w].pdf
    ensures AloneEnds(st, w, Uploaded(st, w))
  {
    var put := DoWork(st, w, Done);
    var marked := DoWork(put, w, Done);
    var unlocked := DoWork(marked, w, Done);
    FromConfirm(unlocked, w);
    assert Finished(unlocked, w, unlocked.tosign) == Uploaded(st, w);
    AfterStep(marked, w, unlocked, Uploaded(st, w));
    AfterStep(put, w, marked, Uploaded(st, w));
    AfterStep(st, w, put, Uploaded(st, w));
  }

  lemma FromSaveHash(st: State, w: S.WorkerId)
    requires Holds(st, w) && AtPc(st, w, SaveHash) && st.jobs[w].pdf.Some? && !st.jobs[w].resume
    ensures AloneEnds(st, w, Uploaded(st, w))
  {
    var saved := DoWork(st, w, Done);
    var signed := DoWork(saved, w, Done);
    FromPut(signed, w);
    AfterStep(saved, w, signed, Uploaded(st, w));
    AfterStep(st, w, saved, Uploaded(st, w));
  }

  lemma FromRollback(st: State, w: S.WorkerId)
    requires Holds(st, w) && AtPc(st, w, Rollback) && st.inprocess == None
    ensures AloneEnds(st, w, End(st.(status := S.SessionStatus.Failed), w))
  {
    var back := DoWork(st, w, Done);
    Ends(back, w);
    AfterStep(st, w, back, DoWork(back, w, Done));
  }

  lemma FromReadInprocess(st: State, w: S.WorkerId)
    requires FilesOk(st) && Holds(st, w) && AtPc(st, w, ReadInprocess) && !st.jobs[w].resume
    requires st.tosign == None || st.tosign == Some(st.original)
    requires st.jobs[w].saved in {None, Some(st.original)}
    ensures if st.tosign.Some? then AloneEnds(st, w, End(st.(status := S.SessionStatus.Failed), w))
            else AloneEnds(st, w, Finished(st, w, Some(SignedPdf(st))).(saved := Some(st.original),
                uploads := st.uploads + 1))
  {
    var next := DoWork(st, w, Done);
    if st.tosign.None? {
      FromSaveHash(next, w);
      AfterStep(st, w, next, Uploaded(next, w));
    } else if st.jobs[w].saved.None? {
      FromRollback(next, w);
      AfterStep(st, w, next, End(st.(status := S.SessionStatus.Failed), w));
    } else {
      var last := DoWork(next, w, Done);
      FromRollback(last, w);
      AfterStep(next, w, last, End(st.(status := S.SessionStatus.Failed), w));
      AfterStep(st, w, next, End(st.(status := S.SessionStatus.Failed), w));
    }
  }

  /** The PDF in `tosign/` carries the signature, or the row says so. */
  predicate UploadSeen(st: State) {
    st.marker || st.tosign == Some(SignedPdf(st))
  }

  /** A signer already marked: the session is only closed. An upload that is seen: the rest is marked and closed. A
      PDF still locked: it is signed once, uploaded and unlocked. No locked PDF and no signature: the session fails. */
  function Outcome(st: State, w: S.WorkerId): State {
    if st.signerDone then End(st.(status := S.Signed, claimedBy := Some(w)), w)
    else if UploadSeen(st) then Finished(st, w, st.tosign)
    else if st.tosign == None then
      Finished(st, w, Some(SignedPdf(st))).(saved := Some(st.original), uploads := st.uploads + 1)
    else End(st.(status := S.SessionStatus.Failed), w)
  }

  lemma SameOutcome(st: State, w: S.WorkerId, job: Job)
    requires w in st.jobs
    ensures var next := st.(jobs := st.jobs[w := job]);
            Outcome(next, w) == Outcome(st, w) && Finished(next, w, st.tosign) == Finished(st, w, st.tosign)
  {
    assert st.jobs[w := job] - {w} == st.jobs - {w};
  }

  lemma FromPayload(st: State, w: S.WorkerId)
    requires FilesOk(st) && SessionOk(st) && Holds(st, w) && AtPc(st, w, ReadPayload) && !st.signerDone
    requires st.jobs[w].saved in {None, Some(st.original)} && !st.jobs[w].resume
    ensures AloneEnds(st, w, Outcome(st, w))
  {
    var next := DoWork(st, w, Done);
    SameOutcome(st, w, next.jobs[w]);
    if st.marker {
      FromConfirm(next, w);
    } else if st.saved.None? {
      NeverUploaded(st);
      FromReadInprocess(next, w);
    } else {
      FromPreCheck(next, w);
    }
    AfterStep(st, w, next, Outcome(st, w));
  }

  lemma NeverUploaded(st: State)
    requires FilesOk(st) && SessionOk(st) && st.saved.None?
    ensures st.tosign in {None, Some(st.original)} && st.tosign != Some(SignedPdf(st))
  {
    assert |SignedPdf(st)| == |st.original| + 1;
  }

  lemma FromPreCheck(st: State, w: S.WorkerId)
    requires FilesOk(st) && Holds(st, w) && AtPc(st, w, PreCheck) && !st.signerDone && !st.marker
    requires st.jobs[w].saved == Some(st.original) && !st.jobs[w].resume
    ensures AloneEnds(st, w, Outcome(st, w))
  {
    var next := DoWork(st, w, Done);
    assert |SignedPdf(st)| == |st.original| + 1;
    if st.tosign == Some(SignedPdf(st)) {
      FromConfirm(next, w);
    } else {
      FromReadInprocess(next, w);
    }
    AfterStep(st, w, next, Outcome(st, w));
  }

  /** A job just claimed, left to itself, ends with exactly this outcome. */
  lemma JobRunsToItsEnd(st: State, w: S.WorkerId)
    requires Inv(st) && Holds(st, w) && AtPc(st, w, Start)
    ensures AloneEnds(st, w, Outcome(st, w))
  {
    var next := DoWork(st, w, Done);
    if st.signerDone {
      ClosesOnly(st, w);
    } else {
      Starts(st, w);
      FromPayload(next, w);
      AfterStep(st, w, next, Outcome(st, w));
    }
  }

  lemma ClosesOnly(st: State, w: S.WorkerId)
    requires Holds(st, w) && AtPc(st, w, Start) && st.signerDone
    ensures AloneEnds(st, w, Outcome(st, w))
  {
    var next := DoWork(st, w, Done);
    Ends(next, w);
    AfterStep(st, w, next, Outcome(st, w));
  }

  lemma Starts(st: State, w: S.WorkerId)
    requires FilesOk(st) && SessionOk(st) && Holds(st, w) && AtPc(st, w, Start) && !st.signerDone
    ensures var next := DoWork(st, w, Done);
            && FilesOk(next) && SessionOk(next) && Holds(next, w) && AtPc(next, w, ReadPayload)
            && Outcome(next, w) == Outcome(st, w) && !next.signerDone
            && next.original == st.original && next.jobs[w].saved == st.jobs[w].saved
            && next.jobs[w].resume == st.jobs[w].resume
  {
    var next := DoWork(st, w, Done);
    assert next.jobs - {w} == st.jobs - {w};
  }

  /** So the session ends signed, with the signature in `tosign/` unless a rollback had torn it away, if and only if
      the signer or the upload was marked or `tosign/` does not hold the unsigned PDF. */
  lemma EndsSignedExactly(st: State, w: S.WorkerId)
    requires Inv(st)
    ensures Outcome(st, w).status == S.Signed <==>
        st.status == S.Signed || st.signerDone || st.marker || st.tosign != Some(st.original)
    ensures Outcome(st, w).status == S.Signed && !st.torn && st.status != S.Signed ==>
        Outcome(st, w).tosign == Some(SignedPdf(st)) && Outcome(st, w).uploads == 1
  {
    assert |SignedPdf(st)| == |st.original| + 1;
  }

  // --- Calls that fail ---

  /** Before the upload a failing call sends the PDF back to `tosign/`, as it was, and fails the session. */
  lemma FailureUnlocks(st: State, w: S.WorkerId)
    requires FilesOk(st) && Holds(st, w) && w in st.jobs && (IsLook(st.jobs[w].pc) || IsSigning(st.jobs[w].pc))
    requires st.uploads == 0 && (IsSigning(st.jobs[w].pc) ==> st.jobs[w].pdf.Some?)
    ensures AloneEnds(DoWork(st, w, LostBefore), w, End(st.(tosign := Some(st.original), inprocess := None,
        status := S.SessionStatus.Failed), w))
  {
    var failed := DoWork(st, w, LostBefore);
    assert failed == Goto(st, w, Rollback);
    RollsBackAndFails(failed, w);
    assert failed.jobs - {w} == st.jobs - {w};
  }

  lemma RollsBackAndFails(st: State, w: S.WorkerId)
    requires FilesOk(st) && Holds(st, w) && AtPc(st, w, Rollback) && st.uploads == 0
    ensures AloneEnds(st, w, End(st.(tosign := Some(st.original), inprocess := None,
        status := S.SessionStatus.Failed), w))
  {
    var back := DoWork(st, w, Done);
    assert |SignedPdf(st)| == |st.original| + 1;
    Ends(back, w);
    assert back.jobs - {w} == st.jobs - {w};
    AfterStep(st, w, back, DoWork(back, w, Done));
  }

  /** The first two failures put the session back in the queue, the third fails it; the files stay. */
  function Requeued(st: State, w: S.WorkerId): State {
    var n, counted := st.retries + 1, st.(retries := st.retries + 1);
    End(if n < 3 then counted.(status := S.Pending, claimedBy := None, requeueLog := st.requeueLog + [n])
      else counted.(status := S.SessionStatus.Failed), w)
  }

  /** After the upload a failing statement of the update or the closing is counted. */
  lemma FailureRequeuesTwice(st: State, w: S.WorkerId)
    requires Holds(st, w) && w in st.jobs && !st.jobs[w].pc.Marker? && !st.jobs[w].pc.Cleanup?
    requires IsFinish(st.jobs[w].pc)
    ensures AloneEnds(DoWork(st, w, LostBefore), w, Requeued(st, w))
  {
    FailureIsCounted(st, w);
    CountsAndDecides(Goto(st, w, PostCount), w);
  }

  lemma FailureIsCounted(st: State, w: S.WorkerId)
    requires w in st.jobs && !st.jobs[w].pc.Marker? && !st.jobs[w].pc.Cleanup? && IsFinish(st.jobs[w].pc)
    ensures DoWork(st, w, LostBefore) == Goto(st, w, PostCount)
    ensures Requeued(Goto(st, w, PostCount), w) == Requeued(st, w)
  {
    assert DoWork(st, w, LostBefore) == Finish(st, w, LostBefore);
    SameRequeue(st, w);
  }

  lemma SameRequeue(st: State, w: S.WorkerId)
    requires w in st.jobs
    ensures Requeued(Goto(st, w, PostCount), w) == Requeued(st, w)
  {
    assert Goto(st, w, PostCount).jobs - {w} == st.jobs - {w};
  }

  lemma CountsAndDecides(st: State, w: S.WorkerId)
    requires Holds(st, w) && AtPc(st, w, PostCount)
    ensures AloneEnds(st, w, Requeued(st, w))
  {
    var counted := DoWork(st, w, Done);
    var decided := DoWork(counted, w, Done);
    assert counted.jobs - {w} == st.jobs - {w};
    if st.retries + 1 < 3 {
      Ends(counted, w);
      AfterStep(st, w, counted, decided);
    } else {
      Ends(decided, w);
      assert decided.jobs - {w} == st.jobs - {w};
      AfterStep(counted, w, decided, DoWork(decided, w, Done));
      AfterStep(st, w, counted, DoWork(decided, w, Done));
    }
  }

  // --- The sweeper ---

  /** A session that waited too long before its upload ends expired, with its PDF back in `tosign/` as it was. */
  lemma ExpiryUnlocks(st: State)
    requires FilesOk(st) && st.uploads == 0 && Enabled(st, ExpirePending)
    ensures var expired := Apply(st, ExpirePending);
            && Enabled(expired, RollBackExpired)
            && var st' := Apply(expired, RollBackExpired);
               && st'.status == S.Expired && st'.tosign == Some(st.original) && st'.inprocess == None
               && st'.torn == st.torn && st'.uploads == 0 && !Enabled(st', RollBackExpired)
  {
    assert |SignedPdf(st)| == |st.original| + 1;
  }

  /** A session its job abandoned is claimed again, by a job that starts over. */
  lemma AbandonedStartsOver(st: State, w: S.WorkerId)
    requires Inv(st) && Enabled(st, RequeueProcessing) && w !in st.workersUsed
    ensures var free := Apply(st, RequeueProcessing);
            && Enabled(free, Claim(w))
            && var st' := Apply(free, Claim(w));
               && Inv(st') && Holds(st', w) && AtPc(st', w, Start)
               && st' == st.(claimedBy := Some(w), workersUsed := st.workersUsed + {w}, jobs := st'.jobs)
               && forall v | v in st.jobs :: v in st'.jobs && st'.jobs[v] == st.jobs[v] && !Holds(st', v)
  {
    StepKeepsInv(st, RequeueProcessing);
    StepKeepsInv(Apply(st, RequeueProcessing), Claim(w));
  }
}
