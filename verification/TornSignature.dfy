/** A run that ends signed without the signature. Job 1 reads the locked PDF and loses its claim; job 2 signs and
    uploads; job 1 then fails and rolls the lock back, moving the unsigned copy over the upload, and dies before
    failing the session; job 2 marks the signer and closes the session. */
module TornSignature {
  import opened Wrappers
  import opened SigningSessions
  import opened CommonSigning

  const ME: nat := 7
  const PLAIN: Pdf := []
  const Queued := Enqueued(PLAIN, ME)
  const Claimed1 := Queued.(status := Processing, claimedBy := Some(1), workersUsed := {1},
    jobs := map[1 := Fresh(Start)])
  const Read1 := Claimed1.(jobs := map[1 := Fresh(ReadInprocess)])
  const Lapsed := Read1.(status := Pending, claimedBy := None)
  const Stale: Job := Fresh(ReadInprocess)
  const Claimed2 := Lapsed.(status := Processing, claimedBy := Some(2), workersUsed := {1, 2})
  const Saved := Claimed2.(saved := Some(PLAIN))
  const Stored := Saved.(tosign := Some([ME]), uploads := 1)
  const TornState := Stored.(tosign := Some(PLAIN), inprocess := None, torn := true)
  const Marked := TornState.(marker := true)
  const Done2 := Marked.(signerDone := true)
  const Ended := Done2.(status := Signed)

  function Fresh(pc: Pc): Job {
    Job(pc, false, None, None, 0)
  }

  function Reading(pc: Pc): Job {
    Job(pc, false, None, Some(PLAIN), 0)
  }

  /** The jobs in flight: job 1 stale at `pc1`, job 2 as given. */
  function With(st: State, job1: Job, job2: Job): State {
    st.(jobs := map[1 := job1, 2 := job2])
  }

  ghost predicate Reached(st: State) {
    exists states: seq<State>, steps: seq<Step> :: Path(states, steps, st)
  }

  ghost predicate Path(states: seq<State>, steps: seq<Step>, st: State) {
    Run(states, steps) && states[0] == Queued && states[|steps|] == st
  }

  lemma Then(st: State, step: Step, st': State)
    requires Reached(st) && Next(st, step, st')
    ensures Reached(st')
  {
    var states: seq<State>, steps: seq<Step> :| Path(states, steps, st);
    assert Path(states + [st'], steps + [step], st');
  }

  lemma FirstJobReads()
    ensures Reached(Lapsed)
  {
    var states, steps: seq<Step> := [Queued], [];
    assert Path(states, steps, Queued);
    Then(Queued, Claim(1), Claimed1);
    Then(Claimed1, Work(1, Done), Claimed1.(jobs := map[1 := Fresh(ReadPayload)]));
    Then(Claimed1.(jobs := map[1 := Fresh(ReadPayload)]), Work(1, Done), Read1);
    Then(Read1, RequeueProcessing, Lapsed);
  }

  lemma SecondJobReads()
    ensures Reached(With(Claimed2, Stale, Reading(SaveHash)))
  {
    FirstJobReads();
    Then(Lapsed, Claim(2), With(Claimed2, Stale, Fresh(Start)));
    Then(With(Claimed2, Stale, Fresh(Start)), Work(2, Done), With(Claimed2, Stale, Fresh(ReadPayload)));
    Then(With(Claimed2, Stale, Fresh(ReadPayload)), Work(2, Done), With(Claimed2, Stale, Fresh(ReadInprocess)));
    Then(With(Claimed2, Stale, Fresh(ReadInprocess)), Work(2, Done), With(Claimed2, Stale, Reading(SaveHash)));
  }

  lemma SecondJobUploads()
    ensures Reached(With(Saved, Stale, Reading(Put)))
  {
    SecondJobReads();
    Then(With(Claimed2, Stale, Reading(SaveHash)), Work(2, Done), With(Saved, Stale, Reading(SignPdf)));
    Then(With(Saved, Stale, Reading(SignPdf)), Work(2, Done), With(Saved, Stale, Reading(Put)));
  }

  lemma SecondJobStores()
    ensures Reached(With(Stored, Stale, Reading(Marker)))
  {
    SecondJobUploads();
    assert PLAIN + [ME] == [ME];
    assert DoPut(With(Saved, Stale, Reading(Put)), 2, Done) == With(Stored, Stale, Reading(Marker));
    Then(With(Saved, Stale, Reading(Put)), Work(2, Done), With(Stored, Stale, Reading(Marker)));
  }

  lemma FirstJobTears()
    ensures Reached(TornState.(jobs := map[2 := Reading(Marker)]))
  {
    SecondJobStores();
    assert SignedPdf(Stored) == [ME];
    Then(With(Stored, Stale, Reading(Marker)), Work(1, LostBefore), With(Stored, Fresh(Rollback), Reading(Marker)));
    Then(With(Stored, Fresh(Rollback), Reading(Marker)), Work(1, Done),
      With(TornState, Fresh(MarkFailed), Reading(Marker)));
    assert map[1 := Fresh(MarkFailed), 2 := Reading(Marker)] - {1} == map[2 := Reading(Marker)];
    Then(With(TornState, Fresh(MarkFailed), Reading(Marker)), Crash(1), TornState.(jobs := map[2 := Reading(Marker)]));
  }

  lemma SecondJobCleans()
    ensures Reached(Marked.(jobs := map[2 := Reading(Confirm)]))
  {
    FirstJobTears();
    Then(TornState.(jobs := map[2 := Reading(Marker)]), Work(2, Done), Marked.(jobs := map[2 := Reading(Cleanup)]));
    Then(Marked.(jobs := map[2 := Reading(Cleanup)]), Work(2, Done), Marked.(jobs := map[2 := Reading(Confirm)]));
  }

  lemma SecondJobMarks()
    ensures Reached(Done2.(jobs := map[2 := Reading(CloseSession)]))
  {
    SecondJobCleans();
    Then(Marked.(jobs := map[2 := Reading(Confirm)]), Work(2, Done), Marked.(jobs := map[2 := Reading(UpdateSigner)]));
    Then(Marked.(jobs := map[2 := Reading(UpdateSigner)]), Work(2, Done),
      Done2.(jobs := map[2 := Reading(CloseSession)]));
  }

  lemma SignedWithoutSignature() returns (st: State)
    ensures Reached(st) && st.status == Signed && st.signerDone && st.uploads == 1
    ensures st.tosign.Some? && Signatures(st.tosign.value, st.signer) == 0
  {
    st := Ended.(jobs := map[2 := Reading(LogEvent)]);
    SecondJobMarks();
    Then(Done2.(jobs := map[2 := Reading(CloseSession)]), Work(2, Done), st);
  }
}
