/** The sweeper never comes too early: over every run, whatever it cancels or takes on was reserved, or confirmed, by
    an earlier event, more than the lifetime of its status before. And what each of its steps leaves. */
module SweepTimes {
  import opened Wrappers
  import opened OfficialRows
  import opened SigningSessions
  import opened SigningProtocol
  import opened SigningTheorems
  import N = NumberingRuns

  /** The event reserves a number for the document. */
  predicate Reserves(e: Event, d: DocId) {
    e.step.Numbering? && IsReservation(e.step.op) && e.step.op.req.doc == d
  }

  /** The event confirms the document's number. */
  predicate Confirms(st: State, e: Event, d: DocId) {
    (e.step.ConfirmCas? && e.step.w in st.tasks && st.tasks[e.step.w].job.doc == d) || e.step == DigitalConfirm(d)
  }

  /** What one transaction does to the times of RESERVED and CONFIRMING rows. */
  lemma TimesAreEvents(num: N.State, op: N.Op, now: Time, d: DocId)
    requires N.Enabled(num, op, now) && !op.ReserveSpecial? && d in N.Apply(num, op, now).docs
    ensures var row := N.Apply(num, op, now).docs[d];
            && (row.status == Reserved ==>
                  || (d in num.docs && num.docs[d] == row)
                  || (IsReservation(op) && op.req.doc == d && row.origin.reservedAt == now))
            && (row.status == Confirming ==>
                  || (d in num.docs && num.docs[d] == row)
                  || (op.Confirm? && op.doc == d && row.updatedAt == now))
  {
  }

  /** The row's time is that of an earlier event. */
  ghost predicate Dated(states: seq<State>, events: seq<Event>, i: nat, d: DocId)
    requires i < |states| && |states| == |events| + 1 && d in states[i].num.docs
  {
    var row := states[i].num.docs[d];
    && (row.status == Reserved ==>
          exists k | 0 <= k < i :: Reserves(events[k], d) && events[k].now == row.origin.reservedAt)
    && (row.status == Confirming ==>
          exists k | 0 <= k < i :: Confirms(states[k], events[k], d) && events[k].now == row.updatedAt)
  }

  lemma OpIsTheEvent(st: State, e: Event, d: DocId)
    requires Enabled(st, e.step, e.now) && OpOf(st, e.step).Some?
    ensures var op := OpOf(st, e.step).value;
            && !op.ReserveSpecial?
            && (IsReservation(op) && op.req.doc == d ==> Reserves(e, d))
            && (op.Confirm? && op.doc == d ==> Confirms(st, e, d))
  {
  }

  lemma StepDates(st: State, e: Event, st': State, d: DocId)
    requires Next(st, e, st') && d in st'.num.docs
    ensures var row := st'.num.docs[d];
            && (row.status == Reserved ==>
                  (d in st.num.docs && st.num.docs[d] == row) || (Reserves(e, d) && row.origin.reservedAt == e.now))
            && (row.status == Confirming ==>
                  (d in st.num.docs && st.num.docs[d] == row) || (Confirms(st, e, d) && row.updatedAt == e.now))
  {
    StepRefines(st, e.step, e.now);
    if OpOf(st, e.step).Some? {
      OpIsTheEvent(st, e, d);
      TimesAreEvents(st.num, OpOf(st, e.step).value, e.now, d);
    }
  }

  lemma {:induction false} RunDates(states: seq<State>, events: seq<Event>, i: nat, d: DocId)
    requires Run(states, events) && states[0] == Init && i < |states| && d in states[i].num.docs
    ensures Dated(states, events, i, d)
  {
    if i > 0 {
      assert StepAt(states, events, i - 1);
      StepDates(states[i - 1], events[i - 1], states[i], d);
      if d in states[i - 1].num.docs && states[i - 1].num.docs[d] == states[i].num.docs[d] {
        RunDates(states, events, i - 1, d);
      }
    }
  }

  /** No session on the ticket is pending or processing. */
  predicate NothingQueued(ss: Sessions, t: Ticket) {
    forall s | s in ss && ss[s].ticket == Some(t) :: ss[s].status != Pending && ss[s].status != Processing
  }

  /** A reservation the sweeper cancels was made by an earlier event, more than 15 minutes before, and nothing is queued
      for it; the step cancels this row and changes no other. */
  lemma SweptOnlyWhenOld(states: seq<State>, events: seq<Event>, k: nat, d: DocId)
    requires Run(states, events) && states[0] == Init && k < |events| && events[k].step == SweepReserved(d)
    ensures exists i | 0 <= i < k :: Reserves(events[i], d) && events[i].now < events[k].now - 15 * 60
    ensures var docs := states[k].num.docs;
            && d in docs && docs[d].origin.Ticketed? && NothingQueued(states[k].sessions, docs[d].origin.ticket)
            && states[k + 1].num.docs == docs[d := docs[d].(status := Cancelled, updatedAt := events[k].now)]
  {
    assert StepAt(states, events, k);
    SweepReservedTakes(states[k], d, events[k].now, states[k + 1]);
    RunDates(states, events, k, d);
  }

  lemma SweepReservedTakes(st: State, d: DocId, now: Time, st': State)
    requires Next(st, Event(SweepReserved(d), now), st')
    ensures d in st.num.docs && st.num.docs[d].status == Reserved && st.num.docs[d].origin.reservedAt < now - 15 * 60
    ensures NothingQueued(st.sessions, st.num.docs[d].origin.ticket)
    ensures st'.num.docs == st.num.docs[d := st.num.docs[d].(status := Cancelled, updatedAt := now)]
  {
    assert st' == ApplySystem(st, SweepReserved(d), now);
  }

  /** A CONFIRMING number the sweeper takes on was confirmed by an earlier event, more than 20 minutes before. */
  lemma ResumedOnlyWhenOld(states: seq<State>, events: seq<Event>, k: nat, d: DocId)
    requires Run(states, events) && states[0] == Init && k < |events|
    requires events[k].step == SweepDigital(d) || (events[k].step.SweepConfirming? && events[k].step.d == d)
    ensures exists i | 0 <= i < k :: Confirms(states[i], events[i], d) && events[i].now < events[k].now - 20 * 60
    ensures var docs := states[k].num.docs;
            d in docs && docs[d].origin.Ticketed? && NothingQueued(states[k].sessions, docs[d].origin.ticket)
  {
    assert StepAt(states, events, k);
    SweepConfirmingTakes(states[k], events[k].step, d, events[k].now);
    RunDates(states, events, k, d);
  }

  lemma SweepConfirmingTakes(st: State, step: Step, d: DocId, now: Time)
    requires Enabled(st, step, now) && (step == SweepDigital(d) || (step.SweepConfirming? && step.d == d))
    ensures d in st.num.docs && st.num.docs[d].status == Confirming && st.num.docs[d].updatedAt < now - 20 * 60
    ensures NothingQueued(st.sessions, st.num.docs[d].origin.ticket)
  {
  }

  /** And it does take on every reservation it may: the step that cancels is enabled exactly for the RESERVED rows more
      than 15 minutes old with nothing queued. */
  lemma SweepReservedExactly(st: State, d: DocId, now: Time)
    requires d in st.num.docs
    ensures Enabled(st, SweepReserved(d), now) <==>
              && st.num.docs[d].status == Reserved && now - st.num.docs[d].origin.reservedAt > 15 * 60
              && NothingQueued(st.sessions, st.num.docs[d].origin.ticket)
  {
    if st.num.docs[d].origin.Ticketed? {
      assert NothingQueued(st.sessions, st.num.docs[d].origin.ticket) <==>
               !LiveOnTicket(st.sessions, st.num.docs[d].origin.ticket);
    }
  }

  /** The sessions put in the queue: free at once and for half an hour, of the row's ticket and number. A job that takes
      on a CONFIRMING or CONFIRMED number resumes it, and only the latter skips to marking the document. */
  lemma QueuedExactly(st: State, step: Step, now: Time)
    requires step.Enqueue? || step.SweepConfirming? || step.SweepConfirmed?
    requires Enabled(st, step, now)
    ensures var s, d, st' := step.s, step.d, Apply(st, step, now);
            && d in st.num.docs && s !in st.sessions && st'.sessions.Keys == st.sessions.Keys + {s}
            && (forall o | o in st.sessions :: st'.sessions[o] == st.sessions[o])
            && st'.num == st.num && st'.store == st.store && st'.drafts == st.drafts && st'.tasks == st.tasks
            && var row, job := st.num.docs[d], st'.sessions[s];
               && job.doc == d && row.origin.Ticketed? && job.ticket == Some(row.origin.ticket)
               && job.payload.number.year == row.lane.year && job.payload.number.sequence == row.number
               && job.payload.guardAttempts == 0 && job.payload.updateRetries == 0
               && (forall t: Time :: Claimable(st'.sessions, s, t))
               && (forall t: Time :: PendingExpired(job, TENANT, JobType.Sign, t) <==> t > now + 30 * 60)
               && (job.payload.isConfirming <==> row.status in {Confirming, Confirmed} && !step.Enqueue?)
               && (job.payload.autoheal <==> row.status == Confirmed && !step.Enqueue?)
  {
    var row := st.num.docs[step.d];
    NewSessionIsFree(Apply(st, step, now).sessions, step.s, row.origin.ticket, now);
  }

  /** The trace left on a CONFIRMED number of a rejected document, and on a digital number that hangs: a session already
      over, which nobody can claim. */
  lemma MarkedExactly(st: State, d: DocId, s: SessionId, now: Time)
    requires Enabled(st, SweepMarker(d, s), now)
    ensures var st' := Apply(st, SweepMarker(d, s), now);
            && d in st.num.docs && st.num.docs[d].origin.Ticketed? && s !in st.sessions
            && st'.sessions == st.sessions[s := st'.sessions[s]] && st'.sessions[s].status == SessionStatus.Failed
            && st'.sessions[s].doc == d && st'.sessions[s].ticket == Some(st.num.docs[d].origin.ticket)
            && st'.num == st.num && st'.store == st.store && st'.drafts == st.drafts && st'.tasks == st.tasks
            && (forall t: Time :: !Claimable(st'.sessions, s, t))
  {
  }

  /** The expiry of the queue: the pending numerator sessions past their time, and no others, end expired. */
  lemma ExpiredExactly(st: State, now: Time)
    ensures var st' := Apply(st, SweepPending, now);
            && st' == st.(sessions := st'.sessions) && st'.sessions.Keys == st.sessions.Keys
            && forall s | s in st.sessions ::
                 var job := st.sessions[s];
                 st'.sessions[s] == if job.schema == TENANT && job.job == JobType.Sign && job.status == Pending
                     && now > job.expiresAt then job.(status := Expired) else job
  {
    assert Apply(st, SweepPending, now) == ApplySystem(st, SweepPending, now);
  }

  /** And of the claims: a session whose claim has run out goes back unclaimed for half an hour, the next job resuming
      exactly when the last one did or the row is CONFIRMING by now. */
  lemma AbandonedExactly(st: State, s: SessionId, now: Time)
    requires Enabled(st, SweepProcessing(s), now)
    ensures var st', job := Apply(st, SweepProcessing(s), now), st.sessions[s];
            && job.status == Processing && now > job.expiresAt
            && st' == st.(sessions := st.sessions[s := st'.sessions[s]])
            && st'.sessions[s] == job.(status := Pending, claimedBy := None, expiresAt := now + 30 * 60,
                payload := st'.sessions[s].payload)
            && (st'.sessions[s].payload.isConfirming <==>
                  job.payload.isConfirming || (job.doc in st.num.docs && st.num.docs[job.doc].status == Confirming))
            && st'.sessions[s].payload == job.payload.(isConfirming := st'.sessions[s].payload.isConfirming)
  {
    assert Apply(st, SweepProcessing(s), now) == ApplySystem(st, SweepProcessing(s), now);
  }

  lemma NewSessionIsFree(ss: Sessions, s: SessionId, t: Ticket, now: Time)
    requires s in ss && ss[s] == NewSession(ss[s].doc, t, Pending, ss[s].payload, now)
    ensures forall at: Time :: Claimable(ss, s, at)
    ensures forall at: Time :: PendingExpired(ss[s], TENANT, JobType.Sign, at) <==> at > now + 30 * 60
  {
  }
}
