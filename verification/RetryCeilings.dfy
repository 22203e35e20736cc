/** How often a session goes back to the queue because its reservation status could not be read. */
module RetryCeilings {
  import opened OfficialRows
  import opened SigningSessions
  import opened SigningProtocol
  import opened SigningSafety
  import opened SigningTheorems

  function Attempts(ss: Sessions, s: SessionId): nat {
    if s in ss then ss[s].payload.guardAttempts else 0
  }

  /** The step is a failed read of the reservation status, by a job of session s. */
  predicate UnreadableFor(st: State, step: Step, s: SessionId) {
    (step.ReadReservation? || step.ReadStale?) && !step.readOk && step.w in st.tasks && st.tasks[step.w].session == s
  }

  /** It puts the session back in the queue. */
  predicate GuardRequeues(st: State, step: Step, s: SessionId) {
    UnreadableFor(st, step, s) && InStatus(st.sessions, s, Processing)
      && ClaimedAttempts(st, step) + 1 < GUARD_MAX_ATTEMPTS
  }

  /** The counter in the payload the acting job was claimed with. */
  function ClaimedAttempts(st: State, step: Step): nat {
    if IsJobStep(step) && step.w in st.tasks then st.tasks[step.w].job.payload.guardAttempts else 0
  }

  /** The row's counter after the step. */
  function NextAttempts(st: State, step: Step, s: SessionId): nat {
    if GuardRequeues(st, step, s) then ClaimedAttempts(st, step) + 1 else Attempts(st.sessions, s)
  }

  /** A job that requeues carries the counter the row has now. */
  predicate UpToDate(st: State, step: Step, s: SessionId) {
    GuardRequeues(st, step, s) ==> ClaimedAttempts(st, step) == Attempts(st.sessions, s)
  }

  /** The job that failed to read still holds the claim. */
  predicate HolderActs(st: State, step: Step, s: SessionId) {
    UnreadableFor(st, step, s) ==> Holds(st.sessions, s, step.w)
  }

  /** The claim's holder carries the counter of the row. */
  predicate HolderKnows(st: State, s: SessionId) {
    && Attempts(st.sessions, s) < GUARD_MAX_ATTEMPTS
    && (forall w | w in st.tasks :: st.tasks[w].session in st.sessions && w in st.workersUsed)
    && (forall w | w in st.tasks && st.tasks[w].session == s && Holds(st.sessions, s, w) ::
          st.tasks[w].job.payload.guardAttempts == Attempts(st.sessions, s))
  }

  predicate JobsStay(tasks: map<WorkerId, Task>, tasks': map<WorkerId, Task>) {
    forall w | w in tasks' :: w in tasks && tasks'[w].session == tasks[w].session && tasks'[w].job == tasks[w].job
  }

  /** The counter of s becomes `attempts`, and nobody holds the claim of s unless he did before and it is unchanged. */
  ghost predicate CounterMoves(ss: Sessions, ss': Sessions, s: SessionId, attempts: nat) {
    && Attempts(ss', s) == attempts
    && (forall w :: Holds(ss', s, w) ==> Holds(ss, s, w) && attempts == Attempts(ss, s))
  }

  lemma QuietStepKeepsKnowledge(st: State, st': State, s: SessionId, attempts: nat)
    requires HolderKnows(st, s) && JobsStay(st.tasks, st'.tasks) && st'.workersUsed == st.workersUsed
    requires CounterMoves(st.sessions, st'.sessions, s, attempts) && st.sessions.Keys <= st'.sessions.Keys
    requires attempts < GUARD_MAX_ATTEMPTS
    ensures HolderKnows(st', s)
  {
  }

  lemma GuardStatementCounts(ss: Sessions, s: SessionId, s': SessionId, claimed: Payload, now: Time)
    ensures CounterMoves(ss, RequeueGuard(ss, s', claimed, 30, now), s,
                         if s == s' && InStatus(ss, s, Processing) && claimed.guardAttempts + 1 < GUARD_MAX_ATTEMPTS
                         then claimed.guardAttempts + 1 else Attempts(ss, s))
  {
  }

  lemma OtherStatementsDoNotCount(ss: Sessions, s: SessionId, s': SessionId, w: WorkerId, n: nat, number: Num,
      now: Time)
    ensures CounterMoves(ss, RequeuePending(ss, s', n, now), s, Attempts(ss, s))
    ensures CounterMoves(ss, MarkFailed(ss, s'), s, Attempts(ss, s))
    ensures CounterMoves(ss, MarkSigned(ss, s', w, number), s, Attempts(ss, s))
  {
  }

  lemma JobStatementCounts(st: State, step: Step, now: Time, s: SessionId)
    requires IsJobStep(step) && step.w in st.tasks
    ensures CounterMoves(st.sessions, QueueAfter(st, step, now), s, NextAttempts(st, step, s))
  {
    var task := st.tasks[step.w];
    if (step.ReadReservation? || step.ReadStale?) && !step.readOk {
      GuardStatementCounts(st.sessions, s, task.session, task.job.payload, now);
    } else if step.PrepareAndSign? && step.result.BreakerOpen? {
      OtherStatementsDoNotCount(st.sessions, s, task.session, step.w, step.result.retryAfter,
        task.job.payload.number, now);
    } else {
      OtherStatementsDoNotCount(st.sessions, s, task.session, step.w, 0, task.job.payload.number, now);
    }
  }

  lemma JobStepKeepsKnowledge(st: State, step: Step, now: Time, s: SessionId)
    requires HolderKnows(st, s) && Enabled(st, step, now) && IsJobStep(step)
    ensures HolderKnows(ApplyJob(st, step, now), s)
    ensures Attempts(ApplyJob(st, step, now).sessions, s) == NextAttempts(st, step, s)
  {
    JobStepMovesCounter(st, step, now, s);
    QuietStepKeepsKnowledge(st, ApplyJob(st, step, now), s, NextAttempts(st, step, s));
  }

  lemma JobStepMovesCounter(st: State, step: Step, now: Time, s: SessionId)
    requires Enabled(st, step, now) && IsJobStep(step)
    ensures CounterMoves(st.sessions, ApplyJob(st, step, now).sessions, s, NextAttempts(st, step, s))
    ensures ApplyJob(st, step, now).sessions.Keys == st.sessions.Keys
  {
    JobStepOnQueue(st, step, now);
    JobStatementCounts(st, step, now, s);
    QueueAfterIsForward(st, step, now);
  }

  lemma ClaimKeepsKnowledge(st: State, claimed: SessionId, w: WorkerId, now: Time, s: SessionId)
    requires HolderKnows(st, s) && Enabled(st, ClaimJob(claimed, w), now)
    ensures HolderKnows(DoClaim(st, claimed, w, now), s)
    ensures Attempts(DoClaim(st, claimed, w, now).sessions, s) == Attempts(st.sessions, s)
  {
  }

  lemma LeaseStepKeepsKnowledge(st: State, step: Step, now: Time, s: SessionId)
    requires HolderKnows(st, s) && Enabled(st, step, now) && IsLeaseStep(step)
    ensures HolderKnows(ApplySystem(st, step, now), s)
    ensures Attempts(ApplySystem(st, step, now).sessions, s) == Attempts(st.sessions, s)
  {
    if step.ClaimJob? {
      ClaimKeepsKnowledge(st, step.s, step.w, now, s);
    } else {
      QuietStepKeepsKnowledge(st, ApplySystem(st, step, now), s, Attempts(st.sessions, s));
    }
  }

  lemma NewSessionKeepsKnowledge(st: State, step: Step, now: Time, s: SessionId)
    requires HolderKnows(st, s) && Enabled(st, step, now) && IsNewSession(step)
    ensures HolderKnows(ApplySystem(st, step, now), s)
    ensures Attempts(ApplySystem(st, step, now).sessions, s) == Attempts(st.sessions, s)
  {
    QuietStepKeepsKnowledge(st, ApplySystem(st, step, now), s, Attempts(st.sessions, s));
  }

  lemma SweepKeepsKnowledge(st: State, step: Step, now: Time, s: SessionId)
    requires HolderKnows(st, s) && Enabled(st, step, now) && IsSweep(step)
    ensures HolderKnows(ApplySystem(st, step, now), s)
    ensures Attempts(ApplySystem(st, step, now).sessions, s) == Attempts(st.sessions, s)
  {
    QuietStepKeepsKnowledge(st, ApplySystem(st, step, now), s, Attempts(st.sessions, s));
  }

  lemma OtherStepKeepsKnowledge(st: State, step: Step, now: Time, s: SessionId)
    requires HolderKnows(st, s) && Enabled(st, step, now) && (IsUserStep(step) || IsDigitalStep(step))
    ensures HolderKnows(ApplySystem(st, step, now), s)
    ensures Attempts(ApplySystem(st, step, now).sessions, s) == Attempts(st.sessions, s)
  {
    OtherStepLeavesJobs(st, step, now);
    if step.ExpireRejected? {
      QuietStepKeepsKnowledge(st, ApplySystem(st, step, now), s, Attempts(st.sessions, s));
    }
  }

  lemma OtherStepLeavesJobs(st: State, step: Step, now: Time)
    requires Enabled(st, step, now) && (IsUserStep(step) || IsDigitalStep(step))
    ensures ApplySystem(st, step, now).tasks == st.tasks && ApplySystem(st, step, now).workersUsed == st.workersUsed
    ensures ApplySystem(st, step, now).sessions == if step.ExpireRejected? then ExpireOnDocument(st.sessions, step.d)
        else st.sessions
  {
  }

  /** One step, whoever acts: a guard requeue leaves the row with the acting job's counter plus one, every other step
      leaves it alone, the sweeper's rewrite of the payload included. */
  lemma StepCounts(st: State, step: Step, now: Time, s: SessionId)
    requires HolderKnows(st, s) && Enabled(st, step, now)
    ensures HolderKnows(Apply(st, step, now), s)
    ensures Attempts(Apply(st, step, now).sessions, s) == NextAttempts(st, step, s)
  {
    if IsJobStep(step) {
      JobStepKeepsKnowledge(st, step, now, s);
    } else if IsLeaseStep(step) {
      LeaseStepKeepsKnowledge(st, step, now, s);
    } else if IsNewSession(step) {
      NewSessionKeepsKnowledge(st, step, now, s);
    } else if IsSweep(step) {
      SweepKeepsKnowledge(st, step, now, s);
    } else {
      OtherStepKeepsKnowledge(st, step, now, s);
    }
  }

  /** So a guard requeue is counted, by exactly one, if and only if the acting job's counter is the row's; the claim's
      holder always has it. */
  lemma RequeueCountsExactly(st: State, step: Step, now: Time, s: SessionId)
    requires HolderKnows(st, s) && Enabled(st, step, now) && GuardRequeues(st, step, s)
    ensures Attempts(Apply(st, step, now).sessions, s) == Attempts(st.sessions, s) + 1 <==> UpToDate(st, step, s)
    ensures Holds(st.sessions, s, step.w) ==> UpToDate(st, step, s)
  {
    StepCounts(st, step, now, s);
  }

  /** The requeues of session s by an unreadable status along a run. */
  function GuardRequeuesIn(states: seq<State>, events: seq<Event>, s: SessionId): nat
    requires |states| == |events| + 1
    decreases |events|
  {
    if events == [] then 0
    else
      var n := |events| - 1;
      GuardRequeuesIn(states[..n + 1], events[..n], s) + (if GuardRequeues(states[n], events[n].step, s) then 1 else 0)
  }

  lemma {:induction false} RunKeepsKnowledge(states: seq<State>, events: seq<Event>, i: nat, s: SessionId)
    requires Run(states, events) && states[0] == Init && i < |states|
    ensures HolderKnows(states[i], s)
  {
    if i > 0 {
      RunKeepsKnowledge(states, events, i - 1, s);
      assert StepAt(states, events, i - 1);
      StepCounts(states[i - 1], events[i - 1].step, events[i - 1].now, s);
    }
  }

  /** At every point of the run the row's counter is the number of requeues made so far. */
  predicate Counted(states: seq<State>, events: seq<Event>, s: SessionId)
    requires |states| == |events| + 1
  {
    forall i | 0 <= i < |states| :: CountedAt(states, events, s, i)
  }

  predicate CountedAt(states: seq<State>, events: seq<Event>, s: SessionId, i: nat)
    requires |states| == |events| + 1 && i < |states|
  {
    GuardRequeuesIn(states[..i + 1], events[..i], s) == Attempts(states[i].sessions, s)
  }

  predicate AllUpToDate(states: seq<State>, events: seq<Event>, s: SessionId)
    requires |states| == |events| + 1
  {
    forall i | 0 <= i < |events| :: UpToDate(states[i], events[i].step, s)
  }

  lemma NextCount(states: seq<State>, events: seq<Event>, s: SessionId, i: nat)
    requires |states| == |events| + 1 && i < |events|
    ensures GuardRequeuesIn(states[..i + 2], events[..i + 1], s)
         == GuardRequeuesIn(states[..i + 1], events[..i], s) + (if GuardRequeues(states[i], events[i].step, s) then 1
           else 0)
  {
    assert states[..i + 2][..i + 1] == states[..i + 1] && events[..i + 1][..i] == events[..i];
  }

  lemma CountStep(states: seq<State>, events: seq<Event>, s: SessionId, i: nat)
    requires Run(states, events) && states[0] == Init && i < |events| && CountedAt(states, events, s, i)
    ensures CountedAt(states, events, s, i + 1) <==> UpToDate(states[i], events[i].step, s)
  {
    RunKeepsKnowledge(states, events, i, s);
    assert StepAt(states, events, i);
    StepCounts(states[i], events[i].step, events[i].now, s);
    NextCount(states, events, s, i);
  }

  lemma {:induction false} UpToDateCounts(states: seq<State>, events: seq<Event>, s: SessionId, i: nat)
    requires Run(states, events) && states[0] == Init && i < |states| && AllUpToDate(states, events, s)
    ensures CountedAt(states, events, s, i)
  {
    if i > 0 {
      UpToDateCounts(states, events, s, i - 1);
      CountStep(states, events, s, i - 1);
    }
  }

  /** For every run: the counter counts the requeues throughout if and only if each of them was made by a job that
      carried the row's counter. Then there are at most four. */
  lemma CounterIsExact(states: seq<State>, events: seq<Event>, s: SessionId)
    requires Run(states, events) && states[0] == Init
    ensures Counted(states, events, s) <==> AllUpToDate(states, events, s)
    ensures AllUpToDate(states, events, s) ==> GuardRequeuesIn(states, events, s) <= GUARD_MAX_ATTEMPTS - 1
  {
    if Counted(states, events, s) {
      forall i | 0 <= i < |events|
        ensures UpToDate(states[i], events[i].step, s)
      {
        assert CountedAt(states, events, s, i) && CountedAt(states, events, s, i + 1);
        CountStep(states, events, s, i);
      }
    }
    if AllUpToDate(states, events, s) {
      forall i | 0 <= i < |states|
        ensures CountedAt(states, events, s, i)
      {
        UpToDateCounts(states, events, s, i);
      }
      assert CountedAt(states, events, s, |events|);
      assert states[..|events| + 1] == states && events[..|events|] == events;
      RunKeepsKnowledge(states, events, |events|, s);
    }
  }

  /** In a run in which a job that fails to read still holds its claim, at most four requeues are made. */
  lemma GuardCeiling(states: seq<State>, events: seq<Event>, s: SessionId)
    requires Run(states, events) && states[0] == Init
    requires forall i | 0 <= i < |events| :: HolderActs(states[i], events[i].step, s)
    ensures GuardRequeuesIn(states, events, s) == Attempts(states[|events|].sessions, s)
    ensures GuardRequeuesIn(states, events, s) <= GUARD_MAX_ATTEMPTS - 1
  {
    forall i | 0 <= i < |events|
      ensures UpToDate(states[i], events[i].step, s)
    {
      RunKeepsKnowledge(states, events, i, s);
      assert HolderActs(states[i], events[i].step, s);
    }
    CounterIsExact(states, events, s);
    assert CountedAt(states, events, s, |events|);
    assert states[..|events| + 1] == states && events[..|events|] == events;
  }

  /** The holder whose read fails at the ceiling ends the session. */
  lemma LastAttemptFails(st: State, step: Step, now: Time, s: SessionId)
    requires HolderKnows(st, s) && Enabled(st, step, now) && UnreadableFor(st, step, s) && Holds(st.sessions, s, step.w)
    ensures InStatus(Apply(st, step, now).sessions, s, Failed) <==> Attempts(st.sessions, s) == GUARD_MAX_ATTEMPTS - 1
  {
    JobStepOnQueue(st, step, now);
  }
}
