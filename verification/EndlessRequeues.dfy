/** Runs in which a session is sent back by an unreadable status as often as one likes. k jobs lose their claims before
    they read the status; then each of them fails to read while somebody else holds the claim, and writes the counter
    it once claimed plus one: the row's counter never passes 1. */
module EndlessRequeues {
  import opened Wrappers
  import opened OfficialRows
  import opened SigningSessions
  import opened SigningProtocol
  import opened SigningProgress
  import opened SigningTheorems
  import opened RetryCeilings
  import L = LostPdf

  const SESSION: SessionId := 1

  /** Some run from the empty system, on a clock that does not go back, ends in st no later than `now`, after
      `count` requeues of the session by an unreadable status. */
  ghost predicate Reached(st: State, count: nat, now: Time) {
    Paths(st, count, now) != iset{}
  }

  ghost function Paths(st: State, count: nat, now: Time): iset<(seq<State>, seq<Event>)> {
    iset path: (seq<State>, seq<Event>) | EndsIn(path.0, path.1, st, count, now)
  }

  ghost predicate EndsIn(states: seq<State>, events: seq<Event>, st: State, count: nat, now: Time) {
    && Run(states, events) && states[0] == Init && states[|events|] == st
    && GuardRequeuesIn(states, events, SESSION) == count && Clocked(events, now)
  }

  predicate Clocked(events: seq<Event>, now: Time) {
    && (forall i, j | 0 <= i <= j < |events| :: events[i].now <= events[j].now)
    && (forall i | 0 <= i < |events| :: events[i].now <= now)
  }

  lemma Then(st: State, e: Event, st': State, count: nat, now: Time)
    requires Reached(st, count, now) && now <= e.now && Next(st, e, st')
    ensures Reached(st', count + (if GuardRequeues(st, e.step, SESSION) then 1 else 0), e.now)
  {
    var path :| path in Paths(st, count, now);
    Extend(path.0, path.1, st, e, st', count, now);
    assert (path.0 + [st'], path.1 + [e]) in Paths(st',
      count + (if GuardRequeues(st, e.step, SESSION) then 1 else 0), e.now);
  }

  lemma Extend(states: seq<State>, events: seq<Event>, st: State, e: Event, st': State, count: nat, now: Time)
    requires EndsIn(states, events, st, count, now) && now <= e.now && Next(st, e, st')
    ensures EndsIn(states + [st'], events + [e], st', count + (if GuardRequeues(st, e.step, SESSION) then 1 else 0),
        e.now)
  {
    ExtendRun(states, events, e, st');
    assert (states + [st'])[..|events| + 1] == states && (events + [e])[..|events|] == events;
  }

  /** The session waits to be claimed, and the idle jobs, none of which holds its claim, stand before the status read
      with a counter of 0. */
  ghost predicate Ready(st: State, idle: set<WorkerId>, now: Time) {
    && Claimable(st.sessions, SESSION, now) && IsSignJob(st.sessions[SESSION])
    && forall w | w in idle :: Idle(st.tasks, w)
  }

  predicate IsSignJob(session: Session) {
    session.schema == TENANT && session.job == JobType.Sign && !session.payload.autoheal
  }

  predicate Idle(tasks: map<WorkerId, Task>, w: WorkerId) {
    && w in tasks && tasks[w].session == SESSION && tasks[w].pc == CheckReservation
    && tasks[w].job.payload.guardAttempts == 0 && !tasks[w].job.payload.autoheal
  }

  lemma SentIsReached()
    ensures Reached(L.Sent, 0, 0)
  {
    var states, events: seq<Event> := [Init], [];
    assert (states, events) in Paths(Init, 0, 0);
    L.Reserving();
    Quietly(Init, Event(Numbering(L.RESERVE), 0), L.Reserved0);
    L.Queueing();
    Quietly(L.Reserved0, Event(SetDraft(1, SentToSign), 0), L.Sent);
  }

  /** A step at time 0 that requeues nothing. */
  lemma Quietly(st: State, e: Event, st': State)
    requires Reached(st, 0, 0) && Next(st, e, st') && e.now == 0 && !e.step.ReadReservation? && !e.step.ReadStale?
    ensures Reached(st', 0, 0)
  {
    Then(st, e, st', 0, 0);
  }

  lemma QueuedIsReached()
    ensures Reached(L.Queued, 0, 0)
  {
    SentIsReached();
    L.Queueing();
    Quietly(L.Sent, Event(Enqueue(1, 1), 0), L.Queued);
  }

  lemma QueuedIsReady()
    ensures Ready(L.Queued, {}, 0) && Attempts(L.Queued.sessions, SESSION) == 0
  {
  }

  /** A worker claims the session and goes as far as the status read. */
  lemma Claimed(st: State, idle: set<WorkerId>, now: Time, w: WorkerId) returns (st': State)
    requires Ready(st, idle, now) && w !in st.workersUsed && w !in st.tasks
    ensures Next(st, Event(ClaimJob(SESSION, w), now), st')
    ensures st' == DoClaim(st, SESSION, w, now) && st'.sessions.Keys == st.sessions.Keys
    ensures InStatus(st'.sessions, SESSION, Processing) && IsSignJob(st'.sessions[SESSION])
    ensures st'.sessions[SESSION].expiresAt == now + PROCESSING_TTL && st'.sessions[SESSION].availableAt.None?
    ensures Attempts(st'.sessions, SESSION) == Attempts(st.sessions, SESSION)
    ensures AtPc(st', w, Start) && st'.tasks[w].session == SESSION && st'.tasks[w].job == st'.sessions[SESSION]
    ensures forall v | v in idle :: Idle(st'.tasks, v)
  {
    st' := DoClaim(st, SESSION, w, now);
    assert forall v | v in idle :: v in st.tasks;
  }

  lemma Lapsed(st: State, now: Time, w: WorkerId) returns (st': State)
    requires AtPc(st, w, Start) && st.tasks[w].session == SESSION && IsSignJob(st.tasks[w].job)
    requires InStatus(st.sessions, SESSION, Processing) && IsSignJob(st.sessions[SESSION])
    requires st.sessions[SESSION].expiresAt < now && st.sessions[SESSION].availableAt.None?
    ensures Next(DoBegin(st, w), Event(SweepProcessing(SESSION), now), st')
    ensures st'.tasks == st.tasks[w := st.tasks[w].(pc := CheckReservation)]
    ensures Claimable(st'.sessions, SESSION, now) && IsSignJob(st'.sessions[SESSION])
    ensures Attempts(st'.sessions, SESSION) == Attempts(st.sessions, SESSION)
  {
    var begun := DoBegin(st, w);
    st' := ApplySystem(begun, SweepProcessing(SESSION), now);
    assert Apply(begun, SweepProcessing(SESSION), now) == st';
  }

  /** One more idle job: it claims, begins, and loses its claim to the sweeper. */
  lemma OneMoreIdle(st: State, idle: set<WorkerId>, now: Time) returns (st': State, w: WorkerId)
    requires Reached(st, 0, now) && Ready(st, idle, now) && Attempts(st.sessions, SESSION) == 0
    ensures w !in idle && Reached(st', 0, now + 601) && Ready(st', idle + {w}, now + 601)
        && Attempts(st'.sessions, SESSION) == 0
  {
    w := FreshId(st.workersUsed + st.tasks.Keys);
    assert forall v | v in idle :: v in st.tasks;
    var claimed := Claimed(st, idle, now, w);
    Then(st, Event(ClaimJob(SESSION, w), now), claimed, 0, now);
    assert Apply(claimed, Begin(w), now) == DoBegin(claimed, w);
    Then(claimed, Event(Begin(w), now), DoBegin(claimed, w), 0, now);
    st' := Lapsed(claimed, now + 601, w);
    Then(DoBegin(claimed, w), Event(SweepProcessing(SESSION), now + 601), st', 0, now);
    forall v | v in idle + {w}
      ensures Idle(st'.tasks, v)
    {
      assert v != w ==> Idle(claimed.tasks, v);
    }
  }

  lemma {:induction false} IdleJobs(k: nat) returns (st: State, idle: set<WorkerId>, now: Time)
    ensures |idle| == k && Reached(st, 0, now) && Ready(st, idle, now) && Attempts(st.sessions, SESSION) == 0
  {
    if k == 0 {
      QueuedIsReached();
      QueuedIsReady();
      st, idle, now := L.Queued, {}, 0;
    } else {
      var st0, idle0, now0 := IdleJobs(k - 1);
      var w;
      st, w := OneMoreIdle(st0, idle0, now0);
      idle, now := idle0 + {w}, now0 + 601;
    }
  }

  lemma FailedRead(st: State, now: Time, w: WorkerId) returns (st': State)
    requires Idle(st.tasks, w) && InStatus(st.sessions, SESSION, Processing) && IsSignJob(st.sessions[SESSION])
    ensures Next(st, Event(ReadReservation(w, false), now), st')
        && GuardRequeues(st, ReadReservation(w, false), SESSION)
    ensures st'.tasks == st.tasks - {w}
    ensures Claimable(st'.sessions, SESSION, now + 30) && IsSignJob(st'.sessions[SESSION])
        && Attempts(st'.sessions, SESSION) == 1
  {
    st' := GuardRequeue(st, w, now);
    assert Apply(st, ReadReservation(w, false), now) == DoReadReservation(st, w, false, now);
  }

  /** An idle job fails to read while a new worker holds the claim: the session is requeued with a counter of 1. */
  lemma OneMoreRequeue(st: State, idle: set<WorkerId>, now: Time, w: WorkerId, count: nat) returns (st': State)
    requires Reached(st, count, now) && Ready(st, idle, now) && w in idle
    ensures Reached(st', count + 1, now + 30) && Ready(st', idle - {w}, now + 30)
        && Attempts(st'.sessions, SESSION) == 1
    ensures forall v | v in idle - {w} :: st'.tasks[v] == st.tasks[v]
  {
    var v := FreshId(st.workersUsed + st.tasks.Keys);
    var claimed := Claimed(st, idle, now, v);
    Then(st, Event(ClaimJob(SESSION, v), now), claimed, count, now);
    assert Idle(st.tasks, w) && claimed.tasks[w] == st.tasks[w];
    st' := FailedRead(claimed, now, w);
    Then(claimed, Event(ReadReservation(w, false), now), st', count, now);
    Later(st', count + 1, now, now + 30);
  }

  lemma Later(st: State, count: nat, now: Time, later: Time)
    requires Reached(st, count, now) && now <= later
    ensures Reached(st, count, later)
  {
    var path :| path in Paths(st, count, now);
    assert path in Paths(st, count, later);
  }

  /** All idle jobs, one after the other. */
  lemma {:induction false} AllRequeue(st: State, idle: set<WorkerId>, now: Time, count: nat) returns (st': State,
      later: Time)
    requires Reached(st, count, now) && Ready(st, idle, now) && Attempts(st.sessions, SESSION) <= 1
    ensures Reached(st', count + |idle|, later) && Attempts(st'.sessions, SESSION) <= 1
        && InStatus(st'.sessions, SESSION, Pending)
    decreases |idle|
  {
    if idle == {} {
      st', later := st, now;
    } else {
      var w :| w in idle;
      var next := OneMoreRequeue(st, idle, now, w, count);
      st', later := AllRequeue(next, idle - {w}, now + 30, count + 1);
    }
  }

  /** For every k some run from the empty system requeues one session k times by an unreadable status, never counts
      more than one of them, and leaves the session pending. */
  lemma NoCeilingWithoutTheClaim(k: nat) returns (states: seq<State>, events: seq<Event>)
    ensures Run(states, events) && states[0] == Init && GuardRequeuesIn(states, events, SESSION) == k
    ensures forall i, j | 0 <= i <= j < |events| :: events[i].now <= events[j].now
    ensures Attempts(states[|events|].sessions, SESSION) <= 1 && InStatus(states[|events|].sessions, SESSION, Pending)
  {
    var st, idle, now := IdleJobs(k);
    var st', later := AllRequeue(st, idle, now, 0);
    var path :| path in Paths(st', k, later);
    states, events := path.0, path.1;
  }
}
