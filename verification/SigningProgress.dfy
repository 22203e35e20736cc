/** No reservation of the numerator flow stays stuck: from every reachable state the sweeper and one healthy
    worker bring it to an end. */
module SigningProgress {
  import opened Wrappers
  import opened OfficialRows
  import opened SigningSessions
  import opened SigningProtocol
  import opened SigningSafety
  import G = GlobalNumbering

  // --- An expired reservation always has somebody in charge ---

  /** The lifetime the sweeper grants the row's status is over. */
  predicate Overdue(st: State, d: DocId, now: Time)
    requires d in st.num.docs && st.num.docs[d].origin.Ticketed?
  {
    OverdueRow(st.num.docs[d], DraftIs(st, d, SentToSign), now)
  }

  predicate OverdueRow(row: Row, waiting: bool, now: Time)
    requires row.origin.Ticketed?
  {
    match row.status
    case Reserved => row.origin.reservedAt < now - RESERVED_EXPIRY
    case Confirming => row.updatedAt < now - CONFIRMING_EXPIRY
    case Confirmed => waiting
    case Cancelled => false
  }

  /** A sweeper handler that takes the reservation on: it frees the number or queues a new session for it. */
  ghost predicate SweeperActs(st: State, step: Step, d: DocId, t: Ticket, now: Time) {
    && (step == SweepReserved(d) || (step.SweepConfirming? && step.d == d) || (step.SweepConfirmed? && step.d == d))
    && Enabled(st, step, now)
    && var st' := Apply(st, step, now);
       HoldsTicket(st'.num.docs, d, t) && (st'.num.docs[d].status == Cancelled || LiveOnTicket(st'.sessions, t))
  }

  lemma NobodyIsStuck(st: State, d: DocId, t: Ticket, now: Time)
    requires HoldsTicket(st.num.docs, d, t) && Overdue(st, d, now)
    requires EverOnTicket(st.sessions, t) && t !in st.digital
    ensures LiveOnTicket(st.sessions, t) || exists step :: SweeperActs(st, step, d, t, now)
  {
    if !LiveOnTicket(st.sessions, t) {
      match st.num.docs[d].status
      case Reserved => OrphanIsFreed(st, d, t, now);
      case Confirming => OrphanIsQueued(st, SweepConfirming(d, FreshId(st.sessions.Keys)), d, t, now);
      case Confirmed => OrphanIsQueued(st, SweepConfirmed(d, FreshId(st.sessions.Keys)), d, t, now);
    }
  }

  lemma OrphanIsFreed(st: State, d: DocId, t: Ticket, now: Time)
    requires HoldsTicket(st.num.docs, d, t) && Enabled(st, SweepReserved(d), now)
    ensures SweeperActs(st, SweepReserved(d), d, t, now)
  {
  }

  lemma OrphanIsQueued(st: State, step: Step, d: DocId, t: Ticket, now: Time)
    requires HoldsTicket(st.num.docs, d, t) && Enabled(st, step, now)
        && (step.SweepConfirming? || step.SweepConfirmed?) && step.d == d
    ensures SweeperActs(st, step, d, t, now)
  {
    NewSessionLives(st, step, d, t, now);
  }

  lemma NewSessionLives(st: State, step: Step, d: DocId, t: Ticket, now: Time)
    requires HoldsTicket(st.num.docs, d, t) && Enabled(st, step, now)
    requires (step.SweepConfirming? || step.SweepConfirmed?) && step.d == d
    ensures var st' := Apply(st, step, now);
            && st'.num == st.num && st'.drafts == st.drafts && st'.store == st.store && st'.digital == st.digital
            && st'.tasks == st.tasks && st'.workersUsed == st.workersUsed
            && InStatus(st'.sessions, step.s, Pending) && st'.sessions[step.s].ticket == Some(t)
            && LiveOnTicket(st'.sessions, t)
            && st'.sessions[step.s]
               == NewSession(d, t, Pending, FreshPayload(st.num.docs[d], true, step.SweepConfirmed?), now)
  {
  }

  ghost function FreshId(used: set<nat>): (n: nat)
    ensures n !in used
  {
    G.Max(used) + 1
  }

  /** Every live session can be claimed, requeued or expired once its times have passed. */
  lemma LiveSessionMoves(st: State, s: SessionId, now: Time)
    requires Inv(st) && s in st.sessions && Live(st.sessions[s]) && st.sessions[s].expiresAt < now
    ensures st.sessions[s].status == Processing ==>
              Enabled(st, SweepProcessing(s), now) && InStatus(Apply(st, SweepProcessing(s), now).sessions, s, Pending)
    ensures st.sessions[s].status == Pending ==>
              Enabled(st, SweepPending, now) && InStatus(Apply(st, SweepPending, now).sessions, s, Expired)
  {
    assert SessionOk(st, st.sessions[s]);
  }

  // --- A way out of every state ---

  /** The number is free for reuse, or is CONFIRMED with its PDF stored and its document not waiting. */
  predicate Resolved(st: State, d: DocId, t: Ticket) {
    && HoldsTicket(st.num.docs, d, t)
    && var row := st.num.docs[d];
       || row.status == Cancelled
       || (row.status == Confirmed && StoredAs(st.store, NumOf(row), t) && !DraftIs(st, d, SentToSign))
  }

  /** A run from st, with no event before `now`, that resolves the reservation. */
  ghost predicate WayOut(st: State, d: DocId, t: Ticket, now: Time, states: seq<State>, events: seq<Event>) {
    && Run(states, events) && states[0] == st && Resolved(states[|events|], d, t)
    && forall i | 0 <= i < |events| :: events[i].now >= now && RejectionReadsSucceed(events[i].step)
  }

  ghost predicate CanResolve(st: State, d: DocId, t: Ticket, now: Time) {
    exists states: seq<State>, events: seq<Event> :: WayOut(st, d, t, now, states, events)
  }

  lemma Here(st: State, d: DocId, t: Ticket, now: Time)
    requires Resolved(st, d, t)
    ensures CanResolve(st, d, t, now)
  {
    var states, events: seq<Event> := [st], [];
    assert WayOut(st, d, t, now, states, events);
  }

  lemma After(st: State, step: Step, at: Time, d: DocId, t: Ticket, now: Time)
    requires Enabled(st, step, at) && at >= now && RejectionReadsSucceed(step)
    requires CanResolve(Apply(st, step, at), d, t, now)
    ensures CanResolve(st, d, t, now)
  {
    var st' := Apply(st, step, at);
    var states: seq<State>, events: seq<Event> :| WayOut(st', d, t, now, states, events);
    Prepend(st, step, at, d, t, now, states, events);
  }

  lemma Prepend(st: State, step: Step, at: Time, d: DocId, t: Ticket, now: Time, states: seq<State>, events: seq<Event>)
    requires Enabled(st, step, at) && at >= now && RejectionReadsSucceed(step)
    requires WayOut(Apply(st, step, at), d, t, now, states, events)
    ensures WayOut(st, d, t, now, [st] + states, [Event(step, at)] + events)
  {
    var states', events' := [st] + states, [Event(step, at)] + events;
    forall i | 0 <= i < |events'|
      ensures StepAt(states', events', i)
      ensures events'[i].now >= now && RejectionReadsSucceed(events'[i].step)
    {
      if i > 0 {
        assert StepAt(states, events, i - 1);
      }
    }
  }

  /** A job of the reservation that has reached `pc` and holds its claim. */
  predicate Working(st: State, w: WorkerId, d: DocId, t: Ticket, pc: Pc) {
    && AtPc(st, w, pc) && HoldsTicket(st.num.docs, d, t)
    && var task := st.tasks[w];
       && task.job.doc == d && task.job.ticket == Some(t) && task.resume
       && task.job.payload.number == NumOf(st.num.docs[d])
       && Holds(st.sessions, task.session, w)
  }

  lemma FromMarkDocument(st: State, w: WorkerId, d: DocId, t: Ticket, now: Time)
    requires AtPc(st, w, MarkDocument) && st.tasks[w].job.doc == d
    requires HoldsTicket(st.num.docs, d, t) && st.num.docs[d].status == Confirmed
        && StoredAs(st.store, NumOf(st.num.docs[d]), t)
    ensures CanResolve(st, d, t, now)
  {
    var st' := Apply(st, MarkDocumentSigned(w, Done), now);
    assert st' == DoMarkDocument(st, w, Done);
    Here(st', d, t, now);
    After(st, MarkDocumentSigned(w, Done), now, d, t, now);
  }

  lemma FromUploaded(st: State, w: WorkerId, d: DocId, t: Ticket, now: Time)
    requires Working(st, w, d, t, Uploaded) && st.num.docs[d].status == Confirming && st.num.docs[d].regime == Global
    requires StoredAs(st.store, NumOf(st.num.docs[d]), t)
    ensures CanResolve(st, d, t, now)
  {
    var st' := Apply(st, FinalizeCas(w, Done), now);
    assert st' == DoFinalizeCas(st, w, Done, now);
    FromMarkDocument(st', w, d, t, now);
    After(st, FinalizeCas(w, Done), now, d, t, now);
  }

  lemma FromFence(st: State, w: WorkerId, d: DocId, t: Ticket, now: Time)
    requires Working(st, w, d, t, Fence) && st.num.docs[d].status == Confirming && st.num.docs[d].regime == Global
    ensures CanResolve(st, d, t, now)
  {
    var st' := Apply(st, FenceAndUpload(w, Done), now);
    assert st' == DoFenceAndUpload(st, w, Done);
    FromUploaded(st', w, d, t, now);
    After(st, FenceAndUpload(w, Done), now, d, t, now);
  }

  lemma FromPrepare(st: State, w: WorkerId, d: DocId, t: Ticket, now: Time)
    requires Working(st, w, d, t, Prepare) && st.num.docs[d].status == Confirming && st.num.docs[d].regime == Global
    ensures CanResolve(st, d, t, now)
  {
    var st' := Apply(st, PrepareAndSign(w, SignedPdf), now);
    assert st' == DoPrepareAndSign(st, w, SignedPdf, now);
    FromFence(st', w, d, t, now);
    After(st, PrepareAndSign(w, SignedPdf), now, d, t, now);
  }

  lemma FromCheck(st: State, w: WorkerId, d: DocId, t: Ticket, now: Time)
    requires Working(st, w, d, t, CheckReservation) && st.num.docs[d].status == Confirming
        && st.num.docs[d].regime == Global
    ensures CanResolve(st, d, t, now)
  {
    var st' := Apply(st, ReadReservation(w, true), now);
    assert st' == DoReadReservation(st, w, true, now);
    FromPrepare(st', w, d, t, now);
    After(st, ReadReservation(w, true), now, d, t, now);
  }

  /** A claimed resume or auto-heal job runs to its end. */
  lemma FromStart(st: State, w: WorkerId, d: DocId, t: Ticket, now: Time)
    requires Working(st, w, d, t, Start) && st.num.docs[d].regime == Global
    requires if st.tasks[w].job.payload.autoheal
             then st.num.docs[d].status == Confirmed && StoredAs(st.store, NumOf(st.num.docs[d]), t)
             else st.num.docs[d].status == Confirming
    ensures CanResolve(st, d, t, now)
  {
    var st' := Apply(st, Begin(w), now);
    assert st' == DoBegin(st, w);
    if st.tasks[w].job.payload.autoheal {
      FromMarkDocument(st', w, d, t, now);
    } else {
      FromCheck(st', w, d, t, now);
    }
    After(st, Begin(w), now, d, t, now);
  }

  /** A pending resume or auto-heal session is claimed by a worker of its own. */
  lemma FromPending(st: State, s: SessionId, d: DocId, t: Ticket, autoheal: bool, at: Time, now: Time)
    requires HoldsTicket(st.num.docs, d, t) && st.num.docs[d].regime == Global
    requires s in st.sessions && st.sessions[s]
        == NewSession(d, t, Pending, FreshPayload(st.num.docs[d], true, autoheal), at)
    requires if autoheal then st.num.docs[d].status == Confirmed && StoredAs(st.store, NumOf(st.num.docs[d]), t)
             else st.num.docs[d].status == Confirming
    ensures CanResolve(st, d, t, now)
  {
    var w := FreshId(st.workersUsed);
    var st' := Apply(st, ClaimJob(s, w), now);
    assert st' == DoClaim(st, s, w, now);
    FromStart(st', w, d, t, now);
    After(st, ClaimJob(s, w), now, d, t, now);
  }

  lemma FromQuietReserved(st: State, d: DocId, t: Ticket, now: Time)
    requires HoldsTicket(st.num.docs, d, t) && st.num.docs[d].status == Reserved && !LiveOnTicket(st.sessions, t)
    ensures CanResolve(st, d, t, now)
  {
    var expiry := st.num.docs[d].origin.reservedAt + RESERVED_EXPIRY;
    var at := if now > expiry then now else expiry + 1;
    Here(Apply(st, SweepReserved(d), at), d, t, now);
    After(st, SweepReserved(d), at, d, t, now);
  }

  lemma FromQuietConfirming(st: State, d: DocId, t: Ticket, now: Time)
    requires HoldsTicket(st.num.docs, d, t) && st.num.docs[d].status == Confirming && st.num.docs[d].regime == Global
    requires t !in st.digital && EverOnTicket(st.sessions, t) && !LiveOnTicket(st.sessions, t)
    ensures CanResolve(st, d, t, now)
  {
    var s, expiry := FreshId(st.sessions.Keys), st.num.docs[d].updatedAt + CONFIRMING_EXPIRY;
    var at := if now > expiry then now else expiry + 1;
    NewSessionLives(st, SweepConfirming(d, s), d, t, at);
    FromPending(Apply(st, SweepConfirming(d, s), at), s, d, t, false, at, now);
    After(st, SweepConfirming(d, s), at, d, t, now);
  }

  lemma FromQuietConfirmed(st: State, d: DocId, t: Ticket, now: Time)
    requires Settled(st.num.docs, d, t) && StoredAs(st.store, NumOf(st.num.docs[d]), t)
        && st.num.docs[d].regime == Global
    requires EverOnTicket(st.sessions, t) && !LiveOnTicket(st.sessions, t)
    ensures CanResolve(st, d, t, now)
  {
    var s := FreshId(st.sessions.Keys);
    if DraftIs(st, d, SentToSign) {
      NewSessionLives(st, SweepConfirmed(d, s), d, t, now);
      FromPending(Apply(st, SweepConfirmed(d, s), now), s, d, t, true, now, now);
      After(st, SweepConfirmed(d, s), now, d, t, now);
    } else {
      Here(st, d, t, now);
    }
  }

  /** With nobody at work on the reservation, the sweeper frees the number or starts the job that finishes it. */
  lemma FromQuiet(st: State, d: DocId, t: Ticket, now: Time)
    requires Inv(st) && HoldsTicket(st.num.docs, d, t) && t !in st.digital
    requires EverOnTicket(st.sessions, t) && !LiveOnTicket(st.sessions, t)
    ensures CanResolve(st, d, t, now)
  {
    match st.num.docs[d].status
    case Cancelled => Here(st, d, t, now);
    case Reserved => FromQuietReserved(st, d, t, now);
    case Confirming => FromQuietConfirming(st, d, t, now);
    case Confirmed => FromQuietConfirmed(st, d, t, now);
  }

  lemma ExpiryQuiets(st: State, s: SessionId, d: DocId, t: Ticket, at: Time)
    requires Inv(st) && HoldsTicket(st.num.docs, d, t)
    requires InStatus(st.sessions, s, Pending) && st.sessions[s].ticket == Some(t) && st.sessions[s].expiresAt < at
    ensures var ss := ExpirePending(st.sessions, TENANT, JobType.Sign, at);
            EverOnTicket(ss, t) && !LiveOnTicket(ss, t)
  {
    var ss := ExpirePending(st.sessions, TENANT, JobType.Sign, at);
    assert SessionOk(st, st.sessions[s]);
    assert ss[s].ticket == Some(t);
    forall r | r in ss && Live(ss[r])
      ensures ss[r].ticket != Some(t)
    {
      assert SessionOk(st, st.sessions[r]);
    }
  }

  /** A session left pending expires, and then nobody is at work on the reservation. */
  lemma FromExpirable(st: State, s: SessionId, d: DocId, t: Ticket, now: Time)
    requires Inv(st) && HoldsTicket(st.num.docs, d, t) && t !in st.digital
    requires InStatus(st.sessions, s, Pending) && st.sessions[s].ticket == Some(t)
    ensures CanResolve(st, d, t, now)
  {
    var at := if now > st.sessions[s].expiresAt then now else st.sessions[s].expiresAt + 1;
    ExpiryQuiets(st, s, d, t, at);
    StepKeepsInv(st, SweepPending, at);
    FromQuiet(Apply(st, SweepPending, at), d, t, now);
    After(st, SweepPending, at, d, t, now);
  }

  lemma FromAbandoned(st: State, s: SessionId, d: DocId, t: Ticket, now: Time)
    requires Inv(st) && HoldsTicket(st.num.docs, d, t) && t !in st.digital
    requires InStatus(st.sessions, s, Processing) && st.sessions[s].ticket == Some(t)
    ensures CanResolve(st, d, t, now)
  {
    var at := if now > st.sessions[s].expiresAt then now else st.sessions[s].expiresAt + 1;
    LiveSessionMoves(st, s, at);
    StepKeepsInv(st, SweepProcessing(s), at);
    FromExpirable(Apply(st, SweepProcessing(s), at), s, d, t, now);
    After(st, SweepProcessing(s), at, d, t, now);
  }

  /** From every state the invariant allows, whatever crashed before, some run from now on frees the number or
      ends with it CONFIRMED, its PDF stored and its document no longer waiting. */
  lemma EveryReservationCanEnd(st: State, d: DocId, t: Ticket, now: Time)
    requires Inv(st) && HoldsTicket(st.num.docs, d, t) && EverOnTicket(st.sessions, t) && t !in st.digital
    ensures CanResolve(st, d, t, now)
  {
    if LiveOnTicket(st.sessions, t) {
      var s :| s in st.sessions && Live(st.sessions[s]) && st.sessions[s].ticket == Some(t);
      if st.sessions[s].status == Pending {
        FromExpirable(st, s, d, t, now);
      } else {
        FromAbandoned(st, s, d, t, now);
      }
    } else {
      FromQuiet(st, d, t, now);
    }
  }
}
