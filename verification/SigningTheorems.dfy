/** The main results about runs of asynchronous signing. */
module SigningTheorems {
  import opened Wrappers
  import opened OfficialRows
  import opened SigningSessions
  import opened SigningProtocol
  import opened SigningSafety
  import N = NumberingRuns
  import H = TicketHistory

  // --- What one step does to each table ---

  /** The numbering transaction a step contains, if any. */
  function OpOf(st: State, step: Step): Option<N.Op> {
    var docs := st.num.docs;
    match step
    case Numbering(op) => Some(op)
    case RejectDocument(d) => Some(N.Reject(d))
    case CancelUnsent(d, t) => Some(N.Cancel(d, t, OnlyReserved))
    case ConfirmCas(w, effect) =>
      if effect.LostBefore? || w !in st.tasks then None else Some(N.Confirm(st.tasks[w].job.doc, TicketOf(st.tasks[w])))
    case FinalizeCas(w, effect) =>
      if effect.LostBefore? || w !in st.tasks then None
        else Some(N.Finalize(st.tasks[w].job.doc, TicketOf(st.tasks[w])))
    case CancelReservation(w, effect) =>
      if effect.LostBefore? || w !in st.tasks then None
      else Some(N.Cancel(st.tasks[w].job.doc, Some(TicketOf(st.tasks[w])), OnlyReserved))
    case SweepReserved(d) =>
      if d in docs && docs[d].origin.Ticketed? then Some(N.Cancel(d, Some(docs[d].origin.ticket), OnlyReserved))
        else None
    case SweepDigital(d) =>
      if d !in docs || docs[d].origin.Direct? then None
      else if NumOf(docs[d]) in st.store then Some(N.Finalize(d, docs[d].origin.ticket))
      else Some(N.Cancel(d, Some(docs[d].origin.ticket), ReservedOrConfirming))
    case DigitalConfirm(d) =>
      if d in docs && docs[d].origin.Ticketed? then Some(N.Confirm(d, docs[d].origin.ticket)) else None
    case _ => None
  }

  /** The numbering table of `num'` is that of `num`, or one numbering transaction later. */
  ghost predicate Refines(num: N.State, op: Option<N.Op>, now: Time, num': N.State) {
    match op
    case None => num' == num
    case Some(op) => N.Enabled(num, op, now) && num' == N.Apply(num, op, now)
  }

  lemma JobStepRefines(st: State, step: Step, now: Time)
    requires IsJobStep(step) && Enabled(st, step, now)
    ensures Refines(st.num, OpOf(st, step), now, ApplyJob(st, step, now).num)
  {
    if step.ConfirmCas? {
      assert ApplyJob(st, step, now) == DoConfirmCas(st, step.w, step.effect, now);
    } else if step.FinalizeCas? {
      assert ApplyJob(st, step, now) == DoFinalizeCas(st, step.w, step.effect, now);
    } else if step.CancelReservation? {
      assert ApplyJob(st, step, now) == DoCancel(st, step.w, step.effect, now);
    } else {
      assert ApplyJob(st, step, now).num == st.num;
    }
  }

  lemma SystemStepRefines(st: State, step: Step, now: Time)
    requires !IsJobStep(step) && Enabled(st, step, now)
    ensures Refines(st.num, OpOf(st, step), now, ApplySystem(st, step, now).num)
  {
  }

  /** Seen from the numbering table, every step is one numbering transaction or nothing. */
  lemma StepRefines(st: State, step: Step, now: Time)
    requires Enabled(st, step, now)
    ensures Refines(st.num, OpOf(st, step), now, Apply(st, step, now).num)
  {
    if IsJobStep(step) {
      JobStepRefines(st, step, now);
    } else {
      SystemStepRefines(st, step, now);
    }
  }

  /** A new queue row names the reservation its document holds at that moment. */
  ghost predicate QueueGrows(docs: Docs, ss: Sessions, ss': Sessions) {
    forall s | s in ss' && s !in ss :: ss'[s].ticket.Some? && HoldsTicket(docs, ss'[s].doc, ss'[s].ticket.value)
  }

  ghost predicate QueueMoves(docs: Docs, ss: Sessions, ss': Sessions) {
    Forward(ss, ss') && QueueGrows(docs, ss, ss')
  }

  lemma NewSessionMovesQueue(st: State, step: Step, now: Time)
    requires Enabled(st, step, now) && IsNewSession(step)
    ensures QueueMoves(st.num.docs, st.sessions, ApplySystem(st, step, now).sessions)
  {
  }

  lemma LeaseStepMovesQueue(st: State, step: Step, now: Time)
    requires Enabled(st, step, now) && IsLeaseStep(step)
    ensures QueueMoves(st.num.docs, st.sessions, ApplySystem(st, step, now).sessions)
  {
  }

  lemma SweepMovesQueue(st: State, step: Step, now: Time)
    requires Enabled(st, step, now) && IsSweep(step)
    ensures QueueMoves(st.num.docs, st.sessions, ApplySystem(st, step, now).sessions)
  {
  }

  lemma OtherStepMovesQueue(st: State, step: Step, now: Time)
    requires Enabled(st, step, now) && (IsUserStep(step) || IsDigitalStep(step))
    ensures QueueMoves(st.num.docs, st.sessions, ApplySystem(st, step, now).sessions)
  {
    if !step.ExpireRejected? {
      assert ApplySystem(st, step, now).sessions == st.sessions;
    }
  }

  /** The one statement on the queue that a job step contains. */
  function QueueAfter(st: State, step: Step, now: Time): Sessions
    requires IsJobStep(step)
  {
    if step.w !in st.tasks then st.sessions
    else
      var task := st.tasks[step.w];
      match step
      case ReadReservation(_, readOk) =>
        if readOk then st.sessions else RequeueGuard(st.sessions, task.session, task.job.payload, 30, now)
      case PrepareAndSign(_, result) =>
        if result.BreakerOpen? then RequeuePending(st.sessions, task.session, result.retryAfter, now) else st.sessions
      case ReadStale(_, readOk) =>
        if !readOk then RequeueGuard(st.sessions, task.session, task.job.payload, 30, now)
        else if InStatusOf(st.num.docs, task.job.doc, {Confirming, Confirmed})
          && HoldsTicket(st.num.docs, task.job.doc, TicketOf(task))
        then st.sessions
        else MarkFailed(st.sessions, task.session)
      case MarkSessionSigned(w, effect) =>
        if effect.LostBefore? then st.sessions else MarkSigned(st.sessions, task.session, w, task.job.payload.number)
      case MarkSuperseded(w, effect) =>
        if effect.LostBefore? then st.sessions else MarkSigned(st.sessions, task.session, w, task.job.payload.number)
      case MarkJobFailed(_) => MarkFailed(st.sessions, task.session)
      case _ => st.sessions
  }

  lemma SigningStepOnQueue(st: State, step: Step, now: Time)
    requires Enabled(st, step, now) && IsJobStep(step) && IsSigningStep(step)
    ensures ApplyJob(st, step, now).sessions == QueueAfter(st, step, now)
  {
    if step.ReadReservation? || step.PrepareAndSign? || step.ReadStale? {
      RequeueingStepOnQueue(st, step, now);
    } else if step.Begin? {
      assert ApplyJob(st, step, now) == DoBegin(st, step.w);
    } else if step.ConfirmCas? {
      assert ApplyJob(st, step, now) == DoConfirmCas(st, step.w, step.effect, now);
    } else if step.FenceAndUpload? {
      assert ApplyJob(st, step, now) == DoFenceAndUpload(st, step.w, step.effect);
    } else {
      assert ApplyJob(st, step, now) == DoFinalizeCas(st, step.w, step.effect, now);
    }
  }

  lemma RequeueingStepOnQueue(st: State, step: Step, now: Time)
    requires Enabled(st, step, now) && (step.ReadReservation? || step.PrepareAndSign? || step.ReadStale?)
    ensures ApplyJob(st, step, now).sessions == QueueAfter(st, step, now)
  {
    match step
    case ReadReservation(w, readOk) => assert ApplyJob(st, step, now) == DoReadReservation(st, w, readOk, now);
    case PrepareAndSign(w, result) => assert ApplyJob(st, step, now) == DoPrepareAndSign(st, w, result, now);
    case ReadStale(w, readOk) => assert ApplyJob(st, step, now) == DoReadStale(st, w, readOk, now);
  }

  lemma ClosingStepOnQueue(st: State, step: Step, now: Time)
    requires Enabled(st, step, now) && IsJobStep(step) && !IsSigningStep(step)
    ensures ApplyJob(st, step, now).sessions == QueueAfter(st, step, now)
  {
    match step
    case MarkDocumentSigned(w, effect) => assert ApplyJob(st, step, now) == DoMarkDocument(st, w, effect);
    case MarkSessionSigned(w, effect) => assert ApplyJob(st, step, now) == DoMarkSession(st, w, effect);
    case MarkSuperseded(w, effect) => assert ApplyJob(st, step, now) == DoMarkSuperseded(st, w, effect);
    case ReadRejected(w, readOk) => assert ApplyJob(st, step, now) == DoReadRejected(st, w, readOk);
    case DeleteOfficial(w, effect) => assert ApplyJob(st, step, now) == DoDelete(st, w, effect);
    case ReadFailure(w, readOk) => assert ApplyJob(st, step, now) == DoReadFailure(st, w, readOk);
    case CancelReservation(w, effect) => assert ApplyJob(st, step, now) == DoCancel(st, w, effect, now);
    case MarkJobFailed(w) => assert ApplyJob(st, step, now) == DoFail(st, w);
  }

  lemma JobStepOnQueue(st: State, step: Step, now: Time)
    requires Enabled(st, step, now) && IsJobStep(step)
    ensures ApplyJob(st, step, now).sessions == QueueAfter(st, step, now)
    ensures TouchesStore(step) || ApplyJob(st, step, now).store == st.store
  {
    if IsSigningStep(step) {
      SigningStepOnQueue(st, step, now);
    } else {
      ClosingStepOnQueue(st, step, now);
    }
  }

  lemma JobStepMovesQueue(st: State, step: Step, now: Time)
    requires Enabled(st, step, now) && IsJobStep(step)
    ensures QueueMoves(st.num.docs, st.sessions, ApplyJob(st, step, now).sessions)
  {
    JobStepOnQueue(st, step, now);
    QueueAfterIsForward(st, step, now);
  }

  lemma QueueAfterIsForward(st: State, step: Step, now: Time)
    requires IsJobStep(step)
    ensures Forward(st.sessions, QueueAfter(st, step, now)) && QueueAfter(st, step, now).Keys == st.sessions.Keys
  {
    if step.w in st.tasks {
      var s, payload := st.tasks[step.w].session, st.tasks[step.w].job.payload;
      if (step.ReadReservation? || step.ReadStale?) && !step.readOk {
        GuardIsForward(st.sessions, s, payload, now);
      } else if step.PrepareAndSign? && step.result.BreakerOpen? {
        BreakerIsForward(st.sessions, s, step.result.retryAfter, now);
      } else if (step.MarkSessionSigned? || step.MarkSuperseded?) && !step.effect.LostBefore? {
        MarkSignedIsForward(st.sessions, s, step.w, payload.number);
      } else {
        assert QueueAfter(st, step, now) == st.sessions || QueueAfter(st, step, now) == MarkFailed(st.sessions, s);
        MarkFailedIsForward(st.sessions, s);
      }
    }
  }

  lemma BreakerIsForward(ss: Sessions, s: SessionId, retryAfter: nat, now: Time)
    ensures Forward(ss, RequeuePending(ss, s, retryAfter, now))
        && RequeuePending(ss, s, retryAfter, now).Keys == ss.Keys
  {
  }

  lemma MarkFailedIsForward(ss: Sessions, s: SessionId)
    ensures Forward(ss, ss) && Forward(ss, MarkFailed(ss, s)) && MarkFailed(ss, s).Keys == ss.Keys
  {
  }

  lemma GuardIsForward(ss: Sessions, s: SessionId, payload: Payload, now: Time)
    ensures Forward(ss, RequeueGuard(ss, s, payload, 30, now)) && RequeueGuard(ss, s, payload, 30, now).Keys == ss.Keys
  {
  }

  lemma MarkSignedIsForward(ss: Sessions, s: SessionId, w: WorkerId, number: Num)
    ensures Forward(ss, MarkSigned(ss, s, w, number)) && MarkSigned(ss, s, w, number).Keys == ss.Keys
  {
  }

  lemma StepMovesQueue(st: State, step: Step, now: Time)
    requires Enabled(st, step, now)
    ensures QueueMoves(st.num.docs, st.sessions, Apply(st, step, now).sessions)
  {
    if IsJobStep(step) {
      JobStepMovesQueue(st, step, now);
    } else if IsNewSession(step) {
      NewSessionMovesQueue(st, step, now);
    } else if IsLeaseStep(step) {
      LeaseStepMovesQueue(st, step, now);
    } else if IsSweep(step) {
      SweepMovesQueue(st, step, now);
    } else {
      OtherStepMovesQueue(st, step, now);
    }
  }

  predicate TouchesStore(step: Step) {
    step.FenceAndUpload? || step.DigitalUpload? || step.DeleteOfficial?
  }

  lemma SystemStepKeepsStore(st: State, step: Step, now: Time)
    requires Enabled(st, step, now) && !IsJobStep(step) && !TouchesStore(step)
    ensures ApplySystem(st, step, now).store == st.store
  {
  }

  lemma UploadReplacesNothing(st: State, w: WorkerId, effect: Effect)
    requires Inv(st) && AtPc(st, w, Fence)
    ensures forall n | n in st.store :: StoredAs(DoFenceAndUpload(st, w, effect).store, n, st.store[n])
  {
    assert TaskOk(st, st.tasks[w]);
    OwnerOfNumber(st, st.tasks[w].job.doc, TicketOf(st.tasks[w]));
  }

  /** No step deletes a PDF or replaces it with another reservation's. */
  lemma StoreOnlyGrows(st: State, step: Step, now: Time)
    requires Inv(st) && Enabled(st, step, now) && RejectionReadsSucceed(step)
    ensures forall n | n in st.store :: StoredAs(Apply(st, step, now).store, n, st.store[n])
  {
    if step.FenceAndUpload? {
      UploadReplacesNothing(st, step.w, step.effect);
    } else if step.DigitalUpload? {
      OwnerOfNumber(st, step.d, st.num.docs[step.d].origin.ticket);
    } else if step.DeleteOfficial? {
      DeleteNeverReached(st, step.w);
    } else if IsJobStep(step) {
      JobStepOnQueue(st, step, now);
    } else {
      SystemStepKeepsStore(st, step, now);
    }
  }

  // --- Runs ---

  /** A run from the empty system in which no rejection handler's status read fails. */
  ghost predicate CleanRun(states: seq<State>, events: seq<Event>) {
    && Run(states, events) && states[0] == Init
    && forall i | 0 <= i < |events| :: RejectionReadsSucceed(events[i].step)
  }

  lemma {:induction false} RunKeepsInv(states: seq<State>, events: seq<Event>, i: nat)
    requires CleanRun(states, events) && i < |states|
    ensures Inv(states[i])
  {
    if i > 0 {
      RunKeepsInv(states, events, i - 1);
      assert StepAt(states, events, i - 1);
      StepKeepsInv(states[i - 1], events[i - 1].step, events[i - 1].now);
    }
  }

  /** Every state of the signing protocol has a numbering table that some run of the numbering
      transactions alone produces, so everything proved of those runs holds here. */
  lemma {:induction false} NumberingIsRefined(states: seq<State>, events: seq<Event>)
    requires Run(states, events) && states[0] == Init
    ensures exists nums: seq<N.State>, ops: seq<N.Event> ::
              LeadsTo(nums, ops, states[|events|].num)
    decreases |events|
  {
    if events == [] {
      var nums, ops: seq<N.Event> := [N.Empty], [];
      assert LeadsTo(nums, ops, states[0].num);
    } else {
      var n := |events| - 1;
      PrefixRun(states, events, n);
      NumberingIsRefined(states[..n + 1], events[..n]);
      var nums: seq<N.State>, ops: seq<N.Event> :| LeadsTo(nums, ops, states[n].num);
      assert StepAt(states, events, n);
      StepRefines(states[n], events[n].step, events[n].now);
      if OpOf(states[n], events[n].step).Some? {
        OneMore(nums, ops, states[n].num, N.Event(OpOf(states[n], events[n].step).value, events[n].now));
      }
    }
  }

  ghost predicate LeadsTo(nums: seq<N.State>, ops: seq<N.Event>, num: N.State) {
    N.Run(nums, ops) && nums[0] == N.Empty && nums[|ops|] == num
  }

  lemma OneMore(nums: seq<N.State>, ops: seq<N.Event>, num: N.State, e: N.Event)
    requires LeadsTo(nums, ops, num) && N.Enabled(num, e.op, e.now)
    ensures LeadsTo(nums + [N.Apply(num, e.op, e.now)], ops + [e], N.Apply(num, e.op, e.now))
  {
  }

  /** A session marked signed has its number CONFIRMED under its own ticket and the PDF stored under that
      number; and every CONFIRMED reservation has its own PDF. */
  lemma SignedMeansStored(states: seq<State>, events: seq<Event>, i: nat)
    requires CleanRun(states, events) && i < |states|
    ensures forall s | s in states[i].sessions && states[i].sessions[s].status == Signed ::
              var session := states[i].sessions[s];
              && session.ticket.Some? && Settled(states[i].num.docs, session.doc, session.ticket.value)
              && NumOf(states[i].num.docs[session.doc]) == session.payload.number
              && StoredAs(states[i].store, session.payload.number, session.ticket.value)
    ensures forall d, t | Settled(states[i].num.docs, d, t) ::
        StoredAs(states[i].store, NumOf(states[i].num.docs[d]), t)
  {
    RunKeepsInv(states, events, i);
    forall s | s in states[i].sessions && states[i].sessions[s].status == Signed
      ensures SessionOk(states[i], states[i].sessions[s])
    {
    }
  }

  /** A PDF stored under a number means the one row that shows this number is CONFIRMING or CONFIRMED, under
      the ticket the PDF was uploaded with. */
  lemma StoredMeansCommitted(states: seq<State>, events: seq<Event>, i: nat, n: Num)
    requires CleanRun(states, events) && i < |states| && n in states[i].store
    ensures exists d :: Backs(states[i].num.docs, states[i].store, d, n)
    ensures forall d | d in states[i].num.docs && NumOf(states[i].num.docs[d]) == n ::
        Backs(states[i].num.docs, states[i].store, d, n)
  {
    RunKeepsInv(states, events, i);
    var e :| Backs(states[i].num.docs, states[i].store, e, n);
    forall d | d in states[i].num.docs && NumOf(states[i].num.docs[d]) == n
      ensures d == e
    {
    }
  }

  /** Once stored, a number's PDF is never replaced by another reservation's nor deleted, and the number
      never moves to another document. */
  lemma {:induction false} StoredForGood(states: seq<State>, events: seq<Event>, i: nat, j: nat, d: DocId, n: Num)
    requires CleanRun(states, events) && i <= j < |states| && Backs(states[i].num.docs, states[i].store, d, n)
    ensures StoredAs(states[j].store, n, states[i].store[n])
    ensures Backs(states[j].num.docs, states[j].store, d, n)
    decreases j
  {
    if i < j {
      StoredForGood(states, events, i, j - 1, d, n);
      var st, e := states[j - 1], events[j - 1];
      assert StepAt(states, events, j - 1);
      RunKeepsInv(states, events, j - 1);
      StoreOnlyGrows(st, e.step, e.now);
      RunKeepsInv(states, events, j);
      HolderStays(st, e.step, e.now, d, n);
    }
  }

  lemma HolderStays(st: State, step: Step, now: Time, d: DocId, n: Num)
    requires Inv(st) && Enabled(st, step, now) && Backs(st.num.docs, st.store, d, n)
    requires var st' := Apply(st, step, now); Inv(st') && StoredAs(st'.store, n, st.store[n])
    ensures Backs(Apply(st, step, now).num.docs, Apply(st, step, now).store, d, n)
  {
    var st' := Apply(st, step, now);
    var e :| Backs(st'.num.docs, st'.store, e, n);
    StepRefines(st, step, now);
    if OpOf(st, step).Some? {
      HolderIsUnique(st.num, OpOf(st, step).value, now, d, e, st.store[n]);
    }
  }

  lemma HolderIsUnique(num: N.State, op: N.Op, now: Time, d: DocId, e: DocId, t: Ticket)
    requires H.TicketsOwned(num) && N.Enabled(num, op, now) && HoldsTicket(num.docs, d, t)
    requires HoldsTicket(N.Apply(num, op, now).docs, e, t)
    ensures e == d
  {
    H.NotHeldElsewhere(num, op, now, d, t);
  }

  /** Two queue rows of one reservation belong to one document. */
  ghost predicate TicketsFixDocuments(ss: Sessions) {
    forall r, s | r in ss && s in ss && ss[r].ticket == ss[s].ticket :: ss[r].doc == ss[s].doc
  }

  lemma {:induction false} RunFixesDocuments(states: seq<State>, events: seq<Event>, i: nat)
    requires CleanRun(states, events) && i < |states|
    ensures TicketsFixDocuments(states[i].sessions)
  {
    if i > 0 {
      RunFixesDocuments(states, events, i - 1);
      RunKeepsInv(states, events, i - 1);
      assert StepAt(states, events, i - 1);
      StepMovesQueue(states[i - 1], events[i - 1].step, events[i - 1].now);
      GrowthFixesDocuments(states[i - 1], states[i].sessions);
    }
  }

  lemma GrowthFixesDocuments(st: State, ss: Sessions)
    requires Inv(st) && TicketsFixDocuments(st.sessions) && Forward(st.sessions, ss)
        && QueueGrows(st.num.docs, st.sessions, ss)
    ensures TicketsFixDocuments(ss)
  {
    forall r, s | r in ss && s in ss && ss[r].ticket == ss[s].ticket
      ensures ss[r].doc == ss[s].doc
    {
      if r in st.sessions && s !in st.sessions {
        assert SessionOk(st, st.sessions[r]);
      } else if s in st.sessions && r !in st.sessions {
        assert SessionOk(st, st.sessions[s]);
      }
    }
  }

  /** At most one session of a reservation, and of a document, is pending or processing. */
  lemma OneLiveSession(states: seq<State>, events: seq<Event>, i: nat, r: SessionId, s: SessionId)
    requires CleanRun(states, events) && i < |states|
    requires r in states[i].sessions && s in states[i].sessions && Live(states[i].sessions[r])
        && Live(states[i].sessions[s])
    requires states[i].sessions[r].ticket == states[i].sessions[s].ticket
        || states[i].sessions[r].doc == states[i].sessions[s].doc
    ensures r == s
  {
    RunKeepsInv(states, events, i);
    RunFixesDocuments(states, events, i);
  }

  /** Over any run sessions only move forward: none disappears, changes owner or leaves a terminal status. */
  lemma {:induction false} SessionsMoveForward(states: seq<State>, events: seq<Event>, i: nat, j: nat)
    requires Run(states, events) && i <= j < |states|
    ensures Forward(states[i].sessions, states[j].sessions)
    decreases j
  {
    if i < j {
      SessionsMoveForward(states, events, i, j - 1);
      assert StepAt(states, events, j - 1);
      StepMovesQueue(states[j - 1], events[j - 1].step, events[j - 1].now);
    }
  }

  /** In a clean state the rejection handler deletes the official PDF exactly when its status read fails. */
  lemma DeletesExactlyOnFailedRead(st: State, w: WorkerId, readOk: bool, now: Time)
    requires Inv(st) && AtPc(st, w, RejectedRead)
    ensures AtPc(Apply(st, ReadRejected(w, readOk), now), w, RejectedDelete) <==> !readOk
  {
    assert TaskOk(st, st.tasks[w]);
  }
}
