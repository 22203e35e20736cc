/** What every run of the signing protocol keeps: the links between sessions, numbers and stored PDFs. */
module SigningSafety {
  import opened Wrappers
  import opened OfficialRows
  import opened SigningSessions
  import opened SigningProtocol
  import G = GlobalNumbering
  import N = NumberingRuns
  import H = TicketHistory

  // --- Facts that last ---

  /** Document d holds ticket t past the point where anything can cancel it. */
  predicate Committed(docs: Docs, digital: set<Ticket>, d: DocId, t: Ticket) {
    HoldsTicket(docs, d, t) && (docs[d].status == Confirmed || (docs[d].status == Confirming && t !in digital))
  }

  predicate Settled(docs: Docs, d: DocId, t: Ticket) {
    HoldsTicket(docs, d, t) && docs[d].status == Confirmed
  }

  predicate DocConfirmed(docs: Docs, d: DocId) {
    InStatusOf(docs, d, {Confirmed})
  }

  predicate StoredAs(store: map<Num, Ticket>, n: Num, t: Ticket) {
    n in store && store[n] == t
  }

  predicate SessionOver(st: State, s: SessionId) {
    s in st.sessions && Terminal(st.sessions[s])
  }

  // --- The invariant ---

  ghost predicate RowsOk(st: State) {
    && G.Distinct(st.num.docs) && H.TicketsOwned(st.num)
    && forall d | d in st.num.docs :: st.num.docs[d].regime == Global
  }

  /** Every CONFIRMED reservation has its own PDF, and every PDF belongs to a row that is CONFIRMING or CONFIRMED. */
  ghost predicate StoreOk(docs: Docs, store: map<Num, Ticket>) {
    && (forall d, t | Settled(docs, d, t) :: StoredAs(store, NumOf(docs[d]), t))
    && (forall n | n in store :: exists d :: Backs(docs, store, d, n))
  }

  predicate Backs(docs: Docs, store: map<Num, Ticket>, d: DocId, n: Num) {
    && n in store && HoldsTicket(docs, d, store[n]) && NumOf(docs[d]) == n
    && docs[d].status in {Confirming, Confirmed}
  }

  /** What a session row and a job claimed from it know about the reservation. */
  ghost predicate Bound(st: State, d: DocId, t: Ticket, p: Payload) {
    && t in st.num.issued
    && (forall e | HoldsTicket(st.num.docs, e, t) :: e == d && NumOf(st.num.docs[e]) == p.number)
    && (p.isConfirming ==> Committed(st.num.docs, st.digital, d, t))
    && (p.autoheal ==> Settled(st.num.docs, d, t))
  }

  ghost predicate SessionOk(st: State, session: Session) {
    && session.ticket.Some? && session.job == JobType.Sign && session.schema == TENANT
    && Bound(st, session.doc, session.ticket.value, session.payload)
    && (Live(session) ==>
          && (session.doc in st.num.docs ==> HoldsTicket(st.num.docs, session.doc, session.ticket.value))
          && (session.ticket.value in st.digital ==> Settled(st.num.docs, session.doc, session.ticket.value)))
    && (session.status == Signed ==> Settled(st.num.docs, session.doc, session.ticket.value))
  }

  ghost predicate PcOk(st: State, task: Task) {
    var d, t := task.job.doc, TicketOf(task);
    match task.pc
    case Fence => Committed(st.num.docs, st.digital, d, t)
    case Uploaded => Committed(st.num.docs, st.digital, d, t) && StoredAs(st.store, task.job.payload.number, t)
    case MarkDocument => DocConfirmed(st.num.docs, d) && (Settled(st.num.docs, d, t) || SessionOver(st, task.session))
    case MarkSession => DocConfirmed(st.num.docs, d) && (Settled(st.num.docs, d, t) || SessionOver(st, task.session))
    case RejectedRead => DocConfirmed(st.num.docs, d) && (Settled(st.num.docs, d, t) || SessionOver(st, task.session))
    case SupersededMark => DocConfirmed(st.num.docs, d) && (Settled(st.num.docs, d, t) || SessionOver(st, task.session))
    case RejectedDelete => false
    case _ => true
  }

  ghost predicate TaskOk(st: State, task: Task) {
    var d, t := task.job.doc, TicketOf(task);
    && task.session in st.sessions && st.sessions[task.session].doc == d
    && task.job.ticket == Some(t) && st.sessions[task.session].ticket == Some(t)
    && Bound(st, d, t, task.job.payload)
    && (t in st.digital ==> Settled(st.num.docs, d, t))
    && (task.resume ==> Committed(st.num.docs, st.digital, d, t))
    && PcOk(st, task)
  }

  /** At most one live session per document, hence per reservation. */
  ghost predicate OneLive(st: State) {
    forall r, s | r in st.sessions && s in st.sessions && Live(st.sessions[r]) && Live(st.sessions[s])
      :: st.sessions[r].doc == st.sessions[s].doc ==> r == s
  }

  ghost predicate Inv(st: State) {
    && RowsOk(st) && StoreOk(st.num.docs, st.store) && OneLive(st)
    && (forall s | s in st.sessions :: SessionOk(st, st.sessions[s]))
    && (forall w | w in st.tasks :: w in st.workersUsed && TaskOk(st, st.tasks[w]))
  }

  // --- Stability ---

  /** Lasting facts last, rows of issued tickets stay where they are, and sessions only move forward. */
  ghost predicate Stable(st: State, st': State) {
    && (forall d, t | Committed(st.num.docs, st.digital, d, t) && EverOnTicket(st.sessions, t) ::
       Committed(st'.num.docs, st'.digital, d, t))
    && (forall d, t | Settled(st.num.docs, d, t) :: Settled(st'.num.docs, d, t))
    && (forall d | DocConfirmed(st.num.docs, d) :: DocConfirmed(st'.num.docs, d))
    && (forall d, t | t in st.num.issued && HoldsTicket(st'.num.docs, d, t) ::
          HoldsTicket(st.num.docs, d, t) && NumOf(st'.num.docs[d]) == NumOf(st.num.docs[d]))
    && st.num.issued <= st'.num.issued
    && (forall n | n in st.store :: StoredAs(st'.store, n, st.store[n]))
    && Forward(st.sessions, st'.sessions)
    && (forall t | t in st'.digital && EverOnTicket(st.sessions, t) :: t in st.digital)
  }

  lemma StableKeepsBound(st: State, st': State, d: DocId, t: Ticket, p: Payload)
    requires Stable(st, st') && Bound(st, d, t, p) && EverOnTicket(st.sessions, t)
    ensures Bound(st', d, t, p)
  {
  }

  lemma StableKeepsTask(st: State, st': State, task: Task)
    requires Stable(st, st') && TaskOk(st, task)
    ensures TaskOk(st', task)
  {
    assert EverOnTicket(st.sessions, TicketOf(task));
    StableKeepsBound(st, st', task.job.doc, TicketOf(task), task.job.payload);
  }

  /** A session row that a stable step leaves alone, or only closes or requeues, stays sound as long as its
      document's row is not replaced. */
  lemma StableKeepsSession(st: State, st': State, s: SessionId)
    requires Stable(st, st') && s in st.sessions && SessionOk(st, st.sessions[s])
    requires st'.sessions[s].payload == st.sessions[s].payload
    requires st'.sessions[s].status == Signed ==> st.sessions[s].status == Signed
    requires Live(st.sessions[s]) && st.sessions[s].doc in st'.num.docs ==>
               HoldsTicket(st'.num.docs, st.sessions[s].doc, st.sessions[s].ticket.value)
    ensures SessionOk(st', st'.sessions[s])
  {
    var session := st.sessions[s];
    assert EverOnTicket(st.sessions, session.ticket.value);
    StableKeepsBound(st, st', session.doc, session.ticket.value, session.payload);
  }

  // --- Steps on the numbering table ---

  /** A reservation deletes cancelled rows only, and the only row it writes is the requester's, under a new ticket. */
  lemma ReservationEffect(num: N.State, op: N.Op, now: Time)
    requires IsReservation(op) && N.Enabled(num, op, now)
    requires forall d | d in num.docs :: num.docs[d].regime == Global
    ensures var docs' := N.Apply(num, op, now).docs;
            && (forall d | d in num.docs && num.docs[d].status in {Confirming, Confirmed} ::
               d in docs' && docs'[d] == num.docs[d])
            && (forall d | d in docs' && d != op.req.doc :: d in num.docs && docs'[d] == num.docs[d])
            && (forall d | d in docs' :: docs'[d].regime == Global)
            && (op.req.doc in docs' ==>
                  var row := docs'[op.req.doc];
                  || (op.req.doc in num.docs && row == num.docs[op.req.doc])
                  || row.origin.Direct? || (row.origin.ticket !in num.issued && row.status == Reserved))
    ensures num.issued <= N.Apply(num, op, now).issued
  {
    match op
    case ReserveGlobal(_, _, _) =>
    case ReserveCitizen(_, _, _) =>
    case Generate(_, _) =>
  }

  /** How the table may change without breaking a link: CONFIRMED rows are untouched, CONFIRMING rows go on unless a
      digital one without a PDF is cancelled, and a row becomes CONFIRMED only with its PDF stored. */
  ghost predicate RowChange(st: State, st': State) {
    var docs, docs' := st.num.docs, st'.num.docs;
    && st' == st.(num := st'.num) && st.num.issued <= st'.num.issued
    && (forall d, t | t in st.num.issued && HoldsTicket(docs', d, t) ::
       HoldsTicket(docs, d, t) && NumOf(docs'[d]) == NumOf(docs[d]))
    && (forall d | d in docs && docs[d].status == Confirmed :: d in docs' && docs'[d] == docs[d])
    && (forall d | d in docs && docs[d].status == Confirming ::
          && d in docs' && docs'[d].origin == docs[d].origin && NumOf(docs'[d]) == NumOf(docs[d])
          && (docs'[d].status in {Confirming, Confirmed}
             || (docs[d].origin.ticket in st.digital && NumOf(docs[d]) !in st.store)))
    && (forall d, t | HoldsTicket(docs', d, t) && docs'[d].status == Confirmed ::
          (d in docs && docs[d] == docs'[d]) || StoredAs(st.store, NumOf(docs'[d]), t))
  }

  lemma RowChangeKeepsLinks(st: State, st': State)
    requires RowChange(st, st') && StoreOk(st.num.docs, st.store)
    ensures Stable(st, st') && StoreOk(st'.num.docs, st'.store)
  {
    forall n | n in st.store
      ensures exists d :: Backs(st'.num.docs, st'.store, d, n)
    {
      var d :| Backs(st.num.docs, st.store, d, n);
      assert Backs(st'.num.docs, st'.store, d, n);
    }
    forall d, t | Settled(st'.num.docs, d, t)
      ensures StoredAs(st'.store, NumOf(st'.num.docs[d]), t)
    {
      assert HoldsTicket(st'.num.docs, d, t);
      if d in st.num.docs && st.num.docs[d] == st'.num.docs[d] {
        assert Settled(st.num.docs, d, t);
      }
    }
    forall d, t | Committed(st.num.docs, st.digital, d, t)
      ensures Committed(st'.num.docs, st'.digital, d, t)
    {
    }
  }

  lemma ReservationKeepsRows(st: State, op: N.Op, now: Time)
    requires RowsOk(st) && StoreOk(st.num.docs, st.store) && IsReservation(op) && N.Enabled(st.num, op, now)
    ensures RowsOk(Number(st, op, now)) && StoreOk(Number(st, op, now).num.docs, st.store)
        && Stable(st, Number(st, op, now))
  {
    ReservationIsSound(st, op, now);
    ReservationIsRowChange(st, op, now);
    RowChangeKeepsLinks(st, Number(st, op, now));
  }

  lemma ReservationIsSound(st: State, op: N.Op, now: Time)
    requires RowsOk(st) && IsReservation(op) && N.Enabled(st.num, op, now)
    ensures RowsOk(Number(st, op, now))
  {
    ReservationEffect(st.num, op, now);
    N.StepKeepsDistinct(st.num, op, now);
    H.StepKeepsTickets(st.num, op, now);
  }

  lemma ReservationIsRowChange(st: State, op: N.Op, now: Time)
    requires RowsOk(st) && IsReservation(op) && N.Enabled(st.num, op, now)
    ensures RowChange(st, Number(st, op, now))
  {
    ReservationEffect(st.num, op, now);
  }

  /** The four moves of a status that keep stored PDFs and committed numbers linked. */
  predicate SafeMove(st: State, d: DocId, status: Status) {
    && d in st.num.docs && st.num.docs[d].origin.Ticketed?
    && var row := st.num.docs[d];
       || (row.status == Reserved && status in {Confirming, Cancelled})
       || (row.status == Confirming && status == Confirmed && StoredAs(st.store, NumOf(row), row.origin.ticket))
       || (row.status == Confirming && status == Cancelled && row.origin.ticket in st.digital
          && NumOf(row) !in st.store)
  }

  function Moved(st: State, d: DocId, status: Status, now: Time): State
    requires SafeMove(st, d, status)
  {
    st.(num := st.num.(docs := WithStatus(st.num.docs, d, status, now)))
  }

  lemma MoveKeepsRows(st: State, d: DocId, status: Status, now: Time)
    requires RowsOk(st) && StoreOk(st.num.docs, st.store) && SafeMove(st, d, status)
    ensures RowsOk(Moved(st, d, status, now)) && StoreOk(Moved(st, d, status, now).num.docs, st.store)
        && Stable(st, Moved(st, d, status, now))
  {
    MoveIsRowChange(st, d, status, now);
    RowChangeKeepsLinks(st, Moved(st, d, status, now));
    MoveKeepsTickets(st, d, status, now);
  }

  lemma MoveIsRowChange(st: State, d: DocId, status: Status, now: Time)
    requires SafeMove(st, d, status)
    ensures RowChange(st, Moved(st, d, status, now))
  {
  }

  lemma MoveKeepsTickets(st: State, d: DocId, status: Status, now: Time)
    requires RowsOk(st) && SafeMove(st, d, status)
    ensures RowsOk(Moved(st, d, status, now))
  {
    var docs, docs' := st.num.docs, Moved(st, d, status, now).num.docs;
    assert forall e | e in docs' :: docs'[e].origin == docs[e].origin && docs'[e].number == docs[e].number
             && docs'[e].lane == docs[e].lane && docs'[e].regime == docs[e].regime;
  }

  /** Confirm, finalize, cancel and reject on a GLOBAL row are moves, or change nothing. */
  lemma UpdatesAreMoves(st: State, d: DocId, t: Ticket, opt: Option<Ticket>, scope: CancelScope, now: Time)
    requires RowsOk(st)
    ensures Number(st, N.Confirm(d, t), now)
         == if CanConfirm(st.num.docs, d, t) then Moved(st, d, Confirming, now) else st
    ensures (CanFinalize(st.num.docs, d, t) ==> SafeMove(st, d, Confirmed)) ==>
              Number(st, N.Finalize(d, t), now) == if CanFinalize(st.num.docs, d, t)
                then Moved(st, d, Confirmed, now) else st
    ensures (CanCancel(st.num.docs, d, opt, scope) ==> SafeMove(st, d, Cancelled)) ==>
              Number(st, N.Cancel(d, opt, scope), now) == if CanCancel(st.num.docs, d, opt, scope)
                then Moved(st, d, Cancelled, now) else st
    ensures Number(st, N.Reject(d), now)
         == if CanCancel(st.num.docs, d, None, OnlyReserved) then Moved(st, d, Cancelled, now) else st
  {
  }

  // --- Putting the pieces together ---

  /** The table changed, the queue and the jobs did not. */
  lemma TableStepKeepsInv(st: State, st': State)
    requires Inv(st) && Stable(st, st') && RowsOk(st') && StoreOk(st'.num.docs, st'.store)
    requires st'.sessions == st.sessions && st'.tasks == st.tasks && st'.workersUsed == st.workersUsed
    requires forall s | s in st.sessions && Live(st.sessions[s]) && st.sessions[s].doc in st'.num.docs ::
               HoldsTicket(st'.num.docs, st.sessions[s].doc, st.sessions[s].ticket.value)
    ensures Inv(st')
  {
    forall s | s in st.sessions
      ensures SessionOk(st', st.sessions[s])
    {
      StableKeepsSession(st, st', s);
    }
    forall w | w in st.tasks
      ensures TaskOk(st', st.tasks[w])
    {
      StableKeepsTask(st, st', st.tasks[w]);
    }
  }

  lemma MoveKeepsInv(st: State, d: DocId, status: Status, now: Time)
    requires Inv(st) && SafeMove(st, d, status)
    ensures Inv(Moved(st, d, status, now)) && Stable(st, Moved(st, d, status, now))
  {
    MoveKeepsRows(st, d, status, now);
    TableStepKeepsInv(st, Moved(st, d, status, now));
  }

  /** Soundness of rows and jobs does not look at the other jobs. */
  lemma JobsAreIndependent(st: State, st': State, task: Task, s: SessionId)
    requires st' == st.(tasks := st'.tasks)
    ensures TaskOk(st, task) ==> TaskOk(st', task)
    ensures s in st.sessions && SessionOk(st, st.sessions[s]) ==> SessionOk(st', st.sessions[s])
  {
  }

  lemma JobStepKeepsInv(st: State, w: WorkerId, task: Task)
    requires Inv(st) && w in st.workersUsed && TaskOk(st, task)
    ensures Inv(st.(tasks := st.tasks[w := task]))
  {
    var st' := st.(tasks := st.tasks[w := task]);
    forall v | v in st'.tasks
      ensures TaskOk(st', st'.tasks[v])
    {
      JobsAreIndependent(st, st', st'.tasks[v], 0);
    }
    forall s | s in st'.sessions
      ensures SessionOk(st', st'.sessions[s])
    {
      JobsAreIndependent(st, st', task, s);
    }
  }

  lemma GotoKeepsInv(st: State, w: WorkerId, pc: Pc)
    requires Inv(st) && w in st.tasks && PcOk(st, st.tasks[w].(pc := pc))
    ensures Inv(Goto(st, w, pc))
  {
    assert TaskOk(st, st.tasks[w]);
    JobStepKeepsInv(st, w, st.tasks[w].(pc := pc));
  }

  lemma EndTaskKeepsInv(st: State, w: WorkerId)
    requires Inv(st)
    ensures Inv(EndTask(st, w))
  {
    var st' := EndTask(st, w);
    forall v | v in st'.tasks
      ensures TaskOk(st', st'.tasks[v])
    {
      JobsAreIndependent(st, st', st.tasks[v], 0);
    }
  }

  /** The queue changed, row by row into sound rows, and the table did not. */
  lemma QueueStepKeepsInv(st: State, st': State)
    requires Inv(st) && st' == st.(sessions := st'.sessions)
    requires Forward(st.sessions, st'.sessions)
    requires forall s | s in st'.sessions :: SessionOk(st, st'.sessions[s])
    requires OneLive(st')
    ensures Inv(st') && Stable(st, st')
  {
    assert Stable(st, st');
    forall s | s in st'.sessions
      ensures SessionOk(st', st'.sessions[s])
    {
      assert SessionOk(st, st'.sessions[s]);
    }
    forall w | w in st.tasks
      ensures TaskOk(st', st.tasks[w])
    {
      StableKeepsTask(st, st', st.tasks[w]);
    }
  }

  /** One row of the queue changes and does not come to life. */
  lemma RowUpdateKeepsInv(st: State, s: SessionId, session: Session)
    requires Inv(st) && s in st.sessions && SessionOk(st, session)
    requires Forward(st.sessions, st.sessions[s := session]) && (Live(session) ==> Live(st.sessions[s]))
    ensures Inv(st.(sessions := st.sessions[s := session]))
  {
    QueueStepKeepsInv(st, st.(sessions := st.sessions[s := session]));
  }

  lemma NewRowKeepsInv(st: State, s: SessionId, session: Session)
    requires Inv(st) && s !in st.sessions && SessionOk(st, session)
    requires Live(session) ==> !LiveOnDocument(st.sessions, session.doc)
    ensures Inv(st.(sessions := st.sessions[s := session]))
  {
    QueueStepKeepsInv(st, st.(sessions := st.sessions[s := session]));
  }

  // --- Every step ---

  lemma StatementEndsJob(st: State, s: SessionId, session: Session, w: WorkerId)
    requires Inv(st) && s in st.sessions && SessionOk(st, session)
    requires Forward(st.sessions, st.sessions[s := session]) && (Live(session) ==> Live(st.sessions[s]))
    ensures Inv(EndTask(st.(sessions := st.sessions[s := session]), w))
  {
    RowUpdateKeepsInv(st, s, session);
    EndTaskKeepsInv(st.(sessions := st.sessions[s := session]), w);
  }

  /** A job's own session failed or put back in the queue, whoever holds the claim by then. */
  lemma FailKeepsInv(st: State, w: WorkerId)
    requires Inv(st) && w in st.tasks
    ensures Inv(EndTask(st.(sessions := MarkFailed(st.sessions, st.tasks[w].session)), w))
  {
    var s, ss := st.tasks[w].session, st.sessions;
    assert TaskOk(st, st.tasks[w]) && SessionOk(st, ss[s]);
    EndTaskKeepsInv(st, w);
    if InStatus(ss, s, Processing) {
      StatementEndsJob(st, s, ss[s].(status := Failed), w);
    }
  }

  lemma RequeueKeepsInv(st: State, w: WorkerId, payload: Payload, available: Option<Time>, now: Time)
    requires Inv(st) && w in st.tasks
    requires Bound(st, st.tasks[w].job.doc, TicketOf(st.tasks[w]), payload)
    ensures Inv(EndTask(st.(sessions := Requeue(st.sessions, st.tasks[w].session, payload, available, now)), w))
  {
    var s, ss := st.tasks[w].session, st.sessions;
    assert TaskOk(st, st.tasks[w]) && SessionOk(st, ss[s]);
    EndTaskKeepsInv(st, w);
    if InStatus(ss, s, Processing) {
      StatementEndsJob(st, s, Requeue(ss, s, payload, available, now)[s], w);
    }
  }

  lemma GuardKeepsInv(st: State, w: WorkerId, now: Time)
    requires Inv(st) && w in st.tasks
    ensures Inv(GuardRequeue(st, w, now))
  {
    var claimed := st.tasks[w].job.payload;
    var counted := claimed.(guardAttempts := claimed.guardAttempts + 1);
    CountedPayloadIsBound(st, w);
    FailKeepsInv(st, w);
    RequeueKeepsInv(st, w, counted, Some(now + 30), now);
    assert GuardRequeue(st, w, now) ==
      if counted.guardAttempts >= GUARD_MAX_ATTEMPTS
        then EndTask(st.(sessions := MarkFailed(st.sessions, st.tasks[w].session)), w)
      else EndTask(st.(sessions := Requeue(st.sessions, st.tasks[w].session, counted, Some(now + 30), now)), w);
  }

  lemma CountedPayloadIsBound(st: State, w: WorkerId)
    requires Inv(st) && w in st.tasks
    ensures var task := st.tasks[w];
            Bound(st, task.job.doc, TicketOf(task),
              task.job.payload.(guardAttempts := task.job.payload.guardAttempts + 1))
  {
    assert TaskOk(st, st.tasks[w]);
  }

  lemma BreakerKeepsInv(st: State, w: WorkerId, retryAfter: nat, now: Time)
    requires Inv(st) && w in st.tasks
    ensures Inv(EndTask(st.(sessions := RequeuePending(st.sessions, st.tasks[w].session, retryAfter, now)), w))
  {
    var s := st.tasks[w].session;
    assert TaskOk(st, st.tasks[w]) && SessionOk(st, st.sessions[s]);
    RequeueKeepsInv(st, w, st.sessions[s].payload, if retryAfter > 0 then Some(now + retryAfter) else None, now);
  }

  lemma ShutdownKeepsInv(st: State, w: WorkerId)
    requires Inv(st) && w in st.tasks
    ensures Inv(EndTask(st.(sessions := RequeueOnCancel(st.sessions, st.tasks[w].session, w)), w))
  {
    var s, ss := st.tasks[w].session, st.sessions;
    assert TaskOk(st, st.tasks[w]) && SessionOk(st, ss[s]);
    EndTaskKeepsInv(st, w);
    if Holds(ss, s, w) {
      StatementEndsJob(st, s, RequeueOnCancel(ss, s, w)[s], w);
    }
  }

  lemma SignedRowIsSound(st: State, w: WorkerId)
    requires Inv(st) && (AtPc(st, w, MarkSession) || AtPc(st, w, SupersededMark))
    requires CanMarkSigned(st.sessions, st.tasks[w].session, w)
    ensures SessionOk(st, Closed(st, w).sessions[st.tasks[w].session])
  {
    var task := st.tasks[w];
    assert TaskOk(st, task) && SessionOk(st, st.sessions[task.session]);
    var session := Closed(st, w).sessions[task.session];
    assert Settled(st.num.docs, session.doc, session.ticket.value);
    assert Bound(st, session.doc, session.ticket.value, session.payload);
  }

  lemma MarkSignedKeepsInv(st: State, w: WorkerId)
    requires Inv(st) && (AtPc(st, w, MarkSession) || AtPc(st, w, SupersededMark))
    ensures Inv(Closed(st, w))
  {
    var task := st.tasks[w];
    if CanMarkSigned(st.sessions, task.session, w) {
      SignedRowIsSound(st, w);
      ClosingsAreForward(st.sessions, task.session, w, 0, JobType.Sign, task.job.payload.number, 0);
      RowUpdateKeepsInv(st, task.session, Closed(st, w).sessions[task.session]);
    }
  }

  /** A job that reads CONFIRMED by document id: its own ticket is the one confirmed, or its session is over. */
  lemma ReadConfirmed(st: State, w: WorkerId)
    requires Inv(st) && w in st.tasks && DocConfirmed(st.num.docs, st.tasks[w].job.doc)
    ensures PcOk(st, st.tasks[w].(pc := MarkDocument)) && PcOk(st, st.tasks[w].(pc := SupersededMark))
  {
    assert TaskOk(st, st.tasks[w]) && SessionOk(st, st.sessions[st.tasks[w].session]);
  }

  lemma BeginKeepsInv(st: State, w: WorkerId)
    requires Inv(st) && AtPc(st, w, Start)
    ensures Inv(DoBegin(st, w))
  {
    assert TaskOk(st, st.tasks[w]);
    GotoKeepsInv(st, w, if st.tasks[w].job.payload.autoheal then MarkDocument else CheckReservation);
  }

  lemma ReadKeepsInv(st: State, w: WorkerId, readOk: bool, now: Time)
    requires Inv(st) && AtPc(st, w, CheckReservation)
    ensures Inv(DoReadReservation(st, w, readOk, now))
  {
    if !readOk {
      GuardKeepsInv(st, w, now);
    } else if InStatusOf(st.num.docs, st.tasks[w].job.doc, {Confirmed}) {
      ReadConfirmed(st, w);
      GotoKeepsInv(st, w, MarkDocument);
    } else {
      GotoKeepsInv(st, w, Prepare);
    }
  }

  lemma SignKeepsInv(st: State, w: WorkerId, result: Prepared, now: Time)
    requires Inv(st) && AtPc(st, w, Prepare)
    ensures Inv(DoPrepareAndSign(st, w, result, now))
  {
    assert TaskOk(st, st.tasks[w]);
    match result
    case LeaseLost => EndTaskKeepsInv(st, w);
    case BreakerOpen(retryAfter) => BreakerKeepsInv(st, w, retryAfter, now);
    case PrepareFailed => GotoKeepsInv(st, w, FailureRead);
    case SignedPdf => GotoKeepsInv(st, w, if st.tasks[w].resume then Fence else ConfirmNumber);
  }

  lemma ConfirmMoveKeepsInv(st: State, w: WorkerId, pc: Pc, now: Time)
    requires Inv(st) && AtPc(st, w, ConfirmNumber) && pc in {Fence, FailureRead}
    requires CanConfirm(st.num.docs, st.tasks[w].job.doc, TicketOf(st.tasks[w]))
    ensures Inv(Goto(Moved(st, st.tasks[w].job.doc, Confirming, now), w, pc))
  {
    var d := st.tasks[w].job.doc;
    assert TaskOk(st, st.tasks[w]);
    MoveKeepsInv(st, d, Confirming, now);
    GotoKeepsInv(Moved(st, d, Confirming, now), w, pc);
  }

  lemma ConfirmKeepsInv(st: State, w: WorkerId, effect: Effect, now: Time)
    requires Inv(st) && AtPc(st, w, ConfirmNumber)
    ensures Inv(DoConfirmCas(st, w, effect, now))
  {
    var d, t := st.tasks[w].job.doc, TicketOf(st.tasks[w]);
    UpdatesAreMoves(st, d, t, None, OnlyReserved, now);
    if effect.LostBefore? {
      GotoKeepsInv(st, w, FailureRead);
    } else if CanConfirm(st.num.docs, d, t) {
      ConfirmMoveKeepsInv(st, w, if effect.LostAfter? then FailureRead else Fence, now);
    } else {
      GotoKeepsInv(st, w, if effect.LostAfter? then FailureRead else StaleCheck);
    }
  }

  lemma StaleKeepsInv(st: State, w: WorkerId, readOk: bool, now: Time)
    requires Inv(st) && AtPc(st, w, StaleCheck)
    ensures Inv(DoReadStale(st, w, readOk, now))
  {
    var task := st.tasks[w];
    var d, t := task.job.doc, TicketOf(task);
    assert TaskOk(st, task);
    if !readOk {
      GuardKeepsInv(st, w, now);
    } else if InStatusOf(st.num.docs, d, {Confirming, Confirmed}) && HoldsTicket(st.num.docs, d, t) {
      if st.num.docs[d].status == Confirmed {
        ReadConfirmed(st, w);
        GotoKeepsInv(st, w, MarkDocument);
      } else {
        JobStepKeepsInv(st, w, task.(resume := true, pc := Fence));
      }
    } else {
      FailKeepsInv(st, w);
    }
  }

  /** An upload by a committed job replaces no other document's PDF. */
  lemma UploadKeepsInv(st: State, d: DocId, t: Ticket)
    requires Inv(st) && HoldsTicket(st.num.docs, d, t) && st.num.docs[d].status in {Confirming, Confirmed}
    ensures var n, st' := NumOf(st.num.docs[d]), st.(store := st.store[NumOf(st.num.docs[d]) := t]);
            Inv(st') && (n in st.store ==> st.store[n] == t)
  {
    var n := NumOf(st.num.docs[d]);
    OwnerOfNumber(st, d, t);
    UploadKeepsStore(st.num.docs, st.store, d, t);
    TableStepKeepsInv(st, st.(store := st.store[n := t]));
  }

  lemma UploadKeepsStore(docs: Docs, store: map<Num, Ticket>, d: DocId, t: Ticket)
    requires StoreOk(docs, store) && HoldsTicket(docs, d, t) && docs[d].status in {Confirming, Confirmed}
    requires NumOf(docs[d]) in store ==> store[NumOf(docs[d])] == t
    requires forall e, u | Settled(docs, e, u) && NumOf(docs[e]) == NumOf(docs[d]) :: u == t
    ensures StoreOk(docs, store[NumOf(docs[d]) := t])
  {
    var n := NumOf(docs[d]);
    var store' := store[n := t];
    assert Backs(docs, store', d, n);
    forall m | m in store'
      ensures exists e :: Backs(docs, store', e, m)
    {
      if m != n {
        var e :| Backs(docs, store, e, m);
        assert Backs(docs, store', e, m);
      }
    }
    forall e, u | Settled(docs, e, u)
      ensures StoredAs(store', NumOf(docs[e]), u)
    {
      assert StoredAs(store, NumOf(docs[e]), u);
    }
  }

  /** If a PDF is stored under the number of d's reservation, it is that reservation's. */
  lemma OwnerOfNumber(st: State, d: DocId, t: Ticket)
    requires Inv(st) && HoldsTicket(st.num.docs, d, t)
    ensures NumOf(st.num.docs[d]) in st.store ==> st.store[NumOf(st.num.docs[d])] == t
  {
    var n := NumOf(st.num.docs[d]);
    if n in st.store {
      var e :| Backs(st.num.docs, st.store, e, n);
      assert e == d;
    }
  }

  lemma FenceKeepsInv(st: State, w: WorkerId, effect: Effect)
    requires Inv(st) && AtPc(st, w, Fence)
    ensures Inv(DoFenceAndUpload(st, w, effect))
  {
    if !Holds(st.sessions, st.tasks[w].session, w) {
      EndTaskKeepsInv(st, w);
    } else if effect.LostBefore? {
      GotoKeepsInv(st, w, FailureRead);
    } else {
      FencedUploadKeepsInv(st, w, if effect.LostAfter? then FailureRead else Uploaded);
    }
  }

  lemma FencedUploadKeepsInv(st: State, w: WorkerId, pc: Pc)
    requires Inv(st) && AtPc(st, w, Fence) && pc in {Uploaded, FailureRead}
    ensures var task := st.tasks[w];
            Inv(Goto(st.(store := st.store[task.job.payload.number := TicketOf(task)]), w, pc))
  {
    var task := st.tasks[w];
    FencedJobIsCommitted(st, w);
    UploadKeepsInv(st, task.job.doc, TicketOf(task));
    GotoKeepsInv(st.(store := st.store[task.job.payload.number := TicketOf(task)]), w, pc);
  }

  lemma FencedJobIsCommitted(st: State, w: WorkerId)
    requires Inv(st) && AtPc(st, w, Fence)
    ensures var task := st.tasks[w];
            && Committed(st.num.docs, st.digital, task.job.doc, TicketOf(task))
            && NumOf(st.num.docs[task.job.doc]) == task.job.payload.number
  {
    assert TaskOk(st, st.tasks[w]);
  }

  lemma FinalizeMoveKeepsInv(st: State, w: WorkerId, pc: Pc, now: Time)
    requires Inv(st) && AtPc(st, w, Uploaded) && pc in {MarkDocument, FailureRead}
    requires CanFinalize(st.num.docs, st.tasks[w].job.doc, TicketOf(st.tasks[w]))
    ensures SafeMove(st, st.tasks[w].job.doc, Confirmed)
        && Inv(Goto(Moved(st, st.tasks[w].job.doc, Confirmed, now), w, pc))
  {
    UploadedMayFinalize(st, w);
    MoveKeepsInv(st, st.tasks[w].job.doc, Confirmed, now);
    GotoKeepsInv(Moved(st, st.tasks[w].job.doc, Confirmed, now), w, pc);
  }

  lemma UploadedMayFinalize(st: State, w: WorkerId)
    requires Inv(st) && AtPc(st, w, Uploaded) && CanFinalize(st.num.docs, st.tasks[w].job.doc, TicketOf(st.tasks[w]))
    ensures SafeMove(st, st.tasks[w].job.doc, Confirmed)
  {
    assert TaskOk(st, st.tasks[w]);
  }

  /** A compare-and-set that matches no row finds the ticket already CONFIRMED. */
  lemma FinalizeMissKeepsInv(st: State, w: WorkerId, pc: Pc)
    requires Inv(st) && AtPc(st, w, Uploaded) && pc in {MarkDocument, FailureRead}
    requires !CanFinalize(st.num.docs, st.tasks[w].job.doc, TicketOf(st.tasks[w]))
    ensures Inv(Goto(st, w, pc))
  {
    assert TaskOk(st, st.tasks[w]);
    GotoKeepsInv(st, w, pc);
  }

  lemma FinalizeKeepsInv(st: State, w: WorkerId, effect: Effect, now: Time)
    requires Inv(st) && AtPc(st, w, Uploaded)
    ensures Inv(DoFinalizeCas(st, w, effect, now))
  {
    var d, t := st.tasks[w].job.doc, TicketOf(st.tasks[w]);
    UpdatesAreMoves(st, d, t, None, OnlyReserved, now);
    if effect.LostBefore? {
      GotoKeepsInv(st, w, FailureRead);
    } else if CanFinalize(st.num.docs, d, t) {
      FinalizeMoveKeepsInv(st, w, if effect.LostAfter? then FailureRead else MarkDocument, now);
    } else {
      FinalizeMissKeepsInv(st, w, if effect.LostAfter? then FailureRead else MarkDocument);
    }
  }

  lemma DraftsDoNotMatter(st: State, drafts: map<DocId, DraftStatus>)
    requires Inv(st)
    ensures Inv(st.(drafts := drafts))
  {
    TableStepKeepsInv(st, st.(drafts := drafts));
  }

  lemma MarkDocumentKeepsInv(st: State, w: WorkerId, effect: Effect)
    requires Inv(st) && AtPc(st, w, MarkDocument)
    ensures Inv(DoMarkDocument(st, w, effect))
  {
    var d := st.tasks[w].job.doc;
    assert TaskOk(st, st.tasks[w]);
    if effect.LostBefore? {
      GotoKeepsInv(st, w, FailureRead);
    } else if !DraftIs(st, d, SentToSign) {
      GotoKeepsInv(st, w, RejectedRead);
    } else {
      DraftsDoNotMatter(st, st.drafts[d := DraftSigned]);
      GotoKeepsInv(st.(drafts := st.drafts[d := DraftSigned]), w, if effect.LostAfter? then FailureRead
        else MarkSession);
    }
  }

  lemma CloseKeepsInv(st: State, w: WorkerId, effect: Effect)
    requires Inv(st) && AtPc(st, w, MarkSession)
    ensures Inv(DoMarkSession(st, w, effect))
  {
    match effect
    case Done =>
      MarkSignedKeepsInv(st, w);
      EndTaskKeepsInv(Closed(st, w), w);
    case LostBefore => GotoKeepsInv(st, w, FailureRead);
    case LostAfter =>
      MarkSignedKeepsInv(st, w);
      GotoKeepsInv(Closed(st, w), w, FailureRead);
  }

  lemma SupersededKeepsInv(st: State, w: WorkerId, effect: Effect)
    requires Inv(st) && AtPc(st, w, SupersededMark)
    ensures Inv(DoMarkSuperseded(st, w, effect))
  {
    if effect.LostBefore? {
      EndTaskKeepsInv(st, w);
    } else {
      MarkSignedKeepsInv(st, w);
      EndTaskKeepsInv(Closed(st, w), w);
    }
  }

  lemma FailureKeepsInv(st: State, w: WorkerId, readOk: bool)
    requires Inv(st) && AtPc(st, w, FailureRead)
    ensures Inv(DoReadFailure(st, w, readOk))
  {
    var d := st.tasks[w].job.doc;
    if readOk && InStatusOf(st.num.docs, d, {Confirmed}) {
      ReadConfirmed(st, w);
      GotoKeepsInv(st, w, SupersededMark);
    } else if readOk && InStatusOf(st.num.docs, d, {Confirming}) {
      EndTaskKeepsInv(st, w);
    } else {
      GotoKeepsInv(st, w, if st.tasks[w].resume then FailureMark else FailureCancel);
    }
  }

  lemma CancelKeepsInv(st: State, w: WorkerId, effect: Effect, now: Time)
    requires Inv(st) && AtPc(st, w, FailureCancel)
    ensures Inv(DoCancel(st, w, effect, now))
  {
    var d, t := st.tasks[w].job.doc, TicketOf(st.tasks[w]);
    UpdatesAreMoves(st, d, t, Some(t), OnlyReserved, now);
    GotoKeepsInv(st, w, FailureMark);
    if CanCancel(st.num.docs, d, Some(t), OnlyReserved) {
      MoveKeepsInv(st, d, Cancelled, now);
      GotoKeepsInv(Moved(st, d, Cancelled, now), w, FailureMark);
    }
  }

  /** The rejection handler finds the document CONFIRMED, so its delete branch is never entered. */
  lemma RejectedKeepsInv(st: State, w: WorkerId)
    requires Inv(st) && AtPc(st, w, RejectedRead)
    ensures Inv(DoReadRejected(st, w, true))
  {
    assert TaskOk(st, st.tasks[w]);
    GotoKeepsInv(st, w, FailureMark);
  }

  lemma DeleteNeverReached(st: State, w: WorkerId)
    requires Inv(st)
    ensures !AtPc(st, w, RejectedDelete)
  {
    if w in st.tasks {
      assert TaskOk(st, st.tasks[w]);
    }
  }

  predicate IsSigningStep(step: Step) {
    step.Begin? || step.ReadReservation? || step.PrepareAndSign? || step.ConfirmCas? || step.ReadStale?
      || step.FenceAndUpload?
    || step.FinalizeCas?
  }

  lemma SigningStepKeepsInv(st: State, step: Step, now: Time)
    requires Inv(st) && IsSigningStep(step) && Enabled(st, step, now)
    ensures Inv(ApplyJob(st, step, now))
  {
    match step
    case Begin(w) => BeginKeepsInv(st, w);
    case ReadReservation(w, readOk) => ReadKeepsInv(st, w, readOk, now);
    case PrepareAndSign(w, result) => SignKeepsInv(st, w, result, now);
    case ConfirmCas(w, effect) => ConfirmKeepsInv(st, w, effect, now);
    case ReadStale(w, readOk) => StaleKeepsInv(st, w, readOk, now);
    case FenceAndUpload(w, effect) => FenceKeepsInv(st, w, effect);
    case FinalizeCas(w, effect) => FinalizeKeepsInv(st, w, effect, now);
  }

  lemma ClosingStepKeepsInv(st: State, step: Step, now: Time)
    requires Inv(st) && IsJobStep(step) && !IsSigningStep(step) && Enabled(st, step, now) && RejectionReadsSucceed(step)
    ensures Inv(ApplyJob(st, step, now))
  {
    match step
    case MarkDocumentSigned(w, effect) => MarkDocumentKeepsInv(st, w, effect);
    case MarkSessionSigned(w, effect) => CloseKeepsInv(st, w, effect);
    case MarkSuperseded(w, effect) => SupersededKeepsInv(st, w, effect);
    case ReadRejected(w, _) => RejectedKeepsInv(st, w);
    case DeleteOfficial(w, _) => DeleteNeverReached(st, w);
    case ReadFailure(w, readOk) => FailureKeepsInv(st, w, readOk);
    case CancelReservation(w, effect) => CancelKeepsInv(st, w, effect, now);
    case MarkJobFailed(w) => FailKeepsInv(st, w);
  }

  // --- Users, sweeper and digital path ---

  lemma ReservationKeepsInv(st: State, op: N.Op, now: Time)
    requires Inv(st) && IsReservation(op) && N.Enabled(st.num, op, now) && !LiveOnDocument(st.sessions, op.req.doc)
    ensures Inv(Number(st, op, now))
  {
    var st' := Number(st, op, now);
    ReservationKeepsRows(st, op, now);
    ReservationEffect(st.num, op, now);
    forall s | s in st.sessions && Live(st.sessions[s]) && st.sessions[s].doc in st'.num.docs
      ensures HoldsTicket(st'.num.docs, st.sessions[s].doc, st.sessions[s].ticket.value)
    {
      assert SessionOk(st, st.sessions[s]);
      assert st.sessions[s].doc != op.req.doc;
    }
    TableStepKeepsInv(st, st');
  }

  /** A cancellation by the sweeper or a rejection frees RESERVED rows; the orphan cancel frees a CONFIRMING
      digital row whose PDF is absent. */
  lemma CancelRowKeepsInv(st: State, d: DocId, t: Option<Ticket>, scope: CancelScope, now: Time)
    requires Inv(st) && (CanCancel(st.num.docs, d, t, scope) ==> SafeMove(st, d, Cancelled))
    ensures Inv(Number(st, N.Cancel(d, t, scope), now))
  {
    UpdatesAreMoves(st, d, 0, t, scope, now);
    if CanCancel(st.num.docs, d, t, scope) {
      MoveKeepsInv(st, d, Cancelled, now);
    }
  }

  lemma RejectKeepsInv(st: State, d: DocId, now: Time)
    requires Inv(st)
    ensures Inv(Number(st, N.Reject(d), now).(drafts := st.drafts[d := DraftRejected]))
  {
    UpdatesAreMoves(st, d, 0, None, OnlyReserved, now);
    if CanCancel(st.num.docs, d, None, OnlyReserved) {
      MoveKeepsInv(st, d, Cancelled, now);
    }
    DraftsDoNotMatter(Number(st, N.Reject(d), now), st.drafts[d := DraftRejected]);
  }

  /** A new queue row for the reservation a document holds. */
  lemma NewSessionIsSound(st: State, d: DocId, status: SessionStatus, isConfirming: bool, autoheal: bool, now: Time)
    requires Inv(st) && d in st.num.docs && st.num.docs[d].origin.Ticketed? && status in {Pending, Failed}
    requires var row := st.num.docs[d];
             && (isConfirming ==> Committed(st.num.docs, st.digital, d, row.origin.ticket))
             && (autoheal ==> row.status == Confirmed)
             && (status == Pending && row.origin.ticket in st.digital ==> row.status == Confirmed)
    ensures SessionOk(st, NewSession(d, st.num.docs[d].origin.ticket, status,
        FreshPayload(st.num.docs[d], isConfirming, autoheal), now))
  {
  }

  /** No live session on the reservation a document holds means none on the document. */
  lemma NoneOnTicketNoneOnDocument(st: State, d: DocId)
    requires Inv(st) && d in st.num.docs && st.num.docs[d].origin.Ticketed?
    requires !LiveOnTicket(st.sessions, st.num.docs[d].origin.ticket)
    ensures !LiveOnDocument(st.sessions, d)
  {
    forall s | s in st.sessions && Live(st.sessions[s])
      ensures st.sessions[s].doc != d
    {
      assert SessionOk(st, st.sessions[s]);
    }
  }

  lemma ClaimKeepsInv(st: State, s: SessionId, w: WorkerId, now: Time)
    requires Inv(st) && InStatus(st.sessions, s, Pending)
    ensures Inv(DoClaim(st, s, w, now))
  {
    var session := Claim(st.sessions, s, w, now)[s];
    var task := Task(s, session, session.payload.isConfirming, Start);
    assert SessionOk(st, st.sessions[s]);
    RowUpdateKeepsInv(st, s, session);
    var st1 := st.(sessions := st.sessions[s := session]);
    var st2 := st1.(workersUsed := st.workersUsed + {w});
    TableStepKeepsInvUsed(st1, st2);
    ClaimedTaskIsSound(st2, s, task);
    JobStepKeepsInv(st2, w, task);
  }

  lemma ClaimedTaskIsSound(st: State, s: SessionId, task: Task)
    requires Inv(st) && InStatus(st.sessions, s, Processing)
    requires task == Task(s, st.sessions[s], st.sessions[s].payload.isConfirming, Start)
    ensures TaskOk(st, task)
  {
    assert SessionOk(st, st.sessions[s]);
  }

  lemma TableStepKeepsInvUsed(st: State, st': State)
    requires Inv(st) && st' == st.(workersUsed := st'.workersUsed) && st.workersUsed <= st'.workersUsed
    ensures Inv(st')
  {
    forall s | s in st.sessions
      ensures SessionOk(st', st.sessions[s])
    {
      assert SessionOk(st, st.sessions[s]);
    }
    forall w | w in st.tasks
      ensures TaskOk(st', st.tasks[w])
    {
      assert TaskOk(st, st.tasks[w]);
    }
  }

  /** Statements over many rows: each row stays, or is closed as expired. */
  lemma ExpiryKeepsInv(st: State, st': State)
    requires Inv(st) && st' == st.(sessions := st'.sessions) && st'.sessions.Keys == st.sessions.Keys
    requires forall s | s in st.sessions ::
               st'.sessions[s] == st.sessions[s]
                 || (Live(st.sessions[s]) && st'.sessions[s] == st.sessions[s].(status := Expired))
    ensures Inv(st')
  {
    forall s | s in st'.sessions
      ensures SessionOk(st, st'.sessions[s])
    {
      assert SessionOk(st, st.sessions[s]);
    }
    QueueStepKeepsInv(st, st');
  }

  lemma RenewKeepsInv(st: State, w: WorkerId, now: Time)
    requires Inv(st) && w in st.tasks
    ensures Inv(st.(sessions := RenewClaim(st.sessions, st.tasks[w].session, w, now)))
  {
    var s := st.tasks[w].session;
    if Holds(st.sessions, s, w) {
      assert SessionOk(st, st.sessions[s]);
      RowUpdateKeepsInv(st, s, RenewClaim(st.sessions, s, w, now)[s]);
    }
  }

  lemma SweepProcessingKeepsInv(st: State, s: SessionId, now: Time)
    requires Inv(st) && InStatus(st.sessions, s, Processing)
    ensures Inv(st.(sessions := RequeueExpired(st.sessions, s, RowConfirming(st.num.docs, st.sessions[s].doc), now)))
  {
    var session := RequeueExpired(st.sessions, s, RowConfirming(st.num.docs, st.sessions[s].doc), now)[s];
    assert SessionOk(st, st.sessions[s]);
    assert SessionOk(st, session);
    RowUpdateKeepsInv(st, s, session);
  }

  /** A queue row inserted for the reservation a document holds. */
  function Inserted(st: State, s: SessionId, d: DocId, status: SessionStatus, isConfirming: bool, autoheal: bool,
      now: Time): State
    requires d in st.num.docs && st.num.docs[d].origin.Ticketed?
  {
    var row := st.num.docs[d];
    st.(sessions := st.sessions[s := NewSession(d, row.origin.ticket, status,
      FreshPayload(row, isConfirming, autoheal), now)])
  }

  lemma InsertedKeepsInv(st: State, s: SessionId, d: DocId, status: SessionStatus, isConfirming: bool,
      autoheal: bool, now: Time)
    requires Inv(st) && s !in st.sessions && d in st.num.docs && st.num.docs[d].origin.Ticketed?
        && status in {Pending, Failed}
    requires var row := st.num.docs[d];
             && (isConfirming ==> Committed(st.num.docs, st.digital, d, row.origin.ticket))
             && (autoheal ==> row.status == Confirmed)
             && (status == Pending && row.origin.ticket in st.digital ==> row.status == Confirmed)
    requires status == Pending ==> !LiveOnDocument(st.sessions, d)
    ensures Inv(Inserted(st, s, d, status, isConfirming, autoheal, now))
  {
    NewSessionIsSound(st, d, status, isConfirming, autoheal, now);
    NewRowKeepsInv(st, s, Inserted(st, s, d, status, isConfirming, autoheal, now).sessions[s]);
  }

  lemma ResumeKeepsInv(st: State, d: DocId, s: SessionId, now: Time)
    requires Inv(st) && Enabled(st, SweepConfirming(d, s), now)
    ensures Inv(ApplySystem(st, SweepConfirming(d, s), now))
  {
    NoneOnTicketNoneOnDocument(st, d);
    InsertedKeepsInv(st, s, d, Pending, true, false, now);
  }

  lemma AutohealKeepsInv(st: State, d: DocId, s: SessionId, now: Time)
    requires Inv(st) && Enabled(st, SweepConfirmed(d, s), now)
    ensures Inv(ApplySystem(st, SweepConfirmed(d, s), now))
  {
    NoneOnTicketNoneOnDocument(st, d);
    InsertedKeepsInv(st, s, d, Pending, true, true, now);
  }

  lemma SweepSessionKeepsInv(st: State, step: Step, now: Time)
    requires Inv(st) && Enabled(st, step, now) && IsNewSession(step)
    ensures Inv(ApplySystem(st, step, now))
  {
    if step.Enqueue? {
      InsertedKeepsInv(st, step.s, step.d, Pending, false, false, now);
    } else if step.SweepMarker? {
      InsertedKeepsInv(st, step.s, step.d, Failed, false, false, now);
    } else if step.SweepConfirming? {
      ResumeKeepsInv(st, step.d, step.s, now);
    } else {
      AutohealKeepsInv(st, step.d, step.s, now);
    }
  }

  lemma SweepDigitalKeepsInv(st: State, d: DocId, now: Time)
    requires Inv(st) && Enabled(st, SweepDigital(d), now)
    ensures Inv(Apply(st, SweepDigital(d), now))
  {
    var t := st.num.docs[d].origin.ticket;
    if NumOf(st.num.docs[d]) in st.store {
      OwnerOfNumber(st, d, t);
      UpdatesAreMoves(st, d, t, None, OnlyReserved, now);
      MoveKeepsInv(st, d, Confirmed, now);
      DraftsDoNotMatter(Moved(st, d, Confirmed, now), Apply(st, SweepDigital(d), now).drafts);
    } else {
      CancelRowKeepsInv(st, d, Some(t), ReservedOrConfirming, now);
    }
  }

  lemma DigitalOpenKeepsInv(st: State, d: DocId)
    requires Inv(st) && d in st.num.docs && st.num.docs[d].origin.Ticketed? && st.num.docs[d].status == Reserved
    requires !EverOnTicket(st.sessions, st.num.docs[d].origin.ticket)
    ensures Inv(st.(digital := st.digital + {st.num.docs[d].origin.ticket}))
  {
    var t := st.num.docs[d].origin.ticket;
    assert HoldsTicket(st.num.docs, d, t);
    TableStepKeepsInv(st, st.(digital := st.digital + {t}));
  }

  lemma DigitalConfirmKeepsInv(st: State, d: DocId, now: Time)
    requires Inv(st) && Enabled(st, DigitalConfirm(d), now)
    ensures Inv(Number(st, N.Confirm(d, st.num.docs[d].origin.ticket), now))
  {
    UpdatesAreMoves(st, d, st.num.docs[d].origin.ticket, None, OnlyReserved, now);
    MoveKeepsInv(st, d, Confirming, now);
  }

  lemma DigitalUploadKeepsInv(st: State, d: DocId, now: Time)
    requires Inv(st) && Enabled(st, DigitalUpload(d), now)
    ensures Inv(st.(store := st.store[NumOf(st.num.docs[d]) := st.num.docs[d].origin.ticket]))
  {
    UploadKeepsInv(st, d, st.num.docs[d].origin.ticket);
  }

  predicate IsUserStep(step: Step) {
    step.Numbering? || step.SetDraft? || step.RejectDocument? || step.CancelUnsent? || step.ExpireRejected?
  }

  lemma UserStepKeepsInv(st: State, step: Step, now: Time)
    requires Inv(st) && IsUserStep(step) && Enabled(st, step, now)
    ensures Inv(ApplySystem(st, step, now))
  {
    if step.Numbering? {
      ReservationKeepsInv(st, step.op, now);
    } else if step.SetDraft? {
      DraftsDoNotMatter(st, st.drafts[step.d := step.draft]);
    } else if step.RejectDocument? {
      RejectKeepsInv(st, step.d, now);
    } else if step.CancelUnsent? {
      CancelRowKeepsInv(st, step.d, step.t, OnlyReserved, now);
    } else {
      ExpiryKeepsInv(st, st.(sessions := ExpireOnDocument(st.sessions, step.d)));
    }
  }

  predicate IsDigitalStep(step: Step) {
    step.DigitalOpen? || step.DigitalConfirm? || step.DigitalUpload?
  }

  lemma DigitalStepKeepsInv(st: State, step: Step, now: Time)
    requires Inv(st) && IsDigitalStep(step) && Enabled(st, step, now)
    ensures Inv(ApplySystem(st, step, now))
  {
    match step
    case DigitalOpen(d) => DigitalOpenKeepsInv(st, d);
    case DigitalConfirm(d) => DigitalConfirmKeepsInv(st, d, now);
    case DigitalUpload(d) => DigitalUploadKeepsInv(st, d, now);
  }

  predicate IsLeaseStep(step: Step) {
    step.ClaimJob? || step.Renew? || step.Crash? || step.Shutdown?
  }

  lemma LeaseStepKeepsInv(st: State, step: Step, now: Time)
    requires Inv(st) && IsLeaseStep(step) && Enabled(st, step, now)
    ensures Inv(ApplySystem(st, step, now))
  {
    if step.ClaimJob? {
      ClaimKeepsInv(st, step.s, step.w, now);
    } else if step.Renew? {
      RenewKeepsInv(st, step.w, now);
    } else if step.Crash? {
      EndTaskKeepsInv(st, step.w);
    } else {
      ShutdownKeepsInv(st, step.w);
    }
  }

  predicate IsNewSession(step: Step) {
    step.Enqueue? || step.SweepConfirming? || step.SweepConfirmed? || step.SweepMarker?
  }

  predicate IsSweep(step: Step) {
    step.SweepPending? || step.SweepProcessing? || step.SweepReserved? || step.SweepDigital?
  }

  lemma SweepKeepsInv(st: State, step: Step, now: Time)
    requires Inv(st) && IsSweep(step) && Enabled(st, step, now)
    ensures Inv(ApplySystem(st, step, now))
  {
    if step.SweepPending? {
      ExpiryKeepsInv(st, st.(sessions := ExpirePending(st.sessions, TENANT, JobType.Sign, now)));
    } else if step.SweepProcessing? {
      SweepProcessingKeepsInv(st, step.s, now);
    } else if step.SweepReserved? {
      CancelRowKeepsInv(st, step.d, Some(st.num.docs[step.d].origin.ticket), OnlyReserved, now);
    } else {
      SweepDigitalKeepsInv(st, step.d, now);
    }
  }

  lemma SystemStepKeepsInv(st: State, step: Step, now: Time)
    requires Inv(st) && !IsJobStep(step) && Enabled(st, step, now)
    ensures Inv(ApplySystem(st, step, now))
  {
    if IsUserStep(step) {
      UserStepKeepsInv(st, step, now);
    } else if IsDigitalStep(step) {
      DigitalStepKeepsInv(st, step, now);
    } else if IsLeaseStep(step) {
      LeaseStepKeepsInv(st, step, now);
    } else if IsNewSession(step) {
      SweepSessionKeepsInv(st, step, now);
    } else {
      SweepKeepsInv(st, step, now);
    }
  }

  /** Every step keeps the links, as long as the rejection handler's status read does not fail. */
  lemma StepKeepsInv(st: State, step: Step, now: Time)
    requires Inv(st) && Enabled(st, step, now) && RejectionReadsSucceed(step)
    ensures Inv(Apply(st, step, now))
  {
    if !IsJobStep(step) {
      SystemStepKeepsInv(st, step, now);
    } else if IsSigningStep(step) {
      SigningStepKeepsInv(st, step, now);
    } else {
      ClosingStepKeepsInv(st, step, now);
    }
  }
}
