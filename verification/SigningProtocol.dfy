/** Asynchronous numerator signing of one tenant as a step relation: the numbering table, the session queue, the
    drafts, the official PDF store, the workers' in-flight jobs, the sweeper and the parts of the digital path
    the sweeper resolves. Every await of a worker is a step of its own, and a worker can die before any of them.

    The lease assumption: each claim is made under a worker identity of its own, so a job whose claim was
    requeued passes no later fence. Every statement that does not check the claim is still open to it. */
module SigningProtocol {
  import opened Wrappers
  import opened OfficialRows
  import opened SigningSessions
  import N = NumberingRuns

  const TENANT: Schema := 0
  /** SWEEPER_RESERVED_EXPIRY_TTL, SWEEPER_CONFIRMING_EXPIRY_TTL and CONFIRMING_ORPHAN_GRACE_MINUTES. */
  const RESERVED_EXPIRY: Time := 15 * 60
  const CONFIRMING_EXPIRY: Time := 20 * 60
  const ORPHAN_GRACE: Time := 10 * 60

  datatype DraftStatus = Editing | SentToSign | DraftSigned | DraftRejected

  /** Where a job stands in `_process_job`. */
  datatype Pc =
    | Start | CheckReservation | Prepare | ConfirmNumber | StaleCheck | Fence | Uploaded | MarkDocument | MarkSession
    | RejectedRead | RejectedDelete | FailureRead | SupersededMark | FailureCancel | FailureMark

  /** `job` is the session row as the claim returned it. */
  datatype Task = Task(session: SessionId, job: Session, resume: bool, pc: Pc)

  /** `store` maps the number of every official PDF to the ticket it was uploaded under; `digital` holds the
      tickets that have a digital signature session. */
  datatype State = State(
    num: N.State,
    drafts: map<DocId, DraftStatus>,
    sessions: Sessions,
    tasks: map<WorkerId, Task>,
    workersUsed: set<WorkerId>,
    store: map<Num, Ticket>,
    digital: set<Ticket>)

  const Init := State(N.Empty, map[], map[], map[], {}, map[], {})

  /** A database or storage call: it succeeds, or the caller sees an error with or without its effect. */
  datatype Effect = Done | LostBefore | LostAfter

  datatype Prepared = SignedPdf | BreakerOpen(retryAfter: nat) | PrepareFailed | LeaseLost

  datatype Step =
    // users and other flows
    | Numbering(op: N.Op)
    | SetDraft(d: DocId, draft: DraftStatus)
    | RejectDocument(d: DocId)
    | CancelUnsent(d: DocId, t: Option<Ticket>)
    | ExpireRejected(d: DocId)
    | Enqueue(s: SessionId, d: DocId)
    // the worker
    | ClaimJob(s: SessionId, w: WorkerId)
    | Renew(w: WorkerId)
    | Crash(w: WorkerId)
    | Shutdown(w: WorkerId)
    | Begin(w: WorkerId)
    | ReadReservation(w: WorkerId, readOk: bool)
    | PrepareAndSign(w: WorkerId, result: Prepared)
    | ConfirmCas(w: WorkerId, effect: Effect)
    | ReadStale(w: WorkerId, readOk: bool)
    | FenceAndUpload(w: WorkerId, effect: Effect)
    | FinalizeCas(w: WorkerId, effect: Effect)
    | MarkDocumentSigned(w: WorkerId, effect: Effect)
    | MarkSessionSigned(w: WorkerId, effect: Effect)
    | ReadRejected(w: WorkerId, readOk: bool)
    | DeleteOfficial(w: WorkerId, effect: Effect)
    | ReadFailure(w: WorkerId, readOk: bool)
    | MarkSuperseded(w: WorkerId, effect: Effect)
    | CancelReservation(w: WorkerId, effect: Effect)
    | MarkJobFailed(w: WorkerId)
    // the sweeper
    | SweepPending
    | SweepProcessing(s: SessionId)
    | SweepReserved(d: DocId)
    | SweepConfirming(d: DocId, s: SessionId)
    | SweepConfirmed(d: DocId, s: SessionId)
    | SweepMarker(d: DocId, s: SessionId)
    | SweepDigital(d: DocId)
    // the digital path
    | DigitalOpen(d: DocId)
    | DigitalConfirm(d: DocId)
    | DigitalUpload(d: DocId)

  // --- Reading the tables ---

  function NumOf(row: Row): Num {
    Num(row.lane.year, row.number)
  }

  predicate InStatusOf(docs: Docs, d: DocId, statuses: set<Status>) {
    d in docs && docs[d].status in statuses
  }

  ghost predicate LiveOnDocument(ss: Sessions, d: DocId) {
    exists s | s in ss :: Live(ss[s]) && ss[s].doc == d
  }

  predicate LiveOnTicket(ss: Sessions, t: Ticket) {
    exists s | s in ss :: Live(ss[s]) && ss[s].ticket == Some(t)
  }

  predicate EverOnTicket(ss: Sessions, t: Ticket) {
    exists s | s in ss :: ss[s].ticket == Some(t)
  }

  predicate IsReservation(op: N.Op) {
    op.ReserveGlobal? || op.ReserveCitizen? || op.Generate?
  }

  function TicketOf(task: Task): Ticket {
    if task.job.ticket.Some? then task.job.ticket.value else 0
  }

  predicate AtPc(st: State, w: WorkerId, pc: Pc) {
    w in st.tasks && st.tasks[w].pc == pc
  }

  predicate DraftIs(st: State, d: DocId, draft: DraftStatus) {
    d in st.drafts && st.drafts[d] == draft
  }

  // The rows the sweeper's queries select.

  predicate ReservedOrphan(docs: Docs, ss: Sessions, d: DocId, now: Time) {
    && InStatusOf(docs, d, {Reserved}) && docs[d].origin.reservedAt < now - RESERVED_EXPIRY
    && !LiveOnTicket(ss, docs[d].origin.ticket)
  }

  predicate ConfirmingOrphan(docs: Docs, ss: Sessions, digital: set<Ticket>, d: DocId, now: Time) {
    && InStatusOf(docs, d, {Confirming}) && docs[d].updatedAt < now - CONFIRMING_EXPIRY
    && !LiveOnTicket(ss, docs[d].origin.ticket) && docs[d].origin.ticket !in digital
    && EverOnTicket(ss, docs[d].origin.ticket)
  }

  predicate ConfirmedWaiting(docs: Docs, ss: Sessions, drafts: map<DocId, DraftStatus>, d: DocId) {
    && InStatusOf(docs, d, {Confirmed}) && docs[d].origin.Ticketed? && d in drafts && drafts[d] == SentToSign
    && !LiveOnTicket(ss, docs[d].origin.ticket) && EverOnTicket(ss, docs[d].origin.ticket)
  }

  // --- Updating them ---

  ghost function Number(st: State, op: N.Op, now: Time): State
    requires N.Enabled(st.num, op, now)
  {
    st.(num := N.Apply(st.num, op, now))
  }

  function Goto(st: State, w: WorkerId, pc: Pc): State
    requires w in st.tasks
  {
    st.(tasks := st.tasks[w := st.tasks[w].(pc := pc)])
  }

  function EndTask(st: State, w: WorkerId): State {
    st.(tasks := st.tasks - {w})
  }

  function NewSession(d: DocId, t: Ticket, status: SessionStatus, payload: Payload, now: Time): Session {
    Session(TENANT, d, Some(t), JobType.Sign, status, None, now + PENDING_TTL, None, now, payload)
  }

  function FreshPayload(row: Row, isConfirming: bool, autoheal: bool): Payload {
    Payload(NumOf(row), isConfirming, autoheal, 0, 0)
  }

  /** The claim and the job it starts. */
  function DoClaim(st: State, s: SessionId, w: WorkerId, now: Time): State
    requires s in st.sessions
  {
    var job := Claim(st.sessions, s, w, now)[s];
    st.(sessions := st.sessions[s := job], workersUsed := st.workersUsed + {w},
        tasks := st.tasks[w := Task(s, job, job.payload.isConfirming, Start)])
  }

  /** A rejected document's live sessions expire. */
  function ExpireOnDocument(ss: Sessions, d: DocId): Sessions {
    map s | s in ss :: if ss[s].doc == d && Live(ss[s]) then ss[s].(status := Expired) else ss[s]
  }

  // --- When a step can happen ---

  ghost predicate Enabled(st: State, step: Step, now: Time) {
    var docs := st.num.docs;
    match step
    // a document is not reserved again while it has a live session
    case Numbering(op) => IsReservation(op) && N.Enabled(st.num, op, now) && !LiveOnDocument(st.sessions, op.req.doc)
    case SetDraft(_, _) => true
    case RejectDocument(d) => !InStatusOf(docs, d, {Confirming, Confirmed})
      && (DraftIs(st, d, Editing) || DraftIs(st, d, SentToSign))
    // any other flow's call of cancel_number with its default states
    case CancelUnsent(_, _) => true
    case ExpireRejected(d) => DraftIs(st, d, DraftRejected)
    case Enqueue(s, d) =>
      && s !in st.sessions && d in docs && docs[d].origin.Ticketed? && docs[d].origin.ticket !in st.digital
      && !LiveOnDocument(st.sessions, d)
    case ClaimJob(s, w) => Claimable(st.sessions, s, now) && w !in st.workersUsed
    case Renew(w) => w in st.tasks
    case Crash(w) => w in st.tasks
    case Shutdown(w) => w in st.tasks
    case Begin(w) => AtPc(st, w, Start)
    case ReadReservation(w, _) => AtPc(st, w, CheckReservation)
    case PrepareAndSign(w, _) => AtPc(st, w, Prepare)
    case ConfirmCas(w, _) => AtPc(st, w, ConfirmNumber)
    case ReadStale(w, _) => AtPc(st, w, StaleCheck)
    case FenceAndUpload(w, _) => AtPc(st, w, Fence)
    case FinalizeCas(w, _) => AtPc(st, w, Uploaded)
    case MarkDocumentSigned(w, _) => AtPc(st, w, MarkDocument)
    case MarkSessionSigned(w, _) => AtPc(st, w, MarkSession)
    case ReadRejected(w, _) => AtPc(st, w, RejectedRead)
    case DeleteOfficial(w, _) => AtPc(st, w, RejectedDelete)
    case ReadFailure(w, _) => AtPc(st, w, FailureRead)
    case MarkSuperseded(w, _) => AtPc(st, w, SupersededMark)
    case CancelReservation(w, _) => AtPc(st, w, FailureCancel)
    case MarkJobFailed(w) => AtPc(st, w, FailureMark)
    case SweepPending => true
    case SweepProcessing(s) => s in st.sessions && ProcessingExpired(st.sessions[s], TENANT, JobType.Sign, now)
    case SweepReserved(d) => ReservedOrphan(docs, st.sessions, d, now)
    case SweepConfirming(d, s) => s !in st.sessions && ConfirmingOrphan(docs, st.sessions, st.digital, d, now)
    case SweepConfirmed(d, s) => s !in st.sessions && ConfirmedWaiting(docs, st.sessions, st.drafts, d)
    case SweepMarker(d, s) =>
      && s !in st.sessions && d in docs && docs[d].origin.Ticketed?
      && ((docs[d].status == Confirmed && DraftIs(st, d, DraftRejected))
          || (docs[d].status == Confirming && docs[d].origin.ticket in st.digital
             && docs[d].updatedAt < now - CONFIRMING_EXPIRY))
    case SweepDigital(d) =>
      && InStatusOf(docs, d, {Confirming}) && docs[d].updatedAt < now - CONFIRMING_EXPIRY
      && docs[d].updatedAt <= now - ORPHAN_GRACE
      && docs[d].origin.ticket in st.digital && !LiveOnTicket(st.sessions, docs[d].origin.ticket)
    case DigitalOpen(d) =>
      d in docs && docs[d].origin.Ticketed? && docs[d].status == Reserved
        && !EverOnTicket(st.sessions, docs[d].origin.ticket)
    case DigitalConfirm(d) => InStatusOf(docs, d, {Reserved}) && docs[d].origin.ticket in st.digital
    case DigitalUpload(d) => InStatusOf(docs, d, {Confirming}) && docs[d].origin.ticket in st.digital
  }

  // --- What it does ---

  ghost function Apply(st: State, step: Step, now: Time): State
    requires Enabled(st, step, now)
  {
    if IsJobStep(step) then ApplyJob(st, step, now) else ApplySystem(st, step, now)
  }

  ghost function ApplySystem(st: State, step: Step, now: Time): State
    requires !IsJobStep(step) && Enabled(st, step, now)
  {
    var docs := st.num.docs;
    match step
    case Numbering(op) => Number(st, op, now)
    case SetDraft(d, draft) => st.(drafts := st.drafts[d := draft])
    case RejectDocument(d) => Number(st, N.Reject(d), now).(drafts := st.drafts[d := DraftRejected])
    case CancelUnsent(d, t) => Number(st, N.Cancel(d, t, OnlyReserved), now)
    case ExpireRejected(d) =>
      st.(sessions := ExpireOnDocument(st.sessions, d))
    case Enqueue(s, d) =>
      st.(sessions := st.sessions[s := NewSession(d, docs[d].origin.ticket, Pending,
        FreshPayload(docs[d], false, false), now)])
    case ClaimJob(s, w) =>
      DoClaim(st, s, w, now)
    case Renew(w) => st.(sessions := RenewClaim(st.sessions, st.tasks[w].session, w, now))
    case Crash(w) => EndTask(st, w)
    case Shutdown(w) => EndTask(st.(sessions := RequeueOnCancel(st.sessions, st.tasks[w].session, w)), w)
    case SweepPending => st.(sessions := ExpirePending(st.sessions, TENANT, JobType.Sign, now))
    case SweepProcessing(s) =>
      st.(sessions := RequeueExpired(st.sessions, s, RowConfirming(docs, st.sessions[s].doc), now))
    case SweepReserved(d) => Number(st, N.Cancel(d, Some(docs[d].origin.ticket), OnlyReserved), now)
    case SweepConfirming(d, s) =>
      st.(sessions := st.sessions[s := NewSession(d, docs[d].origin.ticket, Pending,
        FreshPayload(docs[d], true, false), now)])
    case SweepConfirmed(d, s) =>
      st.(sessions := st.sessions[s := NewSession(d, docs[d].origin.ticket, Pending,
        FreshPayload(docs[d], true, true), now)])
    case SweepMarker(d, s) =>
      st.(sessions := st.sessions[s := NewSession(d, docs[d].origin.ticket, Failed,
        FreshPayload(docs[d], false, false), now)])
    case SweepDigital(d) =>
      // completed when the PDF is found, cancelled when it is not
      if NumOf(docs[d]) in st.store then
        Number(st, N.Finalize(d, docs[d].origin.ticket), now).(drafts :=
          if DraftIs(st, d, SentToSign) then st.drafts[d := DraftSigned] else st.drafts)
      else Number(st, N.Cancel(d, Some(docs[d].origin.ticket), ReservedOrConfirming), now)
    case DigitalOpen(d) => st.(digital := st.digital + {docs[d].origin.ticket})
    case DigitalConfirm(d) => Number(st, N.Confirm(d, docs[d].origin.ticket), now)
    case DigitalUpload(d) => st.(store := st.store[NumOf(docs[d]) := docs[d].origin.ticket])
  }

  predicate IsJobStep(step: Step) {
    step.Begin? || step.ReadReservation? || step.PrepareAndSign? || step.ConfirmCas? || step.ReadStale?
      || step.FenceAndUpload?
    || step.FinalizeCas? || step.MarkDocumentSigned? || step.MarkSessionSigned? || step.ReadRejected?
       || step.DeleteOfficial?
    || step.ReadFailure? || step.MarkSuperseded? || step.CancelReservation? || step.MarkJobFailed?
  }

  // --- The steps of `_process_job`, in source order ---

  /** The job moves on or ends; no other job, identity or digital session changes. */
  predicate JobFrame(st: State, w: WorkerId, st': State) {
    st'.workersUsed == st.workersUsed && st'.digital == st.digital && OneJobMoves(st.tasks, st'.tasks, w)
  }

  predicate OneJobMoves(tasks: map<WorkerId, Task>, tasks': map<WorkerId, Task>, w: WorkerId) {
    || tasks' == tasks - {w}
    || (w in tasks && w in tasks' && tasks' == tasks[w := tasks'[w]] && tasks'[w].session == tasks[w].session
       && tasks'[w].job == tasks[w].job)
  }

  function DoBegin(st: State, w: WorkerId): (st': State)
    requires w in st.tasks
    ensures JobFrame(st, w, st')
    ensures st'.sessions == st.sessions && st'.num == st.num
    ensures st'.store == st.store
  {
    Goto(st, w, if st.tasks[w].job.payload.autoheal then MarkDocument else CheckReservation)
  }

  /** An unreadable reservation status puts the job back in the queue. */
  function GuardRequeue(st: State, w: WorkerId, now: Time): (st': State)
    requires w in st.tasks
    ensures JobFrame(st, w, st')
    ensures st'.store == st.store
  {
    EndTask(st.(sessions := RequeueGuard(st.sessions, st.tasks[w].session, st.tasks[w].job.payload, 30, now)), w)
  }

  function DoReadReservation(st: State, w: WorkerId, readOk: bool, now: Time): (st': State)
    requires w in st.tasks
    ensures JobFrame(st, w, st')
    ensures st'.store == st.store
  {
    if !readOk then GuardRequeue(st, w, now)
    else Goto(st, w, if InStatusOf(st.num.docs, st.tasks[w].job.doc, {Confirmed}) then MarkDocument else Prepare)
  }

  function DoPrepareAndSign(st: State, w: WorkerId, result: Prepared, now: Time): (st': State)
    requires w in st.tasks
    ensures JobFrame(st, w, st')
    ensures st'.store == st.store
  {
    match result
    case LeaseLost => EndTask(st, w)
    case BreakerOpen(retryAfter) => EndTask(st.(sessions := RequeuePending(st.sessions, st.tasks[w].session,
      retryAfter, now)), w)
    case PrepareFailed => Goto(st, w, FailureRead)
    case SignedPdf => Goto(st, w, if st.tasks[w].resume then Fence else ConfirmNumber)
  }

  ghost function DoConfirmCas(st: State, w: WorkerId, effect: Effect, now: Time): (st': State)
    requires w in st.tasks
    ensures JobFrame(st, w, st')
    ensures st'.sessions == st.sessions
    ensures st'.store == st.store
  {
    var d, t := st.tasks[w].job.doc, TicketOf(st.tasks[w]);
    if effect.LostBefore? then Goto(st, w, FailureRead)
    else
      Goto(Number(st, N.Confirm(d, t), now), w,
           if effect.LostAfter? then FailureRead else if CanConfirm(st.num.docs, d, t) then Fence else StaleCheck)
  }

  function DoReadStale(st: State, w: WorkerId, readOk: bool, now: Time): (st': State)
    requires w in st.tasks
    ensures JobFrame(st, w, st')
    ensures st'.store == st.store
  {
    var task := st.tasks[w];
    var docs, d, t := st.num.docs, task.job.doc, TicketOf(task);
    if !readOk then GuardRequeue(st, w, now)
    else if InStatusOf(docs, d, {Confirming, Confirmed}) && HoldsTicket(docs, d, t) then
      if docs[d].status == Confirmed then Goto(st, w, MarkDocument)
      else st.(tasks := st.tasks[w := task.(resume := true, pc := Fence)])
    else EndTask(st.(sessions := MarkFailed(st.sessions, task.session)), w)
  }

  function DoFenceAndUpload(st: State, w: WorkerId, effect: Effect): (st': State)
    requires w in st.tasks
    ensures JobFrame(st, w, st')
    ensures st'.sessions == st.sessions && st'.num == st.num
  {
    var task := st.tasks[w];
    if !Holds(st.sessions, task.session, w) then EndTask(st, w)
    else if effect.LostBefore? then Goto(st, w, FailureRead)
    else Goto(st.(store := st.store[task.job.payload.number := TicketOf(task)]), w, if effect.LostAfter?
      then FailureRead else Uploaded)
  }

  ghost function DoFinalizeCas(st: State, w: WorkerId, effect: Effect, now: Time): (st': State)
    requires w in st.tasks
    ensures JobFrame(st, w, st')
    ensures st'.sessions == st.sessions
    ensures st'.store == st.store
  {
    if effect.LostBefore? then Goto(st, w, FailureRead)
    else Goto(Number(st, N.Finalize(st.tasks[w].job.doc, TicketOf(st.tasks[w])), now), w,
              if effect.LostAfter? then FailureRead else MarkDocument)
  }

  /** A draft that is not waiting for its signature raises the rejection error and rolls back. */
  function DoMarkDocument(st: State, w: WorkerId, effect: Effect): (st': State)
    requires w in st.tasks
    ensures JobFrame(st, w, st')
    ensures st'.sessions == st.sessions && st'.num == st.num
    ensures st'.store == st.store
  {
    var d := st.tasks[w].job.doc;
    if effect.LostBefore? then Goto(st, w, FailureRead)
    else if !DraftIs(st, d, SentToSign) then Goto(st, w, RejectedRead)
    else Goto(st.(drafts := st.drafts[d := DraftSigned]), w, if effect.LostAfter? then FailureRead else MarkSession)
  }

  function Closed(st: State, w: WorkerId): State
    requires w in st.tasks
  {
    st.(sessions := MarkSigned(st.sessions, st.tasks[w].session, w, st.tasks[w].job.payload.number))
  }

  function DoMarkSession(st: State, w: WorkerId, effect: Effect): (st': State)
    requires w in st.tasks
    ensures JobFrame(st, w, st')
    ensures st'.store == st.store
  {
    if effect.LostBefore? then Goto(st, w, FailureRead)
    else if effect.LostAfter? then Goto(Closed(st, w), w, FailureRead)
    else EndTask(Closed(st, w), w)
  }

  function DoReadRejected(st: State, w: WorkerId, readOk: bool): (st': State)
    requires w in st.tasks
    ensures JobFrame(st, w, st')
    ensures st'.sessions == st.sessions && st'.num == st.num
    ensures st'.store == st.store
  {
    Goto(st, w, if readOk && InStatusOf(st.num.docs, st.tasks[w].job.doc, {Confirmed}) then FailureMark
      else RejectedDelete)
  }

  function DoDelete(st: State, w: WorkerId, effect: Effect): (st': State)
    requires w in st.tasks
    ensures JobFrame(st, w, st')
    ensures st'.sessions == st.sessions && st'.num == st.num
  {
    var st' := if effect.LostBefore? then st else st.(store := st.store - {st.tasks[w].job.payload.number});
    Goto(st', w, if st.tasks[w].resume then FailureMark else FailureCancel)
  }

  /** An unreadable status counts as not superseded. */
  function DoReadFailure(st: State, w: WorkerId, readOk: bool): (st': State)
    requires w in st.tasks
    ensures JobFrame(st, w, st')
    ensures st'.sessions == st.sessions && st'.num == st.num
    ensures st'.store == st.store
  {
    var d := st.tasks[w].job.doc;
    if readOk && InStatusOf(st.num.docs, d, {Confirmed}) then Goto(st, w, SupersededMark)
    else if readOk && InStatusOf(st.num.docs, d, {Confirming}) then EndTask(st, w)
    else Goto(st, w, if st.tasks[w].resume then FailureMark else FailureCancel)
  }

  function DoMarkSuperseded(st: State, w: WorkerId, effect: Effect): (st': State)
    requires w in st.tasks
    ensures JobFrame(st, w, st')
    ensures st'.store == st.store
  {
    if effect.LostBefore? then EndTask(st, w) else EndTask(Closed(st, w), w)
  }

  ghost function DoCancel(st: State, w: WorkerId, effect: Effect, now: Time): (st': State)
    requires w in st.tasks
    ensures JobFrame(st, w, st')
    ensures st'.sessions == st.sessions
    ensures st'.store == st.store
  {
    if effect.LostBefore? then Goto(st, w, FailureMark)
    else Goto(Number(st, N.Cancel(st.tasks[w].job.doc, Some(TicketOf(st.tasks[w])), OnlyReserved), now), w, FailureMark)
  }

  function DoFail(st: State, w: WorkerId): (st': State)
    requires w in st.tasks
    ensures JobFrame(st, w, st')
    ensures st'.store == st.store
  {
    EndTask(st.(sessions := MarkFailed(st.sessions, st.tasks[w].session)), w)
  }

  ghost function ApplyJob(st: State, step: Step, now: Time): (st': State)
    requires IsJobStep(step) && Enabled(st, step, now)
    ensures JobFrame(st, step.w, st')
    ensures step.FenceAndUpload? || step.DeleteOfficial? || st'.store == st.store
    ensures step.ConfirmCas? || step.FinalizeCas? || step.CancelReservation? || st'.num == st.num
  {
    match step
    case Begin(w) => DoBegin(st, w)
    case ReadReservation(w, readOk) => DoReadReservation(st, w, readOk, now)
    case PrepareAndSign(w, result) => DoPrepareAndSign(st, w, result, now)
    case ConfirmCas(w, effect) => DoConfirmCas(st, w, effect, now)
    case ReadStale(w, readOk) => DoReadStale(st, w, readOk, now)
    case FenceAndUpload(w, effect) => DoFenceAndUpload(st, w, effect)
    case FinalizeCas(w, effect) => DoFinalizeCas(st, w, effect, now)
    case MarkDocumentSigned(w, effect) => DoMarkDocument(st, w, effect)
    case MarkSessionSigned(w, effect) => DoMarkSession(st, w, effect)
    case ReadRejected(w, readOk) => DoReadRejected(st, w, readOk)
    case DeleteOfficial(w, effect) => DoDelete(st, w, effect)
    case ReadFailure(w, readOk) => DoReadFailure(st, w, readOk)
    case MarkSuperseded(w, effect) => DoMarkSuperseded(st, w, effect)
    case CancelReservation(w, effect) => DoCancel(st, w, effect, now)
    case MarkJobFailed(w) => DoFail(st, w)
  }

  // --- Runs ---

  datatype Event = Event(step: Step, now: Time)

  ghost predicate Next(st: State, e: Event, st': State) {
    Enabled(st, e.step, e.now) && st' == Apply(st, e.step, e.now)
  }

  ghost predicate StepAt(states: seq<State>, events: seq<Event>, i: nat)
    requires i < |events| && |states| == |events| + 1
  {
    Next(states[i], events[i], states[i + 1])
  }

  ghost predicate Run(states: seq<State>, events: seq<Event>) {
    && |states| == |events| + 1
    && forall i | 0 <= i < |events| :: StepAt(states, events, i)
  }

  lemma ExtendRun(states: seq<State>, events: seq<Event>, e: Event, st: State)
    requires Run(states, events) && Next(states[|events|], e, st)
    ensures Run(states + [st], events + [e])
  {
    var states', events' := states + [st], events + [e];
    forall i | 0 <= i < |events'|
      ensures StepAt(states', events', i)
    {
      assert i < |events| ==> StepAt(states, events, i);
    }
  }

  lemma PrefixRun(states: seq<State>, events: seq<Event>, n: nat)
    requires Run(states, events) && n <= |events|
    ensures Run(states[..n + 1], events[..n])
  {
    var states', events' := states[..n + 1], events[..n];
    forall i | 0 <= i < n
      ensures StepAt(states', events', i)
    {
      assert StepAt(states, events, i);
    }
  }

  /** The status read of the rejection handler does not fail. */
  predicate RejectionReadsSucceed(step: Step) {
    step.ReadRejected? ==> step.readOk
  }
}
