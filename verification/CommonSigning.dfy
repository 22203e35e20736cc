/** A non-numerator signature: one session, its document's PDF in `tosign/` or locked in `inprocess/`, and the
    jobs that ever claimed the session. Every await is a step; a job can die before any of them, and a job whose
    claim was taken away goes on with every statement that does not check the claim. A PDF is the list of its
    signers, so signing changes it, and its hash is the PDF itself. Rolling the lock back is one move. */
module CommonSigning {
  import opened Wrappers
  import opened SigningSessions

  type Pdf = seq<nat>

  datatype Pc =
    | Start | CloseOnly | ReadPayload | PreCheck | ReadInprocess | ReadTosign | SaveHash | SignPdf | Put
    | Marker | Cleanup | Confirm | UpdateSigner | CloseSession | LogEvent | PostCount | PostDecide | Rollback
    | MarkFailed

  /** `uploaded` and `resume` are the flags of `_process_common_job`; `saved` is the hash it read, `pdf` what it
      will sign, `attempt` the retry number the database returned. */
  datatype Job = Job(pc: Pc, resume: bool, saved: Option<Pdf>, pdf: Option<Pdf>, attempt: nat)

  /** `unsigned_sha256`, `signed_uploaded` and `update_retry_count` of the payload are `saved`, `marker` and
      `retries`. `uploads`, `torn` and `requeueLog` record what happened: PDFs put into `tosign/`, whether a
      rollback ever moved the unsigned copy over the signed one, and the attempt number of every requeue. */
  datatype State = State(
    original: Pdf,
    signer: nat,
    tosign: Option<Pdf>,
    inprocess: Option<Pdf>,
    signerDone: bool,
    status: SessionStatus,
    claimedBy: Option<WorkerId>,
    saved: Option<Pdf>,
    marker: bool,
    retries: nat,
    jobs: map<WorkerId, Job>,
    workersUsed: set<WorkerId>,
    rollbackDue: bool,
    uploads: nat,
    torn: bool,
    requeueLog: seq<nat>)

  /** The queued session: the lock has moved the PDF to `inprocess/`. */
  function Enqueued(original: Pdf, signer: nat): State {
    State(original, signer, None, Some(original), false, Pending, None, None, false, 0, map[], {}, false, 0, false, [])
  }

  function SignedPdf(st: State): Pdf {
    st.original + [st.signer]
  }

  /** A call succeeds, fails, or takes effect and still reports an error. */
  datatype Effect = Done | LostBefore | LostAfter

  datatype Step =
    | Claim(w: WorkerId)
    | Crash(w: WorkerId)
    | Work(w: WorkerId, effect: Effect)
    | ExpirePending
    | RollBackExpired
    | ForgetRollback
    | RequeueProcessing

  predicate Holds(st: State, w: WorkerId) {
    st.status == Processing && st.claimedBy == Some(w)
  }

  predicate Enabled(st: State, step: Step) {
    match step
    case Claim(w) => st.status == Pending && w !in st.workersUsed
    case Crash(w) => w in st.jobs
    case Work(w, _) => w in st.jobs
    case ExpirePending => st.status == Pending
    case RollBackExpired => st.rollbackDue
    case ForgetRollback => st.rollbackDue
    case RequeueProcessing => st.status == Processing
  }

  function Goto(st: State, w: WorkerId, pc: Pc): State
    requires w in st.jobs
  {
    st.(jobs := st.jobs[w := st.jobs[w].(pc := pc)])
  }

  function End(st: State, w: WorkerId): State {
    st.(jobs := st.jobs - {w})
  }

  /** The parties never change, and only a rollback tears. */
  predicate Untorn(st: State, st': State) {
    st'.original == st.original && st'.signer == st.signer && st'.torn == st.torn
  }

  /** `release_signing_lock_R2_fail`. */
  function RolledBack(st: State): State {
    if st.inprocess.None? then st
    else st.(tosign := st.inprocess, inprocess := None, torn := st.torn || st.tosign == Some(SignedPdf(st)))
  }

  /** `_mark_session_signed_common`. */
  function Closed(st: State, w: WorkerId): State {
    if st.status == Pending || (st.status == Processing && (st.claimedBy == None || st.claimedBy == Some(w)))
    then st.(status := Signed, claimedBy := Some(w))
    else st
  }

  function Failed(st: State): State {
    if st.status == Processing then st.(status := SessionStatus.Failed) else st
  }

  /** A statement, and where the job goes when it succeeds or raises. */
  function Try(before: State, after: State, w: WorkerId, effect: Effect, next: Pc, handler: Pc): (r: State)
    requires w in before.jobs && after.jobs == before.jobs
    ensures Untorn(before, after) ==> Untorn(before, r)
  {
    match effect
    case Done => Goto(after, w, next)
    case LostBefore => Goto(before, w, handler)
    case LostAfter => Goto(after, w, handler)
  }

  // --- The steps of `_process_common_job` ---

  /** Up to the decision to sign: reads only. An error here rolls the lock back. When the upload turns out to have
      happened, only the update and the closing are left. */
  function Look(st: State, job: Job): Job {
    var resumed := job.(pc := Confirm, resume := true);
    match job.pc
    case Start => job.(pc := if st.signerDone then CloseOnly else ReadPayload)
    case ReadPayload =>
      if st.marker then resumed else job.(pc := if st.saved.Some? then PreCheck else ReadInprocess, saved := st.saved)
    case PreCheck => if st.tosign.Some? && st.tosign != job.saved then resumed else job.(pc := ReadInprocess)
    case ReadInprocess =>
      if st.inprocess.Some? then job.(pc := SaveHash, pdf := st.inprocess)
      else job.(pc := if job.saved.Some? then ReadTosign else Rollback)
    case ReadTosign => if st.tosign.Some? && st.tosign != job.saved then resumed else job.(pc := Rollback)
    case _ => job
  }

  predicate IsLook(pc: Pc) {
    pc.Start? || pc.ReadPayload? || pc.PreCheck? || pc.ReadInprocess? || pc.ReadTosign?
  }

  function DoPut(st: State, w: WorkerId, effect: Effect): (r: State)
    requires w in st.jobs && st.jobs[w].pdf.Some?
    ensures Untorn(st, r)
  {
    if !Holds(st, w) then End(st, w)
    else Try(st, st.(tosign := Some(st.jobs[w].pdf.value + [st.signer]), uploads := st.uploads + 1), w, effect,
      Marker, Rollback)
  }

  predicate IsSigning(pc: Pc) {
    pc.SaveHash? || pc.SignPdf? || pc.Put?
  }

  function Sign(st: State, w: WorkerId, effect: Effect): (r: State)
    requires w in st.jobs && IsSigning(st.jobs[w].pc)
    ensures Untorn(st, r)
  {
    var job := st.jobs[w];
    if job.pdf.None? then st
    else
      match job.pc
      case SaveHash => Try(st, st.(saved := job.pdf), w, effect, SignPdf, Rollback)
      case SignPdf => Try(st, st, w, effect, Put, Rollback)
      case Put => DoPut(st, w, effect)
  }

  /** After the upload; an error here goes to the post-upload handler. */
  function Finish(st: State, w: WorkerId, effect: Effect): (r: State)
    requires w in st.jobs
    ensures Untorn(st, r)
  {
    var job := st.jobs[w];
    match job.pc
    case Marker => Try(st, st.(marker := true), w, effect, Cleanup, Cleanup)
    case Cleanup =>
      var left := if effect.LostBefore? then st else st.(inprocess := None);
      if job.resume then End(left, w) else Goto(left, w, Confirm)
    case Confirm => Try(st, st.(marker := true), w, effect, UpdateSigner, PostCount)
    case UpdateSigner => Try(st, st.(signerDone := true), w, effect, CloseSession, PostCount)
    case CloseSession => Try(st, Closed(st, w), w, effect, LogEvent, PostCount)
    case LogEvent =>
      if !effect.Done? then Goto(st, w, PostCount) else if job.resume then Goto(st, w, Cleanup) else End(st, w)
    case _ => st
  }

  predicate IsFinish(pc: Pc) {
    pc.Marker? || pc.Cleanup? || pc.Confirm? || pc.UpdateSigner? || pc.CloseSession? || pc.LogEvent?
  }

  /** The two statements of `_requeue_or_fail_post_upload`: the retry is counted in the row, then decides. */
  function Count(st: State, w: WorkerId, effect: Effect): (r: State)
    requires w in st.jobs
    ensures Untorn(st, r)
  {
    match effect
    case LostBefore => End(st, w)
    case LostAfter => End(st.(retries := st.retries + 1), w)
    case Done =>
      st.(retries := st.retries + 1, jobs := st.jobs[w := st.jobs[w].(pc := PostDecide, attempt := st.retries + 1)])
  }

  function Decide(st: State, w: WorkerId, effect: Effect): (r: State)
    requires w in st.jobs
    ensures Untorn(st, r)
  {
    if st.jobs[w].attempt >= POST_UPLOAD_MAX_RETRIES then Goto(st, w, MarkFailed)
    else if st.status != Processing || effect.LostBefore? then End(st, w)
    else End(st.(status := Pending, claimedBy := None, requeueLog := st.requeueLog + [st.jobs[w].attempt]), w)
  }

  /** The handlers: `_requeue_or_fail_post_upload`, the rollback and `_mark_session_failed`. */
  function Handle(st: State, w: WorkerId, effect: Effect): (r: State)
    requires w in st.jobs
    ensures if st.jobs[w].pc.Rollback? && !effect.LostBefore? then Untorn(RolledBack(st), r) else Untorn(st, r)
  {
    var job := st.jobs[w];
    match job.pc
    case CloseOnly => if effect.Done? then End(Closed(st, w), w)
      else Try(st, Closed(st, w), w, effect, Rollback, Rollback)
    case PostCount => Count(st, w, effect)
    case PostDecide => Decide(st, w, effect)
    case Rollback => Try(st, RolledBack(st), w, effect, MarkFailed, MarkFailed)
    case MarkFailed => End(if effect.LostBefore? then st else Failed(st), w)
    case _ => st
  }

  function DoWork(st: State, w: WorkerId, effect: Effect): (r: State)
    requires w in st.jobs
    ensures if st.jobs[w].pc.Rollback? && !effect.LostBefore? then Untorn(RolledBack(st), r) else Untorn(st, r)
  {
    var pc := st.jobs[w].pc;
    if IsLook(pc) then st.(jobs := st.jobs[w := if effect.Done? then Look(st, st.jobs[w])
      else st.jobs[w].(pc := Rollback)])
    else if IsSigning(pc) then Sign(st, w, effect)
    else if IsFinish(pc) then Finish(st, w, effect)
    else Handle(st, w, effect)
  }

  function Apply(st: State, step: Step): State
    requires Enabled(st, step)
  {
    match step
    case Claim(w) =>
      st.(status := Processing, claimedBy := Some(w), workersUsed := st.workersUsed + {w},
          jobs := st.jobs[w := Job(Start, false, None, None, 0)])
    case Crash(w) => End(st, w)
    case Work(w, effect) => DoWork(st, w, effect)
    case ExpirePending => st.(status := Expired, rollbackDue := true)
    case RollBackExpired => RolledBack(st).(rollbackDue := false)
    case ForgetRollback => st.(rollbackDue := false)
    case RequeueProcessing => st.(status := Pending, claimedBy := None)
  }

  // --- The invariant ---

  /** Where the PDF is before the upload, after it, and after a rollback that undid it. */
  predicate FilesOk(st: State) {
    var before, signed := Some(st.original), Some(SignedPdf(st));
    if st.uploads == 0 then
      !st.torn && ((st.tosign == None && st.inprocess == before) || (st.tosign == before && st.inprocess == None))
    else if !st.torn then st.tosign == signed && (st.inprocess == before || st.inprocess == None)
    else st.tosign == before && st.inprocess == None
  }

  predicate SessionOk(st: State) {
    && st.uploads <= 1
    && (st.saved == None || st.saved == Some(st.original)) && (st.uploads == 1 ==> st.saved.Some?)
    && (st.marker || st.signerDone ==> st.uploads == 1)
    && (st.status == Signed ==> st.signerDone)
    && (st.claimedBy.Some? ==> st.claimedBy.value in st.workersUsed)
  }

  /** What the jobs rely on. */
  datatype Facts = Facts(uploaded: bool, torn: bool, hashSaved: bool, signerDone: bool)

  function FactsOf(st: State): Facts {
    Facts(st.uploads == 1, st.torn, st.saved.Some?, st.signerDone)
  }

  /** What a job knows. After the upload the claim's holder is never about to sign. */
  predicate JobOk(job: Job, original: Pdf, facts: Facts, holds: bool) {
    && (job.saved == None || job.saved == Some(original))
    && (job.pc.PreCheck? || job.pc.ReadTosign? ==> job.saved.Some?)
    && (IsSigning(job.pc) ==> job.pdf == Some(original))
    && (job.resume ==> !IsLook(job.pc) && !IsSigning(job.pc) && !job.pc.Marker?)
    && (job.pc.SignPdf? || job.pc.Put? ==> facts.hashSaved)
    && (job.resume || IsFinish(job.pc) || job.pc.PostCount? || job.pc.PostDecide? ==> facts.uploaded)
    && (job.pc.CloseOnly? || job.pc.CloseSession? || job.pc.LogEvent? || (job.pc.Cleanup? && job.resume) ==>
       facts.signerDone)
    && (facts.uploaded && holds ==> !IsSigning(job.pc) && (job.pc.ReadInprocess? ==> facts.torn))
  }

  predicate JobsOk(st: State) {
    forall w | w in st.jobs :: w in st.workersUsed && JobOk(st.jobs[w], st.original, FactsOf(st), Holds(st, w))
  }

  /** Retry numbers are drawn once each. */
  predicate RetriesOk(jobs: map<WorkerId, Job>, retries: nat, log: seq<nat>) {
    && (forall w | w in jobs && jobs[w].pc.PostDecide? :: 0 < jobs[w].attempt <= retries && jobs[w].attempt !in log)
    && (forall v, w | v in jobs && w in jobs && jobs[v].pc.PostDecide? && jobs[w].pc.PostDecide? ::
          jobs[v].attempt == jobs[w].attempt ==> v == w)
    && (forall i | 0 <= i < |log| :: 0 < log[i] < POST_UPLOAD_MAX_RETRIES && log[i] <= retries)
    && (forall i, j | 0 <= i < j < |log| :: log[i] != log[j])
  }

  predicate Inv(st: State) {
    FilesOk(st) && SessionOk(st) && JobsOk(st) && RetriesOk(st.jobs, st.retries, st.requeueLog)
  }

  // --- Every step keeps it ---

  /** What may change under a job of another worker: facts are only gained, the upload only by a claim holder. */
  predicate OthersUnharmed(st: State, st': State, w: WorkerId) {
    && st'.original == st.original && st.workersUsed <= st'.workersUsed
    && (forall v | v in st'.jobs && v != w ::
       v in st.jobs && st'.jobs[v] == st.jobs[v] && (Holds(st', v) ==> Holds(st, v)))
    && FactsGrow(FactsOf(st), FactsOf(st'))
    && (FactsOf(st').uploaded && !FactsOf(st).uploaded ==> Holds(st, w))
  }

  predicate FactsGrow(f: Facts, f': Facts) {
    (f.uploaded ==> f'.uploaded) && (f.torn ==> f'.torn) && (f.hashSaved ==> f'.hashSaved)
      && (f.signerDone ==> f'.signerDone)
  }

  lemma OthersStayOk(st: State, st': State, w: WorkerId)
    requires JobsOk(st) && OthersUnharmed(st, st', w)
    requires w in st'.jobs ==> w in st'.workersUsed && JobOk(st'.jobs[w], st'.original, FactsOf(st'), Holds(st', w))
    ensures JobsOk(st')
  {
  }

  /** A step that draws no retry number. */
  lemma RetriesStayOk(jobs: map<WorkerId, Job>, jobs': map<WorkerId, Job>, w: WorkerId, retries: nat, log: seq<nat>)
    requires RetriesOk(jobs, retries, log)
    requires forall v | v in jobs' && v != w :: v in jobs && jobs'[v] == jobs[v]
    requires w in jobs' ==> !jobs'[w].pc.PostDecide?
    ensures RetriesOk(jobs', retries, log)
  {
  }

  /** A job's own step is sound when it leaves the others unharmed and itself, its session and the files sound. */
  lemma OwnStepKeepsInv(st: State, st': State, w: WorkerId)
    requires Inv(st) && OthersUnharmed(st, st', w) && FilesOk(st') && SessionOk(st')
    requires st'.retries == st.retries && st'.requeueLog == st.requeueLog
    requires w in st'.jobs ==>
        w in st'.workersUsed && !st'.jobs[w].pc.PostDecide?
        && JobOk(st'.jobs[w], st'.original, FactsOf(st'), Holds(st', w))
    ensures Inv(st')
  {
    OthersStayOk(st, st', w);
    RetriesStayOk(st.jobs, st'.jobs, w, st.retries, st.requeueLog);
  }

  // Only the job moves on.

  lemma MoveKeepsInv(st: State, w: WorkerId, job: Job)
    requires Inv(st) && w in st.jobs && !job.pc.PostDecide? && JobOk(job, st.original, FactsOf(st), Holds(st, w))
    ensures Inv(st.(jobs := st.jobs[w := job]))
  {
    OwnStepKeepsInv(st, st.(jobs := st.jobs[w := job]), w);
  }

  lemma HandlerKeepsInv(st: State, w: WorkerId, pc: Pc)
    requires Inv(st) && w in st.jobs && (pc.Rollback? || pc.MarkFailed?)
    ensures Inv(Goto(st, w, pc))
  {
    MoveKeepsInv(st, w, st.jobs[w].(pc := pc));
  }

  lemma EndKeepsInv(st: State, w: WorkerId)
    requires Inv(st)
    ensures Inv(End(st, w))
  {
    OwnStepKeepsInv(st, End(st, w), w);
  }

  lemma LookKeepsInv(st: State, w: WorkerId)
    requires Inv(st) && w in st.jobs && IsLook(st.jobs[w].pc)
    ensures Inv(st.(jobs := st.jobs[w := Look(st, st.jobs[w])]))
  {
    LookIsSound(st, st.jobs[w], Holds(st, w));
    MoveKeepsInv(st, w, Look(st, st.jobs[w]));
  }

  lemma LookIsSound(st: State, job: Job, holds: bool)
    requires FilesOk(st) && SessionOk(st) && JobOk(job, st.original, FactsOf(st), holds) && IsLook(job.pc)
    ensures JobOk(Look(st, job), st.original, FactsOf(st), holds) && !Look(st, job).pc.PostDecide?
  {
    assert |SignedPdf(st)| == |st.original| + 1;
  }

  // Only the tables and files change.

  lemma StatementKeepsInv(st: State, st': State)
    requires Inv(st) && FilesOk(st') && SessionOk(st') && st'.original == st.original
    requires st'.jobs == st.jobs && st'.workersUsed == st.workersUsed && st'.retries == st.retries
        && st'.requeueLog == st.requeueLog
    requires FactsGrow(FactsOf(st), FactsOf(st')) && st'.uploads == st.uploads
    requires forall v | v in st.jobs && Holds(st', v) :: Holds(st, v)
    ensures Inv(st')
  {
  }

  lemma HashKeepsInv(st: State)
    requires Inv(st)
    ensures Inv(st.(saved := Some(st.original)))
  {
    StatementKeepsInv(st, st.(saved := Some(st.original)));
  }

  lemma MarkerKeepsInv(st: State)
    requires Inv(st) && st.uploads == 1
    ensures Inv(st.(marker := true))
  {
    StatementKeepsInv(st, st.(marker := true));
  }

  lemma SignerKeepsInv(st: State)
    requires Inv(st) && st.uploads == 1
    ensures Inv(st.(signerDone := true))
  {
    StatementKeepsInv(st, st.(signerDone := true));
  }

  lemma UnlockKeepsInv(st: State)
    requires Inv(st) && st.uploads == 1
    ensures Inv(st.(inprocess := None))
  {
    StatementKeepsInv(st, st.(inprocess := None));
  }

  lemma ClosedKeepsInv(st: State, w: WorkerId)
    requires Inv(st) && w in st.workersUsed && st.signerDone
    ensures Inv(Closed(st, w))
  {
    StatementKeepsInv(st, Closed(st, w));
  }

  lemma RolledBackKeepsInv(st: State)
    requires Inv(st)
    ensures Inv(RolledBack(st))
  {
    StatementKeepsInv(st, RolledBack(st));
  }

  lemma FailedKeepsInv(st: State)
    requires Inv(st)
    ensures Inv(Failed(st))
  {
    StatementKeepsInv(st, Failed(st));
  }

  lemma TryKeepsInv(before: State, after: State, w: WorkerId, effect: Effect, next: Pc, handler: Pc)
    requires Inv(before) && Inv(after) && w in before.jobs && after.jobs == before.jobs
        && after.original == before.original
    requires FactsGrow(FactsOf(before), FactsOf(after))
    requires !next.PostDecide? && !handler.PostDecide?
    requires JobOk(before.jobs[w].(pc := next), before.original, FactsOf(after), Holds(after, w))
    requires JobOk(before.jobs[w].(pc := handler), before.original, FactsOf(before), Holds(before, w))
    requires JobOk(before.jobs[w].(pc := handler), before.original, FactsOf(after), Holds(after, w))
    ensures Inv(Try(before, after, w, effect, next, handler))
  {
    match effect
    case Done => MoveKeepsInv(after, w, before.jobs[w].(pc := next));
    case LostBefore => MoveKeepsInv(before, w, before.jobs[w].(pc := handler));
    case LostAfter => MoveKeepsInv(after, w, before.jobs[w].(pc := handler));
  }

  lemma PutKeepsInv(st: State, w: WorkerId, pc: Pc)
    requires Inv(st) && w in st.jobs && st.jobs[w].pc.Put? && Holds(st, w) && (pc.Marker? || pc.Rollback?)
    ensures Inv(Goto(st.(tosign := Some(SignedPdf(st)), uploads := st.uploads + 1), w, pc))
  {
    assert JobOk(st.jobs[w], st.original, FactsOf(st), true);
    OwnStepKeepsInv(st, Goto(st.(tosign := Some(SignedPdf(st)), uploads := st.uploads + 1), w, pc), w);
  }

  lemma SignKeepsInv(st: State, w: WorkerId, effect: Effect)
    requires Inv(st) && w in st.jobs && IsSigning(st.jobs[w].pc)
    ensures Inv(Sign(st, w, effect))
  {
    var job := st.jobs[w];
    assert JobOk(job, st.original, FactsOf(st), Holds(st, w));
    match job.pc
    case SaveHash =>
      HashKeepsInv(st);
      TryKeepsInv(st, st.(saved := job.pdf), w, effect, SignPdf, Rollback);
    case SignPdf => TryKeepsInv(st, st, w, effect, Put, Rollback);
    case Put =>
      if !Holds(st, w) {
        EndKeepsInv(st, w);
      } else if effect.LostBefore? {
        HandlerKeepsInv(st, w, Rollback);
      } else {
        PutKeepsInv(st, w, if effect.Done? then Marker else Rollback);
      }
  }

  lemma FinishKeepsInv(st: State, w: WorkerId, effect: Effect)
    requires Inv(st) && w in st.jobs && IsFinish(st.jobs[w].pc)
    ensures Inv(Finish(st, w, effect))
  {
    match st.jobs[w].pc
    case Marker => MarkingKeepsInv(st, w, effect);
    case Confirm => MarkingKeepsInv(st, w, effect);
    case UpdateSigner => UpdatingKeepsInv(st, w, effect);
    case Cleanup => CleanupKeepsInv(st, w, effect);
    case CloseSession => ClosingKeepsInv(st, w, effect);
    case LogEvent => LoggingKeepsInv(st, w, effect);
  }

  lemma MarkingKeepsInv(st: State, w: WorkerId, effect: Effect)
    requires Inv(st) && w in st.jobs && (st.jobs[w].pc.Marker? || st.jobs[w].pc.Confirm?)
    ensures Inv(Finish(st, w, effect))
  {
    assert JobOk(st.jobs[w], st.original, FactsOf(st), Holds(st, w));
    MarkerKeepsInv(st);
    if st.jobs[w].pc.Marker? {
      TryKeepsInv(st, st.(marker := true), w, effect, Cleanup, Cleanup);
    } else {
      TryKeepsInv(st, st.(marker := true), w, effect, UpdateSigner, PostCount);
    }
  }

  lemma UpdatingKeepsInv(st: State, w: WorkerId, effect: Effect)
    requires Inv(st) && w in st.jobs && st.jobs[w].pc.UpdateSigner?
    ensures Inv(Finish(st, w, effect))
  {
    assert JobOk(st.jobs[w], st.original, FactsOf(st), Holds(st, w));
    SignerKeepsInv(st);
    TryKeepsInv(st, st.(signerDone := true), w, effect, CloseSession, PostCount);
  }

  lemma ClosingKeepsInv(st: State, w: WorkerId, effect: Effect)
    requires Inv(st) && w in st.jobs && st.jobs[w].pc.CloseSession?
    ensures Inv(Finish(st, w, effect))
  {
    assert JobOk(st.jobs[w], st.original, FactsOf(st), Holds(st, w));
    ClosedKeepsInv(st, w);
    TryKeepsInv(st, Closed(st, w), w, effect, LogEvent, PostCount);
  }

  lemma LoggingKeepsInv(st: State, w: WorkerId, effect: Effect)
    requires Inv(st) && w in st.jobs && st.jobs[w].pc.LogEvent?
    ensures Inv(Finish(st, w, effect))
  {
    EndKeepsInv(st, w);
    MoveKeepsInv(st, w, st.jobs[w].(pc := if effect.Done? then Cleanup else PostCount));
  }

  lemma CleanupKeepsInv(st: State, w: WorkerId, effect: Effect)
    requires Inv(st) && w in st.jobs && st.jobs[w].pc.Cleanup?
    ensures Inv(Finish(st, w, effect))
  {
    var left := if effect.LostBefore? then st else st.(inprocess := None);
    UnlockKeepsInv(st);
    if st.jobs[w].resume {
      EndKeepsInv(left, w);
    } else {
      MoveKeepsInv(left, w, st.jobs[w].(pc := Confirm));
    }
  }

  lemma CountKeepsInv(st: State)
    requires Inv(st)
    ensures Inv(st.(retries := st.retries + 1))
  {
  }

  lemma DrawKeepsInv(st: State, w: WorkerId)
    requires Inv(st) && w in st.jobs && st.jobs[w].pc.PostCount?
    ensures Inv(st.(retries := st.retries + 1,
        jobs := st.jobs[w := st.jobs[w].(pc := PostDecide, attempt := st.retries + 1)]))
  {
    OthersStayOk(st, st.(retries := st.retries + 1,
      jobs := st.jobs[w := st.jobs[w].(pc := PostDecide, attempt := st.retries + 1)]), w);
  }

  lemma RequeueKeepsInv(st: State, w: WorkerId)
    requires Inv(st) && w in st.jobs && st.jobs[w].pc.PostDecide? && st.jobs[w].attempt < POST_UPLOAD_MAX_RETRIES
    requires st.status == Processing
    ensures Inv(End(st.(status := Pending, claimedBy := None, requeueLog := st.requeueLog + [st.jobs[w].attempt]), w))
  {
    OthersStayOk(st, End(st.(status := Pending, claimedBy := None,
      requeueLog := st.requeueLog + [st.jobs[w].attempt]), w), w);
  }

  lemma PostCountKeepsInv(st: State, w: WorkerId, effect: Effect)
    requires Inv(st) && w in st.jobs && st.jobs[w].pc.PostCount?
    ensures Inv(Count(st, w, effect))
  {
    match effect
    case LostBefore => EndKeepsInv(st, w);
    case LostAfter =>
      CountKeepsInv(st);
      EndKeepsInv(st.(retries := st.retries + 1), w);
    case Done => DrawKeepsInv(st, w);
  }

  lemma PostDecideKeepsInv(st: State, w: WorkerId, effect: Effect)
    requires Inv(st) && w in st.jobs && st.jobs[w].pc.PostDecide?
    ensures Inv(Decide(st, w, effect))
  {
    if st.jobs[w].attempt >= POST_UPLOAD_MAX_RETRIES {
      HandlerKeepsInv(st, w, MarkFailed);
    } else if st.status != Processing || effect.LostBefore? {
      EndKeepsInv(st, w);
    } else {
      RequeueKeepsInv(st, w);
    }
  }

  lemma CloseOnlyKeepsInv(st: State, w: WorkerId, effect: Effect)
    requires Inv(st) && w in st.jobs && st.jobs[w].pc.CloseOnly?
    ensures Inv(Handle(st, w, effect))
  {
    assert JobOk(st.jobs[w], st.original, FactsOf(st), Holds(st, w));
    ClosedKeepsInv(st, w);
    EndKeepsInv(Closed(st, w), w);
    TryKeepsInv(st, Closed(st, w), w, effect, Rollback, Rollback);
  }

  lemma RollbackKeepsInv(st: State, w: WorkerId, effect: Effect)
    requires Inv(st) && w in st.jobs && st.jobs[w].pc.Rollback?
    ensures Inv(Handle(st, w, effect))
  {
    if effect.LostBefore? {
      HandlerKeepsInv(st, w, MarkFailed);
    } else {
      RolledBackKeepsInv(st);
      HandlerKeepsInv(RolledBack(st), w, MarkFailed);
    }
  }

  lemma FailureKeepsInv(st: State, w: WorkerId, effect: Effect)
    requires Inv(st) && w in st.jobs && st.jobs[w].pc.MarkFailed?
    ensures Inv(Handle(st, w, effect))
  {
    if effect.LostBefore? {
      EndKeepsInv(st, w);
    } else {
      FailedKeepsInv(st);
      EndKeepsInv(Failed(st), w);
    }
  }

  lemma WorkKeepsInv(st: State, w: WorkerId, effect: Effect)
    requires Inv(st) && w in st.jobs
    ensures Inv(DoWork(st, w, effect))
  {
    var pc := st.jobs[w].pc;
    if IsLook(pc) {
      LookKeepsInv(st, w);
      HandlerKeepsInv(st, w, Rollback);
    } else if IsSigning(pc) {
      SignKeepsInv(st, w, effect);
    } else if IsFinish(pc) {
      FinishKeepsInv(st, w, effect);
    } else if pc.PostCount? {
      PostCountKeepsInv(st, w, effect);
    } else if pc.PostDecide? {
      PostDecideKeepsInv(st, w, effect);
    } else if pc.CloseOnly? {
      CloseOnlyKeepsInv(st, w, effect);
    } else if pc.Rollback? {
      RollbackKeepsInv(st, w, effect);
    } else {
      FailureKeepsInv(st, w, effect);
    }
  }

  lemma SweepKeepsInv(st: State, step: Step)
    requires Inv(st) && Enabled(st, step)
        && (step.ExpirePending? || step.RollBackExpired? || step.ForgetRollback? || step.RequeueProcessing?)
    ensures Inv(Apply(st, step))
  {
    if step.RollBackExpired? {
      RolledBackKeepsInv(st);
      StatementKeepsInv(RolledBack(st), Apply(st, step));
    } else {
      StatementKeepsInv(st, Apply(st, step));
    }
  }

  lemma ClaimKeepsInv(st: State, w: WorkerId)
    requires Inv(st) && Enabled(st, Claim(w))
    ensures Inv(Apply(st, Claim(w)))
  {
    OwnStepKeepsInv(st, Apply(st, Claim(w)), w);
  }

  lemma StepKeepsInv(st: State, step: Step)
    requires Inv(st) && Enabled(st, step)
    ensures Inv(Apply(st, step))
  {
    match step
    case Work(w, effect) => WorkKeepsInv(st, w, effect);
    case Crash(w) => EndKeepsInv(st, w);
    case Claim(w) => ClaimKeepsInv(st, w);
    case _ => SweepKeepsInv(st, step);
  }

  lemma StepKeepsParties(st: State, step: Step)
    requires Enabled(st, step)
    ensures Apply(st, step).original == st.original && Apply(st, step).signer == st.signer
  {
  }

  // --- Runs ---

  predicate Next(st: State, step: Step, st': State) {
    Enabled(st, step) && st' == Apply(st, step)
  }

  predicate Run(states: seq<State>, steps: seq<Step>) {
    && |states| == |steps| + 1
    && forall i | 0 <= i < |steps| :: Next(states[i], steps[i], states[i + 1])
  }

  lemma NextKeepsInv(st: State, step: Step, st': State)
    requires Inv(st) && Next(st, step, st')
    ensures Inv(st') && st'.original == st.original && st'.signer == st.signer
  {
    StepKeepsInv(st, step);
    StepKeepsParties(st, step);
  }

  lemma {:induction false} RunKeepsInv(states: seq<State>, steps: seq<Step>, i: nat, original: Pdf, signer: nat)
    requires Run(states, steps) && states[0] == Enqueued(original, signer) && i < |states|
    ensures Inv(states[i]) && states[i].original == original && states[i].signer == signer
  {
    if i > 0 {
      RunKeepsInv(states, steps, i - 1, original, signer);
      assert Next(states[i - 1], steps[i - 1], states[i]);
      NextKeepsInv(states[i - 1], steps[i - 1], states[i]);
    } else {
      EnqueuedIsSound(original, signer);
    }
  }

  lemma EnqueuedIsSound(original: Pdf, signer: nat)
    ensures Inv(Enqueued(original, signer))
  {
  }

  /** How often someone signed a PDF. */
  function Signatures(pdf: Pdf, who: nat): nat {
    multiset(pdf)[who]
  }

  lemma AtMostTwoOf(a: nat, b: nat, c: nat)
    requires 0 < a < 3 && 0 < b < 3 && 0 < c < 3
    ensures a == b || b == c || a == c
  {
  }

  lemma AtMostTwo(log: seq<nat>)
    requires forall i | 0 <= i < |log| :: 0 < log[i] < 3
    requires forall i, j | 0 <= i < j < |log| :: log[i] != log[j]
    ensures |log| <= 2
  {
    if |log| > 2 {
      AtMostTwoOf(log[0], log[1], log[2]);
    }
  }

  /** In every run, whatever crashes and whoever lost its claim, the signed PDF is uploaded at most once, a session
      is requeued after its upload at most twice, and a session that ends signed has its signer marked. Its PDF in
      `tosign/` then carries exactly one more signature of the signer if and only if no rollback ever moved
      the unsigned copy over the upload. */
  lemma CommonSigningIsCrashSafe(states: seq<State>, steps: seq<Step>, i: nat, original: Pdf, signer: nat)
    requires Run(states, steps) && states[0] == Enqueued(original, signer) && i < |states|
    ensures states[i].uploads <= 1
    ensures |states[i].requeueLog| <= POST_UPLOAD_MAX_RETRIES - 1
    ensures states[i].status == Signed ==> states[i].signerDone
    ensures states[i].signerDone ==>
              && states[i].tosign.Some?
              && Signatures(states[i].tosign.value, signer)
                 == Signatures(original, signer) + (if states[i].torn then 0 else 1)
  {
    RunKeepsInv(states, steps, i, original, signer);
    AtMostTwo(states[i].requeueLog);
  }

  /** Which rollbacks tear: those that find the unsigned copy in `inprocess/` once the upload has been made. */
  lemma TornExactly(states: seq<State>, steps: seq<Step>, i: nat, original: Pdf, signer: nat)
    requires Run(states, steps) && states[0] == Enqueued(original, signer) && i < |steps|
    ensures states[i + 1].torn <==>
        states[i].torn || (RollsBack(states[i], steps[i]) && states[i].uploads == 1 && states[i].inprocess.Some?)
  {
    RunKeepsInv(states, steps, i, original, signer);
    assert Next(states[i], steps[i], states[i + 1]);
    StepTears(states[i], steps[i]);
  }

  lemma StepTears(st: State, step: Step)
    requires FilesOk(st) && Enabled(st, step)
    ensures Apply(st, step).torn == if RollsBack(st, step) then RolledBack(st).torn else st.torn
  {
  }

  predicate RollsBack(st: State, step: Step) {
    step.RollBackExpired? || (step.Work? && step.w in st.jobs && st.jobs[step.w].pc == Rollback
      && !step.effect.LostBefore?)
  }

  /** The third failure after an upload sends nobody back: it closes the session if it is still processing. */
  lemma ThirdFailureCloses(st: State, w: WorkerId)
    requires w in st.jobs && st.jobs[w].pc.PostCount? && st.retries + 1 >= POST_UPLOAD_MAX_RETRIES
    ensures var closed := DoWork(DoWork(DoWork(st, w, Done), w, Done), w, Done);
            closed.status == (if st.status == Processing then SessionStatus.Failed else st.status)
              && closed.requeueLog == st.requeueLog
  {
    var counted := Handle(st, w, Done);
    assert counted.jobs[w].attempt >= POST_UPLOAD_MAX_RETRIES;
    var decided := Handle(counted, w, Done);
    assert decided == Goto(counted, w, MarkFailed);
  }
}
