/** SPECIAL reservations at statement grain. A reservation locks its counter row with its first statement, so
    one runs per lane at a time; its own writes stay private until it commits, the rows it deletes stay locked,
    and confirmations, finalizations, cancellations and rejections of other transactions commit between its
    statements. */
module SpecialStatements {
  import opened Wrappers
  import opened OfficialRows
  import S = SpecialLane

  /** How far an in-flight reservation has got. */
  datatype Stage = CounterRead | LaneChecked | Chosen | OwnDropped | Inserted

  /** `read` is the counter as the first statement returned it, `deleted` the rows deleted and locked so far. */
  datatype Txn = Txn(req: Request, ticket: Ticket, read: Counter, stage: Stage, recycled: Option<DocId>, n: nat,
    deleted: set<DocId>)

  /** `docs` and `counters` are the committed tables. */
  datatype State = State(docs: Docs, counters: Counters, txns: map<Lane, Txn>)

  datatype Step =
    | Begin(req: Request, ticket: Ticket)
    | CheckLane(lane: Lane)
    | Choose(lane: Lane, pick: Option<DocId>)
    | DropOwn(lane: Lane)
    | Insert(lane: Lane)
    | Commit(lane: Lane, now: Time)
    | Abort(lane: Lane)
    | ConfirmRow(d: DocId, t: Ticket, now: Time)
    | FinalizeRow(d: DocId, t: Ticket, now: Time)
    | CancelRow(d: DocId, opt: Option<Ticket>, scope: CancelScope, now: Time)
    | RejectRow(d: DocId, now: Time)

  const Empty := State(map[], map[], map[])

  // --- Locks ---

  ghost predicate LockedByOther(s: State, lane: Lane, d: DocId) {
    exists l | l in s.txns :: l != lane && d in s.txns[l].deleted
  }

  ghost predicate InsertedByOther(s: State, lane: Lane, d: DocId) {
    exists l | l in s.txns :: l != lane && s.txns[l].stage == Inserted && s.txns[l].req.doc == d
  }

  /** FOR UPDATE SKIP LOCKED: the oldest cancelled row of the lane that nobody else has locked. */
  ghost predicate ValidPick(s: State, lane: Lane, pick: Option<DocId>) {
    match pick
    case Some(r) =>
      && r in s.docs && S.Recyclable(s.docs[r], lane) && !LockedByOther(s, lane, r)
      && forall e | e in s.docs && S.Recyclable(s.docs[e], lane) && !LockedByOther(s, lane, e) ::
         Older(s.docs[r], s.docs[e])
    case None =>
      forall e | e in s.docs && S.Recyclable(s.docs[e], lane) :: LockedByOther(s, lane, e)
  }

  /** A lane release waits for a reservation that holds the counter row it would change. */
  ghost predicate CounterFree(s: State, docs: Docs, d: DocId) {
    d in docs && docs[d].lane in s.txns ==> S.ReleaseIfSpecial(docs, s.counters, d) == s.counters
  }

  /** So does a rejection, which clears the pointer only. */
  function PointerCleared(docs: Docs, counters: Counters, d: DocId): Counters {
    if d in docs && docs[d].regime == Special then S.ReleasePointer(docs, counters, d) else counters
  }

  predicate PointerFree(s: State, d: DocId) {
    d in s.docs && s.docs[d].lane in s.txns ==> PointerCleared(s.docs, s.counters, d) == s.counters
  }

  predicate At(s: State, lane: Lane, stage: Stage) {
    lane in s.txns && s.txns[lane].stage == stage
  }

  ghost predicate Enabled(s: State, step: Step) {
    match step
    case Begin(req, _) => req.lane !in s.txns
    case CheckLane(lane) => At(s, lane, CounterRead)
    case Choose(lane, pick) => At(s, lane, LaneChecked) && ValidPick(s, lane, pick)
    case DropOwn(lane) => At(s, lane, Chosen) && !LockedByOther(s, lane, s.txns[lane].req.doc)
    case Insert(lane) =>
      At(s, lane, OwnDropped) && !LockedByOther(s, lane, s.txns[lane].req.doc)
        && !InsertedByOther(s, lane, s.txns[lane].req.doc)
    case Commit(lane, _) => At(s, lane, Inserted)
    case Abort(lane) => lane in s.txns
    case ConfirmRow(d, t, now) => CanConfirm(s.docs, d, t) && CounterFree(s, Confirm(s.docs, d, t, now), d)
    case FinalizeRow(d, t, _) => CanFinalize(s.docs, d, t)
    case CancelRow(d, t, scope, now) => CanCancel(s.docs, d, t, scope)
      && CounterFree(s, Cancel(s.docs, d, t, scope, now), d)
    case RejectRow(d, _) => CanCancel(s.docs, d, None, OnlyReserved) && PointerFree(s, d)
  }

  function NewRow(txn: Txn, now: Time): Row {
    S.ReservedRow(txn.req, txn.n, txn.ticket, now)
  }

  ghost function Apply(s: State, step: Step): State
    requires Enabled(s, step)
  {
    match step
    case Begin(req, ticket) =>
      s.(txns := s.txns[req.lane := Txn(req, ticket, S.CounterOf(s.counters, req.lane), CounterRead, None, 0, {})])
    case CheckLane(lane) =>
      var txn := s.txns[lane];
      if S.Retry(s.docs, txn.read, txn.req.doc) then
        s.(counters := s.counters[lane := txn.read], txns := s.txns - {lane})
      else if S.Busy(s.docs, txn.read, txn.req) then
        s.(txns := s.txns - {lane})
      else
        s.(txns := s.txns[lane := txn.(stage := LaneChecked)])
    case Choose(lane, pick) =>
      var txn := s.txns[lane];
      s.(txns := s.txns[lane := txn.(stage := Chosen, recycled := pick, n := S.NextNumber(s.docs, txn.read, pick),
        deleted := Picked(pick))])
    case DropOwn(lane) =>
      var txn := s.txns[lane];
      var d := txn.req.doc;
      var own: set<DocId> := if d in s.docs && s.docs[d].status == Cancelled then {d} else {};
      s.(txns := s.txns[lane := txn.(stage := OwnDropped, deleted := txn.deleted + own)])
    case Insert(lane) =>
      var txn := s.txns[lane];
      var d := txn.req.doc;
      if d !in s.docs || d in txn.deleted then
        s.(txns := s.txns[lane := txn.(stage := Inserted)])
      else if s.docs[d].status != Cancelled then
        // primary-key conflict with a live row: its number is handed out and the deletions commit
        State(s.docs - txn.deleted, s.counters[lane := txn.read], s.txns - {lane})
      else
        s.(txns := s.txns - {lane})
    case Commit(lane, now) =>
      var txn := s.txns[lane];
      State((s.docs - txn.deleted)[txn.req.doc := NewRow(txn, now)],
            s.counters[lane := S.Advance(S.CounterOf(s.counters, lane), txn.n, txn.req)],
            s.txns - {lane})
    case Abort(lane) =>
      s.(txns := s.txns - {lane})
    case ConfirmRow(d, t, now) =>
      var docs := Confirm(s.docs, d, t, now);
      s.(docs := docs, counters := S.ReleaseIfSpecial(docs, s.counters, d))
    case FinalizeRow(d, t, now) =>
      s.(docs := Finalize(s.docs, d, t, now))
    case CancelRow(d, t, scope, now) =>
      var docs := Cancel(s.docs, d, t, scope, now);
      s.(docs := docs, counters := S.ReleaseIfSpecial(docs, s.counters, d))
    case RejectRow(d, now) =>
      var docs := Cancel(s.docs, d, None, OnlyReserved, now);
      s.(docs := docs, counters := PointerCleared(docs, s.counters, d))
  }

  // --- The invariant ---

  /** Numbers on a lane are pairwise distinct and at most the counter. */
  ghost predicate LaneNumbersUnique(s: State) {
    && (forall d, e | d in s.docs && e in s.docs && d != e && s.docs[d].regime == Special
       && s.docs[e].regime == Special ::
          s.docs[d].lane == s.docs[e].lane ==> s.docs[d].number != s.docs[e].number)
    && (forall d | d in s.docs && s.docs[d].regime == Special ::
       s.docs[d].number <= S.CounterOf(s.counters, s.docs[d].lane).last)
  }

  ghost predicate TxnSound(s: State, lane: Lane)
    requires lane in s.txns
  {
    var txn := s.txns[lane];
    && txn.req.lane == lane
    && txn.read == S.CounterOf(s.counters, lane)
    && (forall d | d in txn.deleted :: d in s.docs && s.docs[d].status == Cancelled && !LockedByOther(s, lane, d))
    && (txn.stage in {Chosen, OwnDropped, Inserted} ==>
          match txn.recycled
          case Some(r) => r in txn.deleted && OnLane(s.docs[r], lane) && s.docs[r].number == txn.n
          case None => txn.n == txn.read.last + 1)
    && (txn.stage == Inserted ==>
          && (txn.req.doc in s.docs ==> txn.req.doc in txn.deleted)
          && !LockedByOther(s, lane, txn.req.doc) && !InsertedByOther(s, lane, txn.req.doc))
  }

  ghost predicate Inv(s: State) {
    LaneNumbersUnique(s) && forall lane | lane in s.txns :: TxnSound(s, lane)
  }

  // --- Every statement keeps it ---

  /** Private statements: the committed tables stay as they are. */
  lemma PrivateStatementKeepsInv(s: State, step: Step)
    requires Inv(s) && Enabled(s, step)
    requires step.Begin? || step.Choose? || step.DropOwn? || step.Abort?
    ensures Inv(Apply(s, step))
  {
    var s' := Apply(s, step);
    forall lane | lane in s'.txns
      ensures TxnSound(s', lane)
    {
      if lane in s.txns {
        assert TxnSound(s, lane);
      }
      OthersLocksAfter(s, s', step, lane);
    }
  }

  function Actor(step: Step): Lane
    requires step.Begin? || step.Choose? || step.DropOwn? || step.Abort?
  {
    if step.Begin? then step.req.lane else step.lane
  }

  /** Locks seen by one lane change only by what the acting lane locks or lets go. */
  lemma OthersLocksAfter(s: State, s': State, step: Step, lane: Lane)
    requires Inv(s) && Enabled(s, step)
    requires step.Begin? || step.Choose? || step.DropOwn? || step.Abort?
    requires s' == Apply(s, step) && lane in s'.txns
    ensures forall d | d in s'.txns[lane].deleted :: !LockedByOther(s', lane, d)
    ensures s'.txns[lane].stage == Inserted ==>
              !LockedByOther(s', lane, s'.txns[lane].req.doc) && !InsertedByOther(s', lane, s'.txns[lane].req.doc)
  {
    var actor := Actor(step);
    if lane in s.txns {
      assert TxnSound(s, lane);
    }
    forall d | d in s'.txns[lane].deleted
      ensures !LockedByOther(s', lane, d)
    {
      forall l | l in s'.txns && l != lane
        ensures d !in s'.txns[l].deleted
      {
        if l in s.txns {
          assert TxnSound(s, l);
        }
      }
    }
    if s'.txns[lane].stage == Inserted {
      InsertedRowStaysFree(s, s', step, lane);
    }
  }

  lemma InsertedRowStaysFree(s: State, s': State, step: Step, lane: Lane)
    requires Inv(s) && Enabled(s, step)
    requires step.Begin? || step.Choose? || step.DropOwn? || step.Abort?
    requires s' == Apply(s, step) && At(s', lane, Inserted)
    ensures !LockedByOther(s', lane, s'.txns[lane].req.doc) && !InsertedByOther(s', lane, s'.txns[lane].req.doc)
  {
    assert s'.txns[lane] == s.txns[lane] && TxnSound(s, lane);
    forall l | l in s'.txns && l != lane
      ensures s.txns[lane].req.doc !in s'.txns[l].deleted
      ensures !(s'.txns[l].stage == Inserted && s'.txns[l].req.doc == s.txns[lane].req.doc)
    {
      if l in s.txns {
        assert TxnSound(s, l);
      }
    }
  }

  /** A lane check ends the transaction (retry or busy) or goes on; numbers and counters keep their values. */
  lemma CheckKeepsInv(s: State, lane: Lane)
    requires Inv(s) && Enabled(s, CheckLane(lane))
    ensures Inv(Apply(s, CheckLane(lane)))
  {
    var s' := Apply(s, CheckLane(lane));
    assert TxnSound(s, lane);
    assert LaneNumbersUnique(s');
    forall l | l in s'.txns
      ensures TxnSound(s', l)
    {
      CheckSeenByOthers(s, lane, l);
    }
  }

  lemma CheckSeenByOthers(s: State, lane: Lane, l: Lane)
    requires Inv(s) && Enabled(s, CheckLane(lane)) && l in Apply(s, CheckLane(lane)).txns
    ensures TxnSound(Apply(s, CheckLane(lane)), l)
  {
    assert TxnSound(s, l) && TxnSound(s, lane);
    TxnStaysSound(s, Apply(s, CheckLane(lane)), l);
  }

  /** The other transactions locked and inserted nothing new. */
  ghost predicate NoNewLocks(s: State, s': State, l: Lane) {
    forall m | m in s'.txns && m != l ::
      && m in s.txns && s'.txns[m].req == s.txns[m].req && s'.txns[m].deleted <= s.txns[m].deleted
      && (s'.txns[m].stage == Inserted ==> s.txns[m].stage == Inserted)
  }

  lemma TxnStaysSound(s: State, s': State, l: Lane)
    requires l in s.txns && TxnSound(s, l) && l in s'.txns && NoNewLocks(s, s', l)
    requires s'.txns[l] == s.txns[l] || (s'.txns[l] == s.txns[l].(stage := LaneChecked))
    requires s'.docs == s.docs && S.CounterOf(s'.counters, l) == S.CounterOf(s.counters, l)
    ensures TxnSound(s', l)
  {
    assert forall d :: LockedByOther(s', l, d) ==> LockedByOther(s, l, d);
    assert forall d :: InsertedByOther(s', l, d) ==> InsertedByOther(s, l, d);
  }

  /** The number a transaction is about to write is free once its deleted rows are gone. */
  lemma ChosenNumberIsFree(s: State, lane: Lane)
    requires Inv(s) && At(s, lane, Inserted)
    ensures forall d | d in s.docs - s.txns[lane].deleted && OnLane(s.docs[d], lane) ::
        s.docs[d].number != s.txns[lane].n
    ensures s.txns[lane].n <= s.txns[lane].read.last + 1
  {
    assert TxnSound(s, lane);
    var txn := s.txns[lane];
    if txn.recycled.Some? {
      assert s.docs[txn.recycled.value].regime == Special;
    }
  }

  lemma CommitKeepsNumbers(s: State, lane: Lane, now: Time)
    requires Inv(s) && Enabled(s, Commit(lane, now))
    ensures LaneNumbersUnique(Apply(s, Commit(lane, now)))
  {
    ChosenNumberIsFree(s, lane);
    assert TxnSound(s, lane);
    var s' := Apply(s, Commit(lane, now));
    var d := s.txns[lane].req.doc;
    forall e | e in s'.docs && e != d
      ensures e in s.docs - s.txns[lane].deleted && s'.docs[e] == s.docs[e]
    {
    }
  }

  /** When a lane commits its deletions and perhaps its row, the other lanes' transactions stay sound. */
  lemma CommitKeepsOthers(s: State, s': State, lane: Lane, other: Lane)
    requires Inv(s) && lane in s.txns && other in s.txns && other != lane
    requires s'.txns == s.txns - {lane}
    requires forall d | d in s.docs && d !in s.txns[lane].deleted && d != s.txns[lane].req.doc ::
        d in s'.docs && s'.docs[d] == s.docs[d]
    requires forall d | d in s'.docs && d != s.txns[lane].req.doc :: d in s.docs
    requires s.txns[lane].req.doc in s'.docs
    requires (s.txns[lane].req.doc in s.docs && s'.docs[s.txns[lane].req.doc] == s.docs[s.txns[lane].req.doc])
        || s.txns[lane].stage == Inserted
    requires forall l | l != lane :: S.CounterOf(s'.counters, l) == S.CounterOf(s.counters, l)
    ensures TxnSound(s', other)
  {
    assert TxnSound(s, lane) && TxnSound(s, other);
    var txn := s.txns[other];
    forall d | d in txn.deleted
      ensures d in s'.docs && s'.docs[d] == s.docs[d] && !LockedByOther(s', other, d)
    {
      assert d !in s.txns[lane].deleted;
      assert LockedByOther(s, lane, d);
    }
    if txn.stage == Inserted {
      assert !InsertedByOther(s', other, txn.req.doc);
    }
  }

  lemma CommitKeepsInv(s: State, lane: Lane, now: Time)
    requires Inv(s) && Enabled(s, Commit(lane, now))
    ensures Inv(Apply(s, Commit(lane, now)))
  {
    var s' := Apply(s, Commit(lane, now));
    CommitKeepsNumbers(s, lane, now);
    forall l | l in s'.txns
      ensures TxnSound(s', l)
    {
      CommitKeepsOthers(s, s', lane, l);
    }
  }

  lemma InsertKeepsInv(s: State, lane: Lane)
    requires Inv(s) && Enabled(s, Insert(lane))
    ensures Inv(Apply(s, Insert(lane)))
  {
    var s' := Apply(s, Insert(lane));
    var txn := s.txns[lane];
    assert TxnSound(s, lane);
    if txn.req.doc !in s.docs || txn.req.doc in txn.deleted {
      forall l | l in s'.txns
        ensures TxnSound(s', l)
      {
        assert TxnSound(s, l);
        InsertSeenByOthers(s, s', lane, l);
      }
    } else {
      ConflictKeepsInv(s, lane);
    }
  }

  /** The primary-key conflict path. */
  lemma ConflictKeepsInv(s: State, lane: Lane)
    requires Inv(s) && Enabled(s, Insert(lane))
    requires s.txns[lane].req.doc in s.docs && s.txns[lane].req.doc !in s.txns[lane].deleted
    ensures Inv(Apply(s, Insert(lane)))
  {
    var s' := Apply(s, Insert(lane));
    if s.docs[s.txns[lane].req.doc].status != Cancelled {
      forall l | l in s'.txns
        ensures TxnSound(s', l)
      {
        CommitKeepsOthers(s, s', lane, l);
      }
    } else {
      forall l | l in s'.txns
        ensures TxnSound(s', l)
      {
        assert TxnSound(s, l);
      }
    }
  }

  lemma InsertSeenByOthers(s: State, s': State, lane: Lane, l: Lane)
    requires Inv(s) && Enabled(s, Insert(lane)) && l in s.txns
    requires s' == s.(txns := s.txns[lane := s.txns[lane].(stage := Inserted)])
    ensures forall d :: LockedByOther(s', l, d) ==> LockedByOther(s, l, d)
    ensures s'.txns[l].stage == Inserted ==> !InsertedByOther(s', l, s'.txns[l].req.doc)
  {
    if s'.txns[l].stage == Inserted && l != lane {
      forall m | m in s'.txns && m != l
        ensures !(s'.txns[m].stage == Inserted && s'.txns[m].req.doc == s.txns[l].req.doc)
      {
        assert TxnSound(s, l);
        assert !InsertedByOther(s, lane, s.txns[lane].req.doc);
      }
    }
  }

  /** Statuses moved, cancelled rows and every number untouched, counters keeping their last number. */
  ghost predicate StatusesMoved(s: State, s': State) {
    && s'.txns == s.txns && s'.docs.Keys == s.docs.Keys
    && (forall d | d in s.docs ::
          && s'.docs[d].lane == s.docs[d].lane && s'.docs[d].regime == s.docs[d].regime
          && s'.docs[d].number == s.docs[d].number
          && (s.docs[d].status == Cancelled ==> s'.docs[d] == s.docs[d]))
    && (forall l: Lane :: S.CounterOf(s'.counters, l).last == S.CounterOf(s.counters, l).last)
    && (forall l | l in s.txns :: S.CounterOf(s'.counters, l) == S.CounterOf(s.counters, l))
  }

  lemma MovedStatusesKeepInv(s: State, s': State)
    requires Inv(s) && StatusesMoved(s, s')
    ensures Inv(s')
  {
    forall l | l in s'.txns
      ensures TxnSound(s', l)
    {
      assert TxnSound(s, l);
      assert forall d :: LockedByOther(s', l, d) ==> LockedByOther(s, l, d);
      assert forall d :: InsertedByOther(s', l, d) ==> InsertedByOther(s, l, d);
    }
  }

  /** Confirm, finalize, cancel and reject move a status; a released counter keeps its last number. */
  lemma UpdateMovesStatuses(s: State, step: Step)
    requires Enabled(s, step)
    requires step.ConfirmRow? || step.FinalizeRow? || step.CancelRow? || step.RejectRow?
    ensures StatusesMoved(s, Apply(s, step))
  {
    match step
    case ConfirmRow(d, t, now) => ReleaseKeepsLast(s, Confirm(s.docs, d, t, now), d);
    case FinalizeRow(d, t, now) =>
    case CancelRow(d, t, scope, now) => ReleaseKeepsLast(s, Cancel(s.docs, d, t, scope, now), d);
    case RejectRow(_, _) =>
  }

  lemma ReleaseKeepsLast(s: State, docs: Docs, d: DocId)
    requires CounterFree(s, docs, d)
    ensures forall l: Lane ::
              S.CounterOf(S.ReleaseIfSpecial(docs, s.counters, d), l).last == S.CounterOf(s.counters, l).last
    ensures forall l | l in s.txns ::
        S.CounterOf(S.ReleaseIfSpecial(docs, s.counters, d), l) == S.CounterOf(s.counters, l)
  {
  }

  lemma StepKeepsInv(s: State, step: Step)
    requires Inv(s) && Enabled(s, step)
    ensures Inv(Apply(s, step))
  {
    match step
    case CheckLane(lane) => CheckKeepsInv(s, lane);
    case Insert(lane) => InsertKeepsInv(s, lane);
    case Commit(lane, now) => CommitKeepsInv(s, lane, now);
    case Begin(_, _) => PrivateStatementKeepsInv(s, step);
    case Choose(_, _) => PrivateStatementKeepsInv(s, step);
    case DropOwn(_) => PrivateStatementKeepsInv(s, step);
    case Abort(_) => PrivateStatementKeepsInv(s, step);
    case _ =>
      UpdateMovesStatuses(s, step);
      MovedStatusesKeepInv(s, Apply(s, step));
  }

  ghost predicate Next(s: State, step: Step, s': State) {
    Enabled(s, step) && s' == Apply(s, step)
  }

  lemma LastNeverDecreases(s: State, step: Step, s': State, lane: Lane)
    requires Inv(s) && Next(s, step, s')
    ensures S.CounterOf(s'.counters, lane).last >= S.CounterOf(s.counters, lane).last
  {
    if step.CheckLane? || step.Insert? || step.Commit? {
      assert TxnSound(s, step.lane);
    }
  }

  // --- Runs ---

  ghost predicate Run(states: seq<State>, steps: seq<Step>) {
    && |states| == |steps| + 1
    && forall i | 0 <= i < |steps| :: Next(states[i], steps[i], states[i + 1])
  }

  lemma {:induction false} RunKeepsInv(states: seq<State>, steps: seq<Step>, i: nat)
    requires Run(states, steps) && states[0] == Empty && i < |states|
    ensures Inv(states[i])
  {
    if i > 0 {
      RunKeepsInv(states, steps, i - 1);
      assert Next(states[i - 1], steps[i - 1], states[i]);
      StepKeepsInv(states[i - 1], steps[i - 1]);
    }
  }

  lemma {:induction false} LastIsMonotone(states: seq<State>, steps: seq<Step>, i: nat, j: nat, lane: Lane)
    requires Run(states, steps) && states[0] == Empty && i <= j < |states|
    ensures S.CounterOf(states[i].counters, lane).last <= S.CounterOf(states[j].counters, lane).last
    decreases j
  {
    if i < j {
      LastIsMonotone(states, steps, i, j - 1, lane);
      RunKeepsInv(states, steps, j - 1);
      assert Next(states[j - 1], steps[j - 1], states[j]);
      LastNeverDecreases(states[j - 1], steps[j - 1], states[j], lane);
    }
  }

  /** In every run, with batches or without and however the statements interleave, committed numbers of a
      lane are pairwise distinct and at most the counter's last number, which never decreases. */
  lemma SpecialUniqueness(states: seq<State>, steps: seq<Step>, i: nat, j: nat, lane: Lane)
    requires Run(states, steps) && states[0] == Empty && i <= j < |states|
    ensures LaneNumbersUnique(states[j])
    ensures S.CounterOf(states[i].counters, lane).last <= S.CounterOf(states[j].counters, lane).last
  {
    RunKeepsInv(states, steps, j);
    LastIsMonotone(states, steps, i, j, lane);
  }

  // --- The statements make up the transaction ---

  /** The statement the lane's reservation does next. */
  function OwnStep(s: State, lane: Lane, pick: Option<DocId>, now: Time): Step
    requires lane in s.txns
  {
    match s.txns[lane].stage
    case CounterRead => CheckLane(lane)
    case LaneChecked => Choose(lane, pick)
    case Chosen => DropOwn(lane)
    case OwnDropped => Insert(lane)
    case Inserted => Commit(lane, now)
  }

  /** The reservation does k more statements, as long as none of them has to wait and it is not over. */
  ghost function Rest(s: State, lane: Lane, pick: Option<DocId>, now: Time, k: nat): State
    decreases k
  {
    if k == 0 || lane !in s.txns || !Enabled(s, OwnStep(s, lane, pick, now)) then s
    else Rest(Apply(s, OwnStep(s, lane, pick, now)), lane, pick, now, k - 1)
  }

  /** No other reservation under way has deleted or inserted a row of the document. */
  ghost predicate DocumentFree(s: State, lane: Lane, d: DocId) {
    !LockedByOther(s, lane, d) && !InsertedByOther(s, lane, d)
  }

  /** The lane's reservation is under way; everybody else is as in s. */
  ghost predicate Opened(s: State, t: State, txn: Txn) {
    t == s.(txns := s.txns[txn.req.lane := txn]) && txn.req.lane !in s.txns
  }

  /** What the transaction as a whole leaves. */
  ghost predicate Leaves(s: State, txn: Txn, pick: Option<DocId>, now: Time, t: State) {
    var (docs, counters, _) := S.Reserve(s.docs, s.counters, txn.req, txn.ticket, now, pick);
    t == State(docs, counters, s.txns)
  }

  lemma OthersAlike(s: State, t: State, txn: Txn, lane: Lane, d: DocId)
    requires Opened(s, t, txn) && lane == txn.req.lane
    ensures LockedByOther(t, lane, d) <==> LockedByOther(s, lane, d)
    ensures InsertedByOther(t, lane, d) <==> InsertedByOther(s, lane, d)
  {
    if LockedByOther(s, lane, d) {
      var l :| l in s.txns && l != lane && d in s.txns[l].deleted;
      assert l in t.txns && t.txns[l] == s.txns[l];
    }
    if InsertedByOther(s, lane, d) {
      var l :| l in s.txns && l != lane && s.txns[l].stage == Inserted && s.txns[l].req.doc == d;
      assert l in t.txns && t.txns[l] == s.txns[l];
    }
    assert forall l | l in t.txns && l != lane :: l in s.txns && t.txns[l] == s.txns[l];
  }

  lemma Closes(s: State, t: State, txn: Txn)
    requires Opened(s, t, txn)
    ensures t.txns - {txn.req.lane} == s.txns
  {
  }

  lemma InsertLeaves(s: State, t: State, txn: Txn, pick: Option<DocId>, now: Time)
    requires Opened(s, t, txn) && txn.stage == OwnDropped && DocumentFree(s, txn.req.lane, txn.req.doc)
    requires txn.read == S.CounterOf(s.counters, txn.req.lane) && txn.n == S.NextNumber(s.docs, txn.read, pick)
    requires !S.Retry(s.docs, txn.read, txn.req.doc) && !S.Busy(s.docs, txn.read, txn.req)
    requires var d := txn.req.doc;
             txn.deleted == Picked(pick) + if d in s.docs && s.docs[d].status == Cancelled then {d} else {}
    ensures Leaves(s, txn, pick, now, Rest(t, txn.req.lane, pick, now, 2))
  {
    var lane, d := txn.req.lane, txn.req.doc;
    OthersAlike(s, t, txn, lane, d);
    Closes(s, t, txn);
    assert s.docs - txn.deleted == DropOwnCancelled(RemovePick(s.docs, pick), d);
    var next := Apply(t, Insert(lane));
    assert Rest(t, lane, pick, now, 2) == Rest(next, lane, pick, now, 1);
    if d !in s.docs || d in txn.deleted {
      Closes(s, next, txn.(stage := Inserted));
      assert Rest(next, lane, pick, now, 1) == Rest(Apply(next, Commit(lane, now)), lane, pick, now, 0);
    }
  }

  lemma ChosenLeaves(s: State, t: State, txn: Txn, pick: Option<DocId>, now: Time)
    requires Opened(s, t, txn) && txn.stage == LaneChecked && DocumentFree(s, txn.req.lane, txn.req.doc)
    requires txn.read == S.CounterOf(s.counters, txn.req.lane) && ValidPick(s, txn.req.lane, pick)
    requires !S.Retry(s.docs, txn.read, txn.req.doc) && !S.Busy(s.docs, txn.read, txn.req)
    ensures Leaves(s, txn, pick, now, Rest(t, txn.req.lane, pick, now, 4))
  {
    var lane, d := txn.req.lane, txn.req.doc;
    SamePick(s, t, txn, pick);
    var chosen := Apply(t, Choose(lane, pick));
    OthersAlike(s, chosen, chosen.txns[lane], lane, d);
    var dropped := Apply(chosen, DropOwn(lane));
    assert Rest(t, lane, pick, now, 4) == Rest(chosen, lane, pick, now, 3);
    assert Rest(chosen, lane, pick, now, 3) == Rest(dropped, lane, pick, now, 2);
    InsertLeaves(s, dropped, dropped.txns[lane], pick, now);
  }

  lemma SamePick(s: State, t: State, txn: Txn, pick: Option<DocId>)
    requires Opened(s, t, txn)
    ensures ValidPick(t, txn.req.lane, pick) <==> ValidPick(s, txn.req.lane, pick)
  {
    forall d {
      OthersAlike(s, t, txn, txn.req.lane, d);
    }
  }

  /** The statements of one reservation, one after the other, do what the transaction of `SpecialLane` does, whatever
      reservations of other lanes are under way, as long as they do not hold the document's row. */
  lemma StatementsAreReserve(s: State, req: Request, ticket: Ticket, pick: Option<DocId>, now: Time)
    requires req.lane !in s.txns && DocumentFree(s, req.lane, req.doc) && ValidPick(s, req.lane, pick)
    ensures var (docs, counters, _) := S.Reserve(s.docs, s.counters, req, ticket, now, pick);
            Rest(Apply(s, Begin(req, ticket)), req.lane, pick, now, 5) == State(docs, counters, s.txns)
  {
    var begun := Apply(s, Begin(req, ticket));
    var txn := begun.txns[req.lane];
    Closes(s, begun, txn);
    var checked := Apply(begun, CheckLane(req.lane));
    assert Rest(begun, req.lane, pick, now, 5) == Rest(checked, req.lane, pick, now, 4);
    if !S.Retry(s.docs, txn.read, req.doc) && !S.Busy(s.docs, txn.read, req) {
      ChosenLeaves(s, checked, checked.txns[req.lane], pick, now);
    }
  }
}
