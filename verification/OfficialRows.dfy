/** The rows of `official_documents` and `document_number_counters`, and the three
    compare-and-set updates (confirm, finalize, cancel) that move a row forward. */
module OfficialRows {
  import opened Wrappers

  type DocId = nat
  type Ticket = nat
  type UserId = nat
  type BatchId = nat
  type TypeId = nat
  type DeptId = nat
  /** Seconds on the database clock. */
  type Time = int

  datatype Status = Reserved | Confirming | Confirmed | Cancelled

  datatype Regime = Global | Special

  /** The key of a counter row. A row of the table carries the same three columns. */
  datatype Lane = Lane(typeId: TypeId, year: nat, dept: DeptId)

  /** The textual parts of the official number. */
  datatype NumberParts = NumberParts(acronym: string, city: string, department: string)

  /** `reservation_id` and `reserved_at`: both NULL for a number generated already confirmed. */
  datatype Origin = Ticketed(ticket: Ticket, reservedAt: Time) | Direct

  /** `number` is `global_sequence` or `special_number`, as `regime` says; the other column is NULL.
      `holder` is `numerator_id`, NULL when a citizen numbers. */
  datatype RowData = Row(
    lane: Lane,
    parts: NumberParts,
    regime: Regime,
    number: nat,
    status: Status,
    origin: Origin,
    holder: Option<UserId>,
    batch: Option<BatchId>,
    updatedAt: Time)

  type Row = r: RowData | r.origin.Direct? ==> r.status == Confirmed
    witness Row(Lane(0, 0, 0), NumberParts("", "", ""), Global, 0, Confirmed, Direct, None, None, 0)

  type Docs = map<DocId, Row>

  datatype Counter = Counter(last: nat, active: Option<DocId>, activeBatch: Option<BatchId>)

  type Counters = map<Lane, Counter>

  /** What a caller asks a number for; the database lookups of type, city and department are resolved. */
  datatype Request = Request(doc: DocId, lane: Lane, parts: NumberParts, user: Option<UserId>, batch: Option<BatchId>)

  /** The outcome of a reservation: the row whose number is handed out, or the error raised. */
  datatype Outcome = Issued(row: Row) | LaneBusy | Refused

  /** The two `from_states` any caller of `cancel_number` passes. */
  datatype CancelScope = OnlyReserved | ReservedOrConfirming

  predicate InYear(row: Row, year: nat) {
    row.regime == Global && row.lane.year == year
  }

  predicate OnLane(row: Row, lane: Lane) {
    row.regime == Special && row.lane == lane
  }

  predicate HoldsTicket(docs: Docs, d: DocId, t: Ticket) {
    d in docs && docs[d].origin.Ticketed? && docs[d].origin.ticket == t
  }

  predicate InScope(status: Status, scope: CancelScope) {
    status == Reserved || (scope == ReservedOrConfirming && status == Confirming)
  }

  /** `UPDATE official_documents SET reservation_status = ...`; the table keeps `updated_at`. */
  function WithStatus(docs: Docs, d: DocId, status: Status, now: Time): (docs': Docs)
    requires d in docs
    requires docs[d].origin.Direct? ==> status == Confirmed
  {
    docs[d := docs[d].(status := status, updatedAt := now)]
  }

  predicate CanConfirm(docs: Docs, d: DocId, t: Ticket) {
    HoldsTicket(docs, d, t) && docs[d].status == Reserved
  }

  predicate CanFinalize(docs: Docs, d: DocId, t: Ticket) {
    HoldsTicket(docs, d, t) && docs[d].status == Confirming
  }

  /** With a ticket the ticket must match; without one, any reservation of the document matches. */
  predicate CanCancel(docs: Docs, d: DocId, t: Option<Ticket>, scope: CancelScope) {
    d in docs && InScope(docs[d].status, scope) && (t.None? || HoldsTicket(docs, d, t.value))
  }

  function Confirm(docs: Docs, d: DocId, t: Ticket, now: Time): Docs {
    if CanConfirm(docs, d, t) then WithStatus(docs, d, Confirming, now) else docs
  }

  function Finalize(docs: Docs, d: DocId, t: Ticket, now: Time): Docs {
    if CanFinalize(docs, d, t) then WithStatus(docs, d, Confirmed, now) else docs
  }

  function Cancel(docs: Docs, d: DocId, t: Option<Ticket>, scope: CancelScope, now: Time): Docs {
    if CanCancel(docs, d, t, scope) then WithStatus(docs, d, Cancelled, now) else docs
  }

  /** `DELETE ... WHERE id = d AND reservation_status = 'CANCELLED'`. */
  function DropOwnCancelled(docs: Docs, d: DocId): (docs': Docs)
    ensures d in docs' <==> d in docs && docs[d].status != Cancelled
    ensures forall e | e != d :: (e in docs' <==> e in docs) && (e in docs ==> docs'[e] == docs[e])
    ensures d in docs' ==> docs'[d] == docs[d]
  {
    if d in docs && docs[d].status == Cancelled then docs - {d} else docs
  }

  function Picked(pick: Option<DocId>): set<DocId> {
    if pick.Some? then {pick.value} else {}
  }

  /** The table once the recycled row, if there is one, is deleted. */
  function RemovePick(docs: Docs, pick: Option<DocId>): Docs {
    docs - Picked(pick)
  }

  /** `reserved_at` decides which cancelled row is recycled first. */
  predicate Older(a: Row, b: Row)
    requires a.status == Cancelled && b.status == Cancelled
  {
    a.origin.reservedAt <= b.origin.reservedAt
  }
}
