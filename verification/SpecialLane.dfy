/** The SPECIAL regime at transaction grain: one counter row per (type, year, department), whose
    active-reservation pointer is the lane. A batch may share the lane. */
module SpecialLane {
  import opened Wrappers
  import opened OfficialRows

  /** The lane's counter; the first reservation inserts it as (0, NULL, NULL). */
  function CounterOf(counters: Counters, lane: Lane): Counter {
    if lane in counters then counters[lane] else Counter(0, None, None)
  }

  predicate Recyclable(row: Row, lane: Lane) {
    row.status == Cancelled && OnLane(row, lane)
  }

  /** FOR UPDATE SKIP LOCKED: an oldest cancelled row of the lane among those other transactions do not hold. */
  ghost predicate Answers(docs: Docs, held: set<DocId>, lane: Lane, pick: Option<DocId>) {
    match pick
    case Some(r) =>
      && r in docs && Recyclable(docs[r], lane) && r !in held
      && forall e | e in docs && Recyclable(docs[e], lane) && e !in held :: Older(docs[r], docs[e])
    case None =>
      forall e | e in docs && Recyclable(docs[e], lane) :: e in held
  }

  /** What the query answers under some set of held rows: any cancelled row of the lane, or none. */
  predicate Pickable(docs: Docs, lane: Lane, pick: Option<DocId>) {
    pick.Some? ==> pick.value in docs && Recyclable(docs[pick.value], lane)
  }

  /** `_misma_tanda_y_mismo_usuario` */
  predicate SameBatchAndUser(counterBatch: Option<BatchId>, batch: Option<BatchId>, holder: Option<UserId>,
      user: Option<UserId>) {
    batch.Some? && counterBatch == batch && holder.Some? && holder == user
  }

  /** The lane's pointer names a document whose row is still RESERVED. */
  predicate Occupied(docs: Docs, c: Counter) {
    c.active.Some? && c.active.value in docs && docs[c.active.value].status == Reserved
  }

  predicate Retry(docs: Docs, c: Counter, d: DocId) {
    Occupied(docs, c) && c.active == Some(d)
  }

  predicate Busy(docs: Docs, c: Counter, req: Request) {
    && Occupied(docs, c)
    && c.active.value != req.doc
    && !SameBatchAndUser(c.activeBatch, req.batch, docs[c.active.value].holder, req.user)
  }

  function NextNumber(docs: Docs, c: Counter, pick: Option<DocId>): nat {
    if pick.Some? && pick.value in docs then docs[pick.value].number else c.last + 1
  }

  function ReservedRow(req: Request, n: nat, ticket: Ticket, now: Time): Row {
    Row(req.lane, req.parts, Special, n, Reserved, Ticketed(ticket, now), req.user, req.batch, now)
  }

  function Advance(c: Counter, n: nat, req: Request): Counter {
    Counter(if n > c.last then n else c.last, Some(req.doc), req.batch)
  }

  predicate ReserveEnabled(docs: Docs, counters: Counters, req: Request, pick: Option<DocId>) {
    var c := CounterOf(counters, req.lane);
    Retry(docs, c, req.doc) || Busy(docs, c, req) || Pickable(docs, req.lane, pick)
  }

  /** `reserve_number` for a SPECIAL type. */
  function Reserve(docs: Docs, counters: Counters, req: Request, ticket: Ticket, now: Time, pick: Option<DocId>)
    : (Docs, Counters, Outcome)
  {
    var c := CounterOf(counters, req.lane);
    if Retry(docs, c, req.doc) then
      (docs, counters[req.lane := c], Issued(docs[req.doc]))
    else if Busy(docs, c, req) then
      (docs, counters, LaneBusy)
    else
      var n := NextNumber(docs, c, pick);
      var row := ReservedRow(req, n, ticket, now);
      var cleared := DropOwnCancelled(RemovePick(docs, pick), req.doc);
      if req.doc in cleared then
        (cleared, counters[req.lane := c], Issued(cleared[req.doc]))
      else
        (cleared[req.doc := row], counters[req.lane := Advance(c, n, req)], Issued(row))
  }

  /** Another row of the same batch is still RESERVED. */
  ghost predicate HasLiveSibling(docs: Docs, d: DocId, batch: BatchId) {
    exists e | e in docs :: e != d && docs[e].batch == Some(batch) && docs[e].status == Reserved
  }

  /** `_liberar_carril_special` for the row of d. */
  ghost function Release(docs: Docs, counters: Counters, d: DocId): Counters
    requires d in docs
  {
    var row := docs[d];
    if row.batch.Some? && HasLiveSibling(docs, d, row.batch.value) then counters
    else if row.lane in counters && (counters[row.lane].active == Some(d)
      || (row.batch.Some? && counters[row.lane].activeBatch == row.batch)) then
      counters[row.lane := counters[row.lane].(active := None, activeBatch := None)]
    else counters
  }

  /** `confirm_number` and `cancel_number` release the lane of a SPECIAL row they have just moved. */
  ghost function ReleaseIfSpecial(docs: Docs, counters: Counters, d: DocId): Counters {
    if d in docs && docs[d].regime == Special then Release(docs, counters, d) else counters
  }

  /** The rejection path clears the pointer only. */
  function ReleasePointer(docs: Docs, counters: Counters, d: DocId): Counters
    requires d in docs
  {
    var lane := docs[d].lane;
    if lane in counters && counters[lane].active == Some(d) then counters[lane := counters[lane].(active := None)]
      else counters
  }

  // --- The lane without batches ---

  ghost predicate NoBatches(docs: Docs, counters: Counters) {
    && (forall d | d in docs :: docs[d].batch == None)
    && (forall lane | lane in counters :: counters[lane].activeBatch == None)
  }

  /** The pointer of every lane names exactly the lane's RESERVED row, or is null when there is none. */
  ghost predicate PointerExact(docs: Docs, counters: Counters) {
    && (forall d | d in docs && docs[d].regime == Special && docs[d].status == Reserved ::
          CounterOf(counters, docs[d].lane).active == Some(d))
    && (forall lane | lane in counters && counters[lane].active.Some? ::
          counters[lane].active.value in docs && OnLane(docs[counters[lane].active.value], lane)
          && docs[counters[lane].active.value].status == Reserved)
  }

  /** So at most one row of a lane is RESERVED. */
  lemma OneReservedPerLane(docs: Docs, counters: Counters, lane: Lane, d: DocId, e: DocId)
    requires PointerExact(docs, counters)
    requires d in docs && OnLane(docs[d], lane) && docs[d].status == Reserved
    requires e in docs && OnLane(docs[e], lane) && docs[e].status == Reserved
    ensures d == e
  {
    assert CounterOf(counters, lane).active == Some(d);
    assert CounterOf(counters, lane).active == Some(e);
  }

  lemma ReserveKeepsPointer(docs: Docs, counters: Counters, req: Request, ticket: Ticket, now: Time,
      pick: Option<DocId>)
    requires PointerExact(docs, counters) && NoBatches(docs, counters)
    requires ReserveEnabled(docs, counters, req, pick) && req.batch == None
    ensures var (docs', counters', _) := Reserve(docs, counters, req, ticket, now, pick);
            PointerExact(docs', counters') && NoBatches(docs', counters')
  {
    var c := CounterOf(counters, req.lane);
    if !Retry(docs, c, req.doc) && !Busy(docs, c, req) {
      assert !Occupied(docs, c);
      assert c.active.None?;
    }
  }

  /** SpecialLaneBusyError is raised exactly when another document holds a RESERVED row of the lane. */
  lemma BusyExactly(docs: Docs, counters: Counters, req: Request, ticket: Ticket, now: Time, pick: Option<DocId>)
    requires PointerExact(docs, counters) && NoBatches(docs, counters)
    requires ReserveEnabled(docs, counters, req, pick) && req.batch == None
    ensures Reserve(docs, counters, req, ticket, now, pick).2 == LaneBusy
       <==> exists e | e in docs :: e != req.doc && OnLane(docs[e], req.lane) && docs[e].status == Reserved
  {
    var c := CounterOf(counters, req.lane);
    if e :| e in docs && e != req.doc && OnLane(docs[e], req.lane) && docs[e].status == Reserved {
      assert c.active == Some(e);
    }
  }

  /** A row leaving RESERVED, in whatever way, frees its lane. */
  lemma ReleaseKeepsPointer(docs: Docs, counters: Counters, d: DocId, status: Status, now: Time)
    requires PointerExact(docs, counters) && NoBatches(docs, counters)
    requires d in docs && docs[d].status != Confirmed && status != Reserved
    ensures var docs' := WithStatus(docs, d, status, now);
            && PointerExact(docs', ReleaseIfSpecial(docs', counters, d))
            && NoBatches(docs', ReleaseIfSpecial(docs', counters, d))
            && (docs[d].regime == Special ==>
                PointerExact(docs', ReleasePointer(docs', counters, d))
                  && NoBatches(docs', ReleasePointer(docs', counters, d)))
  {
    var docs' := WithStatus(docs, d, status, now);
    var lane := docs[d].lane;
    if docs[d].regime == Special {
      assert docs'[d].batch == None;
      var counters' := ReleaseIfSpecial(docs', counters, d);
      assert counters' == ReleasePointer(docs', counters, d) by {
        if lane in counters && counters[lane].active == Some(d) {
          assert counters[lane].activeBatch == None;
        }
      }
      forall e | e in docs' && docs'[e].regime == Special && docs'[e].status == Reserved
        ensures CounterOf(counters', docs'[e].lane).active == Some(e)
      {
        assert docs[e].status == Reserved;
      }
      forall l | l in counters' && counters'[l].active.Some?
        ensures counters'[l].active.value in docs' && OnLane(docs'[counters'[l].active.value], l)
          && docs'[counters'[l].active.value].status == Reserved
      {
        assert counters[l].active == counters'[l].active;
        assert counters[l].active.value == d ==> l == lane;
      }
    } else {
      forall l | l in counters && counters[l].active.Some?
        ensures counters[l].active.value in docs' && OnLane(docs'[counters[l].active.value], l)
          && docs'[counters[l].active.value].status == Reserved
      {
        assert OnLane(docs[counters[l].active.value], l);
      }
    }
  }

  // --- The lane with batches ---

  /** The active row of a lane has just left RESERVED. A confirm or cancel leaves the lane pointed at it exactly when a
      sibling of its batch, on whatever lane, is still RESERVED; a rejection never does, whatever siblings there are.
      Either way nobody, of whatever user or batch, is refused as busy from then on. */
  lemma StalePointerExactly(docs: Docs, counters: Counters, d: DocId, req: Request)
    requires d in docs && docs[d].regime == Special && docs[d].status != Reserved
    requires docs[d].lane in counters && counters[docs[d].lane].active == Some(d)
    requires req.lane == docs[d].lane
    ensures var released := ReleaseIfSpecial(docs, counters, d);
            && (released[req.lane].active == Some(d) <==>
               docs[d].batch.Some? && HasLiveSibling(docs, d, docs[d].batch.value))
            && !Busy(docs, CounterOf(released, req.lane), req)
    ensures ReleasePointer(docs, counters, d)[req.lane].active == None
    ensures !Busy(docs, CounterOf(ReleasePointer(docs, counters, d), req.lane), req)
  {
  }
}
