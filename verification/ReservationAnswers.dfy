/** What the caller of a reservation is told: always the row that the table holds for the document. */
module ReservationAnswers {
  import opened Wrappers
  import opened OfficialRows
  import G = GlobalNumbering
  import S = SpecialLane

  /** The answer is the document's row in the table, and not a cancelled one. */
  predicate AnswersTheRow(docs: Docs, d: DocId, outcome: Outcome) {
    outcome.Issued? && d in docs && docs[d] == outcome.row && outcome.row.status != Cancelled
  }

  predicate OthersStay(docs: Docs, docs': Docs, d: DocId, pick: Option<DocId>) {
    && (forall e | e in docs && e != d && pick != Some(e) :: e in docs' && docs'[e] == docs[e])
    && (forall e | e in docs' && e != d :: e in docs)
  }

  /** A new RESERVED row for exactly this request, on this ticket and at this time. */
  predicate FreshFor(row: Row, req: Request, regime: Regime, ticket: Ticket, now: Time) {
    && row.lane == req.lane && row.parts == req.parts && row.regime == regime && row.status == Reserved
    && row.origin == Ticketed(ticket, now) && row.holder == req.user && row.updatedAt == now
  }

  // --- GLOBAL ---

  /** A live row of the year that belongs to another document. */
  predicate LiveElsewhere(docs: Docs, e: DocId, d: DocId, year: nat) {
    e != d && e in docs && InYear(docs[e], year) && docs[e].status != Cancelled
  }

  /** The number of the recycled row, or the first one above all live ones. */
  ghost predicate TakesNext(docs: Docs, d: DocId, year: nat, pick: Option<DocId>, n: nat) {
    match pick
    case Some(r) => r in docs && n == docs[r].number
    case None =>
      && (forall e | LiveElsewhere(docs, e, d, year) :: docs[e].number < n)
      && (n == 1 || exists e | LiveElsewhere(docs, e, d, year) :: docs[e].number + 1 == n)
  }

  predicate ReservedRecently(docs: Docs, d: DocId, now: Time) {
    d in docs && docs[d].status == Reserved && now - docs[d].origin.reservedAt < 4 * 60
  }

  predicate Committed(docs: Docs, d: DocId) {
    d in docs && (docs[d].status == Confirming || docs[d].status == Confirmed)
  }

  lemma NextIsTaken(docs: Docs, d: DocId, year: nat, pick: Option<DocId>)
    requires G.Pickable(docs, year, pick) && (d in docs ==> docs[d].status == Cancelled)
    ensures TakesNext(docs, d, year, pick, G.NextNumber(docs, year, pick))
  {
    if pick.None? {
      var live := G.LiveNumbers(docs, year);
      forall e | LiveElsewhere(docs, e, d, year)
        ensures docs[e].number in live
      {
      }
      if live != {} {
        var e :| e in docs && InYear(docs[e], year) && docs[e].status != Cancelled && docs[e].number == G.Max(live);
        assert LiveElsewhere(docs, e, d, year);
      }
    }
  }

  /** Cancelling the document's own RESERVED row changes no other live row. */
  lemma ExpiredTakesNext(docs: Docs, d: DocId, now: Time, year: nat, pick: Option<DocId>, n: nat)
    requires d in docs ==> docs[d].status == Reserved || docs[d].status == Cancelled
    ensures TakesNext(G.Expire(docs, d, now), d, year, pick, n) <==> TakesNext(docs, d, year, pick, n)
  {
    var expired := G.Expire(docs, d, now);
    assert forall e :: LiveElsewhere(expired, e, d, year) <==> LiveElsewhere(docs, e, d, year);
    assert forall e | e in docs :: expired[e].number == docs[e].number;
  }

  /** A reservation answers the row the table holds afterwards. Within four minutes that is the old row and nothing
      changes; a committed row is answered as it is; otherwise the row is new, on the given ticket. */
  lemma ReserveAnswers(docs: Docs, req: Request, ticket: Ticket, now: Time, pick: Option<DocId>)
    requires G.ReserveAnswered(docs, req, now, pick)
    ensures var (docs', outcome) := G.Reserve(docs, req, ticket, now, pick);
            && AnswersTheRow(docs', req.doc, outcome)
            && if ReservedRecently(docs, req.doc, now) then docs' == docs
               else if Committed(docs, req.doc) then outcome.row == docs[req.doc]
               else FreshFor(outcome.row, req, Global, ticket, now)
                    && TakesNext(docs, req.doc, req.lane.year, pick, outcome.row.number)
  {
    if !ReservedRecently(docs, req.doc, now) && !Committed(docs, req.doc) {
      NextIsTaken(G.Expire(docs, req.doc, now), req.doc, req.lane.year, pick);
      ExpiredTakesNext(docs, req.doc, now, req.lane.year, pick,
        G.NextNumber(G.Expire(docs, req.doc, now), req.lane.year, pick));
    }
  }

  /** Nobody else's row changes, but for the recycled one. */
  lemma ReserveLeavesOthers(docs: Docs, req: Request, ticket: Ticket, now: Time, pick: Option<DocId>)
    requires G.ReserveAnswered(docs, req, now, pick)
    ensures OthersStay(docs, G.Reserve(docs, req, ticket, now, pick).0, req.doc, pick)
    ensures G.ReserveCitizen(docs, req, ticket, now, pick).1.Issued? ==>
              OthersStay(docs, G.ReserveCitizen(docs, req, ticket, now, pick).0, req.doc, pick)
  {
  }

  /** A citizen's reservation answers likewise, or is refused and changes nothing. */
  lemma CitizenAnswers(docs: Docs, req: Request, ticket: Ticket, now: Time, pick: Option<DocId>)
    requires G.ReserveAnswered(docs, req, now, pick)
    ensures var (docs', outcome) := G.ReserveCitizen(docs, req, ticket, now, pick);
            if outcome == Refused then docs' == docs
            else
              && AnswersTheRow(docs', req.doc, outcome)
              && if ReservedRecently(docs, req.doc, now) then docs' == docs
                 else FreshFor(outcome.row, req, Global, ticket, now)
                      && TakesNext(docs, req.doc, req.lane.year, pick, outcome.row.number)
  {
    var expired := G.Expire(docs, req.doc, now);
    if !ReservedRecently(docs, req.doc, now) && req.doc !in RemovePick(expired, pick) {
      NextIsTaken(expired, req.doc, req.lane.year, pick);
      ExpiredTakesNext(docs, req.doc, now, req.lane.year, pick, G.NextNumber(expired, req.lane.year, pick));
    }
  }

  /** A number born CONFIRMED: the answer is the table's row, new and CONFIRMED unless the document already had one. */
  lemma GenerateAnswers(docs: Docs, req: Request, now: Time, pick: Option<DocId>)
    requires G.Pickable(docs, req.lane.year, pick)
    ensures var (docs', outcome) := G.Generate(docs, req, now, pick);
            && outcome.Issued? && req.doc in docs' && docs'[req.doc] == outcome.row
            && OthersStay(docs, docs', req.doc, pick)
            && if req.doc in docs && pick != Some(req.doc) then outcome.row == docs[req.doc]
               else outcome.row.status == Confirmed && outcome.row.origin == Direct && outcome.row.lane == req.lane
                    && outcome.row.parts == req.parts && outcome.row.regime == Global && outcome.row.holder == req.user
                    && TakesNext(docs, req.doc, req.lane.year, pick, outcome.row.number)
  {
    if req.doc !in RemovePick(docs, pick) {
      NextIsTaken(docs, req.doc, req.lane.year, pick);
    }
  }

  // --- SPECIAL ---

  /** A SPECIAL reservation is refused without a trace, or answers the row the table holds. A new row carries the
      recycled number or the one after the counter, the counter goes on from the larger, and the lane points to it. */
  lemma SpecialAnswers(docs: Docs, counters: Counters, req: Request, ticket: Ticket, now: Time, pick: Option<DocId>)
    requires S.ReserveEnabled(docs, counters, req, pick)
    ensures var (docs', counters', outcome) := S.Reserve(docs, counters, req, ticket, now, pick);
            var c := S.CounterOf(counters, req.lane);
            if outcome == LaneBusy then docs' == docs && counters' == counters
            else
              && AnswersTheRow(docs', req.doc, outcome)
              && (docs' == docs || OthersStay(docs, docs', req.doc, pick))
              && (forall l | l in counters && l != req.lane :: l in counters' && counters'[l] == counters[l])
              && req.lane in counters'
              && if req.doc in docs && docs[req.doc].status != Cancelled
                 then outcome.row == docs[req.doc] && counters'[req.lane] == c
                 else
                   && FreshFor(outcome.row, req, Special, ticket, now) && outcome.row.batch == req.batch
                   && outcome.row.number == (if pick.Some? then docs[pick.value].number else c.last + 1)
                   && counters'[req.lane].last == (if outcome.row.number > c.last then outcome.row.number else c.last)
                   && counters'[req.lane].active == Some(req.doc) && counters'[req.lane].activeBatch == req.batch
  {
  }

  /** SpecialLaneBusyError, batches included: the lane's column names another document whose row is RESERVED, unless the
      request is of the lane's batch and of that row's user, both known. */
  lemma SpecialBusyExactly(docs: Docs, counters: Counters, req: Request, ticket: Ticket, now: Time,
      pick: Option<DocId>)
    requires S.ReserveEnabled(docs, counters, req, pick)
    ensures S.Reserve(docs, counters, req, ticket, now, pick).2 == LaneBusy <==>
              && req.lane in counters && counters[req.lane].active.Some?
              && var e := counters[req.lane].active.value;
                 && e != req.doc && e in docs && docs[e].status == Reserved
                 && !(req.batch.Some? && req.batch == counters[req.lane].activeBatch
                      && req.user.Some? && req.user == docs[e].holder)
  {
  }

  /** A second call of the lane's active document changes neither table. */
  lemma SpecialRetryChangesNothing(docs: Docs, counters: Counters, req: Request, ticket: Ticket, now: Time,
      pick: Option<DocId>)
    requires req.lane in counters && counters[req.lane].active == Some(req.doc)
    requires req.doc in docs && docs[req.doc].status == Reserved
    ensures S.Reserve(docs, counters, req, ticket, now, pick) == (docs, counters, Issued(docs[req.doc]))
  {
    assert counters[req.lane := counters[req.lane]] == counters;
  }

  /** Another row of the batch, on whatever lane, still waits. */
  predicate SiblingWaits(docs: Docs, d: DocId)
    requires d in docs
  {
    && docs[d].batch.Some?
    && exists e | e in docs && e != d :: docs[e].batch == docs[d].batch && docs[e].status == Reserved
  }

  predicate OtherLanesStay(counters: Counters, counters': Counters, lane: Lane) {
    counters'.Keys == counters.Keys && forall l | l in counters && l != lane :: counters'[l] == counters[l]
  }

  /** The lane release after a confirm or cancel: both columns are cleared when they name the document or its batch and
      no sibling waits. The counter itself never moves, and neither does another lane. */
  lemma ReleaseFreesTheLane(docs: Docs, counters: Counters, d: DocId)
    requires d in docs && docs[d].regime == Special
    ensures var counters', row := S.ReleaseIfSpecial(docs, counters, d), docs[d];
            && OtherLanesStay(counters, counters', row.lane)
            && (row.lane in counters ==>
                  var c, c' := counters[row.lane], counters'[row.lane];
                  if !SiblingWaits(docs, d) && (c.active == Some(d) || (row.batch.Some? && c.activeBatch == row.batch))
                  then c'.last == c.last && c'.active == None && c'.activeBatch == None
                  else c' == c)
  {
    if docs[d].batch.Some? {
      assert S.HasLiveSibling(docs, d, docs[d].batch.value) <==> SiblingWaits(docs, d);
    }
  }

  /** The release after a rejection: the pointer alone, and only when it names the document. */
  lemma RejectionFreesThePointer(docs: Docs, counters: Counters, d: DocId)
    requires d in docs
    ensures var counters', lane := S.ReleasePointer(docs, counters, d), docs[d].lane;
            && OtherLanesStay(counters, counters', lane)
            && (lane in counters ==>
                  var c, c' := counters[lane], counters'[lane];
                  && c'.last == c.last && c'.activeBatch == c.activeBatch
                  && c'.active == if c.active == Some(d) then None else c.active)
  {
  }
}
