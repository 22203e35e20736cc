/** The numbering functions as transactions over the tables of one tenant. */
module NumberingService {
  import opened Wrappers
  import opened OfficialRows
  import G = GlobalNumbering
  import S = SpecialLane

  class Numbering {
    var docs: Docs
    var counters: Counters

    constructor ()
      ensures docs == map[] && counters == map[]
    {
      docs, counters := map[], map[];
    }

    /** The oldest cancelled GLOBAL row of the year that no other transaction holds, if there is one. */
    method OldestCancelled(year: nat, held: set<DocId>) returns (pick: Option<DocId>)
      ensures G.Answers(docs, held, year, pick)
      ensures forall r, e | pick == Some(r) && e in docs && G.Recyclable(docs[e], year) && e !in held ::
                docs[r].origin.reservedAt <= docs[e].origin.reservedAt
    {
      pick := None;
      var rest := docs.Keys;
      while rest != {}
        invariant rest <= docs.Keys
        invariant pick.Some? ==> pick.value in docs && G.Recyclable(docs[pick.value], year) && pick.value !in held
        invariant forall e | e in docs && e !in rest && G.Recyclable(docs[e], year) && e !in held ::
                    pick.Some? && Older(docs[pick.value], docs[e])
        decreases rest
      {
        var e :| e in rest;
        rest := rest - {e};
        if G.Recyclable(docs[e], year) && e !in held
          && (pick.None? || docs[e].origin.reservedAt < docs[pick.value].origin.reservedAt) {
          pick := Some(e);
        }
      }
    }

    /** COALESCE(MAX(global_sequence), 0) over the year's live rows. */
    method MaxLive(year: nat) returns (m: nat)
      ensures m == G.Max(G.LiveNumbers(docs, year))
    {
      m := 0;
      var rest := docs.Keys;
      while rest != {}
        invariant rest <= docs.Keys
        invariant m == 0 || m in G.LiveNumbers(docs, year)
        invariant forall e | e in docs && e !in rest && InYear(docs[e], year) && docs[e].status != Cancelled ::
            docs[e].number <= m
        decreases rest
      {
        var e :| e in rest;
        rest := rest - {e};
        if InYear(docs[e], year) && docs[e].status != Cancelled && docs[e].number > m {
          m := docs[e].number;
        }
      }
    }

    method NextGlobalSequence(year: nat, held: set<DocId>) returns (n: nat, pick: Option<DocId>)
      modifies `docs
      ensures G.Answers(old(docs), held, year, pick) && n == G.NextNumber(old(docs), year, pick)
      ensures docs == RemovePick(old(docs), pick)
    {
      pick := OldestCancelled(year, held);
      if pick.Some? {
        n := docs[pick.value].number;
        docs := docs - {pick.value};
      } else {
        var m := MaxLive(year);
        n := m + 1;
      }
    }

    method ReserveGlobal(req: Request, ticket: Ticket, now: Time, held: set<DocId>) returns (outcome: Outcome,
        pick: Option<DocId>)
      modifies `docs
      ensures G.RetryHit(old(docs), req.doc, now)
          || G.Answers(G.Expire(old(docs), req.doc, now), held, req.lane.year, pick)
      ensures (docs, outcome) == G.Reserve(old(docs), req, ticket, now, pick)
      ensures outcome.Issued? && req.doc in docs && docs[req.doc] == outcome.row && outcome.row.status != Cancelled
    {
      pick := None;
      if req.doc in docs && docs[req.doc].status == Reserved {
        if now - docs[req.doc].origin.reservedAt < G.GLOBAL_TIMEOUT {
          outcome := Issued(docs[req.doc]);
          return;
        }
        docs := WithStatus(docs, req.doc, Cancelled, now);
      }
      var n;
      n, pick := NextGlobalSequence(req.lane.year, held);
      docs := DropOwnCancelled(docs, req.doc);
      if req.doc in docs {
        outcome := Issued(docs[req.doc]);
      } else {
        var row := G.ReservedRow(req, n, ticket, now);
        docs := docs[req.doc := row];
        outcome := Issued(row);
      }
    }

    /** The insert is not guarded: a primary-key conflict rolls the transaction back. */
    method ReserveCitizenNumber(req: Request, ticket: Ticket, now: Time, held: set<DocId>) returns (outcome: Outcome,
        pick: Option<DocId>)
      modifies `docs
      ensures G.RetryHit(old(docs), req.doc, now)
          || G.Answers(G.Expire(old(docs), req.doc, now), held, req.lane.year, pick)
      ensures (docs, outcome) == G.ReserveCitizen(old(docs), req, ticket, now, pick)
      ensures if outcome.Issued? then req.doc in docs && docs[req.doc] == outcome.row && outcome.row.status != Cancelled
              else docs == old(docs)
    {
      pick := None;
      var begun := docs;
      if req.doc in docs && docs[req.doc].status == Reserved {
        if now - docs[req.doc].origin.reservedAt < G.GLOBAL_TIMEOUT {
          outcome := Issued(docs[req.doc]);
          return;
        }
        docs := WithStatus(docs, req.doc, Cancelled, now);
      }
      var n;
      n, pick := NextGlobalSequence(req.lane.year, held);
      if req.doc in docs {
        docs, outcome := begun, Refused;
      } else {
        var row := G.ReservedRow(req, n, ticket, now);
        docs := docs[req.doc := row];
        outcome := Issued(row);
      }
    }

    method GenerateConfirmedNumber(req: Request, now: Time, held: set<DocId>) returns (outcome: Outcome,
        pick: Option<DocId>)
      modifies `docs
      ensures G.Answers(old(docs), held, req.lane.year, pick)
      ensures (docs, outcome) == G.Generate(old(docs), req, now, pick)
      ensures outcome.Issued? && req.doc in docs && docs[req.doc] == outcome.row
    {
      var n;
      n, pick := NextGlobalSequence(req.lane.year, held);
      if req.doc in docs {
        outcome := Issued(docs[req.doc]);
      } else {
        var row := G.DirectRow(req, n, now);
        docs := docs[req.doc := row];
        outcome := Issued(row);
      }
    }

    method OldestCancelledOnLane(lane: Lane, held: set<DocId>) returns (pick: Option<DocId>)
      ensures S.Answers(docs, held, lane, pick)
      ensures forall r, e | pick == Some(r) && e in docs && S.Recyclable(docs[e], lane) && e !in held ::
                docs[r].origin.reservedAt <= docs[e].origin.reservedAt
    {
      pick := None;
      var rest := docs.Keys;
      while rest != {}
        invariant rest <= docs.Keys
        invariant pick.Some? ==> pick.value in docs && S.Recyclable(docs[pick.value], lane) && pick.value !in held
        invariant forall e | e in docs && e !in rest && S.Recyclable(docs[e], lane) && e !in held ::
                    pick.Some? && Older(docs[pick.value], docs[e])
        decreases rest
      {
        var e :| e in rest;
        rest := rest - {e};
        if S.Recyclable(docs[e], lane) && e !in held
          && (pick.None? || docs[e].origin.reservedAt < docs[pick.value].origin.reservedAt) {
          pick := Some(e);
        }
      }
    }

    /** Raising SpecialLaneBusyError rolls back the counter upsert too. */
    method ReserveSpecial(req: Request, ticket: Ticket, now: Time, held: set<DocId>) returns (outcome: Outcome,
        pick: Option<DocId>)
      modifies `docs, `counters
      ensures outcome == LaneBusy || S.Retry(old(docs), S.CounterOf(old(counters), req.lane), req.doc)
              || S.Answers(old(docs), held, req.lane, pick)
      ensures (docs, counters, outcome) == S.Reserve(old(docs), old(counters), req, ticket, now, pick)
      ensures if outcome.Issued? then req.doc in docs && docs[req.doc] == outcome.row && outcome.row.status != Cancelled
              else docs == old(docs) && counters == old(counters)
    {
      pick := None;
      var begun := counters;
      var c := S.CounterOf(counters, req.lane);
      counters := counters[req.lane := c];
      if c.active.Some? && c.active.value in docs && docs[c.active.value].status == Reserved {
        if c.active.value == req.doc {
          outcome := Issued(docs[req.doc]);
          return;
        }
        if !S.SameBatchAndUser(c.activeBatch, req.batch, docs[c.active.value].holder, req.user) {
          counters, outcome := begun, LaneBusy;
          return;
        }
      }
      pick := OldestCancelledOnLane(req.lane, held);
      var n := c.last + 1;
      if pick.Some? {
        n := docs[pick.value].number;
        docs := docs - {pick.value};
      }
      assert docs == RemovePick(old(docs), pick);
      docs := DropOwnCancelled(docs, req.doc);
      if req.doc in docs {
        outcome := Issued(docs[req.doc]);
      } else {
        var row := S.ReservedRow(req, n, ticket, now);
        docs := docs[req.doc := row];
        counters := counters[req.lane := S.Advance(c, n, req)];
        assert counters == begun[req.lane := S.Advance(c, n, req)];
        outcome := Issued(row);
      }
    }

    /** COUNT(*) of the other RESERVED rows of the batch, as a yes or no. */
    method LiveSibling(d: DocId, batch: BatchId) returns (found: bool)
      ensures found <==> S.HasLiveSibling(docs, d, batch)
    {
      found := false;
      var rest := docs.Keys;
      while rest != {} && !found
        invariant rest <= docs.Keys
        invariant found ==> S.HasLiveSibling(docs, d, batch)
        invariant !found ==> forall e | e in docs && e !in rest ::
                               !(e != d && docs[e].batch == Some(batch) && docs[e].status == Reserved)
        decreases rest
      {
        var e :| e in rest;
        rest := rest - {e};
        found := e != d && docs[e].batch == Some(batch) && docs[e].status == Reserved;
      }
    }

    method ReleaseLane(d: DocId)
      requires d in docs
      modifies `counters
      ensures counters == S.Release(docs, old(counters), d)
    {
      var row := docs[d];
      if row.batch.Some? {
        var live := LiveSibling(d, row.batch.value);
        if live {
          return;
        }
      }
      if row.lane in counters {
        var c := counters[row.lane];
        if c.active == Some(d) || (row.batch.Some? && c.activeBatch == row.batch) {
          counters := counters[row.lane := c.(active := None, activeBatch := None)];
        }
      }
    }

    /** Raises StaleReservationError (ok == false) when no row matches document, ticket and RESERVED. */
    method ConfirmNumber(d: DocId, t: Ticket, now: Time) returns (ok: bool)
      modifies `docs, `counters
      ensures ok <==> CanConfirm(old(docs), d, t)
      ensures docs == Confirm(old(docs), d, t, now)
      ensures counters == if ok then S.ReleaseIfSpecial(docs, old(counters), d) else old(counters)
    {
      ok := HoldsTicket(docs, d, t) && docs[d].status == Reserved;
      if ok {
        docs := WithStatus(docs, d, Confirming, now);
        if docs[d].regime == Special {
          ReleaseLane(d);
        }
      }
    }

    method FinalizeNumber(d: DocId, t: Ticket, now: Time) returns (rows: nat)
      modifies `docs
      ensures rows == if CanFinalize(old(docs), d, t) then 1 else 0
      ensures docs == Finalize(old(docs), d, t, now)
    {
      if HoldsTicket(docs, d, t) && docs[d].status == Confirming {
        docs := WithStatus(docs, d, Confirmed, now);
        rows := 1;
      } else {
        rows := 0;
      }
    }

    method CancelNumber(d: DocId, t: Option<Ticket>, scope: CancelScope, now: Time) returns (rows: nat)
      modifies `docs, `counters
      ensures rows == if CanCancel(old(docs), d, t, scope) then 1 else 0
      ensures docs == Cancel(old(docs), d, t, scope, now)
      ensures counters == if rows == 1 then S.ReleaseIfSpecial(docs, old(counters), d) else old(counters)
    {
      rows := 0;
      if d in docs && InScope(docs[d].status, scope) && (t.None? || HoldsTicket(docs, d, t.value)) {
        docs := WithStatus(docs, d, Cancelled, now);
        rows := 1;
        if docs[d].regime == Special {
          ReleaseLane(d);
        }
      }
    }
  }
}
