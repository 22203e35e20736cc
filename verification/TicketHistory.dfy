/** The life of one reservation ticket over a whole run. */
module TicketHistory {
  import opened Wrappers
  import opened OfficialRows
  import G = GlobalNumbering
  import S = SpecialLane
  import opened NumberingRuns

  datatype Phase = Unissued | At(status: Status) | Gone

  /** Every ticket in the table was issued, and no two rows share one. */
  ghost predicate TicketsOwned(s: State) {
    && (forall d | d in s.docs && s.docs[d].origin.Ticketed? :: s.docs[d].origin.ticket in s.issued)
    && (forall d, e | d in s.docs && e in s.docs && s.docs[d].origin.Ticketed? && s.docs[e].origin.Ticketed? ::
          s.docs[d].origin.ticket == s.docs[e].origin.ticket ==> d == e)
  }

  ghost predicate Held(s: State, t: Ticket) {
    exists d :: HoldsTicket(s.docs, d, t)
  }

  ghost function PhaseOf(s: State, t: Ticket): Phase {
    if t !in s.issued then Unissued
    else if Held(s, t) then
      var d :| HoldsTicket(s.docs, d, t);
      At(s.docs[d].status)
    else Gone
  }

  /** RESERVED to CONFIRMING to CONFIRMED; CANCELLED only before CONFIRMED; a row leaves the table
      only from RESERVED (expired and replaced at once) or CANCELLED. */
  predicate Leads(a: Phase, b: Phase) {
    || a == b
    || a == Unissued
    || (a == At(Reserved) && b in {At(Confirming), At(Confirmed), At(Cancelled), Gone})
    || (a == At(Confirming) && b in {At(Confirmed), At(Cancelled), Gone})
    || (a == At(Cancelled) && b == Gone)
  }

  /** One transaction moves the status of a surviving row along one edge, and never touches a CONFIRMED row. */
  predicate RowMove(before: Row, after: Row) {
    && after == before.(status := after.status, updatedAt := after.updatedAt)
    && (after.status != before.status ==>
          (before.status, after.status) in {(Reserved, Confirming), (Confirming, Confirmed), (Reserved, Cancelled),
            (Confirming, Cancelled)})
    && (before.status == Confirmed ==> after == before)
  }

  /** The ticket an operation may write into a new row. */
  function NewTicket(op: Op): Option<Ticket> {
    match op
    case ReserveGlobal(_, t, _) => Some(t)
    case ReserveCitizen(_, t, _) => Some(t)
    case ReserveSpecial(_, t, _) => Some(t)
    case _ => None
  }

  predicate Fresh(ticket: Option<Ticket>, row: Row) {
    row.origin.Direct? || (ticket == Some(row.origin.ticket) && row.status == Reserved)
  }

  /** Rows only move forward, except that the requester's own row may be replaced by a fresh one. */
  ghost predicate RowsMove(docs: Docs, docs': Docs, own: DocId, ticket: Option<Ticket>) {
    && (forall d | d in docs && d in docs' ::
          RowMove(docs[d], docs'[d]) || (d == own && docs[d].status in {Reserved, Cancelled}
            && Fresh(ticket, docs'[d])))
    && (forall d | d in docs && d !in docs' :: docs[d].status in {Reserved, Cancelled})
    && (forall d | d in docs' && d !in docs :: d == own && Fresh(ticket, docs'[d]))
  }

  lemma ReserveMoves(docs: Docs, req: Request, ticket: Ticket, now: Time, pick: Option<DocId>)
    requires G.ReserveEnabled(docs, req, now, pick)
    ensures RowsMove(docs, G.Reserve(docs, req, ticket, now, pick).0, req.doc, Some(ticket))
  {
  }

  lemma CitizenMoves(docs: Docs, req: Request, ticket: Ticket, now: Time, pick: Option<DocId>)
    requires G.ReserveEnabled(docs, req, now, pick)
    ensures RowsMove(docs, G.ReserveCitizen(docs, req, ticket, now, pick).0, req.doc, Some(ticket))
  {
  }

  lemma SpecialMoves(docs: Docs, counters: Counters, req: Request, ticket: Ticket, now: Time, pick: Option<DocId>)
    requires S.ReserveEnabled(docs, counters, req, pick)
    ensures RowsMove(docs, S.Reserve(docs, counters, req, ticket, now, pick).0, req.doc, Some(ticket))
  {
  }

  lemma GenerateMoves(docs: Docs, req: Request, now: Time, pick: Option<DocId>)
    requires G.ValidPick(docs, req.lane.year, pick)
    ensures RowsMove(docs, G.Generate(docs, req, now, pick).0, req.doc, None)
  {
  }

  lemma ConfirmMoves(docs: Docs, d: DocId, t: Ticket, now: Time)
    ensures RowsMove(docs, OfficialRows.Confirm(docs, d, t, now), d, None)
  {
  }

  lemma FinalizeMoves(docs: Docs, d: DocId, t: Ticket, now: Time)
    ensures RowsMove(docs, OfficialRows.Finalize(docs, d, t, now), d, None)
  {
  }

  lemma CancelMoves(docs: Docs, d: DocId, t: Option<Ticket>, scope: CancelScope, now: Time)
    ensures RowsMove(docs, OfficialRows.Cancel(docs, d, t, scope, now), d, None)
  {
  }

  function Target(op: Op): DocId {
    if op.Confirm? || op.Finalize? || op.Cancel? || op.Reject? then op.doc else op.req.doc
  }

  lemma StepMovesRows(s: State, op: Op, now: Time)
    requires Enabled(s, op, now)
    ensures RowsMove(s.docs, Apply(s, op, now).docs, Target(op), NewTicket(op))
    ensures Apply(s, op, now).issued == s.issued + (if NewTicket(op).Some? then {NewTicket(op).value} else {})
    ensures NewTicket(op).Some? ==> NewTicket(op).value !in s.issued
  {
    match op
    case ReserveGlobal(req, ticket, pick) => ReserveMoves(s.docs, req, ticket, now, pick);
    case ReserveCitizen(req, ticket, pick) => CitizenMoves(s.docs, req, ticket, now, pick);
    case Generate(req, pick) => GenerateMoves(s.docs, req, now, pick);
    case ReserveSpecial(req, ticket, pick) => SpecialMoves(s.docs, s.counters, req, ticket, now, pick);
    case Confirm(d, t) => ConfirmMoves(s.docs, d, t, now);
    case Finalize(d, t) => FinalizeMoves(s.docs, d, t, now);
    case Cancel(d, t, scope) => CancelMoves(s.docs, d, t, scope, now);
    case Reject(d) => CancelMoves(s.docs, d, None, OnlyReserved, now);
  }

  lemma StepKeepsTickets(s: State, op: Op, now: Time)
    requires TicketsOwned(s) && Enabled(s, op, now)
    ensures TicketsOwned(Apply(s, op, now))
  {
    StepMovesRows(s, op, now);
    var docs' := Apply(s, op, now).docs;
    forall d | d in docs' && docs'[d].origin.Ticketed?
      ensures HoldsTicket(s.docs, d, docs'[d].origin.ticket)
          || (d == Target(op) && NewTicket(op) == Some(docs'[d].origin.ticket))
    {
    }
  }

  lemma PhaseIs(s: State, d: DocId, t: Ticket)
    requires TicketsOwned(s) && HoldsTicket(s.docs, d, t)
    ensures PhaseOf(s, t) == At(s.docs[d].status)
  {
    assert Held(s, t);
  }

  lemma StepPhase(s: State, op: Op, now: Time, t: Ticket)
    requires TicketsOwned(s) && Enabled(s, op, now)
    ensures Leads(PhaseOf(s, t), PhaseOf(Apply(s, op, now), t))
  {
    var s' := Apply(s, op, now);
    StepMovesRows(s, op, now);
    if t in s.issued {
      if Held(s, t) {
        var d :| HoldsTicket(s.docs, d, t);
        HeldPhaseLeads(s, op, now, d, t);
      } else {
        forall d
          ensures !HoldsTicket(s'.docs, d, t)
        {
          NotHeldElsewhere(s, op, now, d, t);
        }
      }
    }
  }

  lemma HeldPhaseLeads(s: State, op: Op, now: Time, d: DocId, t: Ticket)
    requires TicketsOwned(s) && Enabled(s, op, now) && HoldsTicket(s.docs, d, t)
    ensures Leads(PhaseOf(s, t), PhaseOf(Apply(s, op, now), t))
  {
    StepMovesRows(s, op, now);
    StepKeepsTickets(s, op, now);
    PhaseIs(s, d, t);
    NotHeldElsewhere(s, op, now, d, t);
    if HoldsTicket(Apply(s, op, now).docs, d, t) {
      PhaseIs(Apply(s, op, now), d, t);
    } else {
      assert s.docs[d].status != Confirmed;
    }
  }

  /** An issued ticket is never written into another document's row. */
  lemma NotHeldElsewhere(s: State, op: Op, now: Time, d: DocId, t: Ticket)
    requires TicketsOwned(s) && Enabled(s, op, now) && t in s.issued
    requires forall e | e != d :: !HoldsTicket(s.docs, e, t)
    ensures forall e | e != d :: !HoldsTicket(Apply(s, op, now).docs, e, t)
    ensures !HoldsTicket(s.docs, d, t) ==> !HoldsTicket(Apply(s, op, now).docs, d, t)
  {
    StepMovesRows(s, op, now);
    var docs' := Apply(s, op, now).docs;
    forall e | HoldsTicket(docs', e, t)
      ensures HoldsTicket(s.docs, e, t)
    {
      assert !Fresh(NewTicket(op), docs'[e]);
    }
  }

  lemma {:induction false} RunKeepsTickets(states: seq<State>, events: seq<Event>, i: nat)
    requires Run(states, events) && states[0] == Empty && i < |states|
    ensures TicketsOwned(states[i])
  {
    if i > 0 {
      RunKeepsTickets(states, events, i - 1);
      StepKeepsTickets(states[i - 1], events[i - 1].op, events[i - 1].now);
    }
  }

  /** Over a whole run a ticket only moves forward; once CONFIRMED its row never changes again. */
  lemma {:induction false} TicketSafety(states: seq<State>, events: seq<Event>, i: nat, j: nat, t: Ticket)
    requires Run(states, events) && states[0] == Empty && i <= j < |states|
    ensures Leads(PhaseOf(states[i], t), PhaseOf(states[j], t))
    ensures forall d | d in states[i].docs && states[i].docs[d].status == Confirmed ::
              d in states[j].docs && states[j].docs[d] == states[i].docs[d]
    decreases j
  {
    if i < j {
      TicketSafety(states, events, i, j - 1, t);
      RunKeepsTickets(states, events, j - 1);
      StepPhase(states[j - 1], events[j - 1].op, events[j - 1].now, t);
      StepMovesRows(states[j - 1], events[j - 1].op, events[j - 1].now);
      ConfirmedStays(states[j - 1], events[j - 1].op, events[j - 1].now);
    }
  }

  lemma ConfirmedStays(s: State, op: Op, now: Time)
    requires Enabled(s, op, now)
    ensures forall d | d in s.docs && s.docs[d].status == Confirmed ::
              d in Apply(s, op, now).docs && Apply(s, op, now).docs[d] == s.docs[d]
  {
    StepMovesRows(s, op, now);
    var docs' := Apply(s, op, now).docs;
    forall d | d in s.docs && s.docs[d].status == Confirmed
      ensures d in docs' && docs'[d] == s.docs[d]
    {
      assert d in docs';
      assert RowMove(s.docs[d], docs'[d]);
    }
  }

  lemma {:induction false} DeadTicketStaysDead(states: seq<State>, events: seq<Event>, j: nat, k: nat, d: DocId,
      t: Ticket)
    requires Run(states, events) && states[0] == Empty && j <= k < |states|
    requires t in states[j].issued && !Held(states[j], t)
    ensures t in states[k].issued && !Held(states[k], t)
    decreases k
  {
    if j < k {
      DeadTicketStaysDead(states, events, j, k - 1, d, t);
      RunKeepsTickets(states, events, k - 1);
      StepMovesRows(states[k - 1], events[k - 1].op, events[k - 1].now);
      forall e
        ensures !HoldsTicket(states[k].docs, e, t)
      {
        NotHeldElsewhere(states[k - 1], events[k - 1].op, events[k - 1].now, e, t);
      }
    }
  }

  lemma {:induction false} TicketKeepsItsDocument(states: seq<State>, events: seq<Event>, i: nat, j: nat, d: DocId,
      t: Ticket)
    requires Run(states, events) && states[0] == Empty && i <= j < |states|
    requires HoldsTicket(states[i].docs, d, t)
    ensures t in states[j].issued
    ensures forall e | e != d :: !HoldsTicket(states[j].docs, e, t)
    decreases j
  {
    RunKeepsTickets(states, events, i);
    if i < j {
      TicketKeepsItsDocument(states, events, i, j - 1, d, t);
      RunKeepsTickets(states, events, j - 1);
      StepMovesRows(states[j - 1], events[j - 1].op, events[j - 1].now);
      NotHeldElsewhere(states[j - 1], events[j - 1].op, events[j - 1].now, d, t);
    }
  }

  /** Once document d, which held ticket t, holds another row or none, every confirm, finalize or
      ticketed cancel with t, on any document and at any later point, changes no row. */
  lemma StaleTicketIsDead(states: seq<State>, events: seq<Event>, i: nat, j: nat, k: nat, d: DocId, t: Ticket, e: DocId,
                          scope: CancelScope, now: Time)
    requires Run(states, events) && states[0] == Empty && i <= j <= k < |states|
    requires HoldsTicket(states[i].docs, d, t) && !HoldsTicket(states[j].docs, d, t)
    ensures OfficialRows.Confirm(states[k].docs, e, t, now) == states[k].docs
    ensures OfficialRows.Finalize(states[k].docs, e, t, now) == states[k].docs
    ensures OfficialRows.Cancel(states[k].docs, e, Some(t), scope, now) == states[k].docs
  {
    TicketKeepsItsDocument(states, events, i, j, d, t);
    assert !Held(states[j], t);
    DeadTicketStaysDead(states, events, j, k, d, t);
    assert !HoldsTicket(states[k].docs, e, t);
  }
}
