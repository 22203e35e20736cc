/** One pass of the sweeper over a tenant, as loops over the rows its queries select. */
module SweeperPass {
  import opened Wrappers
  import opened OfficialRows
  import opened SigningSessions
  import opened SigningProtocol
  import opened SigningProgress
  import opened NumberingService

  /** The queue row that takes a reservation on again. */
  function Successor(docs: Docs, d: DocId, autoheal: bool, now: Time): Session
    requires d in docs && docs[d].origin.Ticketed?
  {
    NewSession(d, docs[d].origin.ticket, Pending, FreshPayload(docs[d], true, autoheal), now)
  }

  /** The queue only gained one successor for each of the given rows. */
  ghost predicate Requeued(docs: Docs, ss: Sessions, ss': Sessions, rows: set<DocId>, autoheal: bool, now: Time)
    requires forall d | d in rows :: d in docs && docs[d].origin.Ticketed?
  {
    && (forall s | s in ss :: s in ss' && ss'[s] == ss[s])
    && (forall s | s in ss' && s !in ss :: ss'[s].doc in rows && ss'[s] == Successor(docs, ss'[s].doc, autoheal, now))
    && (forall r, s | r in ss' && s in ss' && r !in ss && s !in ss && ss'[r].doc == ss'[s].doc :: r == s)
    && (forall d | d in rows :: exists s :: s in ss' && s !in ss && ss'[s].doc == d)
  }

  /** An orphaned RESERVED row without a digital session under way. */
  predicate FreeableOrphan(docs: Docs, ss: Sessions, active: set<Ticket>, d: DocId, now: Time) {
    ReservedOrphan(docs, ss, d, now) && docs[d].origin.ticket !in active
  }

  /** A CONFIRMING row of digital origin whose digital session is over. */
  predicate DigitalOrphan(docs: Docs, ss: Sessions, digital: set<Ticket>, active: set<Ticket>, d: DocId, now: Time) {
    && InStatusOf(docs, d, {Confirming}) && docs[d].updatedAt < now - CONFIRMING_EXPIRY
    && docs[d].updatedAt <= now - ORPHAN_GRACE
    && !LiveOnTicket(ss, docs[d].origin.ticket) && docs[d].origin.ticket in digital && docs[d].origin.ticket !in active
  }

  function Moved(row: Row, status: Status, now: Time): Row
    requires row.origin.Ticketed?
  {
    row.(status := status, updatedAt := now)
  }

  /** Each freeable orphan cancelled, every other row as it was. */
  function OrphansCancelled(docs: Docs, ss: Sessions, active: set<Ticket>, now: Time): Docs {
    map d | d in docs :: if FreeableOrphan(docs, ss, active, d, now) then Moved(docs[d], Cancelled, now) else docs[d]
  }

  /** A digital orphan is CONFIRMED when its PDF is found and CANCELLED when it is not. */
  function ResolvedRow(row: Row, stored: set<Num>, now: Time): Row
    requires row.origin.Ticketed?
  {
    Moved(row, if NumOf(row) in stored then Confirmed else Cancelled, now)
  }

  function OrphansResolved(docs: Docs, ss: Sessions, digital: set<Ticket>, active: set<Ticket>, stored: set<Num>,
      now: Time): Docs {
    map d | d in docs ::
      if DigitalOrphan(docs, ss, digital, active, d, now) then ResolvedRow(docs[d], stored, now) else docs[d]
  }

  /** The rows done so far. */
  function ResolvedSoFar(docs: Docs, done: set<DocId>, stored: set<Num>, now: Time): Docs
    requires forall d | d in done :: d in docs && docs[d].status == Confirming
  {
    map d | d in docs :: if d in done then ResolvedRow(docs[d], stored, now) else docs[d]
  }

  lemma OneMoreResolved(docs: Docs, done: set<DocId>, d: DocId, stored: set<Num>, now: Time)
    requires d in docs && d !in done && forall e | e in done + {d} :: e in docs && docs[e].status == Confirming
    ensures ResolvedSoFar(docs, done, stored, now)[d] == docs[d]
    ensures ResolvedSoFar(docs, done + {d}, stored, now)
         == ResolvedSoFar(docs, done, stored, now)[d := ResolvedRow(docs[d], stored, now)]
  {
  }

  /** The drafts of the rows done so far whose PDF is stored are signed. */
  ghost predicate DraftsMoved(drafts: map<DocId, DraftStatus>, drafts': map<DocId, DraftStatus>, docs: Docs,
      done: set<DocId>, stored: set<Num>)
    requires done <= docs.Keys
  {
    && drafts'.Keys == drafts.Keys
    && forall d | d in drafts ::
         drafts'[d] == if d in done && NumOf(docs[d]) in stored
           && drafts[d] == SentToSign then DraftSigned else drafts[d]
  }

  lemma OneMoreDraft(start: map<DocId, DraftStatus>, drafts: map<DocId, DraftStatus>, drafts': map<DocId,
      DraftStatus>, docs: Docs,
                     done: set<DocId>, d: DocId, stored: set<Num>)
    requires done + {d} <= docs.Keys && d !in done && DraftsMoved(start, drafts, docs, done, stored)
    requires drafts' == if NumOf(docs[d]) in stored && d in drafts
        && drafts[d] == SentToSign then drafts[d := DraftSigned] else drafts
    ensures DraftsMoved(start, drafts', docs, done + {d}, stored)
  {
  }

  predicate Completed(docs: Docs, ss: Sessions, digital: set<Ticket>, active: set<Ticket>, stored: set<Num>,
      d: DocId, now: Time) {
    DigitalOrphan(docs, ss, digital, active, d, now) && NumOf(docs[d]) in stored
  }

  function DraftsCompleted(drafts: map<DocId, DraftStatus>, docs: Docs, ss: Sessions, digital: set<Ticket>,
      active: set<Ticket>,
                           stored: set<Num>, now: Time): map<DocId, DraftStatus>
  {
    map d | d in drafts ::
      if drafts[d] == SentToSign && Completed(docs, ss, digital, active, stored, d, now) then DraftSigned else drafts[d]
  }

  /** Nobody waits for nothing: every overdue reservation that ever had a session and is not digital has a live one. */
  ghost predicate EverybodyServed(docs: Docs, ss: Sessions, drafts: map<DocId, DraftStatus>, digital: set<Ticket>,
      now: Time) {
    forall d | d in docs && docs[d].origin.Ticketed? && docs[d].origin.ticket !in digital
      && EverOnTicket(ss, docs[d].origin.ticket)
      && OverdueRow(docs[d], d in drafts && drafts[d] == SentToSign, now) :: LiveOnTicket(ss, docs[d].origin.ticket)
  }

  /** No pending or processing numerator session of the tenant is past its time. */
  predicate NothingExpired(ss: Sessions, now: Time) {
    forall s | s in ss :: !PendingExpired(ss[s], TENANT, JobType.Sign, now)
      && !ProcessingExpired(ss[s], TENANT, JobType.Sign, now)
  }

  // What the queries select, in terms of the rows' times and the queue.

  /** A pending or processing session on the ticket. */
  predicate Queued(ss: Sessions, t: Ticket) {
    exists s | s in ss :: ss[s].ticket == Some(t) && (ss[s].status == Pending || ss[s].status == Processing)
  }

  predicate HadSession(ss: Sessions, t: Ticket) {
    exists s | s in ss :: ss[s].ticket == Some(t)
  }

  /** A RESERVED row is freed when it is more than 15 minutes old, nothing is queued for it and no digital session is
      under way; every other row stays. */
  predicate ToFree(row: Row, ss: Sessions, active: set<Ticket>, now: Time) {
    && row.status == Reserved && now - row.origin.reservedAt > 15 * 60
    && !Queued(ss, row.origin.ticket) && row.origin.ticket !in active
  }

  /** A CONFIRMING row is taken on 20 minutes after it was confirmed, when nothing is queued for it. */
  predicate Stalled(row: Row, ss: Sessions, now: Time) {
    row.status == Confirming && now - row.updatedAt > 20 * 60 && !Queued(ss, row.origin.ticket)
  }

  lemma SelectionsExactly(docs: Docs, ss: Sessions, drafts: map<DocId, DraftStatus>, digital: set<Ticket>,
      active: set<Ticket>, d: DocId, now: Time)
    requires d in docs
    ensures FreeableOrphan(docs, ss, active, d, now) <==> ToFree(docs[d], ss, active, now)
    ensures ConfirmingOrphan(docs, ss, digital, d, now) <==>
              && Stalled(docs[d], ss, now) && docs[d].origin.ticket !in digital
              && HadSession(ss, docs[d].origin.ticket)
    ensures DigitalOrphan(docs, ss, digital, active, d, now) <==>
              && Stalled(docs[d], ss, now) && docs[d].origin.ticket in digital
              && docs[d].origin.ticket !in active
    ensures ConfirmedWaiting(docs, ss, drafts, d) <==>
              && docs[d].status == Confirmed && docs[d].origin.Ticketed? && d in drafts && drafts[d] == SentToSign
              && !Queued(ss, docs[d].origin.ticket) && HadSession(ss, docs[d].origin.ticket)
  {
    if docs[d].origin.Ticketed? {
      assert LiveOnTicket(ss, docs[d].origin.ticket) <==> Queued(ss, docs[d].origin.ticket);
      assert EverOnTicket(ss, docs[d].origin.ticket) <==> HadSession(ss, docs[d].origin.ticket);
    }
  }

  /** A pass over the RESERVED rows changes exactly those to be freed. */
  lemma CancelsExactly(docs: Docs, ss: Sessions, active: set<Ticket>, now: Time)
    ensures var docs' := OrphansCancelled(docs, ss, active, now);
            && docs'.Keys == docs.Keys
            && forall d | d in docs ::
                 docs'[d] == if ToFree(docs[d], ss, active, now) then docs[d].(status := Cancelled, updatedAt := now)
                             else docs[d]
  {
    forall d | d in docs
      ensures FreeableOrphan(docs, ss, active, d, now) <==> ToFree(docs[d], ss, active, now)
    {
      SelectionsExactly(docs, ss, map[], {}, active, d, now);
    }
  }

  class Sweeper {
    const numbering: Numbering
    const queue: SessionTable
    var drafts: map<DocId, DraftStatus>

    constructor (numbering: Numbering, queue: SessionTable)
      ensures this.numbering == numbering && this.queue == queue && drafts == map[]
    {
      this.numbering, this.queue, drafts := numbering, queue, map[];
    }

    /** A fresh identifier, in the place of uuid4(). */
    method NewSessionId() returns (id: SessionId)
      ensures id !in queue.sessions
    {
      id := 0;
      var rest := queue.sessions.Keys;
      while rest != {}
        invariant forall s | s in queue.sessions :: s in rest || s < id
        decreases rest
      {
        var s :| s in rest;
        rest := rest - {s};
        if s >= id {
          id := s + 1;
        }
      }
    }

    method HandlePendingExpired(now: Time)
      modifies queue
      ensures queue.sessions == ExpirePending(old(queue.sessions), TENANT, JobType.Sign, now)
    {
      queue.sessions := map s | s in queue.sessions ::
        if PendingExpired(queue.sessions[s], TENANT, JobType.Sign, now) then queue.sessions[s].(status := Expired)
          else queue.sessions[s];
    }

    /** `active` holds the tickets with a digital session under way. */
    method HandleReservedOrphans(active: set<Ticket>, now: Time)
      modifies numbering
      ensures numbering.docs == OrphansCancelled(old(numbering.docs), queue.sessions, active, now)
      ensures numbering.docs == map d | d in old(numbering.docs) ::
                if ToFree(old(numbering.docs)[d], queue.sessions, active, now)
                then old(numbering.docs)[d].(status := Cancelled, updatedAt := now) else old(numbering.docs)[d]
    {
      ghost var before := numbering.docs;
      var rows := set d | d in numbering.docs && FreeableOrphan(numbering.docs, queue.sessions, active, d, now);
      ghost var all := rows;
      while rows != {}
        invariant rows <= all && numbering.docs.Keys == before.Keys
        invariant forall d | d in before ::
          numbering.docs[d] == if d in all - rows then Moved(before[d], Cancelled, now) else before[d]
        decreases rows
      {
        var d :| d in rows;
        rows := rows - {d};
        var _ := numbering.CancelNumber(d, Some(numbering.docs[d].origin.ticket), OnlyReserved, now);
      }
      assert numbering.docs == OrphansCancelled(before, queue.sessions, active, now);
      CancelsExactly(before, queue.sessions, active, now);
    }

    /** `_resolve_digital_confirming_orphan` for one row; `stored` are the numbers whose PDF is found. */
    method ResolveOrphan(d: DocId, stored: set<Num>, now: Time)
      requires d in numbering.docs && numbering.docs[d].status == Confirming
      modifies this, numbering
      ensures numbering.docs == old(numbering.docs)[d := ResolvedRow(old(numbering.docs)[d], stored, now)]
      ensures drafts == if NumOf(old(numbering.docs)[d]) in stored && d in old(drafts) && old(drafts)[d] == SentToSign
                        then old(drafts)[d := DraftSigned] else old(drafts)
    {
      var row := numbering.docs[d];
      if NumOf(row) in stored {
        var _ := numbering.FinalizeNumber(d, row.origin.ticket, now);
        if d in drafts && drafts[d] == SentToSign {
          drafts := drafts[d := DraftSigned];
        }
      } else {
        var _ := numbering.CancelNumber(d, Some(row.origin.ticket), ReservedOrConfirming, now);
      }
    }

    method ResolveDigitalOrphans(digital: set<Ticket>, active: set<Ticket>, stored: set<Num>, now: Time)
      modifies this, numbering
      ensures numbering.docs == OrphansResolved(old(numbering.docs), queue.sessions, digital, active, stored, now)
      ensures drafts == DraftsCompleted(old(drafts), old(numbering.docs), queue.sessions, digital, active, stored, now)
    {
      ghost var before := numbering.docs;
      ghost var waiting := drafts;
      var rows := set d | d in numbering.docs && DigitalOrphan(numbering.docs, queue.sessions, digital, active, d, now);
      ghost var all := rows;
      while rows != {}
        invariant rows <= all <= before.Keys && forall d | d in all :: before[d].status == Confirming
        invariant numbering.docs == ResolvedSoFar(before, all - rows, stored, now)
        invariant DraftsMoved(waiting, drafts, before, all - rows, stored)
        decreases rows
      {
        var d :| d in rows;
        ghost var earlier, done := drafts, all - rows;
        ResolveOrphan(d, stored, now);
        OneMoreDraft(waiting, earlier, drafts, before, done, d, stored);
        OneMoreResolved(before, done, d, stored, now);
        rows := rows - {d};
        assert all - rows == done + {d};
      }
      assert all - rows == all;
    }

    /** The loop both re-queueing handlers share. */
    method Requeue(rows: set<DocId>, autoheal: bool, now: Time)
      requires forall d | d in rows :: d in numbering.docs && numbering.docs[d].origin.Ticketed?
      modifies queue
      ensures Requeued(numbering.docs, old(queue.sessions), queue.sessions, rows, autoheal, now)
    {
      ghost var before := queue.sessions;
      var rest := rows;
      while rest != {}
        invariant rest <= rows
        invariant Requeued(numbering.docs, before, queue.sessions, rows - rest, autoheal, now)
        decreases rest
      {
        var d :| d in rest;
        var s := NewSessionId();
        ghost var earlier := queue.sessions;
        queue.sessions := queue.sessions[s := Successor(numbering.docs, d, autoheal, now)];
        OneMoreRequeued(numbering.docs, before, earlier, s, rows - rest, d, autoheal, now);
        assert rows - (rest - {d}) == (rows - rest) + {d};
        rest := rest - {d};
      }
      assert rows - rest == rows;
    }

    /** Digital orphans are resolved, the others queued again; the order of the rows is not modelled. */
    method HandleConfirmingExpired(digital: set<Ticket>, active: set<Ticket>, stored: set<Num>, now: Time)
      requires active <= digital
      modifies this, numbering, queue
      ensures numbering.docs == OrphansResolved(old(numbering.docs), old(queue.sessions), digital, active, stored, now)
      ensures drafts == DraftsCompleted(old(drafts), old(numbering.docs), old(queue.sessions), digital, active,
          stored, now)
      ensures Requeued(numbering.docs, old(queue.sessions), queue.sessions,
                       set d | d in numbering.docs && ConfirmingOrphan(numbering.docs, old(queue.sessions), digital,
                         d, now), false, now)
    {
      ResolveDigitalOrphans(digital, active, stored, now);
      var rows := set d | d in numbering.docs && ConfirmingOrphan(numbering.docs, queue.sessions, digital, d, now);
      Requeue(rows, false, now);
    }

    method HandleConfirmedNotSigned(now: Time)
      modifies queue
      ensures Requeued(numbering.docs, old(queue.sessions), queue.sessions,
                       set d | d in numbering.docs && ConfirmedWaiting(numbering.docs, old(queue.sessions), drafts,
                         d), true, now)
    {
      var rows := set d | d in numbering.docs && ConfirmedWaiting(numbering.docs, queue.sessions, drafts, d);
      Requeue(rows, true, now);
    }

    /** After a pass no live session is past its time, every orphan is freed or resolved by what is stored, and every
        overdue reservation is served. */
    method SweepSchema(digital: set<Ticket>, active: set<Ticket>, stored: set<Num>, now: Time)
      requires active <= digital
      modifies this, numbering, queue
      ensures NothingExpired(queue.sessions, now) && Forward(old(queue.sessions), queue.sessions)
      ensures EverybodyServed(numbering.docs, queue.sessions, drafts, digital, now)
      ensures ReservedFate(old(numbering.docs), old(queue.sessions), numbering.docs, active, now)
      ensures exists swept ::
                && NothingExpired(swept, now) && Forward(old(queue.sessions), swept)
                && swept.Keys == old(queue.sessions).Keys
                && numbering.docs == OrphansResolved(OrphansCancelled(old(numbering.docs), swept, active, now),
                   swept, digital, active, stored, now)
    {
      HandlePendingExpired(now);
      queue.HandleProcessingExpired(TENANT, numbering.docs, now);
      ghost var swept := queue.sessions;
      SweptIsFresh(old(queue.sessions), swept, numbering.docs, now);
      HandleReservedOrphans(active, now);
      ghost var freed := numbering.docs;
      HandleConfirmingExpired(digital, active, stored, now);
      ghost var resumed := queue.sessions;
      HandleConfirmedNotSigned(now);
      RequeuedStaysFresh(old(queue.sessions), swept, resumed, now);
      RequeuedStaysFresh(old(queue.sessions), resumed, queue.sessions, now);
      ServedInTheEnd(old(numbering.docs), freed, numbering.docs, swept, resumed, queue.sessions, drafts, digital,
        active, stored, now);
      FateOfReserved(old(numbering.docs), old(queue.sessions), swept, freed, numbering.docs, digital, active, stored,
        now);
    }
  }

  /** A session on the ticket is being processed, or pending and not past its time. */
  predicate StillQueued(ss: Sessions, t: Ticket, now: Time) {
    exists s | s in ss :: ss[s].ticket == Some(t) &&
      (ss[s].status == Processing
       || (ss[s].status == Pending && !(ss[s].schema == TENANT && ss[s].job == JobType.Sign && ss[s].expiresAt < now)))
  }

  /** A pass cancels the RESERVED rows that are more than 15 minutes old, with nothing queued in time for them and no
      digital session under way, and leaves every other RESERVED row as it is. */
  predicate ReservedFate(docs: Docs, ss: Sessions, docs': Docs, active: set<Ticket>, now: Time) {
    docs'.Keys == docs.Keys && forall d | d in docs && docs[d].status == Reserved ::
      docs'[d] == if now - docs[d].origin.reservedAt > 15 * 60 && !StillQueued(ss, docs[d].origin.ticket, now)
                     && docs[d].origin.ticket !in active
                  then docs[d].(status := Cancelled, updatedAt := now) else docs[d]
  }

  /** The queue after the two expiring handlers. */
  ghost predicate Swept(ss: Sessions, ss': Sessions, docs: Docs, now: Time) {
    var expired := ExpirePending(ss, TENANT, JobType.Sign, now);
    ss'.Keys == expired.Keys && forall s | s in ss' ::
      ss'[s] == if ProcessingExpired(expired[s], TENANT, JobType.Sign, now)
                then RequeueExpired(expired, s, RowConfirming(docs, expired[s].doc), now)[s] else expired[s]
  }

  lemma SweptQueues(ss: Sessions, ss': Sessions, docs: Docs, now: Time, t: Ticket)
    requires Swept(ss, ss', docs, now)
    ensures Queued(ss', t) <==> StillQueued(ss, t, now)
  {
    forall s | s in ss
      ensures (ss'[s].status == Pending || ss'[s].status == Processing) <==>
                ss[s].status == Processing || (ss[s].status == Pending
                  && !PendingExpired(ss[s], TENANT, JobType.Sign, now))
      ensures ss'[s].ticket == ss[s].ticket
    {
    }
  }

  lemma FateOfReserved(docs: Docs, ss: Sessions, swept: Sessions, freed: Docs, docs': Docs, digital: set<Ticket>,
      active: set<Ticket>, stored: set<Num>, now: Time)
    requires Swept(ss, swept, docs, now) && freed == OrphansCancelled(docs, swept, active, now)
    requires docs' == OrphansResolved(freed, swept, digital, active, stored, now)
    ensures ReservedFate(docs, ss, docs', active, now)
  {
    CancelsExactly(docs, swept, active, now);
    forall d | d in docs && docs[d].status == Reserved
      ensures docs'[d] == freed[d] && (Queued(swept, docs[d].origin.ticket) <==>
          StillQueued(ss, docs[d].origin.ticket, now))
    {
      SweptQueues(ss, swept, docs, now, docs[d].origin.ticket);
    }
  }

  lemma SweptIsFresh(ss: Sessions, ss': Sessions, docs: Docs, now: Time)
    requires Swept(ss, ss', docs, now)
    ensures NothingExpired(ss', now) && Forward(ss, ss')
  {
  }

  /** A queue that only gains sessions with a full lifetime. */
  lemma RequeuedStaysFresh(start: Sessions, ss: Sessions, ss': Sessions, now: Time)
    requires Forward(start, ss) && NothingExpired(ss, now)
    requires forall s | s in ss :: s in ss' && ss'[s] == ss[s]
    requires forall s | s in ss' && s !in ss :: ss'[s].status == Pending && ss'[s].expiresAt == now + PENDING_TTL
    ensures Forward(start, ss') && NothingExpired(ss', now)
  {
  }

  lemma OneMoreRequeued(docs: Docs, ss: Sessions, ss': Sessions, s: SessionId, rows: set<DocId>, d: DocId,
      autoheal: bool, now: Time)
    requires forall e | e in rows + {d} :: e in docs && docs[e].origin.Ticketed?
    requires Requeued(docs, ss, ss', rows, autoheal, now) && s !in ss' && d !in rows
    ensures Requeued(docs, ss, ss'[s := Successor(docs, d, autoheal, now)], rows + {d}, autoheal, now)
  {
    var after := ss'[s := Successor(docs, d, autoheal, now)];
    forall e | e in rows + {d}
      ensures exists r :: r in after && r !in ss && after[r].doc == e
    {
      if e == d {
        assert s in after && s !in ss && after[s].doc == e;
      } else {
        var r :| r in ss' && r !in ss && ss'[r].doc == e;
        assert r in after && r !in ss && after[r].doc == e;
      }
    }
  }

  /** Re-queueing serves the rows selected and takes nobody's session away. */
  lemma RequeuedServes(docs: Docs, ss: Sessions, ss': Sessions, rows: set<DocId>, autoheal: bool, now: Time, t: Ticket)
    requires forall d | d in rows :: d in docs && docs[d].origin.Ticketed?
    requires Requeued(docs, ss, ss', rows, autoheal, now)
    ensures LiveOnTicket(ss, t) ==> LiveOnTicket(ss', t)
    ensures (exists d :: d in rows && docs[d].origin.ticket == t) ==> LiveOnTicket(ss', t)
    ensures EverOnTicket(ss', t) && !EverOnTicket(ss, t) ==> LiveOnTicket(ss', t)
  {
    if d :| d in rows && docs[d].origin.ticket == t {
      var s :| s in ss' && s !in ss && ss'[s].doc == d;
      assert Live(ss'[s]) && ss'[s].ticket == Some(t);
    }
  }

  lemma ServedInTheEnd(docs: Docs, freed: Docs, docs': Docs, swept: Sessions, resumed: Sessions, healed: Sessions,
                       drafts: map<DocId, DraftStatus>, digital: set<Ticket>, active: set<Ticket>, stored: set<Num>,
                         now: Time)
    requires freed == OrphansCancelled(docs, swept, active, now) && active <= digital
    requires docs' == OrphansResolved(freed, swept, digital, active, stored, now)
    requires Requeued(docs', swept, resumed, set d | d in docs'
        && ConfirmingOrphan(docs', swept, digital, d, now), false, now)
    requires Requeued(docs', resumed, healed, set d | d in docs'
        && ConfirmedWaiting(docs', resumed, drafts, d), true, now)
    ensures EverybodyServed(docs', healed, drafts, digital, now)
  {
    forall d | d in docs' && docs'[d].origin.Ticketed? && docs'[d].origin.ticket !in digital
      && EverOnTicket(healed, docs'[d].origin.ticket)
      && OverdueRow(docs'[d], d in drafts && drafts[d] == SentToSign, now)
      ensures LiveOnTicket(healed, docs'[d].origin.ticket)
    {
      UntouchedRow(docs, freed, docs', swept, digital, active, stored, d, now);
      ServedRow(docs', swept, resumed, healed, drafts, digital, d, now);
    }
  }

  /** A reservation without digital session goes through the two cancelling handlers untouched, unless it is freed. */
  lemma UntouchedRow(docs: Docs, freed: Docs, docs': Docs, swept: Sessions, digital: set<Ticket>, active: set<Ticket>,
                     stored: set<Num>, d: DocId, now: Time)
    requires freed == OrphansCancelled(docs, swept, active, now) && active <= digital
    requires docs' == OrphansResolved(freed, swept, digital, active, stored, now)
    requires d in docs' && docs'[d].origin.Ticketed? && docs'[d].origin.ticket !in digital
    ensures !ReservedOrphan(docs', swept, d, now)
  {
    assert docs'[d] == freed[d] && freed[d].origin == docs[d].origin;
  }

  lemma ServedRow(docs: Docs, swept: Sessions, resumed: Sessions, healed: Sessions, drafts: map<DocId, DraftStatus>,
                  digital: set<Ticket>, d: DocId, now: Time)
    requires Requeued(docs, swept, resumed, set e | e in docs
        && ConfirmingOrphan(docs, swept, digital, e, now), false, now)
    requires Requeued(docs, resumed, healed, set e | e in docs && ConfirmedWaiting(docs, resumed, drafts, e), true, now)
    requires d in docs && docs[d].origin.Ticketed? && docs[d].origin.ticket !in digital
        && EverOnTicket(healed, docs[d].origin.ticket)
    requires OverdueRow(docs[d], d in drafts && drafts[d] == SentToSign, now) && !ReservedOrphan(docs, swept, d, now)
    ensures LiveOnTicket(healed, docs[d].origin.ticket)
  {
    var t := docs[d].origin.ticket;
    var confirming := set e | e in docs && ConfirmingOrphan(docs, swept, digital, e, now);
    var waiting := set e | e in docs && ConfirmedWaiting(docs, resumed, drafts, e);
    RequeuedServes(docs, swept, resumed, confirming, false, now, t);
    RequeuedServes(docs, resumed, healed, waiting, true, now, t);
    if docs[d].status == Confirming {
      assert EverOnTicket(swept, t) && !LiveOnTicket(swept, t) ==> d in confirming;
    } else if docs[d].status == Confirmed {
      assert EverOnTicket(resumed, t) && !LiveOnTicket(resumed, t) ==> d in waiting;
    }
  }
}
