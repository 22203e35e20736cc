/** When a SPECIAL lane stays exclusive although batches share it. A lane is shared when all its RESERVED rows belong
    to one batch of one user. */
module SharedLane {
  import opened Wrappers
  import opened OfficialRows
  import S = SpecialLane
  import opened NumberingRuns

  predicate ReservedOn(docs: Docs, d: DocId, lane: Lane) {
    d in docs && OnLane(docs[d], lane) && docs[d].status == Reserved
  }

  predicate Shares(row: Row, batch: Option<BatchId>, user: Option<UserId>) {
    S.SameBatchAndUser(row.batch, batch, row.holder, user)
  }

  ghost predicate LaneShared(docs: Docs, lane: Lane) {
    forall d, e | ReservedOn(docs, d, lane) && ReservedOn(docs, e, lane) && d != e ::
      Shares(docs[d], docs[e].batch, docs[e].holder)
  }

  /** The active document of the lane still holds a RESERVED row of this lane. */
  predicate HeldHere(docs: Docs, c: Counter, lane: Lane) {
    c.active.Some? && ReservedOn(docs, c.active.value, lane)
  }

  /** The transaction writes a new row: no retry, no busy lane and no row of the document in the way. */
  predicate Admitted(s: State, req: Request, pick: Option<DocId>) {
    var c := S.CounterOf(s.counters, req.lane);
    !S.Retry(s.docs, c, req.doc) && !S.Busy(s.docs, c, req)
      && req.doc !in DropOwnCancelled(RemovePick(s.docs, pick), req.doc)
  }

  ghost predicate StrangerOn(docs: Docs, lane: Lane, req: Request) {
    exists e | ReservedOn(docs, e, lane) :: e != req.doc && !Shares(docs[e], req.batch, req.user)
  }

  /** A reservation is let onto the lane beside a RESERVED row of another batch or user, because the lane's pointer
      names no RESERVED row of the lane. */
  ghost predicate Intrudes(s: State, op: Op, lane: Lane) {
    && op.ReserveSpecial? && op.req.lane == lane && Admitted(s, op.req, op.pick)
    && !HeldHere(s.docs, S.CounterOf(s.counters, lane), lane) && StrangerOn(s.docs, lane, op.req)
  }

  /** The counter remembers the batch of the row it points to. */
  ghost predicate BatchRemembered(s: State) {
    forall lane | lane in s.counters && HeldHere(s.docs, s.counters[lane], lane) ::
      s.docs[s.counters[lane].active.value].batch == s.counters[lane].activeBatch
  }

  // --- One step ---

  /** No RESERVED SPECIAL row is new or changed, and no counter points elsewhere. */
  ghost predicate Quiet(s: State, s': State) {
    && (forall d | d in s'.docs && s'.docs[d].regime == Special && s'.docs[d].status == Reserved ::
          d in s.docs && s'.docs[d] == s.docs[d])
    && (forall lane | lane in s'.counters && s'.counters[lane].active.Some? ::
       lane in s.counters && s'.counters[lane] == s.counters[lane])
  }

  lemma QuietKeepsLanes(s: State, s': State, lane: Lane)
    requires Quiet(s, s')
    ensures LaneShared(s.docs, lane) ==> LaneShared(s'.docs, lane)
    ensures BatchRemembered(s) ==> BatchRemembered(s')
  {
    assert forall d | ReservedOn(s'.docs, d, lane) :: ReservedOn(s.docs, d, lane) && s'.docs[d] == s.docs[d];
  }

  lemma UpdateIsQuiet(s: State, op: Op, now: Time)
    requires Enabled(s, op, now) && (op.Confirm? || op.Finalize? || op.Cancel? || op.Reject?)
    ensures Quiet(s, Apply(s, op, now))
  {
  }

  lemma GlobalIsQuiet(s: State, op: Op, now: Time)
    requires Enabled(s, op, now) && (op.ReserveGlobal? || op.ReserveCitizen? || op.Generate?)
    ensures Quiet(s, Apply(s, op, now))
  {
  }

  /** The tables after an admitted reservation: its row, its lane's counter, and nothing else RESERVED changes. */
  lemma AdmittedTables(s: State, req: Request, ticket: Ticket, pick: Option<DocId>, now: Time)
    requires Enabled(s, ReserveSpecial(req, ticket, pick), now) && Admitted(s, req, pick)
    ensures var s' := Apply(s, ReserveSpecial(req, ticket, pick), now);
            && ReservedOn(s'.docs, req.doc, req.lane) && s'.docs[req.doc].batch == req.batch
            && s'.docs[req.doc].holder == req.user
            && (forall d | d != req.doc && d in s'.docs && s'.docs[d].status == Reserved ::
               d in s.docs && s'.docs[d] == s.docs[d])
            && (forall d | d != req.doc && d in s.docs && s.docs[d].status == Reserved ::
               d in s'.docs && s'.docs[d] == s.docs[d])
            && (req.doc in s.docs ==> s.docs[req.doc].status == Cancelled)
            && s'.counters.Keys == s.counters.Keys + {req.lane}
            && s'.counters[req.lane].active == Some(req.doc) && s'.counters[req.lane].activeBatch == req.batch
            && (forall l | l in s.counters && l != req.lane :: s'.counters[l] == s.counters[l])
  {
  }

  lemma RefusedIsQuiet(s: State, req: Request, ticket: Ticket, pick: Option<DocId>, now: Time)
    requires Enabled(s, ReserveSpecial(req, ticket, pick), now) && !Admitted(s, req, pick)
    ensures Quiet(s, Apply(s, ReserveSpecial(req, ticket, pick), now))
  {
  }

  lemma AdmittedKeepsBatches(s: State, req: Request, ticket: Ticket, pick: Option<DocId>, now: Time)
    requires Enabled(s, ReserveSpecial(req, ticket, pick), now) && Admitted(s, req, pick) && BatchRemembered(s)
    ensures BatchRemembered(Apply(s, ReserveSpecial(req, ticket, pick), now))
  {
    AdmittedTables(s, req, ticket, pick, now);
    var s' := Apply(s, ReserveSpecial(req, ticket, pick), now);
    forall l | l in s'.counters && HeldHere(s'.docs, s'.counters[l], l)
      ensures s'.docs[s'.counters[l].active.value].batch == s'.counters[l].activeBatch
    {
      assert l != req.lane ==> HeldHere(s.docs, s.counters[l], l);
    }
  }

  /** Beside a lane held by its pointer only siblings of the pointed row get in. */
  lemma HeldLaneAdmitsSiblings(s: State, req: Request, pick: Option<DocId>)
    requires BatchRemembered(s) && LaneShared(s.docs, req.lane) && Admitted(s, req, pick)
    requires HeldHere(s.docs, S.CounterOf(s.counters, req.lane), req.lane)
    ensures !StrangerOn(s.docs, req.lane, req)
  {
    var a := S.CounterOf(s.counters, req.lane).active.value;
    assert Shares(s.docs[a], req.batch, req.user);
    forall e | ReservedOn(s.docs, e, req.lane) && e != req.doc
      ensures Shares(s.docs[e], req.batch, req.user)
    {
      assert e == a || Shares(s.docs[e], s.docs[a].batch, s.docs[a].holder);
    }
  }

  /** A reservation admitted to a shared lane leaves it shared exactly when it finds no stranger there. */
  lemma AdmittedShares(s: State, req: Request, ticket: Ticket, pick: Option<DocId>, now: Time, lane: Lane)
    requires Enabled(s, ReserveSpecial(req, ticket, pick), now) && Admitted(s, req, pick) && LaneShared(s.docs, lane)
    ensures LaneShared(Apply(s, ReserveSpecial(req, ticket, pick), now).docs, lane) <==>
        req.lane != lane || !StrangerOn(s.docs, lane, req)
  {
    AdmittedTables(s, req, ticket, pick, now);
    var docs' := Apply(s, ReserveSpecial(req, ticket, pick), now).docs;
    if req.lane == lane && StrangerOn(s.docs, lane, req) {
      var e: DocId :| ReservedOn(s.docs, e, lane) && e != req.doc && !Shares(s.docs[e], req.batch, req.user);
      assert ReservedOn(docs', e, lane) && !Shares(docs'[e], docs'[req.doc].batch, docs'[req.doc].holder);
    } else {
      forall d, e | ReservedOn(docs', d, lane) && ReservedOn(docs', e, lane) && d != e
        ensures Shares(docs'[d], docs'[e].batch, docs'[e].holder)
      {
        assert d != req.doc ==> ReservedOn(s.docs, d, lane);
        assert e != req.doc ==> ReservedOn(s.docs, e, lane);
      }
    }
  }

  /** A step takes a shared lane's exclusivity away exactly when it intrudes. */
  lemma StepBreaksExactly(s: State, op: Op, now: Time, lane: Lane)
    requires BatchRemembered(s) && Enabled(s, op, now)
    ensures BatchRemembered(Apply(s, op, now))
    ensures LaneShared(s.docs, lane) ==> (LaneShared(Apply(s, op, now).docs, lane) <==> !Intrudes(s, op, lane))
  {
    match op
    case ReserveSpecial(req, ticket, pick) =>
      if Admitted(s, req, pick) {
        AdmittedKeepsBatches(s, req, ticket, pick, now);
        if LaneShared(s.docs, lane) {
          AdmittedShares(s, req, ticket, pick, now, lane);
          if req.lane == lane && HeldHere(s.docs, S.CounterOf(s.counters, lane), lane) {
            HeldLaneAdmitsSiblings(s, req, pick);
          }
        }
      } else {
        RefusedIsQuiet(s, req, ticket, pick, now);
        QuietKeepsLanes(s, Apply(s, op, now), lane);
      }
    case Confirm(_, _) => QuietStep(s, op, now, lane);
    case Finalize(_, _) => QuietStep(s, op, now, lane);
    case Cancel(_, _, _) => QuietStep(s, op, now, lane);
    case Reject(_) => QuietStep(s, op, now, lane);
    case _ =>
      GlobalIsQuiet(s, op, now);
      QuietKeepsLanes(s, Apply(s, op, now), lane);
  }

  lemma QuietStep(s: State, op: Op, now: Time, lane: Lane)
    requires Enabled(s, op, now) && (op.Confirm? || op.Finalize? || op.Cancel? || op.Reject?)
    ensures LaneShared(s.docs, lane) ==> LaneShared(Apply(s, op, now).docs, lane)
    ensures BatchRemembered(s) ==> BatchRemembered(Apply(s, op, now))
  {
    UpdateIsQuiet(s, op, now);
    QuietKeepsLanes(s, Apply(s, op, now), lane);
  }

  // --- Runs ---

  lemma {:induction false} RunRemembersBatches(states: seq<State>, events: seq<Event>, i: nat, lane: Lane)
    requires Run(states, events) && states[0] == Empty && i < |states|
    ensures BatchRemembered(states[i])
  {
    if i > 0 {
      RunRemembersBatches(states, events, i - 1, lane);
      StepBreaksExactly(states[i - 1], events[i - 1].op, events[i - 1].now, lane);
    }
  }

  ghost predicate SharedUpTo(states: seq<State>, lane: Lane, n: nat)
    requires n < |states|
  {
    forall i | 0 <= i <= n :: LaneShared(states[i].docs, lane)
  }

  ghost predicate NobodyIntrudes(states: seq<State>, events: seq<Event>, lane: Lane, n: nat)
    requires n <= |events| <= |states|
  {
    forall i | 0 <= i < n :: !Intrudes(states[i], events[i].op, lane)
  }

  /** In every run, with batches or without: a lane is never held by two batches or users at once if and only if no
      reservation is admitted beside a stranger while the lane's pointer names no RESERVED row of the lane. */
  lemma {:induction false} ExclusivityExactly(states: seq<State>, events: seq<Event>, lane: Lane, n: nat)
    requires Run(states, events) && states[0] == Empty && n < |states|
    ensures SharedUpTo(states, lane, n) <==> NobodyIntrudes(states, events, lane, n)
  {
    if n > 0 {
      ExclusivityExactly(states, events, lane, n - 1);
      RunRemembersBatches(states, events, n - 1, lane);
      StepBreaksExactly(states[n - 1], events[n - 1].op, events[n - 1].now, lane);
      assert SharedUpTo(states, lane, n) <==> SharedUpTo(states, lane, n - 1) && LaneShared(states[n].docs, lane);
      assert NobodyIntrudes(states, events, lane, n) <==>
               NobodyIntrudes(states, events, lane, n - 1) && !Intrudes(states[n - 1], events[n - 1].op, lane);
    }
  }
}
