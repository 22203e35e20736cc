/** Runs of the numbering transactions of one tenant, and what holds in every run. */
module NumberingRuns {
  import opened Wrappers
  import opened OfficialRows
  import G = GlobalNumbering
  import S = SpecialLane

  /** `issued` is the set of tickets drawn so far; a ticket is a fresh random identifier. */
  datatype State = State(docs: Docs, counters: Counters, issued: set<Ticket>)

  /** One committed transaction. `pick` is the row its recycling query returned. */
  datatype Op =
    | ReserveGlobal(req: Request, ticket: Ticket, pick: Option<DocId>)
    | ReserveCitizen(req: Request, ticket: Ticket, pick: Option<DocId>)
    | Generate(req: Request, pick: Option<DocId>)
    | ReserveSpecial(req: Request, ticket: Ticket, pick: Option<DocId>)
    | Confirm(doc: DocId, t: Ticket)
    | Finalize(doc: DocId, t: Ticket)
    | Cancel(doc: DocId, opt: Option<Ticket>, scope: CancelScope)
    | Reject(doc: DocId)

  const Empty := State(map[], map[], {})

  /** A document keeps its type, and a type its regime. */
  predicate RegimeFixed(docs: Docs, d: DocId, regime: Regime) {
    d in docs ==> docs[d].regime == regime
  }

  ghost predicate Enabled(s: State, op: Op, now: Time) {
    match op
    case ReserveGlobal(req, ticket, pick) =>
      ticket !in s.issued && RegimeFixed(s.docs, req.doc, Global) && G.ReserveEnabled(s.docs, req, now, pick)
    case ReserveCitizen(req, ticket, pick) =>
      ticket !in s.issued && RegimeFixed(s.docs, req.doc, Global) && G.ReserveEnabled(s.docs, req, now, pick)
    case Generate(req, pick) =>
      RegimeFixed(s.docs, req.doc, Global) && G.ValidPick(s.docs, req.lane.year, pick)
    case ReserveSpecial(req, ticket, pick) =>
      ticket !in s.issued && RegimeFixed(s.docs, req.doc, Special) && S.ReserveEnabled(s.docs, s.counters, req, pick)
    case Confirm(_, _) => true
    case Finalize(_, _) => true
    case Cancel(_, _, _) => true
    case Reject(_) => true
  }

  ghost function Apply(s: State, op: Op, now: Time): State
    requires Enabled(s, op, now)
  {
    match op
    case ReserveGlobal(req, ticket, pick) =>
      State(G.Reserve(s.docs, req, ticket, now, pick).0, s.counters, s.issued + {ticket})
    case ReserveCitizen(req, ticket, pick) =>
      State(G.ReserveCitizen(s.docs, req, ticket, now, pick).0, s.counters, s.issued + {ticket})
    case Generate(req, pick) =>
      s.(docs := G.Generate(s.docs, req, now, pick).0)
    case ReserveSpecial(req, ticket, pick) =>
      var (docs, counters, _) := S.Reserve(s.docs, s.counters, req, ticket, now, pick);
      State(docs, counters, s.issued + {ticket})
    case Confirm(d, t) =>
      var docs := OfficialRows.Confirm(s.docs, d, t, now);
      s.(docs := docs, counters := if CanConfirm(s.docs, d, t) then S.ReleaseIfSpecial(docs, s.counters, d)
        else s.counters)
    case Finalize(d, t) =>
      s.(docs := OfficialRows.Finalize(s.docs, d, t, now))
    case Cancel(d, t, scope) =>
      var docs := OfficialRows.Cancel(s.docs, d, t, scope, now);
      s.(docs := docs, counters := if CanCancel(s.docs, d, t, scope) then S.ReleaseIfSpecial(docs, s.counters, d)
        else s.counters)
    case Reject(d) =>
      if CanCancel(s.docs, d, None, OnlyReserved) then
        var docs := WithStatus(s.docs, d, Cancelled, now);
        s.(docs := docs, counters := if docs[d].regime == Special then S.ReleasePointer(docs, s.counters, d)
          else s.counters)
      else s
  }

  datatype Event = Event(op: Op, now: Time)

  /** states[0], states[1], ... is a run of the given transactions. */
  ghost predicate Run(states: seq<State>, events: seq<Event>) {
    && |states| == |events| + 1
    && forall i | 0 <= i < |events| ::
         Enabled(states[i], events[i].op, events[i].now)
           && states[i + 1] == Apply(states[i], events[i].op, events[i].now)
  }

  /** Some run from the empty tables ends in s. */
  ghost predicate Reachable(s: State) {
    exists states: seq<State>, events: seq<Event> :: EndsIn(states, events, s)
  }

  ghost predicate EndsIn(states: seq<State>, events: seq<Event>, s: State) {
    Run(states, events) && states[0] == Empty && states[|events|] == s
  }

  lemma EmptyIsReachable()
    ensures Reachable(Empty)
  {
    var states, events: seq<Event> := [Empty], [];
    assert EndsIn(states, events, Empty);
  }

  lemma Then(s: State, op: Op, now: Time, s': State)
    requires Reachable(s) && Enabled(s, op, now) && Apply(s, op, now) == s'
    ensures Reachable(s')
  {
    var states: seq<State>, events: seq<Event> :| EndsIn(states, events, s);
    assert EndsIn(states + [s'], events + [Event(op, now)], s');
  }

  // --- GLOBAL uniqueness ---

  lemma StepKeepsDistinct(s: State, op: Op, now: Time)
    requires G.Distinct(s.docs) && Enabled(s, op, now)
    ensures G.Distinct(Apply(s, op, now).docs)
  {
    match op
    case ReserveGlobal(req, ticket, pick) => G.ReserveKeepsDistinct(s.docs, req, ticket, now, pick);
    case ReserveCitizen(req, ticket, pick) => G.ReserveKeepsDistinct(s.docs, req, ticket, now, pick);
    case Generate(req, pick) => G.GenerateKeepsDistinct(s.docs, req, now, pick);
    case ReserveSpecial(req, ticket, pick) =>
    case Confirm(_, _) =>
    case Finalize(_, _) =>
    case Cancel(_, _, _) =>
    case Reject(_) =>
  }

  /** In every run no two GLOBAL rows of a year, live or cancelled, share a number. */
  lemma {:induction false} GlobalUniqueness(states: seq<State>, events: seq<Event>, i: nat)
    requires Run(states, events) && states[0] == Empty && i < |states|
    ensures G.Distinct(states[i].docs)
  {
    if i > 0 {
      GlobalUniqueness(states, events, i - 1);
      StepKeepsDistinct(states[i - 1], events[i - 1].op, events[i - 1].now);
    }
  }

  // --- Conservation over runs ---

  ghost predicate ReserveLoses(docs: Docs, req: Request, now: Time, pick: Option<DocId>, year: nat)
    requires pick.Some? ==> pick.value in docs
  {
    var expired := G.Expire(docs, req.doc, now);
    if year == req.lane.year then G.Lost(expired, req.doc, year, pick) != {}
    else G.OwnCancelled(expired, req.doc, year) != {}
  }

  /** The step deletes the last row that carries some number of the year. */
  ghost predicate Loses(s: State, op: Op, now: Time, year: nat)
    requires Enabled(s, op, now)
  {
    match op
    case ReserveGlobal(req, _, pick) =>
      !G.RetryHit(s.docs, req.doc, now) && ReserveLoses(s.docs, req, now, pick, year)
    case Generate(req, pick) =>
      pick.Some? && pick.value != req.doc && req.doc in s.docs && year == req.lane.year
    case _ => false
  }

  lemma SpecialLeavesYears(docs: Docs, docs': Docs, year: nat)
    requires forall d | d in docs && docs[d].regime == Global :: d in docs' && docs'[d] == docs[d]
    requires forall d | d in docs' && docs'[d].regime == Global :: d in docs && docs'[d] == docs[d]
    ensures G.YearNumbers(docs', year) == G.YearNumbers(docs, year)
  {
    forall n | n in G.YearNumbers(docs, year)
      ensures n in G.YearNumbers(docs', year)
    {
      var d :| d in docs && InYear(docs[d], year) && docs[d].number == n;
      assert docs'[d] == docs[d];
    }
    forall n | n in G.YearNumbers(docs', year)
      ensures n in G.YearNumbers(docs, year)
    {
      var d :| d in docs' && InYear(docs'[d], year) && docs'[d].number == n;
      assert docs'[d] == docs[d];
    }
  }

  /** Kept, grown by exactly max + 1, or one number short. */
  ghost predicate OneNumberChange(before: set<nat>, after: set<nat>) {
    after == before || after == before + {G.Max(before) + 1} || exists n | n in before :: after == before - {n}
  }

  /** Every transaction keeps a year's numbers, adds exactly max + 1, or loses exactly one number; it loses one
      exactly when it recycled another row, or deleted its own cancelled row, without reusing that number. */
  lemma StepConserves(s: State, op: Op, now: Time, year: nat)
    requires G.Distinct(s.docs) && Enabled(s, op, now)
    ensures var before := G.YearNumbers(s.docs, year);
            var after := G.YearNumbers(Apply(s, op, now).docs, year);
            OneNumberChange(before, after) && (Loses(s, op, now, year) <==> !(before <= after))
  {
    match op
    case ReserveGlobal(req, ticket, pick) =>
      if !G.RetryHit(s.docs, req.doc, now) {
        GlobalReserveConserves(s.docs, req, ticket, now, pick, year);
      }
    case ReserveCitizen(req, ticket, pick) => CitizenConserves(s, req, ticket, now, pick, year);
    case Generate(req, pick) => GenerateConserves(s, req, now, pick, year);
    case _ => OthersConserve(s, op, now, year);
  }

  lemma OthersConserve(s: State, op: Op, now: Time, year: nat)
    requires Enabled(s, op, now) && !op.ReserveGlobal? && !op.ReserveCitizen? && !op.Generate?
    ensures G.YearNumbers(Apply(s, op, now).docs, year) == G.YearNumbers(s.docs, year)
  {
    if op.ReserveSpecial? {
      SpecialLeavesYears(s.docs, Apply(s, op, now).docs, year);
    } else {
      G.StatusUpdatesConserve(s.docs, Apply(s, op, now).docs, year);
    }
  }

  lemma CitizenConserves(s: State, req: Request, ticket: Ticket, now: Time, pick: Option<DocId>, year: nat)
    requires G.Distinct(s.docs) && Enabled(s, ReserveCitizen(req, ticket, pick), now)
    ensures var before := G.YearNumbers(s.docs, year);
            var after := G.YearNumbers(G.ReserveCitizen(s.docs, req, ticket, now, pick).0, year);
            OneNumberChange(before, after) && before <= after
  {
    G.ReserveCitizenConserves(s.docs, req, ticket, now, pick, year);
    if !G.RetryHit(s.docs, req.doc, now) {
      G.ExpireKeepsNumbers(s.docs, req.doc, now, year);
      GainedIsNext(G.Expire(s.docs, req.doc, now), req.doc, year, pick);
    }
  }

  lemma GainedIsNext(docs: Docs, d: DocId, year: nat, pick: Option<DocId>)
    ensures var gained := G.Gained(docs, d, year, pick);
        gained == {} || gained == {G.Max(G.YearNumbers(docs, year)) + 1}
  {
  }

  lemma GenerateConserves(s: State, req: Request, now: Time, pick: Option<DocId>, year: nat)
    requires G.Distinct(s.docs) && Enabled(s, Generate(req, pick), now)
    ensures var before := G.YearNumbers(s.docs, year);
            var after := G.YearNumbers(G.Generate(s.docs, req, now, pick).0, year);
            OneNumberChange(before, after) && (Loses(s, Generate(req, pick), now, year) <==> !(before <= after))
  {
    G.GenerateConserves(s.docs, req, now, pick, year);
    if Loses(s, Generate(req, pick), now, year) {
      assert s.docs[pick.value].number in G.YearNumbers(s.docs, year);
    }
  }

  lemma GlobalReserveConserves(docs: Docs, req: Request, ticket: Ticket, now: Time, pick: Option<DocId>, year: nat)
    requires G.Distinct(docs) && G.ReserveEnabled(docs, req, now, pick) && !G.RetryHit(docs, req.doc, now)
    ensures var before := G.YearNumbers(docs, year);
            var after := G.YearNumbers(G.Reserve(docs, req, ticket, now, pick).0, year);
            OneNumberChange(before, after) && (ReserveLoses(docs, req, now, pick, year) <==> !(before <= after))
  {
    if year == req.lane.year {
      SameYearConserves(docs, req, ticket, now, pick);
    } else {
      OtherYearConserves(docs, req, ticket, now, pick, year);
    }
  }

  lemma SameYearConserves(docs: Docs, req: Request, ticket: Ticket, now: Time, pick: Option<DocId>)
    requires G.Distinct(docs) && G.ReserveEnabled(docs, req, now, pick) && !G.RetryHit(docs, req.doc, now)
    ensures var before := G.YearNumbers(docs, req.lane.year);
            var after := G.YearNumbers(G.Reserve(docs, req, ticket, now, pick).0, req.lane.year);
            OneNumberChange(before, after)
              && (ReserveLoses(docs, req, now, pick, req.lane.year) <==> !(before <= after))
  {
    var expired, y := G.Expire(docs, req.doc, now), req.lane.year;
    G.ReserveConserves(docs, req, ticket, now, pick);
    LostIsOneOf(docs, req, now, pick);
    Classify(G.YearNumbers(docs, y), G.YearNumbers(G.Reserve(docs, req, ticket, now, pick).0, y),
             G.Lost(expired, req.doc, y, pick), G.Gained(expired, req.doc, y, pick));
  }

  lemma OtherYearConserves(docs: Docs, req: Request, ticket: Ticket, now: Time, pick: Option<DocId>, year: nat)
    requires G.Distinct(docs) && G.ReserveEnabled(docs, req, now, pick) && !G.RetryHit(docs, req.doc, now)
    requires year != req.lane.year
    ensures var before := G.YearNumbers(docs, year);
            var after := G.YearNumbers(G.Reserve(docs, req, ticket, now, pick).0, year);
            OneNumberChange(before, after) && (ReserveLoses(docs, req, now, pick, year) <==> !(before <= after))
  {
    var own := G.OwnCancelled(G.Expire(docs, req.doc, now), req.doc, year);
    G.ReserveConservesOtherYears(docs, req, ticket, now, pick, year);
    G.ReserveNumbers(docs, req, ticket, now, pick, year);
    Classify(G.YearNumbers(docs, year), G.YearNumbers(G.Reserve(docs, req, ticket, now, pick).0, year), own, {});
  }

  lemma LostIsOneOf(docs: Docs, req: Request, now: Time, pick: Option<DocId>)
    requires G.Distinct(docs) && (pick.Some? ==> pick.value in docs)
    ensures var expired, y := G.Expire(docs, req.doc, now), req.lane.year;
            var lost, gained := G.Lost(expired, req.doc, y, pick), G.Gained(expired, req.doc, y, pick);
            |lost| <= 1 && (gained == {} || (gained == {G.Max(G.YearNumbers(docs, y)) + 1} && lost == {}))
  {
    G.ExpireKeepsNumbers(docs, req.doc, now, req.lane.year);
    LostIsOne(G.Expire(docs, req.doc, now), req.doc, req.lane.year, pick);
  }

  lemma LostIsOne(docs: Docs, d: DocId, year: nat, pick: Option<DocId>)
    requires pick.Some? ==> pick.value in docs
    ensures |G.Lost(docs, d, year, pick)| <= 1
    ensures var gained := G.Gained(docs, d, year, pick);
            gained == {} || (gained == {G.Max(G.YearNumbers(docs, year)) + 1} && G.Lost(docs, d, year, pick) == {})
  {
  }

  lemma Classify(before: set<nat>, after: set<nat>, lost: set<nat>, gained: set<nat>)
    requires lost <= before && |lost| <= 1
    requires gained == {} || (gained == {G.Max(before) + 1} && lost == {})
    requires after == before - lost + gained
    ensures OneNumberChange(before, after) && (lost != {} <==> !(before <= after))
  {
    if lost != {} {
      var n :| n in lost;
      OnlyOne(lost, n);
      assert n !in after && after == before - {n};
    } else {
      assert after == before + gained;
    }
  }

  lemma OnlyOne(s: set<nat>, n: nat)
    requires |s| <= 1 && n in s
    ensures s == {n}
  {
    assert |s - {n}| == 0;
  }

  /** {1..n} is kept by every run in which no step loses a number of the year. */
  lemma {:induction false} DenseWithoutLoss(states: seq<State>, events: seq<Event>, year: nat, i: nat)
    requires Run(states, events) && states[0] == Empty && i < |states|
    requires forall k | 0 <= k < i :: !Loses(states[k], events[k].op, events[k].now, year)
    ensures G.Dense(G.YearNumbers(states[i].docs, year))
  {
    if i > 0 {
      DenseWithoutLoss(states, events, year, i - 1);
      GlobalUniqueness(states, events, i - 1);
      StepConserves(states[i - 1], events[i - 1].op, events[i - 1].now, year);
      G.DenseGrows(G.YearNumbers(states[i - 1].docs, year));
    } else {
      assert G.YearNumbers(states[0].docs, year) == {};
    }
  }

  /** The number of the year that a step drops, if any. */
  ghost function Dropped(s: State, op: Op, now: Time, year: nat): set<nat>
    requires Enabled(s, op, now)
  {
    match op
    case ReserveGlobal(req, _, pick) =>
      var expired := G.Expire(s.docs, req.doc, now);
      if G.RetryHit(s.docs, req.doc, now) then {}
      else if year == req.lane.year then G.Lost(expired, req.doc, year, pick)
      else G.OwnCancelled(expired, req.doc, year)
    case Generate(req, pick) =>
      if pick.Some? && pick.value != req.doc && req.doc in s.docs
        && year == req.lane.year then {s.docs[pick.value].number} else {}
    case _ => {}
  }

  lemma LosesWhatItDrops(s: State, op: Op, now: Time, year: nat)
    requires G.Distinct(s.docs) && Enabled(s, op, now) && Loses(s, op, now, year)
    ensures G.YearNumbers(Apply(s, op, now).docs, year) == G.YearNumbers(s.docs, year) - Dropped(s, op, now, year)
    ensures Dropped(s, op, now, year) <= G.YearNumbers(s.docs, year)
  {
    match op
    case ReserveGlobal(req, ticket, pick) =>
      if year == req.lane.year {
        G.ReserveConserves(s.docs, req, ticket, now, pick);
        LostIsOne(G.Expire(s.docs, req.doc, now), req.doc, year, pick);
      } else {
        G.ReserveConservesOtherYears(s.docs, req, ticket, now, pick, year);
        G.ReserveNumbers(s.docs, req, ticket, now, pick, year);
      }
    case Generate(req, pick) =>
      G.GenerateConserves(s.docs, req, now, pick, year);
      assert s.docs[pick.value].number in G.YearNumbers(s.docs, year);
  }

  lemma DropsOne(s: State, op: Op, now: Time, year: nat)
    requires Enabled(s, op, now)
    ensures Loses(s, op, now, year) <==> Dropped(s, op, now, year) != {}
    ensures exists n :: Dropped(s, op, now, year) <= {n}
  {
    if op.ReserveGlobal? && year == op.req.lane.year && !G.RetryHit(s.docs, op.req.doc, now) {
      LostIsOne(G.Expire(s.docs, op.req.doc, now), op.req.doc, year, op.pick);
    }
    if n :| n in Dropped(s, op, now, year) {
      assert Dropped(s, op, now, year) <= {n};
    } else {
      assert Dropped(s, op, now, year) <= {0};
    }
  }

  /** A year without gaps stays without gaps if and only if the step drops none of its numbers but the last. */
  lemma DenseExactly(s: State, op: Op, now: Time, year: nat)
    requires G.Distinct(s.docs) && Enabled(s, op, now) && G.Dense(G.YearNumbers(s.docs, year))
    ensures G.Dense(G.YearNumbers(Apply(s, op, now).docs, year))
       <==> Dropped(s, op, now, year) <= {|G.YearNumbers(s.docs, year)|}
  {
    StepConserves(s, op, now, year);
    DropsOne(s, op, now, year);
    if Loses(s, op, now, year) {
      LosesWhatItDrops(s, op, now, year);
    }
    DenseChange(G.YearNumbers(s.docs, year), G.YearNumbers(Apply(s, op, now).docs, year), Dropped(s, op, now, year));
  }

  lemma DenseChange(before: set<nat>, after: set<nat>, dropped: set<nat>)
    requires G.Dense(before) && OneNumberChange(before, after) && (dropped != {} <==> !(before <= after))
    requires dropped != {} ==> after == before - dropped && dropped <= before && exists n :: dropped <= {n}
    ensures G.Dense(after) <==> dropped <= {|before|}
  {
    if dropped != {} {
      var n :| dropped <= {n};
      assert dropped == {n};
      G.DenseWithout(before, n);
    } else {
      G.DenseGrows(before);
    }
  }

  // --- The SPECIAL lane without batches ---

  predicate BatchFree(op: Op) {
    op.ReserveSpecial? ==> op.req.batch == None
  }

  ghost predicate LaneInvariant(s: State) {
    S.PointerExact(s.docs, s.counters) && S.NoBatches(s.docs, s.counters)
  }

  lemma GlobalKeepsLanes(s: State, docs': Docs, d: DocId)
    requires LaneInvariant(s) && RegimeFixed(s.docs, d, Global)
    requires forall e | e in s.docs && e != d && s.docs[e].status != Cancelled :: e in docs' && docs'[e] == s.docs[e]
    requires forall e | e in docs' && e != d :: e in s.docs && docs'[e] == s.docs[e]
    requires d in docs' ==> docs'[d].regime == Global && docs'[d].batch == None
    ensures LaneInvariant(s.(docs := docs'))
  {
    forall lane | lane in s.counters && s.counters[lane].active.Some?
      ensures s.counters[lane].active.value in docs' && OnLane(docs'[s.counters[lane].active.value], lane)
        && docs'[s.counters[lane].active.value].status == Reserved
    {
      var a := s.counters[lane].active.value;
      assert OnLane(s.docs[a], lane) && s.docs[a].status == Reserved;
      assert a != d;
    }
  }

  lemma StepKeepsLanes(s: State, op: Op, now: Time)
    requires LaneInvariant(s) && Enabled(s, op, now) && BatchFree(op)
    ensures LaneInvariant(Apply(s, op, now))
  {
    var docs' := Apply(s, op, now).docs;
    match op
    case ReserveGlobal(req, ticket, pick) => GlobalKeepsLanes(s, docs', req.doc);
    case ReserveCitizen(req, ticket, pick) => GlobalKeepsLanes(s, docs', req.doc);
    case Generate(req, pick) => GlobalKeepsLanes(s, docs', req.doc);
    case ReserveSpecial(req, ticket, pick) => S.ReserveKeepsPointer(s.docs, s.counters, req, ticket, now, pick);
    case Confirm(d, t) =>
      if CanConfirm(s.docs, d, t) { S.ReleaseKeepsPointer(s.docs, s.counters, d, Confirming, now); }
    case Finalize(d, t) =>
      if CanFinalize(s.docs, d, t) { S.ReleaseKeepsPointer(s.docs, s.counters, d, Confirmed, now);
        FinalizeNeedsNoRelease(s, d, t, now); }
    case Cancel(d, t, scope) =>
      if CanCancel(s.docs, d, t, scope) { S.ReleaseKeepsPointer(s.docs, s.counters, d, Cancelled, now); }
    case Reject(d) =>
      if CanCancel(s.docs, d, None, OnlyReserved) { S.ReleaseKeepsPointer(s.docs, s.counters, d, Cancelled, now); }
  }

  lemma FinalizeNeedsNoRelease(s: State, d: DocId, t: Ticket, now: Time)
    requires LaneInvariant(s) && CanFinalize(s.docs, d, t)
    ensures S.ReleaseIfSpecial(WithStatus(s.docs, d, Confirmed, now), s.counters, d) == s.counters
  {
    if d in s.docs && s.docs[d].lane in s.counters {
      assert s.counters[s.docs[d].lane].active != Some(d);
    }
  }

  /** In every run without batches: at most one row of a lane is RESERVED, its active reservation is that row or
      NULL, and a reservation is refused as busy exactly when another document holds the lane. */
  lemma {:induction false} LaneExclusivity(states: seq<State>, events: seq<Event>, i: nat)
    requires Run(states, events) && states[0] == Empty && i < |states|
    requires forall k | 0 <= k < |events| :: BatchFree(events[k].op)
    ensures LaneInvariant(states[i])
    ensures forall lane, d, e | d in states[i].docs && e in states[i].docs && OnLane(states[i].docs[d], lane)
              && OnLane(states[i].docs[e], lane) && states[i].docs[d].status == Reserved
              && states[i].docs[e].status == Reserved
              :: d == e
    ensures i < |events| && events[i].op.ReserveSpecial? ==>
              var op := events[i].op;
              (S.Reserve(states[i].docs, states[i].counters, op.req, op.ticket, events[i].now, op.pick).2 == LaneBusy
               <==> exists e | e in states[i].docs ::
                      e != op.req.doc && OnLane(states[i].docs[e], op.req.lane) && states[i].docs[e].status == Reserved)
  {
    if i > 0 {
      LaneExclusivity(states, events, i - 1);
      StepKeepsLanes(states[i - 1], events[i - 1].op, events[i - 1].now);
    }
    var s := states[i];
    forall lane, d, e | d in s.docs && e in s.docs && OnLane(s.docs[d], lane)
              && OnLane(s.docs[e], lane) && s.docs[d].status == Reserved && s.docs[e].status == Reserved
      ensures d == e
    {
      S.OneReservedPerLane(s.docs, s.counters, lane, d, e);
    }
    if i < |events| && events[i].op.ReserveSpecial? {
      var op := events[i].op;
      S.BusyExactly(s.docs, s.counters, op.req, op.ticket, events[i].now, op.pick);
    }
  }
}
