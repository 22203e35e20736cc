/** Three runs in which a SPECIAL lane shared by batch 5 of user 7 loses its exclusivity: a confirm leaves the pointer
    on a row that is no longer RESERVED, a rejection clears it beside a live sibling, and a document that moved to
    another lane still stands for its old one. */
module BatchedLane {
  import opened Wrappers
  import opened OfficialRows
  import S = SpecialLane
  import opened NumberingRuns
  import opened SharedLane

  const LANE := Lane(0, 2026, 0)
  const OTHER_LANE := Lane(0, 2026, 1)
  const PARTS := NumberParts("DECRE", "LUJAN", "DG")
  const FIRST := ReserveSpecial(Request(1, LANE, PARTS, Some(7), Some(5)), 11, None)
  const SECOND := ReserveSpecial(Request(2, LANE, PARTS, Some(7), Some(5)), 12, None)
  const STRANGER := ReserveSpecial(Request(3, LANE, PARTS, Some(8), None), 13, None)

  const ROW1: Row := Row(LANE, PARTS, Special, 1, Reserved, Ticketed(11, 0), Some(7), Some(5), 0)
  const ROW2: Row := Row(LANE, PARTS, Special, 2, Reserved, Ticketed(12, 0), Some(7), Some(5), 0)
  const ROW3: Row := Row(LANE, PARTS, Special, 3, Reserved, Ticketed(13, 0), Some(8), None, 0)

  const S1 := State(map[1 := ROW1], map[LANE := Counter(1, Some(1), Some(5))], {11})
  const S2 := State(map[1 := ROW1, 2 := ROW2], map[LANE := Counter(2, Some(2), Some(5))], {11, 12})

  /** The step from s leaves RESERVED rows of two batches or users on the lane. */
  ghost predicate BreaksLane(s: State, op: Op) {
    && Reachable(s) && Enabled(s, op, 0) && LaneShared(s.docs, LANE)
    && var docs' := Apply(s, op, 0).docs;
       ReservedOn(docs', 1, LANE) && ReservedOn(docs', 3, LANE) && !Shares(docs'[1], docs'[3].batch, docs'[3].holder)
  }

  lemma FirstStep()
    ensures Enabled(Empty, FIRST, 0) && Apply(Empty, FIRST, 0) == S1
  {
    assert S.NextNumber(Empty.docs, Counter(0, None, None), None) == 1;
  }

  lemma SecondStep()
    ensures Enabled(S1, SECOND, 0) && Apply(S1, SECOND, 0) == S2
  {
    assert !S.Busy(S1.docs, S1.counters[LANE], SECOND.req);
    assert RemovePick(S1.docs, None) == S1.docs;
  }

  lemma SiblingsReserve()
    ensures Reachable(S2)
  {
    EmptyIsReachable();
    FirstStep();
    Then(Empty, FIRST, 0, S1);
    SecondStep();
    Then(S1, SECOND, 0, S2);
  }

  // --- Document 2 is confirmed ---

  const S3 := S2.(docs := map[1 := ROW1, 2 := ROW2.(status := Confirming)])
  const S4 := State(S3.docs[3 := ROW3], map[LANE := Counter(3, Some(3), None)], {11, 12, 13})

  lemma ConfirmStep()
    ensures Enabled(S2, Confirm(2, 12), 0) && Apply(S2, Confirm(2, 12), 0) == S3
  {
    assert S.HasLiveSibling(S3.docs, 2, 5) by {
      assert S3.docs[1].batch == Some(5);
    }
    assert OfficialRows.Confirm(S2.docs, 2, 12, 0) == S3.docs;
  }

  lemma StrangerStep()
    ensures Enabled(S3, STRANGER, 0) && Apply(S3, STRANGER, 0) == S4
  {
    assert !S.Occupied(S3.docs, S3.counters[LANE]);
    assert RemovePick(S3.docs, None) == S3.docs;
  }

  lemma BatchBreaksExclusivity() returns (s: State)
    ensures BreaksLane(s, STRANGER) && S.CounterOf(s.counters, LANE).active == Some(2) && CanFinalize(s.docs, 2, 12)
  {
    s := S3;
    SiblingsReserve();
    ConfirmStep();
    Then(S2, Confirm(2, 12), 0, S3);
    StrangerStep();
  }

  // --- Document 2 is rejected; the stranger recycles its number ---

  const AGAIN := ReserveSpecial(STRANGER.req, 13, Some(2))
  const R3 := State(map[1 := ROW1, 2 := ROW2.(status := Cancelled)], map[LANE := Counter(2, None, Some(5))], {11, 12})
  const R4 := State(map[1 := ROW1, 3 := ROW3.(number := 2)], map[LANE := Counter(2, Some(3), None)], {11, 12, 13})

  lemma RejectStep()
    ensures Enabled(S2, Reject(2), 0) && Apply(S2, Reject(2), 0) == R3
  {
    assert WithStatus(S2.docs, 2, Cancelled, 0) == R3.docs;
  }

  lemma AgainStep()
    ensures Enabled(R3, AGAIN, 0) && Apply(R3, AGAIN, 0) == R4
  {
    assert RemovePick(R3.docs, Some(2)) == map[1 := ROW1];
  }

  lemma RejectionBreaksExclusivity() returns (s: State)
    ensures BreaksLane(s, AGAIN) && S.CounterOf(s.counters, LANE).active == None
  {
    s := R3;
    SiblingsReserve();
    RejectStep();
    Then(S2, Reject(2), 0, R3);
    AgainStep();
  }

  // --- Document 2 is cancelled and reserved by user 8 on another lane ---

  const MOVED := ReserveSpecial(Request(2, OTHER_LANE, PARTS, Some(8), None), 14, None)
  const NAMESAKE := ReserveSpecial(Request(3, LANE, PARTS, Some(8), Some(5)), 13, None)
  const ROW2_MOVED: Row := Row(OTHER_LANE, PARTS, Special, 1, Reserved, Ticketed(14, 0), Some(8), None, 0)
  const F3 := State(map[1 := ROW1, 2 := ROW2.(status := Cancelled)], S2.counters, {11, 12})
  const F4 := State(map[1 := ROW1, 2 := ROW2_MOVED],
                    map[LANE := Counter(2, Some(2), Some(5)), OTHER_LANE := Counter(1, Some(2), None)], {11, 12, 14})
  const F5 := State(map[1 := ROW1, 2 := ROW2_MOVED, 3 := ROW3.(batch := Some(5))],
                    map[LANE := Counter(3, Some(3), Some(5)), OTHER_LANE := Counter(1, Some(2), None)],
                      {11, 12, 13, 14})

  lemma CancelStep()
    ensures Enabled(S2, Cancel(2, None, OnlyReserved), 0) && Apply(S2, Cancel(2, None, OnlyReserved), 0) == F3
  {
    assert S.HasLiveSibling(F3.docs, 2, 5) by {
      assert F3.docs[1].batch == Some(5);
    }
    assert OfficialRows.Cancel(S2.docs, 2, None, OnlyReserved, 0) == F3.docs;
  }

  lemma MoveStep()
    ensures Enabled(F3, MOVED, 0) && Apply(F3, MOVED, 0) == F4
  {
    assert RemovePick(F3.docs, None) == F3.docs;
    assert DropOwnCancelled(F3.docs, 2) == map[1 := ROW1];
  }

  lemma NamesakeStep()
    ensures Enabled(F4, NAMESAKE, 0) && Apply(F4, NAMESAKE, 0) == F5
  {
    assert !S.Busy(F4.docs, F4.counters[LANE], NAMESAKE.req);
    assert RemovePick(F4.docs, None) == F4.docs;
  }

  /** The pointer of the lane names a RESERVED row, but one of another lane and user. */
  lemma MovedDocumentBreaksExclusivity() returns (s: State)
    ensures BreaksLane(s, NAMESAKE) && S.Occupied(s.docs, S.CounterOf(s.counters, LANE))
  {
    s := F4;
    SiblingsReserve();
    CancelStep();
    Then(S2, Cancel(2, None, OnlyReserved), 0, F3);
    MoveStep();
    Then(F3, MOVED, 0, F4);
    NamesakeStep();
  }
}
