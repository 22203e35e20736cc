/** One reachable state from which a reservation leaves a gap in the year, and a number born CONFIRMED is answered with
    a CANCELLED row. Documents 1, 2 and 3 hold the numbers 1, 2 and 3; the first two are cancelled; document 2 comes
    back, and row 1, the oldest, is recycled for it. */
module LostNumber {
  import opened Wrappers
  import opened OfficialRows
  import G = GlobalNumbering
  import opened NumberingRuns

  const LANE := Lane(0, 2026, 0)
  const PARTS := NumberParts("IF", "LUJAN", "DG")

  function Req(d: DocId): Request {
    Request(d, LANE, PARTS, Some(7), None)
  }

  /** Document d reserves number d under ticket d at time d. */
  function RowOf(d: DocId): Row {
    G.ReservedRow(Req(d), d, d, d)
  }

  function Gone(d: DocId): Row {
    RowOf(d).(status := Cancelled, updatedAt := 5)
  }

  const S1 := State(map[1 := RowOf(1)], map[], {1})
  const S2 := State(map[1 := RowOf(1), 2 := RowOf(2)], map[], {1, 2})
  const S3 := State(map[1 := RowOf(1), 2 := RowOf(2), 3 := RowOf(3)], map[], {1, 2, 3})
  const S4 := S3.(docs := map[1 := Gone(1), 2 := RowOf(2), 3 := RowOf(3)])
  const S5 := S3.(docs := map[1 := Gone(1), 2 := Gone(2), 3 := RowOf(3)])

  lemma Reserves(s: State, d: DocId, s': State)
    requires d !in s.docs && d !in s.issued && (forall e | e in s.docs :: !G.Recyclable(s.docs[e], 2026))
    requires G.Max(G.LiveNumbers(s.docs, 2026)) + 1 == d
    requires s' == State(s.docs[d := RowOf(d)], s.counters, s.issued + {d})
    ensures Enabled(s, ReserveGlobal(Req(d), d, None), d) && Apply(s, ReserveGlobal(Req(d), d, None), d) == s'
  {
    assert RemovePick(s.docs, None) == s.docs;
  }

  lemma FirstReserves()
    ensures Reachable(S1)
  {
    EmptyIsReachable();
    assert G.LiveNumbers(map[], 2026) == {};
    Reserves(Empty, 1, S1);
    Then(Empty, ReserveGlobal(Req(1), 1, None), 1, S1);
  }

  lemma SecondReserves()
    ensures Reachable(S2)
  {
    FirstReserves();
    assert S1.docs[1].number in G.LiveNumbers(S1.docs, 2026);
    Reserves(S1, 2, S2);
    Then(S1, ReserveGlobal(Req(2), 2, None), 2, S2);
  }

  lemma ThirdReserves()
    ensures Reachable(S3)
  {
    SecondReserves();
    assert S2.docs[2].number in G.LiveNumbers(S2.docs, 2026);
    Reserves(S2, 3, S3);
    Then(S2, ReserveGlobal(Req(3), 3, None), 3, S3);
  }

  lemma TwoCancelled()
    ensures Reachable(S5)
  {
    ThirdReserves();
    assert Apply(S3, Cancel(1, Some(1), OnlyReserved), 5) == S4;
    Then(S3, Cancel(1, Some(1), OnlyReserved), 5, S4);
    assert Apply(S4, Cancel(2, Some(2), OnlyReserved), 5) == S5;
    Then(S4, Cancel(2, Some(2), OnlyReserved), 5, S5);
  }

  lemma NumbersOfS5()
    ensures G.YearNumbers(S5.docs, 2026) == {1, 2, 3}
  {
    assert S5.docs[1].number == 1 && S5.docs[2].number == 2 && S5.docs[3].number == 3;
    forall n | n in {1, 2, 3}
      ensures n in G.YearNumbers(S5.docs, 2026)
    {
      assert InYear(S5.docs[n], 2026);
    }
  }

  const RETURN := ReserveGlobal(Req(2), 9, Some(1))

  lemma TableAfterReturn()
    ensures Enabled(S5, RETURN, 6)
        && Apply(S5, RETURN, 6).docs == map[2 := G.ReservedRow(Req(2), 1, 9, 6), 3 := RowOf(3)]
  {
    assert G.Expire(S5.docs, 2, 6) == S5.docs;
    assert RemovePick(S5.docs, Some(1)) == map[2 := Gone(2), 3 := RowOf(3)];
    assert DropOwnCancelled(RemovePick(S5.docs, Some(1)), 2) == map[3 := RowOf(3)];
  }

  /** The year goes from {1, 2, 3} to {1, 3}. */
  lemma ReservationLeavesAGap() returns (s: State)
    ensures Reachable(s) && Enabled(s, RETURN, 6)
    ensures G.YearNumbers(s.docs, 2026) == {1, 2, 3} && G.YearNumbers(Apply(s, RETURN, 6).docs, 2026) == {1, 3}
  {
    s := S5;
    TwoCancelled();
    NumbersOfS5();
    TableAfterReturn();
    var docs' := Apply(S5, RETURN, 6).docs;
    forall n | n in {1, 3}
      ensures n in G.YearNumbers(docs', 2026)
    {
      assert InYear(docs'[if n == 1 then 2 else 3], 2026);
    }
  }

  /** The number handed out belongs to a CANCELLED row, free for the next reservation to take. */
  lemma GenerateAnswersCancelled() returns (s: State, row: Row)
    ensures Reachable(s) && Enabled(s, Generate(Req(2), Some(1)), 6)
    ensures G.Generate(s.docs, Req(2), 6, Some(1)).1 == Issued(row) && row.status == Cancelled
    ensures var docs' := Apply(s, Generate(Req(2), Some(1)), 6).docs;
        2 in docs' && docs'[2] == row && G.Recyclable(row, 2026)
  {
    s, row := S5, Gone(2);
    TwoCancelled();
  }
}
