/** The GLOBAL regime: one sequence per tenant and year. Each function is one transaction;
    `pick` is the cancelled row the recycling query returned. */
module GlobalNumbering {
  import opened Wrappers
  import opened OfficialRows

  /** GLOBAL_NUMBERING_TIMEOUT_MIN, in seconds. */
  const GLOBAL_TIMEOUT: Time := 4 * 60

  // --- Choosing the next number ---

  predicate Recyclable(row: Row, year: nat) {
    row.status == Cancelled && InYear(row, year)
  }

  /** FOR UPDATE SKIP LOCKED: an oldest cancelled row of the year among those other transactions do not hold. */
  ghost predicate Answers(docs: Docs, held: set<DocId>, year: nat, pick: Option<DocId>) {
    match pick
    case Some(r) =>
      && r in docs && Recyclable(docs[r], year) && r !in held
      && forall e | e in docs && Recyclable(docs[e], year) && e !in held :: Older(docs[r], docs[e])
    case None =>
      forall e | e in docs && Recyclable(docs[e], year) :: e in held
  }

  predicate Pickable(docs: Docs, year: nat, pick: Option<DocId>) {
    pick.Some? ==> pick.value in docs && Recyclable(docs[pick.value], year)
  }

  /** An answer that finds a cancelled row whenever there is one. */
  ghost predicate ValidPick(docs: Docs, year: nat, pick: Option<DocId>) {
    Pickable(docs, year, pick) && (pick.None? ==> forall e | e in docs :: !Recyclable(docs[e], year))
  }

  /** Depending on what others hold, the query may answer any cancelled row of the year, or none; it overlooks them
      only when all are held. */
  lemma PicksAreAnswers(docs: Docs, year: nat, pick: Option<DocId>)
    ensures Pickable(docs, year, pick) <==> exists held :: Answers(docs, held, year, pick)
    ensures forall held | Answers(docs, held, year, pick) ::
              ValidPick(docs, year, pick) || (pick.None? && forall e | e in docs && Recyclable(docs[e], year) ::
                e in held)
  {
    if Pickable(docs, year, pick) {
      assert Answers(docs, docs.Keys - Picked(pick), year, pick);
    }
  }

  /** The numbers of a year, over rows of every status. */
  ghost function YearNumbers(docs: Docs, year: nat): set<nat> {
    set d | d in docs && InYear(docs[d], year) :: docs[d].number
  }

  ghost function LiveNumbers(docs: Docs, year: nat): set<nat> {
    set d | d in docs && InYear(docs[d], year) && docs[d].status != Cancelled :: docs[d].number
  }

  ghost function Max(s: set<nat>): (m: nat)
    ensures forall x | x in s :: x <= m
    ensures s == {} ==> m == 0
    ensures s != {} ==> m in s
  {
    if s == {} then 0
    else
      var x :| x in s;
      var rest := Max(s - {x});
      assert s == (s - {x}) + {x};
      if x > rest then x else rest
  }

  ghost function NextNumber(docs: Docs, year: nat, pick: Option<DocId>): nat
    requires Pickable(docs, year, pick)
  {
    if pick.Some? then docs[pick.value].number else Max(LiveNumbers(docs, year)) + 1
  }

  // --- The three reserving transactions ---

  predicate RetryHit(docs: Docs, d: DocId, now: Time) {
    d in docs && docs[d].status == Reserved && now - docs[d].origin.reservedAt < GLOBAL_TIMEOUT
  }

  /** An expired reservation of the same document is cancelled before a number is chosen. */
  function Expire(docs: Docs, d: DocId, now: Time): Docs {
    if d in docs && docs[d].status == Reserved then WithStatus(docs, d, Cancelled, now) else docs
  }

  function ReservedRow(req: Request, n: nat, ticket: Ticket, now: Time): Row {
    Row(req.lane, req.parts, Global, n, Reserved, Ticketed(ticket, now), req.user, None, now)
  }

  function DirectRow(req: Request, n: nat, now: Time): Row {
    Row(req.lane, req.parts, Global, n, Confirmed, Direct, req.user, None, now)
  }

  ghost predicate ReserveEnabled(docs: Docs, req: Request, now: Time, pick: Option<DocId>) {
    RetryHit(docs, req.doc, now) || ValidPick(Expire(docs, req.doc, now), req.lane.year, pick)
  }

  predicate ReserveAnswered(docs: Docs, req: Request, now: Time, pick: Option<DocId>) {
    RetryHit(docs, req.doc, now) || Pickable(Expire(docs, req.doc, now), req.lane.year, pick)
  }

  /** `reserve_number` for a GLOBAL type. */
  ghost function Reserve(docs: Docs, req: Request, ticket: Ticket, now: Time, pick: Option<DocId>): (Docs, Outcome)
    requires ReserveAnswered(docs, req, now, pick)
  {
    if RetryHit(docs, req.doc, now) then
      (docs, Issued(docs[req.doc]))
    else
      var expired := Expire(docs, req.doc, now);
      var row := ReservedRow(req, NextNumber(expired, req.lane.year, pick), ticket, now);
      var cleared := DropOwnCancelled(RemovePick(expired, pick), req.doc);
      if req.doc in cleared then (cleared, Issued(cleared[req.doc]))
      else (cleared[req.doc := row], Issued(row))
  }

  /** `reserve_citizen_number`: the requester's own cancelled row is not deleted, and a
      primary-key conflict rolls the whole transaction back. */
  ghost function ReserveCitizen(docs: Docs, req: Request, ticket: Ticket, now: Time, pick: Option<DocId>): (Docs,
      Outcome)
    requires ReserveAnswered(docs, req, now, pick)
  {
    if RetryHit(docs, req.doc, now) then
      (docs, Issued(docs[req.doc]))
    else
      var expired := Expire(docs, req.doc, now);
      var row := ReservedRow(req, NextNumber(expired, req.lane.year, pick), ticket, now);
      var left := RemovePick(expired, pick);
      if req.doc in left then (docs, Refused)
      else (left[req.doc := row], Issued(row))
  }

  /** `_generate_confirmed_number`: the row is born CONFIRMED. */
  ghost function Generate(docs: Docs, req: Request, now: Time, pick: Option<DocId>): (Docs, Outcome)
    requires Pickable(docs, req.lane.year, pick)
  {
    var row := DirectRow(req, NextNumber(docs, req.lane.year, pick), now);
    var left := RemovePick(docs, pick);
    if req.doc in left then (left, Issued(left[req.doc]))
    else (left[req.doc := row], Issued(row))
  }

  // --- Uniqueness ---

  ghost predicate Distinct(docs: Docs) {
    forall d, e | d in docs && e in docs && d != e && docs[d].regime == Global && docs[e].regime == Global
      :: docs[d].lane.year == docs[e].lane.year ==> docs[d].number != docs[e].number
  }

  /** A pick's number is free once the picked row is gone. */
  lemma NextNumberIsFree(docs: Docs, year: nat, pick: Option<DocId>)
    requires Distinct(docs) && ValidPick(docs, year, pick)
    ensures NextNumber(docs, year, pick) !in YearNumbers(RemovePick(docs, pick), year)
    ensures pick.None? ==> NextNumber(docs, year, pick) == Max(YearNumbers(docs, year)) + 1
  {
    if pick.None? {
      assert LiveNumbers(docs, year) == YearNumbers(docs, year);
      assert RemovePick(docs, pick) == docs;
    }
  }

  lemma InsertKeepsDistinct(docs: Docs, d: DocId, row: Row)
    requires Distinct(docs) && d !in docs
    requires row.regime == Global ==> row.number !in YearNumbers(docs, row.lane.year)
    ensures Distinct(docs[d := row])
  {
    forall e | e in docs && docs[e].regime == Global && row.regime == Global && docs[e].lane.year == row.lane.year
      ensures docs[e].number != row.number
    {
      assert InYear(docs[e], row.lane.year);
      assert docs[e].number in YearNumbers(docs, row.lane.year);
    }
  }

  /** After the picked row and possibly more rows are gone, its number can be inserted. */
  lemma RecycleKeepsDistinct(docs: Docs, left: Docs, d: DocId, row: Row, pick: Option<DocId>)
    requires Distinct(docs) && ValidPick(docs, row.lane.year, pick)
    requires row.regime == Global && row.number == NextNumber(docs, row.lane.year, pick)
    requires forall e | e in left :: e in RemovePick(docs, pick) && left[e] == docs[e]
    ensures Distinct(left)
    ensures d !in left ==> Distinct(left[d := row])
  {
    NextNumberIsFree(docs, row.lane.year, pick);
    var gone := RemovePick(docs, pick);
    forall e | e in left && InYear(left[e], row.lane.year)
      ensures left[e].number != row.number
    {
      assert gone[e] == left[e];
      assert left[e].number in YearNumbers(gone, row.lane.year);
    }
    if d !in left {
      InsertKeepsDistinct(left, d, row);
    }
  }

  lemma ReserveKeepsDistinct(docs: Docs, req: Request, ticket: Ticket, now: Time, pick: Option<DocId>)
    requires Distinct(docs) && ReserveEnabled(docs, req, now, pick)
    ensures Distinct(Reserve(docs, req, ticket, now, pick).0)
    ensures Distinct(ReserveCitizen(docs, req, ticket, now, pick).0)
  {
    if !RetryHit(docs, req.doc, now) {
      var expired := Expire(docs, req.doc, now);
      assert Distinct(expired);
      var row := ReservedRow(req, NextNumber(expired, req.lane.year, pick), ticket, now);
      var left := RemovePick(expired, pick);
      RecycleKeepsDistinct(expired, left, req.doc, row, pick);
      RecycleKeepsDistinct(expired, DropOwnCancelled(left, req.doc), req.doc, row, pick);
    }
  }

  lemma GenerateKeepsDistinct(docs: Docs, req: Request, now: Time, pick: Option<DocId>)
    requires Distinct(docs) && ValidPick(docs, req.lane.year, pick)
    ensures Distinct(Generate(docs, req, now, pick).0)
  {
    var row := DirectRow(req, NextNumber(docs, req.lane.year, pick), now);
    RecycleKeepsDistinct(docs, RemovePick(docs, pick), req.doc, row, pick);
  }

  // --- Conservation ---

  /** The number a reservation of document d in `year` loses, given the table after expiry:
      it recycled another row while d already owned one. */
  function Lost(docs: Docs, d: DocId, year: nat, pick: Option<DocId>): set<nat>
    requires pick.Some? ==> pick.value in docs
  {
    if pick.None? || pick.value == d || d !in docs then {}
    else if docs[d].status != Cancelled then {docs[pick.value].number}
    else if InYear(docs[d], year) then {docs[d].number}
    else {}
  }

  ghost function Gained(docs: Docs, d: DocId, year: nat, pick: Option<DocId>): set<nat> {
    if pick.None? && (d in docs ==> docs[d].status == Cancelled) then {Max(YearNumbers(docs, year)) + 1} else {}
  }

  /** What YearNumbers becomes when rows leave the table. */
  lemma YearNumbersAfterRemoval(docs: Docs, gone: set<DocId>, year: nat)
    requires Distinct(docs)
    ensures YearNumbers(docs - gone, year)
         == YearNumbers(docs, year) - set d | d in gone && d in docs && InYear(docs[d], year) :: docs[d].number
  {
    var lost := set d | d in gone && d in docs && InYear(docs[d], year) :: docs[d].number;
    forall n | n in YearNumbers(docs, year) && n !in lost
      ensures n in YearNumbers(docs - gone, year)
    {
      var d :| d in docs && InYear(docs[d], year) && docs[d].number == n;
      assert d !in gone;
      assert (docs - gone)[d] == docs[d];
    }
    forall n | n in YearNumbers(docs - gone, year)
      ensures n in YearNumbers(docs, year) && n !in lost
    {
      var d :| d in docs - gone && InYear(docs[d], year) && docs[d].number == n;
      assert docs[d].number in YearNumbers(docs, year);
    }
  }

  lemma YearNumbersAfterInsert(docs: Docs, d: DocId, row: Row, year: nat)
    requires d !in docs
    ensures YearNumbers(docs[d := row], year)
        == YearNumbers(docs, year) + (if InYear(row, year) then {row.number} else {})
  {
    var docs' := docs[d := row];
    forall n | n in YearNumbers(docs, year)
      ensures n in YearNumbers(docs', year)
    {
      var e :| e in docs && InYear(docs[e], year) && docs[e].number == n;
      assert docs'[e] == docs[e];
    }
    if InYear(row, year) {
      assert docs'[d] == row;
    }
  }

  /** A reservation leaves the requested year's numbers as they were, adds exactly the next one, or
      loses exactly one, which it does only by recycling another row while the document owned a row. */
  lemma ReserveConserves(docs: Docs, req: Request, ticket: Ticket, now: Time, pick: Option<DocId>)
    requires Distinct(docs) && ReserveEnabled(docs, req, now, pick) && !RetryHit(docs, req.doc, now)
    ensures var y := req.lane.year;
            var before := YearNumbers(docs, y);
            var after := YearNumbers(Reserve(docs, req, ticket, now, pick).0, y);
            var expired := Expire(docs, req.doc, now);
            var lost, gained := Lost(expired, req.doc, y, pick), Gained(expired, req.doc, y, pick);
            lost <= before && gained !! before && after == before - lost + gained
  {
    ExpireKeepsNumbers(docs, req.doc, now, req.lane.year);
    ReserveNumbers(docs, req, ticket, now, pick, req.lane.year);
    NetChange(Expire(docs, req.doc, now), req.doc, req.lane.year, pick);
  }

  /** Taking out the picked and the document's own cancelled number and putting in the next one, told apart by what
      stays lost. */
  lemma NetChange(docs: Docs, d: DocId, y: nat, pick: Option<DocId>)
    requires Distinct(docs) && ValidPick(docs, y, pick)
    ensures NetIs(docs, d, y, pick)
  {
    if pick.Some? {
      NetRecycling(docs, d, y, pick);
    } else {
      NetFresh(docs, d, y);
    }
  }

  ghost predicate NetIs(docs: Docs, d: DocId, y: nat, pick: Option<DocId>)
    requires Pickable(docs, y, pick)
  {
    var before, cleared := YearNumbers(docs, y), DropOwnCancelled(RemovePick(docs, pick), d);
    && before - PickedNumber(docs, pick, y) - OwnCancelled(docs, d, y)
       + (if d in cleared then {} else {NextNumber(docs, y, pick)})
       == before - Lost(docs, d, y, pick) + Gained(docs, d, y, pick)
    && Lost(docs, d, y, pick) <= before && Gained(docs, d, y, pick) !! before
  }

  /** A recycled number comes back, unless a live row of the document keeps it out. */
  lemma NetRecycling(docs: Docs, d: DocId, y: nat, pick: Option<DocId>)
    requires Distinct(docs) && ValidPick(docs, y, pick) && pick.Some?
    ensures NetIs(docs, d, y, pick)
  {
    var before, n := YearNumbers(docs, y), docs[pick.value].number;
    assert n in before && PickedNumber(docs, pick, y) == {n};
    if d in docs && InYear(docs[d], y) {
      assert docs[d].number in before;
      assert pick.value != d ==> docs[d].number != n;
    }
  }

  /** Without one the document has no cancelled row of the year, and the next number is new to it. */
  lemma NetFresh(docs: Docs, d: DocId, y: nat)
    requires Distinct(docs) && ValidPick(docs, y, None)
    ensures NetIs(docs, d, y, None)
  {
    NextNumberIsFree(docs, y, None);
    assert d in docs ==> !Recyclable(docs[d], y);
  }

  /** Any other year can only lose the requester's own cancelled number. */
  lemma ReserveConservesOtherYears(docs: Docs, req: Request, ticket: Ticket, now: Time, pick: Option<DocId>, year: nat)
    requires Distinct(docs) && ReserveEnabled(docs, req, now, pick) && !RetryHit(docs, req.doc, now)
    requires year != req.lane.year
    ensures YearNumbers(Reserve(docs, req, ticket, now, pick).0, year)
         == YearNumbers(docs, year) - OwnCancelled(Expire(docs, req.doc, now), req.doc, year)
  {
    ReserveNumbers(docs, req, ticket, now, pick, year);
  }

  ghost function ClearedBy(docs: Docs, req: Request, now: Time, pick: Option<DocId>): Docs {
    DropOwnCancelled(RemovePick(Expire(docs, req.doc, now), pick), req.doc)
  }

  lemma ReserveNumbers(docs: Docs, req: Request, ticket: Ticket, now: Time, pick: Option<DocId>, year: nat)
    requires Distinct(docs) && ReserveEnabled(docs, req, now, pick) && !RetryHit(docs, req.doc, now)
    ensures YearNumbers(Reserve(docs, req, ticket, now, pick).0, year)
         == YearNumbers(docs, year)
            - PickedNumber(Expire(docs, req.doc, now), pick, year)
            - OwnCancelled(Expire(docs, req.doc, now), req.doc, year)
            + (if req.doc in ClearedBy(docs, req, now, pick) || year != req.lane.year then {}
               else {NextNumber(Expire(docs, req.doc, now), req.lane.year, pick)})
    ensures PickedNumber(Expire(docs, req.doc, now), pick, year) <= YearNumbers(docs, year)
    ensures OwnCancelled(Expire(docs, req.doc, now), req.doc, year) <= YearNumbers(docs, year)
    ensures var expired := Expire(docs, req.doc, now);
            pick.Some? && pick.value != req.doc && year == req.lane.year
            ==> expired[pick.value].number !in OwnCancelled(expired, req.doc, year)
    ensures YearNumbers(Expire(docs, req.doc, now), year) == YearNumbers(docs, year)
    ensures Distinct(Expire(docs, req.doc, now))
  {
    var d, y := req.doc, req.lane.year;
    var expired := Expire(docs, d, now);
    ExpireKeepsNumbers(docs, d, now, year);
    var row := ReservedRow(req, NextNumber(expired, y, pick), ticket, now);
    var cleared := ClearedBy(docs, req, now, pick);
    ClearedNumbers(expired, d, y, pick, year);
    if d !in cleared {
      YearNumbersAfterInsert(cleared, d, row, year);
    }
  }

  /** The numbers left once the recycled row and the requester's own cancelled row are deleted. */
  lemma ClearedNumbers(docs: Docs, d: DocId, y: nat, pick: Option<DocId>, year: nat)
    requires Distinct(docs) && ValidPick(docs, y, pick)
    ensures YearNumbers(DropOwnCancelled(RemovePick(docs, pick), d), year)
         == YearNumbers(docs, year) - PickedNumber(docs, pick, year) - OwnCancelled(docs, d, year)
    ensures PickedNumber(docs, pick, year) <= YearNumbers(docs, year)
    ensures OwnCancelled(docs, d, year) <= YearNumbers(docs, year)
    ensures pick.Some? && pick.value != d && year == y ==> docs[pick.value].number !in OwnCancelled(docs, d, year)
  {
    var own: set<DocId> := if d in docs && docs[d].status == Cancelled then {d} else {};
    var gone := Picked(pick) + own;
    assert DropOwnCancelled(RemovePick(docs, pick), d) == docs - gone;
    YearNumbersAfterRemoval(docs, gone, year);
  }

  function PickedNumber(docs: Docs, pick: Option<DocId>, year: nat): set<nat> {
    if pick.Some? && pick.value in docs && InYear(docs[pick.value], year) then {docs[pick.value].number} else {}
  }

  ghost function OwnCancelled(docs: Docs, d: DocId, year: nat): set<nat> {
    if d in docs && Recyclable(docs[d], year) then {docs[d].number} else {}
  }

  lemma ExpireKeepsNumbers(docs: Docs, d: DocId, now: Time, year: nat)
    requires Distinct(docs)
    ensures Distinct(Expire(docs, d, now))
    ensures YearNumbers(Expire(docs, d, now), year) == YearNumbers(docs, year)
  {
    var expired := Expire(docs, d, now);
    forall n | n in YearNumbers(docs, year)
      ensures n in YearNumbers(expired, year)
    {
      var e :| e in docs && InYear(docs[e], year) && docs[e].number == n;
      assert InYear(expired[e], year);
    }
    forall n | n in YearNumbers(expired, year)
      ensures n in YearNumbers(docs, year)
    {
      var e :| e in expired && InYear(expired[e], year) && expired[e].number == n;
      assert InYear(docs[e], year);
    }
  }

  /** Citizen reservations never lose a number; they are refused exactly when the citizen's document
      keeps a row that is not the recycled one. */
  lemma ReserveCitizenConserves(docs: Docs, req: Request, ticket: Ticket, now: Time, pick: Option<DocId>, year: nat)
    requires Distinct(docs) && ReserveEnabled(docs, req, now, pick)
    ensures var (docs', outcome) := ReserveCitizen(docs, req, ticket, now, pick);
            var expired := Expire(docs, req.doc, now);
            && (outcome == Refused <==> !RetryHit(docs, req.doc, now) && req.doc in docs && pick != Some(req.doc))
            && (outcome == Refused ==> docs' == docs)
            && YearNumbers(docs', year) == YearNumbers(docs, year)
               + (if outcome == Refused || RetryHit(docs, req.doc, now) || year != req.lane.year then {}
                  else Gained(expired, req.doc, year, pick))
  {
    if !RetryHit(docs, req.doc, now) {
      var expired := Expire(docs, req.doc, now);
      ExpireKeepsNumbers(docs, req.doc, now, year);
      if req.doc !in RemovePick(expired, pick) {
        var row := ReservedRow(req, NextNumber(expired, req.lane.year, pick), ticket, now);
        ReplacedNumbers(expired, req.doc, row, pick, year);
      }
    }
  }

  /** The picked row replaced by the document's new row, which carries the next number. */
  lemma ReplacedNumbers(docs: Docs, d: DocId, row: Row, pick: Option<DocId>, year: nat)
    requires Distinct(docs) && row.regime == Global && ValidPick(docs, row.lane.year, pick)
    requires d !in RemovePick(docs, pick) && row.number == NextNumber(docs, row.lane.year, pick)
    ensures YearNumbers(RemovePick(docs, pick)[d := row], year)
         == YearNumbers(docs, year) + (if year != row.lane.year then {} else Gained(docs, d, year, pick))
  {
    YearNumbersAfterRemoval(docs, Picked(pick), year);
    NextNumberIsFree(docs, row.lane.year, pick);
    if pick.Some? {
      assert docs[pick.value].number in YearNumbers(docs, row.lane.year);
    }
    YearNumbersAfterInsert(RemovePick(docs, pick), d, row, year);
  }

  /** A number born CONFIRMED conserves the year in the same way; but a document that owns a cancelled row
      which is not the recycled one is handed the number of that cancelled row. */
  lemma GenerateConserves(docs: Docs, req: Request, now: Time, pick: Option<DocId>, year: nat)
    requires Distinct(docs) && ValidPick(docs, req.lane.year, pick)
    ensures var (docs', outcome) := Generate(docs, req, now, pick);
            && outcome.Issued?
            && (outcome.row.status == Cancelled <==>
               req.doc in docs && docs[req.doc].status == Cancelled && pick != Some(req.doc))
            && YearNumbers(docs', year) == YearNumbers(docs, year)
               - (if pick.Some? && pick.value != req.doc && req.doc in docs
                 && year == req.lane.year then {docs[pick.value].number} else {})
               + (if pick.None? && req.doc !in docs
                 && year == req.lane.year then {Max(YearNumbers(docs, year)) + 1} else {})
  {
    var d, y := req.doc, req.lane.year;
    var row := DirectRow(req, NextNumber(docs, y, pick), now);
    var left := RemovePick(docs, pick);
    YearNumbersAfterRemoval(docs, Picked(pick), year);
    NextNumberIsFree(docs, y, pick);
    if pick.Some? {
      assert docs[pick.value].number in YearNumbers(docs, y);
    }
    if d !in left {
      YearNumbersAfterInsert(left, d, row, year);
    }
  }

  /** Confirm, finalize and cancel change a status and nothing else. */
  ghost predicate SameButStatus(docs: Docs, docs': Docs) {
    && docs'.Keys == docs.Keys
    && forall d | d in docs :: docs'[d] == docs[d].(status := docs'[d].status, updatedAt := docs'[d].updatedAt)
  }

  lemma StatusUpdatesConserve(docs: Docs, docs': Docs, year: nat)
    requires SameButStatus(docs, docs')
    ensures YearNumbers(docs', year) == YearNumbers(docs, year)
    ensures Distinct(docs) ==> Distinct(docs')
  {
    forall n | n in YearNumbers(docs, year)
      ensures n in YearNumbers(docs', year)
    {
      var e :| e in docs && InYear(docs[e], year) && docs[e].number == n;
      assert InYear(docs'[e], year);
    }
    forall n | n in YearNumbers(docs', year)
      ensures n in YearNumbers(docs, year)
    {
      var e :| e in docs' && InYear(docs'[e], year) && docs'[e].number == n;
      assert InYear(docs[e], year);
    }
  }

  // --- Density ---

  /** {1..k} */
  function UpTo(k: nat): (s: set<nat>)
    ensures forall n :: n in s <==> 1 <= n <= k
  {
    if k == 0 then {} else UpTo(k - 1) + {k}
  }

  ghost predicate Dense(s: set<nat>) {
    s == UpTo(|s|)
  }

  lemma {:induction false} UpToSize(k: nat)
    ensures |UpTo(k)| == k
  {
    if k > 0 {
      UpToSize(k - 1);
      assert k !in UpTo(k - 1);
    }
  }

  lemma UpToMax(k: nat)
    ensures Max(UpTo(k)) == k
  {
    if k > 0 {
      assert k in UpTo(k);
    }
  }

  /** Adding max + 1 to {1..n} gives {1..n+1}. */
  lemma DenseGrows(s: set<nat>)
    requires Dense(s)
    ensures Dense(s + {Max(s) + 1})
  {
    UpToMax(|s|);
    UpToSize(|s| + 1);
    assert s + {Max(s) + 1} == UpTo(|s| + 1);
  }

  /** Taking away any number but the last leaves a gap. */
  lemma DenseBreaks(s: set<nat>, n: nat)
    requires Dense(s) && n in s && n != |s|
    ensures !Dense(s - {n})
  {
    assert |s - {n}| == |s| - 1;
    assert n in UpTo(|s| - 1);
  }

  lemma DenseWithout(s: set<nat>, n: nat)
    requires Dense(s) && n in s
    ensures Dense(s - {n}) <==> n == |s|
  {
    if n == |s| {
      assert s - {n} == UpTo(|s| - 1);
    } else {
      DenseBreaks(s, n);
    }
  }

  // --- The grain of the two queries ---

  /** The table at the second query, after other transactions moved statuses since the first found nothing
      to recycle: MAX + 1 over live rows collides exactly when a row cancelled in between holds that number. */
  lemma TornReadCollides(first: Docs, second: Docs, req: Request, ticket: Ticket, now: Time)
    requires Distinct(first) && ValidPick(first, req.lane.year, None) && SameButStatus(first, second)
    requires req.doc !in first
    ensures var n := Max(LiveNumbers(second, req.lane.year)) + 1;
            Distinct(second[req.doc := ReservedRow(req, n, ticket, now)])
            <==> !exists e | e in second && Recyclable(second[e], req.lane.year) :: second[e].number == n
  {
    StatusUpdatesConserve(first, second, req.lane.year);
    TornInsert(second, req, ticket, now);
  }

  /** Nothing is recycled, the document has no row left, and a cancelled row holds the number after the live ones. */
  ghost predicate Overlooks(docs: Docs, req: Request, now: Time, pick: Option<DocId>) {
    var cleared := ClearedBy(docs, req, now, pick);
    && pick.None? && req.doc !in cleared
    && OverlookedAt(cleared, req.lane.year, Max(LiveNumbers(cleared, req.lane.year)) + 1)
  }

  /** A reservation whose recycling query overlooks every cancelled row, because others hold them, takes MAX + 1 of
      the live rows: it breaks uniqueness exactly when one of the rows overlooked holds that number. */
  lemma ReserveDistinctExactly(docs: Docs, req: Request, ticket: Ticket, now: Time, pick: Option<DocId>)
    requires Distinct(docs) && ReserveAnswered(docs, req, now, pick) && !RetryHit(docs, req.doc, now)
    ensures Distinct(Reserve(docs, req, ticket, now, pick).0) <==> !Overlooks(docs, req, now, pick)
  {
    if pick.Some? {
      RecyclingKeepsDistinct(docs, req, ticket, now, pick);
    } else {
      UnrecycledDistinctExactly(docs, req, ticket, now);
    }
  }

  lemma RecyclingKeepsDistinct(docs: Docs, req: Request, ticket: Ticket, now: Time, pick: Option<DocId>)
    requires Distinct(docs) && ReserveAnswered(docs, req, now, pick) && pick.Some?
    ensures Distinct(Reserve(docs, req, ticket, now, pick).0)
  {
    ReserveKeepsDistinct(docs, req, ticket, now, pick);
  }

  lemma UnrecycledDistinctExactly(docs: Docs, req: Request, ticket: Ticket, now: Time)
    requires Distinct(docs) && !RetryHit(docs, req.doc, now)
    ensures Distinct(Reserve(docs, req, ticket, now, None).0) <==> !Overlooks(docs, req, now, None)
  {
    UnrecycledTable(docs, req, ticket, now);
    UnrecycledCollides(docs, req, ticket, now, Reserve(docs, req, ticket, now, None).0);
  }

  lemma UnrecycledCollides(docs: Docs, req: Request, ticket: Ticket, now: Time, after: Docs)
    requires Distinct(docs)
    requires var cleared := ClearedBy(docs, req, now, None);
             after == if req.doc in cleared then cleared
               else cleared[req.doc := ReservedRow(req, Max(LiveNumbers(cleared, req.lane.year)) + 1, ticket, now)]
    ensures Distinct(after) <==> !Overlooks(docs, req, now, None)
  {
    var cleared := ClearedBy(docs, req, now, None);
    ClearedStaysDistinct(docs, req, now);
    if req.doc !in cleared {
      TornInsert(cleared, req, ticket, now);
    }
  }

  lemma ClearedStaysDistinct(docs: Docs, req: Request, now: Time)
    requires Distinct(docs)
    ensures Distinct(ClearedBy(docs, req, now, None))
  {
    SameLiveNumbers(docs, req, now);
  }

  lemma UnrecycledTable(docs: Docs, req: Request, ticket: Ticket, now: Time)
    requires !RetryHit(docs, req.doc, now)
    ensures var cleared := ClearedBy(docs, req, now, None);
            Reserve(docs, req, ticket, now, None).0 ==
              if req.doc in cleared then cleared
              else cleared[req.doc := ReservedRow(req, Max(LiveNumbers(cleared, req.lane.year)) + 1, ticket, now)]
  {
    SameLiveNumbers(docs, req, now);
  }

  predicate OverlookedAt(docs: Docs, year: nat, n: nat) {
    exists e | e in docs && Recyclable(docs[e], year) :: docs[e].number == n
  }

  lemma SameLiveNumbers(docs: Docs, req: Request, now: Time)
    ensures LiveNumbers(ClearedBy(docs, req, now, None), req.lane.year)
        == LiveNumbers(Expire(docs, req.doc, now), req.lane.year)
    ensures Distinct(docs) ==> Distinct(ClearedBy(docs, req, now, None))
  {
    var expired, cleared := Expire(docs, req.doc, now), ClearedBy(docs, req, now, None);
    assert RemovePick(expired, None) == expired;
    assert forall e | e in expired && expired[e].status != Cancelled :: e in cleared && cleared[e] == expired[e];
  }

  lemma TornInsert(docs: Docs, req: Request, ticket: Ticket, now: Time)
    requires Distinct(docs) && req.doc !in docs
    ensures var n := Max(LiveNumbers(docs, req.lane.year)) + 1;
            Distinct(docs[req.doc := ReservedRow(req, n, ticket, now)]) <==> !OverlookedAt(docs, req.lane.year, n)
  {
    var n := Max(LiveNumbers(docs, req.lane.year)) + 1;
    TornNumberTaken(docs, req.lane.year);
    InsertDistinctExactly(docs, req.doc, ReservedRow(req, n, ticket, now));
  }

  lemma InsertDistinctExactly(docs: Docs, d: DocId, row: Row)
    requires Distinct(docs) && d !in docs && row.regime == Global
    ensures Distinct(docs[d := row]) <==> row.number !in YearNumbers(docs, row.lane.year)
  {
    if row.number !in YearNumbers(docs, row.lane.year) {
      InsertKeepsDistinct(docs, d, row);
    } else {
      var e :| e in docs && InYear(docs[e], row.lane.year) && docs[e].number == row.number;
      var docs' := docs[d := row];
      assert docs'[e] == docs[e] && docs'[d] == row;
    }
  }

  lemma TornNumberTaken(docs: Docs, year: nat)
    ensures var n := Max(LiveNumbers(docs, year)) + 1;
            n in YearNumbers(docs, year) <==> exists e | e in docs && Recyclable(docs[e], year) :: docs[e].number == n
  {
    var n := Max(LiveNumbers(docs, year)) + 1;
    if n in YearNumbers(docs, year) {
      var e :| e in docs && InYear(docs[e], year) && docs[e].number == n;
      assert docs[e].status != Cancelled ==> n in LiveNumbers(docs, year);
      assert Recyclable(docs[e], year);
    }
  }
}
