/** Which documents a user's list shows: the original OR of EXISTS conditions, and the rewrite that asks each source
    of permission by its own index and unites the identifiers. Conditions are SQL's, with NULL. */
module DocumentVisibility {
  import opened Wrappers

  type Id = nat
  type UserId = nat
  type SectorId = nat
  type TypeId = nat

  // --- SQL conditions ---

  datatype Truth = True | False | Null

  function Of(b: bool): Truth {
    if b then True else False
  }

  function And(p: Truth, q: Truth): Truth {
    if p == False || q == False then False else if p == True && q == True then True else Null
  }

  function Or(p: Truth, q: Truth): Truth {
    if p == True || q == True then True else if p == False && q == False then False else Null
  }

  function Not(p: Truth): Truth {
    match p
    case True => False
    case False => True
    case Null => Null
  }

  function Equals<T(==)>(a: Option<T>, b: T): Truth {
    if a.None? then Null else Of(a.value == b)
  }

  // --- The tables ---

  datatype Status = Draft | SentToSign | Signed | Rejected

  datatype DraftRow = DraftRow(createdBy: Option<UserId>, status: Status, docType: TypeId, deleted: bool)

  datatype OfficialRow = OfficialRow(signed: bool, signerSectors: Option<set<SectorId>>, docType: TypeId)

  datatype TypeRow = TypeRow(acronym: string, active: bool)

  /** `signers[d][u]` is the `is_numerator` of user u's row on document d. */
  datatype Database = Database(
    drafts: map<Id, DraftRow>,
    officials: map<Id, OfficialRow>,
    types: map<TypeId, TypeRow>,
    users: map<UserId, Option<SectorId>>,
    signers: map<Id, map<UserId, Option<bool>>>)

  datatype SectorFilter = Everything | Mine | Sector

  datatype Role = Numerator | Creator | Signer | SectorMate | Other

  /** The user asking and the sectors the user belongs to. */
  datatype Viewer = Viewer(me: UserId, sectors: set<SectorId>)

  predicate Signs(db: Database, d: Id, u: UserId) {
    d in db.signers && u in db.signers[d]
  }

  /** `ds.is_numerator` after the LEFT JOIN. */
  function IsNumerator(db: Database, d: Id, u: UserId): Truth {
    if !Signs(db, d, u) || db.signers[d][u].None? then Null else Of(db.signers[d][u].value)
  }

  predicate InSectors(db: Database, u: UserId, sectors: set<SectorId>) {
    u in db.users && db.users[u].Some? && db.users[u].value in sectors
  }

  /** EXISTS (SELECT 1 FROM users u2 WHERE u2.id = created_by AND u2.sector_id = ANY(...)) */
  predicate CreatorInSectors(db: Database, row: DraftRow, v: Viewer) {
    row.createdBy.Some? && InSectors(db, row.createdBy.value, v.sectors)
  }

  function Overlaps(sectors: Option<set<SectorId>>, mine: set<SectorId>): Truth {
    if sectors.None? then Null else Of(sectors.value * mine != {})
  }

  predicate Circulates(row: DraftRow) {
    row.status == SentToSign || row.status == Signed
  }

  predicate Shareable(db: Database, t: TypeId) {
    t in db.types && db.types[t].acronym != "NOTA" && db.types[t].acronym != "MEMO"
  }

  predicate Active(db: Database, t: TypeId) {
    t in db.types && db.types[t].active
  }

  predicate SignedOfficial(db: Database, d: Id) {
    d in db.officials && db.officials[d].signed
  }

  // --- Roles ---

  function DraftRole(db: Database, d: Id, v: Viewer): Role
    requires d in db.drafts
  {
    var row := db.drafts[d];
    if IsNumerator(db, d, v.me) == True then Numerator
    else if Equals(row.createdBy, v.me) == True then Creator
    else if And(Not(IsNumerator(db, d, v.me)), Of(Signs(db, d, v.me))) == True then Signer
    else if CreatorInSectors(db, row, v) then SectorMate
    else Other
  }

  function OfficialRole(db: Database, d: Id, v: Viewer): Role
    requires d in db.drafts && d in db.officials
  {
    if IsNumerator(db, d, v.me) == True then Numerator
    else if Signs(db, d, v.me) then Signer
    else if Equals(db.drafts[d].createdBy, v.me) == True then Creator
    else if Overlaps(db.officials[d].signerSectors, v.sectors) == True then SectorMate
    else Other
  }

  predicate Keeps(filter: SectorFilter, role: Role) {
    match filter
    case Everything => true
    case Mine => role != SectorMate
    case Sector => role == SectorMate
  }

  // --- The original form ---

  function DraftCondition(db: Database, d: Id, v: Viewer): Truth
    requires d in db.drafts
  {
    var row := db.drafts[d];
    var others := And(Not(Equals(row.createdBy, v.me)), Of(Circulates(row)));
    Or(Equals(row.createdBy, v.me),
       Or(Of(Signs(db, d, v.me) && others == True),
          And(Of(CreatorInSectors(db, row, v)), And(others, Of(Shareable(db, row.docType))))))
  }

  function OfficialCondition(db: Database, d: Id, v: Viewer): Truth
    requires d in db.drafts && d in db.officials
  {
    var row := db.officials[d];
    var others := Not(Equals(db.drafts[d].createdBy, v.me));
    Or(Equals(db.drafts[d].createdBy, v.me),
       Or(And(Of(Signs(db, d, v.me)), others),
          And(Overlaps(row.signerSectors, v.sectors), And(others, Of(Shareable(db, row.docType))))))
  }

  predicate DraftListed(db: Database, d: Id) {
    d in db.drafts && Active(db, db.drafts[d].docType) && !db.drafts[d].deleted && !SignedOfficial(db, d)
  }

  predicate OfficialListed(db: Database, d: Id) {
    d in db.drafts && SignedOfficial(db, d) && Active(db, db.officials[d].docType) && !db.drafts[d].deleted
  }

  function OriginalDrafts(db: Database, v: Viewer, filter: SectorFilter): set<Id> {
    set d | d in db.drafts && DraftListed(db, d) && DraftCondition(db, d, v) == True
      && Keeps(filter, DraftRole(db, d, v))
  }

  function OriginalOfficials(db: Database, v: Viewer, filter: SectorFilter): set<Id> {
    set d | d in db.officials && OfficialListed(db, d) && OfficialCondition(db, d, v) == True
      && Keeps(filter, OfficialRole(db, d, v))
  }

  // --- What the original form means ---

  /** Somebody else's document. One without a creator is nobody's. */
  predicate OfAnother(row: DraftRow, v: Viewer) {
    row.createdBy.Some? && row.createdBy.value != v.me
  }

  /** The type exists and its documents stay between their parties. */
  predicate Private(db: Database, t: TypeId) {
    t !in db.types || db.types[t].acronym in {"NOTA", "MEMO"}
  }

  predicate SharesSector(db: Database, u: UserId, v: Viewer) {
    exists s :: s in v.sectors && u in db.users && db.users[u] == Some(s)
  }

  /** A draft is listed when it is live, of an active type and not yet signed as an official document, and the user
      created it, or it was sent or signed and the user signs it or, unless it is private, shares the creator's
      sector. 'sector' keeps those in which the user has no part but the sector, and 'mine' the rest. */
  lemma DraftsShown(db: Database, v: Viewer, filter: SectorFilter, d: Id)
    ensures d in OriginalDrafts(db, v, filter) <==>
        && d in db.drafts && !db.drafts[d].deleted && !(d in db.officials && db.officials[d].signed)
        && var row := db.drafts[d];
           var mate := row.createdBy.Some? && SharesSector(db, row.createdBy.value, v);
           var bySector := OfAnother(row, v) && mate && !(Signs(db, d, v.me) && db.signers[d][v.me].Some?);
           && row.docType in db.types && db.types[row.docType].active
           && (row.createdBy == Some(v.me) || (OfAnother(row, v) && row.status in {SentToSign, Signed}
               && (Signs(db, d, v.me) || (mate && !Private(db, row.docType)))))
           && (filter == Sector ==> bySector) && (filter == Mine ==> !bySector)
  {
    if d in db.drafts && db.drafts[d].createdBy.Some? {
      SectorsMeet(db, db.drafts[d].createdBy.value, v);
    }
  }

  lemma SectorsMeet(db: Database, u: UserId, v: Viewer)
    ensures InSectors(db, u, v.sectors) <==> SharesSector(db, u, v)
  {
    if InSectors(db, u, v.sectors) {
      assert db.users[u].value in v.sectors && db.users[u] == Some(db.users[u].value);
    }
  }

  /** An official document is listed when it is signed, live and of an active type, and the user created it or signs
      it or, unless it is private, a sector of the user signed it. */
  lemma OfficialsShown(db: Database, v: Viewer, filter: SectorFilter, d: Id)
    ensures d in OriginalOfficials(db, v, filter) <==>
        && d in db.officials && db.officials[d].signed && d in db.drafts && !db.drafts[d].deleted
        && var row, t := db.drafts[d], db.officials[d].docType;
           var signers := db.officials[d].signerSectors;
           var sectorSigned := exists s :: s in v.sectors && signers.Some? && s in signers.value;
           var bySector := OfAnother(row, v) && sectorSigned && !Signs(db, d, v.me);
           && t in db.types && db.types[t].active
           && (row.createdBy == Some(v.me)
               || (OfAnother(row, v) && (Signs(db, d, v.me) || (sectorSigned && !Private(db, t)))))
           && (filter == Sector ==> bySector) && (filter == Mine ==> !bySector)
  {
    if d in db.officials && db.officials[d].signerSectors.Some? {
      var sectors := db.officials[d].signerSectors.value;
      assert sectors * v.sectors != {} <==> exists s :: s in v.sectors && s in sectors by {
        if sectors * v.sectors != {} {
          var s :| s in sectors * v.sectors;
          assert s in v.sectors && s in sectors;
        } else {
          assert forall s :: s in v.sectors && s in sectors ==> s in sectors * v.sectors;
        }
      }
    }
  }

  // --- The arms of the rewrite ---

  function DraftsOwn(db: Database, v: Viewer): set<Id> {
    set d | d in db.drafts && Equals(db.drafts[d].createdBy, v.me) == True && !db.drafts[d].deleted
  }

  function DraftsSigned(db: Database, v: Viewer): set<Id> {
    set d | d in db.signers && v.me in db.signers[d] && d in db.drafts
            && !db.drafts[d].deleted && Not(Equals(db.drafts[d].createdBy, v.me)) == True && Circulates(db.drafts[d])
  }

  function DraftsOfSector(db: Database, v: Viewer): set<Id> {
    var mates := set u | u in db.users && InSectors(db, u, v.sectors);
    set d | d in db.drafts && db.drafts[d].createdBy.Some? && db.drafts[d].createdBy.value in mates
            && !db.drafts[d].deleted && Not(Equals(db.drafts[d].createdBy, v.me)) == True && Circulates(db.drafts[d])
            && Shareable(db, db.drafts[d].docType)
  }

  function OfficialsOwn(db: Database, v: Viewer): set<Id> {
    set d | d in db.officials && d in db.drafts && Equals(db.drafts[d].createdBy, v.me) == True
            && !db.drafts[d].deleted && db.officials[d].signed
  }

  function OfficialsSigned(db: Database, v: Viewer): set<Id> {
    set d | d in db.signers && v.me in db.signers[d] && d in db.officials && d in db.drafts
            && !db.drafts[d].deleted && Not(Equals(db.drafts[d].createdBy, v.me)) == True && db.officials[d].signed
  }

  function OfficialsOfSector(db: Database, v: Viewer): set<Id> {
    set d | d in db.officials && d in db.drafts && Overlaps(db.officials[d].signerSectors, v.sectors) == True
            && !db.drafts[d].deleted && Not(Equals(db.drafts[d].createdBy, v.me)) == True && db.officials[d].signed
            && Shareable(db, db.officials[d].docType)
  }

  function VisibleDrafts(db: Database, v: Viewer, filter: SectorFilter): set<Id> {
    match filter
    case Everything => DraftsOwn(db, v) + DraftsSigned(db, v) + DraftsOfSector(db, v)
    case Mine => DraftsOwn(db, v) + DraftsSigned(db, v)
    case Sector => DraftsOfSector(db, v)
  }

  function VisibleOfficials(db: Database, v: Viewer, filter: SectorFilter): set<Id> {
    match filter
    case Everything => OfficialsOwn(db, v) + OfficialsSigned(db, v) + OfficialsOfSector(db, v)
    case Mine => OfficialsOwn(db, v) + OfficialsSigned(db, v)
    case Sector => OfficialsOfSector(db, v)
  }

  function FastDrafts(db: Database, v: Viewer, filter: SectorFilter): set<Id> {
    set d | d in VisibleDrafts(db, v, filter) && DraftListed(db, d) && Keeps(filter, DraftRole(db, d, v))
  }

  function FastOfficials(db: Database, v: Viewer, filter: SectorFilter): set<Id> {
    set d | d in VisibleOfficials(db, v, filter) && OfficialListed(db, d) && Keeps(filter, OfficialRole(db, d, v))
  }

  // --- The rewrite preserves meaning, except for one family of rows ---

  /** A NOTA or MEMO of a sector mate, in circulation, that the user signs under a NULL `is_numerator`: it is
      visible for the signature, its role falls through to 'sector', and the sector arm leaves it out. */
  predicate FallsThrough(db: Database, v: Viewer, d: Id) {
    && DraftListed(db, d) && Signs(db, d, v.me) && db.signers[d][v.me].None?
    && var row := db.drafts[d];
       CreatorInSectors(db, row, v) && row.createdBy != Some(v.me) && Circulates(row) && !Shareable(db, row.docType)
  }

  lemma DraftArms(db: Database, v: Viewer, d: Id)
    requires DraftListed(db, d)
    ensures DraftCondition(db, d, v) == True <==> d in VisibleDrafts(db, v, Everything)
  {
  }

  /** A draft is left out by the sector arm alone exactly when it falls through. */
  lemma DraftsDiffer(db: Database, v: Viewer, filter: SectorFilter, d: Id)
    ensures d in FastDrafts(db, v, filter) ==> d in OriginalDrafts(db, v, filter)
    ensures d in OriginalDrafts(db, v, filter) && d !in FastDrafts(db, v, filter) <==>
        filter == Sector && FallsThrough(db, v, d)
  {
    if DraftListed(db, d) {
      DraftArms(db, v, d);
    }
  }

  lemma OfficialsAgree(db: Database, v: Viewer, filter: SectorFilter)
    ensures FastOfficials(db, v, filter) == OriginalOfficials(db, v, filter)
  {
  }

  /** For every database, user and filter the two forms list the same documents if and only if the filter is not
      'sector' or no draft falls through. */
  lemma RewritePreservesMeaning(db: Database, v: Viewer, filter: SectorFilter)
    ensures && FastDrafts(db, v, filter) == OriginalDrafts(db, v, filter)
            && FastOfficials(db, v, filter) == OriginalOfficials(db, v, filter)
            <==> (filter == Sector ==> forall d | d in db.drafts :: !FallsThrough(db, v, d))
  {
    OfficialsAgree(db, v, filter);
    forall d
      ensures d in FastDrafts(db, v, filter) ==> d in OriginalDrafts(db, v, filter)
      ensures d in OriginalDrafts(db, v, filter) && d !in FastDrafts(db, v, filter) <==>
          filter == Sector && FallsThrough(db, v, d)
    {
      DraftsDiffer(db, v, filter, d);
    }
    if filter == Sector && exists d :: d in db.drafts && FallsThrough(db, v, d) {
      var d :| d in db.drafts && FallsThrough(db, v, d);
      assert d in OriginalDrafts(db, v, filter) && d !in FastDrafts(db, v, filter);
    } else {
      assert FastDrafts(db, v, filter) == OriginalDrafts(db, v, filter);
    }
  }

  /** A database with such a row: user 2 signs, under a NULL `is_numerator`, a NOTA that user 3 of the same sector
      created and sent. The original form lists it under 'sector', the fast form does not. */
  lemma ADraftFallsThrough() returns (db: Database, v: Viewer)
    ensures FallsThrough(db, v, 1) && OriginalDrafts(db, v, Sector) == {1} && FastDrafts(db, v, Sector) == {}
  {
    db := Database(map[1 := DraftRow(Some(3), SentToSign, 5, false)], map[], map[5 := TypeRow("NOTA", true)],
                   map[2 := Some(4), 3 := Some(4)], map[1 := map[2 := None]]);
    v := Viewer(2, {4});
    DraftsDiffer(db, v, Sector, 1);
  }

  /** With `is_numerator` never NULL, the case the rewrite was made for, the forms agree outright. */
  lemma AgreeWithoutNulls(db: Database, v: Viewer, filter: SectorFilter)
    requires forall d, u | Signs(db, d, u) :: db.signers[d][u].Some?
    ensures FastDrafts(db, v, filter) == OriginalDrafts(db, v, filter)
    ensures FastOfficials(db, v, filter) == OriginalOfficials(db, v, filter)
  {
    RewritePreservesMeaning(db, v, filter);
  }

  /** Without a filter the three arms are the whole condition; with one, 'mine' and 'sector' split the list. */
  lemma FiltersPartition(db: Database, v: Viewer)
    ensures OriginalDrafts(db, v, Mine) + OriginalDrafts(db, v, Sector) == FastDrafts(db, v, Everything)
    ensures OriginalDrafts(db, v, Mine) !! OriginalDrafts(db, v, Sector)
    ensures FastOfficials(db, v, Mine) + FastOfficials(db, v, Sector) == FastOfficials(db, v, Everything)
    ensures FastOfficials(db, v, Mine) !! FastOfficials(db, v, Sector)
  {
    RewritePreservesMeaning(db, v, Everything);
    OfficialsAgree(db, v, Mine);
    OfficialsAgree(db, v, Sector);
  }
}
