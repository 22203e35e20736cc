/** The nightly comparison of one tenant's PDF store with its table of official documents, and the life of the
    findings it records. A dictionary is a map: the order in which findings are listed is not modelled. */
module Reconciler {
  import opened Wrappers

  type Time = int
  type Number = string

  datatype Location = Oficial | Preoficial

  datatype StoredPdf = StoredPdf(key: string, lastModified: Option<Time>)

  /** What listing a bucket returns; a tenant may lack the bucket. */
  datatype Listing = NoBucket | Listed(pdfs: seq<StoredPdf>, truncated: bool)

  datatype Entry = Entry(lastModified: Option<Time>, location: Location)

  datatype DbRow = DbRow(
    number: Number,
    confirmed: bool,
    signedAt: Option<Time>,
    updatedAt: Option<Time>,
    createdAt: Option<Time>,
    pdfLocation: Option<Location>)

  datatype Kind = PdfWithoutDocument | DocumentWithoutPdf | LocationOutOfSync | PdfInBothBuckets

  /** The key under which a finding is recorded. */
  datatype Finding = Finding(kind: Kind, number: Number)

  // --- The store ---

  function Lower(c: char): char {
    if 'A' <= c <= 'Z' then c - 'A' + 'a' else c
  }

  predicate IsPdf(key: string) {
    && |key| >= 4 && key[|key| - 4] == '.'
    && Lower(key[|key| - 3]) == 'p' && Lower(key[|key| - 2]) == 'd' && Lower(key[|key| - 1]) == 'f'
  }

  function NumberOf(key: string): Number
    requires IsPdf(key)
  {
    key[..|key| - 4]
  }

  datatype Inventory = Inventory(numbers: map<Number, Entry>, duplicates: set<Number>)

  function Add(inv: Inventory, pdf: StoredPdf, bucket: Location): Inventory {
    if !IsPdf(pdf.key) then inv
    else
      var n := NumberOf(pdf.key);
      if n in inv.numbers && inv.numbers[n].location == Oficial then inv.(duplicates := inv.duplicates + {n})
      else inv.(numbers := inv.numbers[n := Entry(pdf.lastModified, bucket)])
  }

  function Scan(inv: Inventory, pdfs: seq<StoredPdf>, bucket: Location): Inventory {
    if pdfs == [] then inv else Add(Scan(inv, pdfs[..|pdfs| - 1], bucket), pdfs[|pdfs| - 1], bucket)
  }

  function Pdfs(listing: Listing): seq<StoredPdf> {
    if listing.NoBucket? then [] else listing.pdfs
  }

  function InventoryOf(oficial: Listing, preoficial: Listing): Inventory {
    Scan(Scan(Inventory(map[], {}), Pdfs(oficial), Oficial), Pdfs(preoficial), Preoficial)
  }

  predicate Truncated(oficial: Listing, preoficial: Listing) {
    (oficial.Listed? && oficial.truncated) || (preoficial.Listed? && preoficial.truncated)
  }

  method NumbersInStore(oficial: Listing, preoficial: Listing) returns (inv: Inventory, truncated: bool)
    ensures inv == InventoryOf(oficial, preoficial) && truncated == Truncated(oficial, preoficial)
  {
    inv, truncated := Inventory(map[], {}), false;
    var buckets := [(oficial, Oficial), (preoficial, Preoficial)];
    for b := 0 to 2
      invariant inv == (if b == 0 then Inventory(map[], {})
                        else if b == 1 then Scan(Inventory(map[], {}), Pdfs(oficial), Oficial)
                        else InventoryOf(oficial, preoficial))
      invariant truncated == ((b > 0 && oficial.Listed? && oficial.truncated)
          || (b > 1 && preoficial.Listed? && preoficial.truncated))
    {
      var (listing, bucket) := buckets[b];
      if listing.Listed? {
        truncated := truncated || listing.truncated;
        ghost var before := inv;
        for i := 0 to |listing.pdfs|
          invariant inv == Scan(before, listing.pdfs[..i], bucket)
        {
          assert listing.pdfs[..i + 1][..i] == listing.pdfs[..i];
          inv := Add(inv, listing.pdfs[i], bucket);
        }
        assert listing.pdfs[..|listing.pdfs|] == listing.pdfs;
      }
    }
  }

  predicate Stored(pdfs: seq<StoredPdf>, n: Number) {
    exists i | 0 <= i < |pdfs| :: IsPdf(pdfs[i].key) && NumberOf(pdfs[i].key) == n
  }

  lemma StoredSplits(pdfs: seq<StoredPdf>, n: Number)
    requires pdfs != []
    ensures var last := pdfs[|pdfs| - 1];
            Stored(pdfs, n) <==> Stored(pdfs[..|pdfs| - 1], n) || (IsPdf(last.key) && NumberOf(last.key) == n)
  {
    var most := pdfs[..|pdfs| - 1];
    if Stored(pdfs, n) {
      var i :| 0 <= i < |pdfs| && IsPdf(pdfs[i].key) && NumberOf(pdfs[i].key) == n;
      assert i < |most| ==> most[i] == pdfs[i];
    }
    if Stored(most, n) {
      var i :| 0 <= i < |most| && IsPdf(most[i].key) && NumberOf(most[i].key) == n;
      assert pdfs[i] == most[i];
    }
  }

  lemma {:induction false} ScanFinds(inv: Inventory, pdfs: seq<StoredPdf>, bucket: Location, n: Number)
    ensures n in Scan(inv, pdfs, bucket).numbers <==> n in inv.numbers || Stored(pdfs, n)
    ensures n in inv.numbers && inv.numbers[n].location == Oficial ==>
        Scan(inv, pdfs, bucket).numbers[n] == inv.numbers[n]
    ensures n in Scan(inv, pdfs, bucket).numbers && Stored(pdfs, n) ==>
              (n in inv.numbers && inv.numbers[n].location == Oficial) ||
              Scan(inv, pdfs, bucket).numbers[n].location == bucket
    ensures !Stored(pdfs, n) && n in inv.numbers ==> Scan(inv, pdfs, bucket).numbers[n] == inv.numbers[n]
    ensures bucket == Preoficial ==>
              (n in Scan(inv, pdfs, bucket).duplicates <==>
                 n in inv.duplicates || (n in inv.numbers && inv.numbers[n].location == Oficial && Stored(pdfs, n)))
    decreases |pdfs|
  {
    if pdfs != [] {
      StoredSplits(pdfs, n);
      ScanFinds(inv, pdfs[..|pdfs| - 1], bucket, n);
    }
  }

  predicate NumberedAt(pdfs: seq<StoredPdf>, n: Number, i: nat) {
    i < |pdfs| && IsPdf(pdfs[i].key) && NumberOf(pdfs[i].key) == n
  }

  /** Two keys of the bucket carry the number: they differ in the case of their extension. */
  predicate Repeated(pdfs: seq<StoredPdf>, n: Number) {
    exists i, j | 0 <= i < j < |pdfs| :: NumberedAt(pdfs, n, i) && NumberedAt(pdfs, n, j)
  }

  lemma RepeatedSplits(pdfs: seq<StoredPdf>, n: Number)
    requires pdfs != []
    ensures var most, last := pdfs[..|pdfs| - 1], |pdfs| - 1;
            Repeated(pdfs, n) <==> Repeated(most, n) || (Stored(most, n) && NumberedAt(pdfs, n, last))
  {
    var most, last := pdfs[..|pdfs| - 1], |pdfs| - 1;
    assert forall i: nat | i < last :: NumberedAt(most, n, i) <==> NumberedAt(pdfs, n, i);
    if Stored(most, n) && NumberedAt(pdfs, n, last) {
      var i :| 0 <= i < |most| && IsPdf(most[i].key) && NumberOf(most[i].key) == n;
      assert NumberedAt(pdfs, n, i);
    }
    if Repeated(pdfs, n) {
      var i, j :| 0 <= i < j < |pdfs| && NumberedAt(pdfs, n, i) && NumberedAt(pdfs, n, j);
      assert NumberedAt(most, n, i);
    }
  }

  lemma {:induction false} DuplicatesInOficial(pdfs: seq<StoredPdf>, n: Number)
    ensures n in Scan(Inventory(map[], {}), pdfs, Oficial).duplicates <==> Repeated(pdfs, n)
    decreases |pdfs|
  {
    if pdfs != [] {
      var most := pdfs[..|pdfs| - 1];
      DuplicatesInOficial(most, n);
      ScanFinds(Inventory(map[], {}), most, Oficial, n);
      RepeatedSplits(pdfs, n);
    }
  }

  /** What the inventory calls a duplicate: a number in both buckets, and also one that `oficial/` has twice. */
  predicate Duplicated(oficial: Listing, preoficial: Listing, n: Number) {
    Stored(Pdfs(oficial), n) && (Stored(Pdfs(preoficial), n) || Repeated(Pdfs(oficial), n))
  }

  /** The inventory holds every stored number, takes the sealed copy for the one in `oficial/`, and has exactly these
      duplicates. */
  lemma InventoryIsComplete(oficial: Listing, preoficial: Listing, n: Number)
    ensures var inv := InventoryOf(oficial, preoficial);
            && (n in inv.numbers <==> Stored(Pdfs(oficial), n) || Stored(Pdfs(preoficial), n))
            && (n in inv.numbers ==> (inv.numbers[n].location == Oficial <==> Stored(Pdfs(oficial), n)))
            && (n in inv.duplicates <==> Duplicated(oficial, preoficial, n))
  {
    var first := Scan(Inventory(map[], {}), Pdfs(oficial), Oficial);
    ScanFinds(Inventory(map[], {}), Pdfs(oficial), Oficial, n);
    DuplicatesInOficial(Pdfs(oficial), n);
    ScanFinds(first, Pdfs(preoficial), Preoficial, n);
    RepeatedIsStored(Pdfs(oficial), n);
  }

  lemma RepeatedIsStored(pdfs: seq<StoredPdf>, n: Number)
    ensures Repeated(pdfs, n) ==> Stored(pdfs, n)
  {
    if Repeated(pdfs, n) {
      var i, j :| 0 <= i < j < |pdfs| && NumberedAt(pdfs, n, i) && NumberedAt(pdfs, n, j);
      assert IsPdf(pdfs[i].key) && NumberOf(pdfs[i].key) == n;
    }
  }

  /** So a duplicate is in both buckets, unless `oficial/` alone has the number twice: there is such a case. */
  lemma DuplicateInOneBucket() returns (oficial: Listing)
    ensures "1" in InventoryOf(oficial, NoBucket).duplicates && !Stored(Pdfs(NoBucket), "1")
  {
    oficial := Listed([StoredPdf("1.pdf", None), StoredPdf("1.PDF", None)], false);
    var pdfs := Pdfs(oficial);
    assert IsPdf("1.pdf") && NumberOf("1.pdf") == "1" && IsPdf("1.PDF") && NumberOf("1.PDF") == "1";
    assert NumberedAt(pdfs, "1", 0) && NumberedAt(pdfs, "1", 1);
    InventoryIsComplete(oficial, NoBucket, "1");
    assert Repeated(pdfs, "1");
    RepeatedIsStored(pdfs, "1");
  }

  // --- The table ---

  predicate IsOfficial(row: DbRow) {
    row.signedAt.Some? || row.confirmed
  }

  /** The last official row of a number. */
  function Officials(rows: seq<DbRow>): (officials: map<Number, DbRow>)
    ensures forall n :: n in officials <==> exists i | 0 <= i < |rows| :: rows[i].number == n && IsOfficial(rows[i])
    ensures forall n | n in officials :: officials[n].number == n && IsOfficial(officials[n])
  {
    if rows == [] then map[]
    else
      var most, last := Officials(rows[..|rows| - 1]), rows[|rows| - 1];
      if IsOfficial(last) then most[last.number := last] else most
  }

  predicate LastOfficial(rows: seq<DbRow>, n: Number, i: nat) {
    && i < |rows| && rows[i].number == n && IsOfficial(rows[i])
    && forall j | i < j < |rows| && rows[j].number == n :: !IsOfficial(rows[j])
  }

  /** The row kept for a number is the last official one it has. */
  lemma {:induction false} OfficialsAreLast(rows: seq<DbRow>, n: Number, i: nat)
    requires LastOfficial(rows, n, i)
    ensures n in Officials(rows) && Officials(rows)[n] == rows[i]
    decreases |rows|
  {
    if i < |rows| - 1 {
      OfficialsAreLast(rows[..|rows| - 1], n, i);
    }
  }

  lemma {:induction false} SomeOfficialIsLast(rows: seq<DbRow>, n: Number) returns (i: nat)
    requires n in Officials(rows)
    ensures LastOfficial(rows, n, i)
    decreases |rows|
  {
    var last := rows[|rows| - 1];
    if last.number == n && IsOfficial(last) {
      i := |rows| - 1;
    } else {
      i := SomeOfficialIsLast(rows[..|rows| - 1], n);
    }
  }

  method NumbersInDatabase(rows: seq<DbRow>) returns (officials: map<Number, DbRow>)
    ensures officials == Officials(rows)
  {
    officials := map[];
    for i := 0 to |rows|
      invariant officials == Officials(rows[..i])
    {
      assert rows[..i + 1][..i] == rows[..i];
      if IsOfficial(rows[i]) {
        officials := officials[rows[i].number := rows[i]];
      }
    }
    assert rows[..|rows|] == rows;
  }

  // --- Comparing them ---

  function Latest(a: Option<Time>, b: Option<Time>): Option<Time> {
    if a.None? then b else if b.None? || a.value >= b.value then a else b
  }

  predicate Recent(moment: Option<Time>, cutoff: Time) {
    moment.Some? && moment.value > cutoff
  }

  function LocationOf(row: DbRow): Location {
    if row.pdfLocation.Some? then row.pdfLocation.value else Oficial
  }

  predicate Reported(f: Finding, inv: Inventory, officials: map<Number, DbRow>, truncated: bool,
      emitDuplicates: bool, cutoff: Time) {
    var n := f.number;
    match f.kind
    case PdfWithoutDocument => n in inv.numbers && n !in officials && !Recent(inv.numbers[n].lastModified, cutoff)
    case DocumentWithoutPdf =>
      && !truncated && n in officials && n !in inv.numbers
      && !Recent(Latest(officials[n].signedAt, Latest(officials[n].updatedAt, officials[n].createdAt)), cutoff)
    case LocationOutOfSync =>
      && n in inv.numbers && n in officials && inv.numbers[n].location != LocationOf(officials[n])
      && !Recent(inv.numbers[n].lastModified, cutoff)
    case PdfInBothBuckets =>
      emitDuplicates && n in inv.duplicates && !(n in inv.numbers && Recent(inv.numbers[n].lastModified, cutoff))
  }

  predicate Unique(fs: seq<Finding>) {
    forall i, j | 0 <= i < j < |fs| :: fs[i] != fs[j]
  }

  /** One loop of `_conciliar_tenant`: the candidates of one kind. */
  method Collect(fs: seq<Finding>, kind: Kind, candidates: set<Number>, inv: Inventory, officials: map<Number, DbRow>,
                 truncated: bool, emitDuplicates: bool, cutoff: Time) returns (all: seq<Finding>)
    requires Unique(fs) && forall f | f in fs :: f.kind != kind
    requires forall n :: Reported(Finding(kind, n), inv, officials, truncated, emitDuplicates, cutoff) ==>
        n in candidates
    ensures Unique(all)
    ensures forall f: Finding | f.kind != kind :: f in all <==> f in fs
    ensures forall n :: Finding(kind, n) in all <==>
        Reported(Finding(kind, n), inv, officials, truncated, emitDuplicates, cutoff)
  {
    all := fs;
    var rest := candidates;
    while rest != {}
      invariant rest <= candidates && Unique(all)
      invariant forall f: Finding | f.kind != kind :: f in all <==> f in fs
      invariant forall n :: Finding(kind, n) in all <==>
        n in candidates - rest && Reported(Finding(kind, n), inv, officials, truncated, emitDuplicates, cutoff)
      decreases rest
    {
      var n :| n in rest;
      assert Finding(kind, n) !in all;
      rest := rest - {n};
      if Reported(Finding(kind, n), inv, officials, truncated, emitDuplicates, cutoff) {
        all := all + [Finding(kind, n)];
      }
    }
  }

  /** A run reports each discrepancy once, and a truncated listing hides only the documents without a PDF. */
  method Reconcile(inv: Inventory, officials: map<Number, DbRow>, truncated: bool, emitDuplicates: bool, cutoff: Time)
    returns (findings: seq<Finding>)
    ensures Unique(findings)
    ensures forall f :: f in findings <==> Reported(f, inv, officials, truncated, emitDuplicates, cutoff)
  {
    findings := Collect([], PdfWithoutDocument, inv.numbers.Keys, inv, officials, truncated, emitDuplicates, cutoff);
    findings := Collect(findings, DocumentWithoutPdf, if truncated then {}
      else officials.Keys, inv, officials, truncated, emitDuplicates, cutoff);
    findings := Collect(findings, LocationOutOfSync, officials.Keys, inv, officials, truncated, emitDuplicates, cutoff);
    findings := Collect(findings, PdfInBothBuckets, if emitDuplicates then inv.duplicates
      else {}, inv, officials, truncated, emitDuplicates, cutoff);
    forall f
      ensures f in findings <==> Reported(f, inv, officials, truncated, emitDuplicates, cutoff)
    {
      assert f == Finding(f.kind, f.number);
    }
  }

  // --- The recorded findings ---

  /** `resolved_at` and `alerted_at` set or NULL. */
  datatype Record = Record(resolved: bool, alerted: bool)

  type Records = map<Finding, Record>

  predicate Unreported(records: Records, f: Finding) {
    f !in records || records[f].resolved || !records[f].alerted
  }

  /** What INSERT ... ON CONFLICT DO UPDATE leaves. */
  function Upserted(records: Records, f: Finding): Record {
    Record(false, f in records && !records[f].resolved && records[f].alerted)
  }

  /** After a run that saw the findings `present` and could not insert those in `failed`. */
  function AfterRun(records: Records, present: set<Finding>, failed: set<Finding>): Records {
    map f | f in records.Keys + (present - failed) ::
      if f in present - failed then Record(false, true)
      else if f in present then records[f]
      else records[f].(resolved := true)
  }

  function KindName(kind: Kind): string {
    match kind
    case PdfWithoutDocument => "pdf_sin_documento"
    case DocumentWithoutPdf => "documento_sin_pdf"
    case LocationOutOfSync => "pdf_location_desincronizada"
    case PdfInBothBuckets => "pdf_duplicado_en_ambos_buckets"
  }

  function KeyText(f: Finding): string {
    KindName(f.kind) + "|" + f.number
  }

  lemma BarAt(a: string, x: string)
    requires '|' !in a
    ensures (a + "|" + x)[|a|] == '|'
    ensures forall i | 0 <= i < |a| :: (a + "|" + x)[i] != '|'
  {
  }

  lemma FirstBar(a: string, b: string, x: string, y: string)
    requires '|' !in a && '|' !in b && a + "|" + x == b + "|" + y
    ensures a == b && x == y
  {
    var s := a + "|" + x;
    BarAt(a, x);
    BarAt(b, y);
    assert |a| == |b|;
    assert a == s[..|a|] && b == s[..|a|];
    assert x == s[|a| + 1..] && y == s[|a| + 1..];
  }

  lemma KindNameDistinct(a: Kind, b: Kind)
    ensures '|' !in KindName(a)
    ensures KindName(a) == KindName(b) ==> a == b
  {
    assert |KindName(PdfWithoutDocument)| == 17 && |KindName(DocumentWithoutPdf)| == 17;
    assert KindName(PdfWithoutDocument)[0] == 'p' && KindName(DocumentWithoutPdf)[0] == 'd';
    assert |KindName(LocationOutOfSync)| == 27 && |KindName(PdfInBothBuckets)| == 30;
  }

  /** The text compared when findings are resolved tells them apart, whatever the number contains. */
  lemma KeyTextInjective(f: Finding, g: Finding)
    requires KeyText(f) == KeyText(g)
    ensures f == g
  {
    KindNameDistinct(f.kind, g.kind);
    KindNameDistinct(g.kind, f.kind);
    FirstBar(KindName(f.kind), KindName(g.kind), f.number, g.number);
  }

  function Elements(fs: seq<Finding>): set<Finding> {
    set f | f in fs
  }

  function Texts(fs: seq<Finding>): (texts: seq<string>)
    ensures |texts| == |fs| && forall i | 0 <= i < |fs| :: texts[i] == KeyText(fs[i])
  {
    if fs == [] then [] else Texts(fs[..|fs| - 1]) + [KeyText(fs[|fs| - 1])]
  }

  /** Open records of findings no longer seen. */
  function Gone(records: Records, findings: seq<Finding>): set<Finding> {
    set f | f in records && !records[f].resolved && f !in findings
  }

  class FindingsTable {
    var records: Records

    constructor ()
      ensures records == map[]
    {
      records := map[];
    }

    /** `failed` are the findings whose INSERT raises. */
    method Persist(findings: seq<Finding>, failed: set<Finding>) returns (reported: seq<Finding>)
      requires Unique(findings)
      modifies this
      ensures records == map f | f in old(records).Keys + (Elements(findings) - failed) ::
                           if f in Elements(findings) - failed then Record(false, true) else old(records)[f]
      ensures Unique(reported)
      ensures forall f :: f in reported <==> f in Elements(findings) - failed && Unreported(old(records), f)
    {
      reported := [];
      ghost var before := records;
      for i := 0 to |findings|
        invariant Unique(reported) && Elements(findings[..i]) <= Elements(findings)
        invariant records.Keys == before.Keys + (Elements(findings[..i]) - failed)
        invariant forall f | f in records ::
          records[f] == if f in Elements(findings[..i]) - failed then Upserted(before, f) else before[f]
        invariant forall f :: f in reported <==> f in Elements(findings[..i]) - failed && Unreported(before, f)
      {
        var f := findings[i];
        assert Elements(findings[..i + 1]) == Elements(findings[..i]) + {f};
        assert f !in Elements(findings[..i]);
        if f !in failed {
          records := records[f := Upserted(records, f)];
          if !records[f].alerted {
            reported := reported + [f];
          }
        }
      }
      assert findings[..|findings|] == findings;
      Alert(reported);
    }

    /** `SET alerted_at = NOW()` on the given records. */
    method Alert(reported: seq<Finding>)
      requires Elements(reported) <= records.Keys
      modifies this
      ensures records == map f | f in old(records) ::
                           if f in Elements(reported) then old(records)[f].(alerted := true) else old(records)[f]
    {
      ghost var inserted := records;
      for i := 0 to |reported|
        invariant records.Keys == inserted.Keys
        invariant forall f | f in records ::
          records[f] == if f in Elements(reported[..i]) then inserted[f].(alerted := true) else inserted[f]
      {
        assert Elements(reported[..i + 1]) == Elements(reported[..i]) + {reported[i]};
        records := records[reported[i] := records[reported[i]].(alerted := true)];
      }
      assert reported[..|reported|] == reported;
    }

    /** Open records not among the findings, compared by their text, are resolved. */
    method MarkResolved(findings: seq<Finding>) returns (count: nat)
      modifies this
      ensures records == map f | f in old(records) ::
          if f in findings then old(records)[f] else old(records)[f].(resolved := true)
      ensures count == |Gone(old(records), findings)|
    {
      var texts := Texts(findings);
      var before := records;
      forall f | KeyText(f) in texts
        ensures f in findings
      {
        var i :| 0 <= i < |texts| && texts[i] == KeyText(f);
        KeyTextInjective(f, findings[i]);
      }
      forall f | f in findings
        ensures KeyText(f) in texts
      {
        var i :| 0 <= i < |findings| && findings[i] == f;
        assert texts[i] == KeyText(f);
      }
      var closing := set f | f in before && !before[f].resolved && KeyText(f) !in texts;
      records := map f | f in before :: if f in closing then before[f].(resolved := true) else before[f];
      count := |closing|;
      assert closing == Gone(before, findings);
    }

    method RunOnce(findings: seq<Finding>, failed: set<Finding>) returns (reported: seq<Finding>)
      requires Unique(findings)
      modifies this
      ensures records == AfterRun(old(records), Elements(findings), failed)
      ensures Unique(reported)
      ensures forall f :: f in reported <==> f in Elements(findings) - failed && Unreported(old(records), f)
    {
      reported := Persist(findings, failed);
      var _ := MarkResolved(findings);
    }
  }

  // --- Successive runs ---

  datatype Run = Run(present: set<Finding>, failed: set<Finding>)

  function RecordsAfter(runs: seq<Run>): Records {
    if runs == [] then map[]
    else AfterRun(RecordsAfter(runs[..|runs| - 1]), runs[|runs| - 1].present, runs[|runs| - 1].failed)
  }

  /** Run i reports f as new. */
  predicate NewIn(runs: seq<Run>, i: nat, f: Finding)
    requires i < |runs|
  {
    f in runs[i].present - runs[i].failed && Unreported(RecordsAfter(runs[..i]), f)
  }

  /** Since f was last absent, some run managed to insert it. */
  predicate OpenAfter(runs: seq<Run>, f: Finding) {
    runs != [] && var last := runs[|runs| - 1];
      f in last.present && (f !in last.failed || OpenAfter(runs[..|runs| - 1], f))
  }

  lemma {:induction false} RecordsShowOpen(runs: seq<Run>, f: Finding)
    ensures Unreported(RecordsAfter(runs), f) <==> !OpenAfter(runs, f)
    decreases |runs|
  {
    if runs != [] {
      RecordsShowOpen(runs[..|runs| - 1], f);
    }
  }

  /** With inserts that may fail: f is new exactly in a run that inserts it while its episode is not yet open. */
  lemma NewExactly(runs: seq<Run>, i: nat, f: Finding)
    requires i < |runs|
    ensures NewIn(runs, i, f) <==> f in runs[i].present - runs[i].failed && !OpenAfter(runs[..i], f)
  {
    RecordsShowOpen(runs[..i], f);
  }

  /** Over successful runs a finding is new in a run if and only if it is present there and was absent from the
      run before. */
  lemma NewOncePerEpisode(runs: seq<Run>, i: nat, f: Finding)
    requires i < |runs| && forall r | r in runs :: r.failed == {}
    ensures NewIn(runs, i, f) <==> f in runs[i].present && (i == 0 || f !in runs[i - 1].present)
  {
    NewExactly(runs, i, f);
    if i > 0 {
      assert runs[..i][|runs[..i]| - 1] == runs[i - 1] && runs[i - 1] in runs;
    }
  }

  lemma {:induction false} StaysOpen(runs: seq<Run>, i: nat, j: nat, f: Finding)
    requires i < j <= |runs| && NewIn(runs, i, f)
    requires forall m | i <= m < j :: f in runs[m].present
    ensures OpenAfter(runs[..j], f)
    decreases j
  {
    assert runs[..j][|runs[..j]| - 1] == runs[j - 1];
    if i < j - 1 {
      StaysOpen(runs, i, j - 1, f);
      assert runs[..j][..j - 1] == runs[..j - 1];
    }
  }

  /** Even when inserts fail, no finding is reported twice while it stays present. */
  lemma NeverTwiceInAnEpisode(runs: seq<Run>, i: nat, j: nat, f: Finding)
    requires i < j < |runs| && NewIn(runs, i, f)
    requires forall m | i <= m <= j :: f in runs[m].present
    ensures !NewIn(runs, j, f)
  {
    StaysOpen(runs, i, j, f);
    NewExactly(runs, j, f);
  }

  // --- What a truncated listing does ---

  /** What one run has to go on. */
  datatype Night = Night(oficial: Listing, preoficial: Listing, rows: seq<DbRow>, emitDuplicates: bool, cutoff: Time,
    failed: set<Finding>)

  predicate ReportedOn(night: Night, f: Finding) {
    Reported(f, InventoryOf(night.oficial, night.preoficial), Officials(night.rows),
      Truncated(night.oficial, night.preoficial),
             night.emitDuplicates, night.cutoff)
  }

  ghost predicate RunOf(night: Night, run: Run) {
    run.failed == night.failed && forall f :: f in run.present <==> ReportedOn(night, f)
  }

  // What a run reports, in terms of its listings and rows alone.

  predicate Old(moment: Option<Time>, cutoff: Time) {
    moment.None? || moment.value <= cutoff
  }

  predicate HasOfficialRow(rows: seq<DbRow>, n: Number) {
    exists i | 0 <= i < |rows| :: rows[i].number == n && (rows[i].signedAt.Some? || rows[i].confirmed)
  }

  ghost predicate FirstAt(pdfs: seq<StoredPdf>, n: Number, i: nat) {
    NumberedAt(pdfs, n, i) && forall j: nat | j < i :: !NumberedAt(pdfs, n, j)
  }

  ghost predicate LastAt(pdfs: seq<StoredPdf>, n: Number, i: nat) {
    NumberedAt(pdfs, n, i) && forall j: nat | i < j :: !NumberedAt(pdfs, n, j)
  }

  /** The copy that counts, the one in `oficial/` or else the one in `preoficial/`, was not modified within the grace
      window. Of two copies in one bucket the first listed counts in `oficial/`, the last in `preoficial/`. */
  ghost predicate OldCopy(night: Night, n: Number) {
    var oficial, preoficial := Pdfs(night.oficial), Pdfs(night.preoficial);
    if Stored(oficial, n) then exists i: nat :: FirstAt(oficial, n, i) && Old(oficial[i].lastModified, night.cutoff)
    else exists i: nat :: LastAt(preoficial, n, i) && Old(preoficial[i].lastModified, night.cutoff)
  }

  /** An official document whose PDF is in neither bucket, outside the grace window. */
  predicate Missing(night: Night, n: Number) {
    && !Stored(Pdfs(night.oficial), n) && !Stored(Pdfs(night.preoficial), n)
    && exists i | 0 <= i < |night.rows| :: LastOfficial(night.rows, n, i) && OldRow(night.rows[i], night.cutoff)
  }

  predicate OldRow(row: DbRow, cutoff: Time) {
    Old(row.signedAt, cutoff) && Old(row.updatedAt, cutoff) && Old(row.createdAt, cutoff)
  }

  /** The last official row of the number says another bucket than the one its PDF is in. */
  predicate Misplaced(night: Night, n: Number) {
    exists i | 0 <= i < |night.rows| :: LastOfficial(night.rows, n, i) &&
      if Stored(Pdfs(night.oficial), n) then night.rows[i].pdfLocation == Some(Preoficial)
      else Stored(Pdfs(night.preoficial), n) && night.rows[i].pdfLocation != Some(Preoficial)
  }

  ghost predicate Discrepancy(night: Night, f: Finding) {
    match f.kind
    case PdfWithoutDocument => OldCopy(night, f.number) && !HasOfficialRow(night.rows, f.number)
    case DocumentWithoutPdf => Missing(night, f.number) && !Truncated(night.oficial, night.preoficial)
    case LocationOutOfSync => Misplaced(night, f.number) && OldCopy(night, f.number)
    case PdfInBothBuckets =>
      night.emitDuplicates && Duplicated(night.oficial, night.preoficial, f.number) && OldCopy(night, f.number)
  }

  /** The inventory keeps the time of the first copy in `oficial/`. */
  lemma {:induction false} ScanKeepsFirst(pdfs: seq<StoredPdf>, n: Number) returns (i: nat)
    requires Stored(pdfs, n)
    ensures var inv := Scan(Inventory(map[], {}), pdfs, Oficial);
            FirstAt(pdfs, n, i) && n in inv.numbers && inv.numbers[n].lastModified == pdfs[i].lastModified
    decreases |pdfs|
  {
    var most := pdfs[..|pdfs| - 1];
    assert forall j: nat | j < |most| :: NumberedAt(most, n, j) <==> NumberedAt(pdfs, n, j);
    StoredSplits(pdfs, n);
    ScanFinds(Inventory(map[], {}), most, Oficial, n);
    if Stored(most, n) {
      i := ScanKeepsFirst(most, n);
    } else {
      i := |pdfs| - 1;
      assert forall j: nat | j < i && NumberedAt(pdfs, n, j) :: IsPdf(most[j].key) && NumberOf(most[j].key) == n;
    }
  }

  /** And that of the last one in `preoficial/`. */
  lemma {:induction false} ScanKeepsLast(inv: Inventory, pdfs: seq<StoredPdf>, n: Number) returns (i: nat)
    requires Stored(pdfs, n) && !(n in inv.numbers && inv.numbers[n].location == Oficial)
    ensures var inv' := Scan(inv, pdfs, Preoficial);
            LastAt(pdfs, n, i) && n in inv'.numbers && inv'.numbers[n].lastModified == pdfs[i].lastModified
    decreases |pdfs|
  {
    var most := pdfs[..|pdfs| - 1];
    assert forall j: nat | j < |most| :: NumberedAt(most, n, j) <==> NumberedAt(pdfs, n, j);
    StoredSplits(pdfs, n);
    ScanFinds(inv, most, Preoficial, n);
    if NumberedAt(pdfs, n, |pdfs| - 1) {
      i := |pdfs| - 1;
    } else {
      i := ScanKeepsLast(inv, most, n);
    }
  }

  /** What the inventory of a night says about a number. */
  lemma InventoryTells(night: Night, n: Number)
    ensures var inv := InventoryOf(night.oficial, night.preoficial);
            n in inv.numbers ==> (!Recent(inv.numbers[n].lastModified, night.cutoff) <==> OldCopy(night, n))
  {
    var oficial, preoficial := Pdfs(night.oficial), Pdfs(night.preoficial);
    var first := Scan(Inventory(map[], {}), oficial, Oficial);
    InventoryIsComplete(night.oficial, night.preoficial, n);
    ScanFinds(Inventory(map[], {}), oficial, Oficial, n);
    ScanFinds(first, preoficial, Preoficial, n);
    if Stored(oficial, n) {
      var i := ScanKeepsFirst(oficial, n);
      assert forall j: nat | FirstAt(oficial, n, j) :: j == i;
    } else if Stored(preoficial, n) {
      var i := ScanKeepsLast(first, preoficial, n);
      assert forall j: nat | LastAt(preoficial, n, j) :: j == i;
    }
  }

  /** Numbers out of grace and their copies: OldCopy implies a copy. */
  lemma OldCopyIsStored(night: Night, n: Number)
    ensures OldCopy(night, n) ==> Stored(Pdfs(night.oficial), n) || Stored(Pdfs(night.preoficial), n)
  {
  }

  /** What the table says about a number, given its last official row. */
  lemma RowsTell(night: Night, n: Number)
    ensures n in Officials(night.rows) <==> HasOfficialRow(night.rows, n)
    ensures n in Officials(night.rows) ==>
              exists i | 0 <= i < |night.rows| ::
                LastOfficial(night.rows, n, i) && night.rows[i] == Officials(night.rows)[n]
    ensures forall i, j | LastOfficial(night.rows, n, i) && LastOfficial(night.rows, n, j) :: i == j
    ensures forall i | LastOfficial(night.rows, n, i) :: n in Officials(night.rows)
  {
    if n in Officials(night.rows) {
      var i := SomeOfficialIsLast(night.rows, n);
      OfficialsAreLast(night.rows, n, i);
    }
  }

  /** A run finds a missing PDF unless its listing was cut short. */
  lemma MissingIsReported(night: Night, n: Number)
    requires Missing(night, n)
    ensures ReportedOn(night, Finding(DocumentWithoutPdf, n)) <==> !Truncated(night.oficial, night.preoficial)
  {
    ScanFinds(Inventory(map[], {}), Pdfs(night.oficial), Oficial, n);
    ScanFinds(Scan(Inventory(map[], {}), Pdfs(night.oficial), Oficial), Pdfs(night.preoficial), Preoficial, n);
    RowsTell(night, n);
  }

  /** The findings of a run are exactly the discrepancies between its listings and its rows. */
  lemma ReportedExactly(night: Night, f: Finding)
    ensures ReportedOn(night, f) <==> Discrepancy(night, f)
  {
    InventoryIsComplete(night.oficial, night.preoficial, f.number);
    InventoryTells(night, f.number);
    RowsTell(night, f.number);
    OldCopyIsStored(night, f.number);
    if f.kind == LocationOutOfSync {
      MisplacedExactly(night, f.number);
    }
  }

  lemma MisplacedExactly(night: Night, n: Number)
    ensures var inv, officials := InventoryOf(night.oficial, night.preoficial), Officials(night.rows);
            Misplaced(night, n) <==>
              n in inv.numbers && n in officials && inv.numbers[n].location != LocationOf(officials[n])
  {
    InventoryIsComplete(night.oficial, night.preoficial, n);
    RowsTell(night, n);
  }

  /** `_conciliar_tenant`: a run reports each discrepancy once. */
  method ReconcileTenant(night: Night) returns (findings: seq<Finding>)
    ensures Unique(findings) && forall f :: f in findings <==> Discrepancy(night, f)
  {
    var inv, truncated := NumbersInStore(night.oficial, night.preoficial);
    var officials := NumbersInDatabase(night.rows);
    findings := Reconcile(inv, officials, truncated, night.emitDuplicates, night.cutoff);
    forall f
      ensures f in findings <==> Discrepancy(night, f)
    {
      ReportedExactly(night, f);
    }
  }

  /** A PDF that is missing in two successive runs, and whose finding was open before or inserted by the first of them,
      is reported as new by the second, complete run if and only if the first one's listing was truncated. */
  lemma TruncationReopensExactly(nights: seq<Night>, runs: seq<Run>, i: nat, n: Number)
    requires 0 < i < |runs| && |nights| == |runs| && RunOf(nights[i - 1], runs[i - 1]) && RunOf(nights[i], runs[i])
    requires Missing(nights[i - 1], n) && Missing(nights[i], n) && !Truncated(nights[i].oficial, nights[i].preoficial)
    requires var f := Finding(DocumentWithoutPdf, n);
             f !in nights[i].failed && (OpenAfter(runs[..i - 1], f) || f !in nights[i - 1].failed)
    ensures NewIn(runs, i, Finding(DocumentWithoutPdf, n)) <==>
        Truncated(nights[i - 1].oficial, nights[i - 1].preoficial)
  {
    var f := Finding(DocumentWithoutPdf, n);
    MissingIsReported(nights[i - 1], n);
    MissingIsReported(nights[i], n);
    NewExactly(runs, i, f);
    assert runs[..i][|runs[..i]| - 1] == runs[i - 1] && runs[..i][..i - 1] == runs[..i - 1];
  }

  const LOST := Finding(DocumentWithoutPdf, "1")
  const ONE_ROW := [DbRow("1", true, None, None, None, None)]

  function EmptyNight(truncated: bool): Night {
    Night(Listed([], truncated), NoBucket, ONE_ROW, true, 0, {})
  }

  lemma EmptyNightFinds(truncated: bool)
    ensures RunOf(EmptyNight(truncated), Run(if truncated then {} else {LOST}, {}))
        && Missing(EmptyNight(truncated), "1")
  {
    assert ONE_ROW[..0] == [];
    assert Officials(ONE_ROW) == map["1" := ONE_ROW[0]];
    assert InventoryOf(Listed([], truncated), NoBucket) == Inventory(map[], {});
  }

  /** One document without a PDF, a complete, a truncated and again a complete listing: reported twice. */
  lemma ReportedTwice() returns (nights: seq<Night>, runs: seq<Run>)
    ensures |nights| == |runs| == 3 && forall i | 0 <= i < 3 :: RunOf(nights[i], runs[i]) && Missing(nights[i], "1")
    ensures NewIn(runs, 0, LOST) && NewIn(runs, 2, LOST) && forall i | 0 <= i < 3 :: runs[i].failed == {}
  {
    nights := [EmptyNight(false), EmptyNight(true), EmptyNight(false)];
    runs := [Run({LOST}, {}), Run({}, {}), Run({LOST}, {})];
    EmptyNightFinds(false);
    EmptyNightFinds(true);
    NewOncePerEpisode(runs, 0, LOST);
    NewOncePerEpisode(runs, 2, LOST);
  }
}
