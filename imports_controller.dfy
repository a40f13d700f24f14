/**
  The import endpoints: a per-driver Excel file (Gofo or Cainiao) whose name
  is the driver's name, and a multi-driver Spoke sheet dispatched by its
  header ranges. Both find or create the day and each driver's route, insert
  only the parcels whose tracking the day does not hold yet, recount the
  route and record the import.
 */
module ImportsController {

  import opened Wrappers
  import opened Text
  import opened Seqs
  import opened Store
  import opened Drivers
  import opened ExcelParsers
  import opened SpokeParsers

  /** An uploaded spreadsheet: its original name and its decoded data rows */
  datatype ExcelFile = ExcelFile(originalName: string, records: seq<Record>)

  /** An uploaded PDF: its original name and its extracted text */
  datatype PdfFile = PdfFile(originalName: string, text: string)

  /** `NO_FILE`, `PARSE_ERROR`, or `IMPORT_ERROR` with the message of what was thrown */
  datatype ImportError = NoFile | ParseError | ImportFailed(message: string)

  datatype ExcelSummary = ExcelSummary(
    importId: nat, kind: Source, fileName: string, date: string,
    chauffeurId: nat, chauffeurNom: string,
    imported: nat, skipped: nat, total: nat, journeeId: nat)

  datatype DriverOutcome =
    | DriverNotFound(nom: string)
    | DriverImported(nom: string, chauffeurId: nat, imported: nat, totalSpoke: nat)

  datatype SpokeSummary = SpokeSummary(fileName: string, date: string, total: nat, chauffeurs: seq<DriverOutcome>)

  const EmptyFileMessage := "Fichier vide ou format invalide"

  function DriverNotFoundMessage(name: string): string {
    "Chauffeur \"" + name + "\" non trouvé. Vérifiez le nom du fichier."
  }

  // ---------------------------------------------------------------------
  // The driver's name from the file name
  // ---------------------------------------------------------------------

  /** The last position of `c` in `s` */
  function LastIndexOf(s: string, c: char): (r: Option<nat>)
    ensures r.Some? ==> r.value < |s| && s[r.value] == c && forall k :: r.value < k < |s| ==> s[k] != c
    ensures r.None? ==> forall k :: 0 <= k < |s| ==> s[k] != c
  {
    if s == [] then None
    else if s[|s| - 1] == c then Some(|s| - 1)
    else LastIndexOf(s[..|s| - 1], c)
  }

  /** `path.basename` of a name without a trailing slash: what follows the last '/' */
  function BaseName(name: string): string {
    match LastIndexOf(name, '/')
    case Some(k) => name[k + 1..]
    case None => name
  }

  /**
    `path.basename(name, path.extname(name))`: the extension starts at the
    last '.' of the base name unless that dot is its first character, and
    ".." has none.
   */
  function FileStem(name: string): string {
    var base := BaseName(name);
    match LastIndexOf(base, '.')
    case Some(k) => if k > 0 && base != ".." then base[..k] else base
    case None => base
  }

  /** A file named after a driver: the stem is the name itself */
  lemma StemOfNamedFile(stem: string, ext: string)
    requires stem != [] && forall k :: 0 <= k < |stem| ==> stem[k] != '/' && stem[k] != '.'
    requires forall k :: 0 <= k < |ext| ==> ext[k] != '/' && ext[k] != '.'
    ensures FileStem(stem + "." + ext) == stem
  {
    var name := stem + "." + ext;
    assert LastIndexOf(name, '/').None?;
    assert name[|stem|] == '.';
    assert LastIndexOf(name, '.') == Some(|stem|);
    assert name[..|stem|] == stem;
  }

  /** A directory part is dropped */
  lemma StemDropsDirectory(dir: string, name: string)
    requires name != "" && forall k :: 0 <= k < |name| ==> name[k] != '/'
    ensures FileStem(dir + "/" + name) == FileStem(name)
  {
    var full := dir + "/" + name;
    assert full[|dir|] == '/';
    assert LastIndexOf(full, '/') == Some(|dir|);
    assert full[|dir| + 1..] == name;
  }

  // ---------------------------------------------------------------------
  // Find or create, and the parcel loop, on snapshots
  // ---------------------------------------------------------------------

  /** The day of `date`, created when the query finds none; only the days and the id counter change */
  function DayFor(t: Tables, date: string): (r: (Tables, nat))
    ensures r.0.(journees := t.journees, nextId := t.nextId) == t
    ensures exists k :: 0 <= k < |r.0.journees| && r.0.journees[k].id == r.1 && r.0.journees[k].date == date
    ensures DayByDate(t, date).Some? ==> r.0 == t
    ensures DayByDate(t, date).None? ==> r.0.journees == t.journees + [Journee(t.nextId, date, None, None, EnCours)]
  {
    match DayByDate(t, date)
    case Some(j) => (t, j.id)
    case None =>
      var r := AddJournee(t, date, None, None);
      assert r.0.journees[|t.journees|].id == r.1;
      r
  }

  /** The route of driver `cid` on day `jid`, created empty and not spoke-imported when the query finds none */
  function RouteFor(t: Tables, jid: nat, cid: nat): (r: (Tables, nat))
    ensures r.0.(tournees := t.tournees, nextId := t.nextId) == t
    ensures exists k :: 0 <= k < |r.0.tournees| && r.0.tournees[k].id == r.1 && RouteKey(r.0.tournees[k]) == (jid, cid)
    ensures RouteOf(t, jid, cid).Some? ==> r.0 == t
    ensures RouteOf(t, jid, cid).None? ==> r.0.tournees == t.tournees + [Tournee(t.nextId, jid, cid, 0, false)]
  {
    match RouteOf(t, jid, cid)
    case Some(rt) => (t, rt.id)
    case None =>
      var r := AddTournee(t, jid, cid, 0, false);
      assert r.0.tournees[|t.tournees|].id == r.1;
      r
  }

  /** One parcel: skipped when the day already holds its tracking, otherwise inserted unsorted on the route */
  function ImportOne(t: Tables, jid: nat, rid: nat, source: Source, p: NewParcel): (Tables, bool) {
    if ParcelInDay(t, jid, p.tracking).Some? then (t, false)
    else (AddColis(t, Some(rid), jid, p, source, NonTrie).0, true)
  }

  /** A row an import inserts */
  predicate ImportedRow(c: Colis, jid: nat, rid: nat, source: Source) {
    c.tourneeId == Some(rid) && c.journeeId == jid && c.source == source
    && c.statut == NonTrie && c.ordre.None? && c.numeroOrdre.None?
  }

  /** The tally of the parcel loop: the snapshot, the imported count and the skipped count */
  datatype Batch = Batch(tables: Tables, imported: nat, skipped: nat)

  /** One turn of the parcel loop */
  function ImportStep(b: Batch, jid: nat, rid: nat, source: Source, p: NewParcel): Batch {
    var step := ImportOne(b.tables, jid, rid, source, p);
    if step.1 then Batch(step.0, b.imported + 1, b.skipped) else Batch(step.0, b.imported, b.skipped + 1)
  }

  /**
    The parcel loop: every parcel is either imported or skipped, the imported
    ones are appended in order as unsorted rows of the route, and nothing but
    the parcels and the id counter changes.
   */
  function ImportAll(t: Tables, jid: nat, rid: nat, source: Source, ps: seq<NewParcel>): (r: Batch)
    ensures r.imported + r.skipped == |ps|
    ensures r.tables.(colis := t.colis, nextId := t.nextId) == t
    ensures |r.tables.colis| == |t.colis| + r.imported && r.tables.colis[..|t.colis|] == t.colis
    ensures forall k :: |t.colis| <= k < |r.tables.colis| ==> ImportedRow(r.tables.colis[k], jid, rid, source)
  {
    if ps == [] then Batch(t, 0, 0)
    else ImportStep(ImportAll(t, jid, rid, source, ps[..|ps| - 1]), jid, rid, source, ps[|ps| - 1])
  }

  lemma {:induction false} ImportAllStep(t: Tables, jid: nat, rid: nat, source: Source, ps: seq<NewParcel>, i: nat)
    requires i < |ps|
    ensures ImportAll(t, jid, rid, source, ps[..i + 1]) == ImportStep(ImportAll(t, jid, rid, source, ps[..i]), jid, rid, source, ps[i])
  {
    var q := ps[..i + 1];
    assert q[..|q| - 1] == ps[..i];
    assert q[|q| - 1] == ps[i];
  }

  /** The fields of a parcel row that an import wrote */
  function RowParcel(c: Colis): NewParcel {
    NewParcel(c.tracking, c.adresse, c.ville, c.codePostal)
  }

  function RowParcels(cs: seq<Colis>): seq<NewParcel> {
    seq(|cs|, k requires 0 <= k < |cs| => RowParcel(cs[k]))
  }

  /** Some parcel of day `jid` has tracking `tr`, ignoring case */
  ghost predicate DayHolds(t: Tables, jid: nat, tr: string) {
    exists k :: 0 <= k < |t.colis| && DayTrackingKey(t.colis[k]) == (jid, Lower(tr))
  }

  /**
    The parcels of the file whose tracking neither the day nor an earlier
    parcel of the file holds, ignoring case, in file order
   */
  ghost function FirstNew(t: Tables, jid: nat, ps: seq<NewParcel>): seq<NewParcel> {
    if ps == [] then []
    else
      var n := |ps| - 1;
      FirstNew(t, jid, ps[..n])
      + (if !DayHolds(t, jid, ps[n].tracking) && forall j :: 0 <= j < n ==> Lower(ps[j].tracking) != Lower(ps[n].tracking)
         then [ps[n]] else [])
  }

  /** One more parcel of the file is new exactly when no parcel before it nor the day has its tracking */
  lemma FirstNewSnoc(t: Tables, jid: nat, ps: seq<NewParcel>)
    requires ps != []
    ensures var n := |ps| - 1;
      FirstNew(t, jid, ps) == FirstNew(t, jid, ps[..n])
        + (if !DayHolds(t, jid, ps[n].tracking) && !exists j :: 0 <= j < n && Lower(ps[..n][j].tracking) == Lower(ps[n].tracking)
           then [ps[n]] else [])
  {
    var n := |ps| - 1;
    assert forall j :: 0 <= j < n ==> ps[..n][j] == ps[j];
    assert (exists j :: 0 <= j < n && Lower(ps[..n][j].tracking) == Lower(ps[n].tracking))
      <==> exists j :: 0 <= j < n && Lower(ps[j].tracking) == Lower(ps[n].tracking);
  }

  lemma {:induction false} FirstNewFromFile(t: Tables, jid: nat, ps: seq<NewParcel>, i: nat)
    requires i < |FirstNew(t, jid, ps)|
    ensures exists j :: 0 <= j < |ps| && FirstNew(t, jid, ps)[i] == ps[j]
  {
    var n := |ps| - 1;
    var init := FirstNew(t, jid, ps[..n]);
    if i < |init| {
      FirstNewFromFile(t, jid, ps[..n], i);
      var j :| 0 <= j < n && init[i] == ps[..n][j];
      assert FirstNew(t, jid, ps)[i] == ps[j];
    } else {
      assert FirstNew(t, jid, ps)[i] == ps[n];
    }
  }

  /** Under unique trackings a parcel is skipped exactly when its day already holds its tracking */
  lemma {:induction false} ImportOneSkips(t: Tables, jid: nat, rid: nat, source: Source, p: NewParcel)
    requires TrackingsUnique(t)
    ensures !ImportOne(t, jid, rid, source, p).1 <==>
      exists k :: 0 <= k < |t.colis| && DayTrackingKey(t.colis[k]) == (jid, Lower(p.tracking))
    ensures TrackingsUnique(ImportOne(t, jid, rid, source, p).0)
  {
    var key := (jid, Lower(p.tracking));
    if ParcelInDay(t, jid, p.tracking).None? {
      UniqueMissing(t.colis, DayTrackingKey, key);
      var c := Colis(t.nextId, Some(rid), jid, p.tracking, p.adresse, p.ville, p.codePostal, source, NonTrie, None, None);
      assert DayTrackingKey(c) == key;
      UniqueSnoc(t.colis, c, DayTrackingKey);
    } else {
      var c := ParcelInDay(t, jid, p.tracking).value;
      var k :| 0 <= k < |t.colis| && t.colis[k] == c;
    }
  }

  /** After one parcel the day holds its tracking and still holds every tracking it held */
  lemma StepCovers(t: Tables, jid: nat, rid: nat, source: Source, p: NewParcel, q: NewParcel)
    requires TrackingsUnique(t)
    requires ParcelInDay(t, jid, q.tracking).Some? || Lower(q.tracking) == Lower(p.tracking)
    ensures ParcelInDay(ImportOne(t, jid, rid, source, p).0, jid, q.tracking).Some?
  {
    ImportOneSkips(t, jid, rid, source, p);
    var next := ImportOne(t, jid, rid, source, p).0;
    var key := (jid, Lower(q.tracking));
    var i: nat;
    if ParcelInDay(t, jid, q.tracking).Some? {
      var c := ParcelInDay(t, jid, q.tracking).value;
      i :| 0 <= i < |t.colis| && t.colis[i] == c;
    } else {
      i := |t.colis|;
    }
    assert DayTrackingKey(next.colis[i]) == key;
    UniqueFind(next.colis, DayTrackingKey, i);
  }

  lemma StepCoversAll(t: Tables, jid: nat, rid: nat, source: Source, ps: seq<NewParcel>, n: nat)
    requires TrackingsUnique(t) && n < |ps|
    requires forall k :: 0 <= k < n ==> ParcelInDay(t, jid, ps[..n][k].tracking).Some?
    ensures forall k :: 0 <= k <= n ==> ParcelInDay(ImportOne(t, jid, rid, source, ps[n]).0, jid, ps[k].tracking).Some?
  {
    forall k | 0 <= k <= n ensures ParcelInDay(ImportOne(t, jid, rid, source, ps[n]).0, jid, ps[k].tracking).Some? {
      if k < n {
        assert ps[..n][k] == ps[k];
      }
      StepCovers(t, jid, rid, source, ps[n], ps[k]);
    }
  }

  /** The parcel loop keeps trackings unique, and afterwards the day holds every tracking of the file */
  lemma {:induction false} ImportAllCovers(t: Tables, jid: nat, rid: nat, source: Source, ps: seq<NewParcel>)
    requires TrackingsUnique(t)
    ensures TrackingsUnique(ImportAll(t, jid, rid, source, ps).tables)
    ensures forall k :: 0 <= k < |ps| ==> ParcelInDay(ImportAll(t, jid, rid, source, ps).tables, jid, ps[k].tracking).Some?
  {
    if ps != [] {
      var n := |ps| - 1;
      ImportAllCovers(t, jid, rid, source, ps[..n]);
      var prev := ImportAll(t, jid, rid, source, ps[..n]).tables;
      ImportOneSkips(prev, jid, rid, source, ps[n]);
      StepCoversAll(prev, jid, rid, source, ps, n);
    }
  }

  /**
    On a store with unique trackings, the rows the parcel loop appends carry,
    in file order, exactly the parcels whose tracking neither the day nor an
    earlier parcel of the file held.
   */
  lemma {:induction false} ImportAllRows(t: Tables, jid: nat, rid: nat, source: Source, ps: seq<NewParcel>)
    requires TrackingsUnique(t)
    ensures var r := ImportAll(t, jid, rid, source, ps).tables;
      RowParcels(r.colis[|t.colis|..]) == FirstNew(t, jid, ps)
  {
    if ps == [] {
      assert ImportAll(t, jid, rid, source, ps).tables.colis[|t.colis|..] == [];
    } else {
      var n := |ps| - 1;
      var init := ps[..n];
      ImportAllRows(t, jid, rid, source, init);
      var prev := ImportAll(t, jid, rid, source, init).tables;
      assert ImportAll(t, jid, rid, source, ps).tables == ImportOne(prev, jid, rid, source, ps[n]).0;
      HeldExactly(t, jid, rid, source, init, ps[n]);
      FirstNewSnoc(t, jid, ps);
      AppendedRows(t, prev, jid, rid, source, ps[n]);
    }
  }

  /**
    After the first parcels of a file, the next parcel is inserted exactly
    when neither the store before nor one of those parcels had its tracking
   */
  lemma HeldExactly(t: Tables, jid: nat, rid: nat, source: Source, init: seq<NewParcel>, p: NewParcel)
    requires TrackingsUnique(t)
    requires RowParcels(ImportAll(t, jid, rid, source, init).tables.colis[|t.colis|..]) == FirstNew(t, jid, init)
    ensures var prev := ImportAll(t, jid, rid, source, init).tables;
      ImportOne(prev, jid, rid, source, p).1
      <==> !DayHolds(t, jid, p.tracking) && !exists j :: 0 <= j < |init| && Lower(init[j].tracking) == Lower(p.tracking)
  {
    var prev := ImportAll(t, jid, rid, source, init).tables;
    ImportAllCovers(t, jid, rid, source, init);
    ImportOneSkips(prev, jid, rid, source, p);
    if DayHolds(t, jid, p.tracking) {
      HeldFromStore(t, prev, jid, p.tracking);
    }
    if exists j :: 0 <= j < |init| && Lower(init[j].tracking) == Lower(p.tracking) {
      var j :| 0 <= j < |init| && Lower(init[j].tracking) == Lower(p.tracking);
      HeldFromFile(prev, jid, init[j].tracking, p.tracking);
    }
    if DayHolds(prev, jid, p.tracking) {
      HeldOrigin(t, prev, jid, init, p.tracking);
    }
  }

  lemma HeldFromStore(t: Tables, prev: Tables, jid: nat, tr: string)
    requires |t.colis| <= |prev.colis| && prev.colis[..|t.colis|] == t.colis
    requires DayHolds(t, jid, tr)
    ensures DayHolds(prev, jid, tr)
  {
    var k :| 0 <= k < |t.colis| && DayTrackingKey(t.colis[k]) == (jid, Lower(tr));
    assert prev.colis[k] == t.colis[k];
  }

  lemma HeldFromFile(prev: Tables, jid: nat, earlier: string, tr: string)
    requires ParcelInDay(prev, jid, earlier).Some? && Lower(earlier) == Lower(tr)
    ensures DayHolds(prev, jid, tr)
  {
    var c := ParcelInDay(prev, jid, earlier).value;
    var k :| 0 <= k < |prev.colis| && prev.colis[k] == c;
    assert DayTrackingKey(prev.colis[k]) == (jid, Lower(tr));
  }

  lemma HeldOrigin(t: Tables, prev: Tables, jid: nat, init: seq<NewParcel>, tr: string)
    requires |t.colis| <= |prev.colis| && prev.colis[..|t.colis|] == t.colis
    requires RowParcels(prev.colis[|t.colis|..]) == FirstNew(t, jid, init)
    requires DayHolds(prev, jid, tr)
    ensures DayHolds(t, jid, tr) || exists j :: 0 <= j < |init| && Lower(init[j].tracking) == Lower(tr)
  {
    var k :| 0 <= k < |prev.colis| && DayTrackingKey(prev.colis[k]) == (jid, Lower(tr));
    if k >= |t.colis| {
      var i := k - |t.colis|;
      assert RowParcels(prev.colis[|t.colis|..])[i] == RowParcel(prev.colis[k]);
      FirstNewFromFile(t, jid, init, i);
      var j :| 0 <= j < |init| && FirstNew(t, jid, init)[i] == init[j];
      assert Lower(init[j].tracking) == Lower(tr);
    } else {
      assert t.colis[k] == prev.colis[k];
    }
  }

  /** The parcel step appends the row of an imported parcel and nothing when it skips */
  lemma AppendedRows(t: Tables, prev: Tables, jid: nat, rid: nat, source: Source, p: NewParcel)
    requires |t.colis| <= |prev.colis|
    ensures var next := ImportOne(prev, jid, rid, source, p);
      RowParcels(next.0.colis[|t.colis|..]) == RowParcels(prev.colis[|t.colis|..]) + (if next.1 then [p] else [])
  {
    var next := ImportOne(prev, jid, rid, source, p);
    if next.1 {
      var c := Colis(prev.nextId, Some(rid), jid, p.tracking, p.adresse, p.ville, p.codePostal, source, NonTrie, None, None);
      assert next.0.colis[|t.colis|..] == prev.colis[|t.colis|..] + [c];
    }
  }

  /** When the day already holds every tracking of the file, the loop skips them all and writes nothing */
  lemma {:induction false} ImportAllPresent(t: Tables, jid: nat, rid: nat, source: Source, ps: seq<NewParcel>)
    requires forall k :: 0 <= k < |ps| ==> ParcelInDay(t, jid, ps[k].tracking).Some?
    ensures ImportAll(t, jid, rid, source, ps) == Batch(t, 0, |ps|)
  {
    if ps != [] {
      var init := ps[..|ps| - 1];
      assert forall k :: 0 <= k < |init| ==> init[k] == ps[k];
      ImportAllPresent(t, jid, rid, source, init);
    }
  }

  // ---------------------------------------------------------------------
  // processExcelImport
  // ---------------------------------------------------------------------

  /** The fields of a parsed row that the insert writes (the department is not stored) */
  function ToNewParcel(p: ParsedColis): NewParcel {
    NewParcel(p.tracking, p.adresse, p.ville, p.codePostal)
  }

  function ToNewParcels(ps: seq<ParsedColis>): (r: seq<NewParcel>)
    ensures |r| == |ps| && forall k :: 0 <= k < |ps| ==> r[k].tracking == ps[k].tracking
  {
    seq(|ps|, k requires 0 <= k < |ps| => ToNewParcel(ps[k]))
  }

  /** `${prenom || ''} ${nom}`.trim() */
  function DriverLabel(c: Chauffeur): string {
    Trim(c.prenom.GetOr("") + " " + c.nom)
  }

  /** The route's count column set to the number of parcels bound to it */
  function Recount(t: Tables, rid: nat): (r: Tables)
    ensures r.(tournees := t.tournees) == t
    ensures forall k :: 0 <= k < |r.tournees| && r.tournees[k].id == rid ==> r.tournees[k].nbColis == RouteParcelCount(r, rid)
  {
    t.(tournees := SetNbColis(t.tournees, rid, RouteParcelCount(t, rid)))
  }

  /** The parsed file, once the day exists and the driver is known */
  function ExcelImportFor(t: Tables, jid: nat, date: string, file: ExcelFile, kind: Source, c: Chauffeur,
                          parcels: seq<NewParcel>, userId: nat): (Tables, ExcelSummary)
  {
    var (t2, rid) := RouteFor(t, jid, c.id);
    var b := ImportAll(t2, jid, rid, kind, parcels);
    var t4 := Recount(b.tables, rid);
    var (t5, iid) := AddImport(t4, userId, jid, Some(c.id), kind, file.originalName, b.imported);
    (t5, ExcelSummary(iid, kind, file.originalName, date, c.id, DriverLabel(c), b.imported, b.skipped, |parcels|, jid))
  }

  /**
    `processExcelImport`: the day is found or created first; a file name that
    names no driver, or a file with no parcel, fails with the day already
    written and nothing else.
   */
  function ExcelImport(t: Tables, date: string, file: ExcelFile, kind: Source, parcels: seq<NewParcel>, userId: nat)
    : (r: (Tables, Result<ExcelSummary, ImportError>))
    ensures r.0.chauffeurs == t.chauffeurs && r.0.scans == t.scans && r.0.users == t.users
    ensures r.1.Failure? ==> r.0.(journees := t.journees, nextId := t.nextId) == t && r.1.error.ImportFailed?
    ensures r.1.Success? ==> |parcels| > 0 && r.1.value.total == |parcels| && r.1.value.kind == kind
  {
    var (t1, jid) := DayFor(t, date);
    var name := FileStem(file.originalName);
    match FindByName(t1.chauffeurs, name, None)
    case None => (t1, Failure(ImportFailed(DriverNotFoundMessage(name))))
    case Some(c) =>
      if |parcels| == 0 then (t1, Failure(ImportFailed(EmptyFileMessage)))
      else
        var (t5, summary) := ExcelImportFor(t1, jid, date, file, kind, c, parcels, userId);
        (t5, Success(summary))
  }

  /** `importGofo` */
  function GofoImport(t: Tables, date: string, file: Option<ExcelFile>, userId: nat): (Tables, Result<ExcelSummary, ImportError>) {
    match file
    case None => (t, Failure(NoFile))
    case Some(f) => ExcelImport(t, date, f, Gofo, ToNewParcels(Collect(f.records, GofoRow)), userId)
  }

  /** `importCainiao` */
  function CainiaoImport(t: Tables, date: string, file: Option<ExcelFile>, userId: nat): (Tables, Result<ExcelSummary, ImportError>) {
    match file
    case None => (t, Failure(NoFile))
    case Some(f) => ExcelImport(t, date, f, Cainiao, ToNewParcels(Collect(f.records, CainiaoRow)), userId)
  }

  /** A file whose name names no active driver fails with that name in the message, and only the day is written */
  lemma ExcelUnknownDriver(t: Tables, date: string, file: ExcelFile, kind: Source, parcels: seq<NewParcel>, userId: nat)
    requires FindByName(t.chauffeurs, FileStem(file.originalName), None).None?
    ensures var r := ExcelImport(t, date, file, kind, parcels, userId);
      r.1 == Failure(ImportFailed(DriverNotFoundMessage(FileStem(file.originalName))))
      && r.0.(journees := t.journees, nextId := t.nextId) == t
  {
  }

  /** A file with no parcel fails, and only the day is written */
  lemma ExcelEmptyFile(t: Tables, date: string, file: ExcelFile, kind: Source, userId: nat)
    requires FindByName(t.chauffeurs, FileStem(file.originalName), None).Some?
    ensures var r := ExcelImport(t, date, file, kind, [], userId);
      r.1 == Failure(ImportFailed(EmptyFileMessage))
      && r.0.(journees := t.journees, nextId := t.nextId) == t
  {
  }

  /**
    A successful import accounts for every parcel of the file as imported or
    skipped, inserts exactly the imported ones as unsorted rows of the
    driver's route on that day, leaves the route's count equal to its
    parcels, and appends one import record carrying the imported count.
   */
  lemma ExcelImportCounts(t: Tables, date: string, file: ExcelFile, kind: Source, parcels: seq<NewParcel>, userId: nat)
    requires ExcelImport(t, date, file, kind, parcels, userId).1.Success?
    ensures var r := ExcelImport(t, date, file, kind, parcels, userId); var s := r.1.value;
      s.imported + s.skipped == s.total == |parcels|
      && s.chauffeurId == FindByName(t.chauffeurs, FileStem(file.originalName), None).value.id
      && s.journeeId == DayFor(t, date).1 && s.date == date
      && r.0.chauffeurs == t.chauffeurs && r.0.scans == t.scans && r.0.users == t.users
      && r.0.imports == t.imports + [Import(s.importId, userId, s.journeeId, Some(s.chauffeurId), kind, file.originalName, s.imported)]
      && |r.0.colis| == |t.colis| + s.imported && r.0.colis[..|t.colis|] == t.colis
  {
    var (t1, jid) := DayFor(t, date);
    var c := FindByName(t1.chauffeurs, FileStem(file.originalName), None).value;
    ExcelForFacts(t1, jid, date, file, kind, c, parcels, userId);
  }

  lemma ExcelForFacts(t: Tables, jid: nat, date: string, file: ExcelFile, kind: Source, c: Chauffeur, parcels: seq<NewParcel>, userId: nat)
    ensures var r := ExcelImportFor(t, jid, date, file, kind, c, parcels, userId); var s := r.1;
      s.imported + s.skipped == s.total == |parcels|
      && s.chauffeurId == c.id && s.journeeId == jid && s.date == date
      && r.0.journees == t.journees && r.0.chauffeurs == t.chauffeurs && r.0.scans == t.scans && r.0.users == t.users
      && r.0.imports == t.imports + [Import(s.importId, userId, jid, Some(c.id), kind, file.originalName, s.imported)]
      && |r.0.colis| == |t.colis| + s.imported && r.0.colis[..|t.colis|] == t.colis
    ensures var r := ExcelImportFor(t, jid, date, file, kind, c, parcels, userId);
      exists k :: 0 <= k < |r.0.tournees| && RouteKey(r.0.tournees[k]) == (jid, c.id)
        && r.0.tournees[k].nbColis == RouteParcelCount(r.0, r.0.tournees[k].id)
        && forall i :: |t.colis| <= i < |r.0.colis| ==> ImportedRow(r.0.colis[i], jid, r.0.tournees[k].id, kind)
  {
    var (t2, rid) := RouteFor(t, jid, c.id);
    var k :| 0 <= k < |t2.tournees| && t2.tournees[k].id == rid && RouteKey(t2.tournees[k]) == (jid, c.id);
    var t3 := ImportAll(t2, jid, rid, kind, parcels).tables;
    var r := ExcelImportFor(t, jid, date, file, kind, c, parcels, userId);
    assert r.0.colis == t3.colis;
    assert r.0.tournees == Recount(t3, rid).tournees;
    assert r.0.tournees[k].id == rid && RouteKey(r.0.tournees[k]) == (jid, c.id);
  }

  // ---------------------------------------------------------------------
  // The store's uniqueness invariant, and importing the same file twice
  // ---------------------------------------------------------------------

  /** One day per date, one route per driver and day, one parcel per tracking and day */
  ghost predicate Consistent(t: Tables) {
    UniqueBy(t.journees, DayDate) && UniqueBy(t.tournees, RouteKey) && TrackingsUnique(t)
  }

  /** Under one day per date, the day found or created is afterwards the one the query finds */
  lemma DayForKeeps(t: Tables, date: string)
    requires UniqueBy(t.journees, DayDate)
    ensures var r := DayFor(t, date);
      UniqueBy(r.0.journees, DayDate) && DayByDate(r.0, date).Some? && DayByDate(r.0, date).value.id == r.1
  {
    if DayByDate(t, date).None? {
      UniqueMissing(t.journees, DayDate, date);
      var j := Journee(t.nextId, date, None, None, EnCours);
      UniqueSnoc(t.journees, j, DayDate);
      SelectSnoc(t.journees, j, DayDate, date);
    }
  }

  /** Under one route per driver and day, the route found or created is afterwards the one the query finds */
  lemma RouteForKeeps(t: Tables, jid: nat, cid: nat)
    requires UniqueBy(t.tournees, RouteKey)
    ensures var r := RouteFor(t, jid, cid);
      UniqueBy(r.0.tournees, RouteKey) && RouteOf(r.0, jid, cid).Some? && RouteOf(r.0, jid, cid).value.id == r.1
  {
    if RouteOf(t, jid, cid).None? {
      UniqueMissing(t.tournees, RouteKey, (jid, cid));
      var rt := Tournee(t.nextId, jid, cid, 0, false);
      UniqueSnoc(t.tournees, rt, RouteKey);
      SelectSnoc(t.tournees, rt, RouteKey, (jid, cid));
    }
  }

  /** Recounting a route keeps every route's key and id, so the route query still finds it */
  lemma RecountKeeps(t: Tables, rid: nat, jid: nat, cid: nat)
    requires UniqueBy(t.tournees, RouteKey)
    ensures UniqueBy(Recount(t, rid).tournees, RouteKey)
    ensures RouteOf(t, jid, cid).Some? ==>
      RouteOf(Recount(t, rid), jid, cid).Some? && RouteOf(Recount(t, rid), jid, cid).value.id == RouteOf(t, jid, cid).value.id
  {
    var ts := Recount(t, rid).tournees;
    UniqueSameKeys(t.tournees, ts, RouteKey);
    if RouteOf(t, jid, cid).Some? {
      var rt := RouteOf(t, jid, cid).value;
      var k :| 0 <= k < |t.tournees| && t.tournees[k] == rt;
      assert RouteKey(ts[k]) == (jid, cid);
      UniqueFind(ts, RouteKey, k);
    }
  }

  /** A driver's file, once the day and the driver are known, keeps the store consistent */
  lemma ExcelForKeeps(t: Tables, jid: nat, date: string, file: ExcelFile, kind: Source, c: Chauffeur, parcels: seq<NewParcel>, userId: nat)
    requires Consistent(t)
    ensures Consistent(ExcelImportFor(t, jid, date, file, kind, c, parcels, userId).0)
  {
    var (t2, rid) := RouteFor(t, jid, c.id);
    RouteForKeeps(t, jid, c.id);
    ImportAllCovers(t2, jid, rid, kind, parcels);
    var b := ImportAll(t2, jid, rid, kind, parcels);
    RecountKeeps(b.tables, rid, jid, c.id);
  }

  /** `processExcelImport` keeps the store consistent */
  lemma ExcelKeeps(t: Tables, date: string, file: ExcelFile, kind: Source, parcels: seq<NewParcel>, userId: nat)
    requires Consistent(t)
    ensures Consistent(ExcelImport(t, date, file, kind, parcels, userId).0)
  {
    var (t1, jid) := DayFor(t, date);
    DayForKeeps(t, date);
    match FindByName(t1.chauffeurs, FileStem(file.originalName), None)
    case None =>
    case Some(c) =>
      if |parcels| > 0 {
        ExcelForKeeps(t1, jid, date, file, kind, c, parcels, userId);
      }
  }

  /**
    On a consistent store, importing the same file a second time finds the
    same day, driver and route, skips every parcel and inserts none.
   */
  lemma ExcelRerun(t: Tables, date: string, file: ExcelFile, kind: Source, parcels: seq<NewParcel>, userId: nat)
    requires Consistent(t)
    requires ExcelImport(t, date, file, kind, parcels, userId).1.Success?
    ensures var r1 := ExcelImport(t, date, file, kind, parcels, userId);
      var r2 := ExcelImport(r1.0, date, file, kind, parcels, userId);
      r2.1.Success? && r2.1.value.imported == 0 && r2.1.value.skipped == |parcels|
      && r2.1.value.journeeId == r1.1.value.journeeId && r2.1.value.chauffeurId == r1.1.value.chauffeurId
      && r2.0.colis == r1.0.colis && r2.0.tournees == r1.0.tournees
  {
    var (t1, jid) := DayFor(t, date);
    DayForKeeps(t, date);
    var c := FindByName(t1.chauffeurs, FileStem(file.originalName), None).value;
    var (t2, rid) := RouteFor(t1, jid, c.id);
    RouteForKeeps(t1, jid, c.id);
    ImportAllCovers(t2, jid, rid, kind, parcels);
    var b := ImportAll(t2, jid, rid, kind, parcels);
    RecountKeeps(b.tables, rid, jid, c.id);
    var t5 := ExcelImport(t, date, file, kind, parcels, userId).0;
    assert t5 == AddImport(Recount(b.tables, rid), userId, jid, Some(c.id), kind, file.originalName, b.imported).0;
    SecondRun(t5, date, jid, file, kind, c, rid, parcels, userId);
    assert RouteParcelCount(t5, rid) == RouteParcelCount(b.tables, rid);
    SetNbColisTwice(b.tables.tournees, rid, RouteParcelCount(b.tables, rid));
  }

  /** Setting a route's count twice to the same value is setting it once */
  lemma SetNbColisTwice(ts: seq<Tournee>, rid: nat, n: nat)
    ensures SetNbColis(SetNbColis(ts, rid, n), rid, n) == SetNbColis(ts, rid, n)
  {
  }

  /** The second run, on the store the first one left */
  lemma SecondRun(t: Tables, date: string, jid: nat, file: ExcelFile, kind: Source, c: Chauffeur, rid: nat, parcels: seq<NewParcel>, userId: nat)
    requires DayByDate(t, date).Some? && DayByDate(t, date).value.id == jid
    requires FindByName(t.chauffeurs, FileStem(file.originalName), None) == Some(c)
    requires RouteOf(t, jid, c.id).Some? && RouteOf(t, jid, c.id).value.id == rid
    requires forall k :: 0 <= k < |parcels| ==> ParcelInDay(t, jid, parcels[k].tracking).Some?
    requires |parcels| > 0
    ensures var r := ExcelImport(t, date, file, kind, parcels, userId);
      r.1.Success? && r.1.value.imported == 0 && r.1.value.skipped == |parcels|
      && r.1.value.journeeId == jid && r.1.value.chauffeurId == c.id && r.0.colis == t.colis
      && r.0.tournees == SetNbColis(t.tournees, rid, RouteParcelCount(t, rid))
  {
    ImportAllPresent(t, jid, rid, kind, parcels);
  }

  // ---------------------------------------------------------------------
  // The Spoke import on snapshots
  // ---------------------------------------------------------------------

  /** A Spoke line's parcel: its tracking and address; the town, postcode and stop number are not stored */
  function SpokeParcels(cs: seq<SpokeColis>): seq<NewParcel> {
    seq(|cs|, k requires 0 <= k < |cs| => NewParcel(cs[k].tracking, Some(cs[k].adresse), None, None))
  }

  /** One driver of the sheet: unknown, or its route found or created, its parcels imported and the route recounted */
  function ImportDriver(t: Tables, jid: nat, d: SpokeDriver): (r: (Tables, DriverOutcome))
    ensures r.0.(tournees := t.tournees, colis := t.colis, nextId := t.nextId) == t
    ensures OutcomeFits(r.1, d, t.chauffeurs)
  {
    match FindByName(t.chauffeurs, d.nom, None)
    case None => (t, DriverNotFound(d.nom))
    case Some(c) =>
      var (t2, rid) := RouteFor(t, jid, c.id);
      var b := ImportAll(t2, jid, rid, Spoke, SpokeParcels(d.colis));
      (Recount(b.tables, rid), DriverImported(d.nom, c.id, b.imported, |d.colis|))
  }

  /**
    A driver the table knows gets its route on the day found or created; the
    parcels the loop inserts are appended as unsorted Spoke rows of that route
    and that day, as many as the outcome reports; afterwards the route's
    count equals its parcels.
   */
  lemma ImportDriverFacts(t: Tables, jid: nat, d: SpokeDriver)
    requires FindByName(t.chauffeurs, d.nom, None).Some?
    ensures var r := ImportDriver(t, jid, d); var c := FindByName(t.chauffeurs, d.nom, None).value;
      r.1.DriverImported?
      && |r.0.colis| == |t.colis| + r.1.imported && r.0.colis[..|t.colis|] == t.colis
      && (exists k :: 0 <= k < |r.0.tournees| && RouteKey(r.0.tournees[k]) == (jid, c.id)
            && r.0.tournees[k].nbColis == RouteParcelCount(r.0, r.0.tournees[k].id)
            && forall i :: |t.colis| <= i < |r.0.colis| ==> ImportedRow(r.0.colis[i], jid, r.0.tournees[k].id, Spoke))
  {
    var c := FindByName(t.chauffeurs, d.nom, None).value;
    var (t2, rid) := RouteFor(t, jid, c.id);
    var k :| 0 <= k < |t2.tournees| && t2.tournees[k].id == rid && RouteKey(t2.tournees[k]) == (jid, c.id);
    var t3 := ImportAll(t2, jid, rid, Spoke, SpokeParcels(d.colis)).tables;
    var r := ImportDriver(t, jid, d);
    assert r.0 == Recount(t3, rid);
    assert r.0.tournees[k].id == rid && RouteKey(r.0.tournees[k]) == (jid, c.id);
  }

  function ImportedCount(o: DriverOutcome): nat {
    match o
    case DriverNotFound(_) => 0
    case DriverImported(_, _, n, _) => n
  }

  function TotalImported(os: seq<DriverOutcome>): nat {
    if os == [] then 0 else TotalImported(os[..|os| - 1]) + ImportedCount(os[|os| - 1])
  }

  lemma TotalImportedSnoc(os: seq<DriverOutcome>, o: DriverOutcome)
    ensures TotalImported(os + [o]) == TotalImported(os) + ImportedCount(o)
  {
    assert (os + [o])[..|os|] == os;
  }

  /** The tally of the driver loop */
  datatype SpokeBatch = SpokeBatch(tables: Tables, total: nat, outcomes: seq<DriverOutcome>)

  function DriverStep(b: SpokeBatch, jid: nat, d: SpokeDriver): (r: SpokeBatch)
    ensures |r.outcomes| == |b.outcomes| + 1 && r.outcomes[..|b.outcomes|] == b.outcomes
    ensures OutcomeFits(r.outcomes[|b.outcomes|], d, b.tables.chauffeurs)
    ensures r.total == b.total + ImportedCount(r.outcomes[|b.outcomes|])
    ensures r.tables.(tournees := b.tables.tournees, colis := b.tables.colis, nextId := b.tables.nextId) == b.tables
  {
    var (t, o) := ImportDriver(b.tables, jid, d);
    SpokeBatch(t, b.total + ImportedCount(o), b.outcomes + [o])
  }

  /** The outcome a driver of the sheet has against the drivers table */
  predicate OutcomeFits(o: DriverOutcome, d: SpokeDriver, cs: seq<Chauffeur>) {
    o.nom == d.nom
    && (o.DriverNotFound? <==> FindByName(cs, d.nom, None).None?)
    && (o.DriverImported? ==> o.chauffeurId == FindByName(cs, d.nom, None).value.id && o.totalSpoke == |d.colis| && o.imported <= |d.colis|)
  }

  /** Each outcome fits the driver of the sheet at the same position */
  predicate AllFit(os: seq<DriverOutcome>, ds: seq<SpokeDriver>, cs: seq<Chauffeur>) {
    |os| == |ds|
    && (ds != [] ==> AllFit(os[..|os| - 1], ds[..|ds| - 1], cs) && OutcomeFits(os[|os| - 1], ds[|ds| - 1], cs))
  }

  lemma {:induction false} AllFitAt(os: seq<DriverOutcome>, ds: seq<SpokeDriver>, cs: seq<Chauffeur>, k: nat)
    requires AllFit(os, ds, cs) && k < |ds|
    ensures OutcomeFits(os[k], ds[k], cs)
  {
    if k < |ds| - 1 {
      AllFitAt(os[..|os| - 1], ds[..|ds| - 1], cs, k);
    }
  }

  /** The driver loop */
  function ImportDrivers(t: Tables, jid: nat, ds: seq<SpokeDriver>): SpokeBatch {
    if ds == [] then SpokeBatch(t, 0, [])
    else DriverStep(ImportDrivers(t, jid, ds[..|ds| - 1]), jid, ds[|ds| - 1])
  }

  /**
    The driver loop gives one outcome per driver of the sheet, in order, each
    telling whether the driver is known; the total is the sum of what each
    imported; only routes, parcels and the id counter change.
   */
  lemma {:induction false} ImportDriversFacts(t: Tables, jid: nat, ds: seq<SpokeDriver>)
    ensures var r := ImportDrivers(t, jid, ds);
      |r.outcomes| == |ds|
      && AllFit(r.outcomes, ds, t.chauffeurs)
      && r.total == TotalImported(r.outcomes)
      && r.tables.(tournees := t.tournees, colis := t.colis, nextId := t.nextId) == t
  {
    if ds != [] {
      var n := |ds| - 1;
      ImportDriversFacts(t, jid, ds[..n]);
      var prev := ImportDrivers(t, jid, ds[..n]);
      var r := DriverStep(prev, jid, ds[n]);
      assert ImportDrivers(t, jid, ds) == r;
      var o := r.outcomes[n];
      assert r.outcomes == prev.outcomes + [o];
      TotalImportedSnoc(prev.outcomes, o);
    }
  }

  lemma {:induction false} ImportDriversStep(t: Tables, jid: nat, ds: seq<SpokeDriver>, i: nat)
    requires i < |ds|
    ensures ImportDrivers(t, jid, ds[..i + 1]) == DriverStep(ImportDrivers(t, jid, ds[..i]), jid, ds[i])
  {
    var q := ds[..i + 1];
    assert q[..|q| - 1] == ds[..i];
    assert q[|q| - 1] == ds[i];
  }

  /**
    `importSpoke`: the day is found or created first; a text without the
    driver header fails with the parser's message, a sheet with no driver
    left fails with `PARSE_ERROR`, and otherwise every driver is imported and
    one Spoke import record with the total is written.
   */
  function SpokeImport(t: Tables, date: string, file: Option<PdfFile>, userId: nat): (r: (Tables, Result<SpokeSummary, ImportError>))
    ensures r.1 == Failure(NoFile) <==> file.None?
    ensures r.1.Failure? ==> r.0.(journees := t.journees, nextId := t.nextId) == t
    ensures r.1.Success? ==> r.1.value.date == date && r.1.value.fileName == file.value.originalName
  {
    match file
    case None => (t, Failure(NoFile))
    case Some(f) =>
      var (t1, jid) := DayFor(t, date);
      match SpokeSheet(f.text)
      case Failure(e) => (t1, Failure(ImportFailed(e)))
      case Success(ds) =>
        if |ds| == 0 then (t1, Failure(ParseError))
        else
          var b := ImportDrivers(t1, jid, ds);
          var (t3, _) := AddImport(b.tables, userId, jid, None, Spoke, f.originalName, b.total);
          (t3, Success(SpokeSummary(f.originalName, date, b.total, b.outcomes)))
  }

  /** A text without the driver header fails with the parser's message, and only the day is written */
  lemma SpokeNoHeader(t: Tables, date: string, f: PdfFile, userId: nat)
    requires FindRanges(f.text, 0) == []
    ensures var r := SpokeImport(t, date, Some(f), userId);
      r.1 == Failure(ImportFailed(SpokeReadError + NoHeaderMessage))
      && r.0.(journees := t.journees, nextId := t.nextId) == t
  {
  }

  /** A sheet whose header names no driver with parcels fails with `PARSE_ERROR`, and only the day is written */
  lemma SpokeEmptyParse(t: Tables, date: string, f: PdfFile, userId: nat)
    requires SpokeSheet(f.text) == Success([])
    ensures var r := SpokeImport(t, date, Some(f), userId);
      r.1 == Failure(ParseError) && r.0.(journees := t.journees, nextId := t.nextId) == t
  {
  }

  /**
    A successful Spoke import reports, in sheet order, one outcome per driver
    the sheet assigned parcels to; the total is the sum of the imported
    counts; exactly one import record, of type spoke and without a driver,
    carries the total.
   */
  lemma SpokeImportFacts(t: Tables, date: string, f: PdfFile, userId: nat)
    requires SpokeImport(t, date, Some(f), userId).1.Success?
    ensures var r := SpokeImport(t, date, Some(f), userId); var s := r.1.value; var ds := SpokeSheet(f.text).value;
      |s.chauffeurs| == |ds| > 0
      && (forall k :: 0 <= k < |ds| ==> OutcomeFits(s.chauffeurs[k], ds[k], t.chauffeurs))
      && s.total == TotalImported(s.chauffeurs) && s.date == date
      && r.0.chauffeurs == t.chauffeurs && r.0.scans == t.scans && r.0.users == t.users
      && |r.0.imports| == |t.imports| + 1 && r.0.imports[..|t.imports|] == t.imports
      && var rec := r.0.imports[|t.imports|];
         rec.typeFichier == Spoke && rec.chauffeurId.None? && rec.nbColisImportes == s.total
         && rec.userId == userId && rec.journeeId == DayFor(t, date).1
  {
    var (t1, jid) := DayFor(t, date);
    var ds := SpokeSheet(f.text).value;
    ImportDriversFacts(t1, jid, ds);
    forall k | 0 <= k < |ds|
      ensures OutcomeFits(ImportDrivers(t1, jid, ds).outcomes[k], ds[k], t.chauffeurs)
    {
      AllFitAt(ImportDrivers(t1, jid, ds).outcomes, ds, t.chauffeurs, k);
    }
  }

  /** Each driver keeps the store consistent */
  lemma ImportDriverKeeps(t: Tables, jid: nat, d: SpokeDriver)
    requires Consistent(t)
    ensures Consistent(ImportDriver(t, jid, d).0)
  {
    match FindByName(t.chauffeurs, d.nom, None)
    case None =>
    case Some(c) =>
      var (t2, rid) := RouteFor(t, jid, c.id);
      RouteForKeeps(t, jid, c.id);
      ImportAllCovers(t2, jid, rid, Spoke, SpokeParcels(d.colis));
      var b := ImportAll(t2, jid, rid, Spoke, SpokeParcels(d.colis));
      RecountKeeps(b.tables, rid, jid, c.id);
  }

  lemma {:induction false} ImportDriversKeeps(t: Tables, jid: nat, ds: seq<SpokeDriver>)
    requires Consistent(t)
    ensures Consistent(ImportDrivers(t, jid, ds).tables)
  {
    if ds != [] {
      ImportDriversKeeps(t, jid, ds[..|ds| - 1]);
      ImportDriverKeeps(ImportDrivers(t, jid, ds[..|ds| - 1]).tables, jid, ds[|ds| - 1]);
    }
  }

  /** `importSpoke` keeps the store consistent */
  lemma SpokeKeeps(t: Tables, date: string, file: Option<PdfFile>, userId: nat)
    requires Consistent(t)
    ensures Consistent(SpokeImport(t, date, file, userId).0)
  {
    if file.Some? {
      var (t1, jid) := DayFor(t, date);
      DayForKeeps(t, date);
      if SpokeSheet(file.value.text).Success? {
        ImportDriversKeeps(t1, jid, SpokeSheet(file.value.text).value);
      }
    }
  }

  // ---------------------------------------------------------------------
  // The endpoints on the store
  // ---------------------------------------------------------------------

  method FindOrCreateDay(db: Database, date: string) returns (jid: nat)
    modifies db
    ensures (db.State(), jid) == DayFor(old(db.State()), date)
  {
    var day := DayByDate(db.State(), date);
    if day.Some? {
      jid := day.value.id;
    } else {
      jid := db.InsertJournee(date, None, None);
    }
  }

  method FindOrCreateRoute(db: Database, jid: nat, cid: nat) returns (rid: nat)
    modifies db
    ensures (db.State(), rid) == RouteFor(old(db.State()), jid, cid)
  {
    var route := RouteOf(db.State(), jid, cid);
    if route.Some? {
      rid := route.value.id;
    } else {
      rid := db.InsertTournee(jid, cid, 0, false);
    }
  }

  /** One parcel: the day's tracking query, then the insert when it finds nothing */
  method ImportParcel(db: Database, jid: nat, rid: nat, source: Source, p: NewParcel) returns (inserted: bool)
    modifies db
    ensures (db.State(), inserted) == ImportOne(old(db.State()), jid, rid, source, p)
  {
    var existing := ParcelInDay(db.State(), jid, p.tracking);
    inserted := existing.None?;
    if inserted {
      var id := db.InsertColis(Some(rid), jid, p, source, NonTrie);
    }
  }

  /** The parcel loop of both endpoints */
  method ImportParcels(db: Database, jid: nat, rid: nat, source: Source, ps: seq<NewParcel>) returns (imported: nat, skipped: nat)
    modifies db
    ensures Batch(db.State(), imported, skipped) == ImportAll(old(db.State()), jid, rid, source, ps)
  {
    imported, skipped := 0, 0;
    ghost var t0 := db.State();
    for i := 0 to |ps|
      invariant Batch(db.State(), imported, skipped) == ImportAll(t0, jid, rid, source, ps[..i])
    {
      ImportAllStep(t0, jid, rid, source, ps, i);
      var inserted := ImportParcel(db, jid, rid, source, ps[i]);
      if inserted {
        imported := imported + 1;
      } else {
        skipped := skipped + 1;
      }
    }
    assert ps[..|ps|] == ps;
  }

  /** `.update({ nb_colis: count }).eq('id', rid)` after counting the route's parcels */
  method RecountRoute(db: Database, rid: nat)
    modifies db
    ensures db.State() == Recount(old(db.State()), rid)
  {
    var count := RouteParcelCount(db.State(), rid);
    db.tournees := SetNbColis(db.tournees, rid, count);
  }

  method ProcessExcelImport(db: Database, date: string, file: ExcelFile, kind: Source, parcels: seq<NewParcel>, userId: nat)
    returns (r: Result<ExcelSummary, ImportError>)
    modifies db
    ensures (db.State(), r) == ExcelImport(old(db.State()), date, file, kind, parcels, userId)
  {
    var jid := FindOrCreateDay(db, date);
    ghost var t1 := db.State();
    var name := FileStem(file.originalName);
    var chauffeur := FindByName(db.chauffeurs, name, None);
    if chauffeur.None? {
      return Failure(ImportFailed(DriverNotFoundMessage(name)));
    }
    if |parcels| == 0 {
      return Failure(ImportFailed(EmptyFileMessage));
    }
    var c := chauffeur.value;
    var rid := FindOrCreateRoute(db, jid, c.id);
    var imported, skipped := ImportParcels(db, jid, rid, kind, parcels);
    RecountRoute(db, rid);
    var iid := db.InsertImport(userId, jid, Some(c.id), kind, file.originalName, imported);
    r := Success(ExcelSummary(iid, kind, file.originalName, date, c.id, DriverLabel(c), imported, skipped, |parcels|, jid));
    assert (db.State(), r.value) == ExcelImportFor(t1, jid, date, file, kind, c, parcels, userId);
  }

  /** `importGofo`: parse the Gofo rows, then import them */
  method ImportGofo(db: Database, date: string, file: Option<ExcelFile>, userId: nat) returns (r: Result<ExcelSummary, ImportError>)
    modifies db
    ensures (db.State(), r) == GofoImport(old(db.State()), date, file, userId)
  {
    if file.None? {
      return Failure(NoFile);
    }
    var colis := ParseGofoExcel(file.value.records);
    r := ProcessExcelImport(db, date, file.value, Gofo, ToNewParcels(colis), userId);
  }

  /** `importCainiao`: parse the Cainiao rows, then import them */
  method ImportCainiao(db: Database, date: string, file: Option<ExcelFile>, userId: nat) returns (r: Result<ExcelSummary, ImportError>)
    modifies db
    ensures (db.State(), r) == CainiaoImport(old(db.State()), date, file, userId)
  {
    if file.None? {
      return Failure(NoFile);
    }
    var colis := ParseCainiaoExcel(file.value.records);
    r := ProcessExcelImport(db, date, file.value, Cainiao, ToNewParcels(colis), userId);
  }

  method ImportSpokeDriver(db: Database, jid: nat, d: SpokeDriver) returns (o: DriverOutcome)
    modifies db
    ensures (db.State(), o) == ImportDriver(old(db.State()), jid, d)
  {
    var chauffeur := FindByName(db.chauffeurs, d.nom, None);
    if chauffeur.None? {
      return DriverNotFound(d.nom);
    }
    var c := chauffeur.value;
    var rid := FindOrCreateRoute(db, jid, c.id);
    var imported, skipped := ImportParcels(db, jid, rid, Spoke, SpokeParcels(d.colis));
    RecountRoute(db, rid);
    o := DriverImported(d.nom, c.id, imported, |d.colis|);
  }

  /** The driver loop of `importSpoke` */
  method ImportSpokeDrivers(db: Database, jid: nat, ds: seq<SpokeDriver>) returns (total: nat, outcomes: seq<DriverOutcome>)
    modifies db
    ensures SpokeBatch(db.State(), total, outcomes) == ImportDrivers(old(db.State()), jid, ds)
  {
    ghost var t1 := db.State();
    total, outcomes := 0, [];
    for i := 0 to |ds|
      invariant SpokeBatch(db.State(), total, outcomes) == ImportDrivers(t1, jid, ds[..i])
    {
      ImportDriversStep(t1, jid, ds, i);
      var o := ImportSpokeDriver(db, jid, ds[i]);
      total := total + ImportedCount(o);
      outcomes := outcomes + [o];
    }
    assert ds[..|ds|] == ds;
  }

  method ImportSpoke(db: Database, date: string, file: Option<PdfFile>, userId: nat) returns (r: Result<SpokeSummary, ImportError>)
    modifies db
    ensures (db.State(), r) == SpokeImport(old(db.State()), date, file, userId)
  {
    if file.None? {
      return Failure(NoFile);
    }
    var f := file.value;
    var jid := FindOrCreateDay(db, date);
    var sheet := ParseSpokePDF(f.text);
    if sheet.Failure? {
      return Failure(ImportFailed(sheet.error));
    }
    var ds := sheet.value;
    if |ds| == 0 {
      return Failure(ParseError);
    }
    var total, outcomes := ImportSpokeDrivers(db, jid, ds);
    var iid := db.InsertImport(userId, jid, None, Spoke, f.originalName, total);
    r := Success(SpokeSummary(f.originalName, date, total, outcomes));
  }
}
