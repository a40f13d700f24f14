/**
  The scan endpoint and the offline batch sync. A scan looks the tracking up
  in today's active day and ends in exactly one of five ways; the sync looks
  each tracking up over every day and only ever inserts first scans.
 */
module ScansController {

  import opened Wrappers
  import opened Text
  import opened Seqs
  import opened Store

  datatype ScanOutcome =
    | MissingTracking
    | NoActiveDay
    | UnknownParcel(tracking: string)
    | Duplicate(colisId: nat, tracking: string, chauffeur: Option<string>, numeroOrdre: Option<nat>,
                premierScan: string, scannerPar: string)
    | FirstScan(colisId: nat, tracking: string, chauffeur: Option<string>, numeroOrdre: Option<nat>, adresse: string)

  /** `${prenom} ${nom}` of the driver joined through the parcel's route, when both joins find a row */
  function RouteDriverName(t: Tables, c: Colis): Option<string> {
    match c.tourneeId
    case None => None
    case Some(rid) =>
      match RouteById(t, rid)
      case None => None
      case Some(rt) =>
        match DriverById(t, rt.chauffeurId)
        case None => None
        case Some(d) => Some(Interp(d.prenom) + " " + d.nom)
  }

  /** `${prenom} ${nom}` of the user joined to a scan, or "Inconnu" */
  function ScannerName(t: Tables, sc: Scan): string {
    match UserById(t, sc.userId)
    case None => "Inconnu"
    case Some(u) => Interp(u.prenom) + " " + u.nom
  }

  /** The fields that are present and not empty, in order (`.filter(Boolean)`) */
  function Present(fields: seq<Option<string>>): (r: seq<string>)
    ensures |r| <= |fields|
    ensures forall k :: 0 <= k < |r| ==> r[k] != "" && Some(r[k]) in fields
  {
    if fields == [] then []
    else
      var last := fields[|fields| - 1];
      Present(fields[..|fields| - 1]) + (if last.Some? && last.value != "" then [last.value] else [])
  }

  /** A field `.filter(Boolean)` keeps: present and not empty */
  function NonEmpty(o: Option<string>): Option<string> {
    if o.Some? && o.value != "" then o else None
  }

  lemma {:induction false} PresentIsCollect(fields: seq<Option<string>>)
    ensures Present(fields) == Collect(fields, NonEmpty)
  {
    if fields != [] {
      PresentIsCollect(fields[..|fields| - 1]);
    }
  }

  /**
    `.filter(Boolean)` keeps every present, non-empty field and nothing else,
    in the order of the fields: the k-th kept value is the value of field
    `idx[k]`, the positions increase, and every non-empty field has one.
   */
  lemma PresentInOrder(fields: seq<Option<string>>) returns (idx: seq<nat>)
    ensures |idx| == |Present(fields)|
    ensures forall k :: 0 <= k < |idx| ==> idx[k] < |fields| && fields[idx[k]] == Some(Present(fields)[k])
    ensures forall k, l :: 0 <= k < l < |idx| ==> idx[k] < idx[l]
    ensures forall i :: 0 <= i < |fields| && fields[i].Some? && fields[i].value != "" ==> i in idx
  {
    PresentIsCollect(fields);
    idx := CollectIndices(fields, NonEmpty);
  }

  /** `[adresse, code_postal, ville].filter(Boolean).join(', ')` */
  function FullAddress(c: Colis): string {
    Join(Present([c.adresse, c.codePostal, c.ville]), ", ")
  }

  lemma FullAddressAll(c: Colis, a: string, cp: string, v: string)
    requires c.adresse == Some(a) && c.codePostal == Some(cp) && c.ville == Some(v)
    requires a != "" && cp != "" && v != ""
    ensures FullAddress(c) == a + ", " + cp + ", " + v
  {
    var fs := [c.adresse, c.codePostal, c.ville];
    assert fs[..2][..1] == [c.adresse] && fs[..2] == [c.adresse, c.codePostal];
    assert Present([c.adresse]) == [a];
    assert Present(fs[..2]) == [a, cp];
    assert Present(fs) == [a, cp, v];
    var ps := [a, cp, v];
    assert ps[..2] == [a, cp] && [a, cp][..1] == [a];
    assert Join([a, cp], ", ") == a + ", " + cp;
  }

  /** A Spoke parcel, which has only a street address, shows that address alone */
  lemma FullAddressStreetOnly(c: Colis, a: string)
    requires c.adresse == Some(a) && c.codePostal.None? && c.ville.None?
    ensures FullAddress(c) == a
  {
    var fs := [c.adresse, c.codePostal, c.ville];
    assert fs[..2][..1] == [c.adresse] && fs[..2] == [c.adresse, c.codePostal];
    var expected := if a != "" then [a] else [];
    assert Present([c.adresse]) == expected;
    assert Present(fs[..2]) == expected;
    assert Present(fs) == expected;
  }

  /**
    `scan`: an empty tracking, then a missing active day for today, stop
    before any write; a tracking the day does not hold materialises an
    unknown parcel; a parcel already scanned has its one scan overwritten;
    otherwise a scan is inserted and the parcel becomes sorted.
   */
  function ScanResult(t: Tables, tracking: string, horsLigne: bool, userId: nat, today: string, now: string)
    : (r: (Tables, ScanOutcome))
    ensures r.0.(colis := t.colis, scans := t.scans, nextId := t.nextId) == t
    ensures |r.0.colis| == |t.colis| + (if r.1.UnknownParcel? then 1 else 0)
    ensures |r.0.scans| == |t.scans| + (if r.1.FirstScan? then 1 else 0)
  {
    if tracking == "" then (t, MissingTracking)
    else
      match ActiveDay(t, today)
      case None => (t, NoActiveDay)
      case Some(j) =>
        match ParcelInDay(t, j.id, tracking)
        case None =>
          var (t2, _) := AddColis(t, None, j.id, NewParcel(Upper(tracking), None, None, None), SourceInconnu, Inconnu);
          (t2, UnknownParcel(Upper(tracking)))
        case Some(c) =>
          match ScanOfParcel(t, c.id)
          case Some(sc) =>
            (t.(scans := OverwriteScan(t.scans, sc.id, userId, now, horsLigne)),
             Duplicate(c.id, c.tracking, RouteDriverName(t, c), c.numeroOrdre, sc.heureScan, ScannerName(t, sc)))
          case None =>
            var (t2, _) := AddScan(t, c.id, userId, now, horsLigne);
            (t2.(colis := SetStatut(t2.colis, c.id, Trie)),
             FirstScan(c.id, c.tracking, RouteDriverName(t, c), c.numeroOrdre, FullAddress(c)))
  }

  /** The two refusals write nothing */
  lemma ScanRefusals(t: Tables, tracking: string, horsLigne: bool, userId: nat, today: string, now: string)
    ensures var r := ScanResult(t, tracking, horsLigne, userId, today, now);
      (r.1 == MissingTracking <==> tracking == "")
      && (r.1 == NoActiveDay <==> tracking != "" && ActiveDay(t, today).None?)
      && (r.1.MissingTracking? || r.1.NoActiveDay? ==> r.0 == t)
  {
  }

  /**
    Once the tracking is given and today has an active day, the outcome is
    decided by the lookups alone: no parcel of the day gives the unknown
    path, a parcel with a scan gives the duplicate, and a parcel without one
    gives the first scan.
   */
  lemma ScanDispatch(t: Tables, tracking: string, horsLigne: bool, userId: nat, today: string, now: string)
    requires tracking != "" && ActiveDay(t, today).Some?
    ensures var o := ScanResult(t, tracking, horsLigne, userId, today, now).1;
      var p := ParcelInDay(t, ActiveDay(t, today).value.id, tracking);
      (o.UnknownParcel? <==> p.None?)
      && (o.Duplicate? <==> p.Some? && ScanOfParcel(t, p.value.id).Some?)
      && (o.FirstScan? <==> p.Some? && ScanOfParcel(t, p.value.id).None?)
      && (p.Some? && !o.UnknownParcel? ==> o.colisId == p.value.id)
  {
  }

  /** An unknown tracking inserts exactly one parcel: upper-cased, unknown, of the active day, on no route */
  lemma ScanUnknown(t: Tables, tracking: string, horsLigne: bool, userId: nat, today: string, now: string)
    requires ScanResult(t, tracking, horsLigne, userId, today, now).1.UnknownParcel?
    ensures var r := ScanResult(t, tracking, horsLigne, userId, today, now);
      tracking != "" && ActiveDay(t, today).Some?
      && ParcelInDay(t, ActiveDay(t, today).value.id, tracking).None?
      && r.1.tracking == Upper(tracking) && IsUpperCased(r.1.tracking)
      && r.0.(colis := t.colis, nextId := t.nextId) == t
      && r.0.colis == t.colis + [Colis(t.nextId, None, ActiveDay(t, today).value.id, Upper(tracking), None, None, None, SourceInconnu, Inconnu, None, None)]
  {
    UpperIsUpperCased(tracking);
  }

  /**
    A parcel already scanned keeps its one scan row, overwritten with this
    user, time and mode; the response reports the time and scanner from
    before the overwrite; no scan is added and no parcel changes.
   */
  lemma ScanDuplicate(t: Tables, tracking: string, horsLigne: bool, userId: nat, today: string, now: string)
    requires ScanResult(t, tracking, horsLigne, userId, today, now).1.Duplicate?
    ensures var r := ScanResult(t, tracking, horsLigne, userId, today, now); var o := r.1;
      var sc := ScanOfParcel(t, o.colisId).value;
      ScanOfParcel(t, o.colisId).Some?
      && o.premierScan == sc.heureScan && o.scannerPar == ScannerName(t, sc)
      && r.0.(scans := t.scans) == t
      && |r.0.scans| == |t.scans|
      && (forall cid :: |Select(r.0.scans, ScanParcel, cid)| == |Select(t.scans, ScanParcel, cid)|)
      && (forall k :: 0 <= k < |t.scans| && t.scans[k].id == sc.id ==>
            r.0.scans[k] == Scan(sc.id, t.scans[k].colisId, userId, now, horsLigne))
      && (forall k :: 0 <= k < |t.scans| && t.scans[k].id != sc.id ==> r.0.scans[k] == t.scans[k])
  {
    var j := ActiveDay(t, today).value;
    var c := ParcelInDay(t, j.id, tracking).value;
    var sc := ScanOfParcel(t, c.id).value;
    var scans := OverwriteScan(t.scans, sc.id, userId, now, horsLigne);
    assert ScanResult(t, tracking, horsLigne, userId, today, now).0 == t.(scans := scans);
    forall cid
      ensures |Select(scans, ScanParcel, cid)| == |Select(t.scans, ScanParcel, cid)|
    {
      SelectSameKeys(t.scans, scans, ScanParcel, cid);
    }
  }

  /** A first scan inserts exactly one scan and marks that parcel, and only it, sorted */
  lemma ScanFirst(t: Tables, tracking: string, horsLigne: bool, userId: nat, today: string, now: string)
    requires ScanResult(t, tracking, horsLigne, userId, today, now).1.FirstScan?
    ensures var r := ScanResult(t, tracking, horsLigne, userId, today, now); var cid := r.1.colisId;
      ScanOfParcel(t, cid).None?
      && r.0.scans == t.scans + [Scan(t.nextId, cid, userId, now, horsLigne)]
      && |r.0.colis| == |t.colis|
      && (forall k :: 0 <= k < |t.colis| ==>
            r.0.colis[k] == if t.colis[k].id == cid then t.colis[k].(statut := Trie) else t.colis[k])
      && r.0.(colis := t.colis, scans := t.scans, nextId := t.nextId) == t
  {
  }

  /** At most one scan per parcel */
  ghost predicate OneScanPerParcel(t: Tables) {
    UniqueBy(t.scans, ScanParcel)
  }

  /** A scan keeps at most one scan per parcel */
  lemma ScanKeepsOneScan(t: Tables, tracking: string, horsLigne: bool, userId: nat, today: string, now: string)
    requires OneScanPerParcel(t)
    ensures OneScanPerParcel(ScanResult(t, tracking, horsLigne, userId, today, now).0)
  {
    if tracking != "" && ActiveDay(t, today).Some? {
      var j := ActiveDay(t, today).value;
      match ParcelInDay(t, j.id, tracking)
      case None =>
      case Some(c) =>
        match ScanOfParcel(t, c.id)
        case Some(sc) =>
          UniqueSameKeys(t.scans, OverwriteScan(t.scans, sc.id, userId, now, horsLigne), ScanParcel);
        case None =>
          UniqueMissing(t.scans, ScanParcel, c.id);
          UniqueSnoc(t.scans, Scan(t.nextId, c.id, userId, now, horsLigne), ScanParcel);
    }
  }

  /** Every scan row points below the id counter */
  ghost predicate ScansBelowCounter(t: Tables) {
    forall k :: 0 <= k < |t.scans| ==> t.scans[k].colisId < t.nextId
  }

  /**
    The parcel lookup ignores the status: a tracking first recorded as
    unknown is found by the next scan of the same day, which takes the
    first-scan path and marks it sorted.
   */
  lemma UnknownThenSorted(t: Tables, tracking: string, userId: nat, today: string, now1: string, now2: string)
    requires TrackingsUnique(t) && ScansBelowCounter(t)
    requires ScanResult(t, tracking, false, userId, today, now1).1.UnknownParcel?
    ensures var t1 := ScanResult(t, tracking, false, userId, today, now1).0;
      var r := ScanResult(t1, tracking, false, userId, today, now2);
      r.1.FirstScan? && r.1.colisId == t.nextId && r.1.tracking == Upper(tracking)
      && r.0.colis[|t.colis|].statut == Trie
  {
    var jid := ActiveDay(t, today).value.id;
    var t1 := ScanResult(t, tracking, false, userId, today, now1).0;
    var key := (jid, Lower(tracking));
    UniqueMissing(t.colis, DayTrackingKey, key);
    var c := Colis(t.nextId, None, jid, Upper(tracking), None, None, None, SourceInconnu, Inconnu, None, None);
    UpperIsUpperCased(tracking);
    assert DayTrackingKey(c) == key;
    SelectSnoc(t.colis, c, DayTrackingKey, key);
    assert ParcelInDay(t1, jid, tracking) == Some(c);
    assert ActiveDay(t1, today) == ActiveDay(t, today);
    assert forall k :: 0 <= k < |t1.scans| ==> ScanParcel(t1.scans[k]) != c.id;
    assert Select(t1.scans, ScanParcel, c.id) == [];
  }

  // ---------------------------------------------------------------------
  // sync
  // ---------------------------------------------------------------------

  /** One queued scan; an empty time is absent */
  datatype SyncEntry = SyncEntry(tracking: string, heureScan: string)

  datatype SyncSummary = SyncSummary(total: nat, synchronises: nat, doublons: nat, inconnus: nat)

  /** The tally of the sync loop */
  datatype SyncTally = SyncTally(tables: Tables, synchronises: nat, doublons: nat, inconnus: nat)

  /** `INVALID_DATA` */
  datatype SyncError = InvalidData

  /** One entry: unknown over every day, already scanned, or a first offline scan; only the last writes */
  function SyncOne(b: SyncTally, userId: nat, now: string, e: SyncEntry): (r: SyncTally)
    ensures r.synchronises + r.doublons + r.inconnus == b.synchronises + b.doublons + b.inconnus + 1
    ensures b.synchronises <= r.synchronises && b.doublons <= r.doublons && b.inconnus <= r.inconnus
    ensures var p := ParcelAnyDay(b.tables, e.tracking);
      (r.inconnus == b.inconnus + 1 <==> p.None?)
      && (r.doublons == b.doublons + 1 <==> p.Some? && ScanOfParcel(b.tables, p.value.id).Some?)
      && (r.synchronises == b.synchronises + 1 <==> p.Some? && ScanOfParcel(b.tables, p.value.id).None?)
    ensures var p := ParcelAnyDay(b.tables, e.tracking);
      r.synchronises == b.synchronises + 1 ==>
        r.tables.scans == b.tables.scans + [Scan(b.tables.nextId, p.value.id, userId, if e.heureScan != "" then e.heureScan else now, true)]
        && r.tables.colis == SetStatut(b.tables.colis, p.value.id, Trie)
    ensures r.tables.(colis := b.tables.colis, scans := b.tables.scans, nextId := b.tables.nextId) == b.tables
    ensures |r.tables.colis| == |b.tables.colis| && forall k :: 0 <= k < |b.tables.colis| ==> SameButStatus(r.tables.colis[k], b.tables.colis[k])
    ensures r.synchronises == b.synchronises ==> r.tables == b.tables
    ensures r.synchronises == b.synchronises + 1 ==> |r.tables.scans| == |b.tables.scans| + 1
    ensures r.synchronises == b.synchronises + 1 ==> r.tables.scans[..|b.tables.scans|] == b.tables.scans
    ensures r.synchronises == b.synchronises + 1 ==>
      r.tables.scans[|b.tables.scans|].modeHorsLigne && r.tables.scans[|b.tables.scans|].userId == userId
  {
    match ParcelAnyDay(b.tables, e.tracking)
    case None => b.(inconnus := b.inconnus + 1)
    case Some(c) =>
      if ScanOfParcel(b.tables, c.id).Some? then b.(doublons := b.doublons + 1)
      else
        var heure := if e.heureScan != "" then e.heureScan else now;
        var (t2, _) := AddScan(b.tables, c.id, userId, heure, true);
        SyncTally(t2.(colis := SetStatut(t2.colis, c.id, Trie)), b.synchronises + 1, b.doublons, b.inconnus)
  }

  /** A parcel row with only its status changed */
  predicate SameButStatus(a: Colis, b: Colis) {
    a == b.(statut := a.statut)
  }

  /**
    The sync loop: every entry is counted exactly once; the only writes are
    the synchronised entries' offline scans, appended in order, and status
    changes on parcels.
   */
  function SyncAll(t: Tables, userId: nat, now: string, es: seq<SyncEntry>): (r: SyncTally)
    ensures r.synchronises + r.doublons + r.inconnus == |es|
    ensures r.tables.(colis := t.colis, scans := t.scans, nextId := t.nextId) == t
    ensures |r.tables.colis| == |t.colis| && forall k :: 0 <= k < |t.colis| ==> SameButStatus(r.tables.colis[k], t.colis[k])
  {
    if es == [] then SyncTally(t, 0, 0, 0)
    else SyncOne(SyncAll(t, userId, now, es[..|es| - 1]), userId, now, es[|es| - 1])
  }

  /** `now` is `base` followed by offline scans of user `userId` */
  ghost predicate AppendedOffline(base: seq<Scan>, now: seq<Scan>, userId: nat) {
    |base| <= |now| && now[..|base|] == base
    && forall k :: |base| <= k < |now| ==> now[k].modeHorsLigne && now[k].userId == userId
  }

  lemma AppendedOfflineSnoc(base: seq<Scan>, mid: seq<Scan>, now: seq<Scan>, userId: nat)
    requires AppendedOffline(base, mid, userId)
    requires |now| == |mid| + 1 && now[..|mid|] == mid && now[|mid|].modeHorsLigne && now[|mid|].userId == userId
    ensures AppendedOffline(base, now, userId)
  {
    assert now[..|base|] == mid[..|base|];
    forall k | |base| <= k < |mid|
      ensures now[k] == mid[k]
    {
      assert now[..|mid|][k] == mid[k];
    }
  }

  /** The synchronised entries' scans are appended after the existing ones, offline and by the syncing user */
  lemma {:induction false} SyncAllScans(t: Tables, userId: nat, now: string, es: seq<SyncEntry>)
    ensures |SyncAll(t, userId, now, es).tables.scans| == |t.scans| + SyncAll(t, userId, now, es).synchronises
    ensures AppendedOffline(t.scans, SyncAll(t, userId, now, es).tables.scans, userId)
  {
    if es == [] {
      assert t.scans[..|t.scans|] == t.scans;
    } else {
      var n := |es| - 1;
      SyncAllScans(t, userId, now, es[..n]);
      var prev := SyncAll(t, userId, now, es[..n]);
      var r := SyncOne(prev, userId, now, es[n]);
      assert SyncAll(t, userId, now, es) == r;
      if r.synchronises != prev.synchronises {
        AppendedOfflineSnoc(t.scans, prev.tables.scans, r.tables.scans, userId);
      }
    }
  }

  lemma {:induction false} SyncAllStep(t: Tables, userId: nat, now: string, es: seq<SyncEntry>, i: nat)
    requires i < |es|
    ensures SyncAll(t, userId, now, es[..i + 1]) == SyncOne(SyncAll(t, userId, now, es[..i]), userId, now, es[i])
  {
    var q := es[..i + 1];
    assert q[..|q| - 1] == es[..i];
    assert q[|q| - 1] == es[i];
  }

  /** `sync`: a missing list is invalid; otherwise the counters partition the list */
  function SyncResult(t: Tables, scans: Option<seq<SyncEntry>>, userId: nat, now: string): (r: (Tables, Result<SyncSummary, SyncError>))
    ensures scans.None? <==> r.1.Failure?
    ensures r.1.Success? ==> var s := r.1.value; s.total == |scans.value| == s.synchronises + s.doublons + s.inconnus
  {
    match scans
    case None => (t, Failure(InvalidData))
    case Some(es) =>
      var b := SyncAll(t, userId, now, es);
      (b.tables, Success(SyncSummary(|es|, b.synchronises, b.doublons, b.inconnus)))
  }

  /** The sync keeps at most one scan per parcel */
  lemma {:induction false} SyncKeepsOneScan(t: Tables, userId: nat, now: string, es: seq<SyncEntry>)
    requires OneScanPerParcel(t)
    ensures OneScanPerParcel(SyncAll(t, userId, now, es).tables)
  {
    if es != [] {
      SyncKeepsOneScan(t, userId, now, es[..|es| - 1]);
      var b := SyncAll(t, userId, now, es[..|es| - 1]);
      var e := es[|es| - 1];
      match ParcelAnyDay(b.tables, e.tracking)
      case None =>
      case Some(c) =>
        if ScanOfParcel(b.tables, c.id).None? {
          var heure := if e.heureScan != "" then e.heureScan else now;
          UniqueMissing(b.tables.scans, ScanParcel, c.id);
          UniqueSnoc(b.tables.scans, Scan(b.tables.nextId, c.id, userId, heure, true), ScanParcel);
        }
    }
  }

  // ---------------------------------------------------------------------
  // The endpoints on the store
  // ---------------------------------------------------------------------

  method ScanTracking(db: Database, tracking: string, horsLigne: bool, userId: nat, today: string, now: string)
    returns (o: ScanOutcome)
    modifies db
    ensures (db.State(), o) == ScanResult(old(db.State()), tracking, horsLigne, userId, today, now)
  {
    if tracking == "" {
      return MissingTracking;
    }
    var journee := ActiveDay(db.State(), today);
    if journee.None? {
      return NoActiveDay;
    }
    var jid := journee.value.id;
    var colis := ParcelInDay(db.State(), jid, tracking);
    if colis.None? {
      var id := db.InsertColis(None, jid, NewParcel(Upper(tracking), None, None, None), SourceInconnu, Inconnu);
      return UnknownParcel(Upper(tracking));
    }
    var c := colis.value;
    var chauffeur := RouteDriverName(db.State(), c);
    var existingScan := ScanOfParcel(db.State(), c.id);
    if existingScan.Some? {
      var sc := existingScan.value;
      var scannerPar := ScannerName(db.State(), sc);
      db.scans := OverwriteScan(db.scans, sc.id, userId, now, horsLigne);
      return Duplicate(c.id, c.tracking, chauffeur, c.numeroOrdre, sc.heureScan, scannerPar);
    }
    var sid := db.InsertScan(c.id, userId, now, horsLigne);
    db.colis := SetStatut(db.colis, c.id, Trie);
    o := FirstScan(c.id, c.tracking, chauffeur, c.numeroOrdre, FullAddress(c));
  }

  /** One entry of the sync loop */
  method SyncEntryScan(db: Database, userId: nat, now: string, e: SyncEntry, synchronises: nat, doublons: nat, inconnus: nat)
    returns (s: nat, d: nat, u: nat)
    modifies db
    ensures SyncTally(db.State(), s, d, u) == SyncOne(SyncTally(old(db.State()), synchronises, doublons, inconnus), userId, now, e)
  {
    s, d, u := synchronises, doublons, inconnus;
    var colis := ParcelAnyDay(db.State(), e.tracking);
    if colis.None? {
      u := u + 1;
      return;
    }
    var c := colis.value;
    var existingScan := ScanOfParcel(db.State(), c.id);
    if existingScan.Some? {
      d := d + 1;
      return;
    }
    var heure := if e.heureScan != "" then e.heureScan else now;
    var sid := db.InsertScan(c.id, userId, heure, true);
    db.colis := SetStatut(db.colis, c.id, Trie);
    s := s + 1;
  }

  method Sync(db: Database, scans: Option<seq<SyncEntry>>, userId: nat, now: string) returns (r: Result<SyncSummary, SyncError>)
    modifies db
    ensures (db.State(), r) == SyncResult(old(db.State()), scans, userId, now)
  {
    if scans.None? {
      return Failure(InvalidData);
    }
    var es := scans.value;
    ghost var t0 := db.State();
    var synchronises, doublons, inconnus := 0, 0, 0;
    for i := 0 to |es|
      invariant SyncTally(db.State(), synchronises, doublons, inconnus) == SyncAll(t0, userId, now, es[..i])
    {
      SyncAllStep(t0, userId, now, es, i);
      synchronises, doublons, inconnus := SyncEntryScan(db, userId, now, es[i], synchronises, doublons, inconnus);
    }
    assert es[..|es|] == es;
    r := Success(SyncSummary(|es|, synchronises, doublons, inconnus));
  }
}
