/**
  The in-memory store that stands for the database: one sequence of rows per
  table, in insertion order, and a counter that hands out fresh ids. The
  queries are the ones the controllers build: `.eq` selects the rows whose
  column equals a value, `.ilike` compares trackings ignoring case, and
  `.single()` gives a row only when exactly one matches.
 */
module Store {

  import opened Wrappers
  import opened Text
  import opened Seqs

  datatype DayStatus = EnCours | Terminee
  datatype ParcelStatus = NonTrie | Trie | Inconnu
  datatype Source = Gofo | Cainiao | Spoke | SourceInconnu

  /** A sorting day; `None` in a deadline column stands for the column default */
  datatype Journee = Journee(id: nat, date: string, deadline: Option<string>, deadlineActive: Option<bool>, statut: DayStatus)

  /** A route: one driver's parcels on one day */
  datatype Tournee = Tournee(id: nat, journeeId: nat, chauffeurId: nat, nbColis: nat, spokeImporte: bool)

  datatype Colis = Colis(
    id: nat,
    tourneeId: Option<nat>,
    journeeId: nat,
    tracking: string,
    adresse: Option<string>,
    ville: Option<string>,
    codePostal: Option<string>,
    source: Source,
    statut: ParcelStatus,
    ordre: Option<nat>,
    numeroOrdre: Option<nat>)

  datatype Scan = Scan(id: nat, colisId: nat, userId: nat, heureScan: string, modeHorsLigne: bool)

  /** The file type column of an import takes the parcel source names */
  datatype Import = Import(id: nat, userId: nat, journeeId: nat, chauffeurId: Option<nat>, typeFichier: Source, nomFichier: string, nbColisImportes: nat)

  datatype Chauffeur = Chauffeur(id: nat, nom: string, prenom: Option<string>, sousTraitantId: Option<nat>, actif: bool)

  datatype User = User(id: nat, nom: string, prenom: Option<string>)

  /** The fields an import writes into a new parcel row */
  datatype NewParcel = NewParcel(tracking: string, adresse: Option<string>, ville: Option<string>, codePostal: Option<string>)

  /** A snapshot of every table */
  datatype Tables = Tables(
    journees: seq<Journee>,
    tournees: seq<Tournee>,
    colis: seq<Colis>,
    scans: seq<Scan>,
    imports: seq<Import>,
    chauffeurs: seq<Chauffeur>,
    users: seq<User>,
    nextId: nat)

  // ---------------------------------------------------------------------
  // Queries
  // ---------------------------------------------------------------------

  // The columns the queries filter on, named so that an invariant about a
  // column and a query on it speak of the same key

  function DayDate(j: Journee): string { j.date }
  function DayState(j: Journee): (string, DayStatus) { (j.date, j.statut) }
  function DayId(j: Journee): nat { j.id }
  function RouteKey(r: Tournee): (nat, nat) { (r.journeeId, r.chauffeurId) }
  function RouteId(r: Tournee): nat { r.id }
  function DriverId(c: Chauffeur): nat { c.id }
  function ParcelRoute(c: Colis): Option<nat> { c.tourneeId }
  function ParcelDay(c: Colis): nat { c.journeeId }
  function ParcelTracking(c: Colis): string { Lower(c.tracking) }
  function ScanParcel(s: Scan): nat { s.colisId }
  function UserId(u: User): nat { u.id }

  /** `.from('journees').eq('date', date).single()` */
  function DayByDate(t: Tables, date: string): Option<Journee> {
    Single(Select(t.journees, DayDate, date))
  }

  /** `.from('journees').eq('date', date).eq('statut', 'en_cours').single()` */
  function ActiveDay(t: Tables, date: string): Option<Journee> {
    Single(Select(t.journees, DayState, (date, EnCours)))
  }

  function DayById(t: Tables, id: nat): Option<Journee> {
    Single(Select(t.journees, DayId, id))
  }

  /** `.from('tournees').eq('journee_id', jid).eq('chauffeur_id', cid).single()` */
  function RouteOf(t: Tables, jid: nat, cid: nat): Option<Tournee> {
    Single(Select(t.tournees, RouteKey, (jid, cid)))
  }

  function RouteById(t: Tables, id: nat): Option<Tournee> {
    Single(Select(t.tournees, RouteId, id))
  }

  function DriverById(t: Tables, id: nat): Option<Chauffeur> {
    Single(Select(t.chauffeurs, DriverId, id))
  }

  function UserById(t: Tables, id: nat): Option<User> {
    Single(Select(t.users, UserId, id))
  }

  /** The key `.ilike('tracking', x).eq('journee_id', jid)` compares */
  function DayTrackingKey(c: Colis): (nat, string) {
    (c.journeeId, Lower(c.tracking))
  }

  /** `.from('colis').ilike('tracking', tracking).eq('journee_id', jid).single()` */
  function ParcelInDay(t: Tables, jid: nat, tracking: string): Option<Colis> {
    Single(Select(t.colis, DayTrackingKey, (jid, Lower(tracking))))
  }

  /** No two parcels of a day share a tracking, ignoring case */
  ghost predicate TrackingsUnique(t: Tables) {
    UniqueBy(t.colis, DayTrackingKey)
  }

  /** `.from('colis').ilike('tracking', tracking).single()`, over every day */
  function ParcelAnyDay(t: Tables, tracking: string): Option<Colis> {
    Single(Select(t.colis, ParcelTracking, Lower(tracking)))
  }

  /** `.from('scans').eq('colis_id', cid).single()` */
  function ScanOfParcel(t: Tables, cid: nat): Option<Scan> {
    Single(Select(t.scans, ScanParcel, cid))
  }

  /** The parcels bound to route `rid` */
  function RouteParcels(t: Tables, rid: nat): seq<Colis> {
    Select(t.colis, ParcelRoute, Some(rid))
  }

  /** `.select('id', { count: 'exact' }).eq('tournee_id', rid)` */
  function RouteParcelCount(t: Tables, rid: nat): nat {
    |RouteParcels(t, rid)|
  }

  /** The parcels of day `jid` */
  function DayParcels(t: Tables, jid: nat): seq<Colis> {
    Select(t.colis, ParcelDay, jid)
  }

  // ---------------------------------------------------------------------
  // Writes, as functions on snapshots
  // ---------------------------------------------------------------------

  function AddJournee(t: Tables, date: string, deadline: Option<string>, active: Option<bool>): (Tables, nat) {
    (t.(journees := t.journees + [Journee(t.nextId, date, deadline, active, EnCours)], nextId := t.nextId + 1), t.nextId)
  }

  function AddTournee(t: Tables, jid: nat, cid: nat, nb: nat, spoke: bool): (Tables, nat) {
    (t.(tournees := t.tournees + [Tournee(t.nextId, jid, cid, nb, spoke)], nextId := t.nextId + 1), t.nextId)
  }

  function AddColis(t: Tables, rid: Option<nat>, jid: nat, p: NewParcel, source: Source, statut: ParcelStatus): (Tables, nat) {
    var c := Colis(t.nextId, rid, jid, p.tracking, p.adresse, p.ville, p.codePostal, source, statut, None, None);
    (t.(colis := t.colis + [c], nextId := t.nextId + 1), t.nextId)
  }

  function AddScan(t: Tables, colisId: nat, userId: nat, heure: string, horsLigne: bool): (Tables, nat) {
    (t.(scans := t.scans + [Scan(t.nextId, colisId, userId, heure, horsLigne)], nextId := t.nextId + 1), t.nextId)
  }

  function AddImport(t: Tables, userId: nat, jid: nat, cid: Option<nat>, kind: Source, name: string, n: nat): (Tables, nat) {
    (t.(imports := t.imports + [Import(t.nextId, userId, jid, cid, kind, name, n)], nextId := t.nextId + 1), t.nextId)
  }

  /** `.from('tournees').update({ nb_colis: n }).eq('id', rid)` */
  function SetNbColis(ts: seq<Tournee>, rid: nat, n: nat): seq<Tournee> {
    seq(|ts|, k requires 0 <= k < |ts| => if ts[k].id == rid then ts[k].(nbColis := n) else ts[k])
  }

  /** `.from('tournees').update({ spoke_importe: true }).eq('id', rid)` */
  function MarkSpoke(ts: seq<Tournee>, rid: nat): seq<Tournee> {
    seq(|ts|, k requires 0 <= k < |ts| => if ts[k].id == rid then ts[k].(spokeImporte := true) else ts[k])
  }

  /** `.from('colis').update({ statut }).eq('id', cid)` */
  function SetStatut(cs: seq<Colis>, cid: nat, statut: ParcelStatus): seq<Colis> {
    seq(|cs|, k requires 0 <= k < |cs| => if cs[k].id == cid then cs[k].(statut := statut) else cs[k])
  }

  /** `.from('scans').update({ user_id, heure_scan, mode_hors_ligne }).eq('id', sid)` */
  function OverwriteScan(ss: seq<Scan>, sid: nat, userId: nat, heure: string, horsLigne: bool): seq<Scan> {
    seq(|ss|, k requires 0 <= k < |ss| => if ss[k].id == sid then ss[k].(userId := userId, heureScan := heure, modeHorsLigne := horsLigne) else ss[k])
  }

  // ---------------------------------------------------------------------
  // The mutable store
  // ---------------------------------------------------------------------

  class Database {
    var journees: seq<Journee>
    var tournees: seq<Tournee>
    var colis: seq<Colis>
    var scans: seq<Scan>
    var imports: seq<Import>
    var chauffeurs: seq<Chauffeur>
    var users: seq<User>
    var nextId: nat

    function State(): Tables
      reads this
    {
      Tables(journees, tournees, colis, scans, imports, chauffeurs, users, nextId)
    }

    constructor (t: Tables)
      ensures State() == t
    {
      journees, tournees, colis, scans := t.journees, t.tournees, t.colis, t.scans;
      imports, chauffeurs, users, nextId := t.imports, t.chauffeurs, t.users, t.nextId;
    }

    /** `.from('journees').insert({...}).select().single()` */
    method InsertJournee(date: string, deadline: Option<string>, active: Option<bool>) returns (id: nat)
      modifies this
      ensures (State(), id) == AddJournee(old(State()), date, deadline, active)
    {
      id := nextId;
      journees := journees + [Journee(id, date, deadline, active, EnCours)];
      nextId := nextId + 1;
    }

    method InsertTournee(jid: nat, cid: nat, nb: nat, spoke: bool) returns (id: nat)
      modifies this
      ensures (State(), id) == AddTournee(old(State()), jid, cid, nb, spoke)
    {
      id := nextId;
      tournees := tournees + [Tournee(id, jid, cid, nb, spoke)];
      nextId := nextId + 1;
    }

    method InsertColis(rid: Option<nat>, jid: nat, p: NewParcel, source: Source, statut: ParcelStatus) returns (id: nat)
      modifies this
      ensures (State(), id) == AddColis(old(State()), rid, jid, p, source, statut)
    {
      id := nextId;
      colis := colis + [Colis(id, rid, jid, p.tracking, p.adresse, p.ville, p.codePostal, source, statut, None, None)];
      nextId := nextId + 1;
    }

    method InsertScan(colisId: nat, userId: nat, heure: string, horsLigne: bool) returns (id: nat)
      modifies this
      ensures (State(), id) == AddScan(old(State()), colisId, userId, heure, horsLigne)
    {
      id := nextId;
      scans := scans + [Scan(id, colisId, userId, heure, horsLigne)];
      nextId := nextId + 1;
    }

    method InsertImport(userId: nat, jid: nat, cid: Option<nat>, kind: Source, name: string, n: nat) returns (id: nat)
      modifies this
      ensures (State(), id) == AddImport(old(State()), userId, jid, cid, kind, name, n)
    {
      id := nextId;
      imports := imports + [Import(id, userId, jid, cid, kind, name, n)];
      nextId := nextId + 1;
    }
  }
}
