/**
  The sorting-day endpoints: creating a day, the find-or-create of today's
  day with its statistics, changing the deadline fields, and closing a day.
  Today's date is a parameter.
 */
module JourneesController {

  import opened Wrappers
  import opened Seqs
  import opened Store

  /** The defaults of a day the endpoints create */
  const DefaultDeadline: string := "22:30:00"
  const DefaultDeadlineActive: bool := true

  datatype DayError = AlreadyExists | DayNotFound

  // ---------------------------------------------------------------------
  // POST /journees
  // ---------------------------------------------------------------------

  /**
    `create`: the date is the body's or today's (an empty one counts as
    absent), a date the query finds a day for is refused, and otherwise the
    day is inserted open with the body's deadline fields or their defaults.
    A missing field of the body is `None`.
   */
  function CreateDay(t: Tables, date: string, deadline: Option<string>, active: Option<bool>, today: string)
    : (r: (Tables, Result<Journee, DayError>))
    ensures r.1.Failure? <==> DayByDate(t, if date == "" then today else date).Some?
    ensures r.1.Failure? ==> r.0 == t && r.1.error == AlreadyExists
    ensures r.1.Success? ==> r.0.(journees := t.journees, nextId := t.nextId) == t
    ensures r.1.Success? ==> r.0.journees == t.journees + [r.1.value] && r.1.value.id == t.nextId && r.0.nextId == t.nextId + 1
  {
    var d := if date == "" then today else date;
    if DayByDate(t, d).Some? then (t, Failure(AlreadyExists))
    else
      var (t1, id) := AddJournee(t, d, Some(deadline.GetOr(DefaultDeadline)), Some(active.GetOr(DefaultDeadlineActive)));
      (t1, Success(t1.journees[|t.journees|]))
  }

  /** With nothing in the body the new day is today's, due at 22:30 with the deadline on, and open */
  lemma CreateDefaults(t: Tables, today: string)
    requires DayByDate(t, today).None?
    ensures CreateDay(t, "", None, None, today).1 == Success(Journee(t.nextId, today, Some("22:30:00"), Some(true), EnCours))
  {
  }

  /**
    Under one day per date, a created day keeps one day per date, and it is
    the open day the scan endpoint finds for that date. A refused date
    already has its day.
   */
  lemma CreateOpensDay(t: Tables, date: string, deadline: Option<string>, active: Option<bool>, today: string)
    requires UniqueBy(t.journees, DayDate)
    ensures var r := CreateDay(t, date, deadline, active, today); var d := if date == "" then today else date;
      UniqueBy(r.0.journees, DayDate)
      && (r.1.Success? ==> ActiveDay(r.0, d) == Some(r.1.value) && DayByDate(r.0, d) == Some(r.1.value))
  {
    var r := CreateDay(t, date, deadline, active, today);
    var d := if date == "" then today else date;
    if r.1.Success? {
      var j := r.1.value;
      UniqueMissing(t.journees, DayDate, d);
      UniqueSnoc(t.journees, j, DayDate);
      SelectSnoc(t.journees, j, DayDate, d);
      SelectSnoc(t.journees, j, DayState, (d, EnCours));
      assert Select(t.journees, DayState, (d, EnCours)) == [];
    }
  }

  // ---------------------------------------------------------------------
  // GET /journees/today
  // ---------------------------------------------------------------------

  function ParcelStatusOf(c: Colis): ParcelStatus { c.statut }

  datatype DayStats = DayStats(totalColis: nat, colisTries: nat, colisRestants: int, colisInconnus: nat)

  datatype TodaySummary = TodaySummary(journee: Journee, stats: DayStats)

  /** The three counts of a day and the remaining parcels */
  function Stats(t: Tables, jid: nat): (s: DayStats)
    ensures s.totalColis == |Reject(DayParcels(t, jid), ParcelStatusOf, Inconnu)|
    ensures s.colisTries == |Select(DayParcels(t, jid), ParcelStatusOf, Trie)|
    ensures s.colisInconnus == |Select(DayParcels(t, jid), ParcelStatusOf, Inconnu)|
  {
    var cs := DayParcels(t, jid);
    var total := |Reject(cs, ParcelStatusOf, Inconnu)|;
    var tries := |Select(cs, ParcelStatusOf, Trie)|;
    DayStats(total, tries, total - tries, |Select(cs, ParcelStatusOf, Inconnu)|)
  }

  /** The parcels that are not unknown are the sorted ones and the unsorted ones */
  lemma {:induction false} StatusSplit(cs: seq<Colis>)
    ensures |Reject(cs, ParcelStatusOf, Inconnu)| == |Select(cs, ParcelStatusOf, Trie)| + |Select(cs, ParcelStatusOf, NonTrie)|
  {
    if cs != [] {
      var init, last := cs[..|cs| - 1], cs[|cs| - 1];
      StatusSplit(init);
      assert Reject(cs, ParcelStatusOf, Inconnu) == Reject(init, ParcelStatusOf, Inconnu) + (if last.statut != Inconnu then [last] else []);
      assert Select(cs, ParcelStatusOf, Trie) == Select(init, ParcelStatusOf, Trie) + (if last.statut == Trie then [last] else []);
      assert Select(cs, ParcelStatusOf, NonTrie) == Select(init, ParcelStatusOf, NonTrie) + (if last.statut == NonTrie then [last] else []);
    }
  }

  /** The remaining count is never negative: it is exactly the day's unsorted parcels */
  lemma RemainingAreUnsorted(t: Tables, jid: nat)
    ensures Stats(t, jid).colisRestants == |Select(DayParcels(t, jid), ParcelStatusOf, NonTrie)| >= 0
  {
    StatusSplit(DayParcels(t, jid));
  }

  /**
    `today`: the day the query finds for today, or a new one with the
    defaults when it finds none, and that day's statistics.
   */
  function Today(t: Tables, today: string): (r: (Tables, TodaySummary))
    ensures DayByDate(t, today).Some? ==> r.0 == t && r.1.journee == DayByDate(t, today).value
    ensures DayByDate(t, today).None? ==> r.0.(journees := t.journees, nextId := t.nextId) == t
    ensures DayByDate(t, today).None? ==> r.0.journees == t.journees + [Journee(t.nextId, today, Some(DefaultDeadline), Some(DefaultDeadlineActive), EnCours)]
    ensures DayByDate(t, today).None? ==> r.1.journee == r.0.journees[|t.journees|]
    ensures r.1.stats == Stats(r.0, r.1.journee.id)
  {
    match DayByDate(t, today)
    case Some(j) => (t, TodaySummary(j, Stats(t, j.id)))
    case None =>
      var (t1, id) := AddJournee(t, today, Some(DefaultDeadline), Some(DefaultDeadlineActive));
      var j := t1.journees[|t.journees|];
      (t1, TodaySummary(j, Stats(t1, id)))
  }

  /** A day created by `today` has no parcels yet, so every count is zero */
  lemma TodayFreshStats(t: Tables, today: string)
    requires DayByDate(t, today).None?
    requires forall k :: 0 <= k < |t.colis| ==> t.colis[k].journeeId < t.nextId
    ensures Today(t, today).1.stats == DayStats(0, 0, 0, 0)
  {
  }

  // ---------------------------------------------------------------------
  // PUT /journees/:id and POST /journees/:id/terminer
  // ---------------------------------------------------------------------

  /** The `updates` object: the fields the body supplies */
  datatype DayPatch = DayPatch(deadline: Option<string>, deadlineActive: Option<bool>)

  function Patch(j: Journee, p: DayPatch): Journee {
    j.(deadline := if p.deadline.Some? then p.deadline else j.deadline,
       deadlineActive := if p.deadlineActive.Some? then p.deadlineActive else j.deadlineActive)
  }

  function PatchDays(js: seq<Journee>, id: nat, p: DayPatch): seq<Journee> {
    seq(|js|, k requires 0 <= k < |js| => if js[k].id == id then Patch(js[k], p) else js[k])
  }

  function CloseDays(js: seq<Journee>, id: nat): seq<Journee> {
    seq(|js|, k requires 0 <= k < |js| => if js[k].id == id then js[k].(statut := Terminee) else js[k])
  }

  /**
    `.update(...).eq('id', id).select().single()`: the rows with that id are
    written, and the answer is the row only when exactly one was written.
   */
  function UpdateDay(t: Tables, id: nat, p: DayPatch): (r: (Tables, Result<Journee, DayError>))
    ensures r.0.(journees := t.journees) == t && |r.0.journees| == |t.journees|
    ensures r.1.Failure? ==> r.1.error == DayNotFound
  {
    var t1 := t.(journees := PatchDays(t.journees, id, p));
    match DayById(t1, id)
    case Some(j) => (t1, Success(j))
    case None => (t1, Failure(DayNotFound))
  }

  function Terminer(t: Tables, id: nat): (r: (Tables, Result<Journee, DayError>))
    ensures r.0.(journees := t.journees) == t && |r.0.journees| == |t.journees|
    ensures r.1.Failure? ==> r.1.error == DayNotFound
  {
    var t1 := t.(journees := CloseDays(t.journees, id));
    match DayById(t1, id)
    case Some(j) => (t1, Success(j))
    case None => (t1, Failure(DayNotFound))
  }

  /**
    `update` changes only the deadline fields, only those supplied, and only
    on the day with that id; an unknown id writes nothing and is refused.
   */
  lemma UpdateOnlySupplied(t: Tables, id: nat, p: DayPatch)
    ensures var r := UpdateDay(t, id, p);
      (forall k :: 0 <= k < |t.journees| ==>
         r.0.journees[k] == t.journees[k].(deadline := r.0.journees[k].deadline, deadlineActive := r.0.journees[k].deadlineActive)
         && (t.journees[k].id != id ==> r.0.journees[k] == t.journees[k])
         && (p.deadline.None? ==> r.0.journees[k].deadline == t.journees[k].deadline)
         && (p.deadlineActive.None? ==> r.0.journees[k].deadlineActive == t.journees[k].deadlineActive)
         && (t.journees[k].id == id && p.deadline.Some? ==> r.0.journees[k].deadline == p.deadline)
         && (t.journees[k].id == id && p.deadlineActive.Some? ==> r.0.journees[k].deadlineActive == p.deadlineActive))
      && ((forall k :: 0 <= k < |t.journees| ==> t.journees[k].id != id) ==> r.0 == t && r.1 == Failure(DayNotFound))
  {
    var r := UpdateDay(t, id, p);
    if forall k :: 0 <= k < |t.journees| ==> t.journees[k].id != id {
      assert r.0.journees == t.journees;
      assert forall k :: 0 <= k < |r.0.journees| ==> DayId(r.0.journees[k]) != id;
    }
  }

  /** `terminer` changes only the status of the day with that id, to closed */
  lemma TerminerOnlyStatus(t: Tables, id: nat)
    ensures var r := Terminer(t, id);
      (forall k :: 0 <= k < |t.journees| ==>
         r.0.journees[k] == t.journees[k].(statut := r.0.journees[k].statut)
         && (t.journees[k].id == id ==> r.0.journees[k].statut == Terminee)
         && (t.journees[k].id != id ==> r.0.journees[k] == t.journees[k]))
      && ((forall k :: 0 <= k < |t.journees| ==> t.journees[k].id != id) ==> r.0 == t && r.1 == Failure(DayNotFound))
  {
    var r := Terminer(t, id);
    if forall k :: 0 <= k < |t.journees| ==> t.journees[k].id != id {
      assert r.0.journees == t.journees;
      assert forall k :: 0 <= k < |r.0.journees| ==> DayId(r.0.journees[k]) != id;
    }
  }

  /**
    Under one day per date, once a day is closed the scan endpoint finds no
    open day for its date, so scanning on that date is refused.
   */
  lemma TerminerClosesDay(t: Tables, id: nat)
    requires UniqueBy(t.journees, DayDate) && DayById(t, id).Some?
    ensures ActiveDay(Terminer(t, id).0, DayById(t, id).value.date).None?
  {
    var d := DayById(t, id).value.date;
    var js := Terminer(t, id).0.journees;
    var i :| 0 <= i < |t.journees| && t.journees[i] == DayById(t, id).value;
    assert t.journees[i].id == id;
    forall k | 0 <= k < |js|
      ensures DayState(js[k]) != (d, EnCours)
    {
      if js[k].date == d {
        assert DayDate(t.journees[k]) == DayDate(t.journees[i]);
        assert k == i;
      }
    }
  }

  // ---------------------------------------------------------------------
  // The endpoints on the store
  // ---------------------------------------------------------------------

  method CreateJournee(db: Database, date: string, deadline: Option<string>, active: Option<bool>, today: string)
    returns (r: Result<Journee, DayError>)
    modifies db
    ensures (db.State(), r) == CreateDay(old(db.State()), date, deadline, active, today)
  {
    var journeeDate := if date == "" then today else date;
    if DayByDate(db.State(), journeeDate).Some? {
      return Failure(AlreadyExists);
    }
    var id := db.InsertJournee(journeeDate, Some(deadline.GetOr(DefaultDeadline)), Some(active.GetOr(DefaultDeadlineActive)));
    r := Success(db.journees[|db.journees| - 1]);
  }

  method TodayJournee(db: Database, today: string) returns (s: TodaySummary)
    modifies db
    ensures (db.State(), s) == Today(old(db.State()), today)
  {
    var journee;
    var existing := DayByDate(db.State(), today);
    if existing.Some? {
      journee := existing.value;
    } else {
      var id := db.InsertJournee(today, Some(DefaultDeadline), Some(DefaultDeadlineActive));
      journee := db.journees[|db.journees| - 1];
    }
    s := TodaySummary(journee, Stats(db.State(), journee.id));
  }

  /** Builds the `updates` object field by field, then writes it */
  method UpdateJournee(db: Database, id: nat, deadline: Option<string>, active: Option<bool>)
    returns (r: Result<Journee, DayError>)
    modifies db
    ensures (db.State(), r) == UpdateDay(old(db.State()), id, DayPatch(deadline, active))
  {
    var updates := DayPatch(None, None);
    if deadline.Some? {
      updates := updates.(deadline := deadline);
    }
    if active.Some? {
      updates := updates.(deadlineActive := active);
    }
    assert updates == DayPatch(deadline, active);
    db.journees := PatchDays(db.journees, id, updates);
    var journee := DayById(db.State(), id);
    r := if journee.Some? then Success(journee.value) else Failure(DayNotFound);
  }

  method TerminerJournee(db: Database, id: nat) returns (r: Result<Journee, DayError>)
    modifies db
    ensures (db.State(), r) == Terminer(old(db.State()), id)
  {
    db.journees := CloseDays(db.journees, id);
    var journee := DayById(db.State(), id);
    r := if journee.Some? then Success(journee.value) else Failure(DayNotFound);
  }
}
