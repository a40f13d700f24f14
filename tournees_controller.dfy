/**
  The route endpoints: applying a Spoke stop order to a route's parcels,
  creating a route from a Spoke sheet, deleting a route, and the export
  sheet. The stop order comes from every match of the tracking pattern
  `([A-Z]{2}FR\d{10,20}(?:HD)?);?` under the global and case-insensitive
  flags, numbered 1, 2, … in text order.
 */
module TourneesController {

  import opened Wrappers
  import opened Text
  import opened Seqs
  import opened Store
  import opened ImportsController

  // ---------------------------------------------------------------------
  // The tracking pattern
  // ---------------------------------------------------------------------

  /** Digits from position 4 up to `e`, between ten and twenty of them */
  predicate DigitsUpTo(t: string, e: nat) {
    14 <= e <= 24 && e <= |t| && forall k :: 4 <= k < e ==> IsDigit(t[k])
  }

  /** What group 1 of the pattern can capture */
  predicate TrackingShape(t: string) {
    |t| >= 14 && IsLetter(t[0]) && IsLetter(t[1]) && LowerChar(t[2]) == 'f' && LowerChar(t[3]) == 'r'
    && (DigitsUpTo(t, |t|)
        || (DigitsUpTo(t, |t| - 2) && LowerChar(t[|t| - 2]) == 'h' && LowerChar(t[|t| - 1]) == 'd'))
  }

  /**
    Where group 1 ends when the pattern matches at `p`: two letters, "FR" in
    any case, the greedy digit run cut at twenty, then "HD" in any case when
    it follows.
   */
  function TrackingEndAt(s: string, p: nat): (r: Option<nat>)
    requires p <= |s|
    ensures r.Some? ==> p + 14 <= r.value <= |s|
  {
    if p + 4 <= |s| && IsLetter(s[p]) && IsLetter(s[p + 1]) && LowerChar(s[p + 2]) == 'f' && LowerChar(s[p + 3]) == 'r' then
      var d := Run(s, p + 4, Digits);
      if d < 10 then None
      else
        var e := p + 4 + (if d > 20 then 20 else d);
        if e + 2 <= |s| && LowerChar(s[e]) == 'h' && LowerChar(s[e + 1]) == 'd' then Some(e + 2) else Some(e)
    else None
  }

  /** A capture has the tracking shape */
  lemma TrackingEndShape(s: string, p: nat)
    requires p <= |s| && TrackingEndAt(s, p).Some?
    ensures TrackingShape(s[p..TrackingEndAt(s, p).value])
  {
    var e := TrackingEndAt(s, p).value;
    var t := s[p..e];
    RunFacts(s, p + 4, Digits);
    var d := Run(s, p + 4, Digits);
    var n := if d > 20 then 20 else d;
    assert forall k :: 4 <= k < 4 + n ==> t[k] == s[p + k];
    if e == p + 4 + n + 2 {
      assert t[|t| - 2] == s[e - 2] && t[|t| - 1] == s[e - 1];
      assert DigitsUpTo(t, |t| - 2);
    } else {
      assert DigitsUpTo(t, |t|);
    }
  }

  /** One match: where it starts, where group 1 stops, where the next search starts (after an optional ';') */
  datatype TrackingMatch = TrackingMatch(start: nat, stop: nat, next: nat)

  /** `trackingPattern.exec(text)` from `lastIndex == from`: the leftmost match */
  function NextMatch(s: string, from: nat): (r: Option<TrackingMatch>)
    requires from <= |s|
    ensures r.Some? ==> from <= r.value.start && r.value.start + 14 <= r.value.stop <= r.value.next <= |s|
    ensures r.Some? ==> TrackingEndAt(s, r.value.start) == Some(r.value.stop)
    ensures r.Some? ==> r.value.next == if r.value.stop < |s| && s[r.value.stop] == ';' then r.value.stop + 1 else r.value.stop
    ensures r.Some? ==> forall p :: from <= p < r.value.start ==> TrackingEndAt(s, p).None?
    ensures r.None? ==> forall p :: from <= p <= |s| ==> TrackingEndAt(s, p).None?
    decreases |s| - from
  {
    match TrackingEndAt(s, from)
    case Some(e) => Some(TrackingMatch(from, e, if e < |s| && s[e] == ';' then e + 1 else e))
    case None => if from == |s| then None else NextMatch(s, from + 1)
  }

  /** Group 1 of every match from `from` on, in text order, case kept as written */
  function ExtractTrackings(s: string, from: nat): seq<string>
    requires from <= |s|
    decreases |s| - from
  {
    match NextMatch(s, from)
    case None => []
    case Some(m) => [s[m.start..m.stop]] + ExtractTrackings(s, m.next)
  }

  /**
    `ts` occur in `s` from `from` on at the positions `pos`, each with the
    tracking shape, strictly increasing and without overlap
   */
  ghost predicate Located(s: string, from: nat, ts: seq<string>, pos: seq<nat>) {
    |pos| == |ts| && Placed(s, from, ts, pos) && Increasing(ts, pos)
  }

  /** Each `ts[k]` has the tracking shape and stands in `s` at `pos[k]`, not before `from` */
  ghost predicate Placed(s: string, from: nat, ts: seq<string>, pos: seq<nat>)
    requires |pos| == |ts|
  {
    forall k :: 0 <= k < |ts| ==> TrackingShape(ts[k]) && from <= pos[k] && pos[k] + |ts[k]| <= |s| && s[pos[k]..pos[k] + |ts[k]|] == ts[k]
  }

  /** Each occurrence ends before the next begins */
  ghost predicate Increasing(ts: seq<string>, pos: seq<nat>)
    requires |pos| == |ts|
  {
    forall k :: 0 <= k < |ts| - 1 ==> pos[k] + |ts[k]| <= pos[k + 1]
  }

  lemma PlacedCons(s: string, from: nat, p: nat, t: string, next: nat, ts: seq<string>, pos: seq<nat>)
    requires from <= p && p + |t| <= next <= |s| && s[p..p + |t|] == t && TrackingShape(t)
    requires |pos| == |ts| && Placed(s, next, ts, pos)
    ensures Placed(s, from, [t] + ts, [p] + pos)
  {
    var ts', pos' := [t] + ts, [p] + pos;
    forall k | 0 <= k < |ts'|
      ensures TrackingShape(ts'[k]) && from <= pos'[k] && pos'[k] + |ts'[k]| <= |s| && s[pos'[k]..pos'[k] + |ts'[k]|] == ts'[k]
    {
      if k > 0 {
        assert ts'[k] == ts[k - 1] && pos'[k] == pos[k - 1];
      }
    }
  }

  lemma IncreasingCons(p: nat, t: string, next: nat, ts: seq<string>, pos: seq<nat>)
    requires p + |t| <= next && |pos| == |ts| && Increasing(ts, pos)
    requires |pos| > 0 ==> next <= pos[0]
    ensures Increasing([t] + ts, [p] + pos)
  {
    var ts', pos' := [t] + ts, [p] + pos;
    forall k | 0 <= k < |ts'| - 1
      ensures pos'[k] + |ts'[k]| <= pos'[k + 1]
    {
      if k > 0 {
        assert ts'[k] == ts[k - 1] && pos'[k] == pos[k - 1] && pos'[k + 1] == pos[k];
      }
    }
  }

  /**
    Every extracted tracking has the pattern's shape (so holds no ';'), and
    they occur in the text at strictly increasing, non-overlapping positions.
   */
  lemma {:induction false} ExtractedShape(s: string, from: nat) returns (pos: seq<nat>)
    requires from <= |s|
    ensures Located(s, from, ExtractTrackings(s, from), pos)
    decreases |s| - from
  {
    match NextMatch(s, from)
    case None => pos := [];
    case Some(m) =>
      TrackingEndShape(s, m.start);
      var rest := ExtractedShape(s, m.next);
      var t, ts := s[m.start..m.stop], ExtractTrackings(s, m.next);
      PlacedCons(s, from, m.start, t, m.next, ts, rest);
      IncreasingCons(m.start, t, m.next, ts, rest);
      pos := [m.start] + rest;
  }

  /** One entry of `trackingOrders` */
  datatype TrackingOrder = TrackingOrder(tracking: string, ordre: nat)

  /** The trackings numbered 1, 2, … in order */
  function Numbered(ts: seq<string>): (r: seq<TrackingOrder>)
    ensures |r| == |ts| && forall k :: 0 <= k < |ts| ==> r[k].tracking == ts[k] && r[k].ordre == k + 1
  {
    seq(|ts|, k requires 0 <= k < |ts| => TrackingOrder(ts[k], k + 1))
  }

  /** The matches from `from` on as numbered orders, the first numbered `n` */
  function OrdersFrom(s: string, from: nat, n: nat): (r: seq<TrackingOrder>)
    requires from <= |s|
    decreases |s| - from
  {
    match NextMatch(s, from)
    case None => []
    case Some(m) => [TrackingOrder(s[m.start..m.stop], n)] + OrdersFrom(s, m.next, n + 1)
  }

  /** Numbering from `n` pairs the k-th extracted tracking with `n + k` */
  lemma {:induction false} OrdersFromNumbered(s: string, from: nat, n: nat)
    requires from <= |s|
    ensures var os := OrdersFrom(s, from, n); var ts := ExtractTrackings(s, from);
      |os| == |ts| && forall k :: 0 <= k < |ts| ==> os[k] == TrackingOrder(ts[k], n + k)
    decreases |s| - from
  {
    match NextMatch(s, from)
    case None =>
    case Some(m) =>
      OrdersFromNumbered(s, m.next, n + 1);
  }

  lemma OrdersFromStart(s: string)
    ensures OrdersFrom(s, 0, 1) == Numbered(ExtractTrackings(s, 0))
  {
    OrdersFromNumbered(s, 0, 1);
  }

  /** One turn of the loop: a found match adds its order, numbered `n`, in front of the rest */
  lemma OrdersFromNext(s: string, from: nat, n: nat, done: seq<TrackingOrder>)
    requires from <= |s| && NextMatch(s, from).Some?
    ensures var m := NextMatch(s, from).value;
      done + OrdersFrom(s, from, n) == (done + [TrackingOrder(s[m.start..m.stop], n)]) + OrdersFrom(s, m.next, n + 1)
  {
  }

  /** The `while ((match = trackingPattern.exec(text)) !== null)` loop */
  method ExtractTrackingOrders(text: string) returns (orders: seq<TrackingOrder>)
    ensures orders == Numbered(ExtractTrackings(text, 0))
  {
    orders := [];
    var lastIndex := 0;
    var orderNum := 1;
    var m := NextMatch(text, lastIndex);
    while m.Some?
      invariant lastIndex <= |text| && m == NextMatch(text, lastIndex)
      invariant orders + OrdersFrom(text, lastIndex, orderNum) == OrdersFrom(text, 0, 1)
      decreases |text| - lastIndex
    {
      OrdersFromNext(text, lastIndex, orderNum, orders);
      orders := orders + [TrackingOrder(text[m.value.start..m.value.stop], orderNum)];
      orderNum := orderNum + 1;
      lastIndex := m.value.next;
      m := NextMatch(text, lastIndex);
    }
    OrdersFromStart(text);
  }

  // ---------------------------------------------------------------------
  // Applying the order to parcel rows
  // ---------------------------------------------------------------------

  /**
    `importSpoke` on a route sets the stop of that route's parcels;
    `createWithSpoke` sets the stop of the day's parcels and moves them to
    the new route. Both compare the tracking exactly, case included.
   */
  datatype OrderTarget = RouteOrder(rid: nat) | DayRebind(jid: nat, rid: nat)

  predicate Targets(c: Colis, tracking: string, g: OrderTarget) {
    c.tracking == tracking
    && match g
       case RouteOrder(rid) => c.tourneeId == Some(rid)
       case DayRebind(jid, _) => c.journeeId == jid
  }

  function Reorder(c: Colis, ordre: nat, g: OrderTarget): Colis {
    match g
    case RouteOrder(_) => c.(ordre := Some(ordre))
    case DayRebind(_, rid) => c.(ordre := Some(ordre), tourneeId := Some(rid))
  }

  /** `.update(...).eq('tracking', tracking).eq(scope)` */
  function ApplyOrder(cs: seq<Colis>, o: TrackingOrder, g: OrderTarget): seq<Colis> {
    seq(|cs|, k requires 0 <= k < |cs| => if Targets(cs[k], o.tracking, g) then Reorder(cs[k], o.ordre, g) else cs[k])
  }

  /** `updated && updated.length > 0` */
  predicate AnyTargeted(cs: seq<Colis>, tracking: string, g: OrderTarget) {
    exists k :: 0 <= k < |cs| && Targets(cs[k], tracking, g)
  }

  datatype OrderTally = OrderTally(colis: seq<Colis>, updated: nat)

  function OrderStep(b: OrderTally, o: TrackingOrder, g: OrderTarget): OrderTally {
    OrderTally(ApplyOrder(b.colis, o, g), b.updated + if AnyTargeted(b.colis, o.tracking, g) then 1 else 0)
  }

  /** The same rows, differing at most in stop and route, each still targeted exactly as before */
  predicate SameTargets(xs: seq<Colis>, ys: seq<Colis>, g: OrderTarget) {
    |xs| == |ys|
    && forall k :: 0 <= k < |xs| ==>
         xs[k].(ordre := ys[k].ordre, tourneeId := ys[k].tourneeId) == ys[k]
         && xs[k].tracking == ys[k].tracking && (g.RouteOrder? ==> xs[k].tourneeId == ys[k].tourneeId)
  }

  /** The update loop */
  function ApplyOrders(cs: seq<Colis>, os: seq<TrackingOrder>, g: OrderTarget): (r: OrderTally)
    ensures SameTargets(cs, r.colis, g)
    ensures r.updated <= |os|
  {
    if os == [] then OrderTally(cs, 0)
    else OrderStep(ApplyOrders(cs, os[..|os| - 1], g), os[|os| - 1], g)
  }

  lemma {:induction false} ApplyOrdersStep(cs: seq<Colis>, os: seq<TrackingOrder>, g: OrderTarget, i: nat)
    requires i < |os|
    ensures ApplyOrders(cs, os[..i + 1], g) == OrderStep(ApplyOrders(cs, os[..i], g), os[i], g)
  {
    var q := os[..i + 1];
    assert q[..|q| - 1] == os[..i];
    assert q[|q| - 1] == os[i];
  }

  /** How many trackings of the list reach some row in scope */
  function CountTargeted(cs: seq<Colis>, os: seq<TrackingOrder>, g: OrderTarget): (n: nat)
    ensures n <= |os|
  {
    if os == [] then 0
    else CountTargeted(cs, os[..|os| - 1], g) + if AnyTargeted(cs, os[|os| - 1].tracking, g) then 1 else 0
  }

  lemma SameTargetsAny(xs: seq<Colis>, ys: seq<Colis>, tracking: string, g: OrderTarget)
    requires SameTargets(xs, ys, g)
    ensures AnyTargeted(xs, tracking, g) <==> AnyTargeted(ys, tracking, g)
  {
    if AnyTargeted(xs, tracking, g) {
      var k :| 0 <= k < |xs| && Targets(xs[k], tracking, g);
      assert Targets(ys[k], tracking, g);
    }
    if AnyTargeted(ys, tracking, g) {
      var k :| 0 <= k < |ys| && Targets(ys[k], tracking, g);
      assert Targets(xs[k], tracking, g);
    }
  }

  /**
    `colis_mis_a_jour` counts the trackings of the list that match at least
    one row in scope, so it is at most the number of trackings found.
   */
  lemma {:induction false} UpdatedCounts(cs: seq<Colis>, os: seq<TrackingOrder>, g: OrderTarget)
    ensures ApplyOrders(cs, os, g).updated == CountTargeted(cs, os, g) <= |os|
  {
    if os != [] {
      var init := os[..|os| - 1];
      UpdatedCounts(cs, init, g);
      SameTargetsAny(cs, ApplyOrders(cs, init, g).colis, os[|os| - 1].tracking, g);
    }
  }

  /** A row no tracking of the list reaches is left as it was */
  lemma {:induction false} UntargetedUnchanged(cs: seq<Colis>, os: seq<TrackingOrder>, g: OrderTarget, k: nat)
    requires k < |cs| && forall j :: 0 <= j < |os| ==> !Targets(cs[k], os[j].tracking, g)
    ensures ApplyOrders(cs, os, g).colis[k] == cs[k]
  {
    if os != [] {
      var init := os[..|os| - 1];
      assert forall j :: 0 <= j < |init| ==> init[j] == os[j];
      UntargetedUnchanged(cs, init, g, k);
    }
  }

  /** A row reached by a tracking ends with the stop of that tracking's last occurrence in the list */
  lemma {:induction false} LaterOrderWins(cs: seq<Colis>, os: seq<TrackingOrder>, g: OrderTarget, k: nat, j: nat)
    requires k < |cs| && j < |os| && Targets(cs[k], os[j].tracking, g)
    requires forall i :: j < i < |os| ==> os[i].tracking != os[j].tracking
    ensures ApplyOrders(cs, os, g).colis[k].ordre == Some(os[j].ordre)
    ensures g.DayRebind? ==> ApplyOrders(cs, os, g).colis[k].tourneeId == Some(g.rid)
  {
    var n := |os| - 1;
    var init := os[..n];
    var prev := ApplyOrders(cs, init, g).colis;
    assert ApplyOrders(cs, os, g).colis == ApplyOrder(prev, os[n], g);
    if j == n {
      assert Targets(prev[k], os[n].tracking, g);
    } else {
      assert init[j] == os[j];
      assert forall i :: j < i < |init| ==> init[i] == os[i];
      LaterOrderWins(cs, init, g, k, j);
      assert !Targets(prev[k], os[n].tracking, g);
    }
  }

  // ---------------------------------------------------------------------
  // POST /tournees/:id/spoke
  // ---------------------------------------------------------------------

  datatype RouteError = MissingFile | RouteNotFound | MissingFields | ChauffeurNotFound

  datatype OrderSummary = OrderSummary(tourneeId: nat, trackingsTrouves: nat, colisMisAJour: nat)

  /** `importSpoke`: without a file or a known route nothing is written; otherwise the stops are applied and the route is marked */
  function RouteSpokeImport(t: Tables, rid: nat, text: Option<string>): (r: (Tables, Result<OrderSummary, RouteError>))
    ensures r.1.Failure? <==> text.None? || RouteById(t, rid).None?
    ensures r.1.Failure? ==> r.0 == t
    ensures r.1.Success? ==> r.1.value.tourneeId == rid && r.1.value.colisMisAJour <= r.1.value.trackingsTrouves
    ensures r.0.(colis := t.colis, tournees := t.tournees) == t && |r.0.colis| == |t.colis| && |r.0.tournees| == |t.tournees|
  {
    match text
    case None => (t, Failure(MissingFile))
    case Some(s) =>
      if RouteById(t, rid).None? then (t, Failure(RouteNotFound))
      else
        var os := Numbered(ExtractTrackings(s, 0));
        var b := ApplyOrders(t.colis, os, RouteOrder(rid));
        (t.(colis := b.colis, tournees := MarkSpoke(t.tournees, rid)), Success(OrderSummary(rid, |os|, b.updated)))
  }

  /**
    Applying a Spoke order to a route changes only the stop of that route's
    parcels, confines its counts to the trackings found, and marks the route
    even when nothing matched.
   */
  lemma RouteSpokeFacts(t: Tables, rid: nat, s: string)
    requires RouteById(t, rid).Some?
    ensures var r := RouteSpokeImport(t, rid, Some(s)); var os := Numbered(ExtractTrackings(s, 0));
      r.1.Success? && r.1.value.trackingsTrouves == |os|
      && r.1.value.colisMisAJour == CountTargeted(t.colis, os, RouteOrder(rid)) <= |os|
      && r.0.(colis := t.colis, tournees := t.tournees) == t
      && |r.0.colis| == |t.colis|
      && (forall k :: 0 <= k < |t.colis| ==> r.0.colis[k] == t.colis[k].(ordre := r.0.colis[k].ordre))
      && (forall k :: 0 <= k < |t.colis| && t.colis[k].tourneeId != Some(rid) ==> r.0.colis[k] == t.colis[k])
      && (forall k :: 0 <= k < |t.colis| && (forall j :: 0 <= j < |os| ==> os[j].tracking != t.colis[k].tracking) ==>
            r.0.colis[k] == t.colis[k])
      && (forall k :: 0 <= k < |r.0.tournees| && r.0.tournees[k].id == rid ==> r.0.tournees[k].spokeImporte)
      && r.0.tournees == MarkSpoke(t.tournees, rid)
  {
    var os := Numbered(ExtractTrackings(s, 0));
    UpdatedCounts(t.colis, os, RouteOrder(rid));
    forall k | 0 <= k < |t.colis| && (t.colis[k].tourneeId != Some(rid) || forall j :: 0 <= j < |os| ==> os[j].tracking != t.colis[k].tracking)
      ensures ApplyOrders(t.colis, os, RouteOrder(rid)).colis[k] == t.colis[k]
    {
      UntargetedUnchanged(t.colis, os, RouteOrder(rid), k);
    }
  }

  /** The refusals write nothing */
  lemma RouteSpokeRefusals(t: Tables, rid: nat, text: Option<string>)
    requires text.None? || RouteById(t, rid).None?
    ensures RouteSpokeImport(t, rid, text).0 == t
    ensures RouteSpokeImport(t, rid, text).1 == Failure(if text.None? then MissingFile else RouteNotFound)
  {
  }

  // ---------------------------------------------------------------------
  // POST /tournees/create-spoke
  // ---------------------------------------------------------------------

  datatype CreateSummary = CreateSummary(tourneeId: nat, chauffeur: string, trackingsTrouves: nat, colisMisAJour: nat)

  /** The route of the driver on the day, reused and marked, or created empty and marked */
  function SpokeRouteFor(t: Tables, jid: nat, cid: nat): (r: (Tables, nat))
    ensures r.0.(tournees := t.tournees, nextId := t.nextId) == t
    ensures exists k :: (0 <= k < |r.0.tournees| && r.0.tournees[k].id == r.1
      && RouteKey(r.0.tournees[k]) == (jid, cid) && r.0.tournees[k].spokeImporte)
    ensures RouteOf(t, jid, cid).Some? ==> r.1 == RouteOf(t, jid, cid).value.id && r.0.tournees == MarkSpoke(t.tournees, r.1)
    ensures RouteOf(t, jid, cid).None? ==> r.0.tournees == t.tournees + [Tournee(t.nextId, jid, cid, 0, true)]
  {
    match RouteOf(t, jid, cid)
    case Some(rt) =>
      var i :| 0 <= i < |t.tournees| && t.tournees[i] == rt;
      var r := (t.(tournees := MarkSpoke(t.tournees, rt.id)), rt.id);
      assert r.0.tournees[i].id == r.1 && RouteKey(r.0.tournees[i]) == (jid, cid);
      r
    case None =>
      var r := AddTournee(t, jid, cid, 0, true);
      assert r.0.tournees[|t.tournees|].id == r.1;
      r
  }

  /**
    `createWithSpoke`: missing fields, then an unknown driver, are refused
    before any write; otherwise the day is found or created, the route is
    reused or created, both marked spoke-imported, the day's parcels named in
    the sheet get their stop and are moved to the route, and the route is
    recounted.
   */
  function CreateWithSpoke(t: Tables, chauffeurId: Option<nat>, text: Option<string>, date: string)
    : (r: (Tables, Result<CreateSummary, RouteError>))
    ensures r.1.Failure? ==> r.0 == t
    ensures r.0.chauffeurs == t.chauffeurs && r.0.scans == t.scans && r.0.users == t.users && r.0.imports == t.imports
    ensures r.1.Success? ==> |r.0.colis| == |t.colis| && r.1.value.colisMisAJour <= r.1.value.trackingsTrouves
  {
    if chauffeurId.None? || text.None? || date == "" then (t, Failure(MissingFields))
    else
      match DriverById(t, chauffeurId.value)
      case None => (t, Failure(ChauffeurNotFound))
      case Some(c) =>
        var (t1, jid) := DayFor(t, date);
        var (t2, rid) := SpokeRouteFor(t1, jid, c.id);
        var os := Numbered(ExtractTrackings(text.value, 0));
        var b := ApplyOrders(t2.colis, os, DayRebind(jid, rid));
        var t4 := Recount(t2.(colis := b.colis), rid);
        (t4, Success(CreateSummary(rid, Interp(c.prenom) + " " + c.nom, |os|, b.updated)))
  }

  /**
    After `createWithSpoke`, every parcel of the day whose tracking the sheet
    names is on the new route with the stop of its last occurrence;
    CreateWithSpokeUntouched shows that no other parcel changed.
   */
  lemma CreateWithSpokeFacts(t: Tables, cid: nat, s: string, date: string, k: nat, j: nat)
    requires date != "" && DriverById(t, cid).Some?
    requires var t1 := DayFor(t, date);
      k < |t.colis| && t.colis[k].journeeId == t1.1
      && var os := Numbered(ExtractTrackings(s, 0));
         j < |os| && t.colis[k].tracking == os[j].tracking
         && forall i :: j < i < |os| ==> os[i].tracking != os[j].tracking
    ensures var r := CreateWithSpoke(t, Some(cid), Some(s), date);
      r.1.Success? && r.0.colis[k].tourneeId == Some(r.1.value.tourneeId) && r.0.colis[k].ordre == Some(j + 1)
  {
    var (t1, jid) := DayFor(t, date);
    var (t2, rid) := SpokeRouteFor(t1, jid, DriverById(t, cid).value.id);
    var os := Numbered(ExtractTrackings(s, 0));
    assert t2.colis == t.colis;
    LaterOrderWins(t2.colis, os, DayRebind(jid, rid), k, j);
  }

  /** A parcel of another day, or one whose tracking the sheet does not name, is left as it was */
  lemma CreateWithSpokeUntouched(t: Tables, cid: nat, s: string, date: string, k: nat)
    requires date != "" && DriverById(t, cid).Some? && k < |t.colis|
    requires t.colis[k].journeeId != DayFor(t, date).1
      || forall i :: 0 <= i < |ExtractTrackings(s, 0)| ==> ExtractTrackings(s, 0)[i] != t.colis[k].tracking
    ensures var r := CreateWithSpoke(t, Some(cid), Some(s), date);
      r.1.Success? && |r.0.colis| == |t.colis| && r.0.colis[k] == t.colis[k]
  {
    var jid, rid := CreateWithSpokeColis(t, cid, s, date);
    var ts := ExtractTrackings(s, 0);
    if t.colis[k].journeeId == jid {
      assert forall i :: 0 <= i < |ts| ==> ts[i] != t.colis[k].tracking;
    }
    NotTargeted(t.colis[k], ts, jid, rid);
    UntargetedUnchanged(t.colis, Numbered(ts), DayRebind(jid, rid), k);
  }

  lemma NotTargeted(c: Colis, ts: seq<string>, jid: nat, rid: nat)
    requires c.journeeId != jid || forall i :: 0 <= i < |ts| ==> ts[i] != c.tracking
    ensures forall j :: 0 <= j < |Numbered(ts)| ==> !Targets(c, Numbered(ts)[j].tracking, DayRebind(jid, rid))
  {
  }

  /** The parcels after a successful `createWithSpoke` are those the orders leave, rebinding to the route of the day */
  lemma CreateWithSpokeColis(t: Tables, cid: nat, s: string, date: string) returns (jid: nat, rid: nat)
    requires date != "" && DriverById(t, cid).Some?
    ensures jid == DayFor(t, date).1
    ensures var r := CreateWithSpoke(t, Some(cid), Some(s), date);
      r.1.Success? && r.0.colis == ApplyOrders(t.colis, Numbered(ExtractTrackings(s, 0)), DayRebind(jid, rid)).colis
  {
    var t1: Tables;
    t1, jid := DayFor(t, date).0, DayFor(t, date).1;
    var t2 := SpokeRouteFor(t1, jid, DriverById(t, cid).value.id).0;
    rid := SpokeRouteFor(t1, jid, DriverById(t, cid).value.id).1;
    assert t2.colis == t.colis;
  }

  /** The refusals, in the order the code tests them, write nothing */
  lemma CreateWithSpokeRefusals(t: Tables, chauffeurId: Option<nat>, text: Option<string>, date: string)
    ensures var r := CreateWithSpoke(t, chauffeurId, text, date);
      r.1 == Failure(MissingFields) <==> chauffeurId.None? || text.None? || date == ""
    ensures var r := CreateWithSpoke(t, chauffeurId, text, date);
      !(chauffeurId.None? || text.None? || date == "") ==>
        (r.1 == Failure(ChauffeurNotFound) <==> DriverById(t, chauffeurId.value).None?)
    ensures var r := CreateWithSpoke(t, chauffeurId, text, date);
      r.1.Failure? ==> r.0 == t
  {
  }

  /**
    On success the route is the driver's route on the day, marked
    spoke-imported, with its count equal to its parcels afterwards; an
    existing route keeps its id and no route is added for it; the other routes
    stay as they were; only the day, the route and the parcels are written,
    and no parcel row is added or removed.
   */
  lemma CreateWithSpokeRoute(t: Tables, cid: nat, s: string, date: string)
    requires date != "" && DriverById(t, cid).Some?
    ensures var r := CreateWithSpoke(t, Some(cid), Some(s), date); var t1 := DayFor(t, date);
      r.1.Success?
      && r.0.(tournees := t.tournees, colis := t.colis, journees := t.journees, nextId := t.nextId) == t
      && r.0.journees == t1.0.journees
      && |r.0.colis| == |t.colis|
      && exists k :: 0 <= k < |r.0.tournees| && r.0.tournees[k].id == r.1.value.tourneeId
            && RouteKey(r.0.tournees[k]) == (t1.1, DriverById(t, cid).value.id)
            && r.0.tournees[k].spokeImporte && r.0.tournees[k].nbColis == RouteParcelCount(r.0, r.1.value.tourneeId)
    ensures var r := CreateWithSpoke(t, Some(cid), Some(s), date); var t1 := DayFor(t, date);
      var existing := RouteOf(t1.0, t1.1, DriverById(t, cid).value.id);
      r.1.Success?
      && (existing.Some? ==> r.1.value.tourneeId == existing.value.id && |r.0.tournees| == |t1.0.tournees|)
      && (existing.None? ==> |r.0.tournees| == |t1.0.tournees| + 1)
      && forall k :: 0 <= k < |t1.0.tournees| && t1.0.tournees[k].id != r.1.value.tourneeId ==> r.0.tournees[k] == t1.0.tournees[k]
  {
    var c := DriverById(t, cid).value;
    var (t1, jid) := DayFor(t, date);
    var (t2, rid) := SpokeRouteFor(t1, jid, c.id);
    var os := Numbered(ExtractTrackings(s, 0));
    var b := ApplyOrders(t2.colis, os, DayRebind(jid, rid));
    var t3 := t2.(colis := b.colis);
    var t4 := Recount(t3, rid);
    assert CreateWithSpoke(t, Some(cid), Some(s), date).0 == t4;
    var i :| 0 <= i < |t2.tournees| && t2.tournees[i].id == rid && RouteKey(t2.tournees[i]) == (jid, c.id) && t2.tournees[i].spokeImporte;
    assert t4.tournees == SetNbColis(t2.tournees, rid, RouteParcelCount(t3, rid));
    assert t4.tournees[i].id == rid && RouteKey(t4.tournees[i]) == (jid, c.id) && t4.tournees[i].spokeImporte;
  }

  // ---------------------------------------------------------------------
  // DELETE /tournees/:id and the export sheet
  // ---------------------------------------------------------------------

  /** `remove`: an unknown route is refused; otherwise its parcels, then the route, are deleted */
  function RemoveRoute(t: Tables, rid: nat): (r: (Tables, Result<(), RouteError>))
    ensures RouteById(t, rid).None? <==> r.1.Failure?
    ensures r.1.Failure? ==> r.0 == t
    ensures r.1.Success? ==> RouteParcels(r.0, rid) == [] && RouteById(r.0, rid).None?
    ensures r.1.Success? ==> forall k :: 0 <= k < |r.0.tournees| ==> r.0.tournees[k].id != rid
    ensures r.1.Success? ==> forall c :: c in t.colis && c.tourneeId != Some(rid) ==> c in r.0.colis
    ensures r.1.Success? ==> forall rt :: rt in t.tournees && rt.id != rid ==> rt in r.0.tournees
    ensures forall c :: c in r.0.colis ==> c in t.colis
    ensures forall rt :: rt in r.0.tournees ==> rt in t.tournees
    ensures r.0.(colis := t.colis, tournees := t.tournees) == t
  {
    if RouteById(t, rid).None? then (t, Failure(RouteNotFound))
    else
      (t.(colis := Reject(t.colis, ParcelRoute, Some(rid)), tournees := Reject(t.tournees, RouteId, rid)), Success(()))
  }

  /** `c.statut === 'trie' ? 'Trié' : 'En attente'` */
  function StatusLabel(s: ParcelStatus): (r: string)
    ensures r == "Trié" <==> s == Trie
    ensures s != Trie ==> r == "En attente"
  {
    if s == Trie then "Trié" else "En attente"
  }

  const ExportHeader: seq<Option<string>> := [Some("Tracking"), Some("Adresse"), Some("Ville"), Some("Code Postal"), Some("Statut")]

  function ExportRow(c: Colis): seq<Option<string>> {
    [Some(c.tracking), c.adresse, c.ville, c.codePostal, Some(StatusLabel(c.statut))]
  }

  /** The export sheet: the header and one row per parcel of the route, in insertion order */
  function ExportSheet(t: Tables, rid: nat): (r: seq<seq<Option<string>>>)
    ensures |r| == 1 + |RouteParcels(t, rid)| && r[0] == ExportHeader
    ensures forall k :: 0 <= k < |r| ==> |r[k]| == 5
    ensures forall k :: 0 <= k < |RouteParcels(t, rid)| ==>
      r[k + 1][0] == Some(RouteParcels(t, rid)[k].tracking)
      && (r[k + 1][4] == Some("Trié") <==> RouteParcels(t, rid)[k].statut == Trie)
  {
    var cs := RouteParcels(t, rid);
    [ExportHeader] + seq(|cs|, k requires 0 <= k < |cs| => ExportRow(cs[k]))
  }

  /** The file name part: `${prenom || ''}_${nom}` trimmed, or 'export' when the route or its driver is missing */
  function ExportName(t: Tables, rid: nat): (r: string)
    ensures RouteById(t, rid).None? ==> r == "export"
    ensures RouteById(t, rid).Some? && RouteById(t, rid).value.chauffeurId != 0 && DriverById(t, RouteById(t, rid).value.chauffeurId).Some? ==>
      var c := DriverById(t, RouteById(t, rid).value.chauffeurId).value;
      r == Trim(c.prenom.GetOr("") + "_" + c.nom)
  {
    match RouteById(t, rid)
    case None => "export"
    case Some(rt) =>
      if rt.chauffeurId == 0 then "export"
      else
        match DriverById(t, rt.chauffeurId)
        case None => "export"
        case Some(c) => Trim(c.prenom.GetOr("") + "_" + c.nom)
  }

  // ---------------------------------------------------------------------
  // The endpoints on the store
  // ---------------------------------------------------------------------

  /** The update loop on the store */
  method ApplyTrackingOrders(db: Database, os: seq<TrackingOrder>, g: OrderTarget) returns (updated: nat)
    modifies db
    ensures OrderTally(db.colis, updated) == ApplyOrders(old(db.colis), os, g)
    ensures db.State().(colis := old(db.colis)) == old(db.State())
  {
    ghost var cs0 := db.colis;
    updated := 0;
    for i := 0 to |os|
      invariant OrderTally(db.colis, updated) == ApplyOrders(cs0, os[..i], g)
      invariant db.State().(colis := cs0) == old(db.State())
    {
      ApplyOrdersStep(cs0, os, g, i);
      if AnyTargeted(db.colis, os[i].tracking, g) {
        updated := updated + 1;
      }
      db.colis := ApplyOrder(db.colis, os[i], g);
    }
    assert os[..|os|] == os;
  }

  method ImportRouteSpoke(db: Database, rid: nat, text: Option<string>) returns (r: Result<OrderSummary, RouteError>)
    modifies db
    ensures (db.State(), r) == RouteSpokeImport(old(db.State()), rid, text)
  {
    if text.None? {
      return Failure(MissingFile);
    }
    if RouteById(db.State(), rid).None? {
      return Failure(RouteNotFound);
    }
    var orders := ExtractTrackingOrders(text.value);
    var updated := ApplyTrackingOrders(db, orders, RouteOrder(rid));
    db.tournees := MarkSpoke(db.tournees, rid);
    r := Success(OrderSummary(rid, |orders|, updated));
  }

  method FindOrCreateSpokeRoute(db: Database, jid: nat, cid: nat) returns (rid: nat)
    modifies db
    ensures (db.State(), rid) == SpokeRouteFor(old(db.State()), jid, cid)
  {
    var existing := RouteOf(db.State(), jid, cid);
    if existing.Some? {
      rid := existing.value.id;
      db.tournees := MarkSpoke(db.tournees, rid);
    } else {
      rid := db.InsertTournee(jid, cid, 0, true);
    }
  }

  method CreateRouteWithSpoke(db: Database, chauffeurId: Option<nat>, text: Option<string>, date: string)
    returns (r: Result<CreateSummary, RouteError>)
    modifies db
    ensures (db.State(), r) == CreateWithSpoke(old(db.State()), chauffeurId, text, date)
  {
    if chauffeurId.None? || text.None? || date == "" {
      return Failure(MissingFields);
    }
    var chauffeur := DriverById(db.State(), chauffeurId.value);
    if chauffeur.None? {
      return Failure(ChauffeurNotFound);
    }
    var c := chauffeur.value;
    var jid := FindOrCreateDay(db, date);
    var rid := FindOrCreateSpokeRoute(db, jid, c.id);
    var orders := ExtractTrackingOrders(text.value);
    var updated := ApplyTrackingOrders(db, orders, DayRebind(jid, rid));
    RecountRoute(db, rid);
    r := Success(CreateSummary(rid, Interp(c.prenom) + " " + c.nom, |orders|, updated));
  }

  method DeleteRoute(db: Database, rid: nat) returns (r: Result<(), RouteError>)
    modifies db
    ensures (db.State(), r) == RemoveRoute(old(db.State()), rid)
  {
    if RouteById(db.State(), rid).None? {
      return Failure(RouteNotFound);
    }
    db.colis := Reject(db.colis, ParcelRoute, Some(rid));
    db.tournees := Reject(db.tournees, RouteId, rid);
    r := Success(());
  }
}
