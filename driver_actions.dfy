/** The driver dashboard: the day's route cards with their visit logs, the
    action sheet that records a visit's outcome, and the completed counter. */
module DriverActions {
  import opened Records
  import opened RouteStore

  // ---------------------------------------------------------------------
  // The `delivery_logs` collection and the joined route cards
  // ---------------------------------------------------------------------

  predicate DistinctLogIds(t: seq<DeliveryLog>) {
    forall i, j :: 0 <= i < j < |t| ==> t[i].id != t[j].id
  }

  /** The logs a route row joins with (`logs:delivery_logs(*)`), in table order. */
  function LogsOf(t: seq<DeliveryLog>, routeId: nat): (r: seq<DeliveryLog>)
    ensures forall l :: l in r <==> l in t && l.routeId == routeId
    ensures |r| <= |t|
  {
    if t == [] then []
    else
      assert t == t[..|t| - 1] + [t[|t| - 1]];
      var last := t[|t| - 1];
      LogsOf(t[..|t| - 1], routeId) + (if last.routeId == routeId then [last] else [])
  }

  /** One card of the driver's list: the route row with its logs. */
  datatype RouteCard = RouteCard(route: Route, logs: seq<DeliveryLog>)

  /** `fetchMyRoutes`' result: every fetched row, in order, joined with its
      logs: a card holds exactly the logs that name its route. */
  function Cards(rs: seq<Route>, t: seq<DeliveryLog>): (r: seq<RouteCard>)
    ensures |r| == |rs|
    ensures forall i :: 0 <= i < |rs| ==> r[i].route == rs[i]
    ensures forall i, l :: 0 <= i < |rs| ==> (l in r[i].logs <==> l in t && l.routeId == rs[i].id)
  {
    seq(|rs|, i requires 0 <= i < |rs| => RouteCard(rs[i], LogsOf(t, rs[i].id)))
  }

  /** `update({ type, memo }).eq('id', id)` on `delivery_logs`: route, id and
      creation time of the row stay. */
  function Rewritten(l: DeliveryLog, id: nat, logType: string, memo: string): DeliveryLog {
    if l.id == id then l.(logType := logType, memo := memo) else l
  }

  function UpdateLog(t: seq<DeliveryLog>, id: nat, logType: string, memo: string): (r: seq<DeliveryLog>)
    ensures |r| == |t|
    ensures forall k :: 0 <= k < |t| && t[k].id == id ==> r[k].logType == logType && r[k].memo == memo
    ensures forall k :: 0 <= k < |t| ==>
      r[k].id == t[k].id && r[k].routeId == t[k].routeId && r[k].createdAt == t[k].createdAt
    ensures forall k :: 0 <= k < |t| && t[k].id != id ==> r[k] == t[k]
  {
    seq(|t|, k requires 0 <= k < |t| => Rewritten(t[k], id, logType, memo))
  }

  /** The log write of `handleAction`: the card's first log is updated when it
      has one, otherwise a new log for the card's route is inserted. */
  function Upsert(t: seq<DeliveryLog>, card: RouteCard, logType: string, memo: string,
                  newId: nat, now: string): (r: seq<DeliveryLog>)
    ensures |r| == |t| + (if card.logs == [] then 1 else 0)
    ensures card.logs != [] ==> forall k :: 0 <= k < |t| ==>
      r[k].id == t[k].id && r[k].routeId == t[k].routeId && r[k].createdAt == t[k].createdAt
    ensures card.logs == [] ==>
      r[..|t|] == t && r[|t|].id == newId && r[|t|].routeId == card.route.id && r[|t|].createdAt == now
  {
    if card.logs != [] then UpdateLog(t, card.logs[0].id, logType, memo)
    else t + [DeliveryLog(newId, card.route.id, logType, memo, now)]
  }

  // ---------------------------------------------------------------------
  // Facts about the log writes
  // ---------------------------------------------------------------------

  lemma LogsOfAppend(t: seq<DeliveryLog>, x: DeliveryLog, routeId: nat)
    ensures LogsOf(t + [x], routeId) == LogsOf(t, routeId) + (if x.routeId == routeId then [x] else [])
  {
    assert (t + [x])[..|t|] == t;
  }

  lemma UpdateLogConcat(a: seq<DeliveryLog>, b: seq<DeliveryLog>, id: nat, logType: string, memo: string)
    ensures UpdateLog(a + b, id, logType, memo) == UpdateLog(a, id, logType, memo) + UpdateLog(b, id, logType, memo)
  {
  }

  /** An update by log id commutes with the join, since it keeps `routeId`. */
  lemma {:induction false} LogsOfUpdateLog(t: seq<DeliveryLog>, id: nat, logType: string, memo: string, routeId: nat)
    ensures LogsOf(UpdateLog(t, id, logType, memo), routeId) == UpdateLog(LogsOf(t, routeId), id, logType, memo)
  {
    if t != [] {
      var init, last := t[..|t| - 1], t[|t| - 1];
      var w := Rewritten(last, id, logType, memo);
      assert t == init + [last];
      UpdateLogConcat(init, [last], id, logType, memo);
      assert UpdateLog([last], id, logType, memo) == [w];
      LogsOfAppend(UpdateLog(init, id, logType, memo), w, routeId);
      LogsOfUpdateLog(init, id, logType, memo, routeId);
      LogsOfAppend(init, last, routeId);
      var h := if last.routeId == routeId then [last] else [];
      UpdateLogConcat(LogsOf(init, routeId), h, id, logType, memo);
      assert UpdateLog(h, id, logType, memo) == if w.routeId == routeId then [w] else [];
    }
  }

  lemma {:induction false} LogsOfDistinct(t: seq<DeliveryLog>, routeId: nat)
    requires DistinctLogIds(t)
    ensures DistinctLogIds(LogsOf(t, routeId))
  {
    if t != [] {
      var init, last := t[..|t| - 1], t[|t| - 1];
      assert DistinctLogIds(init);
      LogsOfDistinct(init, routeId);
      var rest := LogsOf(init, routeId);
      forall l | l in rest ensures l.id != last.id {
        var k :| 0 <= k < |init| && init[k] == l;
        assert t[k] == l;
      }
      LogsOfAppend(init, last, routeId);
      assert t == init + [last];
    }
  }

  /** An update naming an id no log carries changes nothing. */
  lemma UpdateLogAbsent(t: seq<DeliveryLog>, id: nat, logType: string, memo: string)
    requires forall l :: l in t ==> l.id != id
    ensures UpdateLog(t, id, logType, memo) == t
  {
    assert forall k :: 0 <= k < |t| ==> t[k] in t;
  }

  /** When the route has a log, `handleAction` overwrites the type and memo of
      that first log and of no other: the route keeps as many logs as before,
      the first keeps its id and time, and other routes' logs stay as they are. */
  lemma RecordOverwritesFirstLog(t: seq<DeliveryLog>, card: RouteCard, logType: string, memo: string,
                                 newId: nat, now: string)
    requires DistinctLogIds(t)
    requires card.logs != [] && card.logs == LogsOf(t, card.route.id)
    ensures |Upsert(t, card, logType, memo, newId, now)| == |t|
    ensures var after := LogsOf(Upsert(t, card, logType, memo, newId, now), card.route.id);
      && |after| == |card.logs|
      && after[0] == card.logs[0].(logType := logType, memo := memo)
      && (forall k :: 1 <= k < |after| ==> after[k] == card.logs[k])
    ensures forall r :: r != card.route.id ==>
      LogsOf(Upsert(t, card, logType, memo, newId, now), r) == LogsOf(t, r)
  {
    var id := card.logs[0].id;
    LogsOfUpdateLog(t, id, logType, memo, card.route.id);
    LogsOfDistinct(t, card.route.id);
    forall r | r != card.route.id
      ensures LogsOf(Upsert(t, card, logType, memo, newId, now), r) == LogsOf(t, r)
    {
      LogsOfUpdateLog(t, id, logType, memo, r);
      forall l | l in LogsOf(t, r) ensures l.id != id {
        if l.id == id {
          assert card.logs[0] in LogsOf(t, card.route.id);
          SameIdSameLog(t, l, card.logs[0]);
        }
      }
      UpdateLogAbsent(LogsOf(t, r), id, logType, memo);
    }
  }

  lemma SameIdSameLog(t: seq<DeliveryLog>, a: DeliveryLog, b: DeliveryLog)
    requires DistinctLogIds(t) && a in t && b in t && a.id == b.id
    ensures a == b
  {
  }

  /** When the route has no log, `handleAction` adds exactly one, for that
      route, and no other route's logs change. */
  lemma RecordAddsOneLog(t: seq<DeliveryLog>, card: RouteCard, logType: string, memo: string,
                         newId: nat, now: string)
    requires card.logs == []
    ensures |Upsert(t, card, logType, memo, newId, now)| == |t| + 1
    ensures LogsOf(Upsert(t, card, logType, memo, newId, now), card.route.id)
         == LogsOf(t, card.route.id) + [DeliveryLog(newId, card.route.id, logType, memo, now)]
    ensures forall r :: r != card.route.id ==>
      LogsOf(Upsert(t, card, logType, memo, newId, now), r) == LogsOf(t, r)
  {
    var x := DeliveryLog(newId, card.route.id, logType, memo, now);
    LogsOfAppend(t, x, card.route.id);
    forall r | r != card.route.id
      ensures LogsOf(Upsert(t, card, logType, memo, newId, now), r) == LogsOf(t, r)
    {
      LogsOfAppend(t, x, r);
    }
  }

  /** The store's primary key stays unique, and below the next id handed out. */
  lemma UpsertKeepsIds(t: seq<DeliveryLog>, card: RouteCard, logType: string, memo: string,
                       newId: nat, now: string)
    requires DistinctLogIds(t) && (forall l :: l in t ==> l.id < newId)
    ensures var u := Upsert(t, card, logType, memo, newId, now);
      && DistinctLogIds(u)
      && (forall l :: l in u ==> l.id < newId + (if card.logs == [] then 1 else 0))
  {
    var u := Upsert(t, card, logType, memo, newId, now);
    if card.logs == [] {
      forall i, j | 0 <= i < j < |u| ensures u[i].id != u[j].id {
        if j == |t| { assert t[i] in t; }
      }
    } else {
      forall l | l in u ensures l.id < newId {
        var k :| 0 <= k < |u| && u[k] == l;
        assert t[k] in t;
      }
    }
  }

  // ---------------------------------------------------------------------
  // Route status
  // ---------------------------------------------------------------------

  /** The route writes the two dashboards issue: sequence and instruction
      from the admin's list, `COMPLETED` from the driver's action sheet. */
  predicate ClientPatch(p: Patch) {
    p.SetSequence? || p.SetAdminMemo? || p == SetStatus(Completed)
  }

  /** No write the client issues turns a completed route back to pending. */
  lemma CompletedNeverReverts(t: seq<Route>, id: nat, p: Patch)
    requires ClientPatch(p)
    ensures forall k :: 0 <= k < |t| && t[k].status == Completed ==> Update(t, id, p)[k].status == Completed
  {
  }

  /** Recording a second outcome leaves the route completed, as the first did. */
  lemma CompleteIdempotent(t: seq<Route>, id: nat)
    ensures Update(Update(t, id, SetStatus(Completed)), id, SetStatus(Completed)) == Update(t, id, SetStatus(Completed))
    ensures forall r :: r in Update(t, id, SetStatus(Completed)) && r.id == id ==> r.status == Completed
  {
  }

  // ---------------------------------------------------------------------
  // The completed counter
  // ---------------------------------------------------------------------

  /** `routes.filter(r => r.status === 'COMPLETED').length`. */
  function CompletedCount(cards: seq<RouteCard>): (n: nat)
    ensures n <= |cards|
    ensures n == 0 <==> forall i :: 0 <= i < |cards| ==> cards[i].route.status != Completed
    ensures n == |cards| <==> forall i :: 0 <= i < |cards| ==> cards[i].route.status == Completed
  {
    if cards == [] then 0
    else
      assert forall i :: 1 <= i < |cards| ==> cards[i] == cards[1..][i - 1];
      (if cards[0].route.status == Completed then 1 else 0) + CompletedCount(cards[1..])
  }

  /** Completing routes never lowers the counter, and completing one that was
      pending raises it. */
  lemma {:induction false} CountMonotone(a: seq<RouteCard>, b: seq<RouteCard>)
    requires |a| == |b|
    requires forall i :: 0 <= i < |a| && a[i].route.status == Completed ==> b[i].route.status == Completed
    ensures CompletedCount(a) <= CompletedCount(b)
    ensures (exists i :: 0 <= i < |a| && a[i].route.status != Completed && b[i].route.status == Completed) ==>
              CompletedCount(a) < CompletedCount(b)
  {
    if a != [] {
      assert forall i :: 0 <= i < |a[1..]| ==> a[1..][i] == a[i + 1] && b[1..][i] == b[i + 1];
      CountMonotone(a[1..], b[1..]);
      if exists i :: 0 <= i < |a| && a[i].route.status != Completed && b[i].route.status == Completed {
        var i :| 0 <= i < |a| && a[i].route.status != Completed && b[i].route.status == Completed;
        if i > 0 {
          assert a[1..][i - 1].route.status != Completed && b[1..][i - 1].route.status == Completed;
        }
      }
    }
  }

  /** A status write by the action sheet keeps the day's list in place and
      never lowers the counter, whatever the logs are then. */
  lemma CompletingRaisesCount(t: seq<Route>, id: nat, date: string, driver: string,
                              logs: seq<DeliveryLog>, logs': seq<DeliveryLog>)
    ensures CompletedCount(Cards(Fetch(t, date, driver), logs))
         <= CompletedCount(Cards(Fetch(Update(t, id, SetStatus(Completed)), date, driver), logs'))
  {
    FetchUpdate(t, id, SetStatus(Completed), date, driver);
    CountMonotone(Cards(Fetch(t, date, driver), logs),
                  Cards(Fetch(Update(t, id, SetStatus(Completed)), date, driver), logs'));
  }

  // ---------------------------------------------------------------------
  // The dashboard
  // ---------------------------------------------------------------------

  const RecordFailed: string := "기록 실패: "

  /** The driver dashboard's state and the two store collections it writes.
      The signed-in driver is `user` (`None` when the session has none);
      store errors are arguments. */
  class DriverBoard {
    // the store
    var routeTable: seq<Route>
    var logTable: seq<DeliveryLog>
    var nextLogId: nat
    // the dashboard's state
    var user: Option<string>
    var today: string
    var routes: seq<RouteCard>
    var selectedRoute: Option<RouteCard>
    var memo: string

    ghost predicate Valid()
      reads this
    {
      DistinctLogIds(logTable) && (forall l :: l in logTable ==> l.id < nextLogId)
    }

    /** The dashboard before its first fetch: an empty list, no open sheet. */
    constructor (who: Option<string>, day: string, rt: seq<Route>, lt: seq<DeliveryLog>, logIds: nat)
      requires DistinctLogIds(lt) && (forall l :: l in lt ==> l.id < logIds)
      ensures Valid()
      ensures routeTable == rt && logTable == lt && nextLogId == logIds
      ensures user == who && today == day
      ensures routes == [] && selectedRoute == None && memo == ""
    {
      routeTable, logTable, nextLogId := rt, lt, logIds;
      user, today := who, day;
      routes, selectedRoute, memo := [], None, "";
    }

    /** `fetchMyRoutes`: nothing without a signed-in driver; otherwise that
        driver's rows for today, by sequence, with their logs, or the empty
        list when the query fails (`data || []`). */
    method FetchMyRoutes(failed: bool)
      modifies this`routes
      ensures user.None? ==> routes == old(routes)
      ensures user.Some? && failed ==> routes == []
      ensures user.Some? && !failed ==> routes == Cards(Fetch(routeTable, today, user.value), logTable)
    {
      if user.None? {
        return;
      }
      if failed {
        routes := [];
      } else {
        routes := Cards(Fetch(routeTable, today, user.value), logTable);
      }
    }

    /** `openActionModal`: opens the sheet on a card, pre-filling the memo
        with the card's first log's memo, or "" without a log. */
    method OpenActionModal(card: RouteCard)
      modifies this`selectedRoute, this`memo
      ensures selectedRoute == Some(card)
      ensures card.logs == [] ==> memo == ""
      ensures card.logs != [] ==> memo == card.logs[0].memo
    {
      selectedRoute := Some(card);
      memo := if card.logs != [] then card.logs[0].memo else "";
    }

    /** Typing in the sheet's memo box. */
    method EditMemo(m: string)
      modifies this`memo
      ensures memo == m
    {
      memo := m;
    }

    /** `handleAction(type)`: without an open sheet nothing happens. Otherwise
        the log is written (`logErr`: the store's error); on failure only an
        alert is shown and the sheet stays open with its memo. On success the
        route is marked COMPLETED (that write's own error, `statusOk` false,
        goes unnoticed), the list is refetched and the sheet closed. */
    method HandleAction(logType: string, now: string, logErr: Option<string>, statusOk: bool, refetchFailed: bool)
      returns (notice: Notice)
      requires Valid()
      modifies this`logTable, this`nextLogId, this`routeTable, this`routes, this`selectedRoute, this`memo
      ensures Valid()
      ensures old(selectedRoute).None? || logErr.Some? ==>
        && logTable == old(logTable) && nextLogId == old(nextLogId) && routeTable == old(routeTable)
        && routes == old(routes) && selectedRoute == old(selectedRoute) && memo == old(memo)
      ensures old(selectedRoute).None? ==> notice == Quiet
      ensures old(selectedRoute).Some? && logErr.Some? ==> notice == Alert(RecordFailed + logErr.value)
      ensures old(selectedRoute).Some? && logErr.None? ==>
        var sel := old(selectedRoute).value;
        && notice == Quiet
        && logTable == Upsert(old(logTable), sel, logType, old(memo), old(nextLogId), now)
        && nextLogId == old(nextLogId) + (if sel.logs == [] then 1 else 0)
        && routeTable == (if statusOk then Update(old(routeTable), sel.route.id, SetStatus(Completed)) else old(routeTable))
        && (user.None? ==> routes == old(routes))
        && (user.Some? && refetchFailed ==> routes == [])
        && (user.Some? && !refetchFailed ==> routes == Cards(Fetch(routeTable, today, user.value), logTable))
        && selectedRoute == None && memo == ""
    {
      if selectedRoute.None? {
        return Quiet;
      }
      var sel := selectedRoute.value;
      if logErr.Some? {
        return Alert(RecordFailed + logErr.value);
      }
      UpsertKeepsIds(logTable, sel, logType, memo, nextLogId, now);
      logTable := Upsert(logTable, sel, logType, memo, nextLogId, now);
      if sel.logs == [] {
        nextLogId := nextLogId + 1;
      }
      if statusOk {
        routeTable := Update(routeTable, sel.route.id, SetStatus(Completed));
      }
      FetchMyRoutes(refetchFailed);
      selectedRoute := None;
      memo := "";
      notice := Quiet;
    }
  }
}
