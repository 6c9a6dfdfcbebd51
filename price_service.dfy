/**
 * The rules of internal/price/service/price_service.go: validation and
 * merging of price alerts, the trigger update, the price update with its
 * change rate and trend, batch updates, the market summary, prediction
 * point counting and the trend classification.
 *
 * Go's float64 arithmetic is modelled on `real`, exactly; where a division
 * by a zero price can produce an infinity or NaN (analyzeTrend), the rate is
 * the `Rate` datatype below. verifyDeviceOwnership is the parameter `owns`.
 * The repository is a parameter too: the prices table, the alerts a query
 * returns, the histories it returns.
 */
module PriceService {
  import opened Common
  import opened PriceModel
  import opened PriceRepository
  import opened GoLib

  // ---------------------------------------------------------------------
  // validateAlertRequest and CreatePriceAlert

  const AlertTypes: set<string> := {"price_drop", "price_rise", "target_price"}
  const ThresholdTypes: set<string> := {"percentage", "absolute"}

  datatype CreateAlertRequest = CreateAlertRequest(
    alertType: string,
    threshold: real,
    thresholdType: string,
    enabled: bool,
    notificationMethods: seq<string>)

  /** validateAlertRequest: the alert type, then the threshold type, then
      the threshold; the first that fails gives the error. */
  function AlertRequestError(req: CreateAlertRequest): (e: Option<Error>)
    ensures e.None? <==> req.alertType in AlertTypes && req.thresholdType in ThresholdTypes && req.threshold > 0.0
    ensures e.Some? ==> e.value.code == Param
    ensures req.alertType !in AlertTypes ==> e == Some(Error(Param, "invalid alert type"))
    ensures req.alertType in AlertTypes && req.thresholdType !in ThresholdTypes ==> e == Some(Error(Param, "invalid threshold type"))
  {
    if req.alertType !in AlertTypes then Some(Error(Param, "invalid alert type"))
    else if req.thresholdType !in ThresholdTypes then Some(Error(Param, "invalid threshold type"))
    else if req.threshold <= 0.0 then Some(Error(Param, "the threshold must be greater than 0"))
    else None
  }

  /** The JSON text stored for a notification-method list: "" for an empty
      list, otherwise what `marshal` (json.Marshal, which cannot fail on a
      list of strings) gives. */
  function MethodsText(methods: seq<string>, marshal: seq<string> -> string): string
  {
    if |methods| > 0 then marshal(methods) else ""
  }

  /** CreatePriceAlert; `insertFailed` is whether the repository insert
      reported a database error, and `newID` and `now` are the ID and the
      creation time the insert writes back into the alert. */
  function CreateAlert(deviceID: int, userID: int, owns: bool, req: CreateAlertRequest, marshal: seq<string> -> string,
                       insertFailed: bool, newID: int, now: int)
    : (r: Result<AlertRow>)
    ensures r.Ok? <==> deviceID > 0 && userID > 0 && owns && AlertRequestError(req).None? && !insertFailed
    ensures r.Err? && (deviceID <= 0 || userID <= 0) ==> r.error.code == Param
    ensures r.Err? && deviceID > 0 && userID > 0 && !owns ==> r.error.code == Auth
    ensures deviceID > 0 && userID > 0 && owns && AlertRequestError(req).Some? ==> r == Err(AlertRequestError(req).value)
    ensures deviceID > 0 && userID > 0 && owns && AlertRequestError(req).None? && insertFailed ==>
      r.Err? && r.error.code == Database
    ensures r.Ok? ==>
      && r.value.deviceID == deviceID && r.value.userID == userID
      && r.value.alertType == req.alertType && r.value.threshold == req.threshold
      && r.value.thresholdType == req.thresholdType && r.value.enabled == req.enabled
      && r.value.status == "active" && r.value.triggerCount == 0 && r.value.lastTriggeredAt == 0
      && r.value.id == newID && r.value.createdAt == now
      && (|req.notificationMethods| == 0 ==> r.value.notificationMethods == "")
      && (|req.notificationMethods| > 0 ==> r.value.notificationMethods == marshal(req.notificationMethods))
  {
    if deviceID <= 0 || userID <= 0 then Fail(Param, "invalid parameters")
    else if !owns then Fail(Auth, "no access to this device")
    else match AlertRequestError(req)
      case Some(e) => Err(e)
      case None =>
        if insertFailed then Fail(Database, "failed to create the price alert")
        else
          Ok(AlertRow(newID, deviceID, userID, req.alertType, req.threshold, req.thresholdType, req.enabled,
                      MethodsText(req.notificationMethods, marshal), 0, 0, "active", now))
  }

  // ---------------------------------------------------------------------
  // UpdatePriceAlert

  /** UpdatePriceAlertRequest; `enabled` is None when the request leaves it out. */
  datatype UpdateAlertRequest = UpdateAlertRequest(
    alertType: string,
    threshold: real,
    thresholdType: string,
    enabled: Option<bool>,
    notificationMethods: seq<string>)

  /** The merge of UpdatePriceAlert. */
  function MergeAlert(row: AlertRow, req: UpdateAlertRequest, marshal: seq<string> -> string): AlertRow
  {
    row.(alertType := if req.alertType != "" then req.alertType else row.alertType,
         threshold := if req.threshold > 0.0 then req.threshold else row.threshold,
         thresholdType := if req.thresholdType != "" then req.thresholdType else row.thresholdType,
         enabled := if req.enabled.Some? then req.enabled.value else row.enabled,
         notificationMethods := if |req.notificationMethods| > 0 then marshal(req.notificationMethods) else row.notificationMethods)
  }

  /** Field by field: each editable field changes to the request's value
      exactly when the request carries one, and the identity, the trigger
      record and the status never change. */
  lemma MergeAlertFields(row: AlertRow, req: UpdateAlertRequest, marshal: seq<string> -> string)
    ensures var m := MergeAlert(row, req, marshal);
      && m.alertType == (if req.alertType != "" then req.alertType else row.alertType)
      && m.threshold == (if req.threshold > 0.0 then req.threshold else row.threshold)
      && m.thresholdType == (if req.thresholdType != "" then req.thresholdType else row.thresholdType)
      && m.enabled == (if req.enabled.Some? then req.enabled.value else row.enabled)
      && (|req.notificationMethods| == 0 ==> m.notificationMethods == row.notificationMethods)
      && m.id == row.id && m.deviceID == row.deviceID && m.userID == row.userID
      && m.lastTriggeredAt == row.lastTriggeredAt && m.triggerCount == row.triggerCount
      && m.status == row.status && m.createdAt == row.createdAt
  {
  }

  /** A request that carries nothing leaves the alert as it is. */
  lemma MergeAlertEmpty(row: AlertRow, threshold: real, marshal: seq<string> -> string)
    requires threshold <= 0.0
    ensures MergeAlert(row, UpdateAlertRequest("", threshold, "", None, []), marshal) == row
  {
  }

  /** Applying the same update twice is applying it once. */
  lemma MergeAlertIdempotent(row: AlertRow, req: UpdateAlertRequest, marshal: seq<string> -> string)
    ensures MergeAlert(MergeAlert(row, req, marshal), req, marshal) == MergeAlert(row, req, marshal)
  {
  }

  /** UpdatePriceAlert on what the repository returned: a database error
      when `loadFailed`, otherwise the alert (null when the caller has no
      alert with that ID); `saveFailed` is whether the write reported a
      database error. The request is not validated: an update may store an
      alert type or threshold type that creation would refuse. */
  method UpdatePriceAlert(alertID: int, userID: int, loadFailed: bool, a: PriceAlert?, req: UpdateAlertRequest,
                          marshal: seq<string> -> string, saveFailed: bool)
    returns (r: Result<Unit>)
    modifies a
    ensures alertID <= 0 || userID <= 0 ==> r.Err? && r.error.code == Param && (a != null ==> a.Row() == old(a.Row()))
    ensures alertID > 0 && userID > 0 && loadFailed ==>
      r.Err? && r.error.code == Database && (a != null ==> a.Row() == old(a.Row()))
    ensures alertID > 0 && userID > 0 && !loadFailed && a == null ==> r.Err? && r.error.code == NotFound
    ensures alertID > 0 && userID > 0 && !loadFailed && a != null ==>
      && a.Row() == MergeAlert(old(a.Row()), req, marshal)
      && (r.Ok? <==> !saveFailed)
      && (saveFailed ==> r.Err? && r.error.code == Database)
  {
    if alertID <= 0 || userID <= 0 {
      return Fail(Param, "invalid parameters");
    }
    if loadFailed {
      return Fail(Database, "failed to load the price alert");
    }
    if a == null {
      return Fail(NotFound, "price alert not found");
    }
    MergeIntoAlert(a, req, marshal);
    if saveFailed {
      return Fail(Database, "failed to update the price alert");
    }
    return Ok(Unit);
  }

  /** The field assignments of UpdatePriceAlert. */
  method MergeIntoAlert(a: PriceAlert, req: UpdateAlertRequest, marshal: seq<string> -> string)
    modifies a
    ensures a.Row() == MergeAlert(old(a.Row()), req, marshal)
  {
    if req.alertType != "" {
      a.alertType := req.alertType;
    }
    if req.threshold > 0.0 {
      a.threshold := req.threshold;
    }
    if req.thresholdType != "" {
      a.thresholdType := req.thresholdType;
    }
    if req.enabled.Some? {
      a.enabled := req.enabled.value;
    }
    if |req.notificationMethods| > 0 {
      a.notificationMethods := marshal(req.notificationMethods);
    }
  }

  /** An update can leave an alert that creation would have refused. */
  lemma UpdateSkipsValidation(row: AlertRow, marshal: seq<string> -> string)
    ensures var m := MergeAlert(row, UpdateAlertRequest("price_fall", 0.0, "", None, []), marshal);
      AlertRequestError(CreateAlertRequest(m.alertType, m.threshold, m.thresholdType, m.enabled, [])).Some?
  {
  }

  // ---------------------------------------------------------------------
  // triggerAlert and checkAndTriggerAlerts

  /** The alert after it fires at time `now`: status "triggered", the time
      recorded and the count one higher; nothing else changes. */
  function Triggered(row: AlertRow, now: int): (t: AlertRow)
    ensures t.status == "triggered" && t.lastTriggeredAt == now && t.triggerCount == row.triggerCount + 1
    ensures t.(status := row.status, lastTriggeredAt := row.lastTriggeredAt, triggerCount := row.triggerCount) == row
  {
    row.(status := "triggered", lastTriggeredAt := now, triggerCount := row.triggerCount + 1)
  }

  /** triggerAlert; the repository write and the notification are left out. */
  method TriggerAlert(a: PriceAlert, now: int)
    modifies a
    ensures a.Row() == Triggered(old(a.Row()), now)
  {
    a.status := "triggered";
    a.lastTriggeredAt := now;
    a.triggerCount := a.triggerCount + 1;
  }

  predicate Distinct<T(==)>(s: seq<T>)
  {
    forall i, j :: 0 <= i < j < |s| ==> s[i] != s[j]
  }

  lemma {:induction false} TriggeringDistinct(alerts: seq<PriceAlert>, currentPrice: real)
    requires Distinct(alerts)
    ensures Distinct(Triggering(alerts, currentPrice))
  {
    if alerts != [] {
      var init := alerts[..|alerts| - 1];
      var last := alerts[|alerts| - 1];
      assert Distinct(init);
      TriggeringDistinct(init, currentPrice);
      TriggeringMembers(init, currentPrice, last);
      assert last !in init;
    }
  }

  /** checkAndTriggerAlerts after the query: `fetched` are the device's
      enabled, active alerts as the repository returns them, each loaded
      once. Exactly the alerts that fire at the new price are triggered,
      each once; the others are untouched. */
  method CheckAndTriggerAlerts(fetched: seq<PriceAlert>, currentPrice: real, now: int)
    requires Distinct(fetched)
    modifies set a | a in fetched
    ensures forall a :: a in fetched ==>
      a.Row() == if ShouldTrigger(old(a.Row()), currentPrice) then Triggered(old(a.Row()), now) else old(a.Row())
  {
    var alerts := CheckPriceAlerts(fetched, currentPrice);
    TriggeringDistinct(fetched, currentPrice);
    forall a | a in fetched
      ensures a in alerts <==> ShouldTrigger(old(a.Row()), currentPrice)
    {
      TriggeringMembers(fetched, currentPrice, a);
    }
    forall a | a in alerts
      ensures a in fetched
    {
      TriggeringMembers(fetched, currentPrice, a);
    }
    var i := 0;
    while i < |alerts|
      invariant 0 <= i <= |alerts|
      invariant forall a :: a in alerts[..i] ==> a in fetched && a.Row() == Triggered(old(a.Row()), now)
      invariant forall a :: a in fetched && a !in alerts[..i] ==> a.Row() == old(a.Row())
    {
      assert alerts[i] !in alerts[..i];
      TriggerAlert(alerts[i], now);
      assert alerts[..i + 1] == alerts[..i] + [alerts[i]];
      i := i + 1;
    }
    assert alerts[..|alerts|] == alerts;
  }

  // ---------------------------------------------------------------------
  // UpdatePrice

  /** determineTrendStatus: a change rate above 1 is rising, below -1 falling. */
  function TrendStatus(changeRate: real): (s: string)
    ensures s == "rising" <==> changeRate > 1.0
    ensures s == "falling" <==> changeRate < -1.0
    ensures s == "stable" <==> -1.0 <= changeRate <= 1.0
  {
    if changeRate > 1.0 then "rising" else if changeRate < -1.0 then "falling" else "stable"
  }

  datatype UpdatePriceResponse = UpdatePriceResponse(
    deviceID: int,
    oldPrice: real,
    newPrice: real,
    priceChange: real,
    changeRate: real,
    updatedAt: int,
    source: string)

  /** The price row UpdatePrice writes: the new price and the time, and,
      only when a price was stored before, the change, the change rate (only
      when the old price is positive, as a percentage) and the trend. */
  function NewPriceRow(deviceID: int, userID: int, current: Option<PriceRow>, newPrice: real, now: int): (p: PriceRow)
    ensures p.deviceID == deviceID && p.userID == userID && p.currentPrice == newPrice && p.lastUpdateAt == now
    ensures current.None? ==> p.priceChange == 0.0 && p.changeRate == 0.0 && p.trendStatus == ""
    ensures current.Some? ==> p.priceChange == newPrice - current.value.currentPrice
                              && p.trendStatus == TrendStatus(p.changeRate)
    ensures p.changeRate != 0.0 ==> current.Some? && current.value.currentPrice > 0.0
    ensures current.Some? && current.value.currentPrice > 0.0 ==>
      p.changeRate == (newPrice - current.value.currentPrice) / current.value.currentPrice * 100.0
  {
    var base := PriceRow(0, deviceID, userID, newPrice, 0.0, 0.0, 0.0, 0.0, 0.0, 0.0, "", now, 0);
    match current
    case None => base
    case Some(c) =>
      var oldPrice := c.currentPrice;
      var rate := if oldPrice > 0.0 then (newPrice - oldPrice) / oldPrice * 100.0 else 0.0;
      base.(priceChange := newPrice - oldPrice, changeRate := rate, trendStatus := TrendStatus(rate))
  }

  /** The stored price of a device for a user, if any (GetDevicePrice). */
  function StoredPrice(table: map<PriceKey, PriceRow>, deviceID: int, userID: int): Option<PriceRow>
  {
    if PriceKey(deviceID, userID) in table then Some(table[PriceKey(deviceID, userID)]) else None
  }

  /** The answer of UpdatePrice: the change is against 0 when no price was
      stored, and the rate is the one written. */
  function PriceResponse(deviceID: int, current: Option<PriceRow>, newPrice: real, now: int): UpdatePriceResponse
  {
    var oldPrice := if current.Some? then current.value.currentPrice else 0.0;
    UpdatePriceResponse(deviceID, oldPrice, newPrice, newPrice - oldPrice,
                        NewPriceRow(deviceID, 0, current, newPrice, now).changeRate, now, "api")
  }

  /** fetchPriceFromSources as the source writes it: a stand-in that never
      fails and gives 1000 plus the device ID's remainder modulo 100, with
      Go's sign rule for the remainder. */
  function FetchPriceFromSources(deviceID: int): (r: Result<real>)
    ensures r.Ok? && 901.0 <= r.value <= 1099.0
    ensures deviceID >= 0 ==> r.value == 1000.0 + (deviceID % 100) as real
  {
    Ok(1000.0 + GoRem(deviceID, 100) as real)
  }

  /** The outcome of UpdatePrice on the prices table: the answer, and the
      table after the call. */
  datatype PriceOutcome = PriceOutcome(result: Result<UpdatePriceResponse>, prices: map<PriceKey, PriceRow>)

  /** UpdatePrice on the prices table. `fetched` is what
      fetchPriceFromSources gave, `saveFailed` whether the upsert reported a
      database error, `newID` the ID an insert gets and `now` the current
      time. The checks come in the order parameters, ownership, fetch, write;
      a failure leaves the table as it was. */
  function UpdatePriceOutcome(table: map<PriceKey, PriceRow>, deviceID: int, userID: int, owns: bool,
                              fetched: Result<real>, saveFailed: bool, newID: int, now: int): (o: PriceOutcome)
    ensures deviceID <= 0 || userID <= 0 ==> o.result.Err? && o.result.error.code == Param
    ensures deviceID > 0 && userID > 0 && !owns ==> o.result.Err? && o.result.error.code == Auth
    ensures deviceID > 0 && userID > 0 && owns && fetched.Err? ==> o.result.Err? && o.result.error.code == Server
    ensures deviceID > 0 && userID > 0 && owns && fetched.Ok? && saveFailed ==>
      o.result.Err? && o.result.error.code == Database
    ensures o.result.Ok? <==> deviceID > 0 && userID > 0 && owns && fetched.Ok? && !saveFailed
    ensures o.result.Err? ==> o.prices == table
    ensures o.result.Ok? ==>
      var key := PriceKey(deviceID, userID);
      var oldPrice := if key in table then table[key].currentPrice else 0.0;
      && o.prices.Keys == table.Keys + {key}
      && o.prices[key].currentPrice == fetched.value && o.prices[key].lastUpdateAt == now
      && (forall k :: k in table && k != key ==> o.prices[k] == table[k])
      && o.result.value.deviceID == deviceID && o.result.value.oldPrice == oldPrice
      && o.result.value.newPrice == fetched.value && o.result.value.priceChange == fetched.value - oldPrice
      && o.result.value.changeRate == o.prices[key].changeRate
  {
    if deviceID <= 0 || userID <= 0 then PriceOutcome(Fail(Param, "invalid parameters"), table)
    else if !owns then PriceOutcome(Fail(Auth, "no access to this device"), table)
    else if fetched.Err? then PriceOutcome(Fail(Server, "price update failed: " + fetched.error.message), table)
    else if saveFailed then PriceOutcome(Fail(Database, "failed to update the price"), table)
    else
      var current := StoredPrice(table, deviceID, userID);
      PriceOutcome(Ok(PriceResponse(deviceID, current, fetched.value, now)),
                   UpsertTable(table, NewPriceRow(deviceID, userID, current, fetched.value, now), newID, now))
  }

  /** The filter of the CheckPriceAlerts query: an alert of the device that
      is enabled and active. The query does not filter by user. */
  predicate Fetchable(row: AlertRow, deviceID: int)
  {
    row.deviceID == deviceID && row.enabled && row.status == "active"
  }

  /** The alerts the CheckPriceAlerts query returns from the alerts table
      `pool`, in table order. */
  function FetchedAlerts(pool: seq<PriceAlert>, deviceID: int): seq<PriceAlert>
    reads set a | a in pool
  {
    if pool == [] then []
    else
      var before := FetchedAlerts(pool[..|pool| - 1], deviceID);
      var last := pool[|pool| - 1];
      if Fetchable(last.Row(), deviceID) then before + [last] else before
  }

  /** An alert is fetched exactly when it is in the table and passes the filter. */
  lemma {:induction false} FetchedAlertsMembers(pool: seq<PriceAlert>, deviceID: int, a: PriceAlert)
    ensures a in FetchedAlerts(pool, deviceID) <==> a in pool && Fetchable(a.Row(), deviceID)
  {
    if pool != [] {
      FetchedAlertsMembers(pool[..|pool| - 1], deviceID, a);
      assert pool == pool[..|pool| - 1] + [pool[|pool| - 1]];
    }
  }

  lemma {:induction false} FetchedAlertsDistinct(pool: seq<PriceAlert>, deviceID: int)
    requires Distinct(pool)
    ensures Distinct(FetchedAlerts(pool, deviceID))
  {
    if pool != [] {
      var init := pool[..|pool| - 1];
      var last := pool[|pool| - 1];
      assert Distinct(init);
      FetchedAlertsDistinct(init, deviceID);
      FetchedAlertsMembers(init, deviceID, last);
      assert last !in init;
    }
  }

  /** An alert row after a new price for a device: it fires when the query
      returns it and its rule holds at that price. */
  function AlertAfterPrice(row: AlertRow, deviceID: int, price: real, now: int): AlertRow
  {
    if Fetchable(row, deviceID) && ShouldTrigger(row, price) then Triggered(row, now) else row
  }

  /** A fired alert is no longer active, so no later price fires it again. */
  lemma FiresOnce(row: AlertRow, deviceID: int, price: real, now: int, deviceID': int, price': real, now': int)
    requires AlertAfterPrice(row, deviceID, price, now) != row
    ensures AlertAfterPrice(AlertAfterPrice(row, deviceID, price, now), deviceID', price', now')
            == AlertAfterPrice(row, deviceID, price, now)
  {
  }

  /** UpdatePrice. `fetched` is what fetchPriceFromSources gives, `table`
      the prices table, `saveFailed` whether the upsert reports a database
      error, `newID` the ID an insert gets and `now` the current time;
      `pool` is the alerts table, from which the alert check queries the
      device's enabled, active alerts. The new price is upserted, and the
      alerts it reaches are triggered. */
  method UpdatePrice(deviceID: int, userID: int, owns: bool, fetched: Result<real>, table: map<PriceKey, PriceRow>,
                     saveFailed: bool, newID: int, now: int, pool: seq<PriceAlert>)
    returns (r: Result<UpdatePriceResponse>, table': map<PriceKey, PriceRow>)
    requires Distinct(pool)
    modifies set a | a in pool
    ensures PriceOutcome(r, table') == UpdatePriceOutcome(table, deviceID, userID, owns, fetched, saveFailed, newID, now)
    ensures forall a :: a in pool ==>
      a.Row() == if r.Ok? then AlertAfterPrice(old(a.Row()), deviceID, fetched.value, now) else old(a.Row())
  {
    table' := table;
    if deviceID <= 0 || userID <= 0 {
      return Fail(Param, "invalid parameters"), table';
    }
    if !owns {
      return Fail(Auth, "no access to this device"), table';
    }
    var current := StoredPrice(table, deviceID, userID);
    var oldPrice := 0.0;
    if current.Some? {
      oldPrice := current.value.currentPrice;
    }
    if fetched.Err? {
      return Fail(Server, "price update failed: " + fetched.error.message), table';
    }
    var newPrice := fetched.value;
    var price := BuildPrice(deviceID, userID, current, newPrice, now);
    if saveFailed {
      return Fail(Database, "failed to update the price"), table';
    }
    table' := UpdateDevicePrice(price, table, newID, now);
    TriggerFetched(pool, deviceID, newPrice, now);
    return Ok(UpdatePriceResponse(deviceID, oldPrice, newPrice, newPrice - oldPrice, price.changeRate, now, "api")), table';
  }

  /** The price object UpdatePrice builds before the write. */
  method BuildPrice(deviceID: int, userID: int, current: Option<PriceRow>, newPrice: real, now: int) returns (price: Price)
    ensures fresh(price) && price.Row() == NewPriceRow(deviceID, userID, current, newPrice, now)
  {
    price := new Price(NewPriceRow(deviceID, userID, None, newPrice, now));
    if current.Some? {
      var oldPrice := current.value.currentPrice;
      price.priceChange := newPrice - oldPrice;
      if oldPrice > 0.0 {
        price.changeRate := (newPrice - oldPrice) / oldPrice * 100.0;
      }
      price.trendStatus := TrendStatus(price.changeRate);
    }
  }

  /** checkAndTriggerAlerts with its query: the device's enabled, active
      alerts are fetched from the table and those the price reaches fire. */
  method TriggerFetched(pool: seq<PriceAlert>, deviceID: int, price: real, now: int)
    requires Distinct(pool)
    modifies set a | a in pool
    ensures forall a :: a in pool ==> a.Row() == AlertAfterPrice(old(a.Row()), deviceID, price, now)
  {
    var alerts := FetchedAlerts(pool, deviceID);
    FetchedAlertsDistinct(pool, deviceID);
    forall a | a in pool
      ensures a in alerts <==> Fetchable(a.Row(), deviceID)
    {
      FetchedAlertsMembers(pool, deviceID, a);
    }
    forall a | a in alerts
      ensures a in pool
    {
      FetchedAlertsMembers(pool, deviceID, a);
    }
    CheckAndTriggerAlerts(alerts, price, now);
  }

  // ---------------------------------------------------------------------
  // BatchUpdatePrices

  datatype BatchResult = BatchResult(deviceID: int, success: bool, oldPrice: real, newPrice: real, priceChange: real, error: string)

  /** BatchUpdatePricesResponse; the Errors list is never filled. */
  datatype BatchResponse = BatchResponse(totalCount: nat, successCount: nat, failCount: nat, results: seq<BatchResult>, errors: seq<string>)

  /** The results so far and the prices table after them. */
  datatype BatchState = BatchState(results: seq<BatchResult>, prices: map<PriceKey, PriceRow>)

  /** The result reported for an update. */
  function ResultOf(deviceID: int, u: Result<UpdatePriceResponse>): BatchResult
  {
    match u
    case Err(e) => BatchResult(deviceID, false, 0.0, 0.0, 0.0, e.message)
    case Ok(v) => BatchResult(deviceID, true, v.oldPrice, v.newPrice, v.priceChange, "")
  }

  /** The inputs of a batch that are the same for every turn. `owns` is the
      ownership check, `fetch` the price source, `newID(i)` the ID an insert
      in turn `i` gets and `saveFailed(i)` whether that turn's upsert reports
      a database error; `now` is the time. */
  datatype BatchEnv = BatchEnv(userID: int, owns: int -> bool, fetch: int -> Result<real>,
                               newID: nat -> int, saveFailed: nat -> bool, now: int)

  /** Turn `i` on a device updates its price. */
  predicate TurnUpdates(env: BatchEnv, i: nat, deviceID: int)
  {
    deviceID > 0 && env.userID > 0 && env.owns(deviceID) && env.fetch(deviceID).Ok? && !env.saveFailed(i)
  }

  /** One turn of the loop on the state before it: a device not owned fails
      with the access message and leaves the table; otherwise UpdatePrice
      runs on the table as the earlier turns left it. */
  function BatchTurn(env: BatchEnv, i: nat, deviceID: int, st: BatchState): BatchState
  {
    if !env.owns(deviceID) then
      BatchState(st.results + [BatchResult(deviceID, false, 0.0, 0.0, 0.0, "no access to this device")], st.prices)
    else
      var o := UpdatePriceOutcome(st.prices, deviceID, env.userID, true, env.fetch(deviceID), env.saveFailed(i),
                                  env.newID(i), env.now);
      BatchState(st.results + [ResultOf(deviceID, o.result)], o.prices)
  }

  /** The loop of BatchUpdatePrices over a list of devices, from a prices table. */
  function BatchRun(env: BatchEnv, ids: seq<int>, table: map<PriceKey, PriceRow>): BatchState
  {
    if ids == [] then BatchState([], table)
    else BatchTurn(env, |ids| - 1, ids[|ids| - 1], BatchRun(env, ids[..|ids| - 1], table))
  }

  /** An alert row after the batch: each turn that updates a price may fire it. */
  function AlertAfterBatch(env: BatchEnv, ids: seq<int>, row: AlertRow): AlertRow
  {
    if ids == [] then row
    else
      var before := AlertAfterBatch(env, ids[..|ids| - 1], row);
      var i := |ids| - 1;
      if TurnUpdates(env, i, ids[i]) then AlertAfterPrice(before, ids[i], env.fetch(ids[i]).value, env.now) else before
  }

  function CountSuccesses(results: seq<BatchResult>): nat
  {
    if results == [] then 0
    else CountSuccesses(results[..|results| - 1]) + if results[|results| - 1].success then 1 else 0
  }

  function CountFailures(results: seq<BatchResult>): nat
  {
    if results == [] then 0
    else CountFailures(results[..|results| - 1]) + if results[|results| - 1].success then 0 else 1
  }

  /** One result per device, in the order of the list; a result is a
      success exactly when that turn updates the price, and then reports the
      fetched price as the new one. */
  lemma {:induction false} BatchResultsPerDevice(env: BatchEnv, ids: seq<int>, table: map<PriceKey, PriceRow>)
    ensures var results := BatchRun(env, ids, table).results;
      && |results| == |ids|
      && forall i :: 0 <= i < |ids| ==>
           && results[i].deviceID == ids[i]
           && (results[i].success <==> TurnUpdates(env, i, ids[i]))
           && (results[i].success ==> results[i].newPrice == env.fetch(ids[i]).value)
           && (!env.owns(ids[i]) ==> results[i].error == "no access to this device")
  {
    if ids != [] {
      BatchResultsPerDevice(env, ids[..|ids| - 1], table);
    }
  }

  /** The prices table after the batch: rows are only added or replaced;
      every updated device holds its fetched price for the caller, and the
      rows of other users are untouched. */
  lemma {:induction false} BatchTable(env: BatchEnv, ids: seq<int>, table: map<PriceKey, PriceRow>)
    ensures var prices := BatchRun(env, ids, table).prices;
      && table.Keys <= prices.Keys
      && (forall k :: k in table && k.userID != env.userID ==> prices[k] == table[k])
      && (forall i :: 0 <= i < |ids| && TurnUpdates(env, i, ids[i]) ==>
            PriceKey(ids[i], env.userID) in prices
            && prices[PriceKey(ids[i], env.userID)].currentPrice == env.fetch(ids[i]).value)
  {
    if ids != [] {
      var init := ids[..|ids| - 1];
      BatchTable(env, init, table);
      var st := BatchRun(env, init, table);
      assert forall i :: 0 <= i < |init| ==> ids[i] == init[i];
    }
  }

  /** Each alert fires at most once in a batch, even when its device is
      listed several times, and only when some turn updated its device. */
  lemma {:induction false} AlertFiresAtMostOnce(env: BatchEnv, ids: seq<int>, row: AlertRow)
    ensures var after := AlertAfterBatch(env, ids, row);
      after == row || (after == Triggered(row, env.now) && exists i :: 0 <= i < |ids| && TurnUpdates(env, i, ids[i])
                                                                     && ids[i] == row.deviceID)
  {
    if ids != [] {
      var init := ids[..|ids| - 1];
      AlertFiresAtMostOnce(env, init, row);
      var before := AlertAfterBatch(env, init, row);
      if before != row {
        var i :| 0 <= i < |init| && TurnUpdates(env, i, init[i]) && init[i] == row.deviceID;
        assert ids[i] == init[i];
      }
    }
  }

  /** A device listed twice: the second turn sees the price the first one
      stored. With no stored price and the source's price stand-in, device
      5 is reported first as a change from 0 to 1005 and then as no change
      at 1005. */
  lemma RepeatedDeviceSeesFirstUpdate(newID: nat -> int, now: int)
    ensures var env := BatchEnv(1, _ => true, FetchPriceFromSources, newID, _ => false, now);
      var results := BatchRun(env, [5, 5], map[]).results;
      && |results| == 2
      && results[0] == BatchResult(5, true, 0.0, 1005.0, 1005.0, "")
      && results[1] == BatchResult(5, true, 1005.0, 1005.0, 0.0, "")
  {
    var env := BatchEnv(1, _ => true, FetchPriceFromSources, newID, _ => false, now);
    assert FetchPriceFromSources(5) == Ok(1005.0);
    assert [5, 5][..1] == [5];
    assert [5][..0] == [];
    assert BatchRun(env, [], map[]) == BatchState([], map[]);
    var o := UpdatePriceOutcome(map[], 5, 1, true, Ok(1005.0), false, newID(0), now);
    assert o.result == Ok(UpdatePriceResponse(5, 0.0, 1005.0, 1005.0, 0.0, now, "api"));
    var first := BatchRun(env, [5], map[]);
    assert first == BatchTurn(env, 0, 5, BatchState([], map[]));
    assert first == BatchState([ResultOf(5, o.result)], o.prices);
    assert first.prices[PriceKey(5, 1)].currentPrice == 1005.0;
  }

  /** Every result is a success or a failure. */
  lemma {:induction false} CountsAddUp(results: seq<BatchResult>)
    ensures CountSuccesses(results) + CountFailures(results) == |results|
  {
    if results != [] {
      CountsAddUp(results[..|results| - 1]);
    }
  }

  lemma CountsStep(results: seq<BatchResult>, result: BatchResult)
    ensures CountSuccesses(results + [result]) == CountSuccesses(results) + (if result.success then 1 else 0)
    ensures CountFailures(results + [result]) == CountFailures(results) + (if result.success then 0 else 1)
  {
    assert (results + [result])[..|results|] == results;
  }

  /** One turn of the BatchUpdatePrices loop: the ownership check, then
      UpdatePrice on the table as it stands. */
  method BatchUpdateOne(env: BatchEnv, i: nat, deviceID: int, table: map<PriceKey, PriceRow>, pool: seq<PriceAlert>)
    returns (result: BatchResult, table': map<PriceKey, PriceRow>)
    requires Distinct(pool)
    modifies set a | a in pool
    ensures BatchTurn(env, i, deviceID, BatchState([], table)) == BatchState([result], table')
    ensures forall a :: a in pool ==>
      a.Row() == if TurnUpdates(env, i, deviceID) then AlertAfterPrice(old(a.Row()), deviceID, env.fetch(deviceID).value, env.now)
                 else old(a.Row())
  {
    if !env.owns(deviceID) {
      return BatchResult(deviceID, false, 0.0, 0.0, 0.0, "no access to this device"), table;
    }
    var updated;
    updated, table' := UpdatePrice(deviceID, env.userID, env.owns(deviceID), env.fetch(deviceID), table,
                                   env.saveFailed(i), env.newID(i), env.now, pool);
    if updated.Err? {
      return BatchResult(deviceID, false, 0.0, 0.0, 0.0, updated.error.message), table';
    }
    return BatchResult(deviceID, true, updated.value.oldPrice, updated.value.newPrice, updated.value.priceChange, ""), table';
  }

  /** The loop of BatchUpdatePrices: one result per device in list order, the
      two counts, the prices table after every turn, and each alert of the
      table after the turns that updated its device. */
  method BatchUpdateAll(env: BatchEnv, ids: seq<int>, table: map<PriceKey, PriceRow>, pool: seq<PriceAlert>)
    returns (results: seq<BatchResult>, successCount: nat, failCount: nat, table': map<PriceKey, PriceRow>)
    requires Distinct(pool)
    modifies set a | a in pool
    ensures BatchRun(env, ids, table) == BatchState(results, table')
    ensures successCount == CountSuccesses(results) && failCount == CountFailures(results)
    ensures forall a :: a in pool ==> a.Row() == AlertAfterBatch(env, ids, old(a.Row()))
  {
    results, successCount, failCount, table' := [], 0, 0, table;
    var i := 0;
    while i < |ids|
      invariant 0 <= i <= |ids|
      invariant BatchRun(env, ids[..i], table) == BatchState(results, table')
      invariant successCount == CountSuccesses(results) && failCount == CountFailures(results)
      invariant forall a :: a in pool ==> a.Row() == AlertAfterBatch(env, ids[..i], old(a.Row()))
    {
      var deviceID := ids[i];
      assert ids[..i + 1][..i] == ids[..i];
      label Turn:
      var result;
      result, table' := BatchUpdateOne(env, i, deviceID, table', pool);
      assert forall a :: a in pool ==> a.Row() == AlertAfterBatch(env, ids[..i + 1], old(a.Row())) by {
        forall a | a in pool
          ensures a.Row() == AlertAfterBatch(env, ids[..i + 1], old(a.Row()))
        {
          assert old@Turn(a.Row()) == AlertAfterBatch(env, ids[..i], old(a.Row()));
        }
      }
      CountsStep(results, result);
      if result.success {
        successCount := successCount + 1;
      } else {
        failCount := failCount + 1;
      }
      results := results + [result];
      i := i + 1;
    }
    assert ids[..|ids|] == ids;
  }

  /** BatchUpdatePrices on the prices table and the alerts table. */
  method BatchUpdatePrices(env: BatchEnv, ids: seq<int>, table: map<PriceKey, PriceRow>, pool: seq<PriceAlert>)
    returns (r: Result<BatchResponse>, table': map<PriceKey, PriceRow>)
    requires Distinct(pool)
    modifies set a | a in pool
    ensures env.userID <= 0 || |ids| == 0 <==> r.Err?
    ensures r.Err? ==> r.error.code == Param && table' == table && forall a :: a in pool ==> a.Row() == old(a.Row())
    ensures r.Ok? ==>
      var run := BatchRun(env, ids, table);
      && r.value == BatchResponse(|ids|, CountSuccesses(run.results), CountFailures(run.results), run.results, [])
      && r.value.successCount + r.value.failCount == r.value.totalCount
      && table' == run.prices
      && forall a :: a in pool ==> a.Row() == AlertAfterBatch(env, ids, old(a.Row()))
  {
    table' := table;
    if env.userID <= 0 {
      return Fail(Param, "invalid user ID"), table';
    }
    if |ids| == 0 {
      return Fail(Param, "the device ID list must not be empty"), table';
    }
    var results, successCount, failCount;
    results, successCount, failCount, table' := BatchUpdateAll(env, ids, table, pool);
    CountsAddUp(results);
    BatchResultsPerDevice(env, ids, table);
    return Ok(BatchResponse(|ids|, successCount, failCount, results, [])), table';
  }

  // ---------------------------------------------------------------------
  // calculateMarketSummary

  datatype MarketSummary = MarketSummary(minPrice: real, maxPrice: real, averagePrice: real, medianPrice: real,
                                         priceRange: real, dataSources: nat)

  predicate Sorted(s: seq<real>)
  {
    forall i, j :: 0 <= i < j < |s| ==> s[i] <= s[j]
  }

  /** `x` placed into a sorted list. */
  function Insert(x: real, s: seq<real>): (t: seq<real>)
    ensures |t| == |s| + 1 && (t[0] == x || (s != [] && t[0] == s[0]))
  {
    if s == [] || x <= s[0] then [x] + s
    else [s[0]] + Insert(x, s[1..])
  }

  /** Inserting into a sorted list keeps it sorted. */
  lemma {:induction false} InsertSorted(x: real, s: seq<real>)
    requires Sorted(s)
    ensures Sorted(Insert(x, s))
  {
    if s != [] && x > s[0] {
      var rest := Insert(x, s[1..]);
      InsertSorted(x, s[1..]);
      assert s[0] <= rest[0];
      assert Insert(x, s) == [s[0]] + rest;
    }
  }

  lemma {:induction false} InsertPermutes(x: real, s: seq<real>)
    ensures multiset(Insert(x, s)) == multiset(s) + multiset{x}
  {
    if s != [] && x > s[0] {
      InsertPermutes(x, s[1..]);
      assert s == [s[0]] + s[1..];
    }
  }

  /** sort.Float64s on a list without NaN: the prices in ascending order. */
  function SortPrices(s: seq<real>): (t: seq<real>)
    ensures |t| == |s|
  {
    if s == [] then [] else Insert(s[0], SortPrices(s[1..]))
  }

  /** The sorted list is in ascending order. */
  lemma {:induction false} SortPricesSorted(s: seq<real>)
    ensures Sorted(SortPrices(s))
  {
    if s != [] {
      SortPricesSorted(s[1..]);
      InsertSorted(s[0], SortPrices(s[1..]));
    }
  }

  /** The sorted list holds the same prices, each as often. */
  lemma {:induction false} SortPricesPermutes(s: seq<real>)
    ensures multiset(SortPrices(s)) == multiset(s)
  {
    if s != [] {
      var rest := SortPrices(s[1..]);
      SortPricesPermutes(s[1..]);
      InsertPermutes(s[0], rest);
      assert SortPrices(s) == Insert(s[0], rest);
      assert multiset(s) == multiset{s[0]} + multiset(s[1..]) by {
        assert s == [s[0]] + s[1..];
      }
    }
  }

  function Sum(s: seq<real>): real
  {
    if s == [] then 0.0 else Sum(s[..|s| - 1]) + s[|s| - 1]
  }

  /** The middle price of a sorted list, or the mean of the two middle
      ones when the count is even. */
  function Median(s: seq<real>): real
    requires |s| > 0
  {
    var n := |s|;
    if n % 2 == 0 then (s[n / 2 - 1] + s[n / 2]) / 2.0 else s[n / 2]
  }

  /** The median of a sorted list lies between its first and last price. */
  lemma MedianBounds(s: seq<real>)
    requires |s| > 0 && Sorted(s)
    ensures s[0] <= Median(s) <= s[|s| - 1]
  {
    var n := |s|;
    if n % 2 == 0 {
      assert s[0] <= s[n / 2 - 1] <= s[n / 2] <= s[n - 1];
    } else {
      assert s[0] <= s[n / 2] <= s[n - 1];
    }
  }

  /** What calculateMarketSummary answers for a list of prices: the zero
      summary for none; otherwise, over the sorted prices, the first and
      last, their difference, the mean, the median (the middle price, or
      the mean of the two middle ones for an even count) and the count. */
  function Summary(prices: seq<real>): MarketSummary
  {
    if prices == [] then MarketSummary(0.0, 0.0, 0.0, 0.0, 0.0, 0)
    else
      var s := SortPrices(prices);
      var n := |s|;
      MarketSummary(s[0], s[n - 1], Sum(s) / (n as real), Median(s), s[n - 1] - s[0], n)
  }

  /** calculateMarketSummary. */
  method CalculateMarketSummary(prices: seq<real>) returns (summary: MarketSummary)
    ensures summary == Summary(prices)
  {
    if |prices| == 0 {
      return MarketSummary(0.0, 0.0, 0.0, 0.0, 0.0, 0);
    }
    var sorted := SortPrices(prices);
    var n := |sorted|;
    var sum := 0.0;
    var i := 0;
    while i < n
      invariant 0 <= i <= n
      invariant sum == Sum(sorted[..i])
    {
      assert sorted[..i + 1][..i] == sorted[..i];
      sum := sum + sorted[i];
      i := i + 1;
    }
    assert sorted[..n] == sorted;
    var median: real;
    if n % 2 == 0 {
      median := (sorted[n / 2 - 1] + sorted[n / 2]) / 2.0;
    } else {
      median := sorted[n / 2];
    }
    assert median == Median(sorted);
    summary := MarketSummary(sorted[0], sorted[n - 1], sum / (n as real), median, sorted[n - 1] - sorted[0], n);
  }

  /** `x` added to itself `n` times. */
  function Times(n: nat, x: real): real
  {
    if n == 0 then 0.0 else Times(n - 1, x) + x
  }

  lemma {:induction false} TimesIsProduct(n: nat, x: real)
    ensures Times(n, x) == (n as real) * x
  {
    if n > 0 {
      TimesIsProduct(n - 1, x);
    }
  }

  lemma {:induction false} SumBounds(s: seq<real>, lo: real, hi: real)
    requires forall i :: 0 <= i < |s| ==> lo <= s[i] <= hi
    ensures Times(|s|, lo) <= Sum(s) <= Times(|s|, hi)
  {
    if s != [] {
      SumBounds(s[..|s| - 1], lo, hi);
    }
  }

  lemma DivisionBounds(sum: real, r: real, lo: real, hi: real)
    requires r > 0.0 && r * lo <= sum <= r * hi
    ensures lo <= sum / r <= hi
  {
    assert sum / r - lo == (sum - r * lo) / r;
    assert hi - sum / r == (r * hi - sum) / r;
  }

  /** A mean of `n` values between two bounds lies between them. */
  lemma MeanBounds(sum: real, n: nat, lo: real, hi: real)
    requires n > 0 && Times(n, lo) <= sum <= Times(n, hi)
    ensures lo <= sum / (n as real) <= hi
  {
    TimesIsProduct(n, lo);
    TimesIsProduct(n, hi);
    DivisionBounds(sum, n as real, lo, hi);
  }

  /** The mean of a sorted list lies between its first and last price. */
  lemma MeanBetween(s: seq<real>)
    requires |s| > 0 && Sorted(s)
    ensures s[0] <= Sum(s) / (|s| as real) <= s[|s| - 1]
  {
    SumBounds(s, s[0], s[|s| - 1]);
    MeanBounds(Sum(s), |s|, s[0], s[|s| - 1]);
  }

  /** The first and last of the sorted prices are prices of the list and
      bound every price. */
  lemma SortedExtremes(prices: seq<real>)
    requires |prices| > 0
    ensures var s := SortPrices(prices);
      && s[0] in prices && s[|s| - 1] in prices
      && forall x :: x in prices ==> s[0] <= x <= s[|s| - 1]
  {
    var s := SortPrices(prices);
    var n := |s|;
    SortPricesPermutes(prices);
    SortPricesSorted(prices);
    assert s[0] in multiset(s) && s[n - 1] in multiset(s);
    forall x | x in prices
      ensures s[0] <= x <= s[n - 1]
    {
      assert x in multiset(s);
      var k :| 0 <= k < n && s[k] == x;
    }
  }

  /** The extremes of a non-empty summary: the minimum and maximum are
      prices of the list and bound every price, the range is their
      difference and the count is the list's length. */
  lemma SummaryExtremes(prices: seq<real>)
    requires |prices| > 0
    ensures var m := Summary(prices);
      && m.minPrice in prices && m.maxPrice in prices
      && (forall x :: x in prices ==> m.minPrice <= x <= m.maxPrice)
      && m.priceRange == m.maxPrice - m.minPrice >= 0.0
      && m.dataSources == |prices|
  {
    SortedExtremes(prices);
  }

  /** The centre of a non-empty summary: the median and the mean lie
      between the minimum and the maximum. */
  lemma SummaryCentre(prices: seq<real>)
    requires |prices| > 0
    ensures var m := Summary(prices);
      && m.minPrice <= m.medianPrice <= m.maxPrice
      && m.minPrice <= m.averagePrice <= m.maxPrice
  {
    SortPricesSorted(prices);
    MeanBetween(SortPrices(prices));
    MedianBounds(SortPrices(prices));
  }

  // ---------------------------------------------------------------------
  // performPricePrediction and GetPricePrediction

  /** The prediction horizon in days for a period: 90 for "90d", 180 for
      "180d", and 30 for anything else. */
  function HorizonDays(period: string): int
  {
    if period == "90d" then 90 else if period == "180d" then 180 else 30
  }

  /** The days a prediction has a point for: 1, 8, 15, ... up to `days`. */
  function PointDays(days: int): (points: seq<int>)
    ensures days >= 0 ==> |points| == (days + 6) / 7
    ensures forall k :: 0 <= k < |points| ==> points[k] == 1 + 7 * k && points[k] <= days
  {
    if days < 1 then [] else PointDays(days - 7) + [1 + 7 * ((days - 1) / 7)]
  }

  /** The loop of performPricePrediction that lays out the weekly points. */
  method PredictionPoints(days: int) returns (points: seq<int>)
    ensures points == PointDays(days)
  {
    points := [];
    var i := 1;
    while i <= days
      invariant i == 7 * |points| + 1
      invariant points == PointDays(i - 1)
      invariant i == 1 || i - 7 <= days
      decreases days - i
    {
      points := points + [i];
      i := i + 7;
    }
    PointDaysStable(i - 1, days);
  }

  /** Between two consecutive point days the list does not grow. */
  lemma {:induction false} PointDaysStable(a: int, b: int)
    requires a >= 0 && a % 7 == 0 && (a == 0 || a <= b + 6) && b < a + 1
    ensures PointDays(b) == PointDays(a)
  {
    if b != a {
      assert b < a;
      if b >= 1 {
        assert (b - 1) / 7 == (a - 1) / 7;
        PointDaysStable(a - 7, b - 7);
      }
    }
  }

  /** The outline of a prediction: the period and horizon, how many of the
      histories (most recent first) it draws on, and the days of its
      points. Predicted prices and confidence bands are not modelled. */
  datatype Prediction =
    | InsufficientData
    | Linear(period: string, days: int, used: nat, points: seq<int>)
    | Cached(period: string)

  /** performPricePrediction for `count` histories. */
  function PredictionOf(count: nat, period: string): (p: Prediction)
    ensures count < 5 <==> p.InsufficientData?
    ensures count >= 5 ==> p.Linear? && p.period == period && p.days == HorizonDays(period)
                           && p.used == (if count > 30 then 30 else count)
                           && |p.points| == (p.days + 6) / 7
  {
    if count < 5 then InsufficientData
    else Linear(period, HorizonDays(period), if count > 30 then 30 else count, PointDays(HorizonDays(period)))
  }

  /** performPricePrediction: the days and the points; the price arithmetic is left out. */
  method PerformPricePrediction(histories: seq<PriceHistory>, period: string) returns (p: Prediction)
    ensures p == PredictionOf(|histories|, period)
  {
    if |histories| < 5 {
      return InsufficientData;
    }
    var days := 30;
    if period == "90d" {
      days := 90;
    } else if period == "180d" {
      days := 180;
    }
    var recent := histories;
    if |histories| > 30 {
      recent := histories[..30];
    }
    var points := PredictionPoints(days);
    return Linear(period, days, |recent|, points);
  }

  /** GetPricePrediction. `cached` is whether a prediction for the period is
      stored and still valid; `histories` is what the query for the last 180
      days of history gives. */
  function GetPricePrediction(deviceID: int, userID: int, owns: bool, period: string, cached: bool,
                              histories: Result<seq<PriceHistory>>): (r: Result<Prediction>)
    ensures deviceID <= 0 || userID <= 0 ==> r.Err? && r.error.code == Param
    ensures deviceID > 0 && userID > 0 && !owns ==> r.Err? && r.error.code == Auth
    ensures deviceID > 0 && userID > 0 && owns && cached ==> r == Ok(Cached(if period == "" then "30d" else period))
    ensures deviceID > 0 && userID > 0 && owns && !cached && histories.Err? ==> r.Err? && r.error.code == Database
    ensures deviceID > 0 && userID > 0 && owns && !cached && histories.Ok? ==>
      && (|histories.value| < 5 <==> r.Err?)
      && (r.Err? ==> r.error.code == Param)
      && (r.Ok? ==> r.value == PredictionOf(|histories.value|, if period == "" then "30d" else period))
  {
    if deviceID <= 0 || userID <= 0 then Fail(Param, "invalid parameters")
    else if !owns then Fail(Auth, "no access to this device")
    else
      var p := if period == "" then "30d" else period;
      if cached then Ok(Cached(p))
      else match histories
        case Err(_) => Fail(Database, "failed to load the price history")
        case Ok(h) =>
          if |h| < 5 then Fail(Param, "not enough price history for a prediction")
          else Ok(PredictionOf(|h|, p))
  }

  // ---------------------------------------------------------------------
  // analyzeTrend, getTrendStrength, GetPriceTrend

  /** A float64 change rate: a finite value, or what (a - b) / b * 100
      gives when b is 0. */
  datatype Rate = Finite(value: real) | PosInf | NegInf | NaN

  /** (last - first) / first * 100 in float64: dividing a non-zero change by
      a zero price gives an infinity, 0 / 0 gives NaN. */
  function ChangeRate(first: real, last: real): (r: Rate)
    ensures first != 0.0 ==> r == Finite((last - first) / first * 100.0)
    ensures first == 0.0 ==> (r.NaN? <==> last == 0.0) && (r.PosInf? <==> last > 0.0) && (r.NegInf? <==> last < 0.0)
  {
    if first != 0.0 then Finite((last - first) / first * 100.0)
    else if last > 0.0 then PosInf
    else if last < 0.0 then NegInf
    else NaN
  }

  /** The direction of a rate: above 1 is up, below -1 down; NaN compares
      false with everything and is stable. */
  function Direction(r: Rate): string
  {
    match r
    case Finite(v) => if v > 1.0 then "up" else if v < -1.0 then "down" else "stable"
    case PosInf => "up"
    case NegInf => "down"
    case NaN => "stable"
  }

  /** The trend of a finite rate agrees with the one determineTrendStatus
      gives: up is rising, down is falling. */
  lemma DirectionMatchesTrendStatus(v: real)
    ensures Direction(Finite(v)) == "up" <==> TrendStatus(v) == "rising"
    ensures Direction(Finite(v)) == "down" <==> TrendStatus(v) == "falling"
    ensures Direction(Finite(v)) == "stable" <==> TrendStatus(v) == "stable"
  {
  }

  /** getTrendStrength on |rate|: at least 10 is strong, at least 5
      moderate, otherwise (NaN included) weak. */
  function TrendStrength(r: Rate): (s: string)
    ensures r.Finite? ==> (s == "strong" <==> r.value >= 10.0 || r.value <= -10.0)
    ensures r.Finite? ==> (s == "moderate" <==> (5.0 <= r.value < 10.0 || -10.0 < r.value <= -5.0))
    ensures r.PosInf? || r.NegInf? ==> s == "strong"
    ensures r.NaN? ==> s == "weak"
  {
    match r
    case Finite(v) =>
      var abs := if v < 0.0 then -v else v;
      if abs >= 10.0 then "strong" else if abs >= 5.0 then "moderate" else "weak"
    case PosInf => "strong"
    case NegInf => "strong"
    case NaN => "weak"
  }

  /** TrendInfo; the volatility is left out. */
  datatype TrendInfo = TrendInfo(direction: string, changeRate: Rate, reliability: real)

  /** analyzeTrend on histories ordered most recent first: the rate runs
      from the earliest price to the latest, and the reliability grows with
      the number of histories up to 30. */
  function AnalyzeTrend(histories: seq<PriceHistory>): (t: TrendInfo)
    ensures |histories| < 2 ==> t == TrendInfo("stable", Finite(0.0), 0.0)
    ensures |histories| >= 2 ==> t.changeRate == ChangeRate(histories[|histories| - 1].price, histories[0].price)
    ensures t.direction == Direction(t.changeRate)
    ensures 0.0 <= t.reliability <= 1.0
  {
    if |histories| < 2 then TrendInfo("stable", Finite(0.0), 0.0)
    else
      var rate := ChangeRate(histories[|histories| - 1].price, histories[0].price);
      var ratio := (|histories| as real) / 30.0;
      TrendInfo(Direction(rate), rate, if ratio < 1.0 then ratio else 1.0)
  }

  datatype TrendResponse = TrendResponse(
    deviceID: int,
    trendStatus: string,
    trendStrength: string,
    changeRate: Rate,
    confidence: real,
    shortTerm: TrendInfo,
    mediumTerm: TrendInfo,
    longTerm: TrendInfo)

  /** GetPriceTrend on the histories of the last 7, 30 and 90 days: the
      overall trend is the 30-day one. */
  function GetPriceTrend(deviceID: int, userID: int, owns: bool,
                         short: seq<PriceHistory>, medium: seq<PriceHistory>, long: seq<PriceHistory>)
    : (r: Result<TrendResponse>)
    ensures r.Ok? <==> deviceID > 0 && userID > 0 && owns
    ensures r.Ok? ==> r.value.mediumTerm == AnalyzeTrend(medium)
                      && r.value.trendStatus == r.value.mediumTerm.direction
                      && r.value.changeRate == r.value.mediumTerm.changeRate
                      && r.value.trendStrength == TrendStrength(r.value.changeRate)
                      && r.value.confidence == r.value.mediumTerm.reliability
  {
    if deviceID <= 0 || userID <= 0 then Fail(Param, "invalid parameters")
    else if !owns then Fail(Auth, "no access to this device")
    else
      var overall := AnalyzeTrend(medium);
      Ok(TrendResponse(deviceID, overall.direction, TrendStrength(overall.changeRate), overall.changeRate,
                       overall.reliability, AnalyzeTrend(short), overall, AnalyzeTrend(long)))
  }
}
