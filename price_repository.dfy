/**
 * The two rules of internal/price/repository/price_repository.go that are
 * not plain queries: which of a device's active alerts a new price
 * triggers (CheckPriceAlerts), and the insert-or-update of a device's
 * current price keyed by device and user (UpdateDevicePrice). The queries
 * themselves are inputs: the alerts the query returns, and the prices
 * table as a map from (device, user) to its row.
 */
module PriceRepository {
  import opened Common
  import opened PriceModel

  // ---------------------------------------------------------------------
  // CheckPriceAlerts

  /** Whether an alert fires at the given price. A percentage drop or rise
      has no previous price to compare with and always fires; an absolute
      drop fires at or below the threshold, an absolute rise at or above
      it, and a target price at or below it whatever its threshold type.
      Any other alert type never fires. */
  predicate ShouldTrigger(alert: AlertRow, currentPrice: real)
  {
    if alert.alertType == "price_drop" then
      alert.thresholdType == "percentage" || currentPrice <= alert.threshold
    else if alert.alertType == "price_rise" then
      alert.thresholdType == "percentage" || currentPrice >= alert.threshold
    else if alert.alertType == "target_price" then
      currentPrice <= alert.threshold
    else
      false
  }

  /** The trigger rule case by case: any threshold type other than
      "percentage" counts as absolute, and a target price ignores it. */
  lemma ShouldTriggerCases(alert: AlertRow, currentPrice: real)
    ensures alert.alertType == "price_drop" && alert.thresholdType != "percentage" ==>
      (ShouldTrigger(alert, currentPrice) <==> currentPrice <= alert.threshold)
    ensures alert.alertType == "price_rise" && alert.thresholdType != "percentage" ==>
      (ShouldTrigger(alert, currentPrice) <==> currentPrice >= alert.threshold)
    ensures alert.alertType == "target_price" ==>
      (ShouldTrigger(alert, currentPrice) <==> currentPrice <= alert.threshold)
    ensures alert.alertType in {"price_drop", "price_rise"} && alert.thresholdType == "percentage" ==>
      ShouldTrigger(alert, currentPrice)
    ensures alert.alertType !in {"price_drop", "price_rise", "target_price"} ==> !ShouldTrigger(alert, currentPrice)
  {
  }

  /** The alerts, among those fetched, that fire at the given price, in the
      order they were fetched. */
  ghost function Triggering(alerts: seq<PriceAlert>, currentPrice: real): seq<PriceAlert>
    reads set a | a in alerts
  {
    if alerts == [] then []
    else
      var before := Triggering(alerts[..|alerts| - 1], currentPrice);
      var last := alerts[|alerts| - 1];
      if ShouldTrigger(last.Row(), currentPrice) then before + [last] else before
  }

  /** `xs` is `ys` with some elements left out, the rest in their order. */
  predicate IsSubsequence<T(==)>(xs: seq<T>, ys: seq<T>)
  {
    xs == [] ||
    (ys != [] &&
     ((xs[|xs| - 1] == ys[|ys| - 1] && IsSubsequence(xs[..|xs| - 1], ys[..|ys| - 1]))
      || IsSubsequence(xs, ys[..|ys| - 1])))
  }

  /** The triggered list keeps the fetched order: it is a subsequence of
      the fetched alerts. */
  lemma {:induction false} TriggeringIsSubsequence(alerts: seq<PriceAlert>, currentPrice: real)
    ensures IsSubsequence(Triggering(alerts, currentPrice), alerts)
  {
    if alerts != [] {
      var init := alerts[..|alerts| - 1];
      var last := alerts[|alerts| - 1];
      TriggeringIsSubsequence(init, currentPrice);
      assert alerts == init + [last];
      if ShouldTrigger(last.Row(), currentPrice) {
        var t := Triggering(init, currentPrice) + [last];
        assert t[..|t| - 1] == Triggering(init, currentPrice);
      } else {
        assert alerts[..|alerts| - 1] == init;
      }
    }
  }

  /** An alert is in the triggered list exactly when it was fetched and
      fires at the price. */
  lemma {:induction false} TriggeringMembers(alerts: seq<PriceAlert>, currentPrice: real, a: PriceAlert)
    ensures a in Triggering(alerts, currentPrice) <==> a in alerts && ShouldTrigger(a.Row(), currentPrice)
  {
    if alerts != [] {
      var init := alerts[..|alerts| - 1];
      TriggeringMembers(init, currentPrice, a);
      assert alerts == init + [alerts[|alerts| - 1]];
    }
  }

  /** CheckPriceAlerts after the query: `alerts` are the device's enabled,
      active alerts as the query returns them. */
  method CheckPriceAlerts(alerts: seq<PriceAlert>, currentPrice: real) returns (triggered: seq<PriceAlert>)
    ensures triggered == Triggering(alerts, currentPrice)
  {
    triggered := [];
    var i := 0;
    while i < |alerts|
      invariant 0 <= i <= |alerts|
      invariant triggered == Triggering(alerts[..i], currentPrice)
    {
      var alert := alerts[i];
      var shouldTrigger := false;
      if alert.alertType == "price_drop" {
        if alert.thresholdType == "percentage" {
          shouldTrigger := true;
        } else {
          shouldTrigger := currentPrice <= alert.threshold;
        }
      } else if alert.alertType == "price_rise" {
        if alert.thresholdType == "percentage" {
          shouldTrigger := true;
        } else {
          shouldTrigger := currentPrice >= alert.threshold;
        }
      } else if alert.alertType == "target_price" {
        shouldTrigger := currentPrice <= alert.threshold;
      }
      assert shouldTrigger == ShouldTrigger(alert.Row(), currentPrice);
      assert alerts[..i + 1][..i] == alerts[..i];
      if shouldTrigger {
        triggered := triggered + [alert];
      }
      i := i + 1;
    }
    assert alerts[..|alerts|] == alerts;
  }

  // ---------------------------------------------------------------------
  // UpdateDevicePrice

  /** The prices table is keyed by device and user. */
  datatype PriceKey = PriceKey(deviceID: int, userID: int)

  function KeyOf(row: PriceRow): PriceKey
  {
    PriceKey(row.deviceID, row.userID)
  }

  /** The row the table holds after an upsert of `row`: a new row gets the
      next ID and the current time as its creation time; an existing row
      keeps its ID and creation time and takes every other column from
      `row`. */
  function Upserted(row: PriceRow, existing: Option<PriceRow>, newID: int, now: int): (stored: PriceRow)
    ensures stored.(id := row.id, createdAt := row.createdAt) == row
    ensures existing.Some? ==> stored.id == existing.value.id && stored.createdAt == existing.value.createdAt
    ensures existing.None? ==> stored.id == newID && stored.createdAt == now
  {
    match existing
    case None => row.(id := newID, createdAt := now)
    case Some(e) => row.(id := e.id, createdAt := e.createdAt)
  }

  /** The table after an upsert: the row's key holds the upserted row and
      every other key is unchanged, so the table never holds two rows for
      the same device and user. */
  function UpsertTable(table: map<PriceKey, PriceRow>, row: PriceRow, newID: int, now: int): (table': map<PriceKey, PriceRow>)
    ensures table'.Keys == table.Keys + {KeyOf(row)}
    ensures table'[KeyOf(row)] == Upserted(row, if KeyOf(row) in table then Some(table[KeyOf(row)]) else None, newID, now)
    ensures forall k :: k in table && k != KeyOf(row) ==> table'[k] == table[k]
  {
    var key := KeyOf(row);
    table[key := Upserted(row, if key in table then Some(table[key]) else None, newID, now)]
  }

  /** UpdateDevicePrice. `table` is the prices table before the call and
      `table'` after it; `newID` is the ID an insert is given and `now` the
      current time. On an update the price object itself takes the existing
      ID and creation time before it is written. */
  method UpdateDevicePrice(price: Price, table: map<PriceKey, PriceRow>, newID: int, now: int)
    returns (table': map<PriceKey, PriceRow>)
    modifies price
    ensures table' == UpsertTable(table, old(price.Row()), newID, now)
    ensures KeyOf(old(price.Row())) in table ==> price.Row() == table'[KeyOf(old(price.Row()))]
    ensures KeyOf(old(price.Row())) !in table ==> price.Row() == old(price.Row())
  {
    var key := PriceKey(price.deviceID, price.userID);
    if key !in table {
      table' := table[key := price.Row().(id := newID, createdAt := now)];
      return;
    }
    var existing := table[key];
    price.id := existing.id;
    price.createdAt := existing.createdAt;
    table' := table[key := price.Row()];
  }
}
