/**
 * The price records of internal/price/model/price.go that the price
 * services read and change: the current price of a device, its price
 * history and the price alerts a user sets on it. Money and rates are
 * `real`; a point in time is a Unix time in seconds, with 0 standing for
 * Go's zero time. The records the services assign in place are classes
 * with a `Row()` snapshot, as in DeviceModel.
 */
module PriceModel {

  /** The stored fields of a Price, the current price of one device for one user. */
  datatype PriceRow = PriceRow(
    id: int,
    deviceID: int,
    userID: int,
    currentPrice: real,
    marketPrice: real,
    averagePrice: real,
    minPrice: real,
    maxPrice: real,
    priceChange: real,
    changeRate: real,
    trendStatus: string,
    lastUpdateAt: int,
    createdAt: int)

  class Price {
    var id: int
    var deviceID: int
    var userID: int
    var currentPrice: real
    var marketPrice: real
    var averagePrice: real
    var minPrice: real
    var maxPrice: real
    var priceChange: real
    var changeRate: real
    var trendStatus: string
    var lastUpdateAt: int
    var createdAt: int

    constructor (r: PriceRow)
      ensures Row() == r
    {
      id, deviceID, userID := r.id, r.deviceID, r.userID;
      currentPrice, marketPrice, averagePrice, minPrice, maxPrice := r.currentPrice, r.marketPrice, r.averagePrice, r.minPrice, r.maxPrice;
      priceChange, changeRate, trendStatus := r.priceChange, r.changeRate, r.trendStatus;
      lastUpdateAt, createdAt := r.lastUpdateAt, r.createdAt;
    }

    function Row(): PriceRow
      reads this
    {
      PriceRow(id, deviceID, userID, currentPrice, marketPrice, averagePrice, minPrice, maxPrice,
               priceChange, changeRate, trendStatus, lastUpdateAt, createdAt)
    }
  }

  /** One recorded price of a device (PriceHistory). */
  datatype PriceHistory = PriceHistory(
    id: int,
    deviceID: int,
    userID: int,
    source: string,
    platform: string,
    price: real,
    condition: string,
    description: string,
    recordDate: int)

  /** The stored fields of a PriceAlert; `notificationMethods` is the JSON
      text of the method list, "" when there is none. */
  datatype AlertRow = AlertRow(
    id: int,
    deviceID: int,
    userID: int,
    alertType: string,
    threshold: real,
    thresholdType: string,
    enabled: bool,
    notificationMethods: string,
    lastTriggeredAt: int,
    triggerCount: int,
    status: string,
    createdAt: int)

  class PriceAlert {
    var id: int
    var deviceID: int
    var userID: int
    var alertType: string
    var threshold: real
    var thresholdType: string
    var enabled: bool
    var notificationMethods: string
    var lastTriggeredAt: int
    var triggerCount: int
    var status: string
    var createdAt: int

    constructor (r: AlertRow)
      ensures Row() == r
    {
      id, deviceID, userID := r.id, r.deviceID, r.userID;
      alertType, threshold, thresholdType, enabled := r.alertType, r.threshold, r.thresholdType, r.enabled;
      notificationMethods, lastTriggeredAt, triggerCount := r.notificationMethods, r.lastTriggeredAt, r.triggerCount;
      status, createdAt := r.status, r.createdAt;
    }

    function Row(): AlertRow
      reads this
    {
      AlertRow(id, deviceID, userID, alertType, threshold, thresholdType, enabled, notificationMethods,
               lastTriggeredAt, triggerCount, status, createdAt)
    }
  }
}
