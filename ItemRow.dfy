/** The inventory row: whether an item has expired or expires soon, whether
    its stock is low, and which of its buttons and icons are enabled or
    shown. Times are milliseconds; `parseDate` is `new Date(...)` on the
    stored expiry value, None for an invalid date. */
module ItemRow {
  import opened Wrappers
  import opened Json
  import opened Config
  import opened Types
  import Cart

  const MsPerDay: int := 86400000

  /** `Math.ceil(a / b)` for a positive `b`. */
  function CeilDiv(a: int, b: int): int
    requires b > 0
  {
    -((-a) / b)
  }

  /** The ceiling is the least integer `d` with `a <= d * b`. */
  lemma CeilDivBounds(a: int, b: int)
    requires b > 0
    ensures (CeilDiv(a, b) - 1) * b < a <= CeilDiv(a, b) * b
  {
    var q := (-a) / b;
    assert q * b <= -a < q * b + b;
  }

  datatype ExpiryStatus = ExpiryStatus(isExpiringSoon: bool, isExpired: bool)

  /** `checkExpiryStatus(expiryDate)`: no date (or an invalid one, whose day
      count is NaN) is neither; otherwise the days until expiry, rounded up,
      decide. */
  function CheckExpiryStatus(expiry: Option<Json>, now: int, parseDate: Json -> Option<int>): (r: ExpiryStatus)
    ensures !TruthyOpt(expiry) ==> r == ExpiryStatus(false, false)
    ensures !(r.isExpired && r.isExpiringSoon)
  {
    if !TruthyOpt(expiry) then ExpiryStatus(false, false)
    else match parseDate(expiry.value)
      case None => ExpiryStatus(false, false)
      case Some(e) =>
        var days := CeilDiv(e - now, MsPerDay);
        ExpiryStatus(0 <= days <= 7, days < 0)
  }

  /** An item has expired exactly when its date lies a whole day or more
      before now, and expires soon exactly when it lies less than a day
      before now or up to seven days after. */
  lemma ExpiryStatusByTime(expiry: Json, e: int, now: int, parseDate: Json -> Option<int>)
    requires Truthy(expiry) && parseDate(expiry) == Some(e)
    ensures CheckExpiryStatus(Some(expiry), now, parseDate).isExpired <==> e + MsPerDay <= now
    ensures CheckExpiryStatus(Some(expiry), now, parseDate).isExpiringSoon <==>
              now - MsPerDay < e <= now + 7 * MsPerDay
  {
    CeilDivBounds(e - now, MsPerDay);
    var days := CeilDiv(e - now, MsPerDay);
    if days < 0 {
      assert days * MsPerDay <= -MsPerDay;
    } else {
      assert (days - 1) * MsPerDay >= -MsPerDay;
    }
    if days > 7 {
      assert (days - 1) * MsPerDay >= 7 * MsPerDay;
    } else {
      assert days * MsPerDay <= 7 * MsPerDay;
    }
  }

  /** The row and the cart agree on expiry when the date falls on the start
      of a day and `today` is the start of the day `now` falls in: the row
      shows the item expired exactly when the cart refuses it as expired. */
  lemma ExpiryAgreesWithCart(item: Item, e: int, now: int, today: int, parseDate: Json -> Option<int>)
    requires item.expiryDate.Some? && Truthy(item.expiryDate.value) && parseDate(item.expiryDate.value) == Some(e)
    requires today <= now < today + MsPerDay && (e - today) % MsPerDay == 0
    ensures CheckExpiryStatus(item.expiryDate, now, parseDate).isExpired <==> Cart.ExpiredBefore(item, today, parseDate)
  {
    ExpiryStatusByTime(item.expiryDate.value, e, now, parseDate);
    var k := (e - today) / MsPerDay;
    assert e == today + k * MsPerDay;
    if e < today {
      assert k <= -1;
      assert k * MsPerDay <= -MsPerDay;
    } else {
      assert k >= 0;
    }
  }

  /** `item.qty <= CONFIG.LOW_STOCK_THRESHOLD`. */
  predicate IsLowStock(item: Item) {
    item.qty <= LowStockThreshold
  }

  /** What the row enables and shows for an item, given the cart quantity. */
  datatype RowControls = RowControls(
    minusDisabled: bool,
    plusDisabled: bool,
    addToCartDisabled: bool,
    warningIcon: bool,
    alertIcon: bool)

  /** Minus is disabled iff the cart holds none; plus iff the cart already
      holds the whole stock or the item has expired; add-to-cart iff there is
      no stock or the item has expired. The alert icon shows exactly for an
      expired item, the warning icon for a low stock that has not expired. */
  function Controls(item: Item, cartQuantity: int, now: int, parseDate: Json -> Option<int>): (r: RowControls)
    ensures r.minusDisabled <==> cartQuantity <= 0
    ensures r.plusDisabled <==> cartQuantity >= item.qty || CheckExpiryStatus(item.expiryDate, now, parseDate).isExpired
    ensures r.addToCartDisabled <==> item.qty <= 0 || CheckExpiryStatus(item.expiryDate, now, parseDate).isExpired
    ensures r.alertIcon <==> CheckExpiryStatus(item.expiryDate, now, parseDate).isExpired
    ensures r.warningIcon <==> IsLowStock(item) && !CheckExpiryStatus(item.expiryDate, now, parseDate).isExpired
    ensures !r.plusDisabled ==> cartQuantity + 1 <= item.qty
    ensures !r.addToCartDisabled ==> item.qty >= 1
    ensures !(r.warningIcon && r.alertIcon)
    ensures r.alertIcon ==> r.plusDisabled && r.addToCartDisabled
  {
    var status := CheckExpiryStatus(item.expiryDate, now, parseDate);
    RowControls(
      cartQuantity <= 0,
      cartQuantity >= item.qty || status.isExpired,
      item.qty <= 0 || status.isExpired,
      IsLowStock(item) && !status.isExpired,
      status.isExpired)
  }

  /** For an item whose date parses to `e`, the plus button is enabled
      exactly while the cart holds less than the stock and `now` is less than
      a whole day past `e`; the add-to-cart button likewise with some stock. */
  lemma ControlsByTime(item: Item, cartQuantity: int, e: int, now: int, parseDate: Json -> Option<int>)
    requires item.expiryDate.Some? && Truthy(item.expiryDate.value) && parseDate(item.expiryDate.value) == Some(e)
    ensures var r := Controls(item, cartQuantity, now, parseDate);
            && (!r.plusDisabled <==> cartQuantity < item.qty && now < e + MsPerDay)
            && (!r.addToCartDisabled <==> item.qty > 0 && now < e + MsPerDay)
            && (r.alertIcon <==> e + MsPerDay <= now)
  {
    ExpiryStatusByTime(item.expiryDate.value, e, now, parseDate);
  }

  /** An item with no expiry date is never shown expired: its buttons depend
      on stock alone, and a low stock shows the warning. */
  lemma ControlsWithoutExpiry(item: Item, cartQuantity: int, now: int, parseDate: Json -> Option<int>)
    requires item.expiryDate.None?
    ensures var r := Controls(item, cartQuantity, now, parseDate);
            && (r.plusDisabled <==> cartQuantity >= item.qty)
            && (r.addToCartDisabled <==> item.qty <= 0)
            && (r.warningIcon <==> IsLowStock(item))
            && !r.alertIcon
  {
  }
}
