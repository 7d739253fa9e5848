/** The admin dashboard: unwrapping the proxy's answer, choosing the item list
    in it, the four statistics shown, and the load that sets the screen's
    state. The items are the raw records the server sent. Times are
    milliseconds; `parseDate` is `new Date(...)` on a stored value (None for
    an invalid date) and `strToNum` is `Number` on strings (None for NaN). */
module Dashboard {
  import opened Wrappers
  import opened Json
  import opened Config
  import opened Api

  const MsPerDay: int := 86400000

  /** `extractUpstreamData(proxyResp)`: a string `upstreamBody` parsed (or
      `{raw: ...}` when it is not JSON), a truthy object `upstreamBody` as it
      is, an object without a truthy `upstreamBody` as it is, and null for
      anything else. */
  function ExtractUpstreamData(resp: Json, parse: string -> Option<Json>): (r: Json)
    ensures resp.JNull? ==> r.JNull?
    ensures !TypeofObject(resp) ==> r.JNull?
    ensures var body := Get(resp, "upstreamBody");
            TypeofObject(resp) && !resp.JNull? && (body.None? || (!Truthy(body.value) && !body.value.JStr?)) ==> r == resp
    ensures var body := Get(resp, "upstreamBody");
            body.Some? ==>
              && (body.value.JStr? ==> var u := body.value.s; r == (if parse(u).Some? then parse(u).value else RawBody(u)))
              && (Truthy(body.value) && TypeofObject(body.value) ==> r == body.value)
              && (Truthy(body.value) && !TypeofObject(body.value) && !body.value.JStr? ==> r.JNull?)
  {
    if resp.JNull? then JNull
    else match Get(resp, "upstreamBody")
      case Some(JStr(u)) => (match parse(u) case Some(p) => p case None => RawBody(u))
      case Some(u) =>
        if Truthy(u) && TypeofObject(u) then u
        else if TypeofObject(resp) && !Truthy(u) then resp
        else JNull
      case None => if TypeofObject(resp) then resp else JNull
  }

  /** Without a token in the envelope the dashboard and the client read a
      string, object or missing `upstreamBody` alike; a token, which the
      client honours first, is not looked at here. */
  lemma ExtractAgreesWithClient(resp: Json, parse: string -> Option<Json>)
    requires resp.JObj?
    requires var body := Get(resp, "upstreamBody");
             body.None? || body.value.JStr? || TypeofObject(body.value) || !Truthy(body.value)
    ensures !TruthyOpt(Get(resp, "token")) ==> ExtractUpstreamData(resp, parse) == ParseProxyResponse(resp, parse).parsed
    ensures TruthyOpt(Get(resp, "token")) && Get(resp, "upstreamBody").Some? && Get(resp, "upstreamBody").value.JStr? ==>
              ParseProxyResponse(resp, parse).parsed == resp
  {
  }

  /** The elements of the first array-valued field, in key order: found
      exactly when some field holds an array, and then no earlier field
      does. */
  function FirstArrayValue(fs: seq<Field>): (r: Option<seq<Json>>)
    ensures r.Some? <==> exists j :: 0 <= j < |fs| && fs[j].value.JArr?
    ensures r.Some? ==> exists j :: 0 <= j < |fs| && fs[j].value == JArr(r.value)
                                    && forall i :: 0 <= i < j ==> !fs[i].value.JArr?
  {
    if |fs| == 0 then None
    else if fs[0].value.JArr? then
      assert fs[0].value == JArr(fs[0].value.elems);
      Some(fs[0].value.elems)
    else
      var rest := FirstArrayValue(fs[1..]);
      if rest.Some? then
        var j :| 0 <= j < |fs| - 1 && fs[1..][j].value == JArr(rest.value)
                 && forall i :: 0 <= i < j ==> !fs[1..][i].value.JArr?;
        assert fs[j + 1] == fs[1..][j];
        assert forall i :: 0 < i <= j ==> fs[i] == fs[1..][i - 1];
        rest
      else
        assert forall j :: 0 < j < |fs| ==> fs[j] == fs[1..][j - 1];
        None
  }

  /** The array-valued property `k`, when there is one. */
  function ArrayField(data: Json, k: string): Option<seq<Json>> {
    match Get(data, k)
    case Some(JArr(es)) => Some(es)
    case _ => None
  }

  /** The item list chosen from the unwrapped data: the data itself when it
      is an array, else `items`, else `inventory`, else the first
      array-valued property, else nothing. */
  function SelectItems(data: Json): (r: seq<Json>)
    ensures r == [] || data == JArr(r) || (data.JObj? && exists j :: 0 <= j < |data.fields| && data.fields[j].value == JArr(r))
    ensures data.JArr? ==> r == data.elems
    ensures !data.JArr? && ArrayField(data, "items").Some? ==> r == ArrayField(data, "items").value
    ensures !data.JArr? && ArrayField(data, "items").None? && ArrayField(data, "inventory").Some? ==>
              r == ArrayField(data, "inventory").value
    ensures !data.JArr? && !data.JObj? ==> r == []
    ensures data.JObj? && (forall j :: 0 <= j < |data.fields| ==> !data.fields[j].value.JArr?) ==> r == []
  {
    if data.JArr? then data.elems
    else if ArrayField(data, "items").Some? then
      LookupArray(data.fields, "items");
      ArrayField(data, "items").value
    else if ArrayField(data, "inventory").Some? then
      LookupArray(data.fields, "inventory");
      ArrayField(data, "inventory").value
    else if data.JObj? then FirstArrayValue(data.fields).GetOr([])
    else []
  }

  /** With neither `items` nor `inventory` holding an array, the list is
      the array of the first array-valued property in key order. */
  lemma SelectFirstArrayField(fs: seq<Field>, j: nat)
    requires ArrayField(JObj(fs), "items").None? && ArrayField(JObj(fs), "inventory").None?
    requires j < |fs| && fs[j].value.JArr?
    requires forall i :: 0 <= i < j ==> !fs[i].value.JArr?
    ensures SelectItems(JObj(fs)) == fs[j].value.elems
  {
    var r := FirstArrayValue(fs);
    assert r.Some?;
    var k :| 0 <= k < |fs| && fs[k].value == JArr(r.value) && forall i :: 0 <= i < k ==> !fs[i].value.JArr?;
    assert k == j;
  }

  /** The value `Lookup` finds is one of the fields'. */
  lemma {:induction false} LookupArray(fs: seq<Field>, k: string)
    ensures Lookup(fs, k).Some? ==> exists j :: 0 <= j < |fs| && fs[j].value == Lookup(fs, k).value
  {
    if |fs| > 0 && fs[0].key != k {
      LookupArray(fs[1..], k);
      if Lookup(fs, k).Some? {
        var j :| 0 <= j < |fs| - 1 && fs[1..][j].value == Lookup(fs, k).value;
        assert fs[j + 1] == fs[1..][j];
      }
    }
  }

  /** `items` is preferred to `inventory` and to any earlier array-valued
      property. */
  lemma ItemsKeyPreferred(fs: seq<Field>, es: seq<Json>)
    requires Lookup(fs, "items") == Some(JArr(es))
    ensures SelectItems(JObj(fs)) == es
  {
  }

  // ---------------------------------------------------------------------
  // calculateStats
  // ---------------------------------------------------------------------

  datatype Stats = Stats(totalItems: nat, lowStockItems: nat, expiringSoonItems: nat, expiredItems: nat)

  const ZeroStats := Stats(0, 0, 0, 0)

  /** `item.qty ?? 0`. */
  function QtyOrZero(item: Json): Json {
    match Get(item, "qty")
    case None => JNum(0)
    case Some(JNull) => JNum(0)
    case Some(v) => v
  }

  /** `(item.qty ?? 0) <= LOW_STOCK_THRESHOLD`, with the comparison's
      conversion to a number (NaN compares false). */
  predicate IsLowStock(item: Json, strToNum: string -> Option<int>) {
    match ToNumber(QtyOrZero(item), strToNum)
    case Some(n) => n <= LowStockThreshold
    case None => false
  }

  /** The expiry date as `new Date` reads it, when the record has a truthy
      one and it is a valid date. */
  function ExpiryTime(item: Json, parseDate: Json -> Option<int>): Option<int> {
    if TruthyOpt(Get(item, "expiryDate")) then parseDate(Get(item, "expiryDate").value) else None
  }

  /** Expires after now and at most seven days from now. */
  predicate IsExpiringSoon(item: Json, now: int, parseDate: Json -> Option<int>) {
    var e := ExpiryTime(item, parseDate);
    e.Some? && now < e.value <= now + 7 * MsPerDay
  }

  /** Expired before now. */
  predicate IsExpired(item: Json, now: int, parseDate: Json -> Option<int>) {
    var e := ExpiryTime(item, parseDate);
    e.Some? && e.value < now
  }

  /** The positions of the elements satisfying `p`. */
  ghost function IndicesWhere(items: seq<Json>, p: Json -> bool): set<nat> {
    set i: nat | i < |items| && p(items[i])
  }

  /** Adding an element at the end adds its position exactly when it
      satisfies `p`. */
  lemma IndicesWhereSnoc(items: seq<Json>, p: Json -> bool)
    requires |items| > 0
    ensures var k := |items| - 1;
            && k !in IndicesWhere(items[..k], p)
            && IndicesWhere(items, p) == IndicesWhere(items[..k], p) + (if p(items[k]) then {k} else {})
  {
  }

  /** The number of elements satisfying `p` (`filter(p).length`). */
  function CountWhere(items: seq<Json>, p: Json -> bool): (n: nat)
    ensures n <= |items|
    ensures n == |IndicesWhere(items, p)|
  {
    if |items| == 0 then 0
    else
      IndicesWhereSnoc(items, p);
      CountWhere(items[..|items| - 1], p) + (if p(items[|items| - 1]) then 1 else 0)
  }

  /** Two counts whose conditions never hold together add up to at most the
      number of items. */
  lemma {:induction false} DisjointCounts(items: seq<Json>, p: Json -> bool, q: Json -> bool)
    requires forall x :: !(p(x) && q(x))
    ensures CountWhere(items, p) + CountWhere(items, q) <= |items|
  {
    if |items| > 0 {
      DisjointCounts(items[..|items| - 1], p, q);
    }
  }

  /** `calculateStats(items)`; None when an element is null, for reading a
      property of null throws and the statistics are then not set. */
  function CalculateStats(items: seq<Json>, now: int, strToNum: string -> Option<int>,
                          parseDate: Json -> Option<int>): (r: Option<Stats>)
    ensures r.None? <==> JNull in items
    ensures r.Some? ==> r.value.totalItems == |items|
    ensures r.Some? ==> r.value.lowStockItems == |set i: nat | i < |items| && IsLowStock(items[i], strToNum)|
    ensures r.Some? ==> r.value.expiringSoonItems == |set i: nat | i < |items| && IsExpiringSoon(items[i], now, parseDate)|
    ensures r.Some? ==> r.value.expiredItems == |set i: nat | i < |items| && IsExpired(items[i], now, parseDate)|
  {
    if JNull in items then None
    else
      assert IndicesWhere(items, x => IsLowStock(x, strToNum))
          == set i: nat | i < |items| && IsLowStock(items[i], strToNum);
      assert IndicesWhere(items, x => IsExpiringSoon(x, now, parseDate))
          == set i: nat | i < |items| && IsExpiringSoon(items[i], now, parseDate);
      assert IndicesWhere(items, x => IsExpired(x, now, parseDate))
          == set i: nat | i < |items| && IsExpired(items[i], now, parseDate);
      Some(Stats(
      |items|,
      CountWhere(items, x => IsLowStock(x, strToNum)),
      CountWhere(items, x => IsExpiringSoon(x, now, parseDate)),
      CountWhere(items, x => IsExpired(x, now, parseDate))))
  }

  /** Every count is at most the total, expiring-soon and expired items are
      never the same items, and items without a date count in neither. */
  lemma StatsBounded(items: seq<Json>, now: int, strToNum: string -> Option<int>, parseDate: Json -> Option<int>)
    requires CalculateStats(items, now, strToNum, parseDate).Some?
    ensures var s := CalculateStats(items, now, strToNum, parseDate).value;
            && s.lowStockItems <= s.totalItems
            && s.expiringSoonItems + s.expiredItems <= s.totalItems
  {
    DisjointCounts(items, x => IsExpiringSoon(x, now, parseDate), x => IsExpired(x, now, parseDate));
  }

  /** A record without an expiry date is neither expiring soon nor expired. */
  lemma NoDateNoExpiry(item: Json, now: int, parseDate: Json -> Option<int>)
    requires !TruthyOpt(Get(item, "expiryDate"))
    ensures !IsExpiringSoon(item, now, parseDate) && !IsExpired(item, now, parseDate)
  {
  }

  // ---------------------------------------------------------------------
  // the screen
  // ---------------------------------------------------------------------

  class DashboardScreen {
    var items: seq<Json>
    var stats: Stats
    var loading: bool
    /** The "Failed to load dashboard data" alert was raised by the last
        load. */
    var failed: bool
    /** `CONFIG.MOCK_MODE ?? false`. */
    const mockMode: bool

    constructor(mockMode: bool)
      ensures this.mockMode == mockMode
      ensures items == [] && stats == ZeroStats && loading && !failed
    {
      this.mockMode := mockMode;
      items := [];
      stats := ZeroStats;
      loading := true;
      failed := false;
    }

    /** `loadDashboardData()`. In mock mode the service has no mock list, so
        the list is empty. Otherwise the GET's outcome is unwrapped and the
        list chosen; a failed request, or a null record that makes the
        statistics throw, raises the alert and leaves the statistics (and
        on a failed request the list) as they were. Loading always ends. */
    method LoadDashboardData(outcome: HttpOutcome, now: int, parse: string -> Option<Json>,
                             strToNum: string -> Option<int>, parseDate: Json -> Option<int>)
      modifies this
      ensures !loading
      ensures mockMode ==> items == [] && stats == ZeroStats && !failed
      ensures !mockMode && outcome.Failed? ==> items == old(items) && stats == old(stats) && failed
      ensures !mockMode && outcome.Received? ==>
                var list := SelectItems(ExtractUpstreamData(outcome.data, parse));
                var computed := CalculateStats(list, now, strToNum, parseDate);
                && items == list
                && (computed.Some? ==> stats == computed.value && !failed)
                && (computed.None? ==> stats == old(stats) && failed)
    {
      loading := true;
      failed := false;
      var inventoryItems: seq<Json> := [];
      if !mockMode {
        match outcome
        case Failed(_) =>
          failed := true;
          loading := false;
          return;
        case Received(data) =>
          var unwrapped := ExtractUpstreamData(data, parse);
          inventoryItems := SelectItems(unwrapped);
      }
      items := inventoryItems;
      var computed := CalculateStats(inventoryItems, now, strToNum, parseDate);
      if computed.Some? {
        stats := computed.value;
      } else {
        failed := true;
      }
      loading := false;
    }
  }
}
