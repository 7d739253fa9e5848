/** The admin inventory screen: the message shown when loading fails, the
    low-stock summary, and the loads and additions that change its list. */
module InventoryScreen {
  import opened Wrappers
  import opened Json
  import opened JsText
  import opened Config
  import opened Types
  import opened Api
  import InventoryService

  const AuthFailedMessage: string := "Authentication failed. Please login again."
  const AccessDeniedMessage: string := "Access denied. Admin privileges required."
  const NotFoundMessage: string := "Inventory endpoint not found. Check configuration."
  const NetworkMessage: string := "Network error. Check your connection and server status."
  const ServerErrorPrefix: string := "Server error: "

  /** The response status, when the error carries a response. */
  function Status(err: HttpError): Option<int> {
    if err.response.Some? then Some(err.response.value.status) else None
  }

  /** The five messages the screen can throw when loading fails. */
  datatype LoadFailure = AuthFailed | AccessDenied | NotFound | NetworkFailure | ServerError(status: int)

  /** The text of each: a server error names its status, or `Unknown` for a
      status of 0. */
  function FailureText(f: LoadFailure): (m: string)
    ensures m != ""
  {
    match f
    case AuthFailed => AuthFailedMessage
    case AccessDenied => AccessDeniedMessage
    case NotFound => NotFoundMessage
    case NetworkFailure => NetworkMessage
    case ServerError(status) => ServerErrorPrefix + (if status == 0 then "Unknown" else IntToString(status))
  }

  /** How the screen classifies an error caught while loading: the status
      decides first (401, 403, 404), then a missing response or the code
      `NETWORK_ERROR`, and any other status is a server error. */
  function ClassifyLoadError(err: HttpError): (f: LoadFailure)
    ensures f == AuthFailed <==> Status(err) == Some(401)
    ensures f == AccessDenied <==> Status(err) == Some(403)
    ensures f == NotFound <==> Status(err) == Some(404)
    ensures f == NetworkFailure <==>
              (err.response.None? || err.code == Some("NETWORK_ERROR")) && Status(err) !in {Some(401), Some(403), Some(404)}
    ensures f.ServerError? ==> Status(err) == Some(f.status)
  {
    var s := Status(err);
    if s == Some(401) then AuthFailed
    else if s == Some(403) then AccessDenied
    else if s == Some(404) then NotFound
    else if err.code == Some("NETWORK_ERROR") || err.response.None? then NetworkFailure
    else ServerError(err.response.value.status)
  }

  // ---------------------------------------------------------------------
  // the error getAllItems throws
  // ---------------------------------------------------------------------

  /** `getAllItems` rethrows `new Error(message)`: an error with neither a
      response nor a code. */
  function RethrownError(err: HttpError): (r: HttpError)
    ensures r.response.None? && r.code.None?
  {
    HttpError(None, None, InventoryService.HandleError(err))
  }

  /** The message the screen shows, as written, for a failed request: it
      classifies the error `getAllItems` rethrew. */
  function LoadFailureAsWritten(err: HttpError): LoadFailure {
    ClassifyLoadError(RethrownError(err))
  }

  /** As written, every failed load reports a network error, whatever the
      server answered. */
  lemma LoadFailureAlwaysNetwork(err: HttpError)
    ensures LoadFailureAsWritten(err) == NetworkFailure
  {
    var r := RethrownError(err);
    assert Status(r).None?;
  }

  // ---------------------------------------------------------------------
  // the low-stock summary
  // ---------------------------------------------------------------------

  /** `items.filter(item => (item.qty ?? 0) <= LOW_STOCK_THRESHOLD).length`. */
  function LowStockCount(items: seq<Item>): (n: nat)
    ensures n <= |items|
  {
    if |items| == 0 then 0
    else LowStockCount(items[..|items| - 1]) + (if items[|items| - 1].qty <= LowStockThreshold then 1 else 0)
  }

  /** Appending an item adds one to the summary exactly when it is low on
      stock. */
  lemma LowStockAppend(items: seq<Item>, x: Item)
    ensures LowStockCount(items + [x]) == LowStockCount(items) + (if x.qty <= LowStockThreshold then 1 else 0)
  {
    assert (items + [x])[..|items|] == items;
  }

  /** With every item low on stock, the summary counts them all. */
  lemma {:induction false} LowStockAll(items: seq<Item>)
    requires forall i :: 0 <= i < |items| ==> items[i].qty <= LowStockThreshold
    ensures LowStockCount(items) == |items|
  {
    if |items| > 0 {
      LowStockAll(items[..|items| - 1]);
    }
  }

  // ---------------------------------------------------------------------
  // the screen
  // ---------------------------------------------------------------------

  /** The two sample items of mock mode (prices in cents). */
  const MockItems: seq<Item> := [
    Item(JStr("1"), "Sample Item 1", 2999, 10, Some(JStr("2024-12-31")), Some(JStr("Sample description"))),
    Item(JStr("2"), "Low Stock Item", 1550, 2, None, Some(JStr("Low stock warning")))
  ]

  /** The list and the alert message after a load, as the program runs it:
      the sample items in mock mode, the fetched items, or the old list and
      the message the screen derives from the error `getAllItems` rethrew —
      which is always the network message. */
  function AfterLoad(mockMode: bool, outcome: HttpOutcome, parse: string -> Option<Json>,
                     strToNum: string -> Option<int>, randomIds: nat -> string, current: seq<Item>): (r: (seq<Item>, Option<string>))
    ensures r.1.None? <==> mockMode || outcome.Received?
    ensures r.1.Some? ==> r.0 == current && r.1.value == FailureText(LoadFailureAsWritten(outcome.error))
    ensures r.1.Some? ==> r.1.value == NetworkMessage
    ensures mockMode ==> r.0 == MockItems
    ensures !mockMode && outcome.Received? ==> r.0 == InventoryService.AllItems(outcome, parse, strToNum, randomIds).value
    ensures !mockMode && outcome.Received? ==>
              && |r.0| == |InventoryService.ExtractItems(outcome.data, parse)|
              && forall i :: 0 <= i < |r.0| ==>
                   r.0[i] == InventoryService.MapItem(InventoryService.ExtractItems(outcome.data, parse)[i], randomIds(i), strToNum)
  {
    if mockMode then (MockItems, None)
    else match InventoryService.AllItems(outcome, parse, strToNum, randomIds)
      case Ok(list) => (list, None)
      case Err(_) =>
        LoadFailureAlwaysNetwork(outcome.error);
        (current, Some(FailureText(LoadFailureAsWritten(outcome.error))))
  }

  /** The load as evidently intended: the screen classifies the request's
      own error, so the status decides the message. */
  function AfterLoadIntended(mockMode: bool, outcome: HttpOutcome, parse: string -> Option<Json>,
                             strToNum: string -> Option<int>, randomIds: nat -> string, current: seq<Item>): (r: (seq<Item>, Option<string>))
    ensures r.1.None? <==> mockMode || outcome.Received?
    ensures r.1.Some? ==> r.0 == current && r.1.value == FailureText(ClassifyLoadError(outcome.error))
    ensures mockMode ==> r.0 == MockItems
    ensures !mockMode && outcome.Received? ==> r.0 == InventoryService.AllItems(outcome, parse, strToNum, randomIds).value
    ensures !mockMode && outcome.Received? ==>
              && |r.0| == |InventoryService.ExtractItems(outcome.data, parse)|
              && forall i :: 0 <= i < |r.0| ==>
                   r.0[i] == InventoryService.MapItem(InventoryService.ExtractItems(outcome.data, parse)[i], randomIds(i), strToNum)
  {
    if mockMode then (MockItems, None)
    else match InventoryService.AllItems(outcome, parse, strToNum, randomIds)
      case Ok(list) => (list, None)
      case Err(_) => (current, Some(FailureText(ClassifyLoadError(outcome.error))))
  }

  /** The program and its intended version keep the same list and alert on
      the same loads; they differ only in the alert's text, and only when
      the request's own error is not a network failure. */
  lemma IntendedDiffersOnlyInText(mockMode: bool, outcome: HttpOutcome, parse: string -> Option<Json>,
                                  strToNum: string -> Option<int>, randomIds: nat -> string, current: seq<Item>)
    ensures var w := AfterLoad(mockMode, outcome, parse, strToNum, randomIds, current);
            var c := AfterLoadIntended(mockMode, outcome, parse, strToNum, randomIds, current);
            && w.0 == c.0 && (w.1.Some? <==> c.1.Some?)
            && (w.1 != c.1 ==> ClassifyLoadError(outcome.error) != NetworkFailure)
  {
  }

  /** A 401 from the server: the program keeps the list and shows the
      network message, where the intended classification asks the user to
      log in again. */
  lemma UnauthorizedReportedAsNetwork(parse: string -> Option<Json>, strToNum: string -> Option<int>,
                                      randomIds: nat -> string, current: seq<Item>)
    ensures var outcome := Failed(HttpError(Some(HttpResponse(401, JNull)), None, "Request failed with status code 401"));
            && AfterLoad(false, outcome, parse, strToNum, randomIds, current) == (current, Some(NetworkMessage))
            && AfterLoadIntended(false, outcome, parse, strToNum, randomIds, current) == (current, Some(AuthFailedMessage))
  {
    var err := HttpError(Some(HttpResponse(401, JNull)), None, "Request failed with status code 401");
    assert Status(err) == Some(401);
  }

  /** A 403 from the server: the program keeps the list and shows the
      network message, where the intended classification says access was
      denied. Unlike a 401, a 403 does not sign the user out, so this is the
      message the user sees. */
  lemma ForbiddenReportedAsNetwork(parse: string -> Option<Json>, strToNum: string -> Option<int>,
                                   randomIds: nat -> string, current: seq<Item>)
    ensures var outcome := Failed(HttpError(Some(HttpResponse(403, JNull)), None, "Request failed with status code 403"));
            && AfterLoad(false, outcome, parse, strToNum, randomIds, current) == (current, Some(NetworkMessage))
            && AfterLoadIntended(false, outcome, parse, strToNum, randomIds, current) == (current, Some(AccessDeniedMessage))
  {
    var err := HttpError(Some(HttpResponse(403, JNull)), None, "Request failed with status code 403");
    assert Status(err) == Some(403);
  }

  /** With the request's own error classified, a load the server refused
      with 401 keeps the list and asks the user to log in again, one refused
      with 403 or 404 names the cause, and one that never reached the server
      reports the network. */
  lemma RefusedLoadMessages(outcome: HttpOutcome, parse: string -> Option<Json>, strToNum: string -> Option<int>,
                            randomIds: nat -> string, current: seq<Item>)
    requires outcome.Failed?
    ensures Status(outcome.error) == Some(401) ==>
              AfterLoadIntended(false, outcome, parse, strToNum, randomIds, current) == (current, Some(AuthFailedMessage))
    ensures Status(outcome.error) == Some(403) ==>
              AfterLoadIntended(false, outcome, parse, strToNum, randomIds, current) == (current, Some(AccessDeniedMessage))
    ensures Status(outcome.error) == Some(404) ==>
              AfterLoadIntended(false, outcome, parse, strToNum, randomIds, current) == (current, Some(NotFoundMessage))
    ensures outcome.error.response.None? ==>
              AfterLoadIntended(false, outcome, parse, strToNum, randomIds, current) == (current, Some(NetworkMessage))
  {
  }

  /** The screen's state: the list shown, whether the spinner shows, and
      the alert of the last load. */
  class Screen {
    var items: seq<Item>
    var loading: bool
    /** The message of the "Error Loading Inventory" alert of the last load,
        if it failed. */
    var loadError: Option<string>
    /** `CONFIG.MOCK_MODE ?? false`. */
    const mockMode: bool

    constructor(mockMode: bool)
      ensures this.mockMode == mockMode
      ensures items == [] && loading && loadError.None?
    {
      this.mockMode := mockMode;
      items := [];
      loading := true;
      loadError := None;
    }

    /** `loadInventoryData()`: loading ends whatever happened. */
    method LoadInventoryData(outcome: HttpOutcome, parse: string -> Option<Json>,
                             strToNum: string -> Option<int>, randomIds: nat -> string)
      modifies this
      ensures (items, loadError) == AfterLoad(mockMode, outcome, parse, strToNum, randomIds, old(items))
      ensures !loading
    {
      loading := true;
      loadError := None;
      if mockMode {
        items := MockItems;
      } else {
        var fetched := InventoryService.AllItems(outcome, parse, strToNum, randomIds);
        match fetched
        case Ok(list) =>
          items := list;
        case Err(_) =>
          loadError := Some(FailureText(LoadFailureAsWritten(outcome.error)));
      }
      loading := false;
    }

    /** `addItem(itemData)`: in mock mode the item is appended with a random
        id; otherwise it is created on the server and the list reloaded, or
        the creation's error is passed on to the form. */
    method AddItem(d: ItemData, created: HttpOutcome, randomId: string, reload: HttpOutcome,
                   parse: string -> Option<Json>, strToNum: string -> Option<int>, randomIds: nat -> string)
      returns (error: Option<string>)
      modifies this
      ensures mockMode ==> error.None? && loading == old(loading) && loadError == old(loadError)
      ensures mockMode ==> items == old(items) + [Item(JStr(randomId), d.name, d.price, d.qty, d.expiryDate, d.description)]
      ensures !mockMode && created.Failed? ==>
                error == Some(InventoryService.HandleError(created.error))
                && items == old(items) && loading == old(loading) && loadError == old(loadError)
      ensures !mockMode && created.Received? ==>
                error.None? && !loading
                && (items, loadError) == AfterLoad(mockMode, reload, parse, strToNum, randomIds, old(items))
    {
      if mockMode {
        items := items + [Item(JStr(randomId), d.name, d.price, d.qty, d.expiryDate, d.description)];
        return None;
      }
      var newItem := InventoryService.CreatedItem(created, d, randomId);
      if newItem.Err? {
        return Some(newItem.error);
      }
      LoadInventoryData(reload, parse, strToNum, randomIds);
      error := None;
    }
  }

  /** The list a mock addition leaves (the one `Screen.AddItem` promises in
      mock mode) raises the low-stock summary by one exactly when the new
      item is low. */
  lemma MockAddRaisesLowStock(before: seq<Item>, d: ItemData, randomId: string)
    ensures var added := Item(JStr(randomId), d.name, d.price, d.qty, d.expiryDate, d.description);
            LowStockCount(before + [added]) == LowStockCount(before) + (if d.qty <= LowStockThreshold then 1 else 0)
  {
    LowStockAppend(before, Item(JStr(randomId), d.name, d.price, d.qty, d.expiryDate, d.description));
  }
}
