/** The shopping cart: its reducer, the running total it keeps, the queries
    the screens ask of it and the stock and expiry rule that guards adding to
    it. Prices are integers, so the total is exact. */
module Cart {
  import opened Wrappers
  import opened JsText
  import opened Json
  import opened Types

  datatype CartState = CartState(items: seq<CartItem>, total: int)

  datatype CartAction =
    | AddItem(item: Item)
    | RemoveItem(itemId: Json)
    | UpdateQuantity(itemId: Json, quantity: int)
    | ClearCart
    | SetCart(lines: seq<CartItem>)

  const EmptyCart := CartState([], 0)

  /** What one line adds to the total. */
  function LineTotal(l: CartItem): int {
    l.item.price * l.cartQuantity
  }

  /** `calculateTotal(items)`: the sum of price times quantity. */
  function Total(ls: seq<CartItem>): (t: int)
    ensures (forall i :: 0 <= i < |ls| ==> ls[i].item.price >= 0 && ls[i].cartQuantity >= 0) ==>
              t >= 0
  {
    if |ls| == 0 then 0
    else
      var last := ls[|ls| - 1];
      assert last.item.price >= 0 && last.cartQuantity >= 0 ==> LineTotal(last) >= 0 by {
        if last.item.price >= 0 && last.cartQuantity >= 0 { NonNegativeProduct(last.item.price, last.cartQuantity); }
      }
      Total(ls[..|ls| - 1]) + LineTotal(last)
  }

  lemma NonNegativeProduct(a: int, b: int)
    requires a >= 0 && b >= 0
    ensures a * b >= 0
  {
  }

  /** The sum of the cart quantities (`getCartItemsCount`). */
  function Count(ls: seq<CartItem>): (n: int)
    ensures (forall i :: 0 <= i < |ls| ==> ls[i].cartQuantity >= 0) ==>
              n >= 0 && forall i :: 0 <= i < |ls| ==> ls[i].cartQuantity <= n
  {
    if |ls| == 0 then 0 else Count(ls[..|ls| - 1]) + ls[|ls| - 1].cartQuantity
  }

  /** No two lines carry the same item id. */
  predicate UniqueIds(ls: seq<CartItem>) {
    forall i, j :: 0 <= i < j < |ls| ==> ls[i].item.itemId != ls[j].item.itemId
  }

  /** Some line carries the id (`isItemInCart`). */
  predicate InCart(ls: seq<CartItem>, id: Json)
    ensures InCart(ls, id) <==> FindIndex(ls, id) < |ls|
  {
    exists i :: 0 <= i < |ls| && ls[i].item.itemId == id
  }

  /** Index of the first line with the id (`find`), `|ls|` when there is
      none. */
  function FindIndex(ls: seq<CartItem>, id: Json): (k: nat)
    ensures k <= |ls|
    ensures forall i :: 0 <= i < k ==> ls[i].item.itemId != id
    ensures k < |ls| ==> ls[k].item.itemId == id
  {
    if |ls| == 0 then 0
    else if ls[0].item.itemId == id then 0
    else 1 + FindIndex(ls[1..], id)
  }

  /** `getItemQuantity(itemId)`: the first matching line's quantity, 0 when
      none matches. */
  function ItemQuantity(ls: seq<CartItem>, id: Json): (q: int)
    ensures !InCart(ls, id) ==> q == 0
  {
    var k := FindIndex(ls, id);
    if k < |ls| then ls[k].cartQuantity else 0
  }

  /** `items.map(l => l.itemId === id ? {...l, cartQuantity: f(l)} : l)`. */
  function Increment(ls: seq<CartItem>, id: Json): (r: seq<CartItem>)
    ensures |r| == |ls|
    ensures forall i :: 0 <= i < |ls| ==>
              r[i] == if ls[i].item.itemId == id then ls[i].(cartQuantity := ls[i].cartQuantity + 1) else ls[i]
  {
    seq(|ls|, i requires 0 <= i < |ls| =>
      if ls[i].item.itemId == id then ls[i].(cartQuantity := ls[i].cartQuantity + 1) else ls[i])
  }

  function SetQuantity(ls: seq<CartItem>, id: Json, q: int): (r: seq<CartItem>)
    ensures |r| == |ls|
    ensures forall i :: 0 <= i < |ls| ==>
              r[i] == if ls[i].item.itemId == id then ls[i].(cartQuantity := q) else ls[i]
  {
    seq(|ls|, i requires 0 <= i < |ls| => if ls[i].item.itemId == id then ls[i].(cartQuantity := q) else ls[i])
  }

  /** `items.filter(l => l.itemId !== id)`. */
  function Without(ls: seq<CartItem>, id: Json): (r: seq<CartItem>)
    ensures |r| <= |ls|
    ensures forall i :: 0 <= i < |r| ==> r[i].item.itemId != id
  {
    if |ls| == 0 then []
    else if ls[|ls| - 1].item.itemId == id then Without(ls[..|ls| - 1], id)
    else Without(ls[..|ls| - 1], id) + [ls[|ls| - 1]]
  }

  /** The lines after ADD_ITEM. */
  function Added(ls: seq<CartItem>, item: Item): seq<CartItem> {
    if FindIndex(ls, item.itemId) < |ls| then Increment(ls, item.itemId)
    else ls + [CartItem(item, 1)]
  }

  /** The lines after UPDATE_QUANTITY. */
  function Updated(ls: seq<CartItem>, id: Json, q: int): seq<CartItem> {
    if q <= 0 then Without(ls, id) else SetQuantity(ls, id, q)
  }

  /** `cartReducer(state, action)`: every action but CLEAR_CART recomputes
      the total from the new lines. */
  function Reduce(s: CartState, a: CartAction): (r: CartState)
    ensures r.total == Total(r.items)
  {
    match a
    case AddItem(item) => var ls := Added(s.items, item); CartState(ls, Total(ls))
    case RemoveItem(id) => var ls := Without(s.items, id); CartState(ls, Total(ls))
    case UpdateQuantity(id, q) => var ls := Updated(s.items, id, q); CartState(ls, Total(ls))
    case ClearCart => EmptyCart
    case SetCart(ls) => CartState(ls, Total(ls))
  }

  // ---------------------------------------------------------------------
  // properties of the reducer
  // ---------------------------------------------------------------------

  lemma {:induction false} TotalAppend(ls: seq<CartItem>, l: CartItem)
    ensures Total(ls + [l]) == Total(ls) + LineTotal(l)
  {
    assert (ls + [l])[..|ls|] == ls;
  }

  /** Changing one line's quantity by `d` changes the total by `d` times its
      price. */
  lemma {:induction false} TotalOfOneLine(ls: seq<CartItem>, k: nat, q: int)
    requires k < |ls|
    ensures Total(ls[k := ls[k].(cartQuantity := q)]) ==
              Total(ls) + ls[k].item.price * (q - ls[k].cartQuantity)
  {
    var ms := ls[k := ls[k].(cartQuantity := q)];
    var last := |ls| - 1;
    if k < last {
      assert ms[..last] == ls[..last][k := ls[k].(cartQuantity := q)];
      TotalOfOneLine(ls[..last], k, q);
    } else {
      assert ms[..last] == ls[..last];
    }
  }

  /** With unique ids the map in ADD_ITEM changes exactly the line found. */
  lemma IncrementUnique(ls: seq<CartItem>, id: Json)
    requires UniqueIds(ls) && FindIndex(ls, id) < |ls|
    ensures Increment(ls, id) ==
              ls[FindIndex(ls, id) := ls[FindIndex(ls, id)].(cartQuantity := ls[FindIndex(ls, id)].cartQuantity + 1)]
  {
  }

  /** ADD_ITEM on an id already in the cart adds one to that line and
      leaves the other lines and the length alone, and the total grows by the
      line's unit price. */
  lemma AddItemExisting(s: CartState, item: Item)
    requires UniqueIds(s.items) && FindIndex(s.items, item.itemId) < |s.items|
    ensures var k := FindIndex(s.items, item.itemId);
            var r := Reduce(s, AddItem(item));
            && r.items == s.items[k := s.items[k].(cartQuantity := s.items[k].cartQuantity + 1)]
            && r.total == Total(s.items) + s.items[k].item.price
  {
    var k := FindIndex(s.items, item.itemId);
    var line := s.items[k];
    var ms := s.items[k := line.(cartQuantity := line.cartQuantity + 1)];
    IncrementUnique(s.items, item.itemId);
    assert Added(s.items, item) == ms;
    TotalOfOneLine(s.items, k, line.cartQuantity + 1);
    assert line.item.price * (line.cartQuantity + 1 - line.cartQuantity) == line.item.price;
  }

  /** ADD_ITEM on a new id appends a line of quantity 1, and the total grows
      by the item's price. */
  lemma AddItemNew(s: CartState, item: Item)
    requires FindIndex(s.items, item.itemId) == |s.items|
    ensures var r := Reduce(s, AddItem(item));
            && r.items == s.items + [CartItem(item, 1)]
            && r.total == Total(s.items) + item.price
  {
    TotalAppend(s.items, CartItem(item, 1));
  }

  /** ADD_ITEM keeps the ids unique. */
  lemma AddItemKeepsUnique(s: CartState, item: Item)
    requires UniqueIds(s.items)
    ensures UniqueIds(Reduce(s, AddItem(item)).items)
  {
    var ls := Reduce(s, AddItem(item)).items;
    if FindIndex(s.items, item.itemId) < |s.items| {
      assert forall i :: 0 <= i < |ls| ==> ls[i].item == s.items[i].item;
    } else {
      assert forall i :: 0 <= i < |s.items| ==> ls[i] == s.items[i];
    }
  }

  /** Without keeps the other lines in their order: it is the sequence of
      kept lines, and a line is kept exactly when its id differs. */
  lemma {:induction false} WithoutKeeps(ls: seq<CartItem>, id: Json, l: CartItem)
    ensures l in Without(ls, id) <==> l in ls && l.item.itemId != id
  {
    if |ls| > 0 {
      var last := |ls| - 1;
      WithoutKeeps(ls[..last], id, l);
      assert ls == ls[..last] + [ls[last]];
    }
  }

  /** Removing an id that is not in the cart changes nothing, and removing
      twice is removing once. */
  lemma {:induction false} WithoutAbsent(ls: seq<CartItem>, id: Json)
    requires !InCart(ls, id)
    ensures Without(ls, id) == ls
  {
    if |ls| > 0 {
      var last := |ls| - 1;
      assert forall i :: 0 <= i < last ==> ls[..last][i] == ls[i];
      WithoutAbsent(ls[..last], id);
      assert ls == ls[..last] + [ls[last]];
    }
  }

  /** REMOVE_ITEM takes every line with the id out; afterwards the item is
      not in the cart, and removing it again changes nothing. Unique ids stay
      unique. */
  lemma RemoveItemEffect(s: CartState, id: Json)
    ensures var r := Reduce(s, RemoveItem(id));
            && !InCart(r.items, id)
            && Reduce(r, RemoveItem(id)) == r
            && (!InCart(s.items, id) ==> r.items == s.items)
            && (UniqueIds(s.items) ==> UniqueIds(r.items))
  {
    var r := Reduce(s, RemoveItem(id));
    WithoutAbsent(r.items, id);
    if !InCart(s.items, id) {
      WithoutAbsent(s.items, id);
    }
    if UniqueIds(s.items) {
      WithoutUnique(s.items, id);
    }
  }

  lemma {:induction false} WithoutUnique(ls: seq<CartItem>, id: Json)
    requires UniqueIds(ls)
    ensures UniqueIds(Without(ls, id))
  {
    if |ls| > 0 {
      var last := |ls| - 1;
      var init := ls[..last];
      WithoutUnique(init, id);
      if ls[last].item.itemId != id {
        var w := Without(init, id);
        forall l | l in w
          ensures l.item.itemId != ls[last].item.itemId
        {
          WithoutKeeps(init, id, l);
          var i :| 0 <= i < last && init[i] == l;
        }
        assert UniqueIds(w + [ls[last]]) by {
          forall i, j | 0 <= i < j < |w| + 1
            ensures (w + [ls[last]])[i].item.itemId != (w + [ls[last]])[j].item.itemId
          {
            if j == |w| {
              assert (w + [ls[last]])[i] == w[i];
              assert w[i] in w;
            }
          }
        }
      }
    }
  }

  /** UPDATE_QUANTITY with a quantity of 0 or less is REMOVE_ITEM. */
  lemma UpdateToZeroRemoves(s: CartState, id: Json, q: int)
    requires q <= 0
    ensures Reduce(s, UpdateQuantity(id, q)) == Reduce(s, RemoveItem(id))
  {
  }

  /** UPDATE_QUANTITY with a positive quantity sets it on the matching lines
      only, keeps the ids (and so their uniqueness) and leaves a cart
      without the id as it was. */
  lemma UpdatePositive(s: CartState, id: Json, q: int)
    requires q > 0
    ensures var r := Reduce(s, UpdateQuantity(id, q));
            && |r.items| == |s.items|
            && (forall i :: 0 <= i < |s.items| ==> r.items[i].item == s.items[i].item)
            && (UniqueIds(s.items) ==> UniqueIds(r.items))
            && (!InCart(s.items, id) ==> r.items == s.items)
  {
    var r := Reduce(s, UpdateQuantity(id, q));
    if !InCart(s.items, id) {
      assert forall i :: 0 <= i < |s.items| ==> r.items[i] == s.items[i];
    }
  }

  /** CLEAR_CART empties the cart whatever it held. */
  lemma ClearCartEmpties(s: CartState)
    ensures Reduce(s, ClearCart) == EmptyCart && Total([]) == 0
  {
  }

  /** Every action keeps the stored total equal to the lines' total, so the
      invariant holds of every state the reducer produces from the empty
      cart. */
  lemma {:induction false} TotalInvariant(actions: seq<CartAction>)
    ensures var s := Replay(EmptyCart, actions); s.total == Total(s.items)
  {
    if |actions| > 0 {
      TotalInvariant(actions[..|actions| - 1]);
    }
  }

  /** The state after the actions, in order. */
  function Replay(s: CartState, actions: seq<CartAction>): CartState {
    if |actions| == 0 then s else Reduce(Replay(s, actions[..|actions| - 1]), actions[|actions| - 1])
  }

  /** `isItemInCart` agrees with `getItemQuantity`'s search: the quantity
      read is the first matching line's, and with unique ids that line is
      the only one. */
  lemma ItemQuantityFound(ls: seq<CartItem>, id: Json, i: nat)
    requires UniqueIds(ls) && i < |ls| && ls[i].item.itemId == id
    ensures InCart(ls, id) && ItemQuantity(ls, id) == ls[i].cartQuantity
  {
    var k := FindIndex(ls, id);
    assert k <= i;
  }

  // ---------------------------------------------------------------------
  // canAddItem, addItem, updateQuantity
  // ---------------------------------------------------------------------

  const ExpiredMessage := "Item has expired and cannot be added to cart"

  /** "Not enough stock. Available: <qty>, Requested: <requested>". */
  function StockMessage(qty: int, requested: int): string {
    "Not enough stock. Available: " + IntToString(qty) + ", Requested: " + IntToString(requested)
  }

  /** The expiry date, read by `new Date(...)` (None for an invalid date),
      lies before the start of today. */
  predicate ExpiredBefore(item: Item, today: int, parseDate: Json -> Option<int>) {
    item.expiryDate.Some? && Truthy(item.expiryDate.value)
    && parseDate(item.expiryDate.value).Some? && parseDate(item.expiryDate.value).value < today
  }

  /** `canAddItem(item, requested)`: expiry first, then whether the cart's
      quantity of the item plus `requested` exceeds its stock. `today` is
      the start of the current day in milliseconds. Ok(()) is
      `{canAdd: true}`, Err the reason. */
  function CanAddItem(ls: seq<CartItem>, item: Item, requested: int, today: int,
                      parseDate: Json -> Option<int>): (r: Result<(), string>)
    ensures r.Ok? <==> !ExpiredBefore(item, today, parseDate) && ItemQuantity(ls, item.itemId) + requested <= item.qty
    ensures ExpiredBefore(item, today, parseDate) ==> r == Err(ExpiredMessage)
  {
    var total := ItemQuantity(ls, item.itemId) + requested;
    if ExpiredBefore(item, today, parseDate) then Err(ExpiredMessage)
    else if total > item.qty then Err(StockMessage(item.qty, total))
    else Ok(())
  }

  /** `addItem(item)`: refused with the reason and nothing dispatched, or
      ADD_ITEM. The requested amount is the default 1. */
  function AddItemChecked(s: CartState, item: Item, today: int, parseDate: Json -> Option<int>): (r: Result<CartState, string>)
    ensures r.Ok? <==> CanAddItem(s.items, item, 1, today, parseDate).Ok?
    ensures r.Ok? ==> r.value == Reduce(s, AddItem(item))
    ensures r.Err? ==> r.error == CanAddItem(s.items, item, 1, today, parseDate).error
  {
    match CanAddItem(s.items, item, 1, today, parseDate)
    case Err(reason) => Err(reason)
    case Ok(_) => Ok(Reduce(s, AddItem(item)))
  }

  /** An accepted add of an item that is the one already in the cart keeps
      that line within the item's stock. */
  lemma AddItemWithinStock(s: CartState, item: Item, today: int, parseDate: Json -> Option<int>)
    requires UniqueIds(s.items)
    requires AddItemChecked(s, item, today, parseDate).Ok?
    ensures var ls := AddItemChecked(s, item, today, parseDate).value.items;
            var k := FindIndex(ls, item.itemId);
            k < |ls| && ls[k].cartQuantity <= item.qty
  {
    var k := FindIndex(s.items, item.itemId);
    var r := Reduce(s, AddItem(item));
    assert AddItemChecked(s, item, today, parseDate).value == r;
    assert ItemQuantity(s.items, item.itemId) + 1 <= item.qty;
    if k < |s.items| {
      AddItemExisting(s, item);
      assert r.items[k].cartQuantity == s.items[k].cartQuantity + 1;
    } else {
      AddItemNew(s, item);
      assert r.items[k] == CartItem(item, 1);
    }
    FindIndexIs(r.items, item.itemId, k);
  }

  /** The first line with the id is at `k` when the line there has it and
      no earlier one does. */
  lemma FindIndexIs(ls: seq<CartItem>, id: Json, k: nat)
    requires k < |ls| && ls[k].item.itemId == id
    requires forall i :: 0 <= i < k ==> ls[i].item.itemId != id
    ensures FindIndex(ls, id) == k
  {
  }

  /** `updateQuantity(itemId, quantity)` as written: for an item in the cart
      and a positive quantity, the check asks `canAddItem(line, quantity)`,
      which adds the line's current quantity to the new one. */
  function UpdateQuantityAsWritten(s: CartState, id: Json, q: int, today: int,
                                   parseDate: Json -> Option<int>): (r: Result<CartState, string>)
    ensures r.Ok? ==> r.value == Reduce(s, UpdateQuantity(id, q))
    ensures !InCart(s.items, id) || q <= 0 ==> r.Ok?
    ensures InCart(s.items, id) && q > 0 ==>
              var line := s.items[FindIndex(s.items, id)];
              && (r.Ok? <==> CanAddItem(s.items, line.item, q, today, parseDate).Ok?)
              && (r.Err? ==> r.error == CanAddItem(s.items, line.item, q, today, parseDate).error)
  {
    var k := FindIndex(s.items, id);
    if k < |s.items| && q > 0 && CanAddItem(s.items, s.items[k].item, q, today, parseDate).Err? then
      Err(CanAddItem(s.items, s.items[k].item, q, today, parseDate).error)
    else Ok(Reduce(s, UpdateQuantity(id, q)))
  }

  /** `updateQuantity` with the check the action calls for: UPDATE_QUANTITY
      sets the line to `q`, so what is asked of the stock is `q` itself,
      that is `canAddItem(line, q - current)`. */
  function UpdateQuantityChecked(s: CartState, id: Json, q: int, today: int,
                                 parseDate: Json -> Option<int>): (r: Result<CartState, string>)
    ensures r.Ok? ==> r.value == Reduce(s, UpdateQuantity(id, q))
    ensures !InCart(s.items, id) || q <= 0 ==> r.Ok?
    ensures InCart(s.items, id) && q > 0 ==>
              var line := s.items[FindIndex(s.items, id)];
              && (r.Ok? <==> CanAddItem(s.items, line.item, q - line.cartQuantity, today, parseDate).Ok?)
              && (r.Err? ==> r.error == CanAddItem(s.items, line.item, q - line.cartQuantity, today, parseDate).error)
  {
    var k := FindIndex(s.items, id);
    if k < |s.items| && q > 0 then
      var current := s.items[k].cartQuantity;
      match CanAddItem(s.items, s.items[k].item, q - current, today, parseDate)
      case Err(reason) => Err(reason)
      case Ok(_) => Ok(Reduce(s, UpdateQuantity(id, q)))
    else Ok(Reduce(s, UpdateQuantity(id, q)))
  }

  /** The checked update accepts a positive quantity for a line in the cart
      exactly when the item has not expired and the quantity is within its
      stock, and the line then holds that quantity. */
  lemma UpdateQuantityCheckedWithinStock(s: CartState, id: Json, q: int, today: int, parseDate: Json -> Option<int>)
    requires UniqueIds(s.items) && InCart(s.items, id) && q > 0
    ensures var k := FindIndex(s.items, id);
            var line := s.items[k];
            && (UpdateQuantityChecked(s, id, q, today, parseDate).Ok? <==>
                  !ExpiredBefore(line.item, today, parseDate) && q <= line.item.qty)
            && (UpdateQuantityChecked(s, id, q, today, parseDate).Ok? ==>
                  UpdateQuantityChecked(s, id, q, today, parseDate).value.items[k].cartQuantity == q)
  {
    var k := FindIndex(s.items, id);
    ItemQuantityFound(s.items, s.items[k].item.itemId, k);
  }

  /** The update as written accepts a positive quantity for a line in the
      cart exactly when the item has not expired and the line's current
      quantity plus the new one is within its stock. */
  lemma UpdateQuantityAsWrittenWithinStock(s: CartState, id: Json, q: int, today: int, parseDate: Json -> Option<int>)
    requires UniqueIds(s.items) && InCart(s.items, id) && q > 0
    ensures var line := s.items[FindIndex(s.items, id)];
            UpdateQuantityAsWritten(s, id, q, today, parseDate).Ok? <==>
              !ExpiredBefore(line.item, today, parseDate) && line.cartQuantity + q <= line.item.qty
  {
    var k := FindIndex(s.items, id);
    ItemQuantityFound(s.items, s.items[k].item.itemId, k);
  }

  /** The check as written refuses a quantity the stock can hold: with 4 in
      stock and 2 in the cart, setting the line to 3 is refused ("Requested:
      5"), while the checked update accepts it. */
  lemma UpdateQuantityRefusesWithinStock(today: int, parseDate: Json -> Option<int>)
    ensures var line := CartItem(Item(JStr("1"), "Tea", 100, 4, None, None), 2);
            var s := CartState([line], 200);
            && UpdateQuantityAsWritten(s, JStr("1"), 3, today, parseDate).Err?
            && UpdateQuantityChecked(s, JStr("1"), 3, today, parseDate).Ok?
  {
    var line := CartItem(Item(JStr("1"), "Tea", 100, 4, None, None), 2);
    var s := CartState([line], 200);
    assert FindIndex(s.items, JStr("1")) == 0;
    assert ItemQuantity(s.items, JStr("1")) == 2;
  }

  /** `getCartItemsCount` counts units: a cart whose lines each hold one
      unit counts its lines. */
  lemma {:induction false} CountOfUnitLines(ls: seq<CartItem>)
    requires forall i :: 0 <= i < |ls| ==> ls[i].cartQuantity == 1
    ensures Count(ls) == |ls|
  {
    if |ls| > 0 {
      CountOfUnitLines(ls[..|ls| - 1]);
    }
  }
}
