/** The form that edits an item: its inputs filled from the selected item,
    its checks, and the changes it submits. `parseFloat` is JavaScript's
    `parseFloat` on the price text (None for NaN) and `priceText` is
    `price.toString()`. */
module UpdateItemModal {
  import opened Wrappers
  import opened Json
  import opened JsText
  import opened Types
  import opened Forms

  /** The four checks, in the order they run. */
  datatype UpdateError = NameRequired | InvalidPrice | InvalidQuantity | InvalidExpiryFormat

  function UpdateErrorText(e: UpdateError): string {
    match e
    case NameRequired => "Item name is required"
    case InvalidPrice => "Please enter a valid price"
    case InvalidQuantity => "Please enter a valid quantity"
    case InvalidExpiryFormat => "Expiry date must be in YYYY-MM-DD format"
  }

  const UpdateFailedText: string := "Failed to update item. Please try again."

  /** `/^\d{4}-\d{2}-\d{2}$/.test(s)`: four digits, a dash, two digits, a
      dash and two digits, and nothing else. */
  predicate IsDateShaped(s: string) {
    && |s| == 10
    && IsDigit(s[0]) && IsDigit(s[1]) && IsDigit(s[2]) && IsDigit(s[3])
    && s[4] == '-' && IsDigit(s[5]) && IsDigit(s[6])
    && s[7] == '-' && IsDigit(s[8]) && IsDigit(s[9])
  }

  /** A date-shaped text has nothing to trim. */
  lemma DateShapedIsTrimmed(s: string)
    requires IsDateShaped(s)
    ensures Trim(s) == s && !IsBlank(s)
  {
    TrimStartNoSpace(s);
    assert !IsJsSpace(s[|s| - 1]);
  }

  /** An expiry that passed the check is submitted absent or as a date. */
  lemma CheckedExpiry(s: string)
    requires ExpiryAccepted(s)
    ensures TrimmedOrNone(s).None? || (TrimmedOrNone(s).value.JStr? && IsDateShaped(TrimmedOrNone(s).value.s))
  {
    if IsDateShaped(s) {
      DateShapedIsTrimmed(s);
    }
  }

  /** The expiry check: blank, or exactly a date. */
  predicate ExpiryAccepted(s: string) {
    IsBlank(s) || IsDateShaped(s)
  }

  /** The checks of `handleUpdate` and the changes it builds: a blank name,
      then a price that is unreadable or negative, then a quantity that is
      unreadable or negative, then an expiry that is not blank and not
      exactly `YYYY-MM-DD`. */
  function ValidateUpdate(f: Fields, parseFloat: string -> Option<int>): (r: Result<ItemData, UpdateError>)
    ensures r == Err(NameRequired) <==> IsBlank(f.name)
    ensures r == Err(InvalidPrice) <==>
              !IsBlank(f.name) && (parseFloat(f.price).None? || parseFloat(f.price).value < 0)
    ensures r == Err(InvalidQuantity) <==>
              !IsBlank(f.name) && parseFloat(f.price).Some? && parseFloat(f.price).value >= 0
              && (ParseInt(f.qty, Decimal).None? || ParseInt(f.qty, Decimal).value < 0)
    ensures r == Err(InvalidExpiryFormat) <==>
              !IsBlank(f.name) && parseFloat(f.price).Some? && parseFloat(f.price).value >= 0
              && ParseInt(f.qty, Decimal).Some? && ParseInt(f.qty, Decimal).value >= 0
              && !ExpiryAccepted(f.expiryDate)
    ensures r.Ok? ==> r.value.name == Trim(f.name) && r.value.name != ""
    ensures r.Ok? ==> Some(r.value.price) == parseFloat(f.price) && r.value.price >= 0
    ensures r.Ok? ==> Some(r.value.qty) == ParseInt(f.qty, Decimal) && r.value.qty >= 0
    ensures r.Ok? ==> r.value.description == TrimmedOrNone(f.description)
    ensures r.Ok? ==> r.value.expiryDate.None? || (r.value.expiryDate.value.JStr? && IsDateShaped(r.value.expiryDate.value.s))
  {
    if IsBlank(f.name) then Err(NameRequired)
    else if parseFloat(f.price).None? || parseFloat(f.price).value < 0 then Err(InvalidPrice)
    else if ParseInt(f.qty, Decimal).None? || ParseInt(f.qty, Decimal).value < 0 then Err(InvalidQuantity)
    else if !ExpiryAccepted(f.expiryDate) then Err(InvalidExpiryFormat)
    else
      CheckedExpiry(f.expiryDate);
      Ok(ItemData(Trim(f.name), parseFloat(f.price).value, ParseInt(f.qty, Decimal).value,
                  TrimmedOrNone(f.expiryDate), TrimmedOrNone(f.description)))
  }

  /** Inputs that pass every check are submitted as read. */
  lemma PassingChecks(f: Fields, parseFloat: string -> Option<int>)
    requires !IsBlank(f.name)
    requires parseFloat(f.price).Some? && parseFloat(f.price).value >= 0
    requires ParseInt(f.qty, Decimal).Some? && ParseInt(f.qty, Decimal).value >= 0
    requires ExpiryAccepted(f.expiryDate)
    ensures ValidateUpdate(f, parseFloat) == Ok(ItemData(Trim(f.name), parseFloat(f.price).value, ParseInt(f.qty, Decimal).value,
                                                         TrimmedOrNone(f.expiryDate), TrimmedOrNone(f.description)))
  {
  }

  /** An expiry with a space before an otherwise well-formed date is
      refused: the format is checked on the text as typed, not trimmed. */
  lemma PaddedDateRefused(d: string)
    requires IsDateShaped(d)
    ensures ExpiryAccepted(d) && !ExpiryAccepted(" " + d)
  {
    var e := " " + d;
    assert !IsBlank(e) by {
      BlankIffAllSpace(e);
      assert e[1] == d[0];
    }
    assert |e| == 11;
  }

  /** The text of an optional JSON field: `value || ""`. */
  function TextOr(v: Option<Json>): string {
    if TruthyOpt(v) then ToJsString(v.value) else ""
  }

  /** The inputs filled from the selected item, or all empty without one. */
  function Prefill(item: Option<Item>, priceText: int -> string): (f: Fields)
    ensures item.None? ==> f == EmptyFields
    ensures item.Some? ==> f.name == item.value.name && f.qty == IntToString(item.value.qty)
  {
    match item
    case None => EmptyFields
    case Some(it) => Fields(it.name, priceText(it.price), IntToString(it.qty), TextOr(it.description), TextOr(it.expiryDate))
  }

  /** Opening the form on an item and saving without edits submits the
      item's own values (the name trimmed), when its price text reads back
      as its price and its stored fields are already in the form's shape. */
  lemma {:induction false} PrefillSubmitsItem(item: Item, priceText: int -> string, parseFloat: string -> Option<int>)
    requires !IsBlank(item.name) && item.price >= 0 && item.qty >= 0
    requires parseFloat(priceText(item.price)) == Some(item.price)
    requires item.description.Some? ==>
               item.description.value.JStr? && item.description.value.s != ""
               && Trim(item.description.value.s) == item.description.value.s
    requires item.expiryDate.Some? ==> item.expiryDate.value.JStr? && IsDateShaped(item.expiryDate.value.s)
    ensures ValidateUpdate(Prefill(Some(item), priceText), parseFloat)
            == Ok(ItemData(Trim(item.name), item.price, item.qty, item.expiryDate, item.description))
  {
    var f := Prefill(Some(item), priceText);
    assert f == Fields(item.name, priceText(item.price), IntToString(item.qty), TextOr(item.description), TextOr(item.expiryDate));
    assert ParseInt(f.qty, Decimal) == Some(item.qty) by {
      ParseIntOfIntToString(item.qty, Decimal);
    }
    assert TrimmedOrNone(f.description) == item.description by {
      TextOrRoundTrip(item.description);
    }
    assert ExpiryAccepted(f.expiryDate) && TrimmedOrNone(f.expiryDate) == item.expiryDate by {
      if item.expiryDate.Some? {
        DateShapedIsTrimmed(item.expiryDate.value.s);
      }
      TextOrRoundTrip(item.expiryDate);
      if item.expiryDate.None? {
        assert f.expiryDate == "";
      }
    }
    PassingChecks(f, parseFloat);
  }

  /** A stored text field that is absent, or a trimmed non-empty string,
      comes back from its input unchanged. */
  lemma TextOrRoundTrip(v: Option<Json>)
    requires v.Some? ==> v.value.JStr? && v.value.s != "" && Trim(v.value.s) == v.value.s
    ensures TrimmedOrNone(TextOr(v)) == v
    ensures v.Some? ==> TextOr(v) == v.value.s
  {
    if v.Some? {
      TrimmedOrNoneOfTrimmed(v.value.s);
    }
  }

  class UpdateForm {
    var name: string
    var price: string
    var qty: string
    var description: string
    var expiryDate: string
    var loading: bool

    function Inputs(): Fields
      reads this
    {
      Fields(name, price, qty, description, expiryDate)
    }

    constructor()
      ensures Inputs() == EmptyFields && !loading
    {
      name, price, qty, description, expiryDate := "", "", "", "", "";
      loading := false;
    }

    /** The effect run when the selected item changes. */
    method SyncWithItem(item: Option<Item>, priceText: int -> string)
      modifies this
      ensures Inputs() == Prefill(item, priceText) && loading == old(loading)
    {
      if item.Some? {
        var it := item.value;
        name := it.name;
        price := priceText(it.price);
        qty := IntToString(it.qty);
        description := TextOr(it.description);
        expiryDate := TextOr(it.expiryDate);
      } else {
        name := "";
        price := "";
        qty := "";
        description := "";
        expiryDate := "";
      }
    }

    /** `handleUpdate()`. Without a selected item nothing happens. A refused
        input raises its alert. Otherwise the changes are submitted for the
        item's id; `updateError` is the message the submission threw, if it
        failed. The form closes only after a successful submission, and
        loading ends either way. The inputs are never changed. */
    method HandleUpdate(item: Option<Item>, parseFloat: string -> Option<int>, updateError: Option<string>)
      returns (submitted: Option<(Json, ItemData)>, closed: bool, alert: Option<string>)
      modifies this
      ensures Inputs() == old(Inputs())
      ensures item.None? ==> submitted.None? && !closed && alert.None? && loading == old(loading)
      ensures item.Some? ==>
                var v := ValidateUpdate(old(Inputs()), parseFloat);
                && (v.Err? ==> submitted.None? && !closed && alert == Some(UpdateErrorText(v.error)) && loading == old(loading))
                && (v.Ok? ==> submitted == Some((item.value.itemId, v.value)) && !loading)
                && (v.Ok? ==> (closed <==> updateError.None?))
                && (v.Ok? && updateError.None? ==> alert.None?)
                && (v.Ok? && updateError.Some? ==>
                      alert == Some(if updateError.value != "" then updateError.value else UpdateFailedText))
    {
      if item.None? {
        return None, false, None;
      }
      var v := ValidateUpdate(Inputs(), parseFloat);
      if v.Err? {
        return None, false, Some(UpdateErrorText(v.error));
      }
      loading := true;
      submitted := Some((item.value.itemId, v.value));
      if updateError.None? {
        closed := true;
        alert := None;
      } else {
        closed := false;
        alert := Some(if updateError.value != "" then updateError.value else UpdateFailedText);
      }
      loading := false;
    }
  }
}
