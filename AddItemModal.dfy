/** The form that adds an item: its checks, the item it submits, and what
    submitting and closing do to its inputs. `parseFloat` is JavaScript's
    `parseFloat` on the price text (None for NaN). */
module AddItemModal {
  import opened Wrappers
  import opened Json
  import opened JsText
  import opened Types
  import opened Forms

  /** The three checks, in the order they run. */
  datatype AddError = NameRequired | PriceRequired | QuantityRequired

  function AddErrorText(e: AddError): string {
    match e
    case NameRequired => "Item name is required"
    case PriceRequired => "Valid price is required"
    case QuantityRequired => "Valid quantity is required"
  }

  const SuccessText: string := "Item added successfully!"
  const SubmitFailedText: string := "Failed to add item"

  /** The checks of `handleSubmit` and the item it builds: a blank name is
      refused first, then a blank or unreadable price, then a blank or
      unreadable quantity; negative numbers pass. */
  function ValidateNew(f: Fields, parseFloat: string -> Option<int>): (r: Result<ItemData, AddError>)
    ensures r == Err(NameRequired) <==> IsBlank(f.name)
    ensures r == Err(PriceRequired) <==> !IsBlank(f.name) && (IsBlank(f.price) || parseFloat(f.price).None?)
    ensures r == Err(QuantityRequired) <==>
              !IsBlank(f.name) && !IsBlank(f.price) && parseFloat(f.price).Some?
              && (IsBlank(f.qty) || ParseInt(f.qty, Unspecified).None?)
    ensures r.Ok? ==> r.value.name == Trim(f.name) && r.value.name != ""
    ensures r.Ok? ==> Some(r.value.price) == parseFloat(f.price) && Some(r.value.qty) == ParseInt(f.qty, Unspecified)
    ensures r.Ok? ==> r.value.expiryDate == TrimmedOrNone(f.expiryDate) && r.value.description == TrimmedOrNone(f.description)
  {
    if IsBlank(f.name) then Err(NameRequired)
    else if IsBlank(f.price) || parseFloat(f.price).None? then Err(PriceRequired)
    else if IsBlank(f.qty) || ParseInt(f.qty, Unspecified).None? then Err(QuantityRequired)
    else Ok(ItemData(Trim(f.name), parseFloat(f.price).value, ParseInt(f.qty, Unspecified).value,
                     TrimmedOrNone(f.expiryDate), TrimmedOrNone(f.description)))
  }

  /** Any whole number typed as `String` writes it, negative or not, is
      accepted as the quantity and submitted unchanged. */
  lemma QuantityTextRoundTrip(f: Fields, n: int, parseFloat: string -> Option<int>)
    requires !IsBlank(f.name) && !IsBlank(f.price) && parseFloat(f.price).Some?
    requires f.qty == IntToString(n)
    ensures ValidateNew(f, parseFloat).Ok? && ValidateNew(f, parseFloat).value.qty == n
  {
    ParseIntOfIntToString(n, Unspecified);
    IntToStringNotBlank(n);
  }

  class AddForm {
    var name: string
    var price: string
    var qty: string
    var expiryDate: string
    var description: string
    var loading: bool

    function Inputs(): Fields
      reads this
    {
      Fields(name, price, qty, description, expiryDate)
    }

    constructor()
      ensures Inputs() == EmptyFields && !loading
    {
      name, price, qty, expiryDate, description := "", "", "", "", "";
      loading := false;
    }

    /** `resetForm()`: every input back to empty. */
    method ResetForm()
      modifies this
      ensures Inputs() == EmptyFields && loading == old(loading)
    {
      name := "";
      price := "";
      qty := "";
      expiryDate := "";
      description := "";
    }

    /** `handleClose()`: the inputs are cleared and the form asks to close. */
    method HandleClose() returns (closed: bool)
      modifies this
      ensures Inputs() == EmptyFields && loading == old(loading) && closed
    {
      ResetForm();
      closed := true;
    }

    /** `handleSubmit()`. A refused input raises its alert and changes
        nothing. Otherwise the item is submitted; `submitError` is the
        message the submission threw, if it failed. On success the form is
        cleared and closed; on failure the inputs are kept for another try.
        Loading ends either way. */
    method HandleSubmit(parseFloat: string -> Option<int>, submitError: Option<string>)
      returns (submitted: Option<ItemData>, closed: bool, alert: string)
      modifies this
      ensures var v := ValidateNew(old(Inputs()), parseFloat);
              && (v.Err? ==> submitted.None? && !closed && alert == AddErrorText(v.error)
                             && Inputs() == old(Inputs()) && loading == old(loading))
              && (v.Ok? ==> submitted == Some(v.value) && !loading)
              && (v.Ok? && submitError.None? ==> closed && Inputs() == EmptyFields && alert == SuccessText)
              && (v.Ok? && submitError.Some? ==>
                    !closed && Inputs() == old(Inputs())
                    && alert == (if submitError.value != "" then submitError.value else SubmitFailedText))
    {
      var v := ValidateNew(Inputs(), parseFloat);
      if v.Err? {
        return None, false, AddErrorText(v.error);
      }
      loading := true;
      submitted := Some(v.value);
      if submitError.None? {
        ResetForm();
        closed := true;
        alert := SuccessText;
      } else {
        closed := false;
        alert := if submitError.value != "" then submitError.value else SubmitFailedText;
      }
      loading := false;
    }
  }
}
