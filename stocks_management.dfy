/**
 * The stock form: quantity and item id, plus `editMode` and the id of the
 * stock row being edited, with the same save decision as the other
 * management forms.
 */
module StocksManagement {
  import opened Wrappers
  import opened JsValues
  import opened Requests

  /** A row of the stock table; the table shows "No Item" for a null item id. */
  datatype Stock = Stock(id: int, quantity: int, itemId: Option<int>)

  /** The save body `{ quantity, itemId }`. */
  datatype StockPayload = StockPayload(quantity: Number, itemId: Option<Number>)

  datatype StockForm = StockForm(quantity: Number, itemId: Option<Number>, editMode: bool, currentStockId: Option<int>)

  /** The form as first rendered and as `resetForm` leaves it. */
  const BlankForm: StockForm := StockForm(Int(0), None, false, None)

  /** The form after `handleEditStock(stock)`. */
  function EditForm(stock: Stock): StockForm
  {
    StockForm(Int(stock.quantity), if stock.itemId.Some? then Some(Int(stock.itemId.value)) else None, true, Some(stock.id))
  }

  function Payload(f: StockForm): StockPayload
  {
    StockPayload(f.quantity, f.itemId)
  }

  /** The request `handleSaveStock` issues from form `f`, authorized with the stored token. */
  function SaveRequestOf(f: StockForm, storedToken: Option<string>): SaveRequest<StockPayload>
  {
    DecideSave(f.editMode, f.currentStockId, Payload(f), storedToken)
  }

  /** What the item-id field shows: `itemId || ''`; it is empty exactly for null, 0 and NaN. */
  function ItemIdText(itemId: Option<Number>): (text: string)
    ensures text == "" <==> !TruthyNumber(itemId)
  {
    if TruthyNumber(itemId) then IntToString(itemId.value.value) else ""
  }

  /** The item-id input's `onChange`: an empty field is null, anything else `parseInt` of it. */
  function ItemIdFromInput(value: string): (r: Option<Number>)
    ensures r.None? <==> value == ""
    ensures r.Some? ==> r.value == ParseInt(value)
  {
    if value != "" then Some(ParseInt(value)) else None
  }

  /**
   * Reading back what the field shows keeps a truthy item id, and turns
   * null, 0 and NaN alike into null. Beyond the safe integers a double
   * rounds, so the id there is not carried through.
   */
  lemma ItemIdFieldRoundTrip(itemId: Option<Number>)
    requires itemId.Some? && itemId.value.Int? ==> IsSafeInteger(itemId.value.value)
    ensures ItemIdFromInput(ItemIdText(itemId)) == if TruthyNumber(itemId) then itemId else None
  {
    if TruthyNumber(itemId) {
      ParseIntToString(itemId.value.value);
    }
  }

  /**
   * The browser submits the form only when no `required` field is empty: the
   * quantity shows `quantity` (NaN shows as empty) and the item id shows
   * `itemId || ''`.
   */
  predicate Submittable(f: StockForm)
  {
    f.quantity.Int? && ItemIdText(f.itemId) != ""
  }

  /** The blank form is never submitted: its item id is null, so its field is empty. */
  lemma BlankFormNotSubmittable()
    ensures !Submittable(BlankForm)
  {
  }

  /** Saving a freshly edited stock row updates that row with its own values, unless its id is 0, which adds instead. */
  lemma SaveAfterEdit(stock: Stock, storedToken: Option<string>)
    ensures var payload := StockPayload(Int(stock.quantity), if stock.itemId.Some? then Some(Int(stock.itemId.value)) else None);
      SaveRequestOf(EditForm(stock), storedToken) ==
        if stock.id != 0 then Update(stock.id, payload, BearerHeader(storedToken))
        else Add(payload, BearerHeader(storedToken))
  {
  }

  /** The stock page's form state. */
  class StocksPage {
    var quantity: Number
    var itemId: Option<Number>
    var editMode: bool
    var currentStockId: Option<int>

    function Form(): StockForm
      reads this
    {
      StockForm(quantity, itemId, editMode, currentStockId)
    }

    constructor ()
      ensures Form() == BlankForm
    {
      quantity, itemId, editMode, currentStockId := Int(0), None, false, None;
    }

    method HandleEditStock(stock: Stock)
      modifies this
      ensures Form() == EditForm(stock)
    {
      quantity := Int(stock.quantity);
      itemId := if stock.itemId.Some? then Some(Int(stock.itemId.value)) else None;
      editMode := true;
      currentStockId := Some(stock.id);
    }

    method ResetForm()
      modifies this
      ensures Form() == BlankForm
    {
      quantity := Int(0);
      itemId := None;
      editMode := false;
      currentStockId := None;
    }

    /** The quantity input's change handler: `parseInt(value)`. */
    method HandleQuantityInput(value: string)
      modifies this
      ensures Form() == old(Form()).(quantity := ParseInt(value))
    {
      quantity := ParseInt(value);
    }

    /** The item-id input's change handler. */
    method HandleItemIdInput(value: string)
      modifies this
      ensures Form() == old(Form()).(itemId := ItemIdFromInput(value))
    {
      itemId := ItemIdFromInput(value);
    }

    /**
     * Sends the update-or-add request built from the current form; on success
     * asks for the list again and clears the form, on failure leaves it as it was.
     */
    method HandleSaveStock(storedToken: Option<string>, outcome: Outcome) returns (request: SaveRequest<StockPayload>, refetch: bool)
      modifies this
      ensures request == SaveRequestOf(old(Form()), storedToken)
      ensures refetch <==> outcome == Succeeded
      ensures Form() == if outcome == Succeeded then BlankForm else old(Form())
    {
      var newStock := StockPayload(quantity, itemId);
      request := DecideSave(editMode, currentStockId, newStock, storedToken);
      refetch := outcome == Succeeded;
      if outcome == Succeeded {
        ResetForm();
      }
    }

    /** Sends the delete with whatever token is stored (no local check) and re-fetches on success; the form is not touched. */
    method HandleDeleteStock(id: int, storedToken: Option<string>, outcome: Outcome) returns (effect: DeleteEffect)
      ensures effect == Sent(Delete(id, BearerHeader(storedToken)), outcome == Succeeded)
    {
      effect := Sent(Delete(id, BearerHeader(storedToken)), outcome == Succeeded);
    }
  }
}
