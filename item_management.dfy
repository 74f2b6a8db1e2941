/**
 * The item form: name, price, quantity and category id, plus `editMode` and
 * the id of the row being edited. Editing a row loads it into the form, a
 * save updates the current row or adds a new one, and a successful save
 * clears the form.
 */
module ItemManagement {
  import opened Wrappers
  import opened JsValues
  import opened Requests

  /** A row of the item table as the server sends it. */
  datatype Item = Item(id: int, name: string, price: real, quantity: int, categoryId: int)

  /** The save body `{ name, price, quantity, categoryId }`. */
  datatype ItemPayload = ItemPayload(name: string, price: real, quantity: Number, categoryId: Option<Number>)

  datatype ItemForm = ItemForm(
    itemName: string,
    itemPrice: real,
    itemQuantity: Number,
    categoryId: Option<Number>,
    editMode: bool,
    currentItemId: Option<int>)

  /** The form as first rendered and as `resetForm` leaves it. */
  const BlankForm: ItemForm := ItemForm("", 0.0, Int(0), None, false, None)

  /** The form after `handleEditItem(item)`. */
  function EditForm(item: Item): ItemForm
  {
    ItemForm(item.name, item.price, Int(item.quantity), Some(Int(item.categoryId)), true, Some(item.id))
  }

  /** The body a save sends: the form's four fields as they stand. */
  function Payload(f: ItemForm): ItemPayload
  {
    ItemPayload(f.itemName, f.itemPrice, f.itemQuantity, f.categoryId)
  }

  /** The request `handleSaveItem` issues from form `f`, authorized with the stored token. */
  function SaveRequestOf(f: ItemForm, storedToken: Option<string>): SaveRequest<ItemPayload>
  {
    DecideSave(f.editMode, f.currentItemId, Payload(f), storedToken)
  }

  /** The category-id input's `onChange`: `parseInt(value)`, so an emptied field holds NaN rather than null. */
  function CategoryIdFromInput(value: string): (c: Option<Number>)
    ensures c.Some?
    ensures value == "" ==> c == Some(NaN)
  {
    Some(ParseInt(value))
  }

  /**
   * The browser submits the form only when no `required` field is empty: the
   * name, the quantity (NaN shows as empty) and the category id, shown as
   * `categoryId || ''`. The price field always shows a number here.
   */
  predicate Submittable(f: ItemForm)
  {
    f.itemName != "" && f.itemQuantity.Int? && TruthyNumber(f.categoryId)
  }

  /** A row loaded for editing can be submitted unchanged exactly when its name is non-empty and its category id is not 0. */
  lemma EditedFormSubmittable(item: Item)
    ensures Submittable(EditForm(item)) <==> item.name != "" && item.categoryId != 0
  {
  }

  /** Saving a freshly edited row updates that row with the row's own values, unless its id is 0, which is falsy and adds instead. */
  lemma SaveAfterEdit(item: Item, storedToken: Option<string>)
    ensures var payload := ItemPayload(item.name, item.price, Int(item.quantity), Some(Int(item.categoryId)));
      SaveRequestOf(EditForm(item), storedToken) ==
        if item.id != 0 then Update(item.id, payload, BearerHeader(storedToken))
        else Add(payload, BearerHeader(storedToken))
  {
  }

  /**
   * The blank form that `resetForm` leaves is never submitted (its name and
   * category id are empty); the save handler itself would treat it as an add
   * of the default values.
   */
  lemma BlankFormNotSubmittable(storedToken: Option<string>)
    ensures !Submittable(BlankForm)
    ensures SaveRequestOf(BlankForm, storedToken) == Add(ItemPayload("", 0.0, Int(0), None), BearerHeader(storedToken))
  {
  }

  /** The item page's form state. */
  class ItemPage {
    var itemName: string
    var itemPrice: real
    var itemQuantity: Number
    var categoryId: Option<Number>
    var editMode: bool
    var currentItemId: Option<int>

    function Form(): ItemForm
      reads this
    {
      ItemForm(itemName, itemPrice, itemQuantity, categoryId, editMode, currentItemId)
    }

    constructor ()
      ensures Form() == BlankForm
    {
      itemName, itemPrice, itemQuantity, categoryId := "", 0.0, Int(0), None;
      editMode, currentItemId := false, None;
    }

    method HandleEditItem(item: Item)
      modifies this
      ensures Form() == EditForm(item)
    {
      itemName := item.name;
      itemPrice := item.price;
      itemQuantity := Int(item.quantity);
      categoryId := Some(Int(item.categoryId));
      editMode := true;
      currentItemId := Some(item.id);
    }

    method ResetForm()
      modifies this
      ensures Form() == BlankForm
    {
      itemName := "";
      itemPrice := 0.0;
      itemQuantity := Int(0);
      categoryId := None;
      editMode := false;
      currentItemId := None;
    }

    /** The quantity input's change handler; an emptied field stores NaN and blocks submission. */
    method HandleQuantityInput(value: string)
      modifies this
      ensures Form() == old(Form()).(itemQuantity := ParseInt(value))
      ensures value == "" ==> !Submittable(Form())
    {
      itemQuantity := ParseInt(value);
    }

    /** The category-id input's change handler. */
    method HandleCategoryIdInput(value: string)
      modifies this
      ensures Form() == old(Form()).(categoryId := CategoryIdFromInput(value))
    {
      categoryId := CategoryIdFromInput(value);
    }

    /**
     * Sends the update-or-add request built from the current form; on success
     * asks for the list again and clears the form, on failure leaves it as it was.
     */
    method HandleSaveItem(storedToken: Option<string>, outcome: Outcome) returns (request: SaveRequest<ItemPayload>, refetch: bool)
      modifies this
      ensures request == SaveRequestOf(old(Form()), storedToken)
      ensures refetch <==> outcome == Succeeded
      ensures Form() == if outcome == Succeeded then BlankForm else old(Form())
    {
      var newItem := ItemPayload(itemName, itemPrice, itemQuantity, categoryId);
      request := DecideSave(editMode, currentItemId, newItem, storedToken);
      refetch := outcome == Succeeded;
      if outcome == Succeeded {
        ResetForm();
      }
    }

    /**
     * Refuses locally, sending nothing, when the stored token is missing or
     * empty; otherwise sends the delete and re-fetches on success. The form is
     * not touched.
     */
    method HandleDeleteItem(id: int, storedToken: Option<string>, outcome: Outcome) returns (effect: DeleteEffect)
      ensures effect.RefusedMissingToken? <==> !TruthyString(storedToken)
      ensures effect.Sent? ==> effect.request == Delete(id, BearerHeader(storedToken))
      ensures effect.Sent? ==> (effect.refetch <==> outcome == Succeeded)
    {
      if !TruthyString(storedToken) {
        return RefusedMissingToken;
      }
      effect := Sent(Delete(id, BearerHeader(storedToken)), outcome == Succeeded);
    }
  }
}
