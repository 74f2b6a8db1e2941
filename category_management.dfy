/**
 * The category form: a name, plus `editMode` and the id of the category
 * being edited, with the same save decision as the other management forms.
 */
module CategoryManagement {
  import opened Wrappers
  import opened Requests

  /** A row of the category table. */
  datatype Category = Category(id: int, name: string)

  /** The save body `{ name }`. */
  datatype CategoryPayload = CategoryPayload(name: string)

  datatype CategoryForm = CategoryForm(categoryName: string, editMode: bool, currentCategoryId: Option<int>)

  /** The form as first rendered and as `resetForm` leaves it. */
  const BlankForm: CategoryForm := CategoryForm("", false, None)

  /** The form after `handleEditCategory(category)`. */
  function EditForm(category: Category): CategoryForm
  {
    CategoryForm(category.name, true, Some(category.id))
  }

  /** The request `handleSaveCategory` issues from form `f`, authorized with the stored token. */
  function SaveRequestOf(f: CategoryForm, storedToken: Option<string>): SaveRequest<CategoryPayload>
  {
    DecideSave(f.editMode, f.currentCategoryId, CategoryPayload(f.categoryName), storedToken)
  }

  /** The browser submits the form only when the `required` name field is non-empty. */
  predicate Submittable(f: CategoryForm)
  {
    f.categoryName != ""
  }

  /** The blank form is never submitted; a category loaded for editing is, unless its name is empty. */
  lemma SubmittableForms(category: Category)
    ensures !Submittable(BlankForm)
    ensures Submittable(EditForm(category)) <==> category.name != ""
  {
  }

  /** Saving a freshly edited category renames that category, unless its id is 0, which adds a category instead. */
  lemma SaveAfterEdit(category: Category, storedToken: Option<string>)
    ensures SaveRequestOf(EditForm(category), storedToken) ==
      if category.id != 0 then Update(category.id, CategoryPayload(category.name), BearerHeader(storedToken))
      else Add(CategoryPayload(category.name), BearerHeader(storedToken))
  {
  }

  /** The category page's form state. */
  class CategoryPage {
    var categoryName: string
    var editMode: bool
    var currentCategoryId: Option<int>

    function Form(): CategoryForm
      reads this
    {
      CategoryForm(categoryName, editMode, currentCategoryId)
    }

    constructor ()
      ensures Form() == BlankForm
    {
      categoryName, editMode, currentCategoryId := "", false, None;
    }

    method HandleEditCategory(category: Category)
      modifies this
      ensures Form() == EditForm(category)
    {
      categoryName := category.name;
      editMode := true;
      currentCategoryId := Some(category.id);
    }

    method ResetForm()
      modifies this
      ensures Form() == BlankForm
    {
      categoryName := "";
      editMode := false;
      currentCategoryId := None;
    }

    /**
     * Sends the update-or-add request built from the current form; on success
     * asks for the list again and clears the form, on failure leaves it as it was.
     */
    method HandleSaveCategory(storedToken: Option<string>, outcome: Outcome) returns (request: SaveRequest<CategoryPayload>, refetch: bool)
      modifies this
      ensures request == SaveRequestOf(old(Form()), storedToken)
      ensures refetch <==> outcome == Succeeded
      ensures Form() == if outcome == Succeeded then BlankForm else old(Form())
    {
      var newCategory := CategoryPayload(categoryName);
      request := DecideSave(editMode, currentCategoryId, newCategory, storedToken);
      refetch := outcome == Succeeded;
      if outcome == Succeeded {
        ResetForm();
      }
    }

    /** Sends the delete with whatever token is stored and re-fetches on success; the form is not touched. */
    method HandleDeleteCategory(id: int, storedToken: Option<string>, outcome: Outcome) returns (effect: DeleteEffect)
      ensures effect == Sent(Delete(id, BearerHeader(storedToken)), outcome == Succeeded)
    {
      effect := Sent(Delete(id, BearerHeader(storedToken)), outcome == Succeeded);
    }
  }
}
