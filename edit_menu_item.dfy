/** The screen that edits or deletes one menu item. */
module EditMenuItem {
  import opened Wrappers
  import opened Numbers
  import opened Forms
  import opened Records
  import opened MenuItemForm
  import opened Ui

  /** The server's placeholder image, which the screen does not treat as the item's own. */
  const DEFAULT_IMAGE := "default-food-image.jpg"

  /** `flag || false`. */
  function OrFalse(flag: Option<bool>): bool {
    flag.Some? && flag.value
  }

  /**
   * The `formData` that `fetchMenuItem` sets, as written: numbers become
   * their text, missing flags become false, no new image is picked, and
   * `available: item.available || true` makes the item available whatever
   * it was.
   */
  function FormFromItem(item: MenuItem): Form<ItemField> {
    map k | k in FormFields :: LoadedValue(item, k)
  }

  /** One field of the loaded form. */
  function LoadedValue(item: MenuItem, k: ItemField): Value {
    match k
    case Name => Str(item.name)
    case Description => Str(item.description)
    case Price => Str(IntToString(item.price))
    case Category => Str(item.category)
    case PreparationTime => Str(IntToString(item.preparationTime))
    case IsVeg => Flag(OrFalse(item.isVeg))
    case IsVegan => Flag(OrFalse(item.isVegan))
    case IsGlutenFree => Flag(OrFalse(item.isGlutenFree))
    case Image => Null
    case Featured => Flag(OrFalse(item.featured))
    case Available => Flag(true)
    case RestaurantId => Null
  }

  /** The fields of a loaded form. */
  lemma FormFromItemFields(item: MenuItem)
    ensures Field(FormFromItem(item), Name) == Str(item.name)
    ensures Field(FormFromItem(item), Description) == Str(item.description)
    ensures Field(FormFromItem(item), Category) == Str(item.category)
    ensures Field(FormFromItem(item), Price) == Str(IntToString(item.price))
    ensures Field(FormFromItem(item), PreparationTime) == Str(IntToString(item.preparationTime))
    ensures Field(FormFromItem(item), IsVeg) == Flag(OrFalse(item.isVeg))
    ensures Field(FormFromItem(item), Image) == Null
    ensures Field(FormFromItem(item), Available) == Flag(true)
  {
  }

  /** The availability the form should start from: the item's own, true when it has none. */
  function AvailableOrTrue(available: Option<bool>): bool {
    if available.Some? then available.value else true
  }

  /** `FormFromItem` with `available: item.available ?? true`. */
  function FormFromItemCorrected(item: MenuItem): Form<ItemField> {
    FormFromItem(item)[Available := Flag(AvailableOrTrue(item.available))]
  }

  /** `originalImage`: the item's image unless it is missing, empty or the placeholder. */
  function OriginalImage(item: MenuItem): (r: Option<string>)
    ensures r.Some? <==> item.image.Some? && item.image.value != "" && item.image.value != DEFAULT_IMAGE
    ensures r.Some? ==> r == item.image
  {
    if item.image.Some? && item.image.value != "" && item.image.value != DEFAULT_IMAGE then item.image else None
  }

  /**
   * The body of `updateMenuItem`: the payload, with the kept image when no
   * new one was picked.
   */
  function UpdateRequest(form: Form<ItemField>, originalImage: Option<string>): Form<ItemField> {
    var payload := MenuItemPayload(form);
    if Truthy(Field(form, Image)) then payload
    else if originalImage.Some? && originalImage.value != "" then payload[Image := Str(originalImage.value)]
    else payload
  }

  /** The image an update sends: the picked one, else the kept one, else what the form holds. */
  lemma UpdateRequestImage(form: Form<ItemField>, originalImage: Option<string>)
    requires Image in form
    ensures Truthy(form[Image]) ==> UpdateRequest(form, originalImage)[Image] == form[Image]
    ensures !Truthy(form[Image]) && originalImage.Some? && originalImage.value != "" ==>
      UpdateRequest(form, originalImage)[Image] == Str(originalImage.value)
    ensures !Truthy(form[Image]) && (originalImage.None? || originalImage.value == "") ==>
      UpdateRequest(form, originalImage)[Image] == form[Image]
  {
    var payload := MenuItemPayload(form);
    assert payload[Image] == form[Image];
  }

  /** Every other field of an update is the payload's. */
  lemma UpdateRequestOtherField(form: Form<ItemField>, originalImage: Option<string>, k: ItemField)
    requires k in form && k != Image
    ensures k in UpdateRequest(form, originalImage)
    ensures UpdateRequest(form, originalImage)[k] == MenuItemPayload(form)[k]
  {
  }

  /** A loaded item with a name, description, category and positive numbers passes validation. */
  lemma LoadedItemAccepted(item: MenuItem)
    requires item.name != "" && item.description != "" && item.category != ""
    requires item.price > 0 && item.preparationTime > 0
    ensures Accepted(FormFromItem(item))
  {
    FormFromItemFields(item);
    PositiveNatIsPositiveFloat(item.price);
    PositiveNatIsPositiveInt(item.preparationTime);
  }

  /**
   * Saving a loaded item unchanged sends its own price and preparation time
   * back: the text the form shows parses to the number it came from.
   */
  lemma UnchangedEditSendsNumbers(item: MenuItem)
    requires item.price >= 0 && item.preparationTime >= 0
    ensures UpdateRequest(FormFromItem(item), OriginalImage(item))[Price] == Num(item.price as real)
    ensures UpdateRequest(FormFromItem(item), OriginalImage(item))[PreparationTime] ==
      Num(item.preparationTime as real)
  {
    var form := FormFromItem(item);
    FormFromItemFields(item);
    ParseFloatOfNatToString(item.price);
    ParseIntOfNatToString(item.preparationTime);
    UpdateRequestOtherField(form, OriginalImage(item), Price);
    UpdateRequestOtherField(form, OriginalImage(item), PreparationTime);
  }

  /** Saving a loaded item unchanged sends its text fields, its flags and its kept image back. */
  lemma UnchangedEditSendsFields(item: MenuItem)
    ensures UpdateRequest(FormFromItem(item), OriginalImage(item))[Name] == Str(item.name)
    ensures UpdateRequest(FormFromItem(item), OriginalImage(item))[Category] == Str(item.category)
    ensures UpdateRequest(FormFromItem(item), OriginalImage(item))[IsVeg] == Flag(OrFalse(item.isVeg))
    ensures UpdateRequest(FormFromItem(item), OriginalImage(item))[Image] ==
      if OriginalImage(item).Some? then Str(OriginalImage(item).value) else Null
  {
    var form := FormFromItem(item);
    var kept := OriginalImage(item);
    FormFromItemFields(item);
    UpdateRequestImage(form, kept);
    UpdateRequestOtherField(form, kept, Name);
    UpdateRequestOtherField(form, kept, Category);
    UpdateRequestOtherField(form, kept, IsVeg);
  }

  /** As written: saving an unavailable item without touching its switch makes it available again. */
  lemma EditMakesUnavailableItemAvailable(item: MenuItem, originalImage: Option<string>)
    requires item.available == Some(false)
    ensures UpdateRequest(FormFromItem(item), originalImage)[Available] == Flag(true)
  {
    var form := FormFromItem(item);
    assert form[Available] == LoadedValue(item, Available);
    UpdateRequestOtherField(form, originalImage, Available);
  }

  /** Corrected: an unchanged save sends the item's own availability, true when it has none. */
  lemma CorrectedEditKeepsAvailability(item: MenuItem, originalImage: Option<string>)
    ensures UpdateRequest(FormFromItemCorrected(item), originalImage)[Available] ==
      Flag(AvailableOrTrue(item.available))
    ensures item.available.Some? ==>
      UpdateRequest(FormFromItemCorrected(item), originalImage)[Available] == Flag(item.available.value)
  {
    UpdateRequestOtherField(FormFromItemCorrected(item), originalImage, Available);
  }

  function LoadFailedAlert(): Alert {
    Alert("error", "Failed to load menu item details")
  }

  function UpdatedAlert(success: bool): Alert {
    if success then Alert("success", "Menu item updated successfully")
    else Alert("error", "Failed to update menu item")
  }

  function DeletedAlert(success: bool): Alert {
    if success then Alert("success", "Menu item deleted successfully")
    else Alert("error", "Failed to delete menu item")
  }

  class EditMenuItemScreen {
    var formData: Form<ItemField>
    var originalImage: Option<string>
    var errors: ErrorState<ItemField>
    var loading: bool
    var updating: bool
    var deleting: bool
    var showDeleteModal: bool

    constructor()
      ensures formData == InitialForm() && originalImage == None && errors == map[]
      ensures loading && !updating && !deleting && !showDeleteModal
    {
      formData, originalImage, errors := InitialForm(), None, map[];
      loading, updating, deleting, showDeleteModal := true, false, false, false;
    }

    /**
     * `fetchMenuItem` settled with the item or failed (`None`): on success the
     * form is filled as written and a real image is kept; on failure an
     * alert shows and the screen goes back.
     */
    method OnItemLoaded(response: Option<MenuItem>) returns (alert: Option<Alert>, goBack: bool)
      modifies this`formData, this`originalImage, this`loading
      ensures !loading
      ensures response.Some? ==> formData == FormFromItem(response.value) && alert.None? && !goBack
      ensures response.Some? && OriginalImage(response.value).Some? ==> originalImage == OriginalImage(response.value)
      ensures response.Some? && OriginalImage(response.value).None? ==> originalImage == old(originalImage)
      ensures response.None? ==> formData == old(formData) && originalImage == old(originalImage)
      ensures response.None? ==> alert == Some(LoadFailedAlert()) && goBack
    {
      alert, goBack := None, false;
      if response.Some? {
        var item := response.value;
        formData := FormFromItem(item);
        if item.image.Some? && item.image.value != "" && item.image.value != DEFAULT_IMAGE {
          originalImage := item.image;
        }
      } else {
        alert, goBack := Some(LoadFailedAlert()), true;
      }
      loading := false;
    }

    /** `handleChange(field, value)`. */
    method HandleChange(field: ItemField, value: Value)
      modifies this`formData, this`errors
      ensures formData == old(formData)[field := value]
      ensures errors == ClearedError(old(errors), field)
    {
      formData := formData[field := value];
      errors := ClearedError(errors, field);
    }

    /** `validate()`. */
    method Validate() returns (ok: bool)
      modifies this`errors
      ensures errors == ErrorStateOf(MenuItemErrors(formData))
      ensures ok <==> Accepted(formData)
    {
      var newErrors := CollectErrors(formData);
      errors := ErrorStateOf(newErrors);
      ok := |newErrors| == 0;
      assert ok <==> Accepted(formData) by { AcceptedIffNoErrors(formData); }
    }

    /** `handleUpdate()` up to the request. */
    method HandleUpdate() returns (request: Option<Form<ItemField>>)
      modifies this`errors, this`updating
      ensures errors == ErrorStateOf(MenuItemErrors(formData))
      ensures request.Some? <==> Accepted(formData)
      ensures request.Some? ==> request.value == UpdateRequest(formData, originalImage) && updating
      ensures request.None? ==> updating == old(updating)
    {
      var ok := Validate();
      if ok {
        updating := true;
      }
      request := if ok then Some(UpdateRequest(formData, originalImage)) else None;
    }

    /** The update settled. */
    method OnUpdated(success: bool) returns (alert: Alert, goBack: bool)
      modifies this`updating
      ensures !updating && alert == UpdatedAlert(success) && goBack == success
    {
      updating := false;
      alert, goBack := UpdatedAlert(success), success;
    }

    /** The delete button opens the confirmation. */
    method OpenDeleteModal()
      modifies this`showDeleteModal
      ensures showDeleteModal
    {
      showDeleteModal := true;
    }

    /** `handleDelete()` up to the request: the confirmation closes and the delete starts. */
    method HandleDelete()
      modifies this`showDeleteModal, this`deleting
      ensures !showDeleteModal && deleting
    {
      showDeleteModal := false;
      deleting := true;
    }

    /**
     * The delete settled: success goes back with `deleting` still set; a
     * failure clears it so the screen can be used again.
     */
    method OnDeleted(success: bool) returns (alert: Alert, goBack: bool)
      modifies this`deleting
      ensures alert == DeletedAlert(success) && goBack == success
      ensures deleting == (old(deleting) && success)
    {
      alert, goBack := DeletedAlert(success), success;
      if !success {
        deleting := false;
      }
    }
  }
}
