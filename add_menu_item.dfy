/** The screen that creates a menu item. */
module AddMenuItem {
  import opened Wrappers
  import opened Forms
  import opened MenuItemForm
  import opened Ui

  /**
   * The body of `createMenuItem`: the payload with the signed-in user's
   * restaurant id (`undefined`, here `Null`, when it has none).
   */
  function CreateRequest(form: Form<ItemField>, restaurantId: Option<string>): Form<ItemField> {
    MenuItemPayload(form)[RestaurantId := if restaurantId.Some? then Str(restaurantId.value) else Null]
  }

  /**
   * The request sends every field of the form, the parsed price and
   * preparation time, and the restaurant id.
   */
  lemma CreateRequestFields(form: Form<ItemField>, restaurantId: Option<string>)
    ensures CreateRequest(form, restaurantId).Keys == form.Keys + {Price, PreparationTime, RestaurantId}
    ensures CreateRequest(form, restaurantId)[RestaurantId] ==
      if restaurantId.Some? then Str(restaurantId.value) else Null
    ensures forall k :: k in form && k != RestaurantId && k != Price && k != PreparationTime ==>
      CreateRequest(form, restaurantId)[k] == form[k]
    ensures CreateRequest(form, restaurantId)[Price] == MenuItemPayload(form)[Price]
    ensures CreateRequest(form, restaurantId)[PreparationTime] == MenuItemPayload(form)[PreparationTime]
  {
  }

  /** The outcome alert of `createMenuItem`. */
  function CreatedAlert(success: bool): Alert {
    if success then Alert("success", "Menu item added successfully")
    else Alert("error", "Failed to add menu item")
  }

  class AddMenuItemScreen {
    var formData: Form<ItemField>
    var errors: ErrorState<ItemField>
    var loading: bool

    constructor()
      ensures formData == InitialForm() && errors == map[] && !loading
    {
      formData, errors, loading := InitialForm(), map[], false;
    }

    /** `handleChange(field, value)`; a picked image arrives here as the field Image. */
    method HandleChange(field: ItemField, value: Value)
      modifies this
      ensures formData == old(formData)[field := value]
      ensures errors == ClearedError(old(errors), field)
      ensures loading == old(loading)
    {
      formData := formData[field := value];
      errors := ClearedError(errors, field);
    }

    /** `validate()`: the messages replace the error state; true when there are none. */
    method Validate() returns (ok: bool)
      modifies this`errors
      ensures errors == ErrorStateOf(MenuItemErrors(formData))
      ensures ok <==> Accepted(formData)
    {
      var newErrors := CollectErrors(formData);
      errors := ErrorStateOf(newErrors);
      ok := |newErrors| == 0;
      assert ok <==> Accepted(formData) by { AcceptedIffNoErrors(formData); }
    }

    /**
     * `handleSubmit()` up to the request: nothing is sent unless the form
     * validates; then the loader shows and the request carries the payload.
     */
    method HandleSubmit(restaurantId: Option<string>) returns (request: Option<Form<ItemField>>)
      modifies this`errors, this`loading
      ensures errors == ErrorStateOf(MenuItemErrors(formData))
      ensures request.Some? <==> Accepted(formData)
      ensures request.Some? ==> request.value == CreateRequest(formData, restaurantId) && loading
      ensures request.None? ==> loading == old(loading)
    {
      var ok := Validate();
      if ok {
        loading := true;
      }
      request := if ok then Some(CreateRequest(formData, restaurantId)) else None;
    }

    /** The request settled: the loader goes, an alert shows, and success goes back. */
    method OnCreated(success: bool) returns (alert: Alert, goBack: bool)
      modifies this`loading
      ensures !loading
      ensures alert == CreatedAlert(success) && goBack == success
    {
      loading := false;
      alert := CreatedAlert(success);
      goBack := success;
    }
  }

  /** A submitted item always carries a positive price and preparation time. */
  lemma SubmittedItemIsPositive(form: Form<ItemField>, restaurantId: Option<string>)
    requires Accepted(form)
    ensures CreateRequest(form, restaurantId)[Price].Num?
    ensures CreateRequest(form, restaurantId)[Price].n > 0.0
    ensures CreateRequest(form, restaurantId)[PreparationTime].Num?
    ensures CreateRequest(form, restaurantId)[PreparationTime].n > 0.0
  {
    AcceptedPayloadIsPositive(form);
    CreateRequestFields(form, restaurantId);
  }
}
