/**
 * The menu item form that the add and the edit screens share: its initial
 * values, its validator and the payload built from it.
 */
module MenuItemForm {
  import opened Wrappers
  import opened Numbers
  import opened Forms

  /** The property names of a menu item form and of the requests built from it. */
  datatype ItemField =
    | Name | Description | Price | Category | PreparationTime
    | IsVeg | IsVegan | IsGlutenFree | Image | Featured | Available | RestaurantId
  {
    /** The property name in the JavaScript object. */
    function Key(): string {
      match this
      case Name => "name"
      case Description => "description"
      case Price => "price"
      case Category => "category"
      case PreparationTime => "preparationTime"
      case IsVeg => "isVeg"
      case IsVegan => "isVegan"
      case IsGlutenFree => "isGlutenFree"
      case Image => "image"
      case Featured => "featured"
      case Available => "available"
      case RestaurantId => "restaurant"
    }
  }

  const NAME_REQUIRED := "Name is required"
  const DESCRIPTION_REQUIRED := "Description is required"
  const PRICE_REQUIRED := "Price is required"
  const PRICE_NOT_POSITIVE := "Price must be a positive number"
  const CATEGORY_REQUIRED := "Category is required"
  const TIME_REQUIRED := "Preparation time is required"
  const TIME_NOT_POSITIVE := "Preparation time must be a positive number"

  /** The fields the validator looks at. */
  const CheckedFields: set<ItemField> := {Name, Description, Price, Category, PreparationTime}

  /** The fields of the form: all but the restaurant, which only the add request carries. */
  const FormFields: set<ItemField> :=
    {Name, Description, Price, Category, PreparationTime, IsVeg, IsVegan, IsGlutenFree, Image, Featured, Available}

  /** The `useState` initial value of `formData`. */
  function InitialForm(): Form<ItemField> {
    map[
      Name := Str(""), Description := Str(""), Price := Str(""),
      Category := Str(""), PreparationTime := Str(""),
      IsVeg := Flag(false), IsVegan := Flag(false), IsGlutenFree := Flag(false),
      Image := Null, Featured := Flag(false), Available := Flag(true)]
  }

  /**
   * The rule of one field fails: name, description and category must be
   * non-empty, the price must be non-empty and parse to a positive number,
   * the preparation time must be non-empty and parse to a positive integer.
   */
  predicate MenuRuleFails(form: Form<ItemField>, k: ItemField) {
    match k
    case Name | Description | Category => !Truthy(Field(form, k))
    case Price => !Truthy(Field(form, Price)) || !IsPositiveFloat(TextOf(form, Price))
    case PreparationTime => !Truthy(Field(form, PreparationTime)) || !IsPositiveInt(TextOf(form, PreparationTime))
    case _ => false
  }

  /** The message of a failed rule: "required" for an empty field, else the number rule's. */
  function MenuMessage(form: Form<ItemField>, k: ItemField): string {
    match k
    case Name => NAME_REQUIRED
    case Description => DESCRIPTION_REQUIRED
    case Category => CATEGORY_REQUIRED
    case Price => if Truthy(Field(form, Price)) then PRICE_NOT_POSITIVE else PRICE_REQUIRED
    case PreparationTime => if Truthy(Field(form, PreparationTime)) then TIME_NOT_POSITIVE else TIME_REQUIRED
    case _ => ""
  }

  /** The message of one field's rule, when it fails. */
  function MenuRule(form: Form<ItemField>, k: ItemField): Option<string> {
    if MenuRuleFails(form, k) then Some(MenuMessage(form, k)) else None
  }

  /**
   * `validate()`'s `newErrors`: the rules of name, description, price,
   * category and preparation time, applied in that order.
   */
  function MenuItemErrors(form: Form<ItemField>): map<ItemField, string> {
    var afterName := WithRule(map[], Name, MenuRule(form, Name));
    var afterDescription := WithRule(afterName, Description, MenuRule(form, Description));
    var afterPrice := WithRule(afterDescription, Price, MenuRule(form, Price));
    var afterCategory := WithRule(afterPrice, Category, MenuRule(form, Category));
    WithRule(afterCategory, PreparationTime, MenuRule(form, PreparationTime))
  }

  /**
   * What the validator demands: name, description and category non-empty;
   * price non-empty and parsing to a positive number; preparation time
   * non-empty and parsing to a positive integer. Each failed rule leaves its
   * message under its field, and no other field gets one.
   */
  lemma MenuItemErrorsMeaning(form: Form<ItemField>)
    ensures MenuItemErrors(form).Keys <= CheckedFields
    ensures Name in MenuItemErrors(form) <==> !Truthy(Field(form, Name))
    ensures Description in MenuItemErrors(form) <==> !Truthy(Field(form, Description))
    ensures Category in MenuItemErrors(form) <==> !Truthy(Field(form, Category))
    ensures Price in MenuItemErrors(form) <==>
      !Truthy(Field(form, Price)) || !IsPositiveFloat(TextOf(form, Price))
    ensures PreparationTime in MenuItemErrors(form) <==>
      !Truthy(Field(form, PreparationTime)) || !IsPositiveInt(TextOf(form, PreparationTime))
    ensures Name in MenuItemErrors(form) ==> MenuItemErrors(form)[Name] == NAME_REQUIRED
    ensures Description in MenuItemErrors(form) ==> MenuItemErrors(form)[Description] == DESCRIPTION_REQUIRED
    ensures Category in MenuItemErrors(form) ==> MenuItemErrors(form)[Category] == CATEGORY_REQUIRED
    ensures Price in MenuItemErrors(form) ==>
      MenuItemErrors(form)[Price] == if Truthy(Field(form, Price)) then PRICE_NOT_POSITIVE else PRICE_REQUIRED
    ensures PreparationTime in MenuItemErrors(form) ==>
      MenuItemErrors(form)[PreparationTime] ==
        if Truthy(Field(form, PreparationTime)) then TIME_NOT_POSITIVE else TIME_REQUIRED
  {
    forall k
      ensures k in MenuItemErrors(form) <==> k in CheckedFields && MenuRuleFails(form, k)
      ensures k in MenuItemErrors(form) ==> MenuItemErrors(form)[k] == MenuMessage(form, k)
    {
      MenuItemErrorsAt(form, k);
    }
  }

  /** Field `k` has an error exactly when it is checked and its rule fails, and then carries that rule's message. */
  lemma MenuItemErrorsAt(form: Form<ItemField>, k: ItemField)
    ensures k in MenuItemErrors(form) <==> k in CheckedFields && MenuRuleFails(form, k)
    ensures k in MenuItemErrors(form) ==> MenuItemErrors(form)[k] == MenuMessage(form, k)
  {
    var afterName := WithRule(map[], Name, MenuRule(form, Name));
    var afterDescription := WithRule(afterName, Description, MenuRule(form, Description));
    var afterPrice := WithRule(afterDescription, Price, MenuRule(form, Price));
    var afterCategory := WithRule(afterPrice, Category, MenuRule(form, Category));
    assert MenuItemErrors(form) == WithRule(afterCategory, PreparationTime, MenuRule(form, PreparationTime));
    WithRuleAt(map[], Name, MenuRule(form, Name), k);
    WithRuleAt(afterName, Description, MenuRule(form, Description), k);
    WithRuleAt(afterDescription, Price, MenuRule(form, Price), k);
    WithRuleAt(afterPrice, Category, MenuRule(form, Category), k);
    WithRuleAt(afterCategory, PreparationTime, MenuRule(form, PreparationTime), k);
  }

  /** One `if` of `validate()`: the message field `k` gets, when its rule fails. */
  method CheckRule(form: Form<ItemField>, k: ItemField) returns (error: Option<string>)
    ensures error == MenuRule(form, k)
  {
    error := None;
    match k {
      case Name | Description | Category =>
        if !Truthy(Field(form, k)) {
          error := Some(MenuMessage(form, k));
        }
      case Price =>
        if !Truthy(Field(form, Price)) {
          error := Some(PRICE_REQUIRED);
        } else if !IsPositiveFloat(TextOf(form, Price)) {
          error := Some(PRICE_NOT_POSITIVE);
        }
      case PreparationTime =>
        if !Truthy(Field(form, PreparationTime)) {
          error := Some(TIME_REQUIRED);
        } else if !IsPositiveInt(TextOf(form, PreparationTime)) {
          error := Some(TIME_NOT_POSITIVE);
        }
      case IsVeg | IsVegan | IsGlutenFree | Image | Featured | Available | RestaurantId =>
    }
  }

  /**
   * The body of `validate()` on both menu item screens: the rules of name,
   * description, price, category and preparation time, checked in turn,
   * each failing one setting its message in `newErrors`.
   */
  method CollectErrors(form: Form<ItemField>) returns (newErrors: map<ItemField, string>)
    ensures newErrors == MenuItemErrors(form)
  {
    newErrors := map[];
    var nameError := CheckRule(form, Name);
    newErrors := WithRule(newErrors, Name, nameError);
    var descriptionError := CheckRule(form, Description);
    newErrors := WithRule(newErrors, Description, descriptionError);
    var priceError := CheckRule(form, Price);
    newErrors := WithRule(newErrors, Price, priceError);
    var categoryError := CheckRule(form, Category);
    newErrors := WithRule(newErrors, Category, categoryError);
    var preparationTimeError := CheckRule(form, PreparationTime);
    newErrors := WithRule(newErrors, PreparationTime, preparationTimeError);
  }

  /** The rules `validate()` enforces, all at once. */
  predicate Accepted(form: Form<ItemField>) {
    Truthy(Field(form, Name)) && Truthy(Field(form, Description)) && Truthy(Field(form, Category)) &&
    Truthy(Field(form, Price)) && IsPositiveFloat(TextOf(form, Price)) &&
    Truthy(Field(form, PreparationTime)) && IsPositiveInt(TextOf(form, PreparationTime))
  }

  /** `validate()` returns true exactly when every rule holds. */
  lemma AcceptedIffNoErrors(form: Form<ItemField>)
    ensures Accepted(form) <==> |MenuItemErrors(form)| == 0
  {
    MenuItemErrorsMeaning(form);
    if !Accepted(form) {
      var k :| k in CheckedFields && k in MenuItemErrors(form);
    }
  }

  /**
   * `{ ...formData, price: parseFloat(formData.price), preparationTime:
   * parseInt(formData.preparationTime) }`: every other field is sent as it is.
   */
  function MenuItemPayload(form: Form<ItemField>): (r: Form<ItemField>)
    ensures r.Keys == form.Keys + {Price, PreparationTime}
    ensures forall k :: k in form && k != Price && k != PreparationTime ==> r[k] == form[k]
    ensures r[Price] == NumberValue(ParseFloat(TextOf(form, Price)))
    ensures r[PreparationTime] == IntNumber(ParseInt(TextOf(form, PreparationTime)))
  {
    form[Price := NumberValue(ParseFloat(TextOf(form, Price)))]
        [PreparationTime := IntNumber(ParseInt(TextOf(form, PreparationTime)))]
  }

  /** A form the validator accepts sends a positive price and a positive whole preparation time. */
  lemma AcceptedPayloadIsPositive(form: Form<ItemField>)
    requires Accepted(form)
    ensures MenuItemPayload(form)[Price].Num? && MenuItemPayload(form)[Price].n > 0.0
    ensures MenuItemPayload(form)[PreparationTime].Num?
    ensures MenuItemPayload(form)[PreparationTime].n > 0.0
    ensures MenuItemPayload(form)[PreparationTime].n.Floor as real == MenuItemPayload(form)[PreparationTime].n
  {
  }

  /** The empty form is rejected on every checked field. */
  lemma InitialFormRejected()
    ensures MenuItemErrors(InitialForm()).Keys == CheckedFields
    ensures MenuItemErrors(InitialForm())[Price] == PRICE_REQUIRED
    ensures MenuItemErrors(InitialForm())[PreparationTime] == TIME_REQUIRED
  {
    var f := InitialForm();
    MenuItemErrorsMeaning(f);
    assert Field(f, Name) == Str("") && Field(f, Description) == Str("") && Field(f, Price) == Str("");
    assert Field(f, Category) == Str("") && Field(f, PreparationTime) == Str("");
  }
}
