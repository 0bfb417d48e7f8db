/** The screen that edits the restaurant's profile. */
module EditProfile {
  import opened Wrappers
  import opened Seqs
  import opened Strings
  import opened Numbers
  import opened Forms
  import opened Records
  import opened Ui

  /** The property names of the profile form and of the update request. */
  datatype ProfileField =
    | Name | Description | Email | Phone | Address | CuisineType
    | MinimumOrder | DeliveryFee | DeliveryTime | Logo | CoverImage
  {
    /** The property name in the JavaScript object. */
    function Key(): string {
      match this
      case Name => "name"
      case Description => "description"
      case Email => "email"
      case Phone => "phone"
      case Address => "address"
      case CuisineType => "cuisineType"
      case MinimumOrder => "minimumOrder"
      case DeliveryFee => "deliveryFee"
      case DeliveryTime => "deliveryTime"
      case Logo => "logo"
      case CoverImage => "coverImage"
    }
  }

  /** `value || ""` for text the server may omit. */
  function OrEmpty(text: Option<string>): string {
    if text.Some? then text.value else ""
  }

  /** `value?.toString() || fallback` for a number the server may omit. */
  function NumberText(n: Option<int>, fallback: string): string {
    if n.Some? then IntToString(n.value) else fallback
  }

  /**
   * One field of the initial `formData`: missing text becomes empty, the
   * cuisines are joined with ", ", missing numbers become "0", "0" and "30",
   * and no new image is picked.
   */
  function InitialValue(r: Restaurant, k: ProfileField): Value {
    match k
    case Name => Str(OrEmpty(r.name))
    case Description => Str(OrEmpty(r.description))
    case Email => Str(OrEmpty(r.email))
    case Phone => Str(OrEmpty(r.phone))
    case Address => Str(OrEmpty(r.address))
    case CuisineType => Str(Join(if r.cuisineType.Some? then r.cuisineType.value else [], ", "))
    case MinimumOrder => Str(NumberText(r.minimumOrder, "0"))
    case DeliveryFee => Str(NumberText(r.deliveryFee, "0"))
    case DeliveryTime => Str(NumberText(r.deliveryTime, "30"))
    case Logo | CoverImage => Null
  }

  /** The initial `formData`: every field, as `InitialValue` gives it. */
  function ProfileForm(r: Restaurant): Form<ProfileField> {
    map k | k in ProfileFields :: InitialValue(r, k)
  }

  /** The rule of one field fails; the images have none. */
  predicate ProfileRuleFails(form: Form<ProfileField>, k: ProfileField) {
    match k
    case Name | Description | Phone | Address | CuisineType => !Truthy(Field(form, k))
    case Email => Truthy(Field(form, k)) && !IsEmailLike(TextOf(form, k))
    case MinimumOrder | DeliveryFee => Truthy(Field(form, k)) && !IsNonNegativeFloat(TextOf(form, k))
    case DeliveryTime => Truthy(Field(form, k)) && !IsPositiveInt(TextOf(form, k))
    case Logo | CoverImage => false
  }

  /** The message a failed rule shows. */
  function ProfileMessage(k: ProfileField): string {
    match k
    case Name => "Name is required"
    case Description => "Description is required"
    case Email => "Email is invalid"
    case Phone => "Phone is required"
    case Address => "Address is required"
    case CuisineType => "Cuisine type is required"
    case MinimumOrder => "Minimum order must be a non-negative number"
    case DeliveryFee => "Delivery fee must be a non-negative number"
    case DeliveryTime => "Delivery time must be a positive number"
    case Logo | CoverImage => ""
  }

  /** Every field of the form. */
  const ProfileFields: set<ProfileField> :=
    {Name, Description, Email, Phone, Address, CuisineType, MinimumOrder, DeliveryFee, DeliveryTime, Logo, CoverImage}

  /** The message of one field's rule, when it fails. */
  function ProfileRule(form: Form<ProfileField>, k: ProfileField): Option<string> {
    if ProfileRuleFails(form, k) then Some(ProfileMessage(k)) else None
  }

  /**
   * `validate()`'s `newErrors`: the rules of name, description, email,
   * phone, address, cuisines, minimum order, delivery fee and delivery time,
   * applied in that order.
   */
  function ProfileErrors(form: Form<ProfileField>): map<ProfileField, string> {
    var e1 := WithRule(map[], Name, ProfileRule(form, Name));
    var e2 := WithRule(e1, Description, ProfileRule(form, Description));
    var e3 := WithRule(e2, Email, ProfileRule(form, Email));
    var e4 := WithRule(e3, Phone, ProfileRule(form, Phone));
    var e5 := WithRule(e4, Address, ProfileRule(form, Address));
    var e6 := WithRule(e5, CuisineType, ProfileRule(form, CuisineType));
    var e7 := WithRule(e6, MinimumOrder, ProfileRule(form, MinimumOrder));
    var e8 := WithRule(e7, DeliveryFee, ProfileRule(form, DeliveryFee));
    WithRule(e8, DeliveryTime, ProfileRule(form, DeliveryTime))
  }

  /** A field has a message exactly when its rule fails, and it is that rule's message. */
  lemma ProfileErrorsMeaning(form: Form<ProfileField>)
    ensures forall k :: k in ProfileErrors(form) <==> ProfileRuleFails(form, k)
    ensures forall k :: k in ProfileErrors(form) ==> ProfileErrors(form)[k] == ProfileMessage(k)
  {
    forall k
      ensures k in ProfileErrors(form) <==> ProfileRuleFails(form, k)
      ensures k in ProfileErrors(form) ==> ProfileErrors(form)[k] == ProfileMessage(k)
    {
      ProfileErrorsAt(form, k);
    }
  }

  /** One field of `ProfileErrors`, followed through the nine rules. */
  lemma ProfileErrorsAt(form: Form<ProfileField>, k: ProfileField)
    ensures k in ProfileErrors(form) <==> ProfileRuleFails(form, k)
    ensures k in ProfileErrors(form) ==> ProfileErrors(form)[k] == ProfileMessage(k)
  {
    var e1 := WithRule(map[], Name, ProfileRule(form, Name));
    var e2 := WithRule(e1, Description, ProfileRule(form, Description));
    var e3 := WithRule(e2, Email, ProfileRule(form, Email));
    var e4 := WithRule(e3, Phone, ProfileRule(form, Phone));
    var e5 := WithRule(e4, Address, ProfileRule(form, Address));
    var e6 := WithRule(e5, CuisineType, ProfileRule(form, CuisineType));
    var e7 := WithRule(e6, MinimumOrder, ProfileRule(form, MinimumOrder));
    var e8 := WithRule(e7, DeliveryFee, ProfileRule(form, DeliveryFee));
    WithRuleAt(map[], Name, ProfileRule(form, Name), k);
    WithRuleAt(e1, Description, ProfileRule(form, Description), k);
    WithRuleAt(e2, Email, ProfileRule(form, Email), k);
    WithRuleAt(e3, Phone, ProfileRule(form, Phone), k);
    WithRuleAt(e4, Address, ProfileRule(form, Address), k);
    WithRuleAt(e5, CuisineType, ProfileRule(form, CuisineType), k);
    WithRuleAt(e6, MinimumOrder, ProfileRule(form, MinimumOrder), k);
    WithRuleAt(e7, DeliveryFee, ProfileRule(form, DeliveryFee), k);
    WithRuleAt(e8, DeliveryTime, ProfileRule(form, DeliveryTime), k);
  }

  /** One `if` of `validate()`: the message field `k` gets, when its rule fails. */
  method CheckProfileRule(form: Form<ProfileField>, k: ProfileField) returns (error: Option<string>)
    ensures error == ProfileRule(form, k)
  {
    error := None;
    match k {
      case Name | Description | Phone | Address | CuisineType =>
        if !Truthy(Field(form, k)) {
          error := Some(ProfileMessage(k));
        }
      case Email =>
        if Truthy(Field(form, k)) && !IsEmailLike(TextOf(form, k)) {
          error := Some(ProfileMessage(k));
        }
      case MinimumOrder | DeliveryFee =>
        if Truthy(Field(form, k)) && !IsNonNegativeFloat(TextOf(form, k)) {
          error := Some(ProfileMessage(k));
        }
      case DeliveryTime =>
        if Truthy(Field(form, k)) && !IsPositiveInt(TextOf(form, k)) {
          error := Some(ProfileMessage(k));
        }
      case Logo | CoverImage =>
    }
  }

  /** The body of `validate()`: the nine rules, checked in turn, each failing one setting its message in `newErrors`. */
  method CollectProfileErrors(form: Form<ProfileField>) returns (newErrors: map<ProfileField, string>)
    ensures newErrors == ProfileErrors(form)
  {
    newErrors := map[];
    var nameError := CheckProfileRule(form, Name);
    newErrors := WithRule(newErrors, Name, nameError);
    var descriptionError := CheckProfileRule(form, Description);
    newErrors := WithRule(newErrors, Description, descriptionError);
    var emailError := CheckProfileRule(form, Email);
    newErrors := WithRule(newErrors, Email, emailError);
    var phoneError := CheckProfileRule(form, Phone);
    newErrors := WithRule(newErrors, Phone, phoneError);
    var addressError := CheckProfileRule(form, Address);
    newErrors := WithRule(newErrors, Address, addressError);
    var cuisineTypeError := CheckProfileRule(form, CuisineType);
    newErrors := WithRule(newErrors, CuisineType, cuisineTypeError);
    var minimumOrderError := CheckProfileRule(form, MinimumOrder);
    newErrors := WithRule(newErrors, MinimumOrder, minimumOrderError);
    var deliveryFeeError := CheckProfileRule(form, DeliveryFee);
    newErrors := WithRule(newErrors, DeliveryFee, deliveryFeeError);
    var deliveryTimeError := CheckProfileRule(form, DeliveryTime);
    newErrors := WithRule(newErrors, DeliveryTime, deliveryTimeError);
  }

  /**
   * The rules `validate()` enforces: name, description, phone, address and
   * cuisines are required; an email, if given, must look like one; the two
   * amounts, if given, must parse to non-negative numbers and the delivery
   * time, if given, to a positive integer.
   */
  predicate ProfileAccepted(form: Form<ProfileField>) {
    forall k: ProfileField :: !ProfileRuleFails(form, k)
  }

  /** `validate()` returns true exactly when every rule holds. */
  lemma ProfileAcceptedIffNoErrors(form: Form<ProfileField>)
    ensures ProfileAccepted(form) <==> |ProfileErrors(form)| == 0
  {
    ProfileErrorsMeaning(form);
    if !ProfileAccepted(form) {
      var k :| ProfileRuleFails(form, k);
      assert k in ProfileErrors(form);
    } else {
      assert ProfileErrors(form) == map[];
    }
  }

  /** `formData.cuisineType.split(",").map((item) => item.trim())`. */
  function CuisineList(text: string): seq<string> {
    Map(Split(text, ','), Trim)
  }

  /** Every cuisine sent is trimmed and holds no comma, and there is at least one. */
  lemma CuisineListEntries(text: string)
    ensures |CuisineList(text)| >= 1
    ensures forall i :: 0 <= i < |CuisineList(text)| ==> IsTrimmed(CuisineList(text)[i])
    ensures forall i :: 0 <= i < |CuisineList(text)| ==> ',' !in CuisineList(text)[i]
  {
    var parts := Split(text, ',');
    forall i | 0 <= i < |parts|
      ensures ',' !in Trim(parts[i])
    {
      TrimIsInfix(parts[i]);
    }
  }

  /** A trimmed string is a piece of the original. */
  lemma TrimIsInfix(s: string)
    ensures forall c :: c in Trim(s) ==> c in s
  {
    var t := TrimStart(s);
    TrimStartIsSuffix(s);
    assert forall c :: c in TrimEnd(t) ==> c in t;
    assert forall c :: c in t ==> c in s;
  }

  /**
   * Editing nothing keeps the cuisines: the list joined with ", " for the
   * form splits and trims back to itself, when it is not empty and its
   * entries are trimmed and hold no comma.
   */
  lemma CuisineRoundTrip(cuisines: seq<string>)
    requires |cuisines| >= 1
    requires forall i :: 0 <= i < |cuisines| ==> IsTrimmed(cuisines[i]) && ',' !in cuisines[i]
    ensures CuisineList(Join(cuisines, ", ")) == cuisines
  {
    var text := Join(cuisines, ", ");
    assert "" + text == text;
    SplitJoined("", cuisines);
    TrimPieces(Split(text, ','), cuisines);
  }

  /** Trimming the pieces of a `", "`-joined list gives back its trimmed entries. */
  lemma TrimPieces(parts: seq<string>, cuisines: seq<string>)
    requires |parts| == |cuisines| >= 1 && parts[0] == cuisines[0]
    requires forall i :: 1 <= i < |parts| ==> parts[i] == " " + cuisines[i]
    requires forall i :: 0 <= i < |cuisines| ==> IsTrimmed(cuisines[i])
    ensures Map(parts, Trim) == cuisines
  {
    var sent := Map(parts, Trim);
    forall i | 0 <= i < |cuisines|
      ensures sent[i] == cuisines[i]
    {
      if i > 0 {
        TrimLeadingSpace(cuisines[i]);
      }
    }
  }

  /** An image to send: the picked one, else the kept one if it is non-empty, else what the form holds. */
  function ImageValue(picked: Value, original: Option<string>): Value {
    if Truthy(picked) then picked
    else if original.Some? && original.value != "" then Str(original.value)
    else picked
  }

  /** The properties the update request overrides. */
  const Overridden: set<ProfileField> := {CuisineType, MinimumOrder, DeliveryFee, DeliveryTime, Logo, CoverImage}

  /**
   * One property of the request: the cuisines split and trimmed, the two
   * amounts through `parseFloat`, the delivery time through `parseInt`, the
   * images as `ImageValue` picks them, and every other field as the form has it.
   */
  function RequestValue(form: Form<ProfileField>, k: ProfileField, originalLogo: Option<string>,
                        originalCoverImage: Option<string>): Value {
    match k
    case CuisineType => Strs(CuisineList(TextOf(form, CuisineType)))
    case MinimumOrder | DeliveryFee => NumberValue(ParseFloat(TextOf(form, k)))
    case DeliveryTime => IntNumber(ParseInt(TextOf(form, DeliveryTime)))
    case Logo => ImageValue(Field(form, Logo), originalLogo)
    case CoverImage => ImageValue(Field(form, CoverImage), originalCoverImage)
    case _ => Field(form, k)
  }

  /** The body of `updateRestaurantDetails`: the form spread, with the overridden properties replaced. */
  function ProfileRequest(form: Form<ProfileField>, originalLogo: Option<string>, originalCoverImage: Option<string>): Form<ProfileField> {
    map k | k in form.Keys + Overridden :: RequestValue(form, k, originalLogo, originalCoverImage)
  }

  /**
   * The request has the form's properties and the overridden ones; each
   * property not overridden is sent as the form holds it.
   */
  lemma ProfileRequestKeeps(form: Form<ProfileField>, originalLogo: Option<string>, originalCoverImage: Option<string>)
    ensures ProfileRequest(form, originalLogo, originalCoverImage).Keys == form.Keys + Overridden
    ensures forall k :: k in form && k !in Overridden ==> ProfileRequest(form, originalLogo, originalCoverImage)[k] == form[k]
  {
    var request := ProfileRequest(form, originalLogo, originalCoverImage);
    forall k | k in form && k !in Overridden
      ensures request[k] == form[k]
    {
      assert request[k] == RequestValue(form, k, originalLogo, originalCoverImage);
    }
  }

  /** The value the request carries for a property it has. */
  lemma ProfileRequestAt(form: Form<ProfileField>, originalLogo: Option<string>, originalCoverImage: Option<string>,
                         k: ProfileField)
    requires k in Overridden
    ensures ProfileRequest(form, originalLogo, originalCoverImage)[k] == RequestValue(form, k, originalLogo, originalCoverImage)
  {
  }

  /** An amount the validator accepted is sent as a number that is not negative. */
  lemma AcceptedAmountSent(form: Form<ProfileField>, originalLogo: Option<string>, originalCoverImage: Option<string>,
                           k: ProfileField)
    requires k == MinimumOrder || k == DeliveryFee
    requires ProfileAccepted(form) && Truthy(Field(form, k))
    ensures ProfileRequest(form, originalLogo, originalCoverImage)[k].Num?
    ensures ProfileRequest(form, originalLogo, originalCoverImage)[k].n >= 0.0
  {
    var text := TextOf(form, k);
    assert !ProfileRuleFails(form, k);
    assert IsNonNegativeFloat(text);
    var parsed := ParseFloat(text);
    assert parsed.Some? && parsed.value >= 0.0;
    ProfileRequestAt(form, originalLogo, originalCoverImage, k);
  }

  /** A delivery time the validator accepted is sent as a positive number. */
  lemma AcceptedDeliveryTimeSent(form: Form<ProfileField>, originalLogo: Option<string>, originalCoverImage: Option<string>)
    requires ProfileAccepted(form) && Truthy(Field(form, DeliveryTime))
    ensures ProfileRequest(form, originalLogo, originalCoverImage)[DeliveryTime].Num?
    ensures ProfileRequest(form, originalLogo, originalCoverImage)[DeliveryTime].n > 0.0
  {
    var text := TextOf(form, DeliveryTime);
    assert !ProfileRuleFails(form, DeliveryTime);
    assert IsPositiveInt(text);
    var parsed := ParseInt(text);
    assert parsed.Some? && parsed.value > 0;
    ProfileRequestAt(form, originalLogo, originalCoverImage, DeliveryTime);
  }

  /**
   * A cleared amount passes the validator, since the rule only checks a
   * non-empty one, and is then sent as `NaN`.
   */
  lemma ClearedAmountSentAsNaN(form: Form<ProfileField>, originalLogo: Option<string>, originalCoverImage: Option<string>,
                               k: ProfileField)
    requires k == MinimumOrder || k == DeliveryFee
    requires Field(form, k) == Str("")
    ensures !ProfileRuleFails(form, k)
    ensures ProfileRequest(form, originalLogo, originalCoverImage)[k] == NaN
  {
    assert !Truthy(Field(form, k));
    assert TextOf(form, k) == "";
    ParseFloatEmpty();
    ProfileRequestAt(form, originalLogo, originalCoverImage, k);
  }

  /**
   * Saving the profile unchanged sends back the restaurant's own cuisines,
   * minimum order and logo, when the cuisines are a non-empty list of
   * trimmed names without commas and the minimum order is not negative.
   */
  lemma UnchangedProfileRoundTrip(r: Restaurant, cuisines: seq<string>, minimumOrder: nat)
    requires r.cuisineType == Some(cuisines) && r.minimumOrder == Some(minimumOrder)
    requires |cuisines| >= 1
    requires forall i :: 0 <= i < |cuisines| ==> IsTrimmed(cuisines[i]) && ',' !in cuisines[i]
    ensures ProfileRequest(ProfileForm(r), r.logo, r.coverImage)[CuisineType] == Strs(cuisines)
    ensures ProfileRequest(ProfileForm(r), r.logo, r.coverImage)[MinimumOrder] == Num(minimumOrder as real)
    ensures r.logo.Some? && r.logo.value != "" ==>
      ProfileRequest(ProfileForm(r), r.logo, r.coverImage)[Logo] == Str(r.logo.value)
  {
    var form := ProfileForm(r);
    assert form[CuisineType] == InitialValue(r, CuisineType);
    assert form[MinimumOrder] == Str(IntToString(minimumOrder));
    assert form[Logo] == Null;
    ProfileRequestAt(form, r.logo, r.coverImage, CuisineType);
    CuisineRoundTrip(cuisines);
    ProfileRequestAt(form, r.logo, r.coverImage, MinimumOrder);
    ParseFloatOfNatToString(minimumOrder);
    ProfileRequestAt(form, r.logo, r.coverImage, Logo);
  }

  function SavedAlert(success: bool): Alert {
    if success then Alert("success", "Restaurant profile updated successfully")
    else Alert("error", "Failed to update restaurant profile")
  }

  class EditProfileScreen {
    var formData: Form<ProfileField>
    var errors: ErrorState<ProfileField>
    var loading: bool
    var originalLogo: Option<string>
    var originalCoverImage: Option<string>

    /** The screen opened on the restaurant passed in its route. */
    constructor(restaurant: Restaurant)
      ensures formData == ProfileForm(restaurant) && errors == map[] && !loading
      ensures originalLogo == restaurant.logo && originalCoverImage == restaurant.coverImage
    {
      formData, errors, loading := ProfileForm(restaurant), map[], false;
      originalLogo, originalCoverImage := restaurant.logo, restaurant.coverImage;
    }

    /** `handleChange(field, value)`; a picked logo or cover arrives here too. */
    method HandleChange(field: ProfileField, value: Value)
      modifies this`formData, this`errors
      ensures formData == old(formData)[field := value]
      ensures errors == ClearedError(old(errors), field)
    {
      formData := formData[field := value];
      errors := ClearedError(errors, field);
    }

    /** `validate()`. */
    method Validate() returns (ok: bool)
      modifies this`errors
      ensures errors == ErrorStateOf(ProfileErrors(formData))
      ensures ok <==> ProfileAccepted(formData)
    {
      var newErrors := CollectProfileErrors(formData);
      errors := ErrorStateOf(newErrors);
      ok := |newErrors| == 0;
      assert ok <==> ProfileAccepted(formData) by { ProfileAcceptedIffNoErrors(formData); }
    }

    /** `handleSubmit()` up to the request. */
    method HandleSubmit() returns (request: Option<Form<ProfileField>>)
      modifies this`errors, this`loading
      ensures errors == ErrorStateOf(ProfileErrors(formData))
      ensures request.Some? <==> ProfileAccepted(formData)
      ensures request.Some? ==> request.value == ProfileRequest(formData, originalLogo, originalCoverImage) && loading
      ensures request.None? ==> loading == old(loading)
    {
      var ok := Validate();
      if ok {
        loading := true;
      }
      request := if ok then Some(ProfileRequest(formData, originalLogo, originalCoverImage)) else None;
    }

    /** The update settled: success goes back. */
    method OnSubmitted(success: bool) returns (alert: Alert, goBack: bool)
      modifies this`loading
      ensures !loading && alert == SavedAlert(success) && goBack == success
    {
      loading := false;
      alert, goBack := SavedAlert(success), success;
    }
  }
}
