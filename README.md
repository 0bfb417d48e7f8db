# GoChop restaurant app: a Dafny model

This project models the logic of the GoChop restaurant dashboard. The dashboard is a React Native app. Restaurant staff use it to sign in, watch and advance orders, edit the menu, edit the restaurant profile and read sales analytics. The model covers the following:

- Session handling: sign in, sign out, and restoring the session on start (`App.js`). Logging in stores the tokens (`services/authService.js`). The axios interceptors attach the bearer token and refresh it once on a 401 (`services/api.js`).
- Form validation and the request each form sends: login, password reset, add menu item, edit menu item and edit profile.
- The order screens: the status filter chips, the next-status rule, the badges, the labels and the progress stepper.
- The menu screen's category and search filter, and the availability toggle.
- The dashboard and analytics figures: recent orders, the pending count, chart series, best category and most active day.
- The alert provider with its auto-hide timer.

Form and classification logic that only computes becomes functions, with lemmas about them. Screens, whose state React updates step by step, become classes. Their fields are the component's state, and each handler is a method with a `modifies` clause. Server replies, a button press and a storage fault are method parameters, because the network, the user and the device lie outside the model. A validator that builds its error map one rule at a time becomes a method that builds the map the same way. That method is proved equal to a specification function, and lemmas state what the function means.

Persistent storage (AsyncStorage) is the class `Storage.Store`, a map from key to string. A storage operation that may throw is modelled with a `Fault` parameter, which says how many awaited steps complete before the throw. Status strings stay strings, because the server may send any value. `Config` enumerates the known values and parses a string into them.

## Model

| member | source | states |
|---|---|---|
| Config.ParseOrderStatus | config.js:4-14 | A string parses to the order status whose value it is, and to none exactly when no status has that value |
| Config.ParseOrderStatusValue | config.js:4-14 | Every order status's value parses back to that status (round trip) |
| Config.OrderStatusValuesDistinct | config.js:4-14 | No two order statuses share a value |
| Config.KeyIsUppercasedValue | config.js:4-14 | Each status key is its value in upper case |
| Config.ValueIsSnakeCase | config.js:4-14 | Each status value consists of lower-case letters and underscores |
| Config.ParseRestaurantStatus | config.js:16-20 | A string parses to the restaurant status whose value it is, and to none when no status has that value |
| Config.RestaurantStatusValuesDistinct | config.js:16-20 | No two restaurant statuses share a value |
| Storage.Store.constructor | App.js:139-152 | The store starts with the given stored items |
| Storage.Store.GetItem | App.js:141-147 | Reading a key gives its stored value, or nothing when the key is absent |
| Storage.Store.SetItem | App.js:112-113 | Writing a key stores its value and leaves every other key as it was |
| Storage.Store.RemoveItem | services/api.js:58-65 | Removing a key deletes it and leaves every other key as it was |
| Records.UserInfoJson | services/authService.js:52-57 | The stored user text is a non-empty JSON object |
| Records.ShortId | screens/orders/OrderDetailScreen.js:129 | The short id is the whole id when it has at most six characters; otherwise it is the id's last six characters |
| Records.OrderTitle | components/orders/OrderItem.js:54 | The row title is "Order #" followed by the id's last six characters, or by the whole id when it is shorter |
| Numbers.ParseIntOfIntToString | screens/menu/EditMenuItemScreen.js:61-73 | `parseInt` of a number's decimal text gives the number back |
| Numbers.ParseFloatOfNatToString | screens/menu/EditMenuItemScreen.js:61-73 | `parseFloat` of a whole number's text gives the number back |
| Numbers.PositiveNatIsPositiveInt | screens/menu/AddMenuItemScreen.js:79-105 | The text of a positive whole number passes the positive-integer rule |
| Numbers.PositiveNatIsPositiveFloat | screens/menu/AddMenuItemScreen.js:79-105 | The text of a positive whole number passes the positive-price rule |
| Numbers.ParseFloatEmpty | screens/profile/EditProfileScreen.js:130-136 | `parseFloat("")` gives no number (NaN) |
| Strings.EmailLikeIffRegex | screens/auth/LoginScreen.js:33-34 | A string is email-like exactly when it matches the pattern: non-space text, "@", non-space text, ".", non-space text |
| AppSession.App.constructor | App.js:104-106 | The app starts loading, with no token and no user |
| AppSession.App.CurrentScreen | App.js:157-180 | The splash shows while loading; after that, the auth stack shows without a token and the main tabs show with one |
| AppSession.App.SignIn | App.js:109-120 | The token and the user are stored and then set in memory; a fault leaves memory as it was and storage with only the writes that completed |
| AppSession.App.SignOut | App.js:121-132 | The token and then the user are removed from storage and memory; the refresh token stays stored |
| AppSession.App.Bootstrap | App.js:139-152 | With a stored token and user, the token is restored, and the user too when the stored text parses; storage is only read |
| AppSession.SignInThenOut | App.js:109-132 | Signing in then out removes exactly the token and the user from storage and leaves the auth screen showing |
| AppSession.FreshStart | App.js:139-152 | A start with empty storage shows the auth screen |
| AppSession.SignInSurvivesRestart | App.js:139-152 | After a sign-in, a restart with the same storage shows the main tabs |
| AuthService.StoreLoginData | services/authService.js:4-65 | Login stores the user's JSON always and each token only when present; every other key stays as it was |
| Api.AuthorizationFor | services/api.js:16-19 | A stored token replaces the header with "Bearer " and the token; without one, the header is kept |
| Api.RequestConfig.constructor | services/api.js:14-25 | A request starts with its own path and header and is not yet marked as retried |
| Api.AttachToken | services/api.js:14-25 | The request header becomes the one `AuthorizationFor` gives for the stored token |
| Api.OnError | services/api.js:28-70 | A first 401 is marked and refreshes once with the stored refresh token. Success stores both new tokens and retries with the new header. A missing refresh token or a failed refresh removes the three session keys and rejects. Any other error is rejected unchanged |
| Api.ClearSession | services/api.js:58-65 | Exactly the token, the refresh token and the user are removed from storage |
| Api.Call | services/api.js:14-70 | One call sends at most two requests and posts at most one refresh. It returns the first reply, the retry's reply, or the rejection the error handler gives, with storage updated to match |
| AuthValidation.EmailErrorMeaning | screens/auth/LoginScreen.js:33-34 | The email passes exactly when it matches the pattern; the message is "required" for an empty one and "invalid" otherwise |
| AuthValidation.PasswordErrorMeaning | screens/auth/LoginScreen.js:36-38 | The password passes exactly when it has at least six characters; the message is "required" or "too short" |
| AuthValidation.LoginErrorsMeaning | screens/auth/LoginScreen.js:30-42 | The login form has an error on a field exactly when that field fails its rule, with that rule's message |
| AuthValidation.ResetErrorsMeaning | screens/auth/ForgotPasswordScreen.js:27-35 | The reset form has an email error exactly when the email does not match the pattern |
| AuthValidation.FailureMessage | screens/auth/LoginScreen.js:79-83 | A failure shows the server's message when there is one, else the error's own message, else the fallback |
| Login.LoginAlert | screens/auth/LoginScreen.js:44-87 | Only an admitted reply gives a success alert; a non-restaurant role, missing tokens and a failed request each give their own error |
| Login.LoginScreen.constructor | screens/auth/LoginScreen.js:21-22 | The login screen starts with empty fields, no errors and no loader |
| Login.LoginScreen.SetEmail | screens/auth/LoginScreen.js:119 | Typing sets the email |
| Login.LoginScreen.SetPassword | screens/auth/LoginScreen.js:130 | Typing sets the password |
| Login.LoginScreen.Validate | screens/auth/LoginScreen.js:30-42 | The error state becomes the login errors, and the form is valid exactly when it has none |
| Login.LoginScreen.HandleLogin | screens/auth/LoginScreen.js:44-56 | The credentials are sent exactly when the form is valid, and the loader shows then |
| Login.LoginScreen.OnLoginReply | screens/auth/LoginScreen.js:57-85 | As written: only an admitted reply signs in, but a reply that is turned away leaves the session that `login` stored |
| Login.LoginScreen.OnLoginReplyCorrected | screens/auth/LoginScreen.js:57-85 | Corrected: a reply that is turned away also removes the stored session |
| Login.RejectedLoginRestoredOnRestart | screens/auth/LoginScreen.js:57-63 | As written: a customer who is turned away reaches the main tabs at the next start |
| Login.RejectedLoginCorrectedStaysSignedOut | screens/auth/LoginScreen.js:57-63 | Corrected: the same customer stays on the auth screens after a restart |
| Login.TurnedAwayLeavesNoSession | screens/auth/LoginScreen.js:57-72 | Corrected, for every rejected reply and any restart: the auth screen shows |
| ForgotPassword.ResetAlert | screens/auth/ForgotPasswordScreen.js:37-53 | A success alert is shown exactly when the reset was sent; a failure shows the server's message or the fallback |
| ForgotPassword.ForgotPasswordScreen.constructor | screens/auth/ForgotPasswordScreen.js:19 | The screen starts with an empty email and nothing sent |
| ForgotPassword.ForgotPasswordScreen.SetEmail | screens/auth/ForgotPasswordScreen.js:94 | Typing sets the email |
| ForgotPassword.ForgotPasswordScreen.Validate | screens/auth/ForgotPasswordScreen.js:27-35 | The error state becomes the reset errors; the email is valid exactly when it matches the pattern |
| ForgotPassword.ForgotPasswordScreen.HandleSubmit | screens/auth/ForgotPasswordScreen.js:37-40 | The email is sent exactly when it is valid |
| ForgotPassword.ForgotPasswordScreen.OnResetReply | screens/auth/ForgotPasswordScreen.js:41-52 | The sent flag becomes set on success and stays set; the alert follows the reply |
| ForgotPassword.SubmitOnce | screens/auth/ForgotPasswordScreen.js:27-53 | One submit sends a request exactly when the email is valid, and marks the reset sent exactly when it is valid and the server succeeds |
| Forms.ClearedError | screens/menu/AddMenuItemScreen.js:46-59 | Editing a field clears only that field's error and keeps the rest |
| Forms.ErrorStateOf | screens/menu/AddMenuItemScreen.js:79-105 | The error state holds exactly the validator's messages |
| MenuItemForm.MenuItemErrorsMeaning | screens/menu/AddMenuItemScreen.js:79-105 | A menu form field has an error exactly when its rule fails: name, description or category empty; price empty or not parsing (`parseFloat`) to a positive number; preparation time empty or not parsing (`parseInt`) to a positive number |
| MenuItemForm.MenuItemErrorsAt | screens/menu/AddMenuItemScreen.js:79-105 | For each field: an error exactly when it is checked and fails, with its rule's message |
| MenuItemForm.CheckRule | screens/menu/AddMenuItemScreen.js:79-105 | One field's check gives its rule's verdict |
| MenuItemForm.CollectErrors | screens/menu/AddMenuItemScreen.js:79-105 | Building the error map rule by rule gives the menu form's errors |
| MenuItemForm.AcceptedIffNoErrors | screens/menu/AddMenuItemScreen.js:104 | The form is accepted exactly when it has no errors |
| MenuItemForm.MenuItemPayload | screens/menu/AddMenuItemScreen.js:114-119 | The payload is the form with the price parsed as a float and the time as an integer; every other field is unchanged |
| MenuItemForm.AcceptedPayloadIsPositive | screens/menu/AddMenuItemScreen.js:107-137 | An accepted form sends a positive price and a positive whole preparation time |
| MenuItemForm.InitialFormRejected | screens/menu/AddMenuItemScreen.js:29-41 | The empty form fails every checked field, the price and time with their "required" messages |
| AddMenuItem.CreateRequestFields | screens/menu/AddMenuItemScreen.js:114-119 | The create request has the form's fields, the numeric ones and the restaurant id |
| AddMenuItem.AddMenuItemScreen.constructor | screens/menu/AddMenuItemScreen.js:29-41 | The screen starts on the initial form with no errors |
| AddMenuItem.AddMenuItemScreen.HandleChange | screens/menu/AddMenuItemScreen.js:46-59 | Editing sets one field and clears only its error |
| AddMenuItem.AddMenuItemScreen.Validate | screens/menu/AddMenuItemScreen.js:79-105 | The error state becomes the menu form errors, and the form is valid exactly when it is accepted |
| AddMenuItem.AddMenuItemScreen.HandleSubmit | screens/menu/AddMenuItemScreen.js:107-137 | The create request is sent exactly when the form is accepted |
| AddMenuItem.AddMenuItemScreen.OnCreated | screens/menu/AddMenuItemScreen.js:129-136 | The loader goes; the screen closes exactly on success |
| AddMenuItem.SubmittedItemIsPositive | screens/menu/AddMenuItemScreen.js:107-137 | An accepted form creates an item with a positive price and a positive preparation time |
| EditMenuItem.FormFromItemFields | screens/menu/EditMenuItemScreen.js:61-73 | The loaded form holds the item's text, its numbers as text and its flags, with no new image, and is always "available" |
| EditMenuItem.OriginalImage | screens/menu/EditMenuItemScreen.js:75-77 | The item's image is kept as the original only when it is set and is not the placeholder |
| EditMenuItem.UpdateRequestImage | screens/menu/EditMenuItemScreen.js:160-172 | The update sends a newly picked image; otherwise it sends the original image when there is one |
| EditMenuItem.UpdateRequestOtherField | screens/menu/EditMenuItemScreen.js:160-172 | Every field other than the image is sent as the create payload would send it |
| EditMenuItem.LoadedItemAccepted | screens/menu/EditMenuItemScreen.js:56-86 | A loaded item with text in every field and positive numbers passes validation unchanged |
| EditMenuItem.UnchangedEditSendsNumbers | screens/menu/EditMenuItemScreen.js:153-183 | Saving unchanged sends back the item's own price and preparation time |
| EditMenuItem.UnchangedEditSendsFields | screens/menu/EditMenuItemScreen.js:153-183 | Saving unchanged sends back the item's own name, category, flags and original image |
| EditMenuItem.EditMakesUnavailableItemAvailable | screens/menu/EditMenuItemScreen.js:72 | As written: saving an unavailable item unchanged marks it available |
| EditMenuItem.CorrectedEditKeepsAvailability | screens/menu/EditMenuItemScreen.js:72 | Corrected: saving unchanged sends the item's own availability |
| EditMenuItem.EditMenuItemScreen.constructor | screens/menu/EditMenuItemScreen.js:35-47 | The screen starts loading on the initial form |
| EditMenuItem.EditMenuItemScreen.OnItemLoaded | screens/menu/EditMenuItemScreen.js:56-86 | A loaded item fills the form and sets the original image; a failure alerts and closes the screen |
| EditMenuItem.EditMenuItemScreen.HandleChange | screens/menu/EditMenuItemScreen.js:92-105 | Editing sets one field and clears only its error |
| EditMenuItem.EditMenuItemScreen.Validate | screens/menu/EditMenuItemScreen.js:125-151 | The error state becomes the menu form errors, and the form is valid exactly when it is accepted |
| EditMenuItem.EditMenuItemScreen.HandleUpdate | screens/menu/EditMenuItemScreen.js:153-183 | The update request is sent exactly when the form is accepted |
| EditMenuItem.EditMenuItemScreen.OnUpdated | screens/menu/EditMenuItemScreen.js:174-182 | The update loader goes; the screen closes exactly on success |
| EditMenuItem.EditMenuItemScreen.OpenDeleteModal | screens/menu/EditMenuItemScreen.js:212 | The header's delete button opens the confirmation |
| EditMenuItem.EditMenuItemScreen.HandleDelete | screens/menu/EditMenuItemScreen.js:185-198 | Confirming closes the dialog and starts deleting |
| EditMenuItem.EditMenuItemScreen.OnDeleted | screens/menu/EditMenuItemScreen.js:185-198 | The screen closes exactly on success; the loader stays only after a success |
| EditProfile.ProfileErrorsMeaning | screens/profile/EditProfileScreen.js:81-121 | A profile field has an error exactly when its rule fails, with that rule's message |
| EditProfile.ProfileErrorsAt | screens/profile/EditProfileScreen.js:81-121 | For each field: an error exactly when its rule fails, with its message |
| EditProfile.CheckProfileRule | screens/profile/EditProfileScreen.js:81-121 | One field's check gives its rule's verdict |
| EditProfile.CollectProfileErrors | screens/profile/EditProfileScreen.js:81-121 | Building the error map rule by rule gives the profile errors |
| EditProfile.ProfileAcceptedIffNoErrors | screens/profile/EditProfileScreen.js:120 | The profile is accepted exactly when it has no errors |
| EditProfile.CuisineListEntries | screens/profile/EditProfileScreen.js:132 | Splitting the cuisines gives at least one entry, each trimmed and without a comma |
| EditProfile.CuisineRoundTrip | screens/profile/EditProfileScreen.js:33 | Joining trimmed cuisines with ", " and splitting them back gives the same list |
| EditProfile.ProfileRequestKeeps | screens/profile/EditProfileScreen.js:130-136 | The request has the form's fields and the converted ones; every field not converted is sent as the form holds it |
| EditProfile.AcceptedAmountSent | screens/profile/EditProfileScreen.js:123-162 | An accepted, non-empty amount is sent as a number that is not negative |
| EditProfile.AcceptedDeliveryTimeSent | screens/profile/EditProfileScreen.js:123-162 | An accepted, non-empty delivery time is sent as a positive number |
| EditProfile.ClearedAmountSentAsNaN | screens/profile/EditProfileScreen.js:95-109 | A cleared amount passes validation and is sent as NaN |
| EditProfile.UnchangedProfileRoundTrip | screens/profile/EditProfileScreen.js:27-39 | Saving the profile unchanged sends back the restaurant's own cuisines, minimum order and logo |
| EditProfile.EditProfileScreen.constructor | screens/profile/EditProfileScreen.js:27-46 | The form is loaded from the restaurant, and its logo and cover are kept as originals |
| EditProfile.EditProfileScreen.HandleChange | screens/profile/EditProfileScreen.js:48-61 | Editing sets one field and clears only its error |
| EditProfile.EditProfileScreen.Validate | screens/profile/EditProfileScreen.js:81-121 | The error state becomes the profile errors, and the form is valid exactly when it is accepted |
| EditProfile.EditProfileScreen.HandleSubmit | screens/profile/EditProfileScreen.js:123-162 | The update request is sent exactly when the profile is accepted |
| EditProfile.EditProfileScreen.OnSubmitted | screens/profile/EditProfileScreen.js:153-161 | The loader goes; the screen closes exactly on success |
| OrderDetail.StatusFlowDistinct | screens/orders/OrderDetailScreen.js:73-88 | The restaurant's status flow has no repeated status |
| OrderDetail.NextStatus | screens/orders/OrderDetailScreen.js:73-88 | A status has a next one exactly when it is in the flow and is not ready-for-pickup; the next one is the following flow entry |
| OrderDetail.NextStatusTable | screens/orders/OrderDetailScreen.js:73-88 | Pending moves to accepted, then to preparing, then to ready-for-pickup, which has no next status |
| OrderDetail.NoNextStatusOutsideFlow | screens/orders/OrderDetailScreen.js:73-88 | The rider stages, delivered and cancelled have no next status |
| OrderDetail.CanCancelAtFlowStart | screens/orders/OrderDetailScreen.js:124 | An order can be cancelled exactly at the start of the flow, where its next status is accepted |
| OrderDetail.StatusBadgeType | screens/orders/OrderDetailScreen.js:90-108 | The badge is warning for pending, info for the six in-progress statuses, success for delivered, error for cancelled and default for an unknown status |
| OrderDetail.StatusLabel | screens/orders/OrderDetailScreen.js:142 | The label is the status in upper case with only its first underscore made a space |
| OrderDetail.StatusLabelReadyForPickup | screens/orders/OrderDetailScreen.js:142 | Ready-for-pickup shows as "READY FOR_PICKUP" |
| OrderDetail.OrderDetailScreen.constructor | screens/orders/OrderDetailScreen.js:37-48 | The screen starts loading with no order and no dialog |
| OrderDetail.OrderDetailScreen.OnOrderLoaded | screens/orders/OrderDetailScreen.js:37-48 | A loaded order is shown; a failure alerts and closes the screen |
| OrderDetail.OrderDetailScreen.OpenStatusModal | screens/orders/OrderDetailScreen.js:68-71 | The chosen status is remembered and the confirmation opens |
| OrderDetail.OrderDetailScreen.CloseStatusModal | screens/orders/OrderDetailScreen.js:50-66 | The confirmation closes and nothing else changes |
| OrderDetail.OrderDetailScreen.HandleStatusChange | screens/orders/OrderDetailScreen.js:50-66 | A status update is requested exactly when a status was chosen |
| OrderDetail.OrderDetailScreen.OnStatusUpdated | screens/orders/OrderDetailScreen.js:50-66 | A success shows the updated order with an alert naming the status; a failure keeps the order and alerts |
| OrderItem.GetStatusInfo | components/orders/OrderItem.js:11-32 | A known status gets its badge and caption; an unknown one gets the default badge with the raw text |
| OrderItem.RiderStagesShareBadge | components/orders/OrderItem.js:11-32 | The three rider stages all show "On The Way"; only ready-for-pickup uses the primary badge |
| OrderItem.BadgeIdentifiesStatus | components/orders/OrderItem.js:11-32 | Two statuses with the same badge and caption are equal or are both rider stages |
| OrderItem.KnownBadgeIdentifies | components/orders/OrderItem.js:11-32 | Among known statuses, only the rider stages share a badge and caption |
| OrderItem.SumQuantitiesIsTotal | components/orders/OrderItem.js:78 | The running sum of quantities is the start value plus the total |
| OrderItem.ItemCount | components/orders/OrderItem.js:78 | The item count is the total quantity, and 0 for no items |
| OrderItem.ItemCountAppend | components/orders/OrderItem.js:78 | The item count of two lists joined is the sum of their counts |
| OrderItem.ItemCountBounds | components/orders/OrderItem.js:78 | With quantities not negative, the count is at least every single quantity |
| RecentOrderItem.SameAsOrderItem | components/orders/RecentOrderItem.js:10-31 | The recent-order row classifies every status as the order row does |
| RecentOrderItem.OrderNumber | components/orders/RecentOrderItem.js:53 | The number shown is "#" and the id's last six characters, or the whole id when shorter |
| StatusConsistency.DetailAndRowBadgesAgree | screens/orders/OrderDetailScreen.js:90-108 | The detail badge and the row badge agree on every status except ready-for-pickup, which shows as info and as primary |
| OrderStatusStepper.FlowStatuses | components/orders/OrderStatusStepper.js:10-36 | The stepper's statuses are its flow entries in order |
| OrderStatusStepper.FlowIsStatusFlowThenDelivered | components/orders/OrderStatusStepper.js:10-36 | The stepper's steps are the detail screen's flow followed by delivered |
| OrderStatusStepper.FlowStatusesDistinct | components/orders/OrderStatusStepper.js:10-36 | No step repeats a status |
| OrderStatusStepper.CurrentIndex | components/orders/OrderStatusStepper.js:62-64 | The current index is the step with that status, or -1 when no step has it |
| OrderStatusStepper.StatusTimestamp | components/orders/OrderStatusStepper.js:67-72 | A step's time comes from the first history entry for its status, and is absent when there is none |
| OrderStatusStepper.Render | components/orders/OrderStatusStepper.js:39-141 | Cancelled shows only the banner. Otherwise every step shows, active up to the current one, with a filled connector before it and none after the last |
| OrderStatusStepper.ActiveStepsCount | components/orders/OrderStatusStepper.js:76-78 | The number of active steps is the current index plus one |
| OrderStatusStepper.NoActiveStepOutsideFlow | components/orders/OrderStatusStepper.js:62-78 | A status outside the steps, other than cancelled, lights no step |
| OrderStatusStepper.RiderStagesOutsideFlow | components/orders/OrderStatusStepper.js:10-36 | The rider stages are not steps, so an order with a rider shows no progress |
| OrdersScreen.InitialFilter | screens/orders/OrdersScreen.js:26 | The route's filter is used when one is given; otherwise "all" |
| OrdersScreen.FilterStatus | screens/orders/OrdersScreen.js:35-42 | A filter selects a status exactly when it is a chip other than "all" |
| OrdersScreen.OptionIdsDistinct | screens/orders/OrdersScreen.js:35-42 | No two chips share an id |
| OrdersScreen.FilterStatusOfChip | screens/orders/OrdersScreen.js:64-80 | Each chip other than "all" selects its own status |
| OrdersScreen.FilterStatusTable | screens/orders/OrdersScreen.js:35-42 | Each chip maps to its status: pending, preparing, ready-for-pickup, delivered or cancelled |
| OrdersScreen.FilterOrders | screens/orders/OrdersScreen.js:64-80 | With a selected status, exactly the orders with that status remain, in order; otherwise all orders remain |
| OrdersScreen.OutsideChipsOnlyUnfiltered | screens/orders/OrdersScreen.js:64-80 | An order whose status has no chip is listed only under "all" |
| OrdersScreen.AcceptedAndRiderStagesAreNoChips | screens/orders/OrdersScreen.js:35-42 | Accepted and the rider stages have no chip |
| OrdersScreen.OrdersScreen.constructor | screens/orders/OrdersScreen.js:26 | The screen opens on the route's filter with no orders |
| OrdersScreen.OrdersScreen.HandleFilterChange | screens/orders/OrdersScreen.js:82-85 | Choosing a chip shows the orders filtered by it |
| OrdersScreen.OrdersScreen.OnInitialFilterParam | screens/orders/OrdersScreen.js:93-97 | A new route filter that differs from the active one becomes active and refilters |
| OrdersScreen.OrdersScreen.OnOrdersFetched | screens/orders/OrdersScreen.js:44-57 | Fetched orders replace the list, filtered by the issuing render's filter; a failure alerts and keeps the list |
| OrdersScreen.OrdersScreen.HandleRefresh | screens/orders/OrdersScreen.js:59-62 | A refresh keeps the list matching the active chip |
| OrdersScreen.OrdersScreen.FocusRefetch | screens/orders/OrdersScreen.js:87-91 | As written: a refetch on focus filters by the filter the screen opened with |
| OrdersScreen.OrdersScreen.FocusRefetchCorrected | screens/orders/OrdersScreen.js:87-91 | Corrected: a refetch on focus keeps the list matching the active chip |
| OrdersScreen.PendingChipHidesDelivered | screens/orders/OrdersScreen.js:64-80 | The "pending" chip never lists a delivered order |
| OrdersScreen.FocusRefetchAfterFilterChange | screens/orders/OrdersScreen.js:87-91 | As written: after choosing "pending", a focus refetch lists a delivered order under that chip |
| MenuScreen.UniqueCategories | screens/menu/MenuScreen.js:47-49 | The categories have no repeats, include every item's category and nothing else, and follow first-appearance order |
| MenuScreen.KeepMeaning | screens/menu/MenuScreen.js:98-117 | An item is kept exactly when it is in the chosen category (or "all") and the query is empty or found in its name or description, ignoring case |
| MenuScreen.FilteredItemsMeaning | screens/menu/MenuScreen.js:98-117 | The list shown is the items kept, in menu order; with "all" and no query it is the whole menu |
| MenuScreen.WithAvailability | screens/menu/MenuScreen.js:80-86 | Toggling changes only the items with that id, and only their availability |
| MenuScreen.FilterCommutesWithAvailability | screens/menu/MenuScreen.js:80-86 | Toggling availability and filtering can be done in either order |
| MenuScreen.MenuScreen.constructor | screens/menu/MenuScreen.js:30-38 | The screen starts loading with an empty menu, the "all" category and no query |
| MenuScreen.MenuScreen.FilterItems | screens/menu/MenuScreen.js:125-127 | The list shown becomes the menu filtered by the category and query |
| MenuScreen.MenuScreen.SetSearchQuery | screens/menu/MenuScreen.js:157 | Typing sets the query, and the list follows it |
| MenuScreen.MenuScreen.SelectCategory | screens/menu/MenuScreen.js:185 | Choosing a category sets it, and the list follows it |
| MenuScreen.MenuScreen.OnMenuLoaded | screens/menu/MenuScreen.js:40-60 | A loaded menu replaces the items and categories, and the list follows; a failure alerts and keeps them |
| MenuScreen.MenuScreen.ApplyAvailability | screens/menu/MenuScreen.js:80-86 | Both the menu and the list shown get the new availability |
| MenuScreen.MenuScreen.HandleToggleAvailability | screens/menu/MenuScreen.js:67-96 | A success updates the item in both lists and alerts with its new state; a failure alerts and changes nothing |
| Dashboard.RecentOrders | screens/dashboard/DashboardScreen.js:62 | The recent list is the first five orders, or all when fewer |
| Dashboard.PendingCountCounts | screens/dashboard/DashboardScreen.js:65-68 | The pending figure counts the orders whose status is pending |
| Dashboard.PendingCountMatchesOrdersChip | screens/dashboard/DashboardScreen.js:65-68 | The pending figure equals the length of the orders screen's "pending" list |
| Dashboard.StatusColor | screens/dashboard/DashboardScreen.js:133-144 | Open is green, closed red, busy amber, and any other status gray |
| Dashboard.StatusBadge | screens/dashboard/DashboardScreen.js:170-175 | The badge is success exactly for an open restaurant and error otherwise |
| Dashboard.ToggleLabel | screens/dashboard/DashboardScreen.js:197-202 | An open restaurant offers to close; any other offers to open |
| Dashboard.PendingButtonTitle | screens/dashboard/DashboardScreen.js:236-242 | The button shows exactly when orders are pending; its title names the count, plural only above one |
| Dashboard.ChartData | screens/dashboard/DashboardScreen.js:267 | The chart shows the last seven days, all days when fewer, and none without data |
| Dashboard.ToggledAlert | screens/dashboard/DashboardScreen.js:85-102 | A success alert names the new status as open or closed; a failure gives the error alert |
| Dashboard.DashboardScreen.constructor | screens/dashboard/DashboardScreen.js:46-78 | The dashboard starts loading with no data |
| Dashboard.DashboardScreen.FetchRestaurantData | screens/dashboard/DashboardScreen.js:46-78 | The three loads run in order and the first failure stops the rest; only full success sets the recent and pending orders without an alert |
| Dashboard.DashboardScreen.HandleRefresh | screens/dashboard/DashboardScreen.js:80-83 | A pull-to-refresh shows the spinner |
| Dashboard.DashboardScreen.OpenStatusModal | screens/dashboard/DashboardScreen.js:197-202 | The toggle button opens the confirmation |
| Dashboard.DashboardScreen.HandleToggleStatus | screens/dashboard/DashboardScreen.js:85-102 | The dialog closes; a success replaces the restaurant, and the alert follows the reply |
| Analytics.DailySeriesMeaning | screens/analytics/AnalyticsScreen.js:118-153 | The daily charts show the last seven days (or fewer) with labels and values from the same day; without data, no labels and a single zero |
| Analytics.TopItemLabel | screens/analytics/AnalyticsScreen.js:158-160 | A name longer than twelve characters is cut to twelve and ends in "..."; a shorter one shows whole |
| Analytics.TopItemLabels | screens/analytics/AnalyticsScreen.js:156-166 | One shortened label per top item, none without data |
| Analytics.TopItemSeries | screens/analytics/AnalyticsScreen.js:163 | One order count per top item, a single zero without data |
| Analytics.TopItemsAligned | screens/analytics/AnalyticsScreen.js:156-166 | With data, the top-item labels and values line up one to one |
| Analytics.BestCategory | screens/analytics/AnalyticsScreen.js:383-385 | The best category is the first top item's category when it has one, else "None" |
| Analytics.MostActiveIndex | screens/analytics/AnalyticsScreen.js:394-398 | The most active day has the largest order count, and no earlier day reaches it |
| Analytics.MostActiveUnique | screens/analytics/AnalyticsScreen.js:394-398 | Only the first day with the largest count is chosen |
| Analytics.MostActiveDay | screens/analytics/AnalyticsScreen.js:394-398 | With days, the most active one is among them with no day above it; without days there is none |
| Analytics.AnalyticsScreen.constructor | screens/analytics/AnalyticsScreen.js:28-31 | The screen starts loading the week's figures, with a fetch due |
| Analytics.AnalyticsScreen.FetchAnalytics | screens/analytics/AnalyticsScreen.js:35-57 | A request for the active period is sent exactly when there is a restaurant id; otherwise both loaders go |
| Analytics.AnalyticsScreen.OnAnalyticsReply | screens/analytics/AnalyticsScreen.js:35-57 | A reply sets the figures; a failure alerts; the loaders go either way |
| Analytics.AnalyticsScreen.RunEffect | screens/analytics/AnalyticsScreen.js:59-61 | The effect fetches only when due, and keeps the loader from showing without a fetch |
| Analytics.AnalyticsScreen.HandleRefresh | screens/analytics/AnalyticsScreen.js:63-66 | A refresh requests the active period when there is a restaurant id |
| Analytics.AnalyticsScreen.HandlePeriodChange | screens/analytics/AnalyticsScreen.js:68-71 | As written: the loader shows on every tap, and a fetch is due only for a new period |
| Analytics.AnalyticsScreen.HandlePeriodChangeCorrected | screens/analytics/AnalyticsScreen.js:68-71 | Corrected: tapping the active period changes nothing, so the loader never shows without a fetch |
| Analytics.SamePeriodTapHangs | screens/analytics/AnalyticsScreen.js:68-71 | As written: tapping the active period leaves the loader up with no fetch |
| Analytics.SamePeriodTapCorrected | screens/analytics/AnalyticsScreen.js:68-71 | Corrected: the same tap keeps the figures and no loader hangs |
| AlertContext.Hidden | context/AlertContext.js:27-29 | Hiding keeps the alert's kind and message and makes it invisible |
| AlertContext.HiddenIdempotent | context/AlertContext.js:27-29 | Hiding twice is the same as hiding once |
| AlertContext.AlertProvider.constructor | context/AlertContext.js:8-12 | The provider starts with no visible alert and no timers |
| AlertContext.AlertProvider.ShowAlert | context/AlertContext.js:14-25 | The alert becomes visible with its kind and message, and one more timer is pending |
| AlertContext.AlertProvider.HideAlert | context/AlertContext.js:27-29 | The alert is hidden |
| AlertContext.AlertProvider.OnTimerFired | context/AlertContext.js:22-24 | A timer firing hides the alert |
| AlertContext.ShowThenExpire | context/AlertContext.js:14-25 | Showing an alert and letting its timer fire leaves it hidden with its text |
| AlertContext.EarlierTimerHidesLaterAlert | context/AlertContext.js:22-24 | A first alert's timer also hides a second alert shown before it fires |

## Left out

- Floating point: prices, amounts and revenue are reals, and `parseFloat` accepts decimal text without an exponent. Rounding and `toFixed` formatting are not modelled.
- Numbers shown in a form are whole numbers. A loaded price or preparation time is an integer, written out by `IntToString`; fractional prices are not modelled.
- Dates and locale: a chart label is the server's date string, and a status time is the raw timestamp text. `toLocaleDateString` and `moment` formatting are not modelled.
- JSON: the stored user is a string the model builds, and `JSON.parse` of it is the `parsed` parameter of `AppSession.App.Bootstrap`.
- Concurrency and timing: React batching, effects that overlap, and requests still in flight when another starts. Each handler runs to completion in the model.
- Rendering: layout, styles, icons and the charts' drawing. Only the data a view shows is modelled.
- Navigation: `navigation.goBack()` and `navigate` are a `goBack` flag or a screen value.
- The image picker and permission prompts: a picked image is a form value.
- Api.OnError: a storage fault inside the interceptor is not modelled. Its reads and writes always complete.
- AuthService.StoreLoginData: a login reply without a user is not modelled. The user is always present.
- The restaurant-details fetch that `login` makes after storing the tokens (services/authService.js:36-49) is not modelled. It only adds a restaurant id to the stored user.
- `resetPassword` (services/authService.js:78) is not modelled. No screen in this model calls it.
- The order, menu, restaurant and analytics services are not part of this model. They only forward a request through `api`, and each is a reply parameter here.
- `user.name || "Customer"` and other display fallbacks in order rows are not modelled.
- Case folding is ASCII only; Unicode case mapping is not modelled.
- Form values are a small union (text, flag, number, list, none). `parseFloat` and `parseInt` are applied to a value's text, and to "" for a value that is not text.
- The theme (context/ThemeContext.js) is not part of this model. Colours are names.
- AlertContext.EarlierTimerHidesLaterAlert shows overlapping timers on one example only; the order in which timers fire is not modelled in general.
- The analytics screen's average order value and the other summary cards are not modelled. They only display server figures.
- The profile screen that shows the restaurant, the splash screen and the shared components other than the order rows and the stepper are not part of this model.

## Findings

| source | as written | input that shows it | evidently intended | confidence | as-written member | corrected member |
|---|---|---|---|---|---|---|
| screens/orders/OrdersScreen.js:87-91 | The focus callback is memoised with no dependencies, so a refetch on focus filters by the filter of the first render | Open the orders screen on "all", choose "pending", leave and come back: a delivered order is listed under "pending" | Filter by the chip that is selected | not executed | OrdersScreen.FocusRefetchAfterFilterChange | OrdersScreen.OrdersScreen.FocusRefetchCorrected |
| screens/analytics/AnalyticsScreen.js:68-71 | A period tap sets the loader on, but the fetch only runs when the period changes | Tap "week" while "week" is active: the loader stays up and no request is sent | Ignore a tap on the active period, or fetch again | not executed | Analytics.SamePeriodTapHangs | Analytics.SamePeriodTapCorrected |
| screens/menu/EditMenuItemScreen.js:72 | `available: item.available \|\| true` is always true | Open an unavailable item and save it unchanged: it is sent as available | Keep the item's own availability | not executed | EditMenuItem.EditMakesUnavailableItemAvailable | EditMenuItem.CorrectedEditKeepsAvailability |
| screens/auth/LoginScreen.js:57-72 | `login` stores the token and user before the screen checks the role and the tokens, and a turned-away reply does not remove them | A customer account logs in: it is turned away, yet the next start restores its session and shows the main tabs | Remove the stored session when a reply is turned away | not executed | Login.RejectedLoginRestoredOnRestart | Login.TurnedAwayLeavesNoSession |
