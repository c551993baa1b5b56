# Restaurant ordering app and M-Pesa relay, modelled in Dafny

This project models the core of a food-ordering system with two parts.

- **The relay** (`server.js`) is a small Express server. It obtains an
  OAuth token from the Safaricom sandbox with an HTTP Basic credential
  (section 2 of RFC 7617). It builds the STK-push payload, whose password is
  the Base64 (section 4 of RFC 4648) of the UTF-8 bytes of short code,
  passkey and a 14-character timestamp. It sends that payload with the token
  as a Bearer credential (section 2.1 of RFC 6750). It acknowledges
  callbacks.
- **The iOS app** (`myProject/*.swift`) holds a shopping cart and the
  records of orders, meals, restaurants and users. Its screens:
  - the restaurant dashboard: order workflow buttons, status badge, card
    title, revenue, daily sales, adding meals, toggling availability and
    logging out;
  - sign-up with its password rules;
  - checkout with its nine-digit phone field;
  - the customer's order history;
  - the receipt;
  - the root view, which routes by role.

Every route of the relay is a function from the outcomes of its outbound
HTTP calls to the calls it made and the reply it sent. The clock is a
parameter, as the UTC fields of the instant.

On the app side:
- What computes is a function.
- What an object or a view's `@State` updates in place is a `class` with
  those fields, and its methods carry `modifies` clauses.
- Firestore and Firebase Auth are not called. Every request a screen sends
  is appended to a log field, and the outcome of a request (an error, a
  snapshot, decoded documents) is a parameter of the method that handles
  it.

Files and modules:

| file | module | models |
|---|---|---|
| `Text.dfy` | `Text` | `Option`, ASCII case mapping, decimal rendering and parsing, `filter` |
| `Base64.dfy` | `Base64` | UTF-8 encoding, RFC 4648 Base64 encoder and strict decoder |
| `IsoTimestamp.dfy` | `IsoTimestamp` | `toISOString`, the separator strip and `slice(0, 14)` |
| `Relay.dfy` | `Relay` | `server.js`: JSON values, payload, credentials, the three routes |
| `Models.dfy` | `Models` | `Models.swift` |
| `Cart.dfy` | `Cart` | `CartManager.swift` |
| `Dashboard.dfy` | `Dashboard` | the computing parts of `RestaurantDashboardView.swift` |
| `DashboardScreen.dfy` | `DashboardScreen` | the state changes of `RestaurantDashboardView.swift` |
| `Register.dfy` | `Register` | `RegisterView.swift` |
| `Checkout.dfy` | `Checkout` | `CheckoutView.swift` |
| `MyOrders.dfy` | `MyOrders` | `MyOrdersView.swift` |
| `Receipt.dfy` | `Receipt` | `ReceiptView.swift` |
| `App.dfy` | `App` | `myProjectApp.swift` |

Notes:
- **Asynchronous work is split into steps.** The two-second delay of the
  checkout and the completion callback of the meal write are each modelled
  as two steps.
- **Cart ids compare as optionals.** `addToCart` matches entries with
  `String?` equality. Two meals without an id therefore count as the same
  meal (`Cart.MealsWithoutIdMerge`).
- **The relay does not read the gateway's answer.** Every payment call
  that comes back without an error is relayed as `success: true`, even one
  without a `ResponseCode` (`Relay.EmptyGatewayReplySucceeds`). An HTTP
  error status is what makes axios throw, and only that gives
  `success: false`.
- **The phone field is not always filtered.** When more than nine digits
  are typed, `onChange` leaves the text as typed, non-digits included
  (`Checkout.LongInputKept`).

## Model

| member | source | states |
|---|---|---|
| Text.Lower | myProject/myProjectApp.swift:21 | `lowercased()` keeps the length and maps each character by ASCII lower-casing |
| Text.Upper | myProject/RestaurantDashboardView.swift:180 | `uppercased()` keeps the length and maps each character by ASCII upper-casing |
| Text.LowerIdempotent | myProject/MyOrdersView.swift:375 | lower-casing twice is lower-casing once |
| Text.LowerOfUpper | myProject/MyOrdersView.swift:375 | lower-casing the capitalised text gives the lower-cased text |
| Text.DigitsRoundTrip | server.js:51-54 | a fixed-width zero-padded decimal rendering has that width, is all digits and parses back to the number |
| Text.NatToStringRoundTrip | myProject/MyOrdersView.swift:50 | the decimal rendering of a number is all digits and parses back to it |
| Text.FilterAppend | myProject/CheckoutView.swift:440 | filtering a concatenation concatenates the filtered parts |
| Text.FilterKeepsAll | myProject/CheckoutView.swift:440 | filtering a text all of whose characters pass leaves it unchanged |
| Text.FilterDropsAll | server.js:53 | filtering a text none of whose characters pass leaves nothing |
| Base64.Utf8Append | server.js:55 | the UTF-8 bytes of a concatenation are the concatenated bytes |
| Base64.Utf8OfAscii | server.js:20 | an ASCII text encodes to one byte per character, its code |
| Base64.Utf8 | server.js:55 | `Buffer.from` of a text: the UTF-8 bytes of section 3 of RFC 3629, at least one byte per character; Utf8Append and Utf8OfAscii state its structure |
| Base64.SextetRoundTrip | server.js:20 | each 6-bit value maps to an alphabet character that maps back to it |
| Base64.Encode | server.js:55 | Base64 output has length 4 * ceil(n / 3) |
| Base64.DecodeEncode | server.js:55 | decoding the encoding of any bytes gives those bytes back |
| Base64.EncodeDecode | server.js:20 | every string the strict decoder accepts is the encoding of what it decodes to |
| Base64.RfcVectors | server.js:55 | "f", "fo" and "foo" encode to "Zg==", "Zm8=" and "Zm9v", the vectors of section 10 of RFC 4648 |
| Base64.RfcVectorTwoBlocks | server.js:55 | "foobar" encodes to "Zm9vYmFy", the two-block vector of section 10 of RFC 4648 |
| IsoTimestamp.StripSeparators | server.js:53 | the result of `.replace(/[-:TZ.]/g, "")` contains no separator |
| IsoTimestamp.SliceTo | server.js:54 | `.slice(0, n)` is a prefix of length min(n, length) |
| IsoTimestamp.IsoString | server.js:52 | the `toISOString()` text of the instant; StrippedIso states what is left of it once the separators go |
| IsoTimestamp.GatewayTimestamp | server.js:51-54 | the timestamp sent; TimestampIsCompact, TimestampRoundTrip, TimestampAfterYear9999 and TimestampBeforeYear0 state what it is in each range of years |
| IsoTimestamp.StrippedIso | server.js:51-53 | the stripped ISO string is the year text without separators, then the two-digit month, day, hour, minute, second and the three-digit milliseconds |
| IsoTimestamp.TimestampIsCompact | server.js:51-54 | for years 0 to 9999 the timestamp is exactly `yyyyMMddHHmmss`, 14 digits |
| IsoTimestamp.TimestampAfterYear9999 | server.js:51-54 | after year 9999 the timestamp starts with `+` and so is not all digits |
| IsoTimestamp.TimestampBeforeYear0 | server.js:51-54 | before year 0 the minus sign is stripped and the timestamp is six year digits, then month, day, hour and minute (the seconds are cut off) |
| IsoTimestamp.ParseTimestamp | server.js:51-54 | a `yyyyMMddHHmmss` reader accepts exactly 14-digit strings |
| IsoTimestamp.TimestampRoundTrip | server.js:51-54 | reading the timestamp back gives the instant's year, month, day, hour, minute and second |
| Relay.Member | server.js:48 | reading a member gives the value of the last member with that key, and nothing when no member has it |
| Relay.Interpolate | server.js:76 | the text `${v}` makes of a JSON value, as the Bearer header uses it; AccessTokenRead states it for a string token |
| Relay.JsRound | server.js:62 | `Math.round` is within one half of its argument, halves rounding up |
| Relay.RoundWholeAndHalves | server.js:62 | a whole amount is sent unchanged, and an amount half-way between two integers goes to the upper one, negative amounts included |
| Relay.FormattedPhone | server.js:37 | the formatted phone is `254` followed by the number as given |
| Relay.Password | server.js:55 | the password decodes to the UTF-8 bytes of short code, passkey and timestamp, concatenated |
| Relay.BuildPayload | server.js:57-69 | the STK-push payload for the request and the instant; PayloadFields and PayloadTimestamp state every field |
| Relay.BasicCredential | server.js:43 | the Basic credential decodes to the UTF-8 bytes of `key:secret` |
| Relay.AccessToken | server.js:48 | reading `access_token` fails exactly when the token response is `null` |
| Relay.AccessTokenRead | server.js:48 | the token is the text of the last `access_token` member wherever the other members stand, as in the gateway's `{access_token, expires_in}`, and "undefined" when there is none |
| Relay.ErrorDetail | server.js:84-87 | the error detail is the error response's body when there is one and it is truthy, else the error's message |
| Relay.PayloadFields | server.js:51-69 | every payload field: phone and amount from the request, short code, timestamp, a password that decodes to the bytes of short code, passkey and timestamp, and the four constants |
| Relay.PayloadTimestamp | server.js:51-60 | for years 0 to 9999 the payload's timestamp is 14 digits naming the instant, and the password encodes that same timestamp |
| Relay.BasicCredentialDecodes | server.js:20 | the Basic credential decodes to the bytes of key, a colon (0x3A) and secret |
| Relay.StkPush | server.js:33-90 | one or two calls, the token call first; the payment call is made exactly when the token call answered with non-null data; the reply is 200 exactly when both calls succeeded, else 500 |
| Relay.TokenFailureStops | server.js:41-48 | a failed token call makes no payment call, whatever the gateway would answer, and replies 500 with the error detail |
| Relay.NullTokenStops | server.js:44-48 | a token call answered with `null` makes no payment call and replies 500 with the message of the TypeError that reading `access_token` throws |
| Relay.StkPushSucceeds | server.js:74-81 | both calls succeeded: the payment call carries `Bearer <token>` and the built payload, and the reply wraps the gateway body |
| Relay.PushFailureReported | server.js:83-89 | a failed payment call after a token made the same two calls as a successful one, the Bearer token and the built payload included, and gives 500 with `success: false` and the error detail |
| Relay.EmptyGatewayReplySucceeds | server.js:79-81 | a payment call answered with `{}`, no `ResponseCode`, is still relayed as 200 with `success: true` |
| Relay.EndToEnd | server.js:33-90 | end to end for an amount of 300: reply 200 wrapping the body, `PartyA` is `254` and the number, amount 300, `Bearer <token>` |
| Relay.TokenRoute | server.js:19-30 | `/token` makes the Basic token call and relays its data with 200, or replies 500 with `{error: message}` |
| Relay.Callback | server.js:93-96 | every callback is answered with 200 and `{success: true}` |
| Models.Order.MealName | myProject/Models.swift:18-20 | no meal name exactly when there are no items, else the first item's name |
| Models.Order.AmountPaid | myProject/Models.swift:22-24 | the amount paid is the stored total |
| Models.NewUser | myProject/Models.swift:55-60 | a user made without a restaurant id has none |
| Models.Decoded | myProject/MyOrdersView.swift:245-247 | `compactMap` keeps an order exactly when its document decoded and is never longer than the documents; DecodedAppend and DecodedSingle pin its order and count |
| Models.DecodedAppend | myProject/MyOrdersView.swift:245-247 | decoding a concatenation concatenates the decoded parts, so the orders keep the query's order (newest first) and their multiplicity |
| Models.DecodedSingle | myProject/MyOrdersView.swift:245-247 | a document that decodes contributes exactly its order, one that does not contributes nothing |
| Cart.FirstIndexOf | myProject/CartManager.swift:7 | `firstIndex(where:)`: nothing exactly when no entry has the id, else the first entry that has it |
| Cart.CartManager.FirstIndex | myProject/CartManager.swift:7 | the linear search returns `FirstIndexOf` of the cart |
| Cart.CartManager.AddToCart | myProject/CartManager.swift:6-13 | the new cart is `CartAdded` of the old one, and distinct ids stay distinct |
| Cart.CartManager.RemoveFromCart | myProject/CartManager.swift:15-17 | the new cart is `WithoutMeal` of the old one, and distinct ids stay distinct |
| Cart.CartManager.TotalAmount | myProject/CartManager.swift:19-21 | the total of the cart is its left fold, and 0 for an empty cart |
| Cart.WithoutMeal | myProject/CartManager.swift:16 | `removeAll` leaves no entry with the id and never grows the cart |
| Cart.CartAdded | myProject/CartManager.swift:6-13 | adding grows the cart by at most one entry; AddMergesFirstMatch and AddAppendsNew say which case applies |
| Cart.CartTotal | myProject/CartManager.swift:19-21 | the total of discount price times quantity over the entries; TotalAppend, TotalUpdate and the Add/Remove lemmas state how operations move it |
| Cart.AddMergesFirstMatch | myProject/CartManager.swift:7-8 | a present id: same length, the first match gains the quantity, every other entry is unchanged |
| Cart.AddAppendsNew | myProject/CartManager.swift:9-11 | an absent id: exactly one new entry at the end |
| Cart.MealsWithoutIdMerge | myProject/CartManager.swift:7 | two meals without ids merge into one entry |
| Cart.AddKeepsDistinct | myProject/CartManager.swift:6-13 | adding preserves distinct meal ids |
| Cart.WithoutKeeps | myProject/CartManager.swift:16 | an entry survives removal exactly when it was there with another id |
| Cart.RemoveKeepsDistinct | myProject/CartManager.swift:16 | removal preserves distinct meal ids |
| Cart.RemoveAbsent | myProject/CartManager.swift:16 | removing an absent id changes nothing |
| Cart.RemoveIdempotent | myProject/CartManager.swift:16 | removing twice is removing once |
| Cart.RemoveUndoesAdd | myProject/CartManager.swift:6-17 | removing a newly added meal gives the cart back |
| Cart.TotalAppend | myProject/CartManager.swift:20 | the total of a concatenation is the sum of the totals |
| Cart.TotalUpdate | myProject/CartManager.swift:20 | replacing one entry changes the total by the difference of the two lines |
| Cart.AddNewRaisesTotal | myProject/CartManager.swift:9-11 | adding a new meal raises the total by its discount price times the quantity |
| Cart.AddMergedRaisesTotal | myProject/CartManager.swift:7-8 | merging raises the total by the stored entry's discount price times the quantity |
| Cart.AddRaisesTotalByMealPrice | myProject/CartManager.swift:6-21 | when the cart holds the meal at its current price (or not at all), the total rises by exactly price times quantity |
| Cart.RemoveLowersTotal | myProject/CartManager.swift:15-21 | the total of the cart is the total after removal plus the total of the removed lines |
| Dashboard.WorkflowActions | myProject/RestaurantDashboardView.swift:158-170 | pending offers only Mark Ready, ready offers only Mark Delivered, every other status offers nothing |
| Dashboard.WorkflowMovesForward | myProject/RestaurantDashboardView.swift:158-170 | every offered action moves the order exactly one step along pending, ready, delivered |
| Dashboard.StatusActions | myProject/RestaurantDashboardView.swift:158-170 | a card offers at most one workflow button; WorkflowActions says which |
| Dashboard.StatusBadge | myProject/RestaurantDashboardView.swift:179-190 | the badge text is the status in capitals, character by character |
| Dashboard.DarkBadgeIffNoActions | myProject/RestaurantDashboardView.swift:158-190 | the deep-burgundy badge shows exactly on cards without buttons |
| Dashboard.CardTitleWithoutItems | myProject/RestaurantDashboardView.swift:102-106 | without items the title is `Order #` and the order number |
| Dashboard.CardTitleOneItem | myProject/RestaurantDashboardView.swift:98-101 | with one item the title is its meal name alone |
| Dashboard.CardTitleMore | myProject/RestaurantDashboardView.swift:98-101 | with several items the title is the first name, ` + `, a count that parses back to the number of further items, and ` more` |
| Dashboard.CardTitle | myProject/RestaurantDashboardView.swift:98-106 | the card title; CardTitleWithoutItems, CardTitleOneItem and CardTitleMore state its three forms |
| Dashboard.GroupOrdersByDateCorrect | myProject/RestaurantDashboardView.swift:648-654 | one pair per distinct day, strictly ascending, each holding the sum of that day's totals |
| Dashboard.DailySalesSumToRevenue | myProject/RestaurantDashboardView.swift:368 | the daily totals add up to the Revenue figure |
| Dashboard.GroupOrdersByDate | myProject/RestaurantDashboardView.swift:648-654 | the daily sales pairs; GroupOrdersByDateCorrect states them against DayTotal and Days |
| Dashboard.Revenue | myProject/RestaurantDashboardView.swift:368 | the sum of `totalAmount` over the orders; DailySalesSumToRevenue ties it to the daily sales |
| Dashboard.DecodeMeal | myProject/RestaurantDashboardView.swift:539-550 | a decoded meal carries the document's id |
| Dashboard.DecodeMealDefaults | myProject/RestaurantDashboardView.swift:541-549 | for every document and each of the eight fields: present with the cast type gives its value, missing or wrongly typed gives the default (empty text, zero price, available, created now) |
| Dashboard.DecodeWrittenMeal | myProject/RestaurantDashboardView.swift:589-598 | the document `addMeal` writes decodes back to a meal with exactly those fields |
| DashboardScreen.DashboardState.RequestMeals | myProject/RestaurantDashboardView.swift:530-532 | the meals query is sent exactly when the restaurant has an id |
| DashboardScreen.DashboardState.RequestOrders | myProject/RestaurantDashboardView.swift:555-560 | the orders query is sent exactly when the restaurant has an id |
| DashboardScreen.DashboardState.ReceiveMeals | myProject/RestaurantDashboardView.swift:532-552 | an error raises the alert, an absent snapshot empties the meals, a snapshot gives one decoded meal per document, in order |
| DashboardScreen.DashboardState.ReceiveOrders | myProject/RestaurantDashboardView.swift:561-577 | an error raises the alert and keeps loading; a snapshot keeps the orders that decoded and stops loading |
| DashboardScreen.DashboardState.AddMeal | myProject/RestaurantDashboardView.swift:582-600 | nothing without a restaurant id; the price alert when a price does not parse; otherwise exactly one write of the form's document |
| DashboardScreen.DashboardState.MealAdded | myProject/RestaurantDashboardView.swift:600-608 | a write error raises the alert and keeps the form; success clears the form and reloads the meals |
| DashboardScreen.DashboardState.ToggleMealAvailability | myProject/RestaurantDashboardView.swift:611-621 | nothing without a meal id; otherwise a write of the negated flag, then the alert or a reload |
| DashboardScreen.DashboardState.UpdateOrderStatus | myProject/RestaurantDashboardView.swift:623-633 | nothing without an order id; otherwise a write of the new status, then the alert or a reload |
| DashboardScreen.DashboardState.PressAction | myProject/RestaurantDashboardView.swift:158-170 | a workflow button writes its target status, one step ahead of the order's |
| DashboardScreen.DashboardState.Logout | myProject/RestaurantDashboardView.swift:655-665 | success clears the session; failure keeps it and shows `Failed to log out: ` and the error |
| Register.PasswordProblem | myProject/RegisterView.swift:281-297 | a reported problem always has a message |
| Register.AcceptedIff | myProject/RegisterView.swift:281-297 | accepted exactly when the passwords agree, have at least 8 characters, and contain an upper-case letter, a lower-case letter and a number |
| Register.FirstFailureReported | myProject/RegisterView.swift:282-292 | the message is the one of the first failing check: mismatch, then length, then character classes |
| Register.AcceptedMeetsRows | myProject/RegisterView.swift:191-193 | an accepted password shows every requirement row as met |
| Register.RowsMetButRefused | myProject/RegisterView.swift:191-193 | all rows can be met while the mismatched confirmation is still refused |
| Register.RegistrationFor | myProject/RegisterView.swift:256-278 | role `User` exactly registers a client, any other role a restaurant with the fixed image URL; e-mail and password are passed on |
| Register.RegisterForm.ValidatePasswords | myProject/RegisterView.swift:281-297 | returns true exactly when there is no problem; a failure shows its message, success hides the error |
| Register.RegisterForm.Register | myProject/RegisterView.swift:253-279 | no registration unless the passwords pass, then exactly one chosen by role |
| Checkout.ShortInputFiltered | myProject/CheckoutView.swift:439-444 | with at most nine digits the field holds exactly the digits typed |
| Checkout.LongInputKept | myProject/CheckoutView.swift:439-444 | with more than nine digits the text stays as typed, longer than nine |
| Checkout.NineCharactersAreDigits | myProject/CheckoutView.swift:439-444 | a field of exactly nine characters after an edit holds nine digits |
| Checkout.EditIdempotent | myProject/CheckoutView.swift:439-444 | for any typed text, the handler re-run on its own output changes nothing |
| Checkout.IndicatorRule | myProject/CheckoutView.swift:458-463 | nine characters show "Valid number", other non-empty text "Enter 9 digits", empty text nothing; valid exactly when the idle button is enabled |
| Checkout.PromptNamesNumber | myProject/CheckoutView.swift:608 | the prompt names the number as `+254` followed by the field |
| Checkout.PhoneAfterEdit | myProject/CheckoutView.swift:439-444 | a field of at most nine characters after an edit holds the typed text's digits; a longer one holds the typed text |
| Checkout.IndicatorFor | myProject/CheckoutView.swift:458-464 | the hint under the field; IndicatorRule states its three cases |
| Checkout.ConfirmDisabled | myProject/CheckoutView.swift:517 | the confirm button's disabled condition; IndicatorRule ties it to the valid hint |
| Checkout.AlertTitle | myProject/CheckoutView.swift:593 | the alert title; HandlePayment states when each title shows |
| Checkout.CheckoutState.EditPhone | myProject/CheckoutView.swift:439-444 | the field ends as `PhoneAfterEdit` of the typed text |
| Checkout.CheckoutState.BeginPayment | myProject/CheckoutView.swift:601-603 | processing starts; nothing else changes |
| Checkout.CheckoutState.CompletePayment | myProject/CheckoutView.swift:605-614 | processing stops and the alert shows: the prompt and success for nine characters, else the invalid-number message |
| Checkout.CheckoutState.HandlePayment | myProject/CheckoutView.swift:600-616 | success exactly for nine characters, and the alert title says "Payment Initiated!" exactly then |
| MyOrders.PaymentIconOf | myProject/MyOrdersView.swift:374-385 | the icon is one of the four payment icons |
| MyOrders.PaymentIconTable | myProject/MyOrdersView.swift:374-385 | m-pesa and mpesa give the phone, card and credit card the card, cash the banknote, anything else the dollar sign |
| MyOrders.UnknownStatusIsGrey | myProject/MyOrdersView.swift:392-424 | the question-mark icon shows exactly on the grey badge, exactly for unknown statuses |
| MyOrders.KnownStatusIconsDistinct | myProject/MyOrdersView.swift:409-424 | the five known statuses have five different icons |
| MyOrders.CaseInsensitive | myProject/MyOrdersView.swift:374-424 | icons and colours depend on the lower-cased text only |
| MyOrders.CapitalsIgnored | myProject/MyOrdersView.swift:374-424 | capitalising a method or status changes neither its icon nor its colours |
| MyOrders.PaymentIcon | myProject/MyOrdersView.swift:374-385 | the order card's payment icon; PaymentIconTable gives it for every method |
| MyOrders.StatusColors | myProject/MyOrdersView.swift:392-407 | the badge colours; UnknownStatusIsGrey and CaseInsensitive state them |
| MyOrders.StatusIcon | myProject/MyOrdersView.swift:409-424 | the badge icon; KnownStatusIconsDistinct and UnknownStatusIsGrey state it |
| MyOrders.OrderCountLabel | myProject/MyOrdersView.swift:49-51 | the count is hidden exactly when there are no orders |
| MyOrders.OrderCountLabelForms | myProject/MyOrdersView.swift:49-51 | one order reads "1 order"; more read a number that parses back to the count, then " orders" |
| MyOrders.ScreenFor | myProject/MyOrdersView.swift:17-25 | loading wins over an error, an error over the empty state, which shows exactly without orders |
| MyOrders.MyOrdersState.FetchOrders | myProject/MyOrdersView.swift:227-238 | signed out: the login error, loading stops, no listener, and the screen shows that error; signed in: one more listener for the user and nothing else changes |
| MyOrders.MyOrdersState.ReceiveSnapshot | myProject/MyOrdersView.swift:238-249 | an absent snapshot empties the list, a present one keeps the decoded orders; loading stops |
| Receipt.TotalNotRecomputed | myProject/ReceiptView.swift:152 | the total shown is the stored one: a stored 250 shows 250 although its line is 2 x 150 |
| Receipt.DividerRule | myProject/ReceiptView.swift:131 | with distinct item ids a divider follows every line but the last |
| Receipt.SharedIdHidesDivider | myProject/ReceiptView.swift:131 | a line sharing the last line's id shows no divider |
| Receipt.CopiesAgree | myProject/ReceiptView.swift:245-301 | the receipt's icons and colours equal the order card's for every method and status |
| Receipt.LineAmount | myProject/ReceiptView.swift:126 | the amount printed for a line, price times quantity; TotalNotRecomputed uses it |
| Receipt.DisplayedTotal | myProject/ReceiptView.swift:152 | the shown total is the order's stored amount paid |
| Receipt.ShowsDivider | myProject/ReceiptView.swift:131-134 | whether a divider follows a line; DividerRule and SharedIdHidesDivider state when |
| Receipt.ReceiptPaymentIcon | myProject/ReceiptView.swift:245-256 | the receipt's payment icon; CopiesAgree equates it with the order card's |
| Receipt.ReceiptStatusColors | myProject/ReceiptView.swift:269-284 | the receipt badge's colours; CopiesAgree equates them with the order card's |
| Receipt.ReceiptStatusIcon | myProject/ReceiptView.swift:286-301 | the receipt badge's icon; CopiesAgree equates it with the order card's |
| App.SignedOutShowsLogin | myProject/myProjectApp.swift:28-31 | signed out, the login view shows whatever the role |
| App.SignedInRouting | myProject/myProjectApp.swift:20-27 | signed in, the dashboard shows exactly when the lower-cased role is `restaurant`, the main tabs otherwise, an absent role included |
| App.RoleCaseIgnored | myProject/myProjectApp.swift:21 | the routing ignores the case of the role |
| App.CapitalisedRestaurant | myProject/myProjectApp.swift:21 | `restaurant` and its capitals both open the dashboard |
| App.RootFor | myProject/myProjectApp.swift:20-31 | the window's root for the authentication state and role; SignedOutShowsLogin and SignedInRouting state it |
| App.LogoutFromDashboard | myProject/myProjectApp.swift:20-31 | a successful dashboard logout brings the window back to the login view; a failed one leaves it unchanged |

## Left out

- Express, axios and dotenv plumbing: the port, `console.log`, routing and
  JSON parsing. An outbound call's outcome is a parameter.
- Unset environment variables, which JavaScript would render as
  "undefined". `Config` holds strings.
- A `phoneNumber` that is not a string, and an `amount` that is not a
  number. The request is typed.
- The text JavaScript gives a JSON number. A number carries its rendered
  text.
- Floating point. Prices and amounts are reals, and `%.0f`/`%.2f`
  formatting is not modelled.
- Unicode case mapping and grapheme clusters. `lowercased`/`uppercased` are
  ASCII-only and `count` counts characters. `isNumber`, `isUppercase` and
  `isLowercase` are abstract predicates.
- Firebase Auth, Firestore queries and `Codable` decoding of orders.
  Requests are logged, answers are parameters, and a decoded order arrives
  as `Option<Order>`.
- `Calendar.startOfDay`. It is an abstract `dayOf` function.
- `Date()`. It is the parameter `now`.
- UUIDs. Cart entries have no id, and an order item's id is a given string.
- Swift `Int` overflow on `quantity +=`. Quantities are unbounded.
- `as? Double` bridging of integers stored in Firestore. A number field is
  an `FNumber`.
- An edit to the phone field during the two-second payment delay, beyond
  what the separate `BeginPayment` / `CompletePayment` steps allow.
- The character counter `n/9` and all SwiftUI layout, animation and
  colours, except the badge palettes.
- `loadRestaurantData` and `updateRestaurantProfile` of the dashboard.
  `tel://` calls and sharing.
- The app's other screens and view models: `LoginView`, `HomeView`,
  `CartView`, `MealView`, `ChoicesView`, `ProfileView`, `MealViewModel`
  and `RestaurantViewModel`, and `AuthViewModel` beyond the session fields
  that logout clears (`DashboardScreen.AuthSession`). They are outside the
  core modelled here.
- The duplicate `Meal.swift` and `Restaurant.swift` and
  `RestaurantRegsiterView.swift`. `Cart`, `Dashboard` and `Models` use the
  records of `Models.swift`.
- The registration callbacks. They only print.
- Cart.AddRaisesTotalByMealPrice: holds only when the stored entry has the
  added meal's price. `addToCart` merges by id and keeps the stored meal,
  so the general increase is `Cart.AddMergedRaisesTotal`'s stored price
  times quantity.
