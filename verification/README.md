# Fast React Pizza: order submission and user address, modelled in Dafny

This project models the two pieces of logic in the pizza-ordering app that
are more than framework glue.

- **The order form's submission** (`src/features/order/CreateOrder.jsx`):
  - the phone validator `isValidPhone`;
  - the form `action`, which turns the submitted fields into an order draft,
    checks the phone, and then either returns a field-keyed error map or
    creates the order, clears the cart and redirects to `/order/{id}`;
  - the hidden `position` field the form submits.
- **The user slice of the store** (`src/features/user/userSlice.js`):
  - the state `{username, status, position, address, error}` and its initial value;
  - the `updateName` reducer and the `pending`, `fulfilled` and `rejected`
    reducers of the `fetchAddress` thunk;
  - the payload the thunk builds from the geolocation fix and the
    reverse-geocoding answer.

Modules, one per concern:

| file | module | contents |
|---|---|---|
| `wrappers.dfy` | `Wrappers` | `Option` (JavaScript `undefined`) and `Result` (a resolved or rejected call) |
| `phone.dfy` | `Phone` | the phone pattern as a list of `class{lo,hi}` pieces, the recursive matcher `Matches`, and an independent recogniser `Simulate` that tracks the set of reachable positions |
| `phone_facts.dfy` | `PhoneFacts` | the matcher agrees with the simulation and with "one fitting chunk per piece"; lengths, digit counts and alphabet of accepted numbers; where `+` may appear; the example strings |
| `user_slice.dfy` | `UserSlice` | the state, the four reducers, the thunk's payload and the actions one `fetchAddress()` dispatches |
| `user_history.dfy` | `UserHistory` | runs of actions: the state after any run is given field by field by the last action that writes that field; the status invariant; overlapping lookups |
| `create_order.dfy` | `CreateOrder` | the draft, the phone gate, the action as an outcome plus a list of effects, and the position field |

How the model reads the source:

- **The phone pattern.** The pattern is
  `^\+?\d{1,4}?[-.\s]?\(?\d{1,3}?\)?[-.\s]?\d{1,4}[-.\s]?\d{1,4}[-.\s]?\d{1,9}$`.
  `\d{1,4}?` and `\d{1,3}?` are *lazy* quantifiers, not optional groups:
  each of those groups needs at least one digit. The pattern is anchored at
  both ends and only tested for a match, so laziness does not change the
  accepted strings, and the matcher states the language declaratively.
  - `\d` is the ASCII digits.
  - `\s` is the ECMAScript WhiteSpace and LineTerminator code points, listed
    explicitly.
- **Absent fields.** An absent field reads as `undefined`. `JSON.parse` and
  `RegExp.prototype.test` turn it into the text `"undefined"`, so:
  - a missing cart field makes the action throw, given that `parse`
    rejects the text `"undefined"` (as `JSON.parse` does);
  - a missing phone field is rejected, since `"undefined"` contains letters.

  A template literal renders an absent geocoder field as `undefined`, too.
- **External calls.** These are parameters of the model:
  - `JSON.parse` of the cart is `parse: string -> Option<J>`;
  - the order API's `createOrder` is `Draft<J> -> Option<string>`, the new
    order's id or a rejection;
  - the geolocation fix and the geocoder answer are `Result` values;
  - the engine's number-to-text conversion is `show: real -> string`.

  The action's calls on the outside world come back as a list of effects:
  `CreateOrderCall(draft)`, `ClearCart` and `Redirect(path)`, in the order
  they are made.
- **Status.** `status` is a string, as in the source. The invariant that it
  stays in {idle, loading, error} is proved over every sequence of actions,
  not given by a type.

Behaviour worth noting:

- The priority flag is true only for the exact text `"true"`. The
  checkbox's `value` is the text of the `withPriority` state, and the
  checkbox is submitted only when it is ticked.
- No reducer reads the current status: a `fulfilled` or a `rejected`
  applies from any status, and a second lookup can overlap a first one.
- The phone pattern's first two digit groups are required. The lazy `?`
  after them does not make them optional.

## Model

| member | source | states |
|---|---|---|
| Phone.IsValidPhone | src/features/order/CreateOrder.jsx:14-17 | the anchored pattern, as one chunk per `cls{lo,hi}` piece, accepts the string; an accepted string starts with `+` or a digit |
| PhoneFacts.MatchesIffChunks | src/features/order/CreateOrder.jsx:15 | the pattern matches a string exactly when the string is the concatenation of one chunk per atom, each chunk inside the atom's class and repetition bounds (both directions) |
| PhoneFacts.SimulateAgrees | src/features/order/CreateOrder.jsx:14-17 | the set-of-positions simulation of the anchored pattern accepts exactly the strings the recursive matcher accepts |
| PhoneFacts.ReachMatches | src/features/order/CreateOrder.jsx:15 | after the remaining atoms, the end of the input is reachable from a set of positions exactly when those atoms match the rest of the input from one of them |
| PhoneFacts.PhoneBounds | src/features/order/CreateOrder.jsx:15 | an accepted phone number is 5 to 31 characters long and holds 5 to 24 digits |
| PhoneFacts.PhoneAlphabet | src/features/order/CreateOrder.jsx:15 | an accepted phone number uses only digits, `+`, `(`, `)`, `-`, `.` and whitespace |
| PhoneFacts.PlusOnlyFirst | src/features/order/CreateOrder.jsx:15 | `+` occurs in an accepted phone number only at index 0 |
| PhoneFacts.RejectsEmpty | src/features/order/CreateOrder.jsx:14-17 | the empty string is rejected |
| PhoneFacts.RejectsLetter | src/features/order/CreateOrder.jsx:14-17 | any string with an ASCII letter in it is rejected |
| PhoneFacts.RejectsAbc | src/features/order/CreateOrder.jsx:14-17 | `"abc"` is rejected |
| PhoneFacts.AcceptsExample | src/features/order/CreateOrder.jsx:14-17 | `"+1 555-123-4567"` is accepted |
| PhoneFacts.MatchLength | src/features/order/CreateOrder.jsx:15 | a match of any atom list is at least the sum of the lower bounds and at most the sum of the upper bounds long |
| PhoneFacts.MatchDigits | src/features/order/CreateOrder.jsx:15 | a match holds between the digit atoms' lower-bound sum and upper-bound sum of digits |
| PhoneFacts.MatchAvoids | src/features/order/CreateOrder.jsx:15 | a character no atom admits never occurs in a match |
| CreateOrder.BuildDraft | src/features/order/CreateOrder.jsx:253-259 | the draft exists exactly when the cart text parses; it holds the parsed cart, and its priority is true iff the submitted `priority` is the text `"true"` (absent means false); every other submitted field is kept verbatim and no other field appears |
| CreateOrder.Validate | src/features/order/CreateOrder.jsx:261-265 | the error map has no key but `phone`, has it exactly when the draft's phone fails the pattern, and then carries the fixed message |
| CreateOrder.Action | src/features/order/CreateOrder.jsx:248-334 | a malformed cart throws with no effects; effects happen iff the cart parses and the phone is valid; an invalid phone returns exactly `{phone: message}` with no effects; otherwise the effects are `createOrder(draft)` and, if it resolves with id, then `clearCart` and a redirect to `/order/` + id, in that order |
| CreateOrder.MalformedCartIgnoresPhone | src/features/order/CreateOrder.jsx:255-263 | with a malformed cart the result does not depend on the phone field, present, changed or missing, since the cart is parsed before the phone is checked |
| CreateOrder.OnlyPhoneGates | src/features/order/CreateOrder.jsx:261-267 | with a parsable cart, changing or removing any field other than the phone or the cart changes neither whether errors are returned nor whether effects happen |
| CreateOrder.MissingCartThrows | src/features/order/CreateOrder.jsx:255-259 | submitted data without a cart field makes the action throw with no effects, when the parser rejects the text `undefined` |
| CreateOrder.MissingPhoneRejected | src/features/order/CreateOrder.jsx:261-267 | with a parsable cart and no phone field, the action returns the phone error and performs no effects |
| CreateOrder.PositionField | src/features/order/CreateOrder.jsx:214-222 | the hidden field is empty exactly when a coordinate is absent or zero, and is otherwise `"<latitude>, <longitude>"` |
| CreateOrder.InitialPositionField | src/features/order/CreateOrder.jsx:217-221 | with the initial empty position the hidden field is empty |
| CreateOrder.PositionFieldAfterFetch | src/features/order/CreateOrder.jsx:217-221 | after a successful lookup the hidden field carries the fix's coordinates, or is empty when one of them is exactly zero |
| UserSlice.SetName | src/features/user/userSlice.js:94-96 | `updateName` sets the name and leaves status, position, address and error unchanged |
| UserSlice.Pending | src/features/user/userSlice.js:140-142 | `pending` sets the status to loading from any status and keeps everything else, including an earlier error message |
| UserSlice.Fulfilled | src/features/user/userSlice.js:146-150 | `fulfilled` takes position and address from the payload and sets idle; name and error are unchanged, so a stale error survives |
| UserSlice.Rejected | src/features/user/userSlice.js:154-157 | `rejected` sets status error and the error message; name, position and address are unchanged |
| UserSlice.Reduce | src/features/user/userSlice.js:138-157 | no reducer takes the status outside idle, loading and error |
| UserSlice.MakePayload | src/features/user/userSlice.js:57-64 | the payload's position copies the fix's latitude and longitude; its address is `locality, city postcode, countryName`, with `undefined` for an absent part, and is never empty |
| UserSlice.MissingGeocodeAddress | src/features/user/userSlice.js:63-64 | without a geocoding answer the optional chaining makes the address `undefined, undefined undefined, undefined` |
| UserSlice.FetchAddress | src/features/user/userSlice.js:54-69 | one `fetchAddress()` dispatches `pending` and then `fulfilled` exactly when both the fix and the geocoder succeed, with the payload built from them; a failed fix is rejected with its message, and a failed geocoding after a fix with the geocoder's message |
| UserHistory.RunIsLastWriter | src/features/user/userSlice.js:90-157 | after any sequence of actions, each part of the state holds what the last action writing that part wrote, or its starting value |
| UserHistory.StatusStaysKnown | src/features/user/userSlice.js:138-157 | from a state whose status is idle, loading or error, every sequence of actions keeps it so |
| UserHistory.ReachableStatus | src/features/user/userSlice.js:82-88 | from the initial state the status is idle, loading or error after any sequence of actions |
| UserHistory.OverlappingFetches | src/features/user/userSlice.js:140-150 | a second `pending` while loading stays loading, and of two overlapping lookups the later resolution overwrites position and address |
| UserHistory.LateRejection | src/features/user/userSlice.js:146-157 | a rejection after a success sets status error and the message but keeps the stored position and address |
| UserHistory.StaleErrorSurvives | src/features/user/userSlice.js:146-157 | after a failure and then a success the status is idle but the old error message remains |
| UserHistory.FetchSettles | src/features/user/userSlice.js:54-69 | one complete lookup never leaves the state loading or changes the name; it ends idle iff fix and geocoding both succeed, and a failure keeps position and address and stores the message |

The initial state (`src/features/user/userSlice.js:82-88`) is the constant
`UserSlice.InitialState`: empty name, status `idle`, no coordinates, empty
address and empty error.

## Left out

- Geolocation and reverse-geocoding I/O (`getPosition`, `navigator.geolocation`, `getAddress`): their answers are `Result` inputs of `FetchAddress`.
- The order API (`createOrder`, `getOrder`, `getMenu`): `createOrder` is a parameter giving the new order's id or a rejection; the others are not used by the modelled logic.
- Redux Toolkit and React Router machinery (`createAsyncThunk`, `createSlice`, the store singleton, `redirect`, `Form`, hooks, loaders): represented only by the action values and the effect list.
- JSON syntax: `JSON.parse` is an abstract partial function; the parsed cart is an opaque type parameter.
- The cart slice (`clearCart`, `getCart`, `getTotalCartPrice`): `src/features/cart/cartSlice.js` is not part of this model; only the `clearCart` dispatch is recorded as an effect.
- Price arithmetic (`totalCartPrice * 0.2`, `formatCurrency`) and `calcMinutesLeft`/`formatDate` in `src/features/order/Order.jsx`: floating point and dates.
- Number-to-text conversion of coordinates: a parameter `show`; coordinates are reals, so `NaN`, which is also falsy, is not modelled.
- UserSlice.Rejected: the error message is always text here; the source stores `action.error.message` as given, which can be `undefined` when the thunk fails with something that has no message.
- UserSlice.Geocode: its fields are text or absent; a geocoder field that is `null` or a number would render as `null` or as the number's text in the address line, which the model cannot express.
- Form values that are files rather than text: every submitted field is text here.
- JSX rendering: the empty-cart switch, the error paragraphs, the button labels, and the "Get position" button. That button's test reads the misspelled `position.longtitude`, which is always `undefined`, so only the latitude decides whether it is shown.
- `src/features/menu/Menu.jsx`, `src/App.jsx`, `src/ui/*`, `src/main.jsx`, `tailwind.config.js`: routing tables, layout and build configuration with no logic to model.
