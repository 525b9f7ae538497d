/**
  The order form's submission logic: building the order draft from the
  submitted fields, the phone check, and what the form action does, as the
  list of outside effects it performs in order. The order API, the cart
  store and the router are not modelled; only the calls made on them are.
 */
module CreateOrder {
  import opened Wrappers
  import opened Phone
  import opened UserSlice
  import PhoneFacts

  /** `Object.fromEntries(formData)`: each submitted field's text by name. */
  type FormData = map<string, string>

  /** `data[key]` where a string is expected: the submitted text, or
      `undefined`, which `JSON.parse` and `RegExp.prototype.test` read as the
      text "undefined". */
  function FieldText(data: FormData, key: string): (r: string)
    ensures key in data ==> r == data[key]
    ensures key !in data ==> r == "undefined"
  {
    if key in data then data[key] else "undefined"
  }

  /** The order object `{...data, cart, priority}`: every submitted field but
      `cart` and `priority` as text, then the parsed cart and the flag, which
      take the place of the submitted ones. `J` is whatever `JSON.parse`
      yields. */
  datatype Draft<J> = Draft(fields: map<string, string>, cart: J, priority: bool)

  /** The checkbox is submitted only when ticked, with the text of its `value`. */
  predicate PriorityFlag(data: FormData) {
    "priority" in data && data["priority"] == "true"
  }

  /** The order draft, or `None` when `JSON.parse` throws on the cart field. */
  function BuildDraft<J>(data: FormData, parse: string -> Option<J>): (r: Option<Draft<J>>)
    ensures r.Some? <==> parse(FieldText(data, "cart")).Some?
    ensures r.Some? ==> r.value.cart == parse(FieldText(data, "cart")).value
    ensures r.Some? ==> (r.value.priority <==> "priority" in data && data["priority"] == "true")
    ensures r.Some? ==> "cart" !in r.value.fields && "priority" !in r.value.fields
    ensures r.Some? ==> forall k :: k in data && k != "cart" && k != "priority" ==> k in r.value.fields && r.value.fields[k] == data[k]
    ensures r.Some? ==> forall k :: k in r.value.fields ==> k in data
    ensures r.Some? ==> DraftPhone(r.value) == FieldText(data, "phone")
  {
    match parse(FieldText(data, "cart"))
    case None => None
    case Some(cart) => Some(Draft(data - {"cart", "priority"}, cart, PriorityFlag(data)))
  }

  /** `order.phone`, as the phone check reads it. */
  function DraftPhone<J>(d: Draft<J>): string {
    if "phone" in d.fields then d.fields["phone"] else "undefined"
  }

  const PhoneMessage := "Please give us your correct phone number. We might need it to contact you."

  /** The error map the action fills: the phone is the only field checked. */
  function Validate<J>(d: Draft<J>): (errors: map<string, string>)
    ensures errors.Keys <= {"phone"}
    ensures "phone" in errors <==> !IsValidPhone(DraftPhone(d))
    ensures "phone" in errors ==> errors["phone"] == PhoneMessage
  {
    if IsValidPhone(DraftPhone(d)) then map[] else map["phone" := PhoneMessage]
  }

  /** A call the action makes outside itself. */
  datatype Effect<J> =
    | CreateOrderCall(draft: Draft<J>)   // the order API's `createOrder`
    | ClearCart                          // `store.dispatch(clearCart())`
    | Redirect(path: string)             // the `redirect` the action returns

  /** Why the action throws instead of returning. */
  datatype Failure =
    | MalformedCart       // `JSON.parse` rejected the cart field
    | CreateOrderFailed   // the order API call was rejected

  /** What the action hands back to the router. */
  datatype Outcome =
    | FieldErrors(errors: map<string, string>)
    | Redirected(path: string)
    | Threw(failure: Failure)

  datatype ActionResult<J> = ActionResult(outcome: Outcome, effects: seq<Effect<J>>)

  /** The order page of a newly created order. */
  function OrderPath(id: string): string {
    "/order/" + id
  }

  /** The form action. `parse` stands for `JSON.parse` (`None`: it throws);
      `createOrder` for the order API, which resolves with the new order's
      id or is rejected (`None`). */
  function Action<J>(data: FormData, parse: string -> Option<J>, createOrder: Draft<J> -> Option<string>): (r: ActionResult<J>)
    ensures parse(FieldText(data, "cart")).None? ==> r == ActionResult(Threw(MalformedCart), [])
    ensures r.effects != [] <==> parse(FieldText(data, "cart")).Some? && IsValidPhone(FieldText(data, "phone"))
    ensures r.outcome.FieldErrors? <==> parse(FieldText(data, "cart")).Some? && !IsValidPhone(FieldText(data, "phone"))
    ensures r.outcome.FieldErrors? ==> r.outcome.errors == map["phone" := PhoneMessage] && r.effects == []
    ensures r.effects != [] ==>
              var d := BuildDraft(data, parse).value;
              && r.effects[0] == CreateOrderCall(d)
              && (createOrder(d).Some? ==>
                    && r.effects == [CreateOrderCall(d), ClearCart, Redirect(OrderPath(createOrder(d).value))]
                    && r.outcome == Redirected(OrderPath(createOrder(d).value)))
              && (createOrder(d).None? ==> r.effects == [CreateOrderCall(d)] && r.outcome == Threw(CreateOrderFailed))
  {
    match BuildDraft(data, parse)
    case None => ActionResult(Threw(MalformedCart), [])
    case Some(d) =>
      var errors := Validate(d);
      if |errors| > 0 then ActionResult(FieldErrors(errors), [])
      else
        match createOrder(d)
        case None => ActionResult(Threw(CreateOrderFailed), [CreateOrderCall(d)])
        case Some(id) => ActionResult(Redirected(OrderPath(id)), [CreateOrderCall(d), ClearCart, Redirect(OrderPath(id))])
  }

  /** A malformed cart makes the action throw before the phone is looked at:
      the result is the same whatever phone was submitted. */
  lemma MalformedCartIgnoresPhone<J>(data: FormData, phone: string, parse: string -> Option<J>, createOrder: Draft<J> -> Option<string>)
    requires parse(FieldText(data, "cart")).None?
    ensures Action(data[("phone") := phone], parse, createOrder) == Action(data, parse, createOrder)
    ensures Action(data - {"phone"}, parse, createOrder) == Action(data, parse, createOrder)
  {
    assert FieldText(data[("phone") := phone], "cart") == FieldText(data, "cart");
    assert FieldText(data - {"phone"}, "cart") == FieldText(data, "cart");
  }

  /** Only the phone decides between errors and effects: with a parsable cart,
      changing any other field (but the cart) changes neither the choice nor
      the error map. */
  lemma OnlyPhoneGates<J>(data: FormData, key: string, text: string, parse: string -> Option<J>, createOrder: Draft<J> -> Option<string>)
    requires key != "phone" && key != "cart"
    requires parse(FieldText(data, "cart")).Some?
    ensures Action(data[key := text], parse, createOrder).outcome.FieldErrors?
        <==> Action(data, parse, createOrder).outcome.FieldErrors?
    ensures Action(data[key := text], parse, createOrder).effects != []
        <==> Action(data, parse, createOrder).effects != []
    ensures Action(data - {key}, parse, createOrder).outcome.FieldErrors?
        <==> Action(data, parse, createOrder).outcome.FieldErrors?
    ensures Action(data - {key}, parse, createOrder).effects != []
        <==> Action(data, parse, createOrder).effects != []
  {
    assert FieldText(data[key := text], "cart") == FieldText(data, "cart");
    assert FieldText(data[key := text], "phone") == FieldText(data, "phone");
    assert FieldText(data - {key}, "cart") == FieldText(data, "cart");
    assert FieldText(data - {key}, "phone") == FieldText(data, "phone");
  }

  /** Without a cart field the parser is handed the text "undefined"; when it
      rejects that, as `JSON.parse` does, the action throws before any effect. */
  lemma MissingCartThrows<J>(data: FormData, parse: string -> Option<J>, createOrder: Draft<J> -> Option<string>)
    requires "cart" !in data && parse("undefined").None?
    ensures Action(data, parse, createOrder) == ActionResult(Threw(MalformedCart), [])
  {
    assert FieldText(data, "cart") == "undefined";
  }

  /** Without a phone field the pattern is tested against the text
      "undefined", which it rejects: the phone error comes back and nothing
      else happens. */
  lemma MissingPhoneRejected<J>(data: FormData, parse: string -> Option<J>, createOrder: Draft<J> -> Option<string>)
    requires "phone" !in data && parse(FieldText(data, "cart")).Some?
    ensures Action(data, parse, createOrder) == ActionResult(FieldErrors(map["phone" := PhoneMessage]), [])
  {
    PhoneFacts.RejectsLetter("undefined", 0);
  }

  // -------------------------------------------------------------------------
  // The hidden `position` field

  /** JavaScript truthiness of a coordinate: present and not zero. */
  predicate Truthy(v: Option<real>) {
    v.Some? && v.value != 0.0
  }

  /** The hidden field's value: `"<latitude>, <longitude>"` when both
      coordinates are truthy, empty otherwise. `show` is the engine's
      number-to-text conversion. */
  function PositionField(pos: Position, show: real -> string): (r: string)
    ensures r == "" <==> !(Truthy(pos.longitude) && Truthy(pos.latitude))
    ensures r != "" ==> r == show(pos.latitude.value) + ", " + show(pos.longitude.value)
  {
    if Truthy(pos.longitude) && Truthy(pos.latitude)
    then show(pos.latitude.value) + ", " + show(pos.longitude.value)
    else ""
  }

  /** Before any address lookup the form submits an empty position. */
  lemma InitialPositionField(show: real -> string)
    ensures PositionField(InitialState.position, show) == ""
  {
  }

  /** After a successful lookup the form submits the fix's coordinates, unless
      one of them is exactly zero, which reads as absent. */
  lemma PositionFieldAfterFetch(s: UserState, c: Coords, g: Option<Geocode>, show: real -> string)
    ensures c.latitude != 0.0 && c.longitude != 0.0 ==>
              PositionField(Fulfilled(s, MakePayload(c, g)).position, show) == show(c.latitude) + ", " + show(c.longitude)
    ensures c.latitude == 0.0 || c.longitude == 0.0 ==>
              PositionField(Fulfilled(s, MakePayload(c, g)).position, show) == ""
  {
  }
}
