/**
  The user slice of the client store: the user's name and the address
  obtained from the device position, with the state of that lookup.

  The store's reducers are written in the source as in-place updates of a
  draft; each is a pure function from the old state to the new one here.
  Status is the JavaScript string the source stores.
 */
module UserSlice {
  import opened Wrappers

  const Idle := "idle"
  const Loading := "loading"
  const Errored := "error"

  /** The three values the source ever stores in `status`. */
  predicate KnownStatus(status: string) {
    status == Idle || status == Loading || status == Errored
  }

  /** `position`: the empty object `{}` initially, `{latitude, longitude}` once
      fetched. An absent coordinate reads as `undefined`. */
  datatype Position = Position(latitude: Option<real>, longitude: Option<real>)

  const NoPosition := Position(None, None)

  datatype UserState = UserState(
    username: string,
    status: string,
    position: Position,
    address: string,
    error: string)

  /** `initialState`. */
  const InitialState := UserState("", Idle, NoPosition, "", "")

  /** The payload of a fulfilled address fetch. */
  datatype AddressPayload = AddressPayload(position: Position, address: string)

  /** The actions the slice handles: its own `updateName` and the three
      lifecycle actions of the `fetchAddress` thunk. */
  datatype UserAction =
    | UpdateName(name: string)
    | FetchPending
    | FetchFulfilled(payload: AddressPayload)
    | FetchRejected(message: string)

  /** `updateName`: only the name changes. */
  function SetName(s: UserState, name: string): (r: UserState)
    ensures r.username == name
    ensures r.status == s.status && r.position == s.position
    ensures r.address == s.address && r.error == s.error
  {
    s.(username := name)
  }

  /** `fetchAddress.pending`: the lookup is in flight, whatever the status was;
      an earlier error message stays. */
  function Pending(s: UserState): (r: UserState)
    ensures r.status == Loading
    ensures r.username == s.username && r.position == s.position
    ensures r.address == s.address && r.error == s.error
  {
    s.(status := Loading)
  }

  /** `fetchAddress.fulfilled`: position and address come from the payload and
      the status is idle again; the name and any earlier error message stay. */
  function Fulfilled(s: UserState, payload: AddressPayload): (r: UserState)
    ensures r.status == Idle
    ensures r.position == payload.position && r.address == payload.address
    ensures r.username == s.username && r.error == s.error
  {
    s.(position := payload.position, address := payload.address, status := Idle)
  }

  /** `fetchAddress.rejected`: the status is error and the message is kept;
      name, position and address stay. */
  function Rejected(s: UserState, message: string): (r: UserState)
    ensures r.status == Errored && r.error == message
    ensures r.username == s.username && r.position == s.position && r.address == s.address
  {
    s.(status := Errored, error := message)
  }

  /** The slice reducer: one action applied to the state. No case looks at the
      current status. */
  function Reduce(s: UserState, a: UserAction): (r: UserState)
    ensures KnownStatus(s.status) ==> KnownStatus(r.status)
  {
    match a
    case UpdateName(name) => SetName(s, name)
    case FetchPending => Pending(s)
    case FetchFulfilled(payload) => Fulfilled(s, payload)
    case FetchRejected(message) => Rejected(s, message)
  }

  // -----------------------------------------------------------------------
  // The fetchAddress thunk

  /** `coords` of a geolocation fix. */
  datatype Coords = Coords(latitude: real, longitude: real)

  /** The reverse-geocoding answer; a field it lacks reads as `undefined`. */
  datatype Geocode = Geocode(
    locality: Option<string>,
    city: Option<string>,
    postcode: Option<string>,
    countryName: Option<string>)

  /** A value as a template literal renders it: `undefined` for an absent one. */
  function Render(v: Option<string>): (r: string)
    ensures v.Some? ==> r == v.value
    ensures v.None? ==> r == "undefined"
  {
    match v
    case Some(t) => t
    case None => "undefined"
  }

  /** The address line `locality, city postcode, countryName`. The fields are
      read through `addressObj?.field`, so a missing answer reads like one
      whose every field is absent. */
  function AddressLine(g: Option<Geocode>): string {
    var v := match g case Some(x) => x case None => Geocode(None, None, None, None);
    Render(v.locality) + ", " + Render(v.city) + " " + Render(v.postcode) + ", " + Render(v.countryName)
  }

  /** The payload the thunk resolves with: the fix's coordinates copied into
      `position`, and the address line of the geocoding answer. */
  function MakePayload(c: Coords, g: Option<Geocode>): (r: AddressPayload)
    ensures r.position == Position(Some(c.latitude), Some(c.longitude))
    ensures g.Some? ==> r.address == Render(g.value.locality) + ", " + Render(g.value.city) + " "
                                     + Render(g.value.postcode) + ", " + Render(g.value.countryName)
    ensures |r.address| >= 5
  {
    AddressPayload(Position(Some(c.latitude), Some(c.longitude)), AddressLine(g))
  }

  lemma UndefinedAddressLine()
    ensures AddressLine(None) == "undefined, undefined undefined, undefined"
  {
    var half := "undefined, undefined";
    assert "undefined" + ", " + "undefined" == half;
    assert half + " " + half == "undefined, undefined undefined, undefined";
  }

  /** Without a geocoding answer every part of the address reads `undefined`. */
  lemma MissingGeocodeAddress(c: Coords)
    ensures MakePayload(c, None).address == "undefined, undefined undefined, undefined"
  {
    UndefinedAddressLine();
  }

  /** The actions `fetchAddress()` dispatches, given what the position source
      and the geocoder answer: `pending`, then `fulfilled` with the payload or
      `rejected` with the first failure's message. The geocoder is only asked
      once a fix is available. */
  function FetchAddress(fix: Result<Coords, string>, geocode: Coords -> Result<Option<Geocode>, string>): (r: seq<UserAction>)
    ensures |r| == 2 && r[0] == FetchPending
    ensures r[1].FetchFulfilled? <==> fix.Success? && geocode(fix.value).Success?
    ensures fix.Failure? ==> r[1] == FetchRejected(fix.error)
    ensures fix.Success? && geocode(fix.value).Failure? ==> r[1] == FetchRejected(geocode(fix.value).error)
    ensures r[1].FetchFulfilled? ==> r[1].payload == MakePayload(fix.value, geocode(fix.value).value)
  {
    match fix
    case Failure(e) => [FetchPending, FetchRejected(e)]
    case Success(c) =>
      match geocode(c)
      case Failure(e) => [FetchPending, FetchRejected(e)]
      case Success(g) => [FetchPending, FetchFulfilled(MakePayload(c, g))]
  }
}
