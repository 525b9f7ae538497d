/**
  Sequences of actions dispatched to the user slice: what the state is after
  any of them, and what the slice never guards against.
 */
module UserHistory {
  import opened Wrappers
  import opened UserSlice

  /** The state after dispatching `acts`, first to last, starting from `s`. */
  function Run(s: UserState, acts: seq<UserAction>): UserState
    decreases |acts|
  {
    if |acts| == 0 then s else Reduce(Run(s, acts[..|acts| - 1]), acts[|acts| - 1])
  }

  // What an action writes into each part of the state, if anything.

  function NameWrite(a: UserAction): Option<string> {
    match a
    case UpdateName(name) => Some(name)
    case _ => None
  }

  function StatusWrite(a: UserAction): Option<string> {
    match a
    case UpdateName(_) => None
    case FetchPending => Some(Loading)
    case FetchFulfilled(_) => Some(Idle)
    case FetchRejected(_) => Some(Errored)
  }

  function PayloadWrite(a: UserAction): Option<AddressPayload> {
    match a
    case FetchFulfilled(payload) => Some(payload)
    case _ => None
  }

  function ErrorWrite(a: UserAction): Option<string> {
    match a
    case FetchRejected(message) => Some(message)
    case _ => None
  }

  /** What the last action of `acts` that writes through `write` wrote, or
      `default` when none does. */
  function LastWrite<T>(acts: seq<UserAction>, write: UserAction -> Option<T>, default: T): T
    decreases |acts|
  {
    if |acts| == 0 then default
    else match write(acts[|acts| - 1])
      case Some(v) => v
      case None => LastWrite(acts[..|acts| - 1], write, default)
  }

  /** Reference description of the slice: every part of the state holds what
      the last action writing it wrote, independently of the other parts. */
  function LastWriterState(s: UserState, acts: seq<UserAction>): UserState {
    var p := LastWrite(acts, PayloadWrite, AddressPayload(s.position, s.address));
    UserState(
      LastWrite(acts, NameWrite, s.username),
      LastWrite(acts, StatusWrite, s.status),
      p.position,
      p.address,
      LastWrite(acts, ErrorWrite, s.error))
  }

  /** The reducer agrees with the last-writer description on every sequence of actions. */
  lemma {:induction false} RunIsLastWriter(s: UserState, acts: seq<UserAction>)
    ensures Run(s, acts) == LastWriterState(s, acts)
    decreases |acts|
  {
    if |acts| > 0 {
      RunIsLastWriter(s, acts[..|acts| - 1]);
    }
  }

  /** The status keeps to idle, loading and error along any sequence of actions. */
  lemma {:induction false} StatusStaysKnown(s: UserState, acts: seq<UserAction>)
    requires KnownStatus(s.status)
    ensures KnownStatus(Run(s, acts).status)
    decreases |acts|
  {
    if |acts| > 0 {
      StatusStaysKnown(s, acts[..|acts| - 1]);
    }
  }

  /** From the initial state, the status is always idle, loading or error. */
  lemma ReachableStatus(acts: seq<UserAction>)
    ensures KnownStatus(Run(InitialState, acts).status)
  {
    StatusStaysKnown(InitialState, acts);
  }

  /** No action reads the status: two overlapping lookups both go through, the
      second `pending` leaves the state loading, and the later resolution wins. */
  lemma OverlappingFetches(s: UserState, first: AddressPayload, second: AddressPayload)
    ensures Run(s, [FetchPending, FetchPending]).status == Loading
    ensures Run(s, [FetchPending, FetchPending, FetchFulfilled(first), FetchFulfilled(second)])
         == s.(status := Idle, position := second.position, address := second.address)
  {
    var acts := [FetchPending, FetchPending, FetchFulfilled(first), FetchFulfilled(second)];
    assert acts[..3][..2] == [FetchPending, FetchPending];
    assert acts[..3][..2][..1] == [FetchPending];
    assert [FetchPending][..0] == [];
  }

  /** A rejection that arrives after a success still flags the error, but
      keeps the position and address the success stored. */
  lemma LateRejection(s: UserState, payload: AddressPayload, message: string)
    ensures Run(s, [FetchPending, FetchFulfilled(payload), FetchRejected(message)])
         == s.(status := Errored, error := message, position := payload.position, address := payload.address)
  {
    var acts := [FetchPending, FetchFulfilled(payload), FetchRejected(message)];
    assert acts[..2] == [FetchPending, FetchFulfilled(payload)];
    assert acts[..2][..1] == [FetchPending];
    assert [FetchPending][..0] == [];
    assert Run(s, acts[..2][..1]) == Pending(s);
    assert Run(s, acts[..2]) == Fulfilled(Pending(s), payload);
  }

  /** A failed lookup followed by a successful one leaves the old error
      message in place while the status is back to idle. */
  lemma StaleErrorSurvives(s: UserState, message: string, payload: AddressPayload)
    ensures Run(s, [FetchRejected(message), FetchPending, FetchFulfilled(payload)]).error == message
    ensures Run(s, [FetchRejected(message), FetchPending, FetchFulfilled(payload)]).status == Idle
  {
    var acts := [FetchRejected(message), FetchPending, FetchFulfilled(payload)];
    assert acts[..2] == [FetchRejected(message), FetchPending];
    assert acts[..2][..1] == [FetchRejected(message)];
    assert [FetchRejected(message)][..0] == [];
    assert Run(s, acts[..2][..1]) == Rejected(s, message);
    assert Run(s, acts[..2]) == Pending(Rejected(s, message));
  }

  /** One `fetchAddress()` run to completion never leaves the state loading and
      never touches the name; it ends idle exactly when both the position
      source and the geocoder answered, and a failure keeps the old position
      and address with the failure's message. */
  lemma FetchSettles(s: UserState, fix: Result<Coords, string>, geocode: Coords -> Result<Option<Geocode>, string>)
    ensures Run(s, FetchAddress(fix, geocode)).status != Loading
    ensures Run(s, FetchAddress(fix, geocode)).username == s.username
    ensures Run(s, FetchAddress(fix, geocode)).status == Idle <==> fix.Success? && geocode(fix.value).Success?
    ensures fix.Failure? ==> Run(s, FetchAddress(fix, geocode)) == s.(status := Errored, error := fix.error)
    ensures fix.Success? && geocode(fix.value).Failure? ==>
              Run(s, FetchAddress(fix, geocode)) == s.(status := Errored, error := geocode(fix.value).error)
  {
    var acts := FetchAddress(fix, geocode);
    assert acts[..1] == [FetchPending];
    assert [FetchPending][..0] == [];
  }
}
