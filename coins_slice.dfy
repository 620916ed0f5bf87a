/**
 * The coins slice (redux/slices/coinsSlice.ts): the `getOwnedCoins` thunk
 * over the shared HTTP client and its three case reducers, which update
 * the slice's state in place.
 */
module CoinsSlice {
  import opened Wrappers
  import opened JsStrings
  import opened Types

  /** The thunk's rejection fallback, as the source spells it. */
  const FetchFailed: string := "Login failed"

  datatype CoinsState = CoinsState(ownedCoins: seq<CoinLocation>, isLoading: bool, error: Option<string>)

  /** Lines 12-16. */
  const InitialState: CoinsState := CoinsState([], false, None)

  /** How `GET /coins/owned` ended: the body, or an error with `response?.data?.message`. */
  datatype FetchOutcome = Replied(data: seq<CoinLocation>) | RequestFailed(responseMessage: Option<string>)

  /** The `getOwnedCoins` thunk (lines 18-31): the body is the payload; a failure carries the server message or the fallback. */
  function GetOwnedCoins(outcome: FetchOutcome): (r: ThunkResult<seq<CoinLocation>>)
    ensures r.Fulfilled? <==> outcome.Replied?
    ensures r.Fulfilled? ==> r.payload == outcome.data
    ensures r.RejectedWith? && Truthy(outcome.responseMessage) ==> r.reason == outcome.responseMessage.value
    ensures r.RejectedWith? && !Truthy(outcome.responseMessage) ==> r.reason == FetchFailed
  {
    match outcome
    case Replied(data) => Fulfilled(data)
    case RequestFailed(message) => RejectedWith(OrElse(message, FetchFailed))
  }

  class CoinsSliceState {
    var ownedCoins: seq<CoinLocation>
    var isLoading: bool
    var error: Option<string>

    function State(): CoinsState
      reads this
    {
      CoinsState(ownedCoins, isLoading, error)
    }

    constructor ()
      ensures State() == InitialState
    {
      ownedCoins, isLoading, error := [], false, None;
    }

    /** `resetError` (lines 37-39). */
    method ResetError()
      modifies this`error
      ensures State() == old(State()).(error := None)
    {
      error := None;
    }

    /** `getOwnedCoins.pending` (lines 44-47). */
    method Pending()
      modifies this`isLoading, this`error
      ensures State() == old(State()).(isLoading := true, error := None)
    {
      isLoading := true;
      error := None;
    }

    /** `getOwnedCoins.fulfilled` (lines 48-51): the list is replaced wholesale; `error` is untouched. */
    method Fulfilled(payload: seq<CoinLocation>)
      modifies this`ownedCoins, this`isLoading
      ensures State() == old(State()).(ownedCoins := payload, isLoading := false)
    {
      ownedCoins := payload;
      isLoading := false;
    }

    /** `getOwnedCoins.rejected` (lines 52-55): the list is kept. */
    method Rejected(reason: string)
      modifies this`isLoading, this`error
      ensures State() == old(State()).(isLoading := false, error := Some(reason))
    {
      isLoading := false;
      error := Some(reason);
    }

    /** Dispatching the thunk: pending, then the case its settlement selects. */
    method Fetch(outcome: FetchOutcome)
      modifies this
      ensures !isLoading && ownedCoins == (if outcome.Replied? then outcome.data else old(ownedCoins))
      ensures error == (if outcome.Replied? then None else Some(OrElse(outcome.responseMessage, FetchFailed)))
    {
      Pending();
      match GetOwnedCoins(outcome)
      case Fulfilled(payload) => Fulfilled(payload);
      case RejectedWith(reason) => Rejected(reason);
    }
  }

  /**
   * A fresh slice after one fetch: a reply leaves exactly its coins and no
   * error; a failure leaves no coins and the rejection message.
   */
  method FetchOnce(outcome: FetchOutcome) returns (s: CoinsState)
    ensures !s.isLoading
    ensures outcome.Replied? ==> s == CoinsState(outcome.data, false, None)
    ensures outcome.RequestFailed? ==> s.ownedCoins == [] && s.error.Some?
    ensures outcome.RequestFailed? && !Truthy(outcome.responseMessage) ==> s.error == Some(FetchFailed)
  {
    var slice := new CoinsSliceState();
    slice.Fetch(outcome);
    s := slice.State();
  }
}
