/**
 * The `useSocket` hook (hooks/useSocket.ts): fixed event names over the one
 * SocketService. Each `on*` subscriber registers a callback and returns the
 * unsubscribe closure; the emitters send one message each.
 */
module UseSocket {
  import opened SocketService

  const NearbyCoinsEvent: string := "nearbyCoins"
  const CaughtCoinsEvent: string := "caughtCoins"
  const OwnedCoinsEvent: string := "ownedCoins"
  const CoinCaughtEvent: string := "coinCaught"
  const RemoveNearbyCoinEvent: string := "removeNearbyCoin"
  /** Both the event `sendMessage` emits on and the one `onMessageRecieve` listens on. */
  const MessageEvent: string := "message"
  const ScoreUpdatedEvent: string := "scoreUpdated"
  const GetOwnedCoinsEvent: string := "getOwnedCoins"
  const GetNearbyCoinsEvent: string := "getNearbyCoins"
  const CatchCoinEvent: string := "catchCoin"

  /** A map region; only its centre reaches the server. */
  datatype Region = Region(latitude: real, longitude: real, latitudeDelta: real, longitudeDelta: real)

  /** The closure an `on*` subscriber returns: it captured the event name and the callback. */
  datatype Unsubscribe = Unsubscribe(event: string, callback: Callback)

  /** The shape of every `on*` subscriber. */
  method Subscribe(service: SocketService, event: string, callback: Callback) returns (unsubscribe: Unsubscribe)
    modifies service`listeners
    ensures service.listeners == WithListener(old(service.listeners), event, callback)
    ensures unsubscribe == Unsubscribe(event, callback)
  {
    service.AddListener(event, callback);
    unsubscribe := Unsubscribe(event, callback);
  }

  /** Calling the returned closure removes the same callback under the same event. */
  method RunUnsubscribe(service: SocketService, unsubscribe: Unsubscribe)
    modifies service`listeners
    ensures service.listeners == WithoutListener(old(service.listeners), unsubscribe.event, unsubscribe.callback)
  {
    service.RemoveListener(unsubscribe.event, unsubscribe.callback);
  }

  method OnCoinsUpdate(service: SocketService, callback: Callback) returns (unsubscribe: Unsubscribe)
    modifies service`listeners
    ensures service.listeners == WithListener(old(service.listeners), NearbyCoinsEvent, callback)
    ensures unsubscribe == Unsubscribe(NearbyCoinsEvent, callback)
  {
    unsubscribe := Subscribe(service, NearbyCoinsEvent, callback);
  }

  method OnCaughtCoinsUpdate(service: SocketService, callback: Callback) returns (unsubscribe: Unsubscribe)
    modifies service`listeners
    ensures service.listeners == WithListener(old(service.listeners), CaughtCoinsEvent, callback)
    ensures unsubscribe == Unsubscribe(CaughtCoinsEvent, callback)
  {
    unsubscribe := Subscribe(service, CaughtCoinsEvent, callback);
  }

  method OnOwnedCoinsUpdate(service: SocketService, callback: Callback) returns (unsubscribe: Unsubscribe)
    modifies service`listeners
    ensures service.listeners == WithListener(old(service.listeners), OwnedCoinsEvent, callback)
    ensures unsubscribe == Unsubscribe(OwnedCoinsEvent, callback)
  {
    unsubscribe := Subscribe(service, OwnedCoinsEvent, callback);
  }

  method OnCoinCaught(service: SocketService, callback: Callback) returns (unsubscribe: Unsubscribe)
    modifies service`listeners
    ensures service.listeners == WithListener(old(service.listeners), CoinCaughtEvent, callback)
    ensures unsubscribe == Unsubscribe(CoinCaughtEvent, callback)
  {
    unsubscribe := Subscribe(service, CoinCaughtEvent, callback);
  }

  method OnRemoveNearbyCoin(service: SocketService, callback: Callback) returns (unsubscribe: Unsubscribe)
    modifies service`listeners
    ensures service.listeners == WithListener(old(service.listeners), RemoveNearbyCoinEvent, callback)
    ensures unsubscribe == Unsubscribe(RemoveNearbyCoinEvent, callback)
  {
    unsubscribe := Subscribe(service, RemoveNearbyCoinEvent, callback);
  }

  method OnMessageRecieve(service: SocketService, callback: Callback) returns (unsubscribe: Unsubscribe)
    modifies service`listeners
    ensures service.listeners == WithListener(old(service.listeners), MessageEvent, callback)
    ensures unsubscribe == Unsubscribe(MessageEvent, callback)
  {
    unsubscribe := Subscribe(service, MessageEvent, callback);
  }

  method OnUpdateScore(service: SocketService, callback: Callback) returns (unsubscribe: Unsubscribe)
    modifies service`listeners
    ensures service.listeners == WithListener(old(service.listeners), ScoreUpdatedEvent, callback)
    ensures unsubscribe == Unsubscribe(ScoreUpdatedEvent, callback)
  {
    unsubscribe := Subscribe(service, ScoreUpdatedEvent, callback);
  }

  /** `getOwnedCoins`: asks for the owned coins with an empty object. */
  method GetOwnedCoins(service: SocketService)
    modifies service.socket
    ensures service.EmitOutcome(Message(GetOwnedCoinsEvent, EmptyObject))
  {
    service.Emit(GetOwnedCoinsEvent, EmptyObject);
  }

  /** `updateLocation`: only the region's centre is sent; the deltas are dropped. */
  method UpdateLocation(service: SocketService, location: Region)
    modifies service.socket
    ensures service.EmitOutcome(Message(GetNearbyCoinsEvent, Coordinates(location.latitude, location.longitude)))
  {
    service.Emit(GetNearbyCoinsEvent, Coordinates(location.latitude, location.longitude));
  }

  /** `catchCoin`: the coin location id is the whole payload. */
  method CatchCoin(service: SocketService, coinLocationId: string)
    modifies service.socket
    ensures service.EmitOutcome(Message(CatchCoinEvent, Text(coinLocationId)))
  {
    service.Emit(CatchCoinEvent, Text(coinLocationId));
  }

  /** `sendMessage`: the text goes out on the event `onMessageRecieve` listens on. */
  method SendMessage(service: SocketService, message: string)
    modifies service.socket
    ensures service.EmitOutcome(Message(MessageEvent, Text(message)))
  {
    service.Emit(MessageEvent, Text(message));
  }

  /** Subscribing a new callback and running the returned closure restores the registry's contents. */
  method SubscribeThenUnsubscribe(service: SocketService, event: string, callback: Callback)
    requires callback !in CallbacksOf(service.listeners, event)
    modifies service`listeners
    ensures forall e :: CallbacksOf(service.listeners, e) == CallbacksOf(old(service.listeners), e)
  {
    var unsubscribe := Subscribe(service, event, callback);
    RunUnsubscribe(service, unsubscribe);
    AddThenRemoveRestores(old(service.listeners), event, callback);
  }
}
