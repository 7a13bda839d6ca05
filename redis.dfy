/** The Redis configuration: the reconnection policy, the cache helper and pub/sub helper. */
module Redis {
  import opened Wrappers
  import opened Seqs

  // ---------------------------------------------------------------------------
  // retry_strategy

  /** What the client tells `retry_strategy` about the failed connection. */
  datatype RetryOptions = RetryOptions(errorCode: Option<string>, totalRetryTime: int, attempt: int)

  /** Either stop reconnecting with this error, or try again after `delayMs`. */
  datatype RetryDecision = GiveUp(message: string) | RetryAfter(delayMs: int)

  const RetryBudgetMs := 1000 * 60 * 60
  const MaxDelayMs := 3000

  function RetryStrategy(o: RetryOptions): (d: RetryDecision)
    ensures o.errorCode == Some("ECONNREFUSED") ==> d == GiveUp("Redis server refused connection")
    ensures o.errorCode != Some("ECONNREFUSED") && o.totalRetryTime > 3600000 ==> d == GiveUp("Retry time exhausted")
    ensures o.errorCode != Some("ECONNREFUSED") && o.totalRetryTime <= 3600000 ==>
      && d.RetryAfter?
      && (o.attempt <= 30 ==> d.delayMs == o.attempt * 100)
      && (o.attempt > 30 ==> d.delayMs == 3000)
  {
    if o.errorCode == Some("ECONNREFUSED") then GiveUp("Redis server refused connection")
    else if o.totalRetryTime > RetryBudgetMs then GiveUp("Retry time exhausted")
    else RetryAfter(Min(o.attempt * 100, MaxDelayMs))
  }

  /** A later attempt never waits less, and no wait exceeds three seconds. */
  lemma RetryDelayMonotone(o: RetryOptions, later: int)
    requires o.attempt <= later
    requires RetryStrategy(o).RetryAfter?
    ensures RetryStrategy(o.(attempt := later)).RetryAfter?
    ensures RetryStrategy(o).delayMs <= RetryStrategy(o.(attempt := later)).delayMs <= MaxDelayMs
  {
  }

  // ---------------------------------------------------------------------------
  // RedisCache

  /** A cached value and the expiry (in seconds) it was stored with. */
  datatype Entry<V> = Entry(value: V, ttlSeconds: int)

  const DefaultTtlSeconds := 3600

  /**
   * `RedisCache`: a key/value map. Values are stored as JSON text and parsed
   * back, which the model takes to be the identity on the values it caches.
   */
  class Cache<V> {
    var entries: map<string, Entry<V>>

    constructor ()
      ensures entries == map[]
    {
      entries := map[];
    }

    /** `get(key)`: the stored value, or null for an absent key. */
    function Get(key: string): (r: Option<V>)
      reads this
      ensures r.Some? <==> key in entries
      ensures r.Some? ==> r.value == entries[key].value
    {
      if key in entries then Some(entries[key].value) else None
    }

    /** `set(key, value, expirationSeconds)`: SETEX. Redis rejects an expiry that is not positive. */
    method Set(key: string, value: V, ttlSeconds: int := DefaultTtlSeconds) returns (r: Result<string>)
      modifies this
      ensures r.Ok? <==> ttlSeconds > 0
      ensures r.Ok? ==> entries == old(entries)[key := Entry(value, ttlSeconds)]
      ensures r.Err? ==> entries == old(entries)
    {
      if ttlSeconds <= 0 {
        return Err("ERR invalid expire time in 'setex' command");
      }
      entries := entries[key := Entry(value, ttlSeconds)];
      r := Ok("OK");
    }

    /** `delete(key)`: DEL, answering how many keys were removed. */
    method Delete(key: string) returns (removed: nat)
      modifies this
      ensures entries == old(entries) - {key}
      ensures removed == (if key in old(entries) then 1 else 0)
    {
      removed := if key in entries then 1 else 0;
      entries := entries - {key};
    }
  }

  // ---------------------------------------------------------------------------
  // RedisPubSub

  /** A message published on a channel. */
  datatype Message<M> = Message(channel: string, payload: M)

  /**
   * `RedisPubSub`: the publisher's log of messages and the subscriber's
   * listeners, each registered for one channel. `connected` is false while
   * the publisher's connection is down.
   */
  class PubSub<M> {
    var published: seq<Message<M>>
    var listeners: seq<string>
    var connected: bool

    constructor (connected: bool)
      ensures published == [] && listeners == [] && this.connected == connected
    {
      published := [];
      listeners := [];
      this.connected := connected;
    }

    /**
     * `publish(channel, message)`: rejects when the connection is down. The count
     * answered is the number of listener registrations on the channel, whereas
     * Redis answers the number of subscribed clients.
     */
    method Publish(channel: string, payload: M) returns (r: Result<nat>)
      modifies this
      ensures r.Ok? <==> old(connected)
      ensures r.Ok? ==> published == old(published) + [Message(channel, payload)]
      ensures r.Err? ==> published == old(published)
      ensures listeners == old(listeners) && connected == old(connected)
    {
      if !connected {
        return Err("The client is closed");
      }
      published := published + [Message(channel, payload)];
      r := Ok(|Fired(listeners, channel)|);
    }

    /** `subscribe(channel, callback)`: registers one more listener; its handle is its position. */
    method Subscribe(channel: string) returns (handle: nat)
      modifies this
      ensures listeners == old(listeners) + [channel] && handle == |old(listeners)|
      ensures published == old(published) && connected == old(connected)
    {
      handle := |listeners|;
      listeners := listeners + [channel];
    }
  }

  /** The handles of the listeners whose callback runs for a message on `channel`, in registration order. */
  function Fired(listeners: seq<string>, channel: string): (r: seq<nat>)
    ensures forall h: int :: h in r <==> 0 <= h < |listeners| && listeners[h] == channel
    ensures forall i, j :: 0 <= i < j < |r| ==> r[i] < r[j]
    decreases |listeners|
  {
    if listeners == [] then []
    else
      var init := listeners[..|listeners| - 1];
      var rest := Fired(init, channel);
      assert forall h :: 0 <= h < |init| ==> init[h] == listeners[h];
      assert forall i :: 0 <= i < |rest| ==> rest[i] in rest;
      if listeners[|listeners| - 1] == channel then rest + [|listeners| - 1] else rest
  }
}
