/**
 * `NatsDistributedCache`: the `IBufferDistributedCache` adapter over a NATS
 * key/value bucket. Each synchronous entry point and its asynchronous twin
 * are one method here; the clock reading `DateTimeOffset.UtcNow` is the
 * parameter `now`, and a C# `null` options object is `None`.
 */
module DistributedCache {
  import opened Wrappers
  import opened DotNet
  import opened NatsKv

  /** `DistributedCacheEntryOptions`: three independent optional lifetimes. */
  datatype CacheEntryOptions = CacheEntryOptions(
    absoluteExpiration: Option<Instant>,
    absoluteExpirationRelativeToNow: Option<Duration>,
    slidingExpiration: Option<Duration>)

  /** The exceptions the adapter raises or lets through. */
  datatype CacheError =
    | ArgumentNull(paramName: string)     // ArgumentNullException
    | NotSupported(message: string)       // NotSupportedException
    | InvalidOperation(message: string)   // InvalidOperationException
    | Buffer(cause: BufferError)          // thrown while copying a ReadOnlySequence
    | StoreRefused                        // the store did not take a CreateAsync call

  const SlidingNotSupportedMessage: string :=
    "Sliding expiration is not supported by this cache implementation yet..."
  const ProvisioningFailedMessage: string :=
    "Failed to create or update the NATS KeyValue Store."

  /** What `ThrowSlidingExpirationNotSupportedException` throws. */
  const SlidingNotSupported: CacheError := NotSupported(SlidingNotSupportedMessage)

  /** What a null options argument throws. */
  const OptionsNull: CacheError := ArgumentNull("options")

  /** The TTL an entry written at `now` gets from its options. Sliding
      expiration wins over everything and is refused; then relative-to-now is
      the TTL as given; then an absolute expiration gives the span from `now`
      to it, which may be zero or negative; with none of the three there is no
      TTL. */
  function ValidateCacheOptionsAndDetermineTtl(options: CacheEntryOptions, now: Instant): (r: Result<Option<Duration>, CacheError>)
    ensures r.Failure? <==> options.slidingExpiration.Some?
    ensures r.Failure? ==> r.error == SlidingNotSupported
    ensures options.slidingExpiration.None? && options.absoluteExpirationRelativeToNow.Some? ==>
              r == Success(Some(options.absoluteExpirationRelativeToNow.value))
    ensures options.slidingExpiration.None? && options.absoluteExpirationRelativeToNow.None? &&
            options.absoluteExpiration.Some? ==>
              r.Success? && r.value.Some? && now + r.value.value == options.absoluteExpiration.value
    ensures r == Success(None) <==> options == CacheEntryOptions(None, None, None)
  {
    if options.slidingExpiration.Some? then
      Failure(SlidingNotSupported)
    else if options.absoluteExpirationRelativeToNow.Some? then
      Success(Some(options.absoluteExpirationRelativeToNow.value))
    else if options.absoluteExpiration.Some? then
      Success(Some(Between(options.absoluteExpiration.value, now)))
    else
      Success(None)
  }

  /** The instant at which options without a sliding part ask an entry written
      at `now` to stop being served: `now` plus the relative lifetime if there
      is one, else the absolute deadline, else never. */
  function RequestedExpiry(options: CacheEntryOptions, now: Instant): Option<int>
  {
    match options.absoluteExpirationRelativeToNow
    case Some(lifetime) => Some(now + lifetime)
    case None => match options.absoluteExpiration
      case Some(deadline) => Some(deadline)
      case None => None
  }

  /** For every options value the adapter accepts, the TTL it hands the store,
      counted from the moment of writing, ends exactly at the requested
      expiry, and there is a TTL exactly when some expiry was requested. */
  lemma TtlEndsAtRequestedExpiry(options: CacheEntryOptions, now: Instant)
    requires options.slidingExpiration.None?
    ensures ValidateCacheOptionsAndDetermineTtl(options, now).Success?
    ensures ValidateCacheOptionsAndDetermineTtl(options, now).value.Some? <==> RequestedExpiry(options, now).Some?
    ensures ValidateCacheOptionsAndDetermineTtl(options, now).value.Some? ==>
              now + ValidateCacheOptionsAndDetermineTtl(options, now).value.value == RequestedExpiry(options, now).value
  {
  }

  class NatsDistributedCache {
    /** The provisioned bucket (`_natsKvStore`). */
    const store: KvStore

    constructor (store: KvStore)
      ensures this.store == store
    {
      this.store := store;
    }

    /** The tail of the constructor: provisioning yielded `provisioned`, and a
        null store handle makes construction throw. */
    static method Open(provisioned: KvStore?) returns (r: Result<NatsDistributedCache, CacheError>)
      ensures r.Failure? <==> provisioned == null
      ensures r.Failure? ==> r.error == InvalidOperation(ProvisioningFailedMessage)
      ensures r.Success? ==> fresh(r.value) && r.value.store == provisioned
    {
      if provisioned == null {
        return Failure(InvalidOperation(ProvisioningFailedMessage));
      }
      var cache := new NatsDistributedCache(provisioned);
      return Success(cache);
    }

    /** `Get`/`GetAsync`: the stored payload on a hit, null on a miss. */
    method Get(key: Key) returns (r: Option<seq<byte>>)
      ensures r.Some? <==> key in store.entries
      ensures r.Some? ==> r.value == store.entries[key].payload
    {
      var result := store.TryGetEntry(key);
      if result.Some? {
        return Some(result.value.payload);
      }
      return None;
    }

    /** `Refresh`/`RefreshAsync`: nothing to do, since sliding expiration is
        never accepted. */
    method Refresh(key: Key)
      ensures unchanged(store)
    {
    }

    /** `Remove`/`RemoveAsync`: exactly one delete call for `key`; `key` is gone
        and no other key is touched. */
    method Remove(key: Key)
      modifies store
      ensures store.writes == old(store.writes) + [DeleteWrite(key)]
      ensures store.entries == old(store.entries) - {key}
    {
      store.Delete(key);
    }

    /** What a set of `payload` under `key` with non-null `options` does once
        the payload is in hand: refused options raise their error before any
        store call; accepted ones issue exactly one create call carrying the
        TTL they determine (none for the no-TTL overload), and the set
        succeeds exactly when the store took it. */
    twostate predicate SetEffect(key: Key, payload: seq<byte>, options: CacheEntryOptions, now: Instant, new r: Outcome<CacheError>)
      reads this, store
    {
      match ValidateCacheOptionsAndDetermineTtl(options, now)
      case Failure(e) => r == Fail(e) && unchanged(store)
      case Success(ttl) => (r == Pass || r == Fail(StoreRefused)) && store.Created(key, payload, ttl, r == Pass)
    }

    /** `Set`/`SetAsync` with a `byte[]` payload. */
    method Set(key: Key, value: seq<byte>, options: Option<CacheEntryOptions>, now: Instant) returns (r: Outcome<CacheError>)
      modifies store
      ensures options.None? ==> r == Fail(OptionsNull) && unchanged(store)
      ensures options.Some? ==> SetEffect(key, value, options.value, now, r)
    {
      if options.None? {
        return Fail(OptionsNull);
      }
      var ttl := ValidateCacheOptionsAndDetermineTtl(options.value, now);
      if ttl.Failure? {
        return Fail(ttl.error);
      }
      var accepted := store.Create(key, value, ttl.value);
      r := if accepted then Pass else Fail(StoreRefused);
    }

    /** `Set`/`SetAsync` with a `ReadOnlySequence<byte>` payload. The sequence
        is copied into memory of `(int)value.Length` bytes before the options
        are validated, so a sequence longer than `Array.MaxLength` fails while
        allocating or copying, whatever the options; otherwise the stored payload is exactly
        the sequence's `Length` bytes in order. */
    method SetSequence(key: Key, value: ReadOnlySequence, options: Option<CacheEntryOptions>, now: Instant)
      returns (r: Outcome<CacheError>)
      requires SequenceLength(value) <= Int64Max
      modifies store
      ensures options.None? ==> r == Fail(OptionsNull) && unchanged(store)
      ensures options.Some? && SequenceLength(value) > MaxArrayLength ==> r.Fail? && r.error.Buffer? && unchanged(store)
      ensures options.Some? && SequenceLength(value) <= MaxArrayLength ==> SetEffect(key, Flatten(value), options.value, now, r)
    {
      if options.None? {
        return Fail(OptionsNull);
      }
      var length := SequenceLength(value);
      var owner := AllocateMemoryOwner(ToInt32(length));
      if owner.Failure? {
        return Fail(Buffer(owner.error));
      }
      var memory := owner.value;
      var copied := CopyTo(value, memory);
      if copied.Fail? {
        return Fail(Buffer(copied.error));
      }
      assert memory[..] == Flatten(value);
      var ttl := ValidateCacheOptionsAndDetermineTtl(options.value, now);
      if ttl.Failure? {
        return Fail(ttl.error);
      }
      var accepted := store.Create(key, memory[..], ttl.value);
      r := if accepted then Pass else Fail(StoreRefused);
    }

    /** `TryGet`/`TryGetAsync`: on a hit, appends exactly the payload to the
        caller's writer and answers true; on a miss answers false and leaves
        the writer as it was. */
    method TryGet(key: Key, destination: BufferWriter) returns (found: bool)
      modifies destination
      ensures found <==> key in store.entries
      ensures found ==> destination.written == old(destination.written) + store.entries[key].payload
      ensures !found ==> destination.written == old(destination.written)
    {
      var result := store.TryGetEntry(key);
      if result.Some? {
        destination.Write(result.value.payload);
        return true;
      }
      return false;
    }
  }

  /** The remove round trip: a set with default options (so through the no-TTL
      create) that the store takes is read back, and after a remove the key
      reads as absent. */
  method RemoveRoundTrip(cache: NatsDistributedCache, key: Key, value: seq<byte>, now: Instant)
    returns (stored: bool, before: Option<seq<byte>>, after: Option<seq<byte>>)
    modifies cache.store
    ensures stored ==> before == Some(value)
    ensures after == None
  {
    var outcome := cache.Set(key, value, Some(CacheEntryOptions(None, None, None)), now);
    stored := outcome == Pass;
    before := cache.Get(key);
    cache.Remove(key);
    after := cache.Get(key);
  }
}
