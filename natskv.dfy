/**
 * The NATS key/value bucket as the adapter sees it through the client's
 * `INatsKVStore`: a map from key to payload and optional TTL. The store's own
 * policies (expiry, what `Create` does on a key that already exists) belong to
 * the NATS client and server and are left open: `Create` may be refused.
 */
module NatsKv {
  import opened Wrappers
  import opened DotNet

  type Key = string

  /** A live entry of the bucket: its payload and the TTL it was created with. */
  datatype Entry = Entry(payload: seq<byte>, ttl: Option<Duration>)

  /** A call that asks the store to change the bucket. `CreateWrite` with
      `ttl == None` is the client's `CreateAsync` overload without a TTL. */
  datatype StoreWrite =
    | CreateWrite(key: Key, payload: seq<byte>, ttl: Option<Duration>)
    | DeleteWrite(key: Key)

  class KvStore {
    /** The live entries of the bucket. */
    var entries: map<Key, Entry>
    /** Every state-changing call issued to the store, oldest first. */
    ghost var writes: seq<StoreWrite>

    constructor (initial: map<Key, Entry>)
      ensures entries == initial && writes == []
    {
      entries := initial;
      writes := [];
    }

    /** One `CreateAsync(key, payload[, ttl])` call was issued and, if the store
        accepted it, the entry under `key` is now exactly `(payload, ttl)`;
        otherwise the bucket is as it was. No other key changes either way. */
    twostate predicate Created(key: Key, payload: seq<byte>, ttl: Option<Duration>, accepted: bool)
      reads this
    {
      writes == old(writes) + [CreateWrite(key, payload, ttl)] &&
      entries == if accepted then old(entries)[key := Entry(payload, ttl)] else old(entries)
    }

    /** `CreateAsync`: whether the store takes the entry is the store's decision
        (the NATS client throws when the key already holds a value). */
    method Create(key: Key, payload: seq<byte>, ttl: Option<Duration>) returns (accepted: bool)
      modifies this
      ensures Created(key, payload, ttl, accepted)
    {
      accepted :| true;
      if accepted {
        entries := entries[key := Entry(payload, ttl)];
      }
      writes := writes + [CreateWrite(key, payload, ttl)];
    }

    /** `TryGetEntryAsync`: the live entry under `key`, or a miss. */
    method TryGetEntry(key: Key) returns (r: Option<Entry>)
      ensures r.Some? <==> key in entries
      ensures r.Some? ==> r.value == entries[key]
    {
      r := if key in entries then Some(entries[key]) else None;
    }

    /** `DeleteAsync`: one delete call for `key`; afterwards `key` is absent and
        every other key keeps its entry. Deleting an absent key is no error. */
    method Delete(key: Key)
      modifies this
      ensures writes == old(writes) + [DeleteWrite(key)]
      ensures entries == old(entries) - {key}
    {
      entries := entries - {key};
      writes := writes + [DeleteWrite(key)];
    }
  }

  /** `NatsMemoryOwner<byte>.Allocate(size)`: fresh memory of exactly `size`
      bytes (pooled, so its initial contents are unspecified); a negative size
      is refused, and so is one that no byte array can have. */
  method AllocateMemoryOwner(size: int) returns (r: Result<array<byte>, BufferError>)
    ensures r.Failure? <==> size < 0 || size > MaxArrayLength
    ensures size < 0 ==> r == Failure(NegativeSize)
    ensures size > MaxArrayLength ==> r == Failure(TooLarge)
    ensures r.Success? ==> fresh(r.value) && r.value.Length == size
  {
    if size < 0 {
      return Failure(NegativeSize);
    }
    if size > MaxArrayLength {
      return Failure(TooLarge);
    }
    var memory := new byte[size];
    return Success(memory);
  }
}
