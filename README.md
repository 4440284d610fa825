# NatsDistributedCache, modelled in Dafny

`NatsDistributedCache` implements .NET's `IBufferDistributedCache` on top of
a NATS JetStream key/value bucket. Its own logic is small:

- It turns `DistributedCacheEntryOptions` into a TTL for the bucket. Sliding
  expiration is refused. Otherwise relative-to-now is used as given. Otherwise
  an absolute expiration gives the span from the current time to it. With
  none of the three, there is no TTL.
- It forwards each cache operation to the bucket: a set becomes a
  `CreateAsync` (with or without a TTL), a get becomes `TryGetEntryAsync`,
  and a remove becomes `DeleteAsync`. Refresh does nothing.
- The `ReadOnlySequence<byte>` overload of `Set` first copies the sequence
  into pooled memory of `(int)value.Length` bytes, then validates, then
  writes.

Modules:

- `Wrappers` — `Option` (C# `null`), `Result`, `Outcome`.
- `DotNet` — the base-library pieces the adapter depends on: bytes, tick
  counts for `TimeSpan` and `DateTimeOffset`, the unchecked `(int)` cast,
  `ReadOnlySequence<byte>` as a list of segments with its `Length` and
  `CopyTo`, and the caller's `IBufferWriter<byte>`.
- `NatsKv` — the bucket as a class holding a map from key to (payload,
  optional TTL), plus a ghost log of the create and delete calls issued to it.
  What `Create` does on a key that already exists is the NATS client's
  business. So `Create` may be refused by the store; if it is accepted, the
  entry is exactly what was sent. `NatsMemoryOwner<byte>.Allocate` is here too.
- `DistributedCache` — the options and errors, the TTL rule, and the
  `NatsDistributedCache` class. Each synchronous method and its `...Async`
  twin are one method. The clock reading `DateTimeOffset.UtcNow` is the
  parameter `now`.

`IDistributedCache.Set` is normally expected to overwrite an existing entry.
This code calls the bucket's `CreateAsync`, so whether an existing key is
overwritten is the NATS client's choice. The model follows the code and
leaves this decision to the store.

## Model

| member | source | states |
|---|---|---|
| `DistributedCache.ValidateCacheOptionsAndDetermineTtl` | src/Stebet.Nats.DistributedCache/NatsDistributedCache.cs:137-158 | Fails exactly when sliding expiration is set, always with the fixed not-supported error, whatever the other fields hold. Without sliding, relative-to-now wins and is the TTL unchanged, ignoring the absolute expiration. With absolute expiration only, `now` plus the TTL equals the deadline; the TTL is not clamped and may be zero or negative. There is no TTL exactly when all three fields are unset. |
| `DistributedCache.TtlEndsAtRequestedExpiry` | src/Stebet.Nats.DistributedCache/NatsDistributedCache.cs:144-151 | For every accepted options value, the TTL counted from the moment of writing ends at the instant the options request. There is a TTL exactly when some expiry was requested. |
| `DistributedCache.NatsDistributedCache.Open` | src/Stebet.Nats.DistributedCache/NatsDistributedCache.cs:36-40 | A null store handle after provisioning throws `InvalidOperationException` with the fixed message. Otherwise the cache wraps exactly that store. |
| `DistributedCache.NatsDistributedCache.Get` | src/Stebet.Nats.DistributedCache/NatsDistributedCache.cs:44-56 | Returns the stored payload exactly when the key has a live entry, and null otherwise. |
| `DistributedCache.NatsDistributedCache.Refresh` | src/Stebet.Nats.DistributedCache/NatsDistributedCache.cs:59-65 | Changes nothing in the store. |
| `DistributedCache.NatsDistributedCache.Remove` | src/Stebet.Nats.DistributedCache/NatsDistributedCache.cs:68-71 | Issues exactly one delete call, for the key. Afterwards the key is absent and every other key keeps its entry. |
| `DistributedCache.NatsDistributedCache.Set` | src/Stebet.Nats.DistributedCache/NatsDistributedCache.cs:74-93 | Null options throw `ArgumentNullException("options")` and the store is untouched. Refused (sliding) options throw their error before any store call. Otherwise exactly one create call is issued, carrying the key, the bytes and the determined TTL (the no-TTL overload when there is none). The set succeeds exactly when the store accepts it, and the entry is then exactly those bytes and that TTL. |
| `DistributedCache.NatsDistributedCache.SetSequence` | src/Stebet.Nats.DistributedCache/NatsDistributedCache.cs:111-135 | Null options throw first. A sequence longer than `Array.MaxLength` (0x7FFFFFC7) fails while allocating or copying, before validation, whatever the options, and the store is untouched. Otherwise it behaves like `Set`, and the payload handed to the store is exactly the sequence's `Length` bytes in order. |
| `DistributedCache.NatsDistributedCache.TryGet` | src/Stebet.Nats.DistributedCache/NatsDistributedCache.cs:95-109 | Returns true exactly when the key has a live entry. On a hit it appends exactly the payload to the caller's writer. On a miss it leaves the writer unchanged. |
| `DistributedCache.RemoveRoundTrip` | tests/Stebet.Nats.DistributedCache.Tests/NatsDistributedCacheTests.cs:77-89 | A set with default options that the store accepts reads back the same bytes. After a remove, the key reads as absent. |
| `NatsKv.KvStore.Create` | src/Stebet.Nats.DistributedCache/NatsDistributedCache.cs:90-92 | Logs one create call with its arguments. If accepted, the entry under the key becomes exactly (payload, TTL). If refused, the bucket is unchanged. No other key changes. |
| `NatsKv.KvStore.TryGetEntry` | src/Stebet.Nats.DistributedCache/NatsDistributedCache.cs:49-50 | A hit exactly when the key has a live entry, and then that entry. |
| `NatsKv.KvStore.Delete` | src/Stebet.Nats.DistributedCache/NatsDistributedCache.cs:71 | Logs one delete call. The key is absent afterwards, with no error if it was absent already, and no other key changes. |
| `NatsKv.AllocateMemoryOwner` | src/Stebet.Nats.DistributedCache/NatsDistributedCache.cs:124 | Fresh memory of exactly the requested size. A negative size is refused, and so is a size above `Array.MaxLength`. |
| `DotNet.ToInt32` | src/Stebet.Nats.DistributedCache/NatsDistributedCache.cs:124 | The unchecked `(int)` cast of a `long`: the result is in the `int` range, agrees with the input modulo 2^32, and equals the input exactly when the input fits. |
| `DotNet.SequenceLength` | src/Stebet.Nats.DistributedCache/NatsDistributedCache.cs:124 | `ReadOnlySequence.Length`: the byte count over all segments, so no segment is longer than the whole. |
| `DotNet.Flatten` | src/Stebet.Nats.DistributedCache/NatsDistributedCache.cs:124-125 | A sequence's bytes in reading order number exactly its `Length`. |
| `DotNet.CopyTo` | src/Stebet.Nats.DistributedCache/NatsDistributedCache.cs:125 | Refuses a destination shorter than the sequence and leaves it unchanged. Otherwise its first `Length` bytes become the sequence's bytes in order, and the rest is unchanged. |
| `DotNet.Between` | src/Stebet.Nats.DistributedCache/NatsDistributedCache.cs:150 | The `TimeSpan` from `now` to the deadline added to `now` gives the deadline. The `Duration` type proves it never overflows a `TimeSpan`. |
| `DotNet.BufferWriter.Write` | src/Stebet.Nats.DistributedCache/NatsDistributedCache.cs:104 | Appends the span to what the writer holds. |

## Left out

- Bucket provisioning in the constructor (`CreateOrUpdateStoreAsync` with a 10-minute `LimitMarkerTTL`, run through `Task.Run(...).Wait()`): network I/O behind a blocking bridge. `Open` keeps only the null-handle check.
- Sync-over-async plumbing (`.Wait()`, `GetAwaiter().GetResult()`) and cancellation tokens: each operation is one synchronous method.
- TTL expiry, replication, and what `CreateAsync` does on an existing key: these live in the NATS client and server. The store never expires entries by itself, and `Create` may refuse any call.
- Network and server failures of `TryGetEntryAsync` and `DeleteAsync`, and the NATS client's own key validation (an empty or malformed key makes `CreateAsync` and `DeleteAsync` throw and `TryGetEntryAsync` miss): the model's store always answers them and accepts every key.
- How the NATS client serialises `byte[]` and `NatsMemoryOwner<byte>` payloads: a payload is stored and read back as the same bytes.
- NatsKv.AllocateMemoryOwner: does not model running out of memory for a size the runtime allows; only the negative and above-`Array.MaxLength` refusals are modelled.
- DistributedCache.NatsDistributedCache.SetSequence: for the same reason, a sequence the runtime could hold but the machine cannot allocate is promised a create call rather than an out-of-memory failure.
- Disposing the pooled memory (`using var memoryOwner`), and the unspecified initial contents of pooled memory beyond what `CopyTo` writes.
- `DistributedCacheEntryOptions` itself rejects non-positive relative and sliding values in its setters. That check is library code outside this repository, so the model accepts any tick count there.
- Null keys and null `byte[]` values: the adapter does not check them and hands them to the NATS client. The model's keys and payloads are never null.
- `SetSequence` requires the sequence length to fit a `long`, as `ReadOnlySequence.Length` always does.
- `ServiceCollectionExtensions.cs` (dependency-injection registration) and `NatsDistributedCacheOptions.cs` (default bucket name): wiring over library code whose semantics are not part of this model.
