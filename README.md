# recordCache: a verified model of the GB28181 record-query correlation cache

`recordCache` (bus.go) correlates the asynchronous, multi-fragment answers to a record
query with the request that asked for them. A request is identified by the key
`deviceId-channelId-sn`. The cache keeps two maps:

- `cache`: key → `records` (creation time, the fragment count stored at creation,
  a `finished` flag, the fragments received so far);
- `subscribers`: key → a one-shot callback with its timeout and registration time.

`Put` appends fragments to the key's record and, once the list length equals the call's
`sum`, calls `notify`. `SubscribeOnce` registers (or replaces) the key's subscriber.
`notify` invokes the subscriber, if any, and removes the key from both maps. A background
loop (`watchTimeout`) ticks once a second: it notifies timed-out subscribers whose key has a
record, then drops records older than 60 s.

The model:

- `key.dfy` (module `Key`): `RecordKey` and Go's `%d` rendering of the sequence number,
  with its read-back function; the key is injective when neither id contains `-`.
- `model.dfy` (module `Model`): the cache state as a value, `State(cache, subscribers, log)`,
  and one function per operation (`PutStep`, `SubscribeStep`, `NotifyStep`, `SweepStep`).
  Each invocation of a callback is recorded in `log` as `Delivery(key, callback, record)`.
  The lemmas state what each operation promises.
- `bus.dfy` (module `Bus`): the class `RecordCache` with the two maps as fields and a ghost
  delivery log. `Put`, `DoPut`, `SubscribeOnce`, `Notify` and `SweepTick` update the fields
  in place. `SweepTick` is one tick of `watchTimeout`; its two passes are the loops of
  `NotifyTimedOut` and `EvictExpired`. Each method is
  proved to produce the state the matching `Model` function gives. `Put`, `SubscribeOnce`
  and `SweepTick` also keep the invariant that no finished record stays in the cache
  (`DoPut` may store a finished record, which `Put` then passes to `Notify`).
- `traces.dfy` (module `Traces`): arbitrary sequences of Put, SubscribeOnce and sweep ticks
  from the empty cache. It proves at-most-once delivery, that a replaced subscriber is never
  invoked, that the cache invariant always holds, and seven concrete scenarios. At-most-once
  relies on every operation being one atomic step (see "Left out").

Modelling choices:

- Time is an integer `now` passed to `Put` and `SweepTick`. Durations use the same unit
  (nanoseconds, as `time.Duration`), so `Expire` is `60 * Second`.
- `SubscribeOnce` takes the whole subscriber, as the Go method does. Its `startTime` is set
  by the caller.
- Fragments (`*Record`) are an opaque type `R`. Callbacks are an opaque type `C`. A
  callback value stands for one registration: the model assumes that distinct
  registrations bring distinct callback values. Go func values cannot be compared, so
  this is an assumption of the model, not something the code checks. At-most-once is
  stated under it.
- Go's map iteration order is unspecified. `SweepTick` therefore returns, as a ghost value,
  the order in which pass 1 visited the subscriber keys. `Model.SweepStep` is a function of
  that order. `SweepMaps` and `SweepLog` show that the resulting maps and the set of
  deliveries do not depend on it.

Behaviour the model follows because the code does it, although one might expect otherwise:

- The stored `sum` is written only when a record is created (bus.go:84). Later calls do not
  overwrite it. Completion compares the list length with the `sum` argument of the current
  call (bus.go:88). So a record created with sum 3 completes on a later call that says 2 and
  brings the length to 2, and the delivered record still carries sum 3
  (`Traces.StoredSumScenario`).
- A timed-out subscriber whose key has no record is not removed by the sweep (bus.go:56-59).
  It stays registered (`Traces.SilentTimeoutScenario`). It is invoked only if a later Put for
  its key arrives, even one with no fragments: that Put creates the record (bus.go:84), and
  the next tick or, when the Put completes the record, the Put itself invokes it
  (`Traces.LateFragmentScenario`, `Traces.EmptyPutScenario`). Otherwise it is never invoked,
  and it leaves the map only when a later SubscribeOnce for the same key replaces it
  (`Traces.SilentReplacementScenario`).
- The key is `deviceId + "-" + channelId + "-" + decimal(sn)`. It is unique only when the
  ids contain no `-` (`Key.RecordKeyInjective`; for the converse, `Key.DashInDeviceCollides`
  and `Key.DashInChannelCollides`).

## Model

| member | source | states |
|---|---|---|
| Key.NatDecimal | bus.go:117-119 | `%d` of a natural number: non-empty, only decimal digits, no leading zero (a leading `0` only in "0" itself) |
| Key.DecimalRoundTrip | bus.go:117-119 | the signed decimal rendering of `sn` reads back to `sn`, so different sequence numbers render differently |
| Key.RecordKeyInjective | bus.go:15-18 | equal keys come from equal (deviceId, channelId, sn) whenever neither id contains `-` |
| Key.DashInDeviceCollides | bus.go:117-119 | for all ids and `sn`, a `-` in the device id can be moved into the channel id without changing the key, so the request is not recoverable from the key |
| Key.DashInChannelCollides | bus.go:117-119 | for all ids and `sn`, a `-` in the channel id can be moved into the device id without changing the key |
| Key.RecordKeyAmbiguous | bus.go:117-119 | with a `-` inside an id, two different requests ("a-b","c",1) and ("a","b-c",1) share one key |
| Model.PutRecordContents | bus.go:81-90 | a new record gets time `now`, the call's `sum` and the given fragments; an existing record keeps its time and stored sum and gets the old list followed by the fragments; `finished` holds exactly when the new length equals this call's `sum` |
| Model.PutIncomplete | bus.go:70-91 | a Put whose list length differs from its `sum` (below or past it) leaves the record unfinished in the cache with the appended list, delivers nothing, and changes no other entry |
| Model.PutComplete | bus.go:70-75 | a Put that completes the record removes the key from both maps; a waiting subscriber gets exactly one delivery, with the full list and `finished` set; without a subscriber nothing is delivered |
| Model.PutSeriesAccumulates | bus.go:77-91 | Puts on a key without a record that never bring the list length to `sum` leave one unfinished record, stamped with the first Put's time and holding all fragments in order; nothing is delivered |
| Model.CompletionAcrossPuts | bus.go:70-91 | a response split over several Puts with the same `sum`, no proper prefix of which has length `sum` and all of which together do: a waiting subscriber gets exactly one delivery, a finished record with the first Put's time and every fragment in order; the key ends in neither map and nothing else changes |
| Model.PutKeepsNoFinished | bus.go:70-97 | after a Put no finished record remains in the cache |
| Model.NotifyEffect | bus.go:106-115 | notify delivers the record only when the key has a subscriber, always removes the key from both maps, and leaves every other key of both maps unchanged |
| Model.SubscribeEffect | bus.go:99-104 | SubscribeOnce makes the new subscriber the key's subscriber, replacing any earlier one, and changes nothing else |
| Model.Pass1Effect | bus.go:55-61 | pass 1 over any duplicate-free visiting order removes exactly the visited due keys from both maps and appends their deliveries to the log |
| Model.DueDeliveriesExact | bus.go:55-61 | each pass-1 delivery goes to a timed-out subscriber whose key has a record, with that record; their keys are exactly the visited due keys, none twice |
| Model.SweepMaps | bus.go:55-66 | after one tick, timed-out subscribers with a record are gone; timed-out subscribers without a record and subscribers not yet timed out stay; the records left are exactly the old ones that were neither delivered nor older than `expire` |
| Model.SweepLog | bus.go:55-61 | one tick appends exactly one delivery per timed-out subscriber that has a record, carrying its current record, finished or not |
| Model.EvictBoundary | bus.go:62-66 | a record exactly `expire` old survives the tick, because the comparison is strict |
| Model.Pass1KeepsNoFinished | bus.go:55-61 | pass 1 keeps the invariant that no finished record stays in the cache |
| Model.SweepKeepsNoFinished | bus.go:55-66 | a whole tick keeps that invariant |
| Bus.RecordCache.constructor | bus.go:38-43 | a new cache has both maps empty and has delivered nothing |
| Bus.RecordCache.Put | bus.go:70-75 | the cache after Put is `PutStep` of the cache before, and no finished record remains |
| Bus.RecordCache.DoPut | bus.go:77-97 | doPut returns the key and the updated record, stores that record under the key, and leaves the subscribers alone |
| Bus.RecordCache.SubscribeOnce | bus.go:99-104 | the cache after SubscribeOnce is `SubscribeStep` of the cache before |
| Bus.RecordCache.Notify | bus.go:106-115 | the cache after notify is `NotifyStep` of the cache before |
| Bus.RecordCache.SweepTick | bus.go:51-68 | one tick visits every old subscriber key once, and the cache after it is `SweepStep` of the cache before for that order; the invariant is kept |
| Bus.RecordCache.NotifyTimedOut | bus.go:55-61 | the loop over the subscribers visits every key once, and the cache after it is `Pass1` of the cache before for that visiting order |
| Bus.RecordCache.EvictExpired | bus.go:62-66 | the loop over the records leaves exactly those not older than `expire`, and leaves the subscribers and the log alone |
| Traces.NotifyKeepsOnce | bus.go:106-115 | notify keeps the at-most-once invariant: no callback logged twice, no logged callback still registered, no callback under two keys |
| Traces.Pass1KeepsOnce | bus.go:55-61 | pass 1 keeps the at-most-once invariant |
| Traces.SubscribeKeepsOnce | bus.go:99-104 | registering a callback not seen before keeps the at-most-once invariant |
| Traces.ApplyKeepsOnce | bus.go:70-104 | every operation keeps the at-most-once invariant |
| Traces.RunKeepsOnce | bus.go:106-115 | any trace from the empty cache whose registrations bring distinct callbacks keeps the at-most-once invariant |
| Traces.AtMostOnce | bus.go:106-115 | in any such trace no callback is invoked twice, and only registered callbacks are invoked |
| Traces.NotifyWithout | bus.go:106-115 | notify never invokes a callback that is not registered |
| Traces.Pass1Without | bus.go:55-61 | pass 1 never invokes a callback that is not registered |
| Traces.RunWithout | bus.go:99-104 | a callback not registered, and not registered again by the trace, is never invoked by it |
| Traces.ReplacedNeverInvoked | bus.go:99-104 | after SubscribeOnce replaces a key's subscriber, the replaced callback is never invoked by later operations |
| Traces.RunKeepsNoFinished | bus.go:70-91 | no finished record ever stays in the cache, whatever the operations |
| Traces.CompletionScenario | bus.go:70-115 | fragments a, b, a subscriber, then fragment c with sum 3: one delivery of [a, b, c] with `finished` set, and both maps empty |
| Traces.SilentTimeoutScenario | bus.go:55-61 | a subscriber whose key never got a fragment is never invoked and stays registered after the tick past its timeout |
| Traces.LateFragmentScenario | bus.go:55-61 | a subscriber left registered by a tick past its timeout is invoked by the next tick, with the incomplete record, once a fragment for its key has arrived; both maps end empty |
| Traces.EmptyPutScenario | bus.go:70-91 | a subscriber left registered by a tick past its timeout is invoked at once by a later Put with no fragments and sum 0, whose empty list completes the record; both maps end empty |
| Traces.SilentReplacementScenario | bus.go:99-104 | a subscriber left registered by a tick past its timeout is dropped without being invoked when a later SubscribeOnce for the same key replaces it |
| Traces.StoredSumScenario | bus.go:81-90 | a record created with sum 3 completes on a later Put with sum 2 and two fragments; the delivery carries the stored sum 3 |
| Traces.EvictionScenario | bus.go:62-66 | a record is kept by a tick exactly `expire` after creation, dropped by a later one, and the next Put starts a fresh record |

## Left out

- The profiling HTTP server started by `NewRecordCache` (bus.go:45-47): network I/O unrelated to the cache.
- The goroutine and the one-second ticker of `watchTimeout` (bus.go:44, 52-54): one tick is the method `SweepTick(now)`; how often it runs is not modelled.
- The `sync.RWMutex`, the unlocked map reads in `notify` and `watchTimeout`, and the callback invoked outside the lock: every operation is one atomic step. Races between concurrent callers are not modelled. At-most-once delivery is proved only under this atomicity: in bus.go two concurrent notifies for one key (a tick racing a completing Put, or two Puts that both see `finished`, bus.go:82, 88) can each read the subscriber before either deletes it (bus.go:107-113) and both invoke the callback. Pass 2 also deletes from the cache without the lock (bus.go:64); beside a locked write of `doPut` (bus.go:91) Go's runtime may abort the process on this concurrent map write.
- What a callback does (bus.go:108): an invocation is only recorded in the ghost delivery log.
- zap debug logging (bus.go:92-95, 114) and the global singleton `RecordCache` (bus.go:121).
- Wall-clock reads `time.Now` and `time.Since` (bus.go:56, 63, 84): replaced by the integer parameter `now`. Time and durations are unbounded integers, so the 64-bit range of `time.Duration` is not modelled.
- The contents of `Record`: an opaque type parameter, only stored and counted.
- Go strings are byte sequences; the model uses sequences of `char`. Keys are only built and compared for equality, and the delimiter `-` is ASCII, so nothing the model states depends on the difference.
- `watchTimeout` reads the clock once per entry (bus.go:56 and bus.go:63), so entries visited later in a tick see a slightly later time; `SweepTick` uses one `now` for both passes.
