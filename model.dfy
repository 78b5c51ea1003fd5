/**
 The record cache as values: its two maps and the log of callback invocations, and one
 function per operation of bus.go giving the state after it. The class in module Bus is
 proved to follow these functions; the lemmas here state what the operations promise.

 Timestamps and durations are integers in one unit (nanoseconds, as time.Duration).
 A fragment is an opaque value of type R; a callback is an opaque value of type C whose
 invocation is recorded as a Delivery in the log.
 */
module Model {

  const Second: int := 1_000_000_000

  /** recordCache.expire: records older than this are evicted by the sweep. */
  const Expire: int := 60 * Second

  /** records: creation time, the count stored at creation, completion flag, fragments. */
  datatype Records<R> = Records(time: int, sum: int, finished: bool, list: seq<R>)

  /** subscriber: a one-shot callback, its timeout and its registration time. */
  datatype Subscriber<C> = Subscriber(callback: C, timeout: int, startTime: int)

  /** One invocation of a subscriber's callback: for which key, which callback, with what. */
  datatype Delivery<R, C> = Delivery(key: string, callback: C, rec: Records<R>)

  datatype State<R, C> = State(
    cache: map<string, Records<R>>,
    subscribers: map<string, Subscriber<C>>,
    log: seq<Delivery<R, C>>)

  function Empty<R, C>(): State<R, C> {
    State(map[], map[], [])
  }

  /** The cache invariant: a finished record never stays in the cache. */
  ghost predicate NoFinished<R, C>(s: State<R, C>) {
    forall k :: k in s.cache ==> !s.cache[k].finished
  }

  // ---------------------------------------------------------------- Put

  /** The record doPut stores: the existing one (or a fresh one) with the fragments appended. */
  function PutRecord<R>(cache: map<string, Records<R>>, key: string, now: int, sum: int,
                        fragments: seq<R>): Records<R>
  {
    var r := if key in cache then cache[key] else Records(now, sum, false, []);
    var list := r.list + fragments;
    r.(list := list, finished := r.finished || |list| == sum)
  }

  /** Put: doPut, then notify when the record came out finished. */
  function PutStep<R, C>(s: State<R, C>, key: string, now: int, sum: int,
                         fragments: seq<R>): State<R, C>
  {
    var r := PutRecord(s.cache, key, now, sum, fragments);
    var s1 := s.(cache := s.cache[key := r]);
    if r.finished then NotifyStep(s1, key, r) else s1
  }

  // ---------------------------------------------------------------- SubscribeOnce

  function SubscribeStep<R, C>(s: State<R, C>, key: string, sub: Subscriber<C>): State<R, C> {
    s.(subscribers := s.subscribers[key := sub])
  }

  // ---------------------------------------------------------------- notify

  /** notify: call the key's subscriber (if any) with r, then drop the key from both maps. */
  function NotifyStep<R, C>(s: State<R, C>, key: string, r: Records<R>): State<R, C> {
    State(
      s.cache - {key},
      s.subscribers - {key},
      if key in s.subscribers then s.log + [Delivery(key, s.subscribers[key].callback, r)] else s.log)
  }

  // ---------------------------------------------------------------- one tick of watchTimeout

  predicate TimedOut<C>(sub: Subscriber<C>, now: int) {
    now - sub.startTime > sub.timeout
  }

  predicate Expired<R>(r: Records<R>, now: int) {
    now - r.time > Expire
  }

  /** Pass 1, one key: a timed-out subscriber whose key has a record is notified with it. */
  function Visit<R, C>(s: State<R, C>, now: int, k: string): State<R, C> {
    if k in s.subscribers && TimedOut(s.subscribers[k], now) && k in s.cache
    then NotifyStep(s, k, s.cache[k])
    else s
  }

  /** Pass 1 over the subscriber keys in the order the map iteration produced them. */
  function Pass1<R, C>(s: State<R, C>, now: int, order: seq<string>): State<R, C>
    decreases |order|
  {
    if order == [] then s
    else Visit(Pass1(s, now, order[..|order| - 1]), now, order[|order| - 1])
  }

  /** Pass 2: the records not older than Expire. */
  function Evict<R>(cache: map<string, Records<R>>, now: int): map<string, Records<R>> {
    map k | k in cache && !Expired(cache[k], now) :: cache[k]
  }

  /** One tick of the sweeper. */
  function SweepStep<R, C>(s: State<R, C>, now: int, order: seq<string>): State<R, C> {
    var s1 := Pass1(s, now, order);
    s1.(cache := Evict(s1.cache, now))
  }

  /** The keys pass 1 delivers: timed-out subscribers that have a record. */
  ghost function Due<R, C>(s: State<R, C>, now: int): set<string> {
    set k | k in s.subscribers && TimedOut(s.subscribers[k], now) && k in s.cache
  }

  ghost predicate Distinct<T>(xs: seq<T>) {
    forall i, j :: 0 <= i < j < |xs| ==> xs[i] != xs[j]
  }

  /** `order` lists every key of `keys` exactly once: one iteration over a map. */
  ghost predicate Enumerates(order: seq<string>, keys: set<string>) {
    Distinct(order) && (forall k :: k in order <==> k in keys)
  }

  /** d is the delivery pass 1 makes for a due key: to its subscriber, with its current record. */
  ghost predicate IsDueDelivery<R, C>(s: State<R, C>, now: int, d: Delivery<R, C>) {
    d.key in Due(s, now) && d == Delivery(d.key, s.subscribers[d.key].callback, s.cache[d.key])
  }

  /** The deliveries pass 1 makes, in the visiting order. */
  ghost function DueDeliveries<R, C>(s: State<R, C>, now: int, order: seq<string>): seq<Delivery<R, C>>
    decreases |order|
  {
    if order == [] then []
    else
      var k := order[|order| - 1];
      DueDeliveries(s, now, order[..|order| - 1])
      + (if k in Due(s, now) then [Delivery(k, s.subscribers[k].callback, s.cache[k])] else [])
  }

  /** The keys of a sequence of deliveries, in order. */
  function KeysOf<R, C>(ds: seq<Delivery<R, C>>): seq<string> {
    seq(|ds|, i requires 0 <= i < |ds| => ds[i].key)
  }

  /** The fragments a key holds before a Put: its record's list, or none. */
  function ListBefore<R>(cache: map<string, Records<R>>, key: string): seq<R> {
    if key in cache then cache[key].list else []
  }

  /** m2 agrees with m1 on every key other than `key`. */
  ghost predicate SameElsewhere<V>(m1: map<string, V>, m2: map<string, V>, key: string) {
    forall k :: k != key ==> (k in m1 <==> k in m2) && (k in m1 ==> m1[k] == m2[k])
  }

  // ---------------------------------------------------------------- lemmas

  /**
   Put on an absent key creates a record stamped `now` holding the call's sum and fragments;
   on a present key it appends the fragments and keeps the stored time and sum.
   `finished` is set exactly when the new length equals this call's `sum` (records in the
   cache are never finished).
   */
  lemma PutRecordContents<R>(cache: map<string, Records<R>>, key: string, now: int, sum: int,
                             fragments: seq<R>)
    requires forall k :: k in cache ==> !cache[k].finished
    ensures key !in cache ==>
      PutRecord(cache, key, now, sum, fragments).time == now
      && PutRecord(cache, key, now, sum, fragments).sum == sum
    ensures key in cache ==>
      PutRecord(cache, key, now, sum, fragments).time == cache[key].time
      && PutRecord(cache, key, now, sum, fragments).sum == cache[key].sum
    ensures PutRecord(cache, key, now, sum, fragments).list == ListBefore(cache, key) + fragments
    ensures PutRecord(cache, key, now, sum, fragments).finished
      <==> |ListBefore(cache, key) + fragments| == sum
  {
  }

  /**
   A Put that does not complete the record leaves it in the cache, unfinished and holding
   the appended list, and delivers nothing; nothing else changes.
   */
  lemma PutIncomplete<R, C>(s: State<R, C>, key: string, now: int, sum: int, fragments: seq<R>)
    requires NoFinished(s)
    requires |ListBefore(s.cache, key) + fragments| != sum
    ensures key in PutStep(s, key, now, sum, fragments).cache
    ensures PutStep(s, key, now, sum, fragments).cache[key]
      == PutRecord(s.cache, key, now, sum, fragments)
    ensures !PutStep(s, key, now, sum, fragments).cache[key].finished
    ensures SameElsewhere(s.cache, PutStep(s, key, now, sum, fragments).cache, key)
    ensures PutStep(s, key, now, sum, fragments).subscribers == s.subscribers
    ensures PutStep(s, key, now, sum, fragments).log == s.log
  {
  }

  /**
   A Put that completes the record removes the key from both maps; if a subscriber was
   waiting it receives exactly one delivery carrying the complete list with finished set,
   otherwise nothing is delivered. Other keys are untouched.
   */
  lemma PutComplete<R, C>(s: State<R, C>, key: string, now: int, sum: int, fragments: seq<R>)
    requires NoFinished(s)
    requires |ListBefore(s.cache, key) + fragments| == sum
    ensures PutStep(s, key, now, sum, fragments).cache == s.cache - {key}
    ensures PutStep(s, key, now, sum, fragments).subscribers == s.subscribers - {key}
    ensures key in s.subscribers ==>
      PutStep(s, key, now, sum, fragments).log == s.log + [Delivery(key, s.subscribers[key].callback,
        PutRecord(s.cache, key, now, sum, fragments))]
    ensures PutRecord(s.cache, key, now, sum, fragments).finished
    ensures PutRecord(s.cache, key, now, sum, fragments).list == ListBefore(s.cache, key) + fragments
    ensures key !in s.subscribers ==> PutStep(s, key, now, sum, fragments).log == s.log
  {
  }

  /** The fragment lists of fs joined in arrival order. */
  function Concat<R>(fs: seq<seq<R>>): seq<R>
    decreases |fs|
  {
    if fs == [] then [] else Concat(fs[..|fs| - 1]) + fs[|fs| - 1]
  }

  /** Consecutive Puts on one key, all saying `sum`; fragments fs[i] arrive at times[i]. */
  function PutSeries<R, C>(s: State<R, C>, key: string, sum: int, fs: seq<seq<R>>,
                           times: seq<int>): State<R, C>
    requires |times| == |fs|
    decreases |fs|
  {
    if fs == [] then s
    else PutStep(PutSeries(s, key, sum, fs[..|fs| - 1], times[..|times| - 1]),
                 key, times[|fs| - 1], sum, fs[|fs| - 1])
  }

  /**
   Puts on a key without a record, none of which brings the list length to `sum`, leave one
   unfinished record stamped with the first Put's time and holding every fragment in order;
   nothing is delivered and no other entry changes.
   */
  lemma {:induction false} PutSeriesAccumulates<R, C>(s: State<R, C>, key: string, sum: int,
                                                       fs: seq<seq<R>>, times: seq<int>)
    requires |times| == |fs| && fs != []
    requires key !in s.cache
    requires forall j :: 1 <= j <= |fs| ==> |Concat(fs[..j])| != sum
    ensures PutSeries(s, key, sum, fs, times)
      == s.(cache := s.cache[key := Records(times[0], sum, false, Concat(fs))])
    decreases |fs|
  {
    var n := |fs| - 1;
    var ps, pt := fs[..n], times[..n];
    assert fs[..|fs|] == fs;
    if n == 0 {
      assert ps == [];
    } else {
      forall j | 1 <= j <= |ps|
        ensures |Concat(ps[..j])| != sum
      {
        assert ps[..j] == fs[..j];
      }
      PutSeriesAccumulates(s, key, sum, ps, pt);
    }
  }

  /**
   A response split over several Puts with the same `sum`: when no proper prefix of the
   fragments has length `sum` and all of them together do, the waiting subscriber (if any)
   gets exactly one delivery, of a finished record stamped with the first Put's time and
   holding every fragment in order, and the key ends in neither map.
   */
  lemma {:induction false} CompletionAcrossPuts<R, C>(s: State<R, C>, key: string, sum: int,
                                                      fs: seq<seq<R>>, times: seq<int>)
    requires |times| == |fs| && fs != []
    requires key !in s.cache
    requires forall j :: 1 <= j < |fs| ==> |Concat(fs[..j])| != sum
    requires |Concat(fs)| == sum
    ensures PutSeries(s, key, sum, fs, times).cache == s.cache
    ensures PutSeries(s, key, sum, fs, times).subscribers == s.subscribers - {key}
    ensures PutSeries(s, key, sum, fs, times).log == s.log
      + (if key in s.subscribers
         then [Delivery(key, s.subscribers[key].callback, Records(times[0], sum, true, Concat(fs)))]
         else [])
  {
    var n := |fs| - 1;
    var ps, pt := fs[..n], times[..n];
    if n == 0 {
      assert ps == [];
      assert s.cache - {key} == s.cache;
    } else {
      forall j | 1 <= j <= |ps|
        ensures |Concat(ps[..j])| != sum
      {
        assert ps[..j] == fs[..j];
      }
      PutSeriesAccumulates(s, key, sum, ps, pt);
      assert pt[0] == times[0];
      var s1 := s.(cache := s.cache[key := Records(times[0], sum, false, Concat(ps))]);
      assert s1.cache[key := Records(times[0], sum, true, Concat(fs))] - {key} == s.cache;
    }
  }

  /** Put keeps the cache invariant. */
  lemma PutKeepsNoFinished<R, C>(s: State<R, C>, key: string, now: int, sum: int, fragments: seq<R>)
    requires NoFinished(s)
    ensures NoFinished(PutStep(s, key, now, sum, fragments))
  {
  }

  /**
   notify delivers r to the key's subscriber only if there is one, always removes the key
   from both maps, and leaves every other key of both maps as it was.
   */
  lemma NotifyEffect<R, C>(s: State<R, C>, key: string, r: Records<R>)
    ensures key !in NotifyStep(s, key, r).cache && key !in NotifyStep(s, key, r).subscribers
    ensures SameElsewhere(s.cache, NotifyStep(s, key, r).cache, key)
    ensures SameElsewhere(s.subscribers, NotifyStep(s, key, r).subscribers, key)
    ensures key in s.subscribers ==>
      NotifyStep(s, key, r).log == s.log + [Delivery(key, s.subscribers[key].callback, r)]
    ensures key !in s.subscribers ==> NotifyStep(s, key, r).log == s.log
  {
  }

  /** SubscribeOnce sets the key's subscriber, replacing any earlier one, and touches nothing else. */
  lemma SubscribeEffect<R, C>(s: State<R, C>, key: string, sub: Subscriber<C>)
    ensures key in SubscribeStep(s, key, sub).subscribers
    ensures SubscribeStep(s, key, sub).subscribers[key] == sub
    ensures SameElsewhere(s.subscribers, SubscribeStep(s, key, sub).subscribers, key)
    ensures SubscribeStep(s, key, sub).cache == s.cache
    ensures SubscribeStep(s, key, sub).log == s.log
  {
  }

  /** Dropping the last key of a duplicate-free order leaves a duplicate-free order without it. */
  lemma DistinctInit(order: seq<string>)
    requires Distinct(order) && order != []
    ensures Distinct(order[..|order| - 1]) && order[|order| - 1] !in order[..|order| - 1]
  {
  }

  /** The visited due keys. */
  ghost function DueIn<R, C>(s: State<R, C>, now: int, order: seq<string>): set<string> {
    set k | k in order && k in Due(s, now)
  }

  /** Pass 1 over any duplicate-free order removes exactly the visited due keys and logs their deliveries. */
  lemma {:induction false} Pass1Effect<R, C>(s: State<R, C>, now: int, order: seq<string>)
    requires Distinct(order)
    ensures Pass1(s, now, order) == State(s.cache - DueIn(s, now, order),
                                          s.subscribers - DueIn(s, now, order),
                                          s.log + DueDeliveries(s, now, order))
    decreases |order|
  {
    if order != [] {
      var q := order[..|order| - 1];
      var k := order[|order| - 1];
      DistinctInit(order);
      Pass1Effect(s, now, q);
      assert k in order;
      if k in Due(s, now) {
        assert DueIn(s, now, order) == DueIn(s, now, q) + {k};
      } else {
        assert DueIn(s, now, order) == DueIn(s, now, q);
      }
    }
  }

  /**
   The deliveries of pass 1: each is for a due key, to that key's subscriber, with that key's
   current record (finished or not); their keys are exactly the visited due keys, none twice.
   */
  lemma {:induction false} DueDeliveriesExact<R, C>(s: State<R, C>, now: int, order: seq<string>)
    requires Distinct(order)
    ensures forall d :: d in DueDeliveries(s, now, order) ==> IsDueDelivery(s, now, d)
    ensures Distinct(KeysOf(DueDeliveries(s, now, order)))
    ensures forall k :: k in KeysOf(DueDeliveries(s, now, order)) <==> k in order && k in Due(s, now)
    decreases |order|
  {
    if order != [] {
      var q := order[..|order| - 1];
      var k := order[|order| - 1];
      DistinctInit(order);
      DueDeliveriesExact(s, now, q);
      var dq := DueDeliveries(s, now, q);
      var ds := DueDeliveries(s, now, order);
      if k in Due(s, now) {
        assert ds == dq + [Delivery(k, s.subscribers[k].callback, s.cache[k])];
        assert KeysOf(ds) == KeysOf(dq) + [k];
      } else {
        assert ds == dq;
      }
    }
  }

  /**
   One sweep tick, maps: timed-out subscribers that have a record lose both entries; a
   timed-out subscriber whose key has no record stays; subscribers not yet timed out stay
   untouched; of the remaining records exactly those older than Expire are removed.
   */
  lemma SweepMaps<R, C>(s: State<R, C>, now: int, order: seq<string>)
    requires Enumerates(order, s.subscribers.Keys)
    ensures SweepStep(s, now, order).subscribers == s.subscribers - Due(s, now)
    ensures forall k :: k in s.subscribers && TimedOut(s.subscribers[k], now) && k !in s.cache ==>
      k in SweepStep(s, now, order).subscribers
    ensures forall k :: k in s.subscribers && !TimedOut(s.subscribers[k], now) ==>
      k in SweepStep(s, now, order).subscribers
    ensures forall k :: k in SweepStep(s, now, order).cache <==>
      k in s.cache && k !in Due(s, now) && !Expired(s.cache[k], now)
    ensures forall k :: k in SweepStep(s, now, order).cache ==>
      SweepStep(s, now, order).cache[k] == s.cache[k]
  {
    Pass1Effect(s, now, order);
    assert DueIn(s, now, order) == Due(s, now);
  }

  /**
   One sweep tick, deliveries: the log grows by one delivery per due key, each to that key's
   subscriber with its current record (finished or not), and no key is delivered twice.
   */
  lemma SweepLog<R, C>(s: State<R, C>, now: int, order: seq<string>)
    requires Enumerates(order, s.subscribers.Keys)
    ensures SweepStep(s, now, order).log == s.log + DueDeliveries(s, now, order)
    ensures forall d :: d in DueDeliveries(s, now, order) ==> IsDueDelivery(s, now, d)
    ensures Enumerates(KeysOf(DueDeliveries(s, now, order)), Due(s, now))
  {
    Pass1Effect(s, now, order);
    DueDeliveriesExact(s, now, order);
  }

  /** The comparison with Expire is strict: a record exactly Expire old survives pass 2. */
  lemma EvictBoundary<R>(cache: map<string, Records<R>>, now: int, k: string)
    requires k in cache && now - cache[k].time == Expire
    ensures k in Evict(cache, now) && Evict(cache, now)[k] == cache[k]
  {
  }

  /** Pass 1 keeps the cache invariant. */
  lemma {:induction false} Pass1KeepsNoFinished<R, C>(s: State<R, C>, now: int, order: seq<string>)
    requires NoFinished(s)
    ensures NoFinished(Pass1(s, now, order))
    decreases |order|
  {
    if order != [] {
      Pass1KeepsNoFinished(s, now, order[..|order| - 1]);
    }
  }

  lemma SweepKeepsNoFinished<R, C>(s: State<R, C>, now: int, order: seq<string>)
    requires NoFinished(s)
    ensures NoFinished(SweepStep(s, now, order))
  {
    Pass1KeepsNoFinished(s, now, order);
  }
}
