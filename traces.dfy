/**
 Sequences of cache operations (Put, SubscribeOnce, one sweep tick), run from the empty
 cache, and what holds across them: every callback is invoked at most once, a replaced
 subscriber is never invoked, and no finished record stays in the cache.
 */
module Traces {
  import opened Key
  import opened Model

  datatype Op<R, C> =
    | PutOp(deviceId: string, channelId: string, sn: int, sum: int, fragments: seq<R>, now: int)
    | SubscribeOp(deviceId: string, channelId: string, sn: int, sub: Subscriber<C>)
    | SweepOp(now: int, order: seq<string>)

  function Apply<R, C>(s: State<R, C>, op: Op<R, C>): State<R, C> {
    match op
    case PutOp(d, c, sn, sum, fragments, now) => PutStep(s, RecordKey(d, c, sn), now, sum, fragments)
    case SubscribeOp(d, c, sn, sub) => SubscribeStep(s, RecordKey(d, c, sn), sub)
    case SweepOp(now, order) => SweepStep(s, now, order)
  }

  function Run<R, C>(s: State<R, C>, ops: seq<Op<R, C>>): State<R, C>
    decreases |ops|
  {
    if ops == [] then s else Apply(Run(s, ops[..|ops| - 1]), ops[|ops| - 1])
  }

  /** The callbacks registered by the SubscribeOnce calls of a trace, in order. */
  function Callbacks<R, C>(ops: seq<Op<R, C>>): seq<C>
    decreases |ops|
  {
    if ops == [] then []
    else
      var op := ops[|ops| - 1];
      Callbacks(ops[..|ops| - 1]) + (if op.SubscribeOp? then [op.sub.callback] else [])
  }

  /**
   The at-most-once invariant: no callback occurs twice in the log, no logged callback is
   still registered, and no callback is registered under two keys.
   */
  ghost predicate OnceInv<R, C>(s: State<R, C>) {
    && (forall i, j :: 0 <= i < j < |s.log| ==> s.log[i].callback != s.log[j].callback)
    && (forall i, k :: 0 <= i < |s.log| && k in s.subscribers ==>
          s.log[i].callback != s.subscribers[k].callback)
    && (forall k1, k2 :: k1 in s.subscribers && k2 in s.subscribers && k1 != k2 ==>
          s.subscribers[k1].callback != s.subscribers[k2].callback)
  }

  /** Every callback the state mentions is one of cs. */
  ghost predicate Within<R, C>(s: State<R, C>, cs: seq<C>) {
    && (forall i :: 0 <= i < |s.log| ==> s.log[i].callback in cs)
    && (forall k :: k in s.subscribers ==> s.subscribers[k].callback in cs)
  }

  /** c is not registered for any key. */
  ghost predicate NotHeld<R, C>(s: State<R, C>, c: C) {
    forall k :: k in s.subscribers ==> s.subscribers[k].callback != c
  }

  /** t's log extends s's log by deliveries to callbacks other than c. */
  ghost predicate GrowsWithout<R, C>(s: State<R, C>, t: State<R, C>, c: C) {
    && |s.log| <= |t.log| && t.log[..|s.log|] == s.log
    && (forall i :: |s.log| <= i < |t.log| ==> t.log[i].callback != c)
  }

  // ---------------------------------------------------------------- at most once

  lemma NotifyKeepsOnce<R, C>(s: State<R, C>, key: string, r: Records<R>, cs: seq<C>)
    requires OnceInv(s) && Within(s, cs)
    ensures OnceInv(NotifyStep(s, key, r)) && Within(NotifyStep(s, key, r), cs)
  {
  }

  lemma {:induction false} Pass1KeepsOnce<R, C>(s: State<R, C>, now: int, order: seq<string>, cs: seq<C>)
    requires OnceInv(s) && Within(s, cs)
    ensures OnceInv(Pass1(s, now, order)) && Within(Pass1(s, now, order), cs)
    decreases |order|
  {
    if order != [] {
      var q := order[..|order| - 1];
      Pass1KeepsOnce(s, now, q, cs);
      var p := Pass1(s, now, q);
      var k := order[|order| - 1];
      if k in p.subscribers && TimedOut(p.subscribers[k], now) && k in p.cache {
        NotifyKeepsOnce(p, k, p.cache[k], cs);
      }
    }
  }

  lemma SubscribeKeepsOnce<R, C>(s: State<R, C>, key: string, sub: Subscriber<C>, cs: seq<C>)
    requires OnceInv(s) && Within(s, cs)
    requires sub.callback !in cs
    ensures OnceInv(SubscribeStep(s, key, sub)) && Within(SubscribeStep(s, key, sub), cs + [sub.callback])
  {
  }

  lemma ApplyKeepsOnce<R, C>(s: State<R, C>, op: Op<R, C>, cs: seq<C>)
    requires OnceInv(s) && Within(s, cs)
    requires op.SubscribeOp? ==> op.sub.callback !in cs
    ensures OnceInv(Apply(s, op))
    ensures Within(Apply(s, op), cs + (if op.SubscribeOp? then [op.sub.callback] else []))
  {
    match op
    case PutOp(d, c, sn, sum, fragments, now) =>
      var key := RecordKey(d, c, sn);
      var r := PutRecord(s.cache, key, now, sum, fragments);
      var s1 := s.(cache := s.cache[key := r]);
      if r.finished {
        NotifyKeepsOnce(s1, key, r, cs);
      }
      assert cs + [] == cs;
    case SubscribeOp(d, c, sn, sub) =>
      SubscribeKeepsOnce(s, RecordKey(d, c, sn), sub, cs);
    case SweepOp(now, order) =>
      Pass1KeepsOnce(s, now, order, cs);
      assert cs + [] == cs;
  }

  lemma {:induction false} RunKeepsOnce<R, C>(ops: seq<Op<R, C>>)
    requires Distinct(Callbacks(ops))
    ensures OnceInv(Run(Empty(), ops)) && Within(Run(Empty(), ops), Callbacks(ops))
    decreases |ops|
  {
    if ops != [] {
      var q := ops[..|ops| - 1];
      var op := ops[|ops| - 1];
      var cq := Callbacks(q);
      assert Callbacks(ops) == cq + (if op.SubscribeOp? then [op.sub.callback] else []);
      assert Distinct(cq) by {
        forall i, j | 0 <= i < j < |cq| ensures cq[i] != cq[j] {
          assert cq[i] == Callbacks(ops)[i] && cq[j] == Callbacks(ops)[j];
        }
      }
      RunKeepsOnce(q);
      if op.SubscribeOp? {
        forall i | 0 <= i < |cq| ensures cq[i] != op.sub.callback {
          assert Callbacks(ops)[|cq|] == op.sub.callback;
          assert cq[i] == Callbacks(ops)[i];
        }
      }
      ApplyKeepsOnce(Run(Empty(), q), op, cq);
    }
  }

  /**
   At-most-once delivery: in any trace whose SubscribeOnce calls register pairwise different
   callbacks (a callback value stands for one registration), every callback is invoked at
   most once, and only callbacks that were registered are ever invoked.
   */
  lemma AtMostOnce<R, C>(ops: seq<Op<R, C>>)
    requires Distinct(Callbacks(ops))
    ensures forall i, j :: 0 <= i < j < |Run(Empty(), ops).log| ==>
      Run(Empty(), ops).log[i].callback != Run(Empty(), ops).log[j].callback
    ensures forall i :: 0 <= i < |Run(Empty(), ops).log| ==> Run(Empty(), ops).log[i].callback in Callbacks(ops)
  {
    RunKeepsOnce(ops);
  }

  // ---------------------------------------------------------------- replacement

  lemma GrowsWithoutTrans<R, C>(a: State<R, C>, b: State<R, C>, d: State<R, C>, c: C)
    requires GrowsWithout(a, b, c) && GrowsWithout(b, d, c)
    ensures GrowsWithout(a, d, c)
  {
  }

  lemma NotifyWithout<R, C>(s: State<R, C>, key: string, r: Records<R>, c: C)
    requires NotHeld(s, c)
    ensures NotHeld(NotifyStep(s, key, r), c) && GrowsWithout(s, NotifyStep(s, key, r), c)
  {
  }

  lemma {:induction false} Pass1Without<R, C>(s: State<R, C>, now: int, order: seq<string>, c: C)
    requires NotHeld(s, c)
    ensures NotHeld(Pass1(s, now, order), c) && GrowsWithout(s, Pass1(s, now, order), c)
    decreases |order|
  {
    if order != [] {
      var q := order[..|order| - 1];
      Pass1Without(s, now, q, c);
      var p := Pass1(s, now, q);
      var k := order[|order| - 1];
      if k in p.subscribers && TimedOut(p.subscribers[k], now) && k in p.cache {
        NotifyWithout(p, k, p.cache[k], c);
        GrowsWithoutTrans(s, p, Pass1(s, now, order), c);
      }
    }
  }

  lemma {:induction false} RunWithout<R, C>(s: State<R, C>, ops: seq<Op<R, C>>, c: C)
    requires NotHeld(s, c)
    requires c !in Callbacks(ops)
    ensures NotHeld(Run(s, ops), c) && GrowsWithout(s, Run(s, ops), c)
    decreases |ops|
  {
    if ops != [] {
      var q := ops[..|ops| - 1];
      var op := ops[|ops| - 1];
      assert Callbacks(ops) == Callbacks(q) + (if op.SubscribeOp? then [op.sub.callback] else []);
      RunWithout(s, q, c);
      var p := Run(s, q);
      match op
      case PutOp(d, ch, sn, sum, fragments, now) =>
        var key := RecordKey(d, ch, sn);
        var r := PutRecord(p.cache, key, now, sum, fragments);
        if r.finished {
          NotifyWithout(p.(cache := p.cache[key := r]), key, r, c);
        }
        GrowsWithoutTrans(s, p, Run(s, ops), c);
      case SubscribeOp(d, ch, sn, sub) =>
        GrowsWithoutTrans(s, p, Run(s, ops), c);
      case SweepOp(now, order) =>
        Pass1Without(p, now, order, c);
        GrowsWithoutTrans(s, p, Run(s, ops), c);
    }
  }

  /**
   Last registrant wins: once SubscribeOnce replaces the subscriber of a key, the replaced
   callback is never invoked by any later sequence of operations that does not register it
   again; the log only grows.
   */
  lemma ReplacedNeverInvoked<R, C>(s: State<R, C>, key: string, sub: Subscriber<C>, ops: seq<Op<R, C>>)
    requires OnceInv(s)
    requires key in s.subscribers
    requires sub.callback != s.subscribers[key].callback
    requires s.subscribers[key].callback !in Callbacks(ops)
    ensures GrowsWithout(SubscribeStep(s, key, sub), Run(SubscribeStep(s, key, sub), ops), s.subscribers[key].callback)
  {
    RunWithout(SubscribeStep(s, key, sub), ops, s.subscribers[key].callback);
  }

  // ---------------------------------------------------------------- cache invariant

  /** No finished record ever stays in the cache, whatever the operations. */
  lemma {:induction false} RunKeepsNoFinished<R, C>(s: State<R, C>, ops: seq<Op<R, C>>)
    requires NoFinished(s)
    ensures NoFinished(Run(s, ops))
    decreases |ops|
  {
    if ops != [] {
      var p := Run(s, ops[..|ops| - 1]);
      RunKeepsNoFinished(s, ops[..|ops| - 1]);
      match ops[|ops| - 1]
      case PutOp(d, c, sn, sum, fragments, now) => PutKeepsNoFinished(p, RecordKey(d, c, sn), now, sum, fragments);
      case SubscribeOp(_, _, _, _) =>
      case SweepOp(now, order) => SweepKeepsNoFinished(p, now, order);
    }
  }

  // ---------------------------------------------------------------- scenarios

  lemma RunSnoc<R, C>(s: State<R, C>, ops: seq<Op<R, C>>, op: Op<R, C>)
    ensures Run(s, ops + [op]) == Apply(Run(s, ops), op)
  {
  }

  lemma Run1<R, C>(s: State<R, C>, a: Op<R, C>)
    ensures Run(s, [a]) == Apply(s, a)
  {
  }

  lemma Run2<R, C>(s: State<R, C>, a: Op<R, C>, b: Op<R, C>)
    ensures Run(s, [a, b]) == Apply(Apply(s, a), b)
  {
    Run1(s, a);
    RunSnoc(s, [a], b);
    assert [a] + [b] == [a, b];
  }

  lemma Run3<R, C>(s: State<R, C>, a: Op<R, C>, b: Op<R, C>, c: Op<R, C>)
    ensures Run(s, [a, b, c]) == Apply(Apply(Apply(s, a), b), c)
  {
    Run2(s, a, b);
    RunSnoc(s, [a, b], c);
    assert [a, b] + [c] == [a, b, c];
  }

  lemma Run4<R, C>(s: State<R, C>, a: Op<R, C>, b: Op<R, C>, c: Op<R, C>, d: Op<R, C>)
    ensures Run(s, [a, b, c, d]) == Apply(Apply(Apply(Apply(s, a), b), c), d)
  {
    Run3(s, a, b, c);
    RunSnoc(s, [a, b, c], d);
    assert [a, b, c] + [d] == [a, b, c, d];
  }

  /**
   Two fragments arrive, a subscriber registers, the third fragment completes the record:
   the subscriber is invoked once with [a, b, c] and finished set, and both maps are empty.
   */
  lemma CompletionScenario()
    ensures Run(Empty<char, int>(), [
        PutOp("dev1", "ch1", 100, 3, ['a'], 0),
        PutOp("dev1", "ch1", 100, 3, ['b'], 1),
        SubscribeOp("dev1", "ch1", 100, Subscriber(7, 5 * Second, 2)),
        PutOp("dev1", "ch1", 100, 3, ['c'], 3)])
      == State(map[], map[], [Delivery(RecordKey("dev1", "ch1", 100), 7, Records(0, 3, true, ['a', 'b', 'c']))])
  {
    var k := RecordKey("dev1", "ch1", 100);
    var sub := Subscriber(7, 5 * Second, 2);
    var e := Empty<char, int>();
    var a, b, c, d := PutOp("dev1", "ch1", 100, 3, ['a'], 0), PutOp("dev1", "ch1", 100, 3, ['b'], 1),
                      SubscribeOp("dev1", "ch1", 100, sub), PutOp("dev1", "ch1", 100, 3, ['c'], 3);
    Run4(e, a, b, c, d);
    assert [] + ['a'] == ['a'] && ['a'] + ['b'] == ['a', 'b'] && ['a', 'b'] + ['c'] == ['a', 'b', 'c'];
    var s1 := Apply(e, a);
    assert s1 == State(map[k := Records(0, 3, false, ['a'])], map[], []);
    var s2 := Apply(s1, b);
    assert s2 == State(map[k := Records(0, 3, false, ['a', 'b'])], map[], []);
    var s3 := Apply(s2, c);
    assert s3 == State(map[k := Records(0, 3, false, ['a', 'b'])], map[k := sub], []);
    assert map[k := Records(0, 3, true, ['a', 'b', 'c'])] - {k} == map[];
    assert map[k := sub] - {k} == map[];
  }

  /**
   A subscriber whose key never receives a fragment is never invoked, and the sweep after
   its timeout leaves it registered.
   */
  lemma SilentTimeoutScenario()
    ensures Run(Empty<char, int>(), [
        SubscribeOp("dev2", "ch1", 1, Subscriber(9, Second, 0)),
        SweepOp(2 * Second, [RecordKey("dev2", "ch1", 1)])])
      == State(map[], map[RecordKey("dev2", "ch1", 1) := Subscriber(9, Second, 0)], [])
  {
    var k := RecordKey("dev2", "ch1", 1);
    var e := Empty<char, int>();
    var a, b := SubscribeOp("dev2", "ch1", 1, Subscriber(9, Second, 0)), SweepOp(2 * Second, [k]);
    Run2(e, a, b);
    var s1 := Apply(e, a);
    assert s1 == State(map[], map[k := Subscriber(9, Second, 0)], []);
    assert [k][..0] == [];
    assert Pass1(s1, 2 * Second, [k]) == s1;
  }

  /**
   The subscriber left registered by a timed-out sweep is still live: a fragment for its key
   arriving later makes the next sweep invoke it with the incomplete record and drop the key.
   */
  lemma LateFragmentScenario()
    ensures Run(Empty<char, int>(), [
        SubscribeOp("dev2", "ch1", 1, Subscriber(9, Second, 0)),
        SweepOp(2 * Second, [RecordKey("dev2", "ch1", 1)]),
        PutOp("dev2", "ch1", 1, 3, ['a'], 3 * Second),
        SweepOp(4 * Second, [RecordKey("dev2", "ch1", 1)])])
      == State(map[], map[], [Delivery(RecordKey("dev2", "ch1", 1), 9, Records(3 * Second, 3, false, ['a']))])
  {
    var k := RecordKey("dev2", "ch1", 1);
    var sub := Subscriber(9, Second, 0);
    var e := Empty<char, int>();
    var a, b, c, d := SubscribeOp("dev2", "ch1", 1, sub), SweepOp(2 * Second, [k]),
                      PutOp("dev2", "ch1", 1, 3, ['a'], 3 * Second), SweepOp(4 * Second, [k]);
    Run4(e, a, b, c, d);
    assert [k][..0] == [];
    assert [] + ['a'] == ['a'];
    var s1 := Apply(e, a);
    assert s1 == State(map[], map[k := sub], []);
    assert Pass1(s1, 2 * Second, [k]) == s1;
    var s2 := Apply(s1, b);
    assert s2 == s1;
    var s3 := Apply(s2, c);
    assert s3 == State(map[k := Records(3 * Second, 3, false, ['a'])], map[k := sub], []);
    assert map[k := Records(3 * Second, 3, false, ['a'])] - {k} == map[];
    assert map[k := sub] - {k} == map[];
  }

  /**
   A later Put for the key reaches a subscriber left registered by a timed-out sweep even
   when it brings no fragments: with sum 0 the empty list completes the new record at once.
   */
  lemma EmptyPutScenario()
    ensures Run(Empty<char, int>(), [
        SubscribeOp("dev2", "ch1", 1, Subscriber(9, Second, 0)),
        SweepOp(2 * Second, [RecordKey("dev2", "ch1", 1)]),
        PutOp("dev2", "ch1", 1, 0, [], 3 * Second)])
      == State(map[], map[], [Delivery(RecordKey("dev2", "ch1", 1), 9, Records(3 * Second, 0, true, []))])
  {
    var k := RecordKey("dev2", "ch1", 1);
    var sub := Subscriber(9, Second, 0);
    var e := Empty<char, int>();
    var a, b, c := SubscribeOp("dev2", "ch1", 1, sub), SweepOp(2 * Second, [k]),
                   PutOp("dev2", "ch1", 1, 0, [], 3 * Second);
    Run3(e, a, b, c);
    assert [k][..0] == [];
    var s1 := Apply(e, a);
    assert s1 == State(map[], map[k := sub], []);
    assert Pass1(s1, 2 * Second, [k]) == s1;
    var done: Records<char> := Records(3 * Second, 0, true, []);
    assert map[k := done] - {k} == map[];
    assert map[k := sub] - {k} == map[];
  }

  /**
   A subscriber left registered by a timed-out sweep leaves the map without being invoked
   when a later SubscribeOnce for the same key replaces it.
   */
  lemma SilentReplacementScenario()
    ensures Run(Empty<char, int>(), [
        SubscribeOp("dev2", "ch1", 1, Subscriber(9, Second, 0)),
        SweepOp(2 * Second, [RecordKey("dev2", "ch1", 1)]),
        SubscribeOp("dev2", "ch1", 1, Subscriber(10, Second, 3 * Second))])
      == State(map[], map[RecordKey("dev2", "ch1", 1) := Subscriber(10, Second, 3 * Second)], [])
  {
    var k := RecordKey("dev2", "ch1", 1);
    var sub := Subscriber(9, Second, 0);
    var e := Empty<char, int>();
    var a, b, c := SubscribeOp("dev2", "ch1", 1, sub), SweepOp(2 * Second, [k]),
                   SubscribeOp("dev2", "ch1", 1, Subscriber(10, Second, 3 * Second));
    Run3(e, a, b, c);
    assert [k][..0] == [];
    var s1 := Apply(e, a);
    assert s1 == State(map[], map[k := sub], []);
    assert Pass1(s1, 2 * Second, [k]) == s1;
    assert map[k := sub][k := Subscriber(10, Second, 3 * Second)] == map[k := Subscriber(10, Second, 3 * Second)];
  }

  /**
   The stored sum is the first call's, while completion uses each call's own sum: a record
   created with sum 3 completes when a later call says 2 and two fragments are present,
   and the delivered record still carries sum 3.
   */
  lemma StoredSumScenario()
    ensures Run(Empty<char, int>(), [
        SubscribeOp("d", "c", 5, Subscriber(1, Second, 0)),
        PutOp("d", "c", 5, 3, ['a'], 10),
        PutOp("d", "c", 5, 2, ['b'], 20)])
      == State(map[], map[], [Delivery(RecordKey("d", "c", 5), 1, Records(10, 3, true, ['a', 'b']))])
  {
    var k := RecordKey("d", "c", 5);
    var sub := Subscriber(1, Second, 0);
    var e := Empty<char, int>();
    var a, b, c := SubscribeOp("d", "c", 5, sub), PutOp("d", "c", 5, 3, ['a'], 10), PutOp("d", "c", 5, 2, ['b'], 20);
    Run3(e, a, b, c);
    assert [] + ['a'] == ['a'] && ['a'] + ['b'] == ['a', 'b'];
    var s1 := Apply(e, a);
    assert s1 == State(map[], map[k := sub], []);
    var s2 := Apply(s1, b);
    assert s2 == State(map[k := Records(10, 3, false, ['a'])], map[k := sub], []);
    assert map[k := Records(10, 3, true, ['a', 'b'])] - {k} == map[];
    assert map[k := sub] - {k} == map[];
  }

  /**
   Eviction: a record with no activity is kept by a sweep exactly Expire after its creation,
   removed by a later one, and the next Put for its key starts a fresh record.
   */
  lemma EvictionScenario()
    ensures Run(Empty<char, int>(), [PutOp("d", "c", 1, 3, ['a'], 0), SweepOp(Expire, [])]).cache
      == map[RecordKey("d", "c", 1) := Records(0, 3, false, ['a'])]
    ensures Run(Empty<char, int>(), [
        PutOp("d", "c", 1, 3, ['a'], 0), SweepOp(Expire + 1, []), PutOp("d", "c", 1, 3, ['b'], Expire + 2)]).cache
      == map[RecordKey("d", "c", 1) := Records(Expire + 2, 3, false, ['b'])]
  {
    var k := RecordKey("d", "c", 1);
    var e := Empty<char, int>();
    var put: Op<char, int> := PutOp("d", "c", 1, 3, ['a'], 0);
    assert [] + ['a'] == ['a'] && [] + ['b'] == ['b'];
    var s1 := Apply(e, put);
    assert s1 == State(map[k := Records(0, 3, false, ['a'])], map[], []);
    Run2(e, put, SweepOp(Expire, []));
    assert Evict(s1.cache, Expire) == s1.cache;
    Run3(e, put, SweepOp(Expire + 1, []), PutOp("d", "c", 1, 3, ['b'], Expire + 2));
    assert Evict(s1.cache, Expire + 1) == map[];
  }
}
