/**
 recordCache: correlates asynchronous multi-fragment responses by key. The two maps are
 fields that every operation updates in place; each invocation of a subscriber's callback
 is appended to the ghost `log`. Every method is proved to leave the cache in the state the
 matching function of module Model gives. Put, SubscribeOnce and SweepTick also keep the
 invariant that no finished record stays in the cache; DoPut may store a finished record,
 which Put then hands to Notify.
 */
module Bus {
  import opened Key
  import opened Model

  class RecordCache<R, C> {
    var cache: map<string, Records<R>>
    var subscribers: map<string, Subscriber<C>>
    ghost var log: seq<Delivery<R, C>>

    ghost function Abstract(): State<R, C>
      reads this
    {
      State(cache, subscribers, log)
    }

    ghost predicate Valid()
      reads this
    {
      NoFinished(Abstract())
    }

    /** NewRecordCache, without the background sweeper and the profiling server. */
    constructor ()
      ensures Valid() && Abstract() == Empty()
    {
      cache := map[];
      subscribers := map[];
      log := [];
    }

    /** Put: store the fragments; when the record is complete, notify and drop the key. */
    method Put(deviceId: string, channelId: string, sn: int, sum: int, record: seq<R>, now: int)
      requires Valid()
      modifies this
      ensures Valid()
      ensures Abstract() == PutStep(old(Abstract()), RecordKey(deviceId, channelId, sn), now, sum, record)
    {
      var key, r := DoPut(deviceId, channelId, sn, sum, record, now);
      if r.finished {
        Notify(key, r);
      }
      PutKeepsNoFinished(old(Abstract()), key, now, sum, record);
    }

    /** doPut: append the fragments to the key's record, creating it stamped `now` if absent. */
    method DoPut(deviceId: string, channelId: string, sn: int, sum: int, record: seq<R>, now: int)
      returns (key: string, r: Records<R>)
      modifies this
      ensures key == RecordKey(deviceId, channelId, sn)
      ensures r == PutRecord(old(cache), key, now, sum, record)
      ensures cache == old(cache)[key := r]
      ensures subscribers == old(subscribers) && log == old(log)
    {
      key := RecordKey(deviceId, channelId, sn);
      if key in cache {
        r := cache[key];
      } else {
        r := Records(now, sum, false, []);
      }
      r := r.(list := r.list + record);
      if |r.list| == sum {
        r := r.(finished := true);
      }
      cache := cache[key := r];
    }

    /** SubscribeOnce: register `sub` for the key, replacing any earlier subscriber. */
    method SubscribeOnce(deviceId: string, channelId: string, sn: int, sub: Subscriber<C>)
      requires Valid()
      modifies this
      ensures Valid()
      ensures Abstract() == SubscribeStep(old(Abstract()), RecordKey(deviceId, channelId, sn), sub)
    {
      var key := RecordKey(deviceId, channelId, sn);
      subscribers := subscribers[key := sub];
    }

    /** notify: call the key's subscriber with r if there is one, then drop the key from both maps. */
    method Notify(key: string, r: Records<R>)
      modifies this
      ensures Abstract() == NotifyStep(old(Abstract()), key, r)
    {
      if key in subscribers {
        log := log + [Delivery(key, subscribers[key].callback, r)];
      }
      subscribers := subscribers - {key};
      cache := cache - {key};
    }

    /**
     One tick of watchTimeout at time `now`. `order` is the order in which the loop over the
     subscribers visited their keys (Go leaves map iteration order unspecified).
     */
    method SweepTick(now: int) returns (ghost order: seq<string>)
      requires Valid()
      modifies this
      ensures Valid()
      ensures Enumerates(order, old(subscribers).Keys)
      ensures Abstract() == SweepStep(old(Abstract()), now, order)
    {
      order := NotifyTimedOut(now);
      EvictExpired(now);
      SweepKeepsNoFinished(old(Abstract()), now, order);
    }

    /** Pass 1 of a tick: timed-out subscribers get whatever record their key holds. */
    method NotifyTimedOut(now: int) returns (ghost order: seq<string>)
      modifies this
      ensures Enumerates(order, old(subscribers).Keys)
      ensures Abstract() == Pass1(old(Abstract()), now, order)
    {
      ghost var s0 := Abstract();
      var pending := subscribers.Keys;
      order := [];
      while pending != {}
        invariant pending <= s0.subscribers.Keys && pending <= subscribers.Keys
        invariant Distinct(order)
        invariant forall k :: k in order <==> k in s0.subscribers && k !in pending
        invariant Abstract() == Pass1(s0, now, order)
        decreases |pending|
      {
        var k :| k in pending;
        var s := subscribers[k];
        if now - s.startTime > s.timeout && k in cache {
          Notify(k, cache[k]);
        }
        pending := pending - {k};
        assert (order + [k])[..|order|] == order;
        order := order + [k];
      }
    }

    /** Pass 2 of a tick: records older than Expire are dropped without delivery. */
    method EvictExpired(now: int)
      modifies this
      ensures cache == Evict(old(cache), now)
      ensures subscribers == old(subscribers) && log == old(log)
    {
      var stale := cache.Keys;
      while stale != {}
        invariant stale <= old(cache).Keys
        invariant cache == map k | k in old(cache) && (k in stale || !Expired(old(cache)[k], now)) :: old(cache)[k]
        invariant subscribers == old(subscribers) && log == old(log)
        decreases |stale|
      {
        var k :| k in stale;
        if now - cache[k].time > Expire {
          cache := cache - {k};
        }
        stale := stale - {k};
      }
    }
  }
}
