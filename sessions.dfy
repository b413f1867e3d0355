/**
 * The two pieces of shared infrastructure the webhooks write to besides
 * the database: the application cache, whose entries live for a number
 * of seconds, and the job queue, which records dispatched jobs in order.
 * Time is an explicit parameter; an entry put at `now` with a lifetime of
 * `ttl` seconds is found strictly before `now + ttl`.
 */
module Sessions {
  import opened Wrappers

  /** A cached value and the instant from which it is gone. */
  datatype Entry<V> = Entry(value: V, expiresAt: int)

  /** `Cache::get`: the value while it has not expired, otherwise nothing. */
  function Lookup<V>(entries: map<string, Entry<V>>, key: string, now: int): Option<V>
  {
    if key in entries && now < entries[key].expiresAt then Some(entries[key].value) else None
  }

  /** The cache store: entries by key. */
  class Cache<V> {
    var entries: map<string, Entry<V>>

    constructor()
      ensures entries == map[]
    {
      entries := map[];
    }

    /** `Cache::put($key, $value, $ttl)`: replaces any earlier entry under the key. */
    method Put(key: string, value: V, ttl: int, now: int)
      modifies this
      ensures entries == old(entries)[key := Entry(value, now + ttl)]
    {
      entries := entries[key := Entry(value, now + ttl)];
    }

    /** `Cache::forget($key)`. */
    method Forget(key: string)
      modifies this
      ensures entries == old(entries) - {key}
    {
      entries := entries - {key};
    }
  }

  /** A value put with a positive lifetime is found until the lifetime is over, and not after. */
  lemma PutThenLookup<V>(entries: map<string, Entry<V>>, key: string, value: V, ttl: int, now: int, later: int)
    requires now <= later
    ensures Lookup(entries[key := Entry(value, now + ttl)], key, later) ==
      (if later < now + ttl then Some(value) else None)
  {
  }

  /** Putting or forgetting one key leaves every other key as it was. */
  lemma OtherKeysUntouched<V>(entries: map<string, Entry<V>>, key: string, other: string, value: V, ttl: int, now: int, at: int)
    requires other != key
    ensures Lookup(entries[key := Entry(value, now + ttl)], other, at) == Lookup(entries, other, at)
    ensures Lookup(entries - {key}, other, at) == Lookup(entries, other, at)
  {
  }

  /** A forgotten key is gone. */
  lemma ForgetThenLookup<V>(entries: map<string, Entry<V>>, key: string, at: int)
    ensures Lookup(entries - {key}, key, at).None?
  {
  }

  // ---------------------------------------------------------------------
  // The job queue

  /** One dispatched job: its class and the arguments it was constructed with. */
  datatype Dispatch = Dispatch(jobClass: string, documentId: int, taskJobId: int, replyTo: string)

  /** The queue, as the order in which jobs were dispatched. */
  class JobQueue {
    var dispatched: seq<Dispatch>

    constructor()
      ensures dispatched == []
    {
      dispatched := [];
    }

    /** `dispatch`: the job is queued behind the earlier ones. */
    method Push(d: Dispatch)
      modifies this
      ensures dispatched == old(dispatched) + [d]
    {
      dispatched := dispatched + [d];
    }
  }
}
