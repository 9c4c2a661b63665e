/** One request for the access token that nobody interrupts: the lock and the cache as an object with
    its four operations, the service call that drives it, and the proof that this call is a run of the
    step system. */
module TokenService {
  import opened Prelude
  import opened TokenCache

  /** How a request ended: with a token, refused because somebody else holds the lock, or with the
      broker's error. */
  datatype Answer = Granted(expiresAt: real) | LostRace | BrokerError

  predicate IsExpiredOrExpiring(payload: Payload, now: real) {
    now >= payload.expiresAt - EXPIRY_BUFFER_SECONDS
  }

  class Redis {
    var store: Store

    constructor ()
      ensures store == Store(None, None)
    {
      store := Store(None, None);
    }

    method AcquireLock(now: real) returns (acquired: bool)
      modifies this
      ensures acquired == !Locked(old(store), now)
      ensures store == if acquired then old(store).(lockGoneAt := Some(now + LOCK_TTL_SECONDS)) else old(store)
    {
      acquired := store.lockGoneAt.None? || store.lockGoneAt.value <= now;
      if acquired {
        store := store.(lockGoneAt := Some(now + LOCK_TTL_SECONDS));
      }
    }

    /** Deletes the key, whoever set it. */
    method ReleaseLock()
      modifies this
      ensures store == old(store).(lockGoneAt := None)
    {
      store := store.(lockGoneAt := None);
    }

    method GetCachedTokenPayload(now: real) returns (payload: Option<Payload>)
      ensures payload.Some? && !IsExpiredOrExpiring(payload.value, now) <==> Usable(store, now)
      ensures payload.Some? ==> payload == store.cached
    {
      payload := if store.cached.Some? && now < store.cached.value.goneAt then store.cached else None;
    }

    method SaveTokenPayload(now: real, expiresAt: real)
      modifies this
      ensures store == old(store).(cached := Some(SavedAt(now, expiresAt)))
    {
      var ttlSeconds := Truncate(expiresAt - now);
      if ttlSeconds < 1 {
        ttlSeconds := 1;
      }
      store := store.(cached := Some(Payload(expiresAt, now + ttlSeconds as real)));
    }
  }

  /** The store and the answer of a caller that found no usable token and goes for the lock; the broker
      takes dt to reply, None is its error. */
  function Refreshed(store: Store, now: real, dt: real, reply: Option<real>): (Store, Answer) {
    if Locked(store, now) then (store, LostRace)
    else
      var unlocked := store.(lockGoneAt := None);
      if Usable(store, now) then (unlocked, Granted(store.cached.value.expiresAt))
      else if reply.None? then (unlocked, BrokerError)
      else (unlocked.(cached := Some(SavedAt(now + dt, reply.value))), Granted(reply.value))
  }

  /** Refused exactly while the lock lives, and then nothing changes. Otherwise the lock is gone afterwards, and
      a granted token is the cached one, or the broker's new one that is now cached. */
  lemma RefreshedLeaves(store: Store, now: real, dt: real, reply: Option<real>)
    ensures var (store', answer) := Refreshed(store, now, dt, reply);
            && (answer == LostRace <==> store.lockGoneAt.Some? && now < store.lockGoneAt.value)
            && (answer == LostRace ==> store' == store)
            && (answer != LostRace ==> store'.lockGoneAt == None)
            && (answer == BrokerError <==> answer != LostRace && !Usable(store, now) && reply == None)
            && (answer == BrokerError || Usable(store, now) ==> store'.cached == store.cached)
            && (answer.Granted? ==>
                  && store'.cached.Some? && store'.cached.value.expiresAt == answer.expiresAt
                  && if Usable(store, now) then now < answer.expiresAt - 300.0
                     else reply == Some(answer.expiresAt) && store'.cached == Some(SavedAt(now + dt, answer.expiresAt)))
  {
  }

  method RefreshUnderLock(redis: Redis, now: real, dt: real, reply: Option<real>) returns (answer: Answer)
    modifies redis
    ensures (redis.store, answer) == Refreshed(old(redis.store), now, dt, reply)
  {
    var acquired := redis.AcquireLock(now);
    if !acquired {
      return LostRace;
    }
    var cached := redis.GetCachedTokenPayload(now);
    if cached.Some? && !IsExpiredOrExpiring(cached.value, now) {
      answer := Granted(cached.value.expiresAt);
    } else if reply.None? {
      answer := BrokerError;
    } else {
      redis.SaveTokenPayload(now + dt, reply.value);
      answer := Granted(reply.value);
    }
    redis.ReleaseLock();
  }

  method GetValidAccessToken(redis: Redis, now: real, dt: real, reply: Option<real>) returns (answer: Answer)
    modifies redis
    ensures if Usable(old(redis.store), now)
            then redis.store == old(redis.store) && answer == Granted(redis.store.cached.value.expiresAt)
            else (redis.store, answer) == Refreshed(old(redis.store), now, dt, reply)
  {
    var cached := redis.GetCachedTokenPayload(now);
    if cached.Some? && !IsExpiredOrExpiring(cached.value, now) {
      answer := Granted(cached.value.expiresAt);
    } else {
      answer := RefreshUnderLock(redis, now, dt, reply);
    }
  }

  /** A caller that goes for the lock uninterrupted makes a run of the step system: it leaves no call
      behind, and the history gains a token exactly when the lock was free, no usable token was in the
      cache and the broker replied. */
  lemma RefreshedIsRun(s: State, c: nat, dt: real, reply: Option<real>) returns (events: seq<Event>)
    requires c in s.calls && s.calls[c].Waiting? && dt >= 0.0
    ensures Run(s, events)
    ensures var s' := Final(s, events);
            var (store, answer) := Refreshed(s.store, s.now, dt, reply);
            && s'.store == store && s'.calls == s.calls - {c}
            && s'.issued == if Locked(s.store, s.now) || Usable(s.store, s.now) || reply.None? then s.issued
                            else s.issued + [Token(s.now + dt, reply.value)]
  {
    var b, d, leave := Acquire(c), Recheck(c), Leave(c, true);
    var s1 := Apply(s, b);
    if Locked(s.store, s.now) {
      RunFirst(s, b, []);
      events := [b] + [];
    } else {
      var s2 := Apply(s1, d);
      var rest: seq<Event>;
      if Usable(s.store, s.now) {
        RunFirst(s2, leave, []);
        rest := [leave] + [];
      } else {
        rest := AfterRecheck(s2, c, dt, reply);
      }
      RunFirst(s1, d, rest);
      RunFirst(s, b, [d] + rest);
      events := [b] + ([d] + rest);
      assert s2.calls - {c} == s.calls - {c};
    }
  }

  lemma AfterRecheck(s: State, c: nat, dt: real, reply: Option<real>) returns (events: seq<Event>)
    requires c in s.calls && s.calls[c].Cleared? && dt >= 0.0
    ensures Run(s, events)
    ensures var s' := Final(s, events);
            && s'.calls == s.calls - {c}
            && s'.issued == (if reply.None? then s.issued else s.issued + [Token(s.now + dt, reply.value)])
            && s'.store == Store(None, if reply.None? then s.store.cached else Some(SavedAt(s.now + dt, reply.value)))
  {
    var e, leave := Tick(dt), Leave(c, true);
    var s1 := Apply(s, e);
    if reply.None? {
      RunFirst(s1, leave, []);
      RunFirst(s, e, [leave] + []);
      return [e] + ([leave] + []);
    }
    var f, g := Issue(c, reply.value), Save(c);
    var s2 := Apply(s1, f);
    var s3 := Apply(s2, g);
    RunFirst(s3, leave, []);
    RunFirst(s2, g, [leave] + []);
    RunFirst(s1, f, [g] + ([leave] + []));
    events := [e] + ([f] + ([g] + ([leave] + [])));
    RunFirst(s, e, [f] + ([g] + ([leave] + [])));
    assert Apply(s3, leave).calls == s.calls - {c};
  }
}
