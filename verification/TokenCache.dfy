/** The shared access token as a step system. Any number of callers find the token missing or about to
    expire and race for the lock; each read, each lock operation, the request for a token and its save
    are one step, and time passes in between. Lock and token are keys that vanish at a moment of
    their own. */
module TokenCache {
  import opened Prelude

  const EXPIRY_BUFFER_SECONDS := 300.0
  const LOCK_TTL_SECONDS := 55.0

  /** A saved token; the key is gone from goneAt on. */
  datatype Payload = Payload(expiresAt: real, goneAt: real)

  datatype Store = Store(lockGoneAt: Option<real>, cached: Option<Payload>)

  predicate Locked(store: Store, now: real) {
    store.lockGoneAt.Some? && now < store.lockGoneAt.value
  }

  predicate Usable(store: Store, now: real) {
    && store.cached.Some? && now < store.cached.value.goneAt
    && now < store.cached.value.expiresAt - EXPIRY_BUFFER_SECONDS
  }

  function SavedAt(now: real, expiresAt: real): Payload {
    Payload(expiresAt, now + Max(Truncate(expiresAt - now), 1) as real)
  }

  datatype Phase =
    | Waiting
    | Entered(since: real)
    | Cleared(since: real)
    | Holding(since: real, expiresAt: real)
    | Finished(since: real)

  datatype Token = Token(issuedAt: real, expiresAt: real)

  /** issued is the history of tokens the broker handed out. */
  datatype State = State(now: real, store: Store, calls: map<nat, Phase>, issued: seq<Token>)

  datatype Event =
    | Tick(dt: real)
    | Check(c: nat)
    | Acquire(c: nat)
    | Recheck(c: nat)
    | Issue(c: nat, expiresAt: real)
    | Save(c: nat)
    | Leave(c: nat, released: bool)

  predicate Inside(phase: Phase) {
    !phase.Waiting?
  }

  /** A call that does not hold an unsaved token may leave at any point: done, failed, or killed, in
      which case it does not release the lock. */
  predicate Enabled(s: State, e: Event) {
    match e
    case Tick(dt) => dt >= 0.0
    case Check(c) => c !in s.calls
    case Acquire(c) => c in s.calls && s.calls[c].Waiting?
    case Recheck(c) => c in s.calls && s.calls[c].Entered?
    case Issue(c, _) => c in s.calls && s.calls[c].Cleared?
    case Save(c) => c in s.calls && s.calls[c].Holding?
    case Leave(c, _) => c in s.calls && (s.calls[c].Entered? || s.calls[c].Cleared? || s.calls[c].Finished?)
  }

  function Move(s: State, c: nat, phase: Phase): State {
    s.(calls := s.calls[c := phase])
  }

  function Apply(s: State, e: Event): State
    requires Enabled(s, e)
  {
    match e
    case Tick(dt) => s.(now := s.now + dt)
    case Check(c) => if Usable(s.store, s.now) then s else Move(s, c, Waiting)
    case Acquire(c) =>
      if Locked(s.store, s.now) then s.(calls := s.calls - {c})
      else Move(s, c, Entered(s.now)).(store := s.store.(lockGoneAt := Some(s.now + LOCK_TTL_SECONDS)))
    case Recheck(c) =>
      Move(s, c, if Usable(s.store, s.now) then Finished(s.calls[c].since) else Cleared(s.calls[c].since))
    case Issue(c, expiresAt) =>
      Move(s, c, Holding(s.calls[c].since, expiresAt)).(issued := s.issued + [Token(s.now, expiresAt)])
    case Save(c) =>
      Move(s, c, Finished(s.calls[c].since))
        .(store := s.store.(cached := Some(SavedAt(s.now, s.calls[c].expiresAt))))
    case Leave(c, released) =>
      s.(calls := s.calls - {c}, store := if released then s.store.(lockGoneAt := None) else s.store)
  }

  /** Nobody has been inside for as long as the lock lives. */
  ghost predicate Timely(s: State) {
    forall c <- s.calls :: Inside(s.calls[c]) ==> s.now < s.calls[c].since + 55.0
  }

  ghost predicate Run(s: State, events: seq<Event>)
    decreases |events|
  {
    events == [] || (Enabled(s, events[0]) && Run(Apply(s, events[0]), events[1..]))
  }

  ghost predicate TimelyRun(s: State, events: seq<Event>)
    decreases |events|
  {
    && Timely(s)
    && (events == [] || (Enabled(s, events[0]) && TimelyRun(Apply(s, events[0]), events[1..])))
  }

  ghost function Final(s: State, events: seq<Event>): State
    requires Run(s, events)
    decreases |events|
  {
    if events == [] then s else Final(Apply(s, events[0]), events[1..])
  }

  function Empty(now: real): State {
    State(now, Store(None, None), map[], [])
  }

  // ---------------------------------------------------------------------------------------------
  // The invariant.

  ghost predicate OneInside(s: State) {
    forall c, d :: c in s.calls && d in s.calls && Inside(s.calls[c]) && Inside(s.calls[d]) ==> c == d
  }

  predicate Stale(s: State, token: Token) {
    token.expiresAt - EXPIRY_BUFFER_SECONDS <= s.now
  }

  predicate IsCached(s: State, token: Token) {
    s.store.cached.Some? && s.store.cached.value.expiresAt == token.expiresAt
  }

  /** Every token was requested no earlier than the last five minutes of each token before it. */
  ghost predicate Spaced(issued: seq<Token>) {
    forall i, j :: 0 <= i < j < |issued| ==> issued[j].issuedAt >= issued[i].expiresAt - 300.0
  }

  /** What holds of the call that is inside. */
  ghost predicate CallInv(s: State, phase: Phase) {
    && (Inside(phase) ==> s.store.lockGoneAt == Some(phase.since + LOCK_TTL_SECONDS))
    && (phase.Cleared? ==> !Usable(s.store, s.now) && forall t <- s.issued :: Stale(s, t))
    && (phase.Holding? ==>
          && s.issued != [] && s.issued[|s.issued| - 1].expiresAt == phase.expiresAt
          && forall i :: 0 <= i < |s.issued| - 1 ==> Stale(s, s.issued[i]))
  }

  ghost predicate Settled(s: State) {
    forall t <- s.issued :: Stale(s, t) || IsCached(s, t)
  }

  ghost predicate Inv(s: State) {
    && OneInside(s)
    && Spaced(s.issued)
    && (forall c <- s.calls :: CallInv(s, s.calls[c]))
    && ((forall c <- s.calls :: !s.calls[c].Holding?) ==> Settled(s))
    && (s.store.cached.Some? ==> s.store.cached.value.expiresAt - 1.0 < s.store.cached.value.goneAt)
  }

  /** The key outlives the token's usefulness, by less than it takes the token to expire unless it already has. */
  lemma SavedLongEnough(now: real, expiresAt: real)
    ensures SavedAt(now, expiresAt).expiresAt == expiresAt
    ensures SavedAt(now, expiresAt).goneAt > expiresAt - 1.0
    ensures SavedAt(now, expiresAt).goneAt >= now + 1.0
    ensures expiresAt >= now + 1.0 ==> SavedAt(now, expiresAt).goneAt <= expiresAt
    ensures expiresAt < now + 1.0 ==> SavedAt(now, expiresAt).goneAt == now + 1.0
  {
  }

  /** A saved token is usable exactly until its last five minutes, whatever its lifetime. */
  lemma SavedUsableIff(store: Store, savedAt: real, expiresAt: real, now: real)
    requires store.cached == Some(SavedAt(savedAt, expiresAt)) && savedAt <= now
    ensures Usable(store, now) <==> now < expiresAt - 300.0
  {
    SavedLongEnough(savedAt, expiresAt);
  }

  lemma TickStep(s: State, dt: real)
    requires Inv(s) && dt >= 0.0
    ensures Inv(Apply(s, Tick(dt)))
  {
    var s' := Apply(s, Tick(dt));
    forall t | t in s.issued && Stale(s, t) ensures Stale(s', t) {
    }
    forall c | c in s'.calls ensures CallInv(s', s'.calls[c]) {
      assert CallInv(s, s.calls[c]);
    }
  }

  lemma CheckStep(s: State, c: nat)
    requires Inv(s) && Enabled(s, Check(c))
    ensures Inv(Apply(s, Check(c)))
  {
    var s' := Apply(s, Check(c));
    forall d | d in s'.calls ensures CallInv(s', s'.calls[d]) {
      assert d in s.calls ==> CallInv(s, s.calls[d]);
    }
    if forall d <- s'.calls :: !s'.calls[d].Holding? {
      assert forall d <- s.calls :: d in s'.calls && s'.calls[d] == s.calls[d];
    }
  }

  lemma AcquireStep(s: State, c: nat)
    requires Inv(s) && Timely(s) && Enabled(s, Acquire(c))
    ensures Inv(Apply(s, Acquire(c)))
  {
    var s' := Apply(s, Acquire(c));
    if !Locked(s.store, s.now) {
      forall d | d in s.calls ensures !Inside(s.calls[d]) {
        assert CallInv(s, s.calls[d]);
      }
      assert Settled(s);
    } else {
      forall d | d in s'.calls ensures CallInv(s', s'.calls[d]) {
        assert CallInv(s, s.calls[d]);
      }
      if forall d <- s'.calls :: !s'.calls[d].Holding? {
        assert forall d <- s.calls :: d != c ==> d in s'.calls;
      }
    }
  }

  lemma RecheckStep(s: State, c: nat)
    requires Inv(s) && Enabled(s, Recheck(c))
    ensures Inv(Apply(s, Recheck(c)))
  {
    var s' := Apply(s, Recheck(c));
    assert CallInv(s, s.calls[c]);
    assert Settled(s);
    forall d | d in s'.calls ensures CallInv(s', s'.calls[d]) {
      assert CallInv(s, s.calls[d]);
    }
  }

  lemma IssueStep(s: State, c: nat, expiresAt: real)
    requires Inv(s) && Enabled(s, Issue(c, expiresAt))
    ensures Inv(Apply(s, Issue(c, expiresAt)))
  {
    var s' := Apply(s, Issue(c, expiresAt));
    assert CallInv(s, s.calls[c]);
    forall i | 0 <= i < |s.issued| ensures Stale(s, s.issued[i]) {
      assert s.issued[i] in s.issued;
    }
    forall d | d in s'.calls ensures CallInv(s', s'.calls[d]) {
      assert CallInv(s, s.calls[d]);
    }
    assert s'.calls[c].Holding?;
  }

  lemma SaveStep(s: State, c: nat)
    requires Inv(s) && Enabled(s, Save(c))
    ensures Inv(Apply(s, Save(c)))
  {
    var s' := Apply(s, Save(c));
    assert CallInv(s, s.calls[c]);
    SavedLongEnough(s.now, s.calls[c].expiresAt);
    forall d | d in s'.calls ensures CallInv(s', s'.calls[d]) {
      assert CallInv(s, s.calls[d]);
    }
    forall t | t in s'.issued ensures Stale(s', t) || IsCached(s', t) {
      var i :| 0 <= i < |s.issued| && s.issued[i] == t;
    }
  }

  lemma LeaveStep(s: State, c: nat, released: bool)
    requires Inv(s) && Enabled(s, Leave(c, released))
    ensures Inv(Apply(s, Leave(c, released)))
  {
    var s' := Apply(s, Leave(c, released));
    forall d | d in s'.calls ensures CallInv(s', s'.calls[d]) {
      assert CallInv(s, s.calls[d]);
    }
    assert forall d <- s.calls :: d != c ==> !Inside(s.calls[d]);
    assert Settled(s);
  }

  lemma Step(s: State, e: Event)
    requires Inv(s) && Timely(s) && Enabled(s, e)
    ensures Inv(Apply(s, e))
  {
    match e
    case Tick(dt) => TickStep(s, dt);
    case Check(c) => CheckStep(s, c);
    case Acquire(c) => AcquireStep(s, c);
    case Recheck(c) => RecheckStep(s, c);
    case Issue(c, expiresAt) => IssueStep(s, c, expiresAt);
    case Save(c) => SaveStep(s, c);
    case Leave(c, released) => LeaveStep(s, c, released);
  }

  lemma {:induction false} InvAlongRun(s: State, events: seq<Event>)
    requires Inv(s) && TimelyRun(s, events)
    ensures Run(s, events) && Inv(Final(s, events)) && Timely(Final(s, events))
    decreases |events|
  {
    if events != [] {
      Step(s, events[0]);
      InvAlongRun(Apply(s, events[0]), events[1..]);
    }
  }

  /** MAIN. While nobody stays inside for the life of the lock, at most one caller is inside at any time
      and every token is requested within or after the last five minutes of all tokens before it. */
  lemma TokensAreSpaced(now: real, events: seq<Event>)
    requires TimelyRun(Empty(now), events)
    ensures Run(Empty(now), events)
    ensures OneInside(Final(Empty(now), events)) && Spaced(Final(Empty(now), events).issued)
  {
    InvAlongRun(Empty(now), events);
  }

  // ---------------------------------------------------------------------------------------------
  // Why the callers have to be timely.

  /** A second caller gets in exactly when the first one has been inside for the life of the lock. */
  lemma SecondEntryIff(now: real, events: seq<Event>, first: nat, second: nat, dt: real)
    requires TimelyRun(Empty(now), events) && Run(Empty(now), events) && dt >= 0.0
    requires var s := Final(Empty(now), events);
             first in s.calls && Inside(s.calls[first]) && second in s.calls && s.calls[second].Waiting?
    ensures var s := Final(Empty(now), events);
            var late := Apply(Apply(s, Tick(dt)), Acquire(second));
            !OneInside(late) <==> s.now + dt >= s.calls[first].since + 55.0
  {
    InvAlongRun(Empty(now), events);
    var s := Final(Empty(now), events);
    assert CallInv(s, s.calls[first]);
    var late := Apply(Apply(s, Tick(dt)), Acquire(second));
    if s.now + dt >= s.calls[first].since + LOCK_TTL_SECONDS {
      assert Inside(late.calls[first]) && Inside(late.calls[second]);
    }
  }

  lemma RunFirst(s: State, e: Event, rest: seq<Event>)
    requires Enabled(s, e) && Run(Apply(s, e), rest)
    ensures Run(s, [e] + rest) && Final(s, [e] + rest) == Final(Apply(s, e), rest)
  {
    assert ([e] + rest)[1..] == rest;
  }

  /** Any caller about to request a token, if held up until its lock is gone, shares the moment of its
      request with a second caller: both get a token, and the tokens are not spaced. */
  lemma OverstayingIssuesTwice(now: real, before: seq<Event>, first: nat, second: nat) returns (events: seq<Event>)
    requires TimelyRun(Empty(now), before) && Run(Empty(now), before)
    requires var s := Final(Empty(now), before);
             first in s.calls && s.calls[first].Cleared? && second !in s.calls
    ensures Run(Final(Empty(now), before), events)
    ensures var s := Final(Final(Empty(now), before), events);
            !OneInside(s) && !Spaced(s.issued)
  {
    InvAlongRun(Empty(now), before);
    var s := Final(Empty(now), before);
    assert CallInv(s, s.calls[first]);
    var late := s.calls[first].since + LOCK_TTL_SECONDS;
    assert s.now < late;
    var expiry := late + EXPIRY_BUFFER_SECONDS + 1.0;
    var a, b, c, d, e, f := Tick(late - s.now), Check(second), Acquire(second), Recheck(second),
                            Issue(first, expiry), Issue(second, expiry);
    var s1 := Apply(s, a);
    var s2 := Apply(s1, b);
    var s3 := Apply(s2, c);
    var s4 := Apply(s3, d);
    var s5 := Apply(s4, e);
    var s6 := Apply(s5, f);
    RunFirst(s5, f, []);
    RunFirst(s4, e, [f]);
    RunFirst(s3, d, [e] + [f]);
    RunFirst(s2, c, [d] + ([e] + [f]));
    RunFirst(s1, b, [c] + ([d] + ([e] + [f])));
    events := [a] + ([b] + ([c] + ([d] + ([e] + [f]))));
    RunFirst(s, a, [b] + ([c] + ([d] + ([e] + [f]))));
    assert [f] + [] == [f];
    var n := |s6.issued|;
    assert s6.issued[n - 2] == s6.issued[n - 1] == Token(late, expiry);
    assert Inside(s6.calls[first]) && Inside(s6.calls[second]);
  }
}
