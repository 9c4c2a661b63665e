/** Runs on which the pipeline's guarantees end: two trackers at once, a modify child that outlives its
    parent, and the two ways a database session can show a loaded row after an update. */
module OrderHazards {
  import opened Prelude
  import opened OrderState
  import opened OrderRepository
  import opened Tracking
  import opened OrderPipeline
  import opened OrderLifecycle

  // ---------------------------------------------------------------------------------------------

  /** Two trackers load the same accepted order and the first writes that all but
      one share are filled. */
  lemma BothLoadOneWrites(cfg: Config, s: State, id: OrderId, k: nat, l: nat) returns (actions: seq<Action>)
    requires !cfg.serial && k != l && k !in s.trackers && l !in s.trackers
    requires id in s.rows && s.rows[id].status == Accepted && s.rows[id].brokerNo.Some? && s.rows[id].qty >= 2
    ensures Run(cfg, s, actions)
    ensures var s' := Final(cfg, s, actions);
            && id in s'.rows && s'.rows[id].status == PartialFilled
            && l in s'.trackers && s'.trackers[l] == Tracker(id, Polling(s.rows[id]))
  {
    var a, b, c := StartTrack(k, id), StartTrack(l, id), TrackWrite(k, Some(Report(s.rows[id].qty, 1, 0, 0)));
    var s2 := Apply(cfg, Apply(cfg, s, a), b);
    RunTwo(cfg, s, a, b);
    RunOne(cfg, s2, c);
    RunAppend(cfg, s, [a, b], [c]);
    actions := [a, b] + [c];
  }

  lemma SecondWriteRegresses(cfg: Config, s: State, id: OrderId, l: nat, seen: Order)
    requires id in s.rows && s.rows[id].status == PartialFilled
    requires l in s.trackers && s.trackers[l] == Tracker(id, Polling(seen)) && seen.status == Accepted && seen.qty > 0
    ensures var a := TrackWrite(l, Some(Report(seen.qty, seen.qty, 0, 0)));
            Enabled(cfg, s, a) && id in Apply(cfg, s, a).rows && Apply(cfg, s, a).rows[id].status == Accepted
  {
    assert PartialFilled in Expected(Accepted);
  }

  /** Without the serial worker 2, every state with an accepted order has a run that takes that order
      from PARTIAL_FILLED back to ACCEPTED: the second tracker read the row before the first wrote it,
      and its guard expects both statuses. */
  lemma TwoTrackersRegress(cfg: Config, s: State, id: OrderId, k: nat, l: nat)
    requires !cfg.serial && k != l && k !in s.trackers && l !in s.trackers
    requires id in s.rows && s.rows[id].status == Accepted && s.rows[id].brokerNo.Some? && s.rows[id].qty >= 2
    ensures exists before, a ::
              && Run(cfg, s, before) && Enabled(cfg, Final(cfg, s, before), a)
              && id in Final(cfg, s, before).rows && Final(cfg, s, before).rows[id].status == PartialFilled
              && id in Apply(cfg, Final(cfg, s, before), a).rows
              && Apply(cfg, Final(cfg, s, before), a).rows[id].status == Accepted
  {
    var before := BothLoadOneWrites(cfg, s, id, k, l);
    SecondWriteRegresses(cfg, Final(cfg, s, before), id, l, s.rows[id]);
  }

  // ---------------------------------------------------------------------------------------------

  /** One submission task that the broker accepts. */
  function Acceptance(id: OrderId, t: nat): seq<Action> {
    [StartSubmit(t, id), Claim(t), CallBroker(t, Replied(true, Some(id))), Record(t, true)]
  }

  /** From any state, a pending order can be taken to ACCEPTED and nothing else changes but its calls. */
  lemma CanAccept(cfg: Config, s: State, id: OrderId, t: nat)
    requires cfg.claimSeen && t !in s.tasks && id in s.rows && id in s.calls && s.rows[id].status == Pending
    ensures Run(cfg, s, Acceptance(id, t))
    ensures var s' := Final(cfg, s, Acceptance(id, t));
            && s'.rows == s.rows[
                 id := s.rows[id].(status := Accepted, brokerNo := Some(id), remaining := s.rows[id].qty)]
            && s'.tasks == s.tasks && s'.trackers == s.trackers && s'.calls.Keys == s.calls.Keys
  {
    var a, b, c, d := StartSubmit(t, id), Claim(t), CallBroker(t, Replied(true, Some(id))), Record(t, true);
    var s1 := Apply(cfg, s, a);
    var s2 := Apply(cfg, s1, b);
    var s3 := Apply(cfg, s2, c);
    assert s2.rows == s.rows[id := s.rows[id].(status := Processing)];
    var s4 := Apply(cfg, s3, d);
    assert s4.tasks == s.tasks;
    assert s4.rows == s2.rows[
      id := s2.rows[id].(status := Accepted, brokerNo := Some(id), remaining := s.rows[id].qty)];
    RunFour(cfg, s, a, b, c, d);
  }

  /** A parent of ten and a modify child of q, both submitted. */
  function FamilySetup(q: int): seq<Action> {
    [Create(0, Order(New, None, 10, Pending, 0, 10, None))] + Acceptance(0, 0)
    + [Create(1, Order(Modify, Some(0), q, Pending, 0, q, None))] + Acceptance(1, 0)
  }

  lemma ParentAndChild(cfg: Config, q: int)
    requires cfg.claimSeen && q > 0
    ensures Run(cfg, EMPTY, FamilySetup(q))
    ensures Final(cfg, EMPTY, FamilySetup(q)).rows == map[
              0 := Order(New, None, 10, Accepted, 0, 10, Some(0)),
              1 := Order(Modify, Some(0), q, Accepted, 0, q, Some(1))]
    ensures Final(cfg, EMPTY, FamilySetup(q)).trackers == map[]
  {
    var c0 := Create(0, Order(New, None, 10, Pending, 0, 10, None));
    var c1 := Create(1, Order(Modify, Some(0), q, Pending, 0, q, None));
    var s1 := Apply(cfg, EMPTY, c0);
    RunOne(cfg, EMPTY, c0);
    CanAccept(cfg, s1, 0, 0);
    RunAppend(cfg, EMPTY, [c0], Acceptance(0, 0));
    var s2 := Final(cfg, s1, Acceptance(0, 0));
    RunOne(cfg, s2, c1);
    RunAppend(cfg, EMPTY, [c0] + Acceptance(0, 0), [c1]);
    CanAccept(cfg, Apply(cfg, s2, c1), 1, 0);
    RunAppend(cfg, EMPTY, [c0] + Acceptance(0, 0) + [c1], Acceptance(1, 0));
  }

  /** An order that the broker never lists times out. */
  lemma CanTimeOut(cfg: Config, s: State, id: OrderId) returns (actions: seq<Action>)
    requires s.trackers == map[]
    requires id in s.rows && s.rows[id] == Order(New, None, 10, Accepted, 0, 10, Some(0))
    ensures Run(cfg, s, actions)
    ensures var s' := Final(cfg, s, actions);
            s'.trackers == map[] && s'.rows == s.rows[id := s.rows[id].(status := Timeout)]
  {
    var a, b, c := StartTrack(0, id), TrackWrite(0, None), TrackTimeout(0);
    RunTwo(cfg, s, a, b);
    var s2 := Apply(cfg, Apply(cfg, s, a), b);
    RunOne(cfg, s2, c);
    RunAppend(cfg, s, [a, b], [c]);
    actions := [a, b] + [c];
  }

  /** What a tracker holds after an accepted modify child of q reported all but rmn of it as filled. */
  function FirstFills(q: int, rmn: int): Snapshot {
    Snapshot(q, q - rmn, rmn, 0, if rmn == 0 then Filled else PartialFilled)
  }

  lemma ChildPolled(cfg: Config, s: State, parent: OrderId, child: OrderId, q: int, rmn: int)
    requires s.trackers == map[] && parent in s.rows && child in s.rows && parent != child && 0 <= rmn < q
    requires s.rows[child] == Order(Modify, Some(parent), q, Accepted, 0, q, Some(1))
    ensures Enabled(cfg, s, StartTrack(0, child))
    ensures var s1, a := Apply(cfg, s, StartTrack(0, child)), TrackWrite(0, Some(Report(q, rmn, 0, 0)));
            && Enabled(cfg, s1, a)
            && var s2, snap := Apply(cfg, s1, a), FirstFills(q, rmn);
               && s2.rows == s.rows[child := s.rows[child].(status := snap.next, filled := q - rmn, remaining := rmn)]
               && s2.trackers == map[0 := Tracker(child, Folding(s.rows[child], snap))]
  {
  }

  /** A modify child of which all but rmn shares are filled is about to tell its parent. */
  lemma CanReachFold(cfg: Config, s: State, parent: OrderId, child: OrderId, q: int, rmn: int)
    returns (actions: seq<Action>)
    requires cfg.reading == BeforeWrite && s.trackers == map[]
    requires parent in s.rows && child in s.rows && parent != child && 0 <= rmn < q
    requires s.rows[child] == Order(Modify, Some(parent), q, Accepted, 0, q, Some(1))
    ensures Run(cfg, s, actions)
    ensures var s' := Final(cfg, s, actions);
            && parent in s'.rows && s'.rows[parent] == s.rows[parent]
            && 0 in s'.trackers
            && s'.trackers[0] == Tracker(child, Writing(Modify, FirstFills(q, rmn), parent, s.rows[parent], q - rmn))
  {
    var d, e, f := StartTrack(0, child), TrackWrite(0, Some(Report(q, rmn, 0, 0))), FoldRead(0);
    ChildPolled(cfg, s, parent, child, q, rmn);
    RunTwo(cfg, s, d, e);
    RunOne(cfg, Final(cfg, s, [d, e]), f);
    RunAppend(cfg, s, [d, e], [f]);
    actions := [d, e] + [f];
  }

  /** A parent of ten that timed out, and a modify child of it about to report all but rmn of its q. */
  lemma TimedOutParent(cfg: Config, q: int, rmn: int) returns (actions: seq<Action>)
    requires cfg.serial && cfg.echo && cfg.claimSeen && cfg.reading == BeforeWrite && 0 <= rmn < q
    ensures Run(cfg, EMPTY, actions)
    ensures var s, parent := Final(cfg, EMPTY, actions), Order(New, None, 10, Timeout, 0, 10, Some(0));
            && 0 in s.rows && s.rows[0] == parent && 0 in s.trackers
            && s.trackers[0] == Tracker(1, Writing(Modify, FirstFills(q, rmn), 0, parent, q - rmn))
  {
    var setup := FamilySetup(q);
    ParentAndChild(cfg, q);
    var timeout := CanTimeOut(cfg, Final(cfg, EMPTY, setup), 0);
    RunAppend(cfg, EMPTY, setup, timeout);
    var fold := CanReachFold(cfg, Final(cfg, EMPTY, setup + timeout), 0, 1, q, rmn);
    RunAppend(cfg, EMPTY, setup + timeout, fold);
    actions := setup + timeout + fold;
  }

  /** The exception of RankFallsIff does happen: the parent times out, then its modify child reports
      fills and the recompute makes the parent PARTIAL_FILLED again. */
  lemma TimedOutParentIsReopened(cfg: Config)
    requires cfg.serial && cfg.echo && cfg.claimSeen && cfg.reading == BeforeWrite
    ensures exists actions, a :: Run(cfg, EMPTY, actions) && Enabled(cfg, Final(cfg, EMPTY, actions), a)
                              && Reopens(Final(cfg, EMPTY, actions), a, 0)
  {
    var actions := TimedOutParent(cfg, 5, 3);
    assert Reopens(Final(cfg, EMPTY, actions), FoldWrite(0), 0);
    assert Enabled(cfg, Final(cfg, EMPTY, actions), FoldWrite(0));
  }

  /** A closed order is also relabelled without being reopened: the timed-out parent becomes FILLED when
      its modify child reports its whole quantity. */
  lemma TimedOutParentIsFilled(cfg: Config)
    requires cfg.serial && cfg.echo && cfg.claimSeen && cfg.reading == BeforeWrite
    ensures exists actions, a :: Run(cfg, EMPTY, actions) && Enabled(cfg, Final(cfg, EMPTY, actions), a)
                              && Relabels(Final(cfg, EMPTY, actions), a, 0)
                              && !Reopens(Final(cfg, EMPTY, actions), a, 0)
                              && Final(cfg, EMPTY, actions).rows[0].status == Timeout
                              && 0 in Apply(cfg, Final(cfg, EMPTY, actions), a).rows
                              && Apply(cfg, Final(cfg, EMPTY, actions), a).rows[0].status == Filled
  {
    var actions := TimedOutParent(cfg, 10, 0);
    var s := Final(cfg, EMPTY, actions);
    assert Relabels(s, FoldWrite(0), 0) && !Reopens(s, FoldWrite(0), 0) && Enabled(cfg, s, FoldWrite(0));
    assert Apply(cfg, s, FoldWrite(0)).rows[0].status == Filled;
  }

  // ---------------------------------------------------------------------------------------------

  /** What a session does to a loaded row when it updates it: either both workers see the new values in
      the row they hold, or neither does. */
  predicate OneSession(cfg: Config) {
    cfg.claimSeen <==> cfg.reading == AfterWrite
  }

  ghost predicate NobodyAccepted(s: State) {
    && s.trackers == map[]
    && (forall id <- s.rows :: s.rows[id].status in {Pending, Processing, Failed})
  }

  lemma {:induction false} UnseenClaims(cfg: Config, s: State, actions: seq<Action>)
    requires !cfg.claimSeen && NobodyAccepted(s) && Run(cfg, s, actions)
    ensures NobodyAccepted(Final(cfg, s, actions))
    decreases |actions|
  {
    if actions != [] {
      UnseenClaims(cfg, Apply(cfg, s, actions[0]), actions[1..]);
    }
  }

  ghost predicate NoModifyFold(s: State) {
    forall k <- s.trackers :: s.trackers[k].phase.Writing? ==> s.trackers[k].phase.kind != Modify
  }

  lemma {:induction false} LateReadings(cfg: Config, s: State, actions: seq<Action>)
    requires cfg.reading == AfterWrite && NoModifyFold(s) && Run(cfg, s, actions)
    ensures NoModifyFold(Final(cfg, s, actions))
    decreases |actions|
  {
    if actions != [] {
      LateReadings(cfg, Apply(cfg, s, actions[0]), actions[1..]);
    }
  }

  /** No session serves both workers: on every run, either no order is ever accepted, or no fill of a
      modify child is ever folded into its parent. */
  lemma NoSessionServesBoth(cfg: Config, actions: seq<Action>)
    requires OneSession(cfg) && Run(cfg, EMPTY, actions)
    ensures NobodyAccepted(Final(cfg, EMPTY, actions)) || NoModifyFold(Final(cfg, EMPTY, actions))
  {
    if cfg.claimSeen {
      LateReadings(cfg, EMPTY, actions);
    } else {
      UnseenClaims(cfg, EMPTY, actions);
    }
  }
}
