/** How a child's quantity gets lost on the way to its parent or out of the parent's row again, and how an open
    order is left without a next poll: runs from the empty system, with one serial tracker. */
module FoldingHazards {
  import opened Prelude
  import opened OrderState
  import opened OrderRepository
  import opened Tracking
  import opened OrderPipeline
  import opened OrderLifecycle
  import opened OrderBooks
  import opened OrderFolding
  import opened ParentLedger
  import opened OrderHazards
  import opened Workers

  // ---------------------------------------------------------------------------------------------

  /** Nothing of a filled order that no tracker is at work on is ever folded in any more. */
  lemma {:induction false} FilledFoldsNothing(cfg: Config, s: State, more: seq<Action>, c: OrderId)
    requires cfg.serial && cfg.echo && Inv(cfg, s) && Run(cfg, s, more)
    requires c in s.rows && s.rows[c].status == Filled && Idle(s, c)
    ensures FoldedAlong(cfg, s, more, c) == 0
    decreases |more|
  {
    if more != [] {
      var a := more[0];
      EveryWriteIsAnEdge(cfg, s, a);
      ClosedStaysClosed(cfg, s, a, c);
      FilledIsNotRelabelled(cfg, s, a, c);
      StaysIdle(cfg, s, a, c);
      FilledFoldsNothing(cfg, Apply(cfg, s, a), more[1..], c);
    }
  }

  lemma StaysIdle(cfg: Config, s: State, a: Action, c: OrderId)
    requires Enabled(cfg, s, a) && c in s.rows && s.rows[c].status in TERMINAL_STATES && Idle(s, c)
    ensures Idle(Apply(cfg, s, a), c) && !FoldsIn(s, a, c)
  {
    if !TrackerAction(a) {
      TrackersUntouched(cfg, s, a);
    }
  }

  lemma CanLoseFills(cfg: Config, s: State, child: OrderId, q: int) returns (actions: seq<Action>)
    requires s.trackers == map[] && q > 0
    requires child in s.rows && s.rows[child] == Order(Modify, Some(0), q, Accepted, 0, q, Some(1))
    requires 0 in s.rows && child != 0
    ensures Run(cfg, s, actions)
    ensures var s' := Final(cfg, s, actions);
            && s'.trackers == map[]
            && s'.rows == s.rows[child := s.rows[child].(status := Filled, filled := q, remaining := 0)]
  {
    var d, e, f := StartTrack(0, child), TrackWrite(0, Some(Report(q, 0, 0, 0))), EndTrack(0);
    ChildPolled(cfg, s, 0, child, q, 0);
    RunTwo(cfg, s, d, e);
    RunOne(cfg, Final(cfg, s, [d, e]), f);
    RunAppend(cfg, s, [d, e], [f]);
    actions := [d, e] + [f];
  }

  /** A tracker that ends after the child's write and before the parent's loses the fill for good: the child is
      FILLED with its whole q, its parent has none of it, and no continuation ever folds any of it in. */
  lemma FillLostForGood(cfg: Config, q: int) returns (actions: seq<Action>)
    requires cfg.serial && cfg.echo && cfg.claimSeen && q > 0
    ensures Run(cfg, EMPTY, actions)
    ensures var s := Final(cfg, EMPTY, actions);
            && s.rows == map[0 := Order(New, None, 10, Accepted, 0, 10, Some(0)),
                             1 := Order(Modify, Some(0), q, Filled, q, 0, Some(1))]
            && Idle(s, 1)
            && (forall more :: Run(cfg, s, more) ==> FoldedAlong(cfg, s, more, 1) == 0)
  {
    var setup := FamilySetup(q);
    ParentAndChild(cfg, q);
    var lose := CanLoseFills(cfg, Final(cfg, EMPTY, setup), 1, q);
    RunAppend(cfg, EMPTY, setup, lose);
    actions := setup + lose;
    var s := Final(cfg, EMPTY, actions);
    ReachableInv(cfg, actions);
    forall more | Run(cfg, s, more) ensures FoldedAlong(cfg, s, more, 1) == 0 {
      FilledFoldsNothing(cfg, s, more, 1);
    }
  }

  // ---------------------------------------------------------------------------------------------

  /** A run on which order 1 reports to order 0 and loses nothing. */
  ghost predicate Lossless(cfg: Config, s: State, actions: seq<Action>) {
    Run(cfg, s, actions) && FamilyRun(cfg, s, actions, 1, 0) && NeverLoses(cfg, s, actions, 1)
  }

  /** A step of worker 1 that creates at most order 1 as a modify order of order 0. */
  predicate Harmless(a: Action) {
    && !TrackerAction(a)
    && (a.Create? ==> Booked(a.order) && a.order.original != Some(1)
                      && (a.id == 1 ==> a.order.kind == Modify && a.order.original == Some(0)))
  }

  lemma {:induction false} HarmlessIsLossless(cfg: Config, s: State, actions: seq<Action>)
    requires Run(cfg, s, actions) && forall i :: 0 <= i < |actions| ==> Harmless(actions[i])
    ensures Lossless(cfg, s, actions)
    decreases |actions|
  {
    if actions != [] {
      assert Harmless(actions[0]);
      HarmlessIsLossless(cfg, Apply(cfg, s, actions[0]), actions[1..]);
    }
  }

  lemma SetupIsHarmless(q: int)
    requires q > 0
    ensures forall i :: 0 <= i < |FamilySetup(q)| ==> Harmless(FamilySetup(q)[i])
  {
    var a, b, accept := FamilySetup(q)[0], FamilySetup(q)[5], Acceptance(0, 0);
    assert Harmless(a) && Harmless(b);
    assert forall id: OrderId, i :: 0 <= i < 4 ==> Harmless(Acceptance(id, 0)[i]);
  }

  lemma SetupIsLossless(cfg: Config)
    requires cfg.claimSeen
    ensures Lossless(cfg, EMPTY, FamilySetup(5))
  {
    ParentAndChild(cfg, 5);
    SetupIsHarmless(5);
    HarmlessIsLossless(cfg, EMPTY, FamilySetup(5));
  }

  lemma {:induction false} LosslessAppend(cfg: Config, s: State, before: seq<Action>, after: seq<Action>)
    requires Lossless(cfg, s, before) && Lossless(cfg, Final(cfg, s, before), after)
    ensures Lossless(cfg, s, before + after)
    ensures Final(cfg, s, before + after) == Final(cfg, Final(cfg, s, before), after)
    decreases |before|
  {
    RunAppend(cfg, s, before, after);
    if before == [] {
      assert before + after == after;
    } else {
      var all := before + after;
      assert all[0] == before[0] && all[1..] == before[1..] + after;
      LosslessAppend(cfg, Apply(cfg, s, before[0]), before[1..], after);
    }
  }

  /** One step that keeps a run lossless. */
  ghost predicate Good(cfg: Config, s: State, a: Action, s': State) {
    Enabled(cfg, s, a) && FamilyStep(s, a, 1, 0) && !Loses(s, a, 1) && Apply(cfg, s, a) == s'
  }

  lemma LosslessOne(cfg: Config, s: State, a: Action, s': State)
    requires Good(cfg, s, a, s')
    ensures Lossless(cfg, s, [a]) && Final(cfg, s, [a]) == s'
  {
    RunOne(cfg, s, a);
    assert [a][1..] == [];
  }

  lemma LosslessThree(cfg: Config, s0: State, a: Action, s1: State, b: Action, s2: State, c: Action, s3: State)
    requires Good(cfg, s0, a, s1) && Good(cfg, s1, b, s2) && Good(cfg, s2, c, s3)
    ensures Lossless(cfg, s0, [a] + [b] + [c]) && Final(cfg, s0, [a] + [b] + [c]) == s3
  {
    LosslessOne(cfg, s0, a, s1);
    LosslessOne(cfg, s1, b, s2);
    LosslessOne(cfg, s2, c, s3);
    LosslessAppend(cfg, s0, [a], [b]);
    LosslessAppend(cfg, s0, [a] + [b], [c]);
  }

  const PARENT := Order(New, None, 10, Accepted, 0, 10, Some(0))
  const CHILD := Order(Modify, Some(0), 5, Accepted, 0, 5, Some(1))
  const FILLED_CHILD := CHILD.(status := Filled, filled := 5, remaining := 0)
  const HALF_PARENT := PARENT.(status := PartialFilled, filled := 5, remaining := 5)
  const EMPTIED_PARENT := PARENT.(status := Canceled, filled := 0, remaining := 0)

  function Rows2(parent: Order, child: Order): Rows {
    map[0 := parent, 1 := child]
  }

  function At(s: State, parent: Order, child: Order, trackers: map<nat, Tracker>): State {
    s.(rows := Rows2(parent, child), trackers := trackers)
  }

  function Busy(id: OrderId, phase: TrackPhase): map<nat, Tracker> {
    map[0 := Tracker(id, phase)]
  }

  lemma ChildStarts(cfg: Config, s: State)
    ensures Good(cfg, At(s, PARENT, CHILD, map[]), StartTrack(0, 1), At(s, PARENT, CHILD, Busy(1, Polling(CHILD))))
  {
  }

  lemma ChildWrites(cfg: Config, s: State)
    ensures Good(cfg, At(s, PARENT, CHILD, Busy(1, Polling(CHILD))), TrackWrite(0, Some(Report(5, 0, 0, 0))),
                 At(s, PARENT, FILLED_CHILD, Busy(1, Folding(CHILD, FirstFills(5, 0)))))
  {
    assert Accepted in Expected(Accepted);
  }

  lemma ChildReadsParent(cfg: Config, s: State)
    requires cfg.reading == BeforeWrite
    ensures Good(cfg, At(s, PARENT, FILLED_CHILD, Busy(1, Folding(CHILD, FirstFills(5, 0)))), FoldRead(0),
                 At(s, PARENT, FILLED_CHILD, Busy(1, Writing(Modify, FirstFills(5, 0), 0, PARENT, 5))))
  {
  }

  lemma ChildFolds(cfg: Config, s: State)
    ensures Good(cfg, At(s, PARENT, FILLED_CHILD, Busy(1, Writing(Modify, FirstFills(5, 0), 0, PARENT, 5))),
                 FoldWrite(0),
                 At(s, HALF_PARENT, FILLED_CHILD, Busy(1, Closing(FirstFills(5, 0)))))
  {
  }

  lemma ChildEnds(cfg: Config, s: State)
    ensures Good(cfg, At(s, HALF_PARENT, FILLED_CHILD, Busy(1, Closing(FirstFills(5, 0)))), EndTrack(0),
                 At(s, HALF_PARENT, FILLED_CHILD, map[]))
  {
  }

  /** A filled modify child of five and its parent of ten that has them. */
  lemma FilledChild(cfg: Config) returns (actions: seq<Action>)
    requires cfg.claimSeen && cfg.reading == BeforeWrite
    ensures Lossless(cfg, EMPTY, actions)
    ensures var s := Final(cfg, EMPTY, actions); s == At(s, HALF_PARENT, FILLED_CHILD, map[])
  {
    var setup := FamilySetup(5);
    ParentAndChild(cfg, 5);
    SetupIsLossless(cfg);
    var s := Final(cfg, EMPTY, setup);
    var a, b, c := StartTrack(0, 1), TrackWrite(0, Some(Report(5, 0, 0, 0))), FoldRead(0);
    var d, e := FoldWrite(0), EndTrack(0);
    var s2 := At(s, PARENT, FILLED_CHILD, Busy(1, Folding(CHILD, FirstFills(5, 0))));
    var s3 := At(s, PARENT, FILLED_CHILD, Busy(1, Writing(Modify, FirstFills(5, 0), 0, PARENT, 5)));
    ChildStarts(cfg, s);
    ChildWrites(cfg, s);
    ChildReadsParent(cfg, s);
    LosslessThree(cfg, s, a, At(s, PARENT, CHILD, Busy(1, Polling(CHILD))), b, s2, c, s3);
    ChildFolds(cfg, s);
    ChildEnds(cfg, s);
    var s4 := At(s, HALF_PARENT, FILLED_CHILD, Busy(1, Closing(FirstFills(5, 0))));
    var s5 := At(s, HALF_PARENT, FILLED_CHILD, map[]);
    LosslessOne(cfg, s3, d, s4);
    LosslessOne(cfg, s4, e, s5);
    LosslessAppend(cfg, s3, [d], [e]);
    LosslessAppend(cfg, s, [a] + [b] + [c], [d] + [e]);
    LosslessAppend(cfg, EMPTY, setup, [a] + [b] + [c] + ([d] + [e]));
    actions := setup + ([a] + [b] + [c] + ([d] + [e]));
  }

  const NOTHING_FILLED := Snapshot(10, 0, 0, 0, Canceled)

  lemma ParentStarts(cfg: Config, s: State)
    ensures Good(cfg, At(s, HALF_PARENT, FILLED_CHILD, map[]), StartTrack(0, 0),
                 At(s, HALF_PARENT, FILLED_CHILD, Busy(0, Polling(HALF_PARENT))))
  {
  }

  lemma ParentSees(s: State)
    ensures SnapshotOf(At(s, HALF_PARENT, FILLED_CHILD, Busy(0, Polling(HALF_PARENT))), 0, HALF_PARENT,
                       Some(Report(10, 0, 10, 0))) == NOTHING_FILLED
  {
    assert Rows2(HALF_PARENT, FILLED_CHILD)[1].original == Some(0);
    assert HasChild(Rows2(HALF_PARENT, FILLED_CHILD), 0);
  }

  lemma ParentWritten()
    ensures PartialFilled in Expected(PartialFilled)
    ensures SetTracking(Rows2(HALF_PARENT, FILLED_CHILD), 0, Expected(PartialFilled), Canceled, 0, 0)
         == Rows2(EMPTIED_PARENT, FILLED_CHILD)
  {
    assert PartialFilled in Expected(PartialFilled);
  }

  lemma ParentWrites(cfg: Config, s: State)
    ensures Good(cfg, At(s, HALF_PARENT, FILLED_CHILD, Busy(0, Polling(HALF_PARENT))),
                 TrackWrite(0, Some(Report(10, 0, 10, 0))),
                 At(s, EMPTIED_PARENT, FILLED_CHILD, Busy(0, Folding(HALF_PARENT, NOTHING_FILLED))))
  {
    ParentSees(s);
    ParentWritten();
  }

  lemma ParentEnds(cfg: Config, s: State)
    ensures Good(cfg, At(s, EMPTIED_PARENT, FILLED_CHILD, Busy(0, Folding(HALF_PARENT, NOTHING_FILLED))), EndTrack(0),
                 At(s, EMPTIED_PARENT, FILLED_CHILD, map[]))
  {
  }

  /** The parent's own poll replaces what was folded in: on a run that loses nothing and whose rows all add up,
      the child ends FILLED with five and its parent CANCELED with none. */
  lemma FoldedFillReplaced(cfg: Config) returns (actions: seq<Action>)
    requires cfg.serial && cfg.echo && cfg.claimSeen && cfg.reading == BeforeWrite
    ensures Lossless(cfg, EMPTY, actions)
    ensures var s := Final(cfg, EMPTY, actions); s == At(s, EMPTIED_PARENT, FILLED_CHILD, map[])
  {
    var before := FilledChild(cfg);
    var s := Final(cfg, EMPTY, before);
    var a, b, c := StartTrack(0, 0), TrackWrite(0, Some(Report(10, 0, 10, 0))), EndTrack(0);
    ParentStarts(cfg, s);
    ParentWrites(cfg, s);
    ParentEnds(cfg, s);
    LosslessThree(cfg, s, a, At(s, HALF_PARENT, FILLED_CHILD, Busy(0, Polling(HALF_PARENT))),
                  b, At(s, EMPTIED_PARENT, FILLED_CHILD, Busy(0, Folding(HALF_PARENT, NOTHING_FILLED))),
                  c, At(s, EMPTIED_PARENT, FILLED_CHILD, map[]));
    LosslessAppend(cfg, EMPTY, before, [a] + [b] + [c]);
    actions := before + ([a] + [b] + [c]);
  }

  /** A poll that is refused ends the chain with the order open, however early: the parent just folded into is
      polled, its well-formed row has nothing filled, and the task neither writes nor asks to run again. */
  lemma RefusedPollEndsChain(cfg: Config) returns (actions: seq<Action>)
    requires cfg.serial && cfg.echo && cfg.claimSeen && cfg.reading == BeforeWrite
    ensures Run(cfg, EMPTY, actions)
    ensures var rows, r := Final(cfg, EMPTY, actions).rows, Report(10, 5, 5, 0);
            && Final(cfg, EMPTY, actions).trackers == map[] && Pollable(rows, 0) && WellFormed(rows[0].qty, r)
            && (forall attempt: nat, elapsed: real ::
                  && NextPoll(rows, 0, Some(r), attempt, elapsed) == None
                  && Processed(rows, 0, Some(r), BeforeWrite, attempt, elapsed) == rows)
  {
    actions := FilledChild(cfg);
    var rows := Final(cfg, EMPTY, actions).rows;
    assert rows[1].original == Some(0);
    assert HasChild(rows, 0);
    PollRefusedIff(rows, 0, Report(10, 5, 5, 0));
  }
}
