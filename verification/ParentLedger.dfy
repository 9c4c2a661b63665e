/** What is in a parent's row, over whole runs with one serial tracker: the quantity its own last poll wrote
    and what was folded in since. A parent's own poll replaces what was folded in before it. */
module ParentLedger {
  import opened Prelude
  import opened OrderState
  import opened OrderRepository
  import opened Tracking
  import opened OrderPipeline
  import opened OrderLifecycle
  import opened OrderBooks
  import opened OrderFolding

  /** Action a writes a matched broker row to order p itself. */
  predicate OwnPoll(s: State, a: Action, p: OrderId) {
    && a.TrackWrite? && a.report.Some? && a.k in s.trackers && s.trackers[a.k].id == p
    && s.trackers[a.k].phase.Polling?
    && var seen := s.trackers[a.k].phase.seen;
       CanTransition(seen.status, SnapshotOf(s, p, seen, a.report).next)
  }

  /** A matched poll of an order lowers what its row says is filled if and only if the transition test lets it
      through and the broker's row has less filled. */
  lemma OwnPollLowersIff(cfg: Config, s: State, k: nat, r: Report)
    requires cfg.serial && Inv(cfg, s) && Enabled(cfg, s, TrackWrite(k, Some(r)))
    ensures var id, seen := s.trackers[k].id, s.trackers[k].phase.seen;
            var s' := Apply(cfg, s, TrackWrite(k, Some(r)));
            && id in s.rows && id in s'.rows
            && (s'.rows[id].filled < s.rows[id].filled
                <==> RowFilled(r) < seen.filled && CanTransition(seen.status, SnapshotOf(s, id, seen, Some(r)).next))
  {
    assert TrackerInv(s, s.trackers[k]);
  }

  // ---------------------------------------------------------------------------------------------
  // The tally of a parent.

  /** base is what the last own poll wrote, since what modify children had folded in after it. */
  datatype Tally = Tally(base: int, since: int)

  function Tallied(s: State, a: Action, p: OrderId, t: Tally): Tally {
    if OwnPoll(s, a, p) then Tally(RowFilled(a.report.value), 0)
    else if ModifyFoldsInto(s, a, p) then t.(since := t.since + Amount(s, a))
    else t
  }

  ghost function TallyAlong(cfg: Config, s: State, actions: seq<Action>, p: OrderId, t: Tally): Tally
    requires Run(cfg, s, actions)
    decreases |actions|
  {
    if actions == [] then t
    else TallyAlong(cfg, Apply(cfg, s, actions[0]), actions[1..], p, Tallied(s, actions[0], p, t))
  }

  /** The row of p says what the tally says, up to the ordered quantity. */
  predicate Kept(s: State, p: OrderId, t: Tally) {
    && t.since >= 0
    && (p in s.rows ==> 0 <= t.base <= s.rows[p].qty && s.rows[p].filled == Min(t.base + t.since, s.rows[p].qty))
    && (p !in s.rows ==> t == Tally(0, 0))
  }

  /** A tracker at work on its order after the poll still finds there what it wrote. */
  predicate Wrote(row: Order, phase: TrackPhase) {
    match phase
    case Polling(seen) => seen == row
    case Folding(_, snap) => snap.filled == row.filled
    case Writing(_, snap, _, _, _) => snap.filled == row.filled
    case Closing(snap) => snap.filled == row.filled
  }

  ghost predicate OwnInv(s: State, p: OrderId) {
    && (forall o <- s.rows :: s.rows[o].original != Some(o))
    && (forall k <- s.trackers :: Recognizes(s, s.trackers[k])
                                  && (s.trackers[k].id == p ==> Wrote(s.rows[p], s.trackers[k].phase)))
  }

  lemma WorkerOneOwn(cfg: Config, s: State, a: Action, p: OrderId, t: Tally)
    requires Inv(cfg, s) && OwnInv(s, p) && Kept(s, p, t)
    requires Enabled(cfg, s, a) && !TrackerAction(a)
    ensures OwnInv(Apply(cfg, s, a), p) && Kept(Apply(cfg, s, a), p, Tallied(s, a, p, t))
  {
    var s' := Apply(cfg, s, a);
    WorkerOneIsUnseen(cfg, s, a);
    forall k | k in s'.trackers
      ensures Recognizes(s', s'.trackers[k])
      ensures s'.trackers[k].id == p ==> Wrote(s'.rows[p], s'.trackers[k].phase)
    {
      assert Recognizes(s, s.trackers[k]) && TrackerInv(s, s.trackers[k]);
    }
  }

  lemma PollOwn(cfg: Config, s: State, k: nat, report: Option<Report>, p: OrderId, t: Tally)
    requires cfg.serial && Inv(cfg, s) && OwnInv(s, p) && Kept(s, p, t)
    requires Enabled(cfg, s, TrackWrite(k, report)) && Honest(s, TrackWrite(k, report))
    ensures var s' := Apply(cfg, s, TrackWrite(k, report));
            OwnInv(s', p) && Kept(s', p, Tallied(s, TrackWrite(k, report), p, t))
  {
    assert Recognizes(s, s.trackers[k]) && TrackerInv(s, s.trackers[k]);
  }

  lemma FoldWriteOwn(cfg: Config, s: State, k: nat, p: OrderId, t: Tally)
    requires cfg.serial && Inv(cfg, s) && OwnInv(s, p) && Kept(s, p, t) && Enabled(cfg, s, FoldWrite(k))
    ensures var s' := Apply(cfg, s, FoldWrite(k));
            OwnInv(s', p) && Kept(s', p, Tallied(s, FoldWrite(k), p, t))
  {
    assert Recognizes(s, s.trackers[k]) && TrackerInv(s, s.trackers[k]);
    FoldStep(cfg, s, k);
  }

  /** Steps that change no row. */
  lemma MovesOwn(cfg: Config, s: State, a: Action, p: OrderId, t: Tally)
    requires cfg.serial && Inv(cfg, s) && OwnInv(s, p) && Kept(s, p, t) && Enabled(cfg, s, a)
    requires a.StartTrack? || a.FoldRead? || a.EndTrack?
    ensures OwnInv(Apply(cfg, s, a), p) && Kept(Apply(cfg, s, a), p, Tallied(s, a, p, t))
  {
    if !a.StartTrack? {
      assert Recognizes(s, s.trackers[a.k]) && TrackerInv(s, s.trackers[a.k]);
    }
  }

  lemma EndsOwn(cfg: Config, s: State, a: Action, p: OrderId, t: Tally)
    requires cfg.serial && Inv(cfg, s) && OwnInv(s, p) && Kept(s, p, t) && Enabled(cfg, s, a)
    requires a.TrackError? || a.TrackTimeout?
    ensures OwnInv(Apply(cfg, s, a), p) && Kept(Apply(cfg, s, a), p, Tallied(s, a, p, t))
  {
    assert Recognizes(s, s.trackers[a.k]) && TrackerInv(s, s.trackers[a.k]);
  }

  lemma OwnStep(cfg: Config, s: State, a: Action, p: OrderId, t: Tally)
    requires cfg.serial && Inv(cfg, s) && OwnInv(s, p) && Kept(s, p, t)
    requires Enabled(cfg, s, a) && Honest(s, a)
    ensures OwnInv(Apply(cfg, s, a), p) && Kept(Apply(cfg, s, a), p, Tallied(s, a, p, t))
  {
    if !TrackerAction(a) {
      WorkerOneOwn(cfg, s, a, p, t);
    } else if a.TrackWrite? {
      PollOwn(cfg, s, a.k, a.report, p, t);
    } else if a.FoldWrite? {
      FoldWriteOwn(cfg, s, a.k, p, t);
    } else if a.TrackError? || a.TrackTimeout? {
      EndsOwn(cfg, s, a, p, t);
    } else {
      MovesOwn(cfg, s, a, p, t);
    }
  }

  lemma {:induction false} OwnAlong(cfg: Config, s: State, actions: seq<Action>, p: OrderId, t: Tally)
    requires cfg.serial && Inv(cfg, s) && OwnInv(s, p) && Kept(s, p, t) && HonestRun(cfg, s, actions)
    ensures Run(cfg, s, actions)
    ensures Kept(Final(cfg, s, actions), p, TallyAlong(cfg, s, actions, p, t))
    decreases |actions|
  {
    if actions != [] {
      OwnStep(cfg, s, actions[0], p, t);
      EveryWriteIsAnEdge(cfg, s, actions[0]);
      OwnAlong(cfg, Apply(cfg, s, actions[0]), actions[1..], p, Tallied(s, actions[0], p, t));
    }
  }

  /** MAIN. On every serial run, what an order's row says is filled is what its own last poll wrote plus what its
      modify children had folded in since, up to the ordered quantity. */
  lemma FilledIsTallied(cfg: Config, actions: seq<Action>, p: OrderId)
    requires cfg.serial && HonestRun(cfg, EMPTY, actions)
    ensures Run(cfg, EMPTY, actions)
    ensures var s, t := Final(cfg, EMPTY, actions), TallyAlong(cfg, EMPTY, actions, p, Tally(0, 0));
            p in s.rows ==> t.since >= 0 && s.rows[p].filled == Min(t.base + t.since, s.rows[p].qty)
  {
    OwnAlong(cfg, EMPTY, actions, p, Tally(0, 0));
  }

  // ---------------------------------------------------------------------------------------------
  // One child's part of it.

  /** Broker rows add up, the child's report no less than before, and it is a modify order of p. */
  predicate FamilyStep(s: State, a: Action, c: OrderId, p: OrderId) {
    && Honest(s, a) && Reports(s, a, c)
    && (a.Create? && a.id == c ==> a.order.kind == Modify && a.order.original == Some(p))
  }

  ghost predicate FamilyRun(cfg: Config, s: State, actions: seq<Action>, c: OrderId, p: OrderId)
    decreases |actions|
  {
    actions == []
    || (Enabled(cfg, s, actions[0]) && FamilyStep(s, actions[0], c, p)
        && FamilyRun(cfg, Apply(cfg, s, actions[0]), actions[1..], c, p))
  }

  lemma {:induction false} FamilyRunIsBoth(cfg: Config, s: State, actions: seq<Action>, c: OrderId, p: OrderId)
    requires FamilyRun(cfg, s, actions, c, p)
    ensures Run(cfg, s, actions) && HonestRun(cfg, s, actions) && ReportingRun(cfg, s, actions, c)
    decreases |actions|
  {
    if actions != [] {
      FamilyRunIsBoth(cfg, Apply(cfg, s, actions[0]), actions[1..], c, p);
    }
  }

  function PartAfter(s: State, a: Action, c: OrderId, p: OrderId, part: int): int {
    if OwnPoll(s, a, p) then 0 else if FoldsIn(s, a, c) then part + Amount(s, a) else part
  }

  /** What of the child has been folded in since the parent's last own poll. */
  ghost function PartAlong(cfg: Config, s: State, actions: seq<Action>, c: OrderId, p: OrderId, part: int): int
    requires Run(cfg, s, actions)
    decreases |actions|
  {
    if actions == [] then part
    else PartAlong(cfg, Apply(cfg, s, actions[0]), actions[1..], c, p, PartAfter(s, actions[0], c, p, part))
  }

  /** No own poll of the parent is let through after something of the child was folded in. */
  ghost predicate NeverReplaced(cfg: Config, s: State, actions: seq<Action>, c: OrderId, p: OrderId, part: int)
    requires Run(cfg, s, actions)
    decreases |actions|
  {
    actions == []
    || (!(OwnPoll(s, actions[0], p) && part > 0)
        && NeverReplaced(cfg, Apply(cfg, s, actions[0]), actions[1..], c, p, PartAfter(s, actions[0], c, p, part)))
  }

  ghost predicate ChildOf(s: State, c: OrderId, p: OrderId) {
    c in s.rows ==> s.rows[c].kind == Modify && s.rows[c].original == Some(p)
  }

  lemma StaysChild(cfg: Config, s: State, a: Action, c: OrderId, p: OrderId)
    requires ChildOf(s, c, p) && Enabled(cfg, s, a) && FamilyStep(s, a, c, p)
    ensures ChildOf(Apply(cfg, s, a), c, p)
  {
    if !TrackerAction(a) && c in s.rows {
      WorkerOneWrites(cfg, s, a, c);
    }
  }

  /** The child's part is part of the tally. */
  lemma PartCounts(s: State, a: Action, c: OrderId, p: OrderId)
    requires FoldingInv(s, c) && ChildOf(s, c, p) && FoldsIn(s, a, c)
    ensures ModifyFoldsInto(s, a, p) && !OwnPoll(s, a, p) && Amount(s, a) > 0
  {
    assert Recognizes(s, s.trackers[a.k]);
    MovedIsPositive(s, a, c);
  }

  lemma OthersAdd(cfg: Config, s: State, a: Action, p: OrderId)
    requires Inv(cfg, s) && ModifyFoldsInto(s, a, p)
    ensures Amount(s, a) > 0
  {
    assert TrackerInv(s, s.trackers[a.k]);
  }

  lemma {:induction false} PartAlongRun(cfg: Config, s: State, actions: seq<Action>, c: OrderId, p: OrderId, part: int,
                                        t: Tally)
    requires cfg.serial && cfg.reading == BeforeWrite && FamilyRun(cfg, s, actions, c, p)
    requires Inv(cfg, s) && FoldingInv(s, c) && ChildOf(s, c, p) && 0 <= part <= t.since
    ensures Run(cfg, s, actions)
    ensures 0 <= PartAlong(cfg, s, actions, c, p, part) <= TallyAlong(cfg, s, actions, p, t).since
    ensures PartAlong(cfg, s, actions, c, p, part) <= part + FoldedAlong(cfg, s, actions, c)
    ensures PartAlong(cfg, s, actions, c, p, part) == part + FoldedAlong(cfg, s, actions, c)
        <==> NeverReplaced(cfg, s, actions, c, p, part)
    decreases |actions|
  {
    if actions != [] {
      var a := actions[0];
      EveryWriteIsAnEdge(cfg, s, a);
      StepLedger(cfg, s, a, c);
      StaysChild(cfg, s, a, c, p);
      if FoldsIn(s, a, c) {
        PartCounts(s, a, c, p);
      }
      if ModifyFoldsInto(s, a, p) {
        OthersAdd(cfg, s, a, p);
      }
      PartAlongRun(cfg, Apply(cfg, s, a), actions[1..], c, p, PartAfter(s, a, c, p, part), Tallied(s, a, p, t));
    }
  }

  /** MAIN. On every serial run, a modify child's quantity is in its parent's row in full, once, if and only if no
      step lost any of it and no own poll of the parent replaced any of it. */
  lemma StillInParentIff(cfg: Config, actions: seq<Action>, c: OrderId, p: OrderId)
    requires cfg.serial && cfg.reading == BeforeWrite && FamilyRun(cfg, EMPTY, actions, c, p)
    ensures Run(cfg, EMPTY, actions)
    ensures var s, t := Final(cfg, EMPTY, actions), TallyAlong(cfg, EMPTY, actions, p, Tally(0, 0));
            var part := PartAlong(cfg, EMPTY, actions, c, p, 0);
            c in s.rows && p in s.rows && Idle(s, c) ==>
              && s.rows[p].filled == Min(t.base + t.since, s.rows[p].qty)
              && 0 <= part <= t.since && part <= s.rows[c].filled
              && (part == s.rows[c].filled
                  <==> NeverLoses(cfg, EMPTY, actions, c) && NeverReplaced(cfg, EMPTY, actions, c, p, 0))
  {
    FamilyRunIsBoth(cfg, EMPTY, actions, c, p);
    FilledIsTallied(cfg, actions, p);
    LedgerAlong(cfg, EMPTY, actions, c, 0);
    PartAlongRun(cfg, EMPTY, actions, c, p, 0, Tally(0, 0));
  }
}
