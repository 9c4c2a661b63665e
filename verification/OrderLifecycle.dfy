/** What one serial tracker guarantees about statuses while worker 1 interleaves freely: every write
    other than a parent recompute follows the transition table, an order the broker has never moves
    back, and the single exception is named exactly. */
module OrderLifecycle {
  import opened Prelude
  import opened OrderState
  import opened OrderRepository
  import opened Tracking
  import opened OrderPipeline

  predicate RowInv(cfg: Config, o: Order) {
    && o.qty > 0 && o.filled >= 0
    && (o.status == PartialFilled ==> o.filled > 0)
    && (cfg.echo && o.status == Filled ==> o.filled >= o.qty)
  }

  predicate TrackerInv(s: State, tracker: Tracker) {
    match tracker.phase
    case Polling(seen) => tracker.id in s.rows && s.rows[tracker.id] == seen && seen.status in TRACKED_STATES
    case Folding(_, snap) => snap.filled >= 0
    case Closing(snap) => snap.filled >= 0
    case Writing(kind, snap, parentId, parent, delta) =>
      && snap.filled >= 0 && delta > 0 && kind in {Modify, Cancel}
      && parentId in s.rows && s.rows[parentId].filled == parent.filled && s.rows[parentId].qty == parent.qty
      && (parent.status !in {Pending, Processing} ==> s.rows[parentId] == parent)
  }

  ghost predicate Inv(cfg: Config, s: State) {
    && (forall id <- s.rows :: RowInv(cfg, s.rows[id]))
    && (forall k <- s.trackers :: TrackerInv(s, s.trackers[k]))
    && (forall k, l :: k in s.trackers && l in s.trackers ==> k == l)
  }

  // ---------------------------------------------------------------------------------------------
  // Worker 1.

  /** A worker-1 write: the row was not with the broker yet, its quantities stay, the move is allowed. */
  predicate SubmitWrite(before: Order, after: Order) {
    && before.status in {Pending, Processing}
    && after.status in AllowedNext(before.status)
    && after == before.(status := after.status, brokerNo := after.brokerNo, remaining := after.remaining)
  }

  lemma WorkerOneWrites(cfg: Config, s: State, a: Action, id: OrderId)
    requires Enabled(cfg, s, a) && !TrackerAction(a) && id in s.rows
    ensures var s' := Apply(cfg, s, a);
            && s'.trackers == s.trackers && id in s'.rows
            && (s'.rows[id] == s.rows[id] || SubmitWrite(s.rows[id], s'.rows[id]))
  {
  }

  lemma TrackersUntouched(cfg: Config, s: State, a: Action)
    requires Enabled(cfg, s, a) && !TrackerAction(a)
    ensures Apply(cfg, s, a).trackers == s.trackers
  {
  }

  lemma WorkerOneKeepsInv(cfg: Config, s: State, a: Action)
    requires Inv(cfg, s) && Enabled(cfg, s, a) && !TrackerAction(a)
    ensures Inv(cfg, Apply(cfg, s, a))
  {
    var s' := Apply(cfg, s, a);
    TrackersUntouched(cfg, s, a);
    forall id | id in s'.rows ensures RowInv(cfg, s'.rows[id]) {
      if id in s.rows {
        WorkerOneWrites(cfg, s, a, id);
        assert RowInv(cfg, s.rows[id]);
      }
    }
    forall k | k in s.trackers
      ensures k in s'.trackers && s'.trackers[k] == s.trackers[k] && TrackerInv(s', s.trackers[k])
    {
      assert TrackerInv(s, s.trackers[k]);
      match s.trackers[k].phase
      case Polling(_) => WorkerOneWrites(cfg, s, a, s.trackers[k].id);
      case Writing(_, _, parentId, _, _) => WorkerOneWrites(cfg, s, a, parentId);
      case _ =>
    }
  }

  // ---------------------------------------------------------------------------------------------
  // Worker 2.

  /** A tracker's write to the order it polls. */
  predicate TrackedWrite(cfg: Config, before: Order, after: Order) {
    && before.status in TRACKED_STATES
    && after.status in AllowedNext(before.status)
    && after.qty == before.qty && after.original == before.original && after.kind == before.kind
    && RowInv(cfg, after)
  }

  lemma PollStep(cfg: Config, s: State, k: nat, report: Option<Report>)
    requires cfg.serial && Inv(cfg, s) && Enabled(cfg, s, TrackWrite(k, report))
    ensures var s' := Apply(cfg, s, TrackWrite(k, report));
            && s'.rows.Keys == s.rows.Keys
            && (forall id <- s.rows :: s'.rows[id] == s.rows[id] || TrackedWrite(cfg, s.rows[id], s'.rows[id]))
            && Inv(cfg, s')
  {
    var tracker := s.trackers[k];
    assert TrackerInv(s, tracker) && RowInv(cfg, s.rows[tracker.id]);
    var s', snap := Apply(cfg, s, TrackWrite(k, report)), SnapshotOf(s, tracker.id, tracker.phase.seen, report);
    if CanTransition(tracker.phase.seen.status, snap.next) {
      assert TrackedWrite(cfg, s.rows[tracker.id], s'.rows[tracker.id]);
    }
  }

  /** The recompute of a parent row, with the values of the row as they are when it is written. */
  function Refolded(w: TrackPhase, current: Order): Order
    requires w.Writing?
  {
    if FoldAllowed(w.kind, current.status) then
      var (filled, remaining, next) := Folded(w.kind, w.parent, w.delta);
      current.(filled := filled, remaining := remaining, status := next)
    else current
  }

  lemma FoldStep(cfg: Config, s: State, k: nat)
    requires cfg.serial && Inv(cfg, s) && Enabled(cfg, s, FoldWrite(k))
    ensures var s', w := Apply(cfg, s, FoldWrite(k)), s.trackers[k].phase;
            && w.parentId in s.rows
            && s'.rows == s.rows[w.parentId := Refolded(w, s.rows[w.parentId])]
            && Inv(cfg, s')
  {
    var w := s.trackers[k].phase;
    assert TrackerInv(s, s.trackers[k]) && RowInv(cfg, s.rows[w.parentId]);
    var s' := Apply(cfg, s, FoldWrite(k));
    assert s'.rows == s.rows[w.parentId := Refolded(w, s.rows[w.parentId])];
    assert RowInv(cfg, s'.rows[w.parentId]);
  }

  lemma OtherTrackerStep(cfg: Config, s: State, a: Action)
    requires cfg.serial && Inv(cfg, s) && Enabled(cfg, s, a) && TrackerAction(a)
    requires !a.TrackWrite? && !a.FoldWrite?
    ensures var s' := Apply(cfg, s, a);
            && s'.rows.Keys == s.rows.Keys
            && (forall id <- s.rows :: s'.rows[id] == s.rows[id] || TrackedWrite(cfg, s.rows[id], s'.rows[id]))
            && Inv(cfg, s')
  {
    var s' := Apply(cfg, s, a);
    if !a.StartTrack? {
      assert TrackerInv(s, s.trackers[a.k]);
    }
    forall id | id in s.rows
      ensures id in s'.rows
      ensures s'.rows[id] == s.rows[id] || TrackedWrite(cfg, s.rows[id], s'.rows[id])
    {
      assert RowInv(cfg, s.rows[id]);
    }
    forall l | l in s'.trackers ensures TrackerInv(s', s'.trackers[l]) {
      assert l in s.trackers ==> TrackerInv(s, s.trackers[l]);
    }
  }

  // ---------------------------------------------------------------------------------------------
  // All steps.

  /** The parent recompute of action a is about to hit order id. */
  predicate FoldsInto(s: State, a: Action, id: OrderId) {
    a.FoldWrite? && a.k in s.trackers && s.trackers[a.k].phase.Writing? && s.trackers[a.k].phase.parentId == id
  }

  /** MAIN. A step keeps the invariant, and every status it changes moves along the transition table,
      except that the recompute of a parent writes whatever the parent's quantities say. */
  lemma EveryWriteIsAnEdge(cfg: Config, s: State, a: Action)
    requires cfg.serial && Inv(cfg, s) && Enabled(cfg, s, a)
    ensures var s' := Apply(cfg, s, a);
            && Inv(cfg, s')
            && (forall id <- s.rows :: id in s'.rows &&
                  (s'.rows[id].status != s.rows[id].status && !FoldsInto(s, a, id)
                   ==> s'.rows[id].status in AllowedNext(s.rows[id].status)))
  {
    if a.TrackWrite? {
      PollStep(cfg, s, a.k, a.report);
    } else if a.FoldWrite? {
      FoldStep(cfg, s, a.k);
    } else if TrackerAction(a) {
      OtherTrackerStep(cfg, s, a);
    } else {
      WorkerOneKeepsInv(cfg, s, a);
      forall id | id in s.rows
        ensures id in Apply(cfg, s, a).rows
        ensures Apply(cfg, s, a).rows[id] == s.rows[id] || SubmitWrite(s.rows[id], Apply(cfg, s, a).rows[id])
      {
        WorkerOneWrites(cfg, s, a, id);
      }
    }
  }

  /** The recompute of action a is about to reopen order id: the order is closed without being filled,
      a modify child reports more fills, and they neither complete the order nor use up what remains. */
  predicate Reopens(s: State, a: Action, id: OrderId) {
    && FoldsInto(s, a, id) && id in s.rows
    && var w := s.trackers[a.k].phase;
       && w.kind == Modify
       && s.rows[id].status in TERMINAL_STATES
       && w.parent.filled + w.delta < w.parent.qty
       && w.delta < w.parent.remaining
  }

  lemma RefoldedRank(cfg: Config, w: TrackPhase, current: Order)
    requires w.Writing? && w.delta > 0 && w.kind in {Modify, Cancel}
    requires RowInv(cfg, current) && w.parent.filled == current.filled && w.parent.qty == current.qty
    requires current.status in TRACKED_STATES + TERMINAL_STATES
    ensures Rank(Refolded(w, current).status) < Rank(current.status)
       <==> w.kind == Modify && current.status in TERMINAL_STATES
            && w.parent.filled + w.delta < w.parent.qty && w.delta < w.parent.remaining
  {
  }

  lemma FoldedRank(cfg: Config, s: State, k: nat)
    requires cfg.serial && Inv(cfg, s) && Enabled(cfg, s, FoldWrite(k))
    requires var id := s.trackers[k].phase.parentId;
             id in s.rows && s.rows[id].status in TRACKED_STATES + TERMINAL_STATES
    ensures var w, s' := s.trackers[k].phase, Apply(cfg, s, FoldWrite(k));
            var current := s.rows[w.parentId];
            && w.parentId in s'.rows
            && (Rank(s'.rows[w.parentId].status) < Rank(current.status) <==> Reopens(s, FoldWrite(k), w.parentId))
  {
    var w := s.trackers[k].phase;
    assert TrackerInv(s, s.trackers[k]) && RowInv(cfg, s.rows[w.parentId]);
    FoldStep(cfg, s, k);
    RefoldedRank(cfg, w, s.rows[w.parentId]);
  }

  lemma EdgesKeepRank(current: Status, next: Status)
    requires current in TRACKED_STATES + TERMINAL_STATES
    requires next == current || next in AllowedNext(current)
    ensures Rank(next) >= Rank(current)
  {
  }

  /** MAIN. A step takes an order the broker has back to an earlier rank if and only if it reopens it. */
  lemma RankFallsIff(cfg: Config, s: State, a: Action, id: OrderId)
    requires cfg.serial && Inv(cfg, s) && Enabled(cfg, s, a)
    requires id in s.rows && s.rows[id].status in TRACKED_STATES + TERMINAL_STATES
    ensures id in Apply(cfg, s, a).rows
    ensures Rank(Apply(cfg, s, a).rows[id].status) < Rank(s.rows[id].status) <==> Reopens(s, a, id)
  {
    if FoldsInto(s, a, id) {
      FoldedRank(cfg, s, a.k);
    } else {
      EveryWriteIsAnEdge(cfg, s, a);
      EdgesKeepRank(s.rows[id].status, Apply(cfg, s, a).rows[id].status);
    }
  }

  predicate ModifyFoldsInto(s: State, a: Action, id: OrderId) {
    FoldsInto(s, a, id) && s.trackers[a.k].phase.kind == Modify
  }

  /** The recompute of action a is about to give the closed order id another status: it completes an order
      that is not FILLED, or it does not, and the order is not CANCELED or has something left. */
  predicate Relabels(s: State, a: Action, id: OrderId) {
    && ModifyFoldsInto(s, a, id) && id in s.rows
    && var w := s.trackers[a.k].phase;
       if w.parent.filled + w.delta >= w.parent.qty then s.rows[id].status != Filled
       else w.delta < w.parent.remaining || s.rows[id].status != Canceled
  }

  lemma RefoldedClosed(cfg: Config, w: TrackPhase, current: Order)
    requires w.Writing? && w.delta > 0 && w.kind in {Modify, Cancel} && current.status in TERMINAL_STATES
    requires RowInv(cfg, current) && w.parent.filled == current.filled && w.parent.qty == current.qty
    ensures w.kind == Cancel ==> Refolded(w, current) == current
    ensures w.kind == Modify ==>
              (Refolded(w, current).status != current.status
               <==> if w.parent.filled + w.delta >= w.parent.qty then current.status != Filled
                    else w.delta < w.parent.remaining || current.status != Canceled)
  {
  }

  /** MAIN. A closed order's row changes only by the recompute of a modify child, and its status changes if
      and only if that recompute relabels it. */
  lemma ClosedStaysClosed(cfg: Config, s: State, a: Action, id: OrderId)
    requires cfg.serial && Inv(cfg, s) && Enabled(cfg, s, a)
    requires id in s.rows && s.rows[id].status in TERMINAL_STATES
    ensures var s' := Apply(cfg, s, a);
            && id in s'.rows
            && (s'.rows[id] != s.rows[id] ==> ModifyFoldsInto(s, a, id))
            && (s'.rows[id].status != s.rows[id].status <==> Relabels(s, a, id))
  {
    if a.TrackWrite? {
      PollStep(cfg, s, a.k, a.report);
    } else if a.FoldWrite? {
      var w := s.trackers[a.k].phase;
      assert TrackerInv(s, s.trackers[a.k]) && RowInv(cfg, s.rows[id]);
      FoldStep(cfg, s, a.k);
      if w.parentId == id {
        RefoldedClosed(cfg, w, s.rows[id]);
      }
    } else if TrackerAction(a) {
      OtherTrackerStep(cfg, s, a);
    } else {
      WorkerOneWrites(cfg, s, a, id);
    }
  }

  /** When the broker repeats the order quantity, no recompute relabels a filled order. */
  lemma FilledIsNotRelabelled(cfg: Config, s: State, a: Action, id: OrderId)
    requires cfg.echo && Inv(cfg, s) && Enabled(cfg, s, a) && id in s.rows && s.rows[id].status == Filled
    ensures !Relabels(s, a, id)
  {
    assert RowInv(cfg, s.rows[id]);
    assert FoldsInto(s, a, id) ==> TrackerInv(s, s.trackers[a.k]);
  }

  // ---------------------------------------------------------------------------------------------
  // Whole runs.

  /** No step of the run reopens the order. */
  ghost predicate NeverReopened(cfg: Config, s: State, actions: seq<Action>, id: OrderId)
    requires Run(cfg, s, actions)
    decreases |actions|
  {
    actions == [] || (!Reopens(s, actions[0], id) && NeverReopened(cfg, Apply(cfg, s, actions[0]), actions[1..], id))
  }

  lemma {:induction false} InvRun(cfg: Config, s: State, actions: seq<Action>)
    requires cfg.serial && Inv(cfg, s) && Run(cfg, s, actions)
    ensures Inv(cfg, Final(cfg, s, actions))
    decreases |actions|
  {
    if actions != [] {
      EveryWriteIsAnEdge(cfg, s, actions[0]);
      InvRun(cfg, Apply(cfg, s, actions[0]), actions[1..]);
    }
  }

  /** MAIN. Along every run that never reopens an order, its rank never falls. */
  lemma {:induction false} RankNeverFalls(cfg: Config, s: State, actions: seq<Action>, id: OrderId)
    requires cfg.serial && Inv(cfg, s) && Run(cfg, s, actions) && NeverReopened(cfg, s, actions, id)
    requires id in s.rows && s.rows[id].status in TRACKED_STATES + TERMINAL_STATES
    ensures id in Final(cfg, s, actions).rows
    ensures Rank(Final(cfg, s, actions).rows[id].status) >= Rank(s.rows[id].status)
    decreases |actions|
  {
    if actions != [] {
      RankFallsIff(cfg, s, actions[0], id);
      EveryWriteIsAnEdge(cfg, s, actions[0]);
      RankNeverFalls(cfg, Apply(cfg, s, actions[0]), actions[1..], id);
    }
  }

  /** No step of the run is the recompute of a modify child of the order. */
  ghost predicate NeverRefolded(cfg: Config, s: State, actions: seq<Action>, id: OrderId)
    requires Run(cfg, s, actions)
    decreases |actions|
  {
    actions == []
    || (!ModifyFoldsInto(s, actions[0], id) && NeverRefolded(cfg, Apply(cfg, s, actions[0]), actions[1..], id))
  }

  /** MAIN. Along every run without such a recompute, the whole row of a closed order stays as it is. */
  lemma {:induction false} ClosedForever(cfg: Config, s: State, actions: seq<Action>, id: OrderId)
    requires cfg.serial && Inv(cfg, s) && Run(cfg, s, actions) && NeverRefolded(cfg, s, actions, id)
    requires id in s.rows && s.rows[id].status in TERMINAL_STATES
    ensures id in Final(cfg, s, actions).rows && Final(cfg, s, actions).rows[id] == s.rows[id]
    decreases |actions|
  {
    if actions != [] {
      ClosedStaysClosed(cfg, s, actions[0], id);
      EveryWriteIsAnEdge(cfg, s, actions[0]);
      ClosedForever(cfg, Apply(cfg, s, actions[0]), actions[1..], id);
    }
  }

  /** MAIN. Along every run, a filled order stays filled. */
  lemma {:induction false} FilledForever(cfg: Config, s: State, actions: seq<Action>, id: OrderId)
    requires cfg.serial && cfg.echo && Inv(cfg, s) && Run(cfg, s, actions)
    requires id in s.rows && s.rows[id].status == Filled
    ensures id in Final(cfg, s, actions).rows && Final(cfg, s, actions).rows[id].status == Filled
    decreases |actions|
  {
    if actions != [] {
      ClosedStaysClosed(cfg, s, actions[0], id);
      FilledIsNotRelabelled(cfg, s, actions[0], id);
      EveryWriteIsAnEdge(cfg, s, actions[0]);
      FilledForever(cfg, Apply(cfg, s, actions[0]), actions[1..], id);
    }
  }

  /** The run lemmas apply to everything that can happen from the empty system. */
  lemma ReachableInv(cfg: Config, actions: seq<Action>)
    requires cfg.serial && Run(cfg, EMPTY, actions)
    ensures Inv(cfg, Final(cfg, EMPTY, actions))
  {
    InvRun(cfg, EMPTY, actions);
  }
}
