/** Where the quantities of a child go, over whole runs with one serial tracker: what a child has reported is
    what was folded into its parent, what was lost on the way, and what the tracker still carries. */
module OrderFolding {
  import opened Prelude
  import opened OrderState
  import opened OrderRepository
  import opened Tracking
  import opened OrderPipeline
  import opened OrderLifecycle

  /** What the tracker has written to its order and not yet folded into the parent. */
  function UnderWay(tracker: Tracker): int {
    match tracker.phase
    case Folding(child, snap) => snap.filled - child.filled
    case Writing(_, _, _, _, delta) => delta
    case _ => 0
  }

  predicate TracksFor(s: State, a: Action, c: OrderId) {
    TrackerAction(a) && !a.StartTrack? && a.k in s.trackers && s.trackers[a.k].id == c
  }

  ghost predicate Idle(s: State, c: OrderId) {
    forall k <- s.trackers :: s.trackers[k].id != c
  }

  /** The statuses in which the worker looks for a child's parent. */
  predicate Foldable(kind: Kind, next: Status) {
    if kind == Cancel then next in {Canceled, Filled, PartialFilled} else next in {PartialFilled, Filled}
  }

  /** Action a writes the child's pending quantity to the parent. */
  predicate FoldsIn(s: State, a: Action, c: OrderId) {
    && TracksFor(s, a, c) && a.FoldWrite? && s.trackers[a.k].phase.Writing?
    && var w := s.trackers[a.k].phase; w.parentId in s.rows && FoldAllowed(w.kind, s.rows[w.parentId].status)
  }

  /** With something still to fold, action a ends the task, finds that the child's new status is not folded or
      that there is no parent, or is refused by a closed parent. */
  predicate Loses(s: State, a: Action, c: OrderId) {
    && TracksFor(s, a, c) && UnderWay(s.trackers[a.k]) > 0
    && match s.trackers[a.k].phase
       case Folding(child, snap) =>
         || a.EndTrack? || a.TrackError?
         || (a.FoldRead? && !(child.original.Some? && child.original.value in s.rows
                              && Foldable(child.kind, snap.next)))
       case Writing(kind, _, parentId, _, _) =>
         || a.EndTrack? || a.TrackError?
         || (a.FoldWrite? && !(parentId in s.rows && FoldAllowed(kind, s.rows[parentId].status)))
       case _ => false
  }

  function Amount(s: State, a: Action): int {
    if TrackerAction(a) && a.k in s.trackers then UnderWay(s.trackers[a.k]) else 0
  }

  /** The child is a modify or cancel order that nothing modifies or cancels in turn; its broker rows add up
      and report no less than before. */
  predicate Reports(s: State, a: Action, c: OrderId) {
    match a
    case Create(id, o) => o.original != Some(c) && (id == c ==> o.kind in {Modify, Cancel})
    case TrackWrite(k, Some(r)) =>
      TracksFor(s, a, c) && s.trackers[k].phase.Polling? ==>
        var seen := s.trackers[k].phase.seen;
        WellFormed(seen.qty, r) && Regular(seen.kind, r) && RowFilled(r) >= seen.filled
    case _ => true
  }

  ghost predicate ReportingRun(cfg: Config, s: State, actions: seq<Action>, c: OrderId)
    decreases |actions|
  {
    actions == []
    || (Enabled(cfg, s, actions[0]) && Reports(s, actions[0], c)
        && ReportingRun(cfg, Apply(cfg, s, actions[0]), actions[1..], c))
  }

  /** The sum of what the run folds into the parent of the child. */
  ghost function FoldedAlong(cfg: Config, s: State, actions: seq<Action>, c: OrderId): int
    requires Run(cfg, s, actions)
    decreases |actions|
  {
    if actions == [] then 0
    else (if FoldsIn(s, actions[0], c) then Amount(s, actions[0]) else 0)
         + FoldedAlong(cfg, Apply(cfg, s, actions[0]), actions[1..], c)
  }

  ghost function LostAlong(cfg: Config, s: State, actions: seq<Action>, c: OrderId): int
    requires Run(cfg, s, actions)
    decreases |actions|
  {
    if actions == [] then 0
    else (if Loses(s, actions[0], c) then Amount(s, actions[0]) else 0)
         + LostAlong(cfg, Apply(cfg, s, actions[0]), actions[1..], c)
  }

  ghost predicate NeverLoses(cfg: Config, s: State, actions: seq<Action>, c: OrderId)
    requires Run(cfg, s, actions)
    decreases |actions|
  {
    actions == []
    || (!Loses(s, actions[0], c) && NeverLoses(cfg, Apply(cfg, s, actions[0]), actions[1..], c))
  }

  // ---------------------------------------------------------------------------------------------
  // The ledger.

  /** The quantity of the child that is not under way in a tracker. */
  ghost predicate Balance(s: State, c: OrderId, settled: int) {
    if c !in s.rows then settled == 0 && Idle(s, c)
    else
      && (Idle(s, c) ==> s.rows[c].filled == settled)
      && (forall k <- s.trackers :: s.trackers[k].id == c ==> s.rows[c].filled == settled + UnderWay(s.trackers[k]))
  }

  /** A tracker remembers its order's kind and original rightly. */
  predicate Recognizes(s: State, tracker: Tracker) {
    && tracker.id in s.rows
    && var row := s.rows[tracker.id];
       match tracker.phase
       case Polling(seen) => seen.kind == row.kind && seen.original == row.original
       case Folding(child, _) => child.kind == row.kind && child.original == row.original
       case Writing(kind, _, parentId, _, _) => kind == row.kind && row.original == Some(parentId)
       case Closing(_) => true
  }

  /** And what it knows of the child's quantities still holds. */
  predicate Knows(row: Order, phase: TrackPhase) {
    match phase
    case Polling(seen) => seen == row && row.status in TRACKED_STATES
    case Folding(child, snap) =>
      && 0 <= child.filled <= snap.filled == row.filled
      && (row.kind == Cancel ==> snap.ordQty - snap.remaining - snap.rejected == snap.filled)
    case Writing(_, snap, _, _, delta) => snap.filled == row.filled && delta > 0
    case Closing(snap) => snap.filled == row.filled
  }

  ghost predicate FoldingInv(s: State, c: OrderId) {
    && (forall k, l :: k in s.trackers && l in s.trackers ==> k == l)
    && (forall o <- s.rows :: s.rows[o].original != Some(c))
    && (c in s.rows ==> s.rows[c].kind in {Modify, Cancel} && s.rows[c].filled >= 0)
    && (forall k <- s.trackers :: Recognizes(s, s.trackers[k])
                                  && (s.trackers[k].id == c ==> Knows(s.rows[c], s.trackers[k].phase)))
  }

  /** What a step adds to the quantity that is no longer under way. */
  function Moved(s: State, a: Action, c: OrderId): int {
    if FoldsIn(s, a, c) || Loses(s, a, c) then Amount(s, a) else 0
  }

  ghost predicate LedgerStep(s: State, a: Action, c: OrderId, s': State) {
    && FoldingInv(s', c)
    && (forall settled :: Balance(s, c, settled) ==> Balance(s', c, settled + Moved(s, a, c)))
  }

  /** Worker 1 never changes what a tracker looks at. */
  ghost predicate Unseen(s: State, s': State) {
    && s'.trackers == s.trackers
    && (forall o <- s.rows ::
          && o in s'.rows && s'.rows[o].filled == s.rows[o].filled
          && s'.rows[o].kind == s.rows[o].kind && s'.rows[o].original == s.rows[o].original
          && (s.rows[o].status in TRACKED_STATES ==> s'.rows[o] == s.rows[o]))
  }

  lemma WorkerOneIsUnseen(cfg: Config, s: State, a: Action)
    requires Enabled(cfg, s, a) && !TrackerAction(a)
    ensures Unseen(s, Apply(cfg, s, a))
  {
    TrackersUntouched(cfg, s, a);
    forall o | o in s.rows
      ensures o in Apply(cfg, s, a).rows
      ensures Apply(cfg, s, a).rows[o] == s.rows[o] || SubmitWrite(s.rows[o], Apply(cfg, s, a).rows[o])
    {
      WorkerOneWrites(cfg, s, a, o);
    }
  }

  lemma NewRows(cfg: Config, s: State, a: Action, c: OrderId, o: OrderId)
    requires Enabled(cfg, s, a) && Reports(s, a, c) && !TrackerAction(a)
    requires o in Apply(cfg, s, a).rows && o !in s.rows
    ensures var row := Apply(cfg, s, a).rows[o];
            row.filled == 0 && row.original != Some(c) && (o == c ==> row.kind in {Modify, Cancel})
  {
  }

  lemma UnseenLedger(s: State, a: Action, c: OrderId, s': State)
    requires FoldingInv(s, c) && Unseen(s, s') && !TrackerAction(a)
    requires forall o <- s'.rows :: o !in s.rows ==>
               && s'.rows[o].filled == 0 && s'.rows[o].original != Some(c)
               && (o == c ==> s'.rows[o].kind in {Modify, Cancel})
    ensures LedgerStep(s, a, c, s')
  {
    forall k | k in s'.trackers
      ensures Recognizes(s', s'.trackers[k])
      ensures s'.trackers[k].id == c ==> Knows(s'.rows[c], s'.trackers[k].phase)
    {
      assert Recognizes(s, s.trackers[k]);
    }
  }

  lemma WorkerOneLedger(cfg: Config, s: State, a: Action, c: OrderId)
    requires FoldingInv(s, c) && Enabled(cfg, s, a) && Reports(s, a, c) && !TrackerAction(a)
    ensures LedgerStep(s, a, c, Apply(cfg, s, a))
  {
    var s' := Apply(cfg, s, a);
    WorkerOneIsUnseen(cfg, s, a);
    forall o | o in s'.rows && o !in s.rows
      ensures s'.rows[o].filled == 0 && s'.rows[o].original != Some(c)
      ensures o == c ==> s'.rows[o].kind in {Modify, Cancel}
    {
      NewRows(cfg, s, a, c, o);
    }
    UnseenLedger(s, a, c, s');
  }

  /** The one tracker moves on; its own order's filled quantity is all it may change in the child's row. */
  lemma TrackerLedger(s: State, a: Action, k: nat, c: OrderId, s': State)
    requires FoldingInv(s, c) && s'.rows.Keys == s.rows.Keys
    requires forall l <- s'.trackers :: l == k
    requires forall o <- s.rows :: s'.rows[o].kind == s.rows[o].kind && s'.rows[o].original == s.rows[o].original
    requires c in s.rows ==> s'.rows[c].filled >= 0
    requires k in s'.trackers ==> Recognizes(s', s'.trackers[k])
                                  && (s'.trackers[k].id == c ==> Knows(s'.rows[c], s'.trackers[k].phase))
    requires forall settled :: Balance(s, c, settled) ==> Balance(s', c, settled + Moved(s, a, c))
    ensures LedgerStep(s, a, c, s')
  {
  }

  lemma StartLedger(cfg: Config, s: State, k: nat, id: OrderId, c: OrderId)
    requires cfg.serial && FoldingInv(s, c) && Enabled(cfg, s, StartTrack(k, id))
    ensures LedgerStep(s, StartTrack(k, id), c, Apply(cfg, s, StartTrack(k, id)))
  {
    TrackerLedger(s, StartTrack(k, id), k, c, Apply(cfg, s, StartTrack(k, id)));
  }

  lemma PollLedger(cfg: Config, s: State, k: nat, report: Option<Report>, c: OrderId)
    requires FoldingInv(s, c) && Enabled(cfg, s, TrackWrite(k, report)) && Reports(s, TrackWrite(k, report), c)
    ensures LedgerStep(s, TrackWrite(k, report), c, Apply(cfg, s, TrackWrite(k, report)))
  {
    assert Recognizes(s, s.trackers[k]);
    TrackerLedger(s, TrackWrite(k, report), k, c, Apply(cfg, s, TrackWrite(k, report)));
  }

  lemma FoldReadLedger(cfg: Config, s: State, k: nat, c: OrderId)
    requires cfg.reading == BeforeWrite && FoldingInv(s, c) && Enabled(cfg, s, FoldRead(k))
    ensures LedgerStep(s, FoldRead(k), c, Apply(cfg, s, FoldRead(k)))
  {
    assert Recognizes(s, s.trackers[k]);
    TrackerLedger(s, FoldRead(k), k, c, Apply(cfg, s, FoldRead(k)));
  }

  lemma FoldWriteLedger(cfg: Config, s: State, k: nat, c: OrderId)
    requires FoldingInv(s, c) && Enabled(cfg, s, FoldWrite(k))
    ensures LedgerStep(s, FoldWrite(k), c, Apply(cfg, s, FoldWrite(k)))
  {
    assert Recognizes(s, s.trackers[k]);
    TrackerLedger(s, FoldWrite(k), k, c, Apply(cfg, s, FoldWrite(k)));
  }

  lemma EndLedger(cfg: Config, s: State, a: Action, c: OrderId)
    requires FoldingInv(s, c) && Enabled(cfg, s, a) && (a.EndTrack? || a.TrackError? || a.TrackTimeout?)
    ensures LedgerStep(s, a, c, Apply(cfg, s, a))
  {
    assert Recognizes(s, s.trackers[a.k]);
    TrackerLedger(s, a, a.k, c, Apply(cfg, s, a));
  }

  lemma StepLedger(cfg: Config, s: State, a: Action, c: OrderId)
    requires cfg.serial && cfg.reading == BeforeWrite
    requires FoldingInv(s, c) && Enabled(cfg, s, a) && Reports(s, a, c)
    ensures LedgerStep(s, a, c, Apply(cfg, s, a))
  {
    if !TrackerAction(a) {
      WorkerOneLedger(cfg, s, a, c);
    } else {
      match a
      case StartTrack(k, id) => StartLedger(cfg, s, k, id, c);
      case TrackWrite(k, report) => PollLedger(cfg, s, k, report, c);
      case FoldRead(k) => FoldReadLedger(cfg, s, k, c);
      case FoldWrite(k) => FoldWriteLedger(cfg, s, k, c);
      case TrackError(_, _) => EndLedger(cfg, s, a, c);
      case TrackTimeout(_) => EndLedger(cfg, s, a, c);
      case EndTrack(_) => EndLedger(cfg, s, a, c);
    }
  }

  /** A step moves a quantity on only by folding it or by losing it, and then it is positive. */
  lemma MovedIsPositive(s: State, a: Action, c: OrderId)
    requires FoldingInv(s, c)
    ensures !(FoldsIn(s, a, c) && Loses(s, a, c))
    ensures FoldsIn(s, a, c) || Loses(s, a, c) ==> Amount(s, a) > 0
  {
    if FoldsIn(s, a, c) {
      assert Recognizes(s, s.trackers[a.k]) && Knows(s.rows[c], s.trackers[a.k].phase);
    }
  }

  lemma {:induction false} LedgerAlong(cfg: Config, s: State, actions: seq<Action>, c: OrderId, settled: int)
    requires cfg.serial && cfg.reading == BeforeWrite
    requires FoldingInv(s, c) && Balance(s, c, settled) && ReportingRun(cfg, s, actions, c)
    ensures Run(cfg, s, actions) && FoldingInv(Final(cfg, s, actions), c)
    ensures FoldedAlong(cfg, s, actions, c) >= 0
    ensures LostAlong(cfg, s, actions, c) >= 0
    ensures LostAlong(cfg, s, actions, c) == 0 <==> NeverLoses(cfg, s, actions, c)
    ensures Balance(Final(cfg, s, actions), c,
                    settled + FoldedAlong(cfg, s, actions, c) + LostAlong(cfg, s, actions, c))
    decreases |actions|
  {
    if actions != [] {
      var a := actions[0];
      StepLedger(cfg, s, a, c);
      MovedIsPositive(s, a, c);
      LedgerAlong(cfg, Apply(cfg, s, a), actions[1..], c, settled + Moved(s, a, c));
    }
  }

  /** MAIN. On every serial run, when no tracker is at work on it, what the child's row says is filled is exactly
      what was folded into its parent plus what was lost; and all of it was folded in, once, if and only if no
      step lost any. */
  lemma ReachesParentIff(cfg: Config, actions: seq<Action>, c: OrderId)
    requires cfg.serial && cfg.reading == BeforeWrite && ReportingRun(cfg, EMPTY, actions, c)
    ensures Run(cfg, EMPTY, actions)
    ensures var s, folded, lost := Final(cfg, EMPTY, actions), FoldedAlong(cfg, EMPTY, actions, c),
                                   LostAlong(cfg, EMPTY, actions, c);
            c in s.rows && Idle(s, c) ==>
              && s.rows[c].filled == folded + lost && folded >= 0 && lost >= 0
              && (folded == s.rows[c].filled <==> NeverLoses(cfg, EMPTY, actions, c))
  {
    LedgerAlong(cfg, EMPTY, actions, c, 0);
  }

  /** Folding in adds to the parent's row as it stands: a modify child's quantity to what is filled, and either
      child's is taken from what remains. A parent that was not with the broker yet when the tracker read it
      keeps what remained then. */
  lemma FoldingInAdds(cfg: Config, s: State, a: Action, c: OrderId)
    requires cfg.serial && Inv(cfg, s) && Enabled(cfg, s, a) && FoldsIn(s, a, c)
    ensures var w := s.trackers[a.k].phase;
            && w.parentId in s.rows && w.parentId in Apply(cfg, s, a).rows
            && var before, after := s.rows[w.parentId], Apply(cfg, s, a).rows[w.parentId];
               var delta, read := Amount(s, a), if w.parent.status in {Pending, Processing} then w.parent else before;
               && after.filled == (if w.kind == Modify then Min(before.filled + delta, before.qty) else before.filled)
               && after.remaining == Max(read.remaining - delta, 0)
               && after.status == ResolveParent(before.qty, after.filled, after.remaining)
  {
    var w := s.trackers[a.k].phase;
    assert TrackerInv(s, s.trackers[a.k]);
    FoldStep(cfg, s, a.k);
    assert Apply(cfg, s, a).rows[w.parentId] == Refolded(w, s.rows[w.parentId]);
  }
}
