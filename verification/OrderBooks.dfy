/** What the quantities of an order can be, in every interleaving and with any number of trackers: what
    is filled and what remains never add up to more than was ordered. */
module OrderBooks {
  import opened Prelude
  import opened OrderState
  import opened OrderRepository
  import opened Tracking
  import opened OrderPipeline
  import opened OrderLifecycle

  predicate Fits(filled: int, remaining: int, qty: int) {
    0 <= filled && 0 <= remaining && filled + remaining <= qty
  }

  predicate Booked(o: Order) {
    Fits(o.filled, o.remaining, o.qty) && (o.status in {Pending, Processing} ==> o.filled == 0)
  }

  /** What a tracker carries fits the order it is for; the parent it read was in order too. */
  predicate Carries(s: State, tracker: Tracker) {
    && tracker.id in s.rows
    && var qty := s.rows[tracker.id].qty;
       match tracker.phase
       case Polling(seen) => Booked(seen) && seen.qty == qty && seen.status in TRACKED_STATES
       case Folding(_, snap) => Fits(snap.filled, snap.remaining, qty)
       case Closing(snap) => Fits(snap.filled, snap.remaining, qty)
       case Writing(_, snap, parentId, parent, delta) =>
         && Fits(snap.filled, snap.remaining, qty) && delta > 0
         && parentId in s.rows && Booked(parent) && parent.qty == s.rows[parentId].qty
  }

  ghost predicate BooksInv(s: State) {
    && (forall id <- s.rows :: Booked(s.rows[id]))
    && (forall k <- s.trackers :: Carries(s, s.trackers[k]))
  }

  /** Orders are created with at most their quantity remaining, and broker rows add up. */
  predicate Honest(s: State, a: Action) {
    match a
    case Create(_, o) => Booked(o)
    case TrackWrite(k, report) =>
      report.Some? && k in s.trackers && s.trackers[k].phase.Polling?
      ==> WellFormed(s.trackers[k].phase.seen.qty, report.value)
    case _ => true
  }

  ghost predicate HonestRun(cfg: Config, s: State, actions: seq<Action>)
    decreases |actions|
  {
    actions == []
    || (Enabled(cfg, s, actions[0]) && Honest(s, actions[0])
        && HonestRun(cfg, Apply(cfg, s, actions[0]), actions[1..]))
  }

  /** Rows keep their quantities; then whatever trackers carry still fits. */
  lemma CarriesKept(s: State, s': State)
    requires BooksInv(s) && s'.trackers == s.trackers
    requires forall id <- s.rows :: id in s'.rows && s'.rows[id].qty == s.rows[id].qty
    ensures forall k <- s'.trackers :: Carries(s', s'.trackers[k])
  {
    forall k | k in s'.trackers ensures Carries(s', s'.trackers[k]) {
      assert Carries(s, s.trackers[k]);
    }
  }

  lemma RecordBooks(cfg: Config, s: State, t: nat, written: bool)
    requires BooksInv(s) && Enabled(cfg, s, Record(t, written))
    ensures BooksInv(Apply(cfg, s, Record(t, written)))
  {
    var s' := Apply(cfg, s, Record(t, written));
    forall id | id in s'.rows ensures Booked(s'.rows[id]) {
      assert Booked(s.rows[id]);
    }
    CarriesKept(s, s');
  }

  lemma WorkerOneBooks(cfg: Config, s: State, a: Action)
    requires BooksInv(s) && Enabled(cfg, s, a) && Honest(s, a) && !TrackerAction(a)
    ensures BooksInv(Apply(cfg, s, a))
  {
    if a.Record? {
      RecordBooks(cfg, s, a.t, a.written);
    } else {
      var s' := Apply(cfg, s, a);
      TrackersUntouched(cfg, s, a);
      forall id | id in s'.rows ensures Booked(s'.rows[id]) {
        assert id in s.rows ==> Booked(s.rows[id]);
      }
      CarriesKept(s, s');
    }
  }

  /** One tracker moves on, and at most one row changes, keeping its quantity. */
  lemma TrackerMoves(s: State, s': State, k: nat, id: OrderId)
    requires BooksInv(s) && id in s.rows && s'.rows.Keys == s.rows.Keys
    requires forall o <- s.rows :: o != id ==> s'.rows[o] == s.rows[o]
    requires s'.rows[id].qty == s.rows[id].qty && Booked(s'.rows[id])
    requires forall l <- s'.trackers :: l != k ==> l in s.trackers && s'.trackers[l] == s.trackers[l]
    requires k in s'.trackers ==> Carries(s', s'.trackers[k])
    ensures BooksInv(s')
  {
    forall o | o in s'.rows ensures Booked(s'.rows[o]) {
      assert Booked(s.rows[o]);
    }
    forall l | l in s'.trackers ensures Carries(s', s'.trackers[l]) {
      assert l in s.trackers ==> Carries(s, s.trackers[l]);
    }
  }

  /** The snapshot of a poll fits the order it was seen for. */
  lemma SnapshotFits(s: State, id: OrderId, seen: Order, report: Option<Report>)
    requires Booked(seen) && seen.status in TRACKED_STATES
    requires report.Some? ==> WellFormed(seen.qty, report.value)
    ensures var snap := SnapshotOf(s, id, seen, report);
            Fits(snap.filled, snap.remaining, seen.qty) && snap.next !in {Pending, Processing}
  {
  }

  lemma PollBooks(cfg: Config, s: State, k: nat, report: Option<Report>)
    requires BooksInv(s) && Enabled(cfg, s, TrackWrite(k, report)) && Honest(s, TrackWrite(k, report))
    ensures BooksInv(Apply(cfg, s, TrackWrite(k, report)))
  {
    var s', tracker := Apply(cfg, s, TrackWrite(k, report)), s.trackers[k];
    assert Carries(s, tracker);
    SnapshotFits(s, tracker.id, tracker.phase.seen, report);
    assert Booked(s.rows[tracker.id]);
    TrackerMoves(s, s', k, tracker.id);
  }

  lemma FoldReadBooks(cfg: Config, s: State, k: nat)
    requires BooksInv(s) && Enabled(cfg, s, FoldRead(k))
    ensures BooksInv(Apply(cfg, s, FoldRead(k)))
  {
    var s', tracker := Apply(cfg, s, FoldRead(k)), s.trackers[k];
    assert Carries(s, tracker);
    assert Booked(s.rows[tracker.id]);
    var child := tracker.phase.child;
    assert child.original.Some? && child.original.value in s.rows ==> Booked(s.rows[child.original.value]);
    TrackerMoves(s, s', k, tracker.id);
  }

  lemma FoldedFits(kind: Kind, parent: Order, delta: int)
    requires Booked(parent) && delta > 0
    ensures var (filled, remaining, next) := Folded(kind, parent, delta);
            Fits(filled, remaining, parent.qty) && next !in {Pending, Processing}
  {
  }

  lemma FoldWriteBooks(cfg: Config, s: State, k: nat)
    requires BooksInv(s) && Enabled(cfg, s, FoldWrite(k))
    ensures BooksInv(Apply(cfg, s, FoldWrite(k)))
  {
    var s', w := Apply(cfg, s, FoldWrite(k)), s.trackers[k].phase;
    assert Carries(s, s.trackers[k]);
    FoldedFits(w.kind, w.parent, w.delta);
    assert Booked(s.rows[w.parentId]);
    TrackerMoves(s, s', k, w.parentId);
  }

  lemma TimeoutBooks(cfg: Config, s: State, k: nat)
    requires BooksInv(s) && Enabled(cfg, s, TrackTimeout(k))
    ensures BooksInv(Apply(cfg, s, TrackTimeout(k)))
  {
    var s', tracker := Apply(cfg, s, TrackTimeout(k)), s.trackers[k];
    assert Carries(s, tracker);
    assert Booked(s.rows[tracker.id]);
    TrackerMoves(s, s', k, tracker.id);
  }

  lemma TrackErrorBooks(cfg: Config, s: State, k: nat, written: bool)
    requires BooksInv(s) && Enabled(cfg, s, TrackError(k, written))
    ensures BooksInv(Apply(cfg, s, TrackError(k, written)))
  {
    var s', tracker := Apply(cfg, s, TrackError(k, written)), s.trackers[k];
    assert Carries(s, tracker);
    assert Booked(s.rows[tracker.id]);
    TrackerMoves(s, s', k, tracker.id);
  }

  lemma BooksStep(cfg: Config, s: State, a: Action)
    requires BooksInv(s) && Enabled(cfg, s, a) && Honest(s, a)
    ensures BooksInv(Apply(cfg, s, a))
  {
    if !TrackerAction(a) {
      WorkerOneBooks(cfg, s, a);
    } else {
      match a
      case TrackWrite(k, report) => PollBooks(cfg, s, k, report);
      case FoldRead(k) => FoldReadBooks(cfg, s, k);
      case FoldWrite(k) => FoldWriteBooks(cfg, s, k);
      case TrackTimeout(k) => TimeoutBooks(cfg, s, k);
      case TrackError(k, written) => TrackErrorBooks(cfg, s, k, written);
      case StartTrack(k, id) =>
        assert Booked(s.rows[id]);
        TrackerMoves(s, Apply(cfg, s, a), k, id);
      case EndTrack(k) =>
        assert Carries(s, s.trackers[k]) && Booked(s.rows[s.trackers[k].id]);
        TrackerMoves(s, Apply(cfg, s, a), k, s.trackers[k].id);
    }
  }

  lemma {:induction false} BooksRun(cfg: Config, s: State, actions: seq<Action>)
    requires BooksInv(s) && HonestRun(cfg, s, actions)
    ensures Run(cfg, s, actions) && BooksInv(Final(cfg, s, actions))
    decreases |actions|
  {
    if actions != [] {
      BooksStep(cfg, s, actions[0]);
      BooksRun(cfg, Apply(cfg, s, actions[0]), actions[1..]);
    }
  }

  /** MAIN. On every run with broker rows that add up, serial or not, and under either reading, no order
      ever has more filled and remaining than was ordered, whatever its children reported. */
  lemma NeverOverbooked(cfg: Config, actions: seq<Action>)
    requires HonestRun(cfg, EMPTY, actions)
    ensures Run(cfg, EMPTY, actions)
    ensures var s := Final(cfg, EMPTY, actions);
            forall id <- s.rows :: Fits(s.rows[id].filled, s.rows[id].remaining, s.rows[id].qty)
  {
    BooksRun(cfg, EMPTY, actions);
  }

  /** MAIN. With one serial tracker and a broker that repeats the order quantity, FILLED means that the
      whole quantity is filled and nothing remains. */
  lemma FilledMeansAll(cfg: Config, actions: seq<Action>, id: OrderId)
    requires cfg.serial && cfg.echo && HonestRun(cfg, EMPTY, actions) && Run(cfg, EMPTY, actions)
    requires var s := Final(cfg, EMPTY, actions); id in s.rows && s.rows[id].status == Filled
    ensures var o := Final(cfg, EMPTY, actions).rows[id]; o.filled == o.qty && o.remaining == 0
  {
    BooksRun(cfg, EMPTY, actions);
    ReachableInv(cfg, actions);
    assert RowInv(cfg, Final(cfg, EMPTY, actions).rows[id]);
  }
}
