/** The order pipeline as a step system. Any number of worker-1 tasks, for any orders and with any
    duplicates, interleave with the trackers of worker 2; every read, guarded write and broker call is
    one step. Enqueueing, redelivery, recovery and countdowns need no state of their own here: a task
    for any order may start at any time, as often as it likes. */
module OrderPipeline {
  import opened Prelude
  import opened OrderState
  import opened OrderRepository
  import opened Tracking

  /** How one broker call ended. */
  datatype Outcome =
    | Replied(ok: bool, brokerNo: Option<nat>)
    | RateLimited
    | Errored

  datatype SubmitPhase = Claiming | Claimed | Answered(outcome: Outcome)

  datatype Task = Task(id: OrderId, phase: SubmitPhase)

  datatype TrackPhase =
    | Polling(seen: Order)
    | Folding(child: Order, snap: Snapshot)
    | Writing(kind: Kind, snap: Snapshot, parentId: OrderId, parent: Order, delta: int)
    | Closing(snap: Snapshot)

  datatype Tracker = Tracker(id: OrderId, phase: TrackPhase)

  /** rows is the order table; calls is the history of broker calls for each order. */
  datatype State = State(
    rows: Rows,
    calls: map<OrderId, seq<Outcome>>,
    tasks: map<nat, Task>,
    trackers: map<nat, Tracker>)

  const EMPTY := State(map[], map[], map[], map[])

  /** serial: worker 2 runs with a concurrency of one. echo: the broker repeats the order quantity.
      claimSeen: the loaded row shows the claimed status after the claim. reading: see Tracking. */
  datatype Config = Config(serial: bool, echo: bool, claimSeen: bool, reading: Reading)

  datatype Action =
    | Create(id: OrderId, order: Order)
    | StartSubmit(t: nat, id: OrderId)
    | Claim(t: nat)
    | FailEarly(t: nat, written: bool)
    | CallBroker(t: nat, outcome: Outcome)
    | Record(t: nat, written: bool)
    | CrashSubmit(t: nat)
    | StartTrack(k: nat, id: OrderId)
    | TrackWrite(k: nat, report: Option<Report>)
    | TrackError(k: nat, written: bool)
    | FoldRead(k: nat)
    | FoldWrite(k: nat)
    | TrackTimeout(k: nat)
    | EndTrack(k: nat)

  // ---------------------------------------------------------------------------------------------
  // Steps.

  function SubmitNext(ok: bool, brokerNo: Option<nat>): Status {
    if !ok then Failed else if brokerNo.Some? then Accepted else Requested
  }

  /** The table after a task recorded the answer to its broker call. A rate-limited order goes back to
      PENDING; the write that marks a failure may or may not take place. */
  function Recorded(cfg: Config, rows: Rows, id: OrderId, outcome: Outcome, written: bool): Rows {
    match outcome
    case RateLimited => SetStatus(rows, id, {Processing}, Pending)
    case Errored => if written then SetStatus(rows, id, {Processing}, Failed) else rows
    case Replied(ok, brokerNo) =>
      var next := SubmitNext(ok, brokerNo);
      var seen := if cfg.claimSeen then Processing else Pending;
      if !CanTransition(seen, next) || id !in rows then rows
      else SetSubmitResult(rows, id, next, brokerNo, if next == Failed then 0 else rows[id].qty)
  }

  /** The statuses a tracker that saw `current` expects to find when it writes. */
  function Expected(current: Status): set<Status> {
    set s <- TRACKED_STATES | CanTransition(current, s)
  }

  function SnapshotOf(s: State, id: OrderId, seen: Order, report: Option<Report>): Snapshot {
    match report
    case Some(r) => Extract(r, seen.kind == New && HasChild(s.rows, id))
    case None => Snapshot(0, seen.filled, seen.remaining, 0, seen.status)
  }

  predicate Enabled(cfg: Config, s: State, a: Action) {
    match a
    case Create(id, o) =>
      && id !in s.rows
      && o.status == Pending && o.qty > 0 && o.filled == 0 && o.brokerNo == None
      && (o.original.Some? ==> o.original.value in s.rows)
    case StartSubmit(t, id) => t !in s.tasks && id in s.rows
    case Claim(t) => t in s.tasks && s.tasks[t].phase == Claiming
    case FailEarly(t, _) => t in s.tasks && s.tasks[t].phase == Claimed
    case CallBroker(t, _) => t in s.tasks && s.tasks[t].phase == Claimed && s.tasks[t].id in s.calls
    case Record(t, _) => t in s.tasks && s.tasks[t].phase.Answered?
    case CrashSubmit(t) => t in s.tasks
    case StartTrack(k, id) =>
      && k !in s.trackers && (cfg.serial ==> s.trackers == map[])
      && id in s.rows && s.rows[id].status in TRACKED_STATES && s.rows[id].brokerNo.Some?
    case TrackWrite(k, report) =>
      && k in s.trackers && s.trackers[k].phase.Polling?
      && (cfg.echo && report.Some? ==> report.value.ordQty == s.trackers[k].phase.seen.qty)
    case TrackError(k, _) => k in s.trackers
    case FoldRead(k) => k in s.trackers && s.trackers[k].phase.Folding?
    case FoldWrite(k) => k in s.trackers && s.trackers[k].phase.Writing?
    case TrackTimeout(k) =>
      && k in s.trackers && s.trackers[k].phase.Closing?
      && s.trackers[k].phase.snap.next !in TERMINAL_STATES
    case EndTrack(k) => k in s.trackers
  }

  function EndTask(s: State, t: nat, rows: Rows): State {
    s.(rows := rows, tasks := s.tasks - {t})
  }

  function EndTracker(s: State, k: nat, rows: Rows): State {
    s.(rows := rows, trackers := s.trackers - {k})
  }

  function Continue(s: State, k: nat, rows: Rows, phase: TrackPhase): State
    requires k in s.trackers
  {
    s.(rows := rows, trackers := s.trackers[k := s.trackers[k].(phase := phase)])
  }

  function Apply(cfg: Config, s: State, a: Action): State
    requires Enabled(cfg, s, a)
  {
    match a
    case Create(id, o) => s.(rows := s.rows[id := o], calls := s.calls[id := []])
    case StartSubmit(t, id) => s.(tasks := s.tasks[t := Task(id, Claiming)])
    case Claim(t) =>
      var id := s.tasks[t].id;
      if Matches(s.rows, id, {Pending})
      then s.(rows := SetStatus(s.rows, id, {Pending}, Processing), tasks := s.tasks[t := Task(id, Claimed)])
      else EndTask(s, t, s.rows)
    case FailEarly(t, written) =>
      EndTask(s, t, if written then SetStatus(s.rows, s.tasks[t].id, {Processing}, Failed) else s.rows)
    case CallBroker(t, outcome) =>
      var id := s.tasks[t].id;
      s.(calls := s.calls[id := s.calls[id] + [outcome]], tasks := s.tasks[t := Task(id, Answered(outcome))])
    case Record(t, written) =>
      EndTask(s, t, Recorded(cfg, s.rows, s.tasks[t].id, s.tasks[t].phase.outcome, written))
    case CrashSubmit(t) => EndTask(s, t, s.rows)
    case StartTrack(k, id) => s.(trackers := s.trackers[k := Tracker(id, Polling(s.rows[id]))])
    case TrackWrite(k, report) =>
      var id, seen := s.trackers[k].id, s.trackers[k].phase.seen;
      var snap := SnapshotOf(s, id, seen, report);
      if !CanTransition(seen.status, snap.next) || !Matches(s.rows, id, Expected(seen.status))
      then EndTracker(s, k, s.rows)
      else
        Continue(s, k,
                 SetTracking(s.rows, id, Expected(seen.status), snap.next, snap.filled, snap.remaining),
                 if report.Some? then Folding(seen, snap) else Closing(snap))
    case TrackError(k, written) =>
      EndTracker(s, k, if written then SetStatus(s.rows, s.trackers[k].id, TRACKED_STATES, Failed) else s.rows)
    case FoldRead(k) =>
      var child, snap := s.trackers[k].phase.child, s.trackers[k].phase.snap;
      var delta := Delta(child.kind, Previous(child, snap, cfg.reading), snap);
      if child.original.Some? && child.original.value in s.rows && delta > 0
      then Continue(s, k, s.rows,
                    Writing(child.kind, snap, child.original.value, s.rows[child.original.value], delta))
      else Continue(s, k, s.rows, Closing(snap))
    case FoldWrite(k) =>
      var w := s.trackers[k].phase;
      var (filled, remaining, next) := Folded(w.kind, w.parent, w.delta);
      Continue(s, k, SetParent(s.rows, w.parentId, w.kind, filled, remaining, next), Closing(w.snap))
    case TrackTimeout(k) =>
      var snap := s.trackers[k].phase.snap;
      EndTracker(s, k, SetTracking(s.rows, s.trackers[k].id, TRACKED_STATES, Timeout, snap.filled, snap.remaining))
    case EndTrack(k) => EndTracker(s, k, s.rows)
  }

  /** Every step of the run is enabled when its turn comes. */
  ghost predicate Run(cfg: Config, s: State, actions: seq<Action>)
    decreases |actions|
  {
    actions == [] || (Enabled(cfg, s, actions[0]) && Run(cfg, Apply(cfg, s, actions[0]), actions[1..]))
  }

  ghost function Final(cfg: Config, s: State, actions: seq<Action>): State
    requires Run(cfg, s, actions)
    decreases |actions|
  {
    if actions == [] then s else Final(cfg, Apply(cfg, s, actions[0]), actions[1..])
  }

  lemma {:induction false} RunAppend(cfg: Config, s: State, before: seq<Action>, after: seq<Action>)
    requires Run(cfg, s, before) && Run(cfg, Final(cfg, s, before), after)
    ensures Run(cfg, s, before + after)
    ensures Final(cfg, s, before + after) == Final(cfg, Final(cfg, s, before), after)
    decreases |before|
  {
    if before == [] {
      assert before + after == after;
    } else {
      var all := before + after;
      assert all[0] == before[0] && all[1..] == before[1..] + after;
      RunAppend(cfg, Apply(cfg, s, before[0]), before[1..], after);
    }
  }

  lemma RunOne(cfg: Config, s: State, a: Action)
    requires Enabled(cfg, s, a)
    ensures Run(cfg, s, [a]) && Final(cfg, s, [a]) == Apply(cfg, s, a)
  {
    assert Run(cfg, Apply(cfg, s, a), [a][1..]);
  }

  lemma RunTwo(cfg: Config, s: State, a: Action, b: Action)
    requires Enabled(cfg, s, a) && Enabled(cfg, Apply(cfg, s, a), b)
    ensures Run(cfg, s, [a, b]) && Final(cfg, s, [a, b]) == Apply(cfg, Apply(cfg, s, a), b)
  {
    RunOne(cfg, s, a);
    RunOne(cfg, Apply(cfg, s, a), b);
    RunAppend(cfg, s, [a], [b]);
    assert [a] + [b] == [a, b];
  }

  lemma RunFour(cfg: Config, s: State, a: Action, b: Action, c: Action, d: Action)
    requires Enabled(cfg, s, a) && Enabled(cfg, Apply(cfg, s, a), b)
    requires var m := Apply(cfg, Apply(cfg, s, a), b); Enabled(cfg, m, c) && Enabled(cfg, Apply(cfg, m, c), d)
    ensures Run(cfg, s, [a, b, c, d])
    ensures Final(cfg, s, [a, b, c, d]) == Apply(cfg, Apply(cfg, Apply(cfg, Apply(cfg, s, a), b), c), d)
  {
    RunTwo(cfg, s, a, b);
    RunTwo(cfg, Apply(cfg, Apply(cfg, s, a), b), c, d);
    RunAppend(cfg, s, [a, b], [c, d]);
    assert [a, b] + [c, d] == [a, b, c, d];
  }

  // ---------------------------------------------------------------------------------------------
  // Submission: one task at a time holds an order, and only a rate limit lets another call follow.

  predicate InFlight(task: Task) {
    task.phase != Claiming
  }

  ghost predicate AllLimited(calls: seq<Outcome>) {
    forall o <- calls :: o == RateLimited
  }

  ghost predicate RetriesOnly(calls: seq<Outcome>) {
    forall i :: 0 <= i < |calls| - 1 ==> calls[i] == RateLimited
  }

  ghost predicate TaskInv(s: State, t: nat)
    requires t in s.tasks
  {
    var task := s.tasks[t];
    && task.id in s.rows && task.id in s.calls
    && (InFlight(task) ==> s.rows[task.id].status != Pending)
    && (task.phase == Claimed ==> AllLimited(s.calls[task.id]))
    && (task.phase.Answered? ==>
          s.calls[task.id] != [] && s.calls[task.id][|s.calls[task.id]| - 1] == task.phase.outcome)
  }

  ghost predicate OrderInv(s: State, id: OrderId)
    requires id in s.rows && id in s.calls
  {
    && RetriesOnly(s.calls[id])
    && (s.rows[id].status == Pending ==> AllLimited(s.calls[id]))
  }

  ghost predicate OneInFlight(s: State) {
    forall t, u ::
      (t in s.tasks && u in s.tasks && InFlight(s.tasks[t]) && InFlight(s.tasks[u]) && s.tasks[t].id == s.tasks[u].id)
      ==> t == u
  }

  ghost predicate SubmitInv(s: State) {
    && s.calls.Keys == s.rows.Keys
    && (forall id <- s.rows :: OrderInv(s, id))
    && (forall t <- s.tasks :: TaskInv(s, t))
    && OneInFlight(s)
    && (forall k <- s.trackers :: s.trackers[k].phase.Polling? ==> s.trackers[k].phase.seen.status in TRACKED_STATES)
  }

  predicate TrackerAction(a: Action) {
    a.StartTrack? || a.TrackWrite? || a.TrackError? || a.FoldRead? || a.FoldWrite? || a.TrackTimeout? || a.EndTrack?
  }

  lemma SnapshotIsLive(s: State, id: OrderId, seen: Order, report: Option<Report>)
    requires seen.status in TRACKED_STATES
    ensures SnapshotOf(s, id, seen, report).next !in {Pending, Processing}
  {
  }

  /** Worker 2 never touches a submission and never makes an order pending again. */
  ghost predicate KeptOut(s: State, s': State) {
    && s'.calls == s.calls && s'.tasks == s.tasks && s'.rows.Keys == s.rows.Keys
    && (forall id <- s.rows :: s'.rows[id].status == Pending ==> s.rows[id].status == Pending)
    && (forall k <- s'.trackers :: s'.trackers[k].phase.Polling? ==> s'.trackers[k].phase.seen.status in TRACKED_STATES)
  }

  lemma TrackWriteKeepsOut(cfg: Config, s: State, k: nat, report: Option<Report>)
    requires SubmitInv(s) && Enabled(cfg, s, TrackWrite(k, report))
    ensures KeptOut(s, Apply(cfg, s, TrackWrite(k, report)))
  {
    SnapshotIsLive(s, s.trackers[k].id, s.trackers[k].phase.seen, report);
  }

  lemma FoldWriteKeepsOut(cfg: Config, s: State, k: nat)
    requires SubmitInv(s) && Enabled(cfg, s, FoldWrite(k))
    ensures KeptOut(s, Apply(cfg, s, FoldWrite(k)))
  {
  }

  lemma TrackersKeepOut(cfg: Config, s: State, a: Action)
    requires SubmitInv(s) && Enabled(cfg, s, a) && TrackerAction(a)
    ensures KeptOut(s, Apply(cfg, s, a))
  {
    match a
    case TrackWrite(k, report) => TrackWriteKeepsOut(cfg, s, k, report);
    case FoldWrite(k) => FoldWriteKeepsOut(cfg, s, k);
    case _ =>
  }

  lemma TrackerStep(cfg: Config, s: State, a: Action)
    requires SubmitInv(s) && Enabled(cfg, s, a) && TrackerAction(a)
    ensures SubmitInv(Apply(cfg, s, a))
  {
    TrackersKeepOut(cfg, s, a);
    var s' := Apply(cfg, s, a);
    forall id | id in s'.rows ensures OrderInv(s', id) {
      assert OrderInv(s, id);
    }
    forall t | t in s'.tasks ensures TaskInv(s', t) {
      assert TaskInv(s, t);
    }
  }

  /** A task that ends, having changed at most its own row, and that row not to PENDING unless
      everything the broker was asked so far was rate-limited. */
  lemma TaskEnds(s: State, t: nat, rows: Rows)
    requires SubmitInv(s) && t in s.tasks
    requires rows.Keys == s.rows.Keys
    requires forall id <- rows :: id != s.tasks[t].id ==> rows[id] == s.rows[id]
    requires rows == s.rows || InFlight(s.tasks[t])
    requires rows != s.rows && rows[s.tasks[t].id].status == Pending ==> AllLimited(s.calls[s.tasks[t].id])
    ensures SubmitInv(EndTask(s, t, rows))
  {
    var s' := EndTask(s, t, rows);
    forall id | id in s'.rows ensures OrderInv(s', id) {
      assert OrderInv(s, id);
    }
    forall u | u in s'.tasks ensures TaskInv(s', u) {
      assert TaskInv(s, u) && TaskInv(s, t);
    }
  }

  lemma RecordStep(cfg: Config, s: State, t: nat, written: bool)
    requires SubmitInv(s) && Enabled(cfg, s, Record(t, written))
    ensures SubmitInv(Apply(cfg, s, Record(t, written)))
  {
    var task := s.tasks[t];
    assert TaskInv(s, t) && OrderInv(s, task.id);
    var calls := s.calls[task.id];
    if task.phase.outcome == RateLimited {
      assert AllLimited(calls) by {
        forall i | 0 <= i < |calls| ensures calls[i] == RateLimited {
        }
      }
    }
    TaskEnds(s, t, Recorded(cfg, s.rows, task.id, task.phase.outcome, written));
  }

  lemma FailEarlyStep(cfg: Config, s: State, t: nat, written: bool)
    requires SubmitInv(s) && Enabled(cfg, s, FailEarly(t, written))
    ensures SubmitInv(Apply(cfg, s, FailEarly(t, written)))
  {
    assert TaskInv(s, t);
    TaskEnds(s, t, if written then SetStatus(s.rows, s.tasks[t].id, {Processing}, Failed) else s.rows);
  }

  lemma ClaimStep(cfg: Config, s: State, t: nat)
    requires SubmitInv(s) && Enabled(cfg, s, Claim(t))
    ensures SubmitInv(Apply(cfg, s, Claim(t)))
  {
    var s', id := Apply(cfg, s, Claim(t)), s.tasks[t].id;
    assert TaskInv(s, t);
    if Matches(s.rows, id, {Pending}) {
      assert OrderInv(s, id);
      forall o | o in s'.rows ensures OrderInv(s', o) {
        assert OrderInv(s, o);
      }
      forall u | u in s'.tasks ensures TaskInv(s', u) {
        assert TaskInv(s, u);
      }
    } else {
      TaskEnds(s, t, s.rows);
    }
  }

  lemma CallStep(cfg: Config, s: State, t: nat, outcome: Outcome)
    requires SubmitInv(s) && Enabled(cfg, s, CallBroker(t, outcome))
    ensures SubmitInv(Apply(cfg, s, CallBroker(t, outcome)))
  {
    var s', calls := Apply(cfg, s, CallBroker(t, outcome)), s.calls[s.tasks[t].id];
    assert TaskInv(s, t);
    assert forall i :: 0 <= i < |calls| ==> calls[i] in calls;
    forall o | o in s'.rows ensures OrderInv(s', o) {
      assert OrderInv(s, o);
    }
    forall u | u in s'.tasks ensures TaskInv(s', u) {
      assert TaskInv(s, u);
    }
  }

  lemma CreateStep(cfg: Config, s: State, id: OrderId, order: Order)
    requires SubmitInv(s) && Enabled(cfg, s, Create(id, order))
    ensures SubmitInv(Apply(cfg, s, Create(id, order)))
  {
    var s' := Apply(cfg, s, Create(id, order));
    forall o | o in s'.rows ensures OrderInv(s', o) {
      assert o != id ==> OrderInv(s, o);
    }
    forall u | u in s'.tasks ensures TaskInv(s', u) {
      assert TaskInv(s, u);
    }
  }

  lemma StartStep(cfg: Config, s: State, t: nat, id: OrderId)
    requires SubmitInv(s) && Enabled(cfg, s, StartSubmit(t, id))
    ensures SubmitInv(Apply(cfg, s, StartSubmit(t, id)))
  {
    var s' := Apply(cfg, s, StartSubmit(t, id));
    forall o | o in s'.rows ensures OrderInv(s', o) {
      assert OrderInv(s, o);
    }
    forall u | u in s'.tasks ensures TaskInv(s', u) {
      assert u != t ==> TaskInv(s, u);
    }
  }

  lemma SubmitStep(cfg: Config, s: State, a: Action)
    requires SubmitInv(s) && Enabled(cfg, s, a)
    ensures SubmitInv(Apply(cfg, s, a))
  {
    match a
    case Create(id, order) => CreateStep(cfg, s, id, order);
    case StartSubmit(t, id) => StartStep(cfg, s, t, id);
    case Claim(t) => ClaimStep(cfg, s, t);
    case FailEarly(t, written) => FailEarlyStep(cfg, s, t, written);
    case CallBroker(t, outcome) => CallStep(cfg, s, t, outcome);
    case Record(t, written) => RecordStep(cfg, s, t, written);
    case CrashSubmit(t) => TaskEnds(s, t, s.rows);
    case _ => TrackerStep(cfg, s, a);
  }

  /** What the record of an answer leaves of a PROCESSING order, column by column; the other orders, the calls
      and the other tasks stay. */
  lemma RecordLeaves(cfg: Config, s: State, t: nat, written: bool)
    requires Enabled(cfg, s, Record(t, written))
    requires s.tasks[t].id in s.rows && s.rows[s.tasks[t].id].status == Processing
    ensures var s', id, outcome := Apply(cfg, s, Record(t, written)), s.tasks[t].id, s.tasks[t].phase.outcome;
            var o := s.rows[id];
            && s'.calls == s.calls && s'.trackers == s.trackers && s'.tasks == s.tasks - {t}
            && s'.rows.Keys == s.rows.Keys
            && (forall other <- s.rows :: other != id ==> s'.rows[other] == s.rows[other])
            && (outcome == RateLimited ==>
                  s'.rows[id] == Order(o.kind, o.original, o.qty, Pending, o.filled, o.remaining, o.brokerNo))
            && (outcome == Errored ==>
                  s'.rows[id] == Order(o.kind, o.original, o.qty, if written then Failed else Processing,
                                       o.filled, o.remaining, o.brokerNo))
            && (forall n :: outcome == Replied(false, n) ==>
                  s'.rows[id] == Order(o.kind, o.original, o.qty, Failed, o.filled, 0, n))
            && (forall n :: outcome == Replied(true, Some(n)) && cfg.claimSeen ==>
                  s'.rows[id] == Order(o.kind, o.original, o.qty, Accepted, o.filled, o.qty, Some(n)))
            && (outcome == Replied(true, None) && cfg.claimSeen ==>
                  s'.rows[id] == Order(o.kind, o.original, o.qty, Requested, o.filled, o.qty, None))
            && (outcome.Replied? && outcome.ok && !cfg.claimSeen ==> s'.rows[id] == o)
  {
  }

  /** A claim succeeds exactly on a PENDING order, and changes nothing of it but the status. */
  lemma ClaimLeaves(cfg: Config, s: State, t: nat)
    requires Enabled(cfg, s, Claim(t))
    ensures var s', id := Apply(cfg, s, Claim(t)), s.tasks[t].id;
            if id in s.rows && s.rows[id].status == Pending then
              var o := s.rows[id];
              && s'.rows
                 == s.rows[id := Order(o.kind, o.original, o.qty, Processing, o.filled, o.remaining, o.brokerNo)]
              && s'.tasks == s.tasks[t := Task(id, Claimed)]
            else s'.rows == s.rows && t !in s'.tasks
  {
  }

  /** A failed task leaves a tracked order FAILED if that write succeeds, and a submitting one its claimed order;
      nothing else changes. */
  lemma FailureLeaves(cfg: Config, s: State, k: nat, written: bool)
    ensures Enabled(cfg, s, TrackError(k, written)) ==>
              var s', id := Apply(cfg, s, TrackError(k, written)), s.trackers[k].id;
              && s'.tasks == s.tasks && s'.calls == s.calls && k !in s'.trackers
              && (if written && id in s.rows && s.rows[id].status in {Requested, Accepted, PartialFilled}
                  then s'.rows == s.rows[id := s.rows[id].(status := Failed)] else s'.rows == s.rows)
    ensures Enabled(cfg, s, FailEarly(k, written)) ==>
              var s', id := Apply(cfg, s, FailEarly(k, written)), s.tasks[k].id;
              && s'.trackers == s.trackers && s'.calls == s.calls && k !in s'.tasks
              && (if written && id in s.rows && s.rows[id].status == Processing
                  then s'.rows == s.rows[id := s.rows[id].(status := Failed)] else s'.rows == s.rows)
  {
  }

  lemma {:induction false} SubmitRun(cfg: Config, s: State, actions: seq<Action>)
    requires SubmitInv(s) && Run(cfg, s, actions)
    ensures SubmitInv(Final(cfg, s, actions))
    decreases |actions|
  {
    if actions != [] {
      SubmitStep(cfg, s, actions[0]);
      SubmitRun(cfg, Apply(cfg, s, actions[0]), actions[1..]);
    }
  }

  /** MAIN. In every interleaving at most one task holds an order between its claim and its result, and
      every broker call for an order but the last one was rate-limited: so at most one is accepted. */
  lemma AtMostOneSubmission(cfg: Config, actions: seq<Action>)
    requires Run(cfg, EMPTY, actions)
    ensures var s := Final(cfg, EMPTY, actions);
            && OneInFlight(s)
            && (forall id <- s.calls :: RetriesOnly(s.calls[id]))
  {
    SubmitRun(cfg, EMPTY, actions);
    var s := Final(cfg, EMPTY, actions);
    forall id | id in s.calls ensures RetriesOnly(s.calls[id]) {
      assert OrderInv(s, id);
    }
  }
}
