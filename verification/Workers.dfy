/** The two worker tasks as they run when nothing interleaves: methods that drive the order table,
    proved against a function on its rows; the lemmas tie those functions to the step system and to
    the poll of the schedule theorem. */
module Workers {
  import opened Prelude
  import opened OrderState
  import opened OrderRepository
  import opened Tracking
  import opened TrackingChain
  import opened OrderPipeline

  // ---------------------------------------------------------------------------------------------
  // Worker 1.

  /** The table after one submission task. No answer stands for a task that failed before its call. */
  function Submitted(cfg: Config, rows: Rows, id: OrderId, answer: Option<Outcome>, written: bool): Rows {
    if !Matches(rows, id, {Pending}) then rows
    else
      var claimed := SetStatus(rows, id, {Pending}, Processing);
      match answer
      case None => if written then SetStatus(claimed, id, {Processing}, Failed) else claimed
      case Some(outcome) => Recorded(cfg, claimed, id, outcome, written)
  }

  /** A task that finds the order PENDING leaves every other order alone, and this one, column by column: as it
      was after a rate limit; FAILED, or PROCESSING if that write fails, after an error; and after a reply with
      the reply's status and broker number, and its whole quantity or nothing remaining. */
  lemma SubmittedLeaves(cfg: Config, rows: Rows, id: OrderId, answer: Option<Outcome>, written: bool)
    requires id in rows && rows[id].status == Pending
    ensures var rows', o := Submitted(cfg, rows, id, answer, written), rows[id];
            && rows'.Keys == rows.Keys && (forall other <- rows :: other != id ==> rows'[other] == rows[other])
            && (answer == Some(RateLimited) ==> rows'[id] == o)
            && (answer == None || answer == Some(Errored) ==>
                  rows'[id] == Order(o.kind, o.original, o.qty, if written then Failed else Processing,
                                     o.filled, o.remaining, o.brokerNo))
            && (forall n :: answer == Some(Replied(false, n)) ==>
                  rows'[id] == Order(o.kind, o.original, o.qty, Failed, o.filled, 0, n))
            && (forall n :: answer == Some(Replied(true, Some(n))) && cfg.claimSeen ==>
                  rows'[id] == Order(o.kind, o.original, o.qty, Accepted, o.filled, o.qty, Some(n)))
            && (answer == Some(Replied(true, None)) && cfg.claimSeen ==>
                  rows'[id] == Order(o.kind, o.original, o.qty, Requested, o.filled, o.qty, None))
            && (answer.Some? && answer.value.Replied? && answer.value.ok && !cfg.claimSeen ==>
                  rows'[id] == Order(o.kind, o.original, o.qty, Processing, o.filled, o.remaining, o.brokerNo))
  {
  }

  /** After a rate limit the table is the old one, and the next task claims the order again. */
  method ProcessOrder(cfg: Config, table: OrderTable, id: OrderId, answer: Option<Outcome>, written: bool)
    returns (track: bool, resubmit: bool)
    modifies table
    ensures table.rows == Submitted(cfg, old(table.rows), id, answer, written)
    ensures resubmit <==> id in old(table.rows) && old(table.rows)[id].status == Pending && answer == Some(RateLimited)
    ensures resubmit ==> table.rows == old(table.rows)
    ensures id !in old(table.rows) || old(table.rows)[id].status != Pending ==> table.rows == old(table.rows)
    ensures track <==> id in table.rows && id in old(table.rows)
                       && old(table.rows)[id].status == Pending && table.rows[id].status in {Requested, Accepted}
  {
    track, resubmit := false, false;
    if id in table.rows && table.rows[id].status == Pending {
      SubmittedLeaves(cfg, table.rows, id, answer, written);
    }
    var claimed := table.UpdateOrderStatus(id, {Pending}, Processing);
    if !claimed {
      return;
    }
    match answer
    case None =>
      if written {
        var _ := table.UpdateOrderStatus(id, {Processing}, Failed);
      }
    case Some(Errored) =>
      if written {
        var _ := table.UpdateOrderStatus(id, {Processing}, Failed);
      }
    case Some(RateLimited) =>
      var _ := table.UpdateOrderStatus(id, {Processing}, Pending);
      resubmit := true;
    case Some(Replied(ok, brokerNo)) =>
      var next := if !ok then Failed else if brokerNo.Some? then Accepted else Requested;
      if CanTransition(if cfg.claimSeen then Processing else Pending, next) {
        var remaining := if next == Failed then 0 else table.rows[id].qty;
        var updated := table.UpdateOrderSubmitResult(id, next, brokerNo, remaining);
        track := updated && next in {Requested, Accepted};
      }
  }

  /** A submission task that nobody interrupts is a run of the step system. */
  lemma SubmittedIsRun(cfg: Config, s: State, t: nat, id: OrderId, answer: Option<Outcome>, written: bool)
    requires t !in s.tasks && Matches(s.rows, id, {Pending}) && id in s.calls
    ensures var actions := if answer.None? then [StartSubmit(t, id), Claim(t)] + [FailEarly(t, written)]
                           else [StartSubmit(t, id), Claim(t)] + [CallBroker(t, answer.value), Record(t, written)];
            Run(cfg, s, actions) && Final(cfg, s, actions).rows == Submitted(cfg, s.rows, id, answer, written)
  {
    var s1 := Apply(cfg, s, StartSubmit(t, id));
    var s2 := Apply(cfg, s1, Claim(t));
    RunTwo(cfg, s, StartSubmit(t, id), Claim(t));
    assert s2.tasks[t] == Task(id, Claimed);
    match answer
    case None =>
      RunOne(cfg, s2, FailEarly(t, written));
      RunAppend(cfg, s, [StartSubmit(t, id), Claim(t)], [FailEarly(t, written)]);
    case Some(outcome) =>
      RunTwo(cfg, s2, CallBroker(t, outcome), Record(t, written));
      RunAppend(cfg, s, [StartSubmit(t, id), Claim(t)], [CallBroker(t, outcome), Record(t, written)]);
  }

  // ---------------------------------------------------------------------------------------------
  // Worker 2.

  /** The snapshot the tracker writes, if it writes one. */
  function Observed(rows: Rows, id: OrderId, report: Option<Report>): Option<Snapshot> {
    if id !in rows || rows[id].status !in TRACKED_STATES || rows[id].brokerNo.None? then None
    else
      var snap := match report
        case Some(r) => Extract(r, rows[id].kind == New && HasChild(rows, id))
        case None => Snapshot(0, rows[id].filled, rows[id].remaining, 0, rows[id].status);
      if CanTransition(rows[id].status, snap.next) then Some(snap) else None
  }

  /** The table after one tracking task, before a possible timeout. */
  function Tracked(rows: Rows, id: OrderId, report: Option<Report>, reading: Reading): Rows {
    var observed := Observed(rows, id, report);
    if observed.None? then rows
    else
      var child, snap := rows[id], observed.value;
      var own := SetTracking(rows, id, TRACKED_STATES, snap.next, snap.filled, snap.remaining);
      var delta := Delta(child.kind, Previous(child, snap, reading), snap);
      if report.Some? && child.original.Some? && child.original.value in own && delta > 0 then
        var (filled, remaining, next) := Folded(child.kind, own[child.original.value], delta);
        SetParent(own, child.original.value, child.kind, filled, remaining, next)
      else own
  }

  function TimedOut(rows: Rows, id: OrderId, snap: Snapshot): Rows {
    SetTracking(rows, id, TRACKED_STATES, Timeout, snap.filled, snap.remaining)
  }

  /** The task found the order open and the time for tracking it over. */
  predicate GivesUp(rows: Rows, id: OrderId, report: Option<Report>, attempt: nat, elapsed: real) {
    var observed := Observed(rows, id, report);
    observed.Some? && observed.value.next !in TERMINAL_STATES && ResolveRetrackingDelay(attempt, elapsed).None?
  }

  /** The table after one tracking task. */
  function Processed(rows: Rows, id: OrderId, report: Option<Report>, reading: Reading, attempt: nat, elapsed: real)
    : Rows
  {
    var after := Tracked(rows, id, report, reading);
    if GivesUp(rows, id, report, attempt, elapsed) then TimedOut(after, id, Observed(rows, id, report).value) else after
  }

  /** The delay after which one tracking task asks for the next. */
  function NextPoll(rows: Rows, id: OrderId, report: Option<Report>, attempt: nat, elapsed: real): Option<nat> {
    var observed := Observed(rows, id, report);
    if observed.None? || observed.value.next in TERMINAL_STATES then None else ResolveRetrackingDelay(attempt, elapsed)
  }

  /** The task can poll the order: it is tracked and the broker knows it. */
  predicate Pollable(rows: Rows, id: OrderId) {
    id in rows && rows[id].status in TRACKED_STATES && rows[id].brokerNo.Some?
  }

  /** The status the matched row would give the order. */
  function RowStatusOf(rows: Rows, id: OrderId, r: Report): Status
    requires id in rows
  {
    Extract(r, rows[id].kind == New && HasChild(rows, id)).next
  }

  /** A poll with a matched row writes nothing exactly when the row would take the order back in rank. */
  lemma PollRefusedIff(rows: Rows, id: OrderId, r: Report)
    requires Pollable(rows, id)
    ensures Observed(rows, id, Some(r)).None? <==> Rank(RowStatusOf(rows, id, r)) < Rank(rows[id].status)
  {
    TransitionsClimb(rows[id].status, RowStatusOf(rows, id, r));
  }

  /** The task asks for another poll if and only if it polled the order, the row it saw neither takes the order
      back nor closes it, and the window is not over. A refused row ends the chain with the order open. */
  lemma AsksAgainIff(rows: Rows, id: OrderId, report: Option<Report>, attempt: nat, elapsed: real)
    ensures NextPoll(rows, id, report, attempt, elapsed).Some?
        <==> && Pollable(rows, id) && elapsed < 1800.0
             && (report.Some? ==>
                   var next := RowStatusOf(rows, id, report.value);
                   Rank(next) >= Rank(rows[id].status) && next !in TERMINAL_STATES)
  {
    if Pollable(rows, id) && report.Some? {
      PollRefusedIff(rows, id, report.value);
    }
  }

  /** The row seen, or a missing row, keeps the order open and does not take it back. */
  predicate StaysOpen(rows: Rows, id: OrderId, report: Option<Report>)
    requires id in rows
  {
    report.Some? ==>
      var next := RowStatusOf(rows, id, report.value);
      Rank(next) >= Rank(rows[id].status) && next !in TERMINAL_STATES
  }

  /** The columns of the order after one task: untouched if the row is refused, otherwise the row's quantities,
      and the row's status or TIMEOUT. */
  lemma ProcessedLeaves(rows: Rows, id: OrderId, report: Option<Report>, reading: Reading, attempt: nat, elapsed: real)
    requires Pollable(rows, id) && rows[id].original != Some(id)
    ensures var o, rows' := rows[id], Processed(rows, id, report, reading, attempt, elapsed);
            && rows'.Keys == rows.Keys
            && (forall other <- rows :: other != id && o.original != Some(other) ==> rows'[other] == rows[other])
            && (rows'[id].status == Timeout <==> elapsed >= 1800.0 && StaysOpen(rows, id, report))
            && rows'[id].kind == o.kind && rows'[id].original == o.original && rows'[id].qty == o.qty
            && rows'[id].brokerNo == o.brokerNo
            && (report.None? ==> rows'[id].filled == o.filled && rows'[id].remaining == o.remaining
                                 && (rows'[id].status == Timeout || rows'[id].status == o.status))
            && (report.Some? ==>
                  var r, next := report.value, RowStatusOf(rows, id, report.value);
                  if Rank(next) < Rank(o.status) then rows'[id] == o
                  else && rows'[id].filled == Max(r.ordQty - r.rmnQty - r.cnclQty - r.rjctQty, 0)
                       && rows'[id].remaining == r.rmnQty
                       && (rows'[id].status == Timeout || rows'[id].status == next))
  {
    if report.Some? {
      PollRefusedIff(rows, id, report.value);
    }
  }

  /** The body of the task; countdown is the delay after which it asks to run again. */
  method TrackOrder(table: OrderTable, id: OrderId, report: Option<Report>, reading: Reading,
                            attempt: nat, elapsed: real)
    returns (countdown: Option<nat>)
    modifies table
    ensures table.rows == Processed(old(table.rows), id, report, reading, attempt, elapsed)
    ensures countdown == NextPoll(old(table.rows), id, report, attempt, elapsed)
  {
    countdown := None;
    if id !in table.rows || table.rows[id].status !in TRACKED_STATES || table.rows[id].brokerNo.None? {
      return;
    }
    var order := table.rows[id];
    var hasChildren := false;
    if order.kind == New {
      hasChildren := table.ExistsChildOrders(id);
    }
    var snap := match report
      case Some(r) => Extract(r, hasChildren)
      case None => Snapshot(0, order.filled, order.remaining, 0, order.status);
    if !CanTransition(order.status, snap.next) {
      return;
    }
    var updated := table.UpdateOrderTrackingResult(id, Expected(order.status), snap.next, snap.filled, snap.remaining);
    if !updated {
      return;
    }
    if report.Some? && order.original.Some? && order.original.value in table.rows {
      var previous := if reading == BeforeWrite then order.filled else table.rows[id].filled;
      var delta := Delta(order.kind, previous, snap);
      if delta > 0 {
        var parentId := order.original.value;
        var (filled, remaining, next) := Folded(order.kind, table.rows[parentId], delta);
        var _ := table.UpdateParentOrderAfterChild(parentId, order.kind, filled, remaining, next);
      }
    }
    if snap.next !in TERMINAL_STATES {
      countdown := ResolveRetrackingDelay(attempt, elapsed);
      if countdown.None? {
        var _ := table.UpdateOrderTrackingResult(id, TRACKED_STATES, Timeout, snap.filled, snap.remaining);
      }
    }
  }

  /** The task. An order it can poll is left TIMEOUT if and only if the window is over and the row seen, or a
      missing one, keeps it open without taking it back. */
  method ProcessOrderStatus(table: OrderTable, id: OrderId, report: Option<Report>, reading: Reading,
                            attempt: nat, elapsed: real)
    returns (countdown: Option<nat>)
    modifies table
    ensures table.rows == Processed(old(table.rows), id, report, reading, attempt, elapsed)
    ensures Pollable(old(table.rows), id) && old(table.rows)[id].original != Some(id) ==>
              && id in table.rows
              && (table.rows[id].status == Timeout <==> elapsed >= 1800.0 && StaysOpen(old(table.rows), id, report))
    ensures !Pollable(old(table.rows), id) ==> table.rows == old(table.rows)
    ensures countdown == NextPoll(old(table.rows), id, report, attempt, elapsed)
  {
    ghost var before := table.rows;
    countdown := TrackOrder(table, id, report, reading, attempt, elapsed);
    if Pollable(before, id) && before[id].original != Some(id) {
      ProcessedLeaves(before, id, report, reading, attempt, elapsed);
    }
  }

  /** On a child and its parent, a tracking task does what one poll of the schedule theorem does. */
  lemma TrackedIsPoll(rows: Rows, id: OrderId, parentId: OrderId, r: Report, reading: Reading)
    requires id in rows && parentId in rows && id != parentId
    requires rows[id].kind in {Modify, Cancel} && rows[id].original == Some(parentId)
    ensures var rows', fam := Tracked(rows, id, Some(r), reading), Poll(Family(rows[id], rows[parentId]), r, reading);
            rows' == rows[id := fam.child][parentId := fam.parent]
  {
  }

  /** The step system after an uninterrupted poll with a matching row, up to the fold. */
  lemma PolledAlone(cfg: Config, s: State, k: nat, id: OrderId, report: Option<Report>)
    requires s.trackers == map[] && Observed(s.rows, id, report).Some?
    requires cfg.echo && report.Some? ==> report.value.ordQty == s.rows[id].qty
    ensures Enabled(cfg, s, StartTrack(k, id))
    ensures var s1, a := Apply(cfg, s, StartTrack(k, id)), TrackWrite(k, report);
            var snap := Observed(s.rows, id, report).value;
            && Enabled(cfg, s1, a)
            && Apply(cfg, s1, a) == s.(
                 rows := SetTracking(s.rows, id, TRACKED_STATES, snap.next, snap.filled, snap.remaining),
                 trackers := map[k := Tracker(id, if report.Some? then Folding(s.rows[id], snap) else Closing(snap))])
  {
    assert s.rows[id].status in Expected(s.rows[id].status);
  }

  /** The fold of a tracker that is alone. */
  lemma FoldedAlone(cfg: Config, s: State, k: nat, id: OrderId, child: Order, snap: Snapshot)
    returns (actions: seq<Action>)
    requires s.trackers == map[k := Tracker(id, Folding(child, snap))]
    ensures Run(cfg, s, actions)
    ensures var s' := Final(cfg, s, actions);
            var delta := Delta(child.kind, Previous(child, snap, cfg.reading), snap);
            && s'.trackers == map[k := Tracker(id, Closing(snap))]
            && s'.rows == if child.original.Some? && child.original.value in s.rows && delta > 0 then
                            var (filled, remaining, next) := Folded(child.kind, s.rows[child.original.value], delta);
                            SetParent(s.rows, child.original.value, child.kind, filled, remaining, next)
                          else s.rows
  {
    var c, d := FoldRead(k), FoldWrite(k);
    RunOne(cfg, s, c);
    actions := [c];
    var s1 := Apply(cfg, s, c);
    if s1.trackers[k].phase.Writing? {
      RunOne(cfg, s1, d);
      RunAppend(cfg, s, [c], [d]);
      actions := [c] + [d];
    }
  }

  lemma TrackedAlone(cfg: Config, s: State, k: nat, id: OrderId, report: Option<Report>)
    returns (actions: seq<Action>)
    requires s.trackers == map[] && Observed(s.rows, id, report).Some?
    requires cfg.echo && report.Some? ==> report.value.ordQty == s.rows[id].qty
    ensures Run(cfg, s, actions)
    ensures var s' := Final(cfg, s, actions);
            && s'.rows == Tracked(s.rows, id, report, cfg.reading)
            && s'.trackers == map[k := Tracker(id, Closing(Observed(s.rows, id, report).value))]
  {
    var a, b := StartTrack(k, id), TrackWrite(k, report);
    PolledAlone(cfg, s, k, id, report);
    RunTwo(cfg, s, a, b);
    actions := [a, b];
    if report.Some? {
      var fold := FoldedAlone(cfg, Final(cfg, s, [a, b]), k, id, s.rows[id], Observed(s.rows, id, report).value);
      RunAppend(cfg, s, [a, b], fold);
      actions := [a, b] + fold;
    }
  }

  /** A tracking task that nobody interrupts is a run of the step system, whatever the broker reports and
      whenever it runs. */
  lemma TrackedIsRun(cfg: Config, s: State, k: nat, id: OrderId, report: Option<Report>, attempt: nat, elapsed: real)
    requires s.trackers == map[]
    requires cfg.echo && report.Some? && id in s.rows ==> report.value.ordQty == s.rows[id].qty
    ensures exists actions :: Run(cfg, s, actions)
              && Final(cfg, s, actions).rows == Processed(s.rows, id, report, cfg.reading, attempt, elapsed)
  {
    var observed := Observed(s.rows, id, report);
    if observed.None? {
      assert Run(cfg, s, []) && Final(cfg, s, []).rows == s.rows;
    } else {
      var actions := TrackedAlone(cfg, s, k, id, report);
      if GivesUp(s.rows, id, report, attempt, elapsed) {
        RunOne(cfg, Final(cfg, s, actions), TrackTimeout(k));
        RunAppend(cfg, s, actions, [TrackTimeout(k)]);
      }
    }
  }
}
