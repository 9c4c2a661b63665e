/** Worker 2: one poll of the broker. A broker row is classified, written to the order, and for a
    modify or cancel child the newly reported quantity is folded into the parent order. */
module Tracking {
  import opened Prelude
  import opened OrderState
  import opened OrderRepository

  /** The quantities of the broker row that matches the order. */
  datatype Report = Report(ordQty: int, rmnQty: int, cnclQty: int, rjctQty: int)

  datatype Snapshot = Snapshot(ordQty: int, filled: int, remaining: int, rejected: int, next: Status)

  function RowFilled(r: Report): int {
    Max(r.ordQty - r.rmnQty - r.cnclQty - r.rjctQty, 0)
  }

  /** The status of an order without children. */
  function Classify(r: Report): Status {
    var filled := RowFilled(r);
    if r.ordQty > 0 && filled >= r.ordQty && r.rmnQty == 0 then Filled
    else if r.ordQty > 0 && filled == 0 && r.cnclQty >= r.ordQty && r.rmnQty == 0 then Canceled
    else if r.rmnQty > 0 then (if filled > 0 then PartialFilled else Accepted)
    else if filled >= r.ordQty && r.ordQty > 0 then Filled
    else if r.cnclQty > 0 then Canceled
    else if r.rjctQty > 0 then Failed
    else if filled > 0 then Canceled
    else Accepted
  }

  /** The status of a parent, decided from its own quantities. */
  function ResolveParent(qty: int, filled: int, remaining: int): Status {
    if filled >= qty && qty > 0 then Filled
    else if remaining > 0 then (if filled > 0 then PartialFilled else Accepted)
    else Canceled
  }

  function Extract(r: Report, isParent: bool): Snapshot {
    Snapshot(r.ordQty, RowFilled(r), r.rmnQty, r.rjctQty,
             if isParent then ResolveParent(r.ordQty, RowFilled(r), r.rmnQty) else Classify(r))
  }

  /** The quantity one poll of a child adds to its parent. `previous` is what the child is taken to
      have reported before. */
  function Delta(kind: Kind, previous: int, snap: Snapshot): int {
    if kind == Cancel && snap.next in {Canceled, Filled, PartialFilled}
    then Max(Max(snap.ordQty - snap.remaining - snap.rejected, 0) - previous, 0)
    else if kind == Modify && snap.next in {PartialFilled, Filled}
    then Max(snap.filled - previous, 0)
    else 0
  }

  /** The parent's new column values, computed from the parent row that was read. */
  function Folded(kind: Kind, parent: Order, delta: int): (int, int, Status) {
    var filled := if kind == Modify then Min(parent.filled + delta, parent.qty) else parent.filled;
    var remaining := Max(parent.remaining - delta, 0);
    (filled, remaining, ResolveParent(parent.qty, filled, remaining))
  }

  function FoldParent(kind: Kind, parent: Order, delta: int): Order {
    if delta > 0 && FoldAllowed(kind, parent.status) then
      var (filled, remaining, status) := Folded(kind, parent, delta);
      parent.(filled := filled, remaining := remaining, status := status)
    else parent
  }

  /** When the child's earlier quantity is read: before this poll's write, as intended, or after it,
      when the session has already put the new value into the loaded row. */
  datatype Reading = BeforeWrite | AfterWrite

  datatype Family = Family(child: Order, parent: Order)

  function Previous(child: Order, snap: Snapshot, reading: Reading): int {
    if reading == BeforeWrite then child.filled else snap.filled
  }

  /** One uninterrupted poll of a child. */
  function Poll(fam: Family, r: Report, reading: Reading): Family {
    var child := fam.child;
    if child.status !in TRACKED_STATES || child.brokerNo.None? then fam
    else
      var snap := Extract(r, false);
      if !CanTransition(child.status, snap.next) then fam
      else Family(
        child.(status := snap.next, filled := snap.filled, remaining := snap.remaining),
        FoldParent(child.kind, fam.parent, Delta(child.kind, Previous(child, snap, reading), snap)))
  }

  /** A schedule is the list of reports the polls happened to see. */
  function PollAll(fam: Family, schedule: seq<Report>, reading: Reading): Family
    decreases |schedule|
  {
    if schedule == [] then fam
    else PollAll(Poll(fam, schedule[0], reading), schedule[1..], reading)
  }

  // ---------------------------------------------------------------------------------------------
  // What the broker may report about one child.

  /** The parts of a row are quantities that fit into the ordered one. */
  predicate WellFormed(q: int, r: Report) {
    r.ordQty == q && r.rmnQty >= 0 && r.cnclQty >= 0 && r.rjctQty >= 0 &&
    r.rmnQty + r.cnclQty + r.rjctQty <= q
  }

  /** A row with nothing left in the market was filled, not cut short. */
  predicate Clean(r: Report) {
    r.rmnQty == 0 ==> r.cnclQty == 0 && r.rjctQty == 0
  }

  /** The status of any row, quantity by quantity, whether or not they add up: it is open while something is
      left in the market or the row is empty, and a closed one says how the order ended. */
  lemma RowStatus(r: Report)
    requires r.ordQty >= 0 && r.rmnQty >= 0 && r.cnclQty >= 0 && r.rjctQty >= 0
    ensures Classify(r) == PartialFilled <==> r.rmnQty > 0 && r.ordQty > r.rmnQty + r.cnclQty + r.rjctQty
    ensures Classify(r) == Filled <==> r.ordQty > 0 && r.rmnQty == 0 && r.cnclQty == 0 && r.rjctQty == 0
    ensures Classify(r) == Canceled <==> r.rmnQty == 0 && r.cnclQty > 0
    ensures Classify(r) == Failed <==> r.rmnQty == 0 && r.cnclQty == 0 && r.rjctQty > 0
    ensures Classify(r) in {Accepted, PartialFilled, Filled, Canceled, Failed}
  {
  }

  /** The rule for parents gives the same status, except that it calls a rejected remainder and an empty row
      CANCELED. */
  lemma ParentRuleAgreesIff(r: Report)
    requires r.ordQty >= 0 && r.rmnQty >= 0 && r.cnclQty >= 0 && r.rjctQty >= 0
    ensures Extract(r, true).next == Extract(r, false).next
       <==> !(r.rmnQty == 0 && r.cnclQty == 0 && (r.rjctQty > 0 || r.ordQty == 0))
    ensures Extract(r, true).next != Extract(r, false).next ==> Extract(r, true).next == Canceled
  {
    RowStatus(r);
  }

  ghost predicate Cumulative(schedule: seq<Report>) {
    forall i, j :: 0 <= i <= j < |schedule| ==> RowFilled(schedule[i]) <= RowFilled(schedule[j])
  }

  /** A cancel child whose confirmed-cancel column stays zero, any other child without restriction. */
  predicate Regular(kind: Kind, r: Report) {
    kind == Cancel ==> r.cnclQty == 0
  }

  ghost predicate GoodSchedule(kind: Kind, q: int, schedule: seq<Report>) {
    && Cumulative(schedule)
    && (forall r <- schedule :: WellFormed(q, r) && Clean(r) && Regular(kind, r))
  }

  /** A child the broker has just accepted. */
  predicate Fresh(child: Order) {
    && child.kind in {Modify, Cancel}
    && child.status in {Requested, Accepted}
    && child.filled == 0
    && child.brokerNo.Some?
  }

  /** A live parent with something left to trade. */
  predicate LiveParent(parent: Order) {
    && parent.status in {Accepted, PartialFilled}
    && parent.filled < parent.qty
  }

  // ---------------------------------------------------------------------------------------------
  // Schedule independence.

  /** The parent after `total` shares of the child have been folded in, stated without any poll. */
  function Settled(kind: Kind, parent: Order, total: int): Order {
    if total == 0 then parent
    else
      var filled := if kind == Modify then Min(parent.filled + total, parent.qty) else parent.filled;
      var remaining := Max(parent.remaining - total, 0);
      parent.(filled := filled, remaining := remaining,
              status := ResolveParent(parent.qty, filled, remaining))
  }

  /** The child after it has reported `total`, and nothing about how it got there. */
  predicate Reported(child: Order, kind: Kind, q: int, total: int) {
    && child.kind == kind
    && child.filled == total
    && child.brokerNo.Some?
    && 0 <= total <= q
    && (total == 0 ==> child.status in {Requested, Accepted})
    && (0 < total < q ==> child.status == PartialFilled)
    && (total == q && q > 0 ==> child.status == Filled)
  }

  /** Folding twice is folding the sum: the step of the induction. */
  lemma FoldsAdd(kind: Kind, parent: Order, before: int, now: int)
    requires kind in {Modify, Cancel} && 0 <= before <= now
    requires kind == Cancel ==> LiveParent(parent)
    ensures FoldParent(kind, Settled(kind, parent, before), now - before) == Settled(kind, parent, now)
  {
    var settled := Settled(kind, parent, before);
    if before > 0 && !FoldAllowed(kind, settled.status) {
      assert settled.remaining == 0;
    }
  }

  lemma OnePoll(kind: Kind, q: int, fam: Family, parent: Order, before: int, r: Report)
    requires kind in {Modify, Cancel} && q > 0
    requires kind == Cancel ==> LiveParent(parent)
    requires Reported(fam.child, kind, q, before) && fam.parent == Settled(kind, parent, before)
    requires WellFormed(q, r) && Clean(r) && Regular(kind, r) && before <= RowFilled(r)
    ensures Reported(Poll(fam, r, BeforeWrite).child, kind, q, RowFilled(r))
    ensures Poll(fam, r, BeforeWrite).parent == Settled(kind, parent, RowFilled(r))
  {
    FoldsAdd(kind, parent, before, RowFilled(r));
  }

  lemma {:induction false} ScheduleFrom(kind: Kind, q: int, fam: Family, parent: Order, before: int,
                                        schedule: seq<Report>)
    requires kind in {Modify, Cancel} && q > 0
    requires kind == Cancel ==> LiveParent(parent)
    requires Reported(fam.child, kind, q, before) && fam.parent == Settled(kind, parent, before)
    requires schedule != [] && GoodSchedule(kind, q, schedule) && before <= RowFilled(schedule[0])
    ensures var total := RowFilled(schedule[|schedule| - 1]);
            && Reported(PollAll(fam, schedule, BeforeWrite).child, kind, q, total)
            && PollAll(fam, schedule, BeforeWrite).parent == Settled(kind, parent, total)
    decreases |schedule|
  {
    OnePoll(kind, q, fam, parent, before, schedule[0]);
    var rest := schedule[1..];
    if rest != [] {
      assert forall i :: 0 <= i < |rest| ==> rest[i] == schedule[i + 1];
      ScheduleFrom(kind, q, Poll(fam, schedule[0], BeforeWrite), parent, RowFilled(schedule[0]), rest);
    } else {
      assert PollAll(Poll(fam, schedule[0], BeforeWrite), rest, BeforeWrite)
          == Poll(fam, schedule[0], BeforeWrite);
    }
  }

  /** MAIN. However often the broker was asked, the parent ends with exactly the child's last
      cumulative quantity folded in once. */
  lemma ScheduleIndependence(child: Order, parent: Order, schedule: seq<Report>)
    requires Fresh(child) && child.qty > 0
    requires child.kind == Cancel ==> LiveParent(parent)
    requires schedule != [] && GoodSchedule(child.kind, child.qty, schedule)
    ensures var total := RowFilled(schedule[|schedule| - 1]);
            PollAll(Family(child, parent), schedule, BeforeWrite).parent == Settled(child.kind, parent, total)
  {
    ScheduleFrom(child.kind, child.qty, Family(child, parent), parent, 0, schedule);
  }

  /** MAIN. Two schedules that end at the same report leave the same parent. */
  lemma SchedulesAgree(child: Order, parent: Order, s1: seq<Report>, s2: seq<Report>)
    requires Fresh(child) && child.qty > 0
    requires child.kind == Cancel ==> LiveParent(parent)
    requires s1 != [] && GoodSchedule(child.kind, child.qty, s1)
    requires s2 != [] && GoodSchedule(child.kind, child.qty, s2)
    requires s1[|s1| - 1] == s2[|s2| - 1]
    ensures PollAll(Family(child, parent), s1, BeforeWrite).parent
         == PollAll(Family(child, parent), s2, BeforeWrite).parent
  {
    ScheduleIndependence(child, parent, s1);
    ScheduleIndependence(child, parent, s2);
  }

  // ---------------------------------------------------------------------------------------------
  // Where it fails, and exactly when.

  /** Rows of one order over time that end at r: what is filled, cancelled and rejected never shrinks. */
  ghost predicate Ends(kind: Kind, q: int, schedule: seq<Report>, r: Report) {
    && schedule != [] && schedule[|schedule| - 1] == r
    && (forall s <- schedule :: WellFormed(q, s) && Regular(kind, s))
    && (forall i, j :: 0 <= i <= j < |schedule| ==>
          && RowFilled(schedule[i]) <= RowFilled(schedule[j])
          && schedule[i].cnclQty <= schedule[j].cnclQty && schedule[i].rjctQty <= schedule[j].rjctQty)
  }

  /** The parents a child of the kind is folded into: any for a modify child, a live one for a cancel child. */
  predicate ParentFor(kind: Kind, parent: Order) {
    kind == Cancel ==> LiveParent(parent)
  }

  lemma CleanEnd(kind: Kind, q: int, schedule: seq<Report>, r: Report)
    requires Ends(kind, q, schedule, r) && Clean(r)
    ensures GoodSchedule(kind, q, schedule)
  {
    var last := |schedule| - 1;
    assert schedule[last] in schedule;
    forall s | s in schedule ensures WellFormed(q, s) && Clean(s) && Regular(kind, s) {
      var i :| 0 <= i < |schedule| && schedule[i] == s;
      assert RowFilled(schedule[i]) <= RowFilled(schedule[last]) && schedule[i].cnclQty <= schedule[last].cnclQty;
      assert s.rmnQty >= r.rmnQty;
    }
  }

  lemma {:induction false} NothingFilled(fam: Family, q: int, schedule: seq<Report>)
    requires fam.child.kind in {Modify, Cancel} && fam.child.filled >= 0
    requires forall s <- schedule :: WellFormed(q, s) && Regular(fam.child.kind, s) && RowFilled(s) == 0
    ensures PollAll(fam, schedule, BeforeWrite).parent == fam.parent
    decreases |schedule|
  {
    if schedule != [] {
      assert schedule[0] in schedule;
      NothingFilled(Poll(fam, schedule[0], BeforeWrite), q, schedule[1..]);
    }
  }

  /** Every schedule that ends at a clean row, or at one without fills, folds the last quantity in once. */
  lemma EndsInFull(child: Order, parent: Order, schedule: seq<Report>, r: Report)
    requires Fresh(child) && child.qty > 0 && ParentFor(child.kind, parent)
    requires Ends(child.kind, child.qty, schedule, r) && (Clean(r) || RowFilled(r) == 0)
    ensures PollAll(Family(child, parent), schedule, BeforeWrite).parent == Settled(child.kind, parent, RowFilled(r))
  {
    if Clean(r) {
      CleanEnd(child.kind, child.qty, schedule, r);
      ScheduleIndependence(child, parent, schedule);
    } else {
      forall s | s in schedule ensures RowFilled(s) == 0 {
        var i :| 0 <= i < |schedule| && schedule[i] == s;
        assert RowFilled(schedule[i]) <= RowFilled(schedule[|schedule| - 1]);
      }
      NothingFilled(Family(child, parent), child.qty, schedule);
    }
  }

  /** A used-up row that was partly cancelled or rejected closes the child as CANCELED or FAILED; if it is the
      first the tracker sees, nothing is folded, and if an open row came before, its fills are. */
  lemma UncleanEnd(child: Order, r: Report) returns (open: Report, parent: Order)
    requires Fresh(child) && child.qty > 0 && WellFormed(child.qty, r) && Regular(child.kind, r)
    requires !Clean(r) && RowFilled(r) > 0
    ensures ParentFor(child.kind, parent)
    ensures Ends(child.kind, child.qty, [r], r) && Ends(child.kind, child.qty, [open, r], r)
    ensures Settled(child.kind, parent, RowFilled(r)) != parent
    ensures PollAll(Family(child, parent), [r], BeforeWrite).parent == parent
    ensures PollAll(Family(child, parent), [open, r], BeforeWrite).parent == Settled(child.kind, parent, RowFilled(r))
  {
    var f := RowFilled(r);
    open, parent := Report(child.qty, child.qty - f, 0, 0), Order(New, None, f, Accepted, 0, f, Some(0));
    var fam := Family(child, parent);
    assert [r][1..] == [] && [open, r][1..] == [r];
    assert PollAll(fam, [r], BeforeWrite) == PollAll(Poll(fam, r, BeforeWrite), [], BeforeWrite);
    OnePoll(child.kind, child.qty, fam, parent, 0, open);
    var fam' := Poll(fam, open, BeforeWrite);
    assert PollAll(fam', [r], BeforeWrite) == PollAll(Poll(fam', r, BeforeWrite), [], BeforeWrite);
  }

  /** A child's last report reaches every parent in full on every schedule if and only if the row is clean
      or carries no fills. */
  lemma FillsReachParentIff(child: Order, r: Report)
    requires Fresh(child) && child.qty > 0 && WellFormed(child.qty, r) && Regular(child.kind, r)
    ensures (forall schedule, parent | Ends(child.kind, child.qty, schedule, r) && ParentFor(child.kind, parent) ::
               PollAll(Family(child, parent), schedule, BeforeWrite).parent
               == Settled(child.kind, parent, RowFilled(r)))
       <==> Clean(r) || RowFilled(r) == 0
  {
    if Clean(r) || RowFilled(r) == 0 {
      forall schedule, parent | Ends(child.kind, child.qty, schedule, r) && ParentFor(child.kind, parent)
        ensures PollAll(Family(child, parent), schedule, BeforeWrite).parent
             == Settled(child.kind, parent, RowFilled(r))
      {
        EndsInFull(child, parent, schedule, r);
      }
    } else {
      var open, parent := UncleanEnd(child, r);
      assert PollAll(Family(child, parent), [r], BeforeWrite).parent != Settled(child.kind, parent, RowFilled(r));
    }
  }

  /** MAIN. All schedules that end at the row leave every parent alike if and only if the row is clean or
      carries no fills. */
  lemma SchedulesAgreeIff(child: Order, r: Report)
    requires Fresh(child) && child.qty > 0 && WellFormed(child.qty, r) && Regular(child.kind, r)
    ensures (forall s1, s2, parent | Ends(child.kind, child.qty, s1, r) && Ends(child.kind, child.qty, s2, r)
                                     && ParentFor(child.kind, parent) ::
               PollAll(Family(child, parent), s1, BeforeWrite).parent
               == PollAll(Family(child, parent), s2, BeforeWrite).parent)
       <==> Clean(r) || RowFilled(r) == 0
  {
    if Clean(r) || RowFilled(r) == 0 {
      forall s1, s2, parent | Ends(child.kind, child.qty, s1, r) && Ends(child.kind, child.qty, s2, r)
                              && ParentFor(child.kind, parent)
        ensures PollAll(Family(child, parent), s1, BeforeWrite).parent
             == PollAll(Family(child, parent), s2, BeforeWrite).parent
      {
        EndsInFull(child, parent, s1, r);
        EndsInFull(child, parent, s2, r);
      }
    } else {
      var open, parent := UncleanEnd(child, r);
      assert PollAll(Family(child, parent), [r], BeforeWrite).parent
          != PollAll(Family(child, parent), [open, r], BeforeWrite).parent;
    }
  }

  /** An open cancel child whose row was just written: the status and the quantity are the row's. */
  predicate JustPolled(child: Order, r: Report) {
    && child.kind == Cancel && child.brokerNo.Some? && child.qty > 0 && WellFormed(child.qty, r) && r.rmnQty > 0
    && child.filled == RowFilled(r) && child.status == Classify(r)
  }

  /** Asking an open cancel child again about an unchanged row leaves every live parent alone if and only if
      the confirmed-cancel column is zero or nothing is applied yet: the applied quantity counts confirmed
      cancels, the stored quantity it is compared with does not. */
  lemma RepeatedCancelPollIff(child: Order, r: Report)
    requires JustPolled(child, r)
    ensures (forall parent | LiveParent(parent) ::
               Poll(Family(child, parent), r, BeforeWrite).parent == parent)
       <==> r.cnclQty == 0 || RowFilled(r) == 0
  {
    if r.cnclQty == 0 || RowFilled(r) == 0 {
      assert forall parent :: Poll(Family(child, parent), r, BeforeWrite).parent == parent;
    } else {
      var parent := Order(New, None, r.ordQty, Accepted, 0, r.ordQty, Some(0));
      assert LiveParent(parent);
      assert Poll(Family(child, parent), r, BeforeWrite).parent.remaining < r.ordQty;
    }
  }

  /** Asking again. */
  function PollAgain(fam: Family, r: Report, n: nat): Family {
    if n == 0 then fam else Poll(PollAgain(fam, r, n - 1), r, BeforeWrite)
  }

  /** A parent that a cancel child may still shrink, or one that it has used up. */
  predicate Shrinking(parent: Order) {
    parent.filled < parent.qty && parent.remaining >= 0
    && (LiveParent(parent) || (parent.status == Canceled && parent.remaining == 0))
  }

  lemma AgainTakes(child: Order, parent: Order, r: Report)
    requires JustPolled(child, r) && Shrinking(parent)
    ensures var fam := Poll(Family(child, parent), r, BeforeWrite);
            && JustPolled(fam.child, r) && Shrinking(fam.parent)
            && fam.parent.filled == parent.filled
            && fam.parent.remaining
               == if RowFilled(r) == 0 then parent.remaining else Max(parent.remaining - r.cnclQty, 0)
  {
  }

  lemma Times(cncl: int, n: nat)
    requires n > 0
    ensures n * cncl == (n - 1) * cncl + cncl && (cncl >= 0 ==> (n - 1) * cncl >= 0)
  {
  }

  /** Every further question about the unchanged row takes the confirmed cancels from the parent once more. */
  lemma {:induction false} RepeatedCancelPollsTake(child: Order, parent: Order, r: Report, n: nat)
    requires JustPolled(child, r) && LiveParent(parent) && parent.remaining >= 0
    ensures var fam := PollAgain(Family(child, parent), r, n);
            && JustPolled(fam.child, r) && Shrinking(fam.parent) && fam.parent.filled == parent.filled
            && fam.parent.remaining
               == if RowFilled(r) == 0 then parent.remaining else Max(parent.remaining - n * r.cnclQty, 0)
  {
    if n > 0 {
      RepeatedCancelPollsTake(child, parent, r, n - 1);
      var before := PollAgain(Family(child, parent), r, n - 1);
      AgainTakes(before.child, before.parent, r);
      Times(r.cnclQty, n);
    }
  }

  /** With the earlier quantity read after the write, nothing a child reports ever reaches the
      parent, whatever the schedule. */
  lemma {:induction false} LateReadingLosesEveryFill(fam: Family, schedule: seq<Report>)
    requires forall r <- schedule :: Regular(fam.child.kind, r)
    ensures PollAll(fam, schedule, AfterWrite).parent == fam.parent
    decreases |schedule|
  {
    if schedule != [] {
      assert Regular(fam.child.kind, schedule[0]);
      LateReadingLosesEveryFill(Poll(fam, schedule[0], AfterWrite), schedule[1..]);
    }
  }
}
