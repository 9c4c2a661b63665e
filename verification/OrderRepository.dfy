/** The order table and its guarded updates. A row is changed only when its current status is one
    the caller expects; the caller learns from the row count whether it was. */
module OrderRepository {
  import opened Prelude
  import opened OrderState

  type OrderId = nat

  datatype Kind = New | Modify | Cancel

  /** A row of the orders table, reduced to the columns the two workers decide on. */
  datatype Order = Order(
    kind: Kind,
    original: Option<OrderId>,
    qty: int,
    status: Status,
    filled: int,
    remaining: int,
    brokerNo: Option<nat>)

  type Rows = map<OrderId, Order>

  predicate Matches(rows: Rows, id: OrderId, expected: set<Status>) {
    id in rows && rows[id].status in expected
  }

  /** The table after `UPDATE ... SET status = next WHERE id = id AND status IN expected`. */
  function SetStatus(rows: Rows, id: OrderId, expected: set<Status>, next: Status): Rows {
    if Matches(rows, id, expected) then rows[id := rows[id].(status := next)] else rows
  }

  function SetSubmitResult(rows: Rows, id: OrderId, next: Status, brokerNo: Option<nat>, remaining: int): Rows {
    if Matches(rows, id, {Processing})
    then rows[id := rows[id].(status := next, brokerNo := brokerNo, remaining := remaining)]
    else rows
  }

  function SetTracking(rows: Rows, id: OrderId, expected: set<Status>, next: Status,
                       filled: int, remaining: int): Rows {
    if Matches(rows, id, expected)
    then rows[id := rows[id].(status := next, filled := filled, remaining := remaining)]
    else rows
  }

  /** Whether a parent in the given status accepts a child's quantity. The cancel branch names the
      live statuses; the modify branch names none, so its update is unconditional. */
  predicate FoldAllowed(kind: Kind, status: Status) {
    kind == Cancel ==> status in {Accepted, PartialFilled}
  }

  function SetParent(rows: Rows, id: OrderId, kind: Kind, filled: int, remaining: int, next: Status): Rows {
    if id in rows && FoldAllowed(kind, rows[id].status)
    then rows[id := rows[id].(filled := filled, remaining := remaining, status := next)]
    else rows
  }

  class OrderTable {
    var rows: Rows

    constructor (initial: Rows)
      ensures rows == initial
    {
      rows := initial;
    }

    method UpdateOrderStatus(id: OrderId, expected: set<Status>, next: Status) returns (updated: bool)
      modifies this
      ensures updated == Matches(old(rows), id, expected)
      ensures rows == SetStatus(old(rows), id, expected, next)
    {
      updated := id in rows && rows[id].status in expected;
      if updated {
        rows := rows[id := rows[id].(status := next)];
      }
    }

    method UpdateOrderSubmitResult(id: OrderId, next: Status, brokerNo: Option<nat>, remaining: int)
      returns (updated: bool)
      modifies this
      ensures updated == Matches(old(rows), id, {Processing})
      ensures rows == SetSubmitResult(old(rows), id, next, brokerNo, remaining)
    {
      updated := id in rows && rows[id].status == Processing;
      if updated {
        rows := rows[id := rows[id].(status := next, brokerNo := brokerNo, remaining := remaining)];
      }
    }

    method UpdateOrderTrackingResult(id: OrderId, expected: set<Status>, next: Status,
                                     filled: int, remaining: int)
      returns (updated: bool)
      modifies this
      ensures updated == Matches(old(rows), id, expected)
      ensures rows == SetTracking(old(rows), id, expected, next, filled, remaining)
    {
      updated := id in rows && rows[id].status in expected;
      if updated {
        rows := rows[id := rows[id].(status := next, filled := filled, remaining := remaining)];
      }
    }

    method UpdateParentOrderAfterChild(id: OrderId, kind: Kind, filled: int, remaining: int, next: Status)
      returns (updated: bool)
      modifies this
      ensures updated == (id in old(rows) && FoldAllowed(kind, old(rows)[id].status))
      ensures rows == SetParent(old(rows), id, kind, filled, remaining, next)
    {
      updated := id in rows && (kind != Cancel || rows[id].status == Accepted || rows[id].status == PartialFilled);
      if updated {
        rows := rows[id := rows[id].(filled := filled, remaining := remaining, status := next)];
      }
    }

    /** Some order names the given one as its original. */
    method ExistsChildOrders(id: OrderId) returns (found: bool)
      ensures found <==> HasChild(rows, id)
    {
      found := exists c <- rows.Keys :: rows[c].original == Some(id);
    }
  }

  predicate HasChild(rows: Rows, id: OrderId) {
    exists c <- rows.Keys :: rows[c].original == Some(id)
  }
}
