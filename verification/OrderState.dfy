/** The order state machine: which moves exist, and why no order moves forever. */
module OrderState {
  import opened Wrappers

  datatype OrderStatus = Draft | PendingPayment | Paid | InPreparation | Ready | Completed | Cancelled | Expired | Refunded

  /** Every legal next status. */
  function OrderTransitions(from: OrderStatus): set<OrderStatus> {
    match from
    case Draft => {PendingPayment, Cancelled}
    case PendingPayment => {Paid, Expired, Cancelled}
    case Paid => {InPreparation, Refunded}
    case InPreparation => {Ready, Refunded}
    case Ready => {Completed, Refunded}
    case Completed => {Refunded}
    case Cancelled => {}
    case Expired => {}
    case Refunded => {}
  }

  predicate IsLegalTransition(from: OrderStatus, to: OrderStatus) {
    to in OrderTransitions(from)
  }

  /** The moves the kitchen display may ask for, and nothing else. */
  const STAFF_TRANSITIONS: seq<(OrderStatus, OrderStatus)> :=
    [(Paid, InPreparation), (InPreparation, Ready), (Ready, Completed)]

  predicate IsStaffTransition(from: OrderStatus, to: OrderStatus) {
    (from, to) in STAFF_TRANSITIONS
  }

  /** The statuses of an order that has taken money, whether or not it was given back. */
  predicate TookMoney(status: OrderStatus) {
    status in {Paid, InPreparation, Ready, Completed, Refunded}
  }

  /** How far along the machine a status lies. */
  function Rank(status: OrderStatus): nat {
    match status
    case Draft => 0
    case PendingPayment => 1
    case Paid => 2
    case InPreparation => 3
    case Ready => 4
    case Completed => 5
    case Cancelled => 6
    case Expired => 6
    case Refunded => 6
  }

  /** The kitchen takes an order that has been paid one step further at a time, and does not refund it. */
  lemma StaffMovesUp(from: OrderStatus, to: OrderStatus)
    ensures IsStaffTransition(from, to) <==> TookMoney(from) && TookMoney(to) && to != Refunded && Rank(to) == Rank(from) + 1
  {
    var t := STAFF_TRANSITIONS;
    assert t[0] == (Paid, InPreparation) && t[1] == (InPreparation, Ready) && t[2] == (Ready, Completed);
  }

  /** Every legal move: on to payment, through the kitchen, back out before payment, or a refund after it. */
  lemma LegalMoves(from: OrderStatus, to: OrderStatus)
    ensures IsLegalTransition(from, to) <==>
            || (from == Draft && to == PendingPayment)
            || (from == PendingPayment && to == Paid)
            || (from != Draft && from != PendingPayment && IsStaffTransition(from, to))
            || (!TookMoney(from) && Rank(from) < Rank(Paid) && to == Cancelled)
            || (from == PendingPayment && to == Expired)
            || (TookMoney(from) && from != Refunded && to == Refunded)
  {
    StaffMovesUp(from, to);
  }

  datatype ActorType = User | Device | System

  /** One row of an order's audit trail. `from` is absent on the row that records the creation. */
  datatype HistoryRow = HistoryRow(from: Option<OrderStatus>, to: OrderStatus, actor: ActorType, reason: Option<string>)

  predicate LinkOk(a: HistoryRow, b: HistoryRow) {
    b.from == Some(a.to) && IsLegalTransition(a.to, b.to)
  }

  /** One unbroken path of legal moves from a creation row to `current`. */
  predicate Trail(history: seq<HistoryRow>, current: OrderStatus) {
    && history != []
    && history[0].from == None && history[0].to in {Draft, PendingPayment}
    && history[|history| - 1].to == current
    && forall i :: 1 <= i < |history| ==> LinkOk(history[i - 1], history[i])
  }

  lemma TrailExtends(history: seq<HistoryRow>, current: OrderStatus, row: HistoryRow)
    requires Trail(history, current)
    requires row.from == Some(current) && IsLegalTransition(current, row.to)
    ensures Trail(history + [row], row.to)
  {
    var h := history + [row];
    forall i | 1 <= i < |h| ensures LinkOk(h[i - 1], h[i]) {
      if i < |history| {
        assert LinkOk(history[i - 1], history[i]);
      }
    }
  }

  /** Every move climbs, so an order moves at most six times and never revisits a status. */
  lemma {:induction false} TrailClimbs(history: seq<HistoryRow>, current: OrderStatus)
    requires Trail(history, current)
    ensures |history| - 1 <= Rank(current) - Rank(history[0].to)
    ensures |history| <= 7
    decreases |history|
  {
    if |history| > 1 {
      var init := history[..|history| - 1];
      var last := history[|history| - 1];
      assert LinkOk(history[|history| - 2], last);
      assert forall i :: 1 <= i < |init| ==> LinkOk(init[i - 1], init[i]) by {
        assert forall i :: 1 <= i < |init| ==> LinkOk(history[i - 1], history[i]);
      }
      TrailClimbs(init, init[|init| - 1].to);
    }
  }
}
