/**
 * The payment module's stateful core: the payment table, the store's orders
 * and their history, and the three flows that change them — sending a
 * customer to the gateway (redirect), settling one payment when the customer
 * returns or a notification arrives (process), and the sweep over every
 * pending payment (resolvePendingPayments).
 */
module Payments {
  import opened Wrappers
  import opened PaymentStatus
  import opened Gateway
  import opened Reconciliation
  import Php
  import Base64
  import Checkout

  /** An order of the store: the cart it was placed from, its customer and its current state. */
  datatype Order = Order(cartId: int, customerId: int, state: int)

  /** One entry of the order history; `withEmail` when the customer is notified. */
  datatype HistoryEntry = HistoryEntry(orderId: int, state: int, withEmail: bool)

  /** The column getPaymentPlaceToPayBy looks a payment up by, with the value sought. */
  datatype Column = ByReference(reference: string) | ByRequestId(requestId: int)

  predicate Matches(row: PaymentRow, column: Column) {
    match column
    case ByReference(reference) => row.reference == reference
    case ByRequestId(requestId) => row.requestId == requestId
  }

  /** PHP empty() on the value sought: "", "0" and 0 find nothing. */
  predicate EmptyValue(column: Column) {
    match column
    case ByReference(reference) => Php.Empty(reference)
    case ByRequestId(requestId) => requestId == 0
  }

  /** The first row matching `column`, searching from position `from`. */
  function FirstMatch(rows: seq<PaymentRow>, column: Column, from: nat): (r: Option<nat>)
    requires from <= |rows|
    ensures r.Some? ==>
      && from <= r.value < |rows| && Matches(rows[r.value], column)
      && (forall j :: from <= j < r.value ==> !Matches(rows[j], column))
    ensures r.None? ==> forall j :: from <= j < |rows| ==> !Matches(rows[j], column)
    decreases |rows| - from
  {
    if from == |rows| then None
    else if Matches(rows[from], column) then Some(from)
    else FirstMatch(rows, column, from + 1)
  }

  /** getPaymentPlaceToPayBy: the position of the first matching row, None for an empty value or no match. */
  function FindBy(rows: seq<PaymentRow>, column: Column): (r: Option<nat>)
    ensures EmptyValue(column) ==> r == None
    ensures r.Some? ==>
      && r.value < |rows| && Matches(rows[r.value], column)
      && (forall j :: 0 <= j < r.value ==> !Matches(rows[j], column))
    ensures r.None? && !EmptyValue(column) ==> forall j :: 0 <= j < |rows| ==> !Matches(rows[j], column)
  {
    if EmptyValue(column) then None else FirstMatch(rows, column, 0)
  }

  /** How process was reached: the return URL's encoded reference, a gateway notification, or neither. */
  datatype ProcessEntry =
    | ReturnFlow(encodedReference: string)
    | Notification(validSignature: bool, requestId: int)
    | NoEntry

  /** The payment process looks at: by decoded reference on return, by request id on notification. */
  function Locate(rows: seq<PaymentRow>, entry: ProcessEntry): (r: Option<nat>)
    ensures r.Some? ==> r.value < |rows|
    ensures entry.NoEntry? ==> r == None
  {
    match entry
    case ReturnFlow(encoded) =>
      var reference := Base64.Decode(encoded);
      if reference.None? then None else FindBy(rows, ByReference(reference.value))
    case Notification(validSignature, requestId) =>
      if validSignature then FindBy(rows, ByRequestId(requestId)) else None
    case NoEntry => None
  }

  /** Two tables of one length whose rows match the same columns give the same first match. */
  lemma {:induction false} FirstMatchSameMatches(rows: seq<PaymentRow>, other: seq<PaymentRow>, column: Column, from: nat)
    requires from <= |rows| == |other|
    requires forall j :: 0 <= j < |rows| ==> (Matches(rows[j], column) <==> Matches(other[j], column))
    ensures FirstMatch(rows, column, from) == FirstMatch(other, column, from)
    decreases |rows| - from
  {
    if from < |rows| && !Matches(rows[from], column) {
      FirstMatchSameMatches(rows, other, column, from + 1);
    }
  }

  /** The payment that follows `rows` holding no row with that reference is found by it, at the end. */
  lemma FindAppendedByReference(rows: seq<PaymentRow>, row: PaymentRow)
    requires !Php.Empty(row.reference)
    requires forall j :: 0 <= j < |rows| ==> rows[j].reference != row.reference
    ensures FindBy(rows + [row], ByReference(row.reference)) == Some(|rows|)
  {
    var all := rows + [row];
    assert Matches(all[|rows|], ByReference(row.reference));
    assert forall j :: 0 <= j < |rows| ==> all[j] == rows[j];
  }

  /** How process ends. */
  datatype ProcessOutcome =
    | InvalidNotification             // exception 501
    | NotFound                        // the payment is unknown
    | NotPending(paymentId: int)      // already settled; nothing is asked
    | Settled(paymentId: int, status: int)
    | Unsuccessful(message: string)   // exception 13
    | OrderMissing(cartId: int)       // exception 14
    | QueryFailed(message: string)    // the gateway query raised

  /** The payment process asks the gateway about: the located payment, when it is still pending. */
  function Asked(entry: ProcessEntry, rows: seq<PaymentRow>): (r: Option<PaymentRow>)
    ensures r.Some? <==> Locate(rows, entry).Some? && rows[Locate(rows, entry).value].status == PENDING
    ensures r.Some? ==> r.value == rows[Locate(rows, entry).value]
  {
    var found := Locate(rows, entry);
    if found.Some? && rows[found.value].status == PENDING then Some(rows[found.value]) else None
  }

  /** The reference decision of process, from the table, the cart's orders and the gateway's answers. */
  function Expected(entry: ProcessEntry, rows: seq<PaymentRow>, orderOfCart: map<int, int>,
                    query: int -> QueryOutcome): (r: ProcessOutcome)
    ensures entry.Notification? && !entry.validSignature ==> r == InvalidNotification
    ensures r.NotFound? <==> !(entry.Notification? && !entry.validSignature) && Locate(rows, entry).None?
    ensures r.NotPending? <==>
      Locate(rows, entry).Some? && rows[Locate(rows, entry).value].status != PENDING
    ensures r.Settled? ==>
      var row := rows[Locate(rows, entry).value];
      && Locate(rows, entry).Some? && row.status == PENDING && row.id == r.paymentId
      && row.cartId in orderOfCart
      && query(row.requestId).Answered? && query(row.requestId).info.successful
      && r.status == StatusOf(query(row.requestId).info)
    ensures var asked := Asked(entry, rows);
      r.Settled? <==>
        && asked.Some? && query(asked.value.requestId).Answered?
        && query(asked.value.requestId).info.successful && asked.value.cartId in orderOfCart
    ensures var asked := Asked(entry, rows);
      r.QueryFailed? <==> asked.Some? && query(asked.value.requestId).TransportError?
    ensures r.QueryFailed? ==> r.message == query(Asked(entry, rows).value.requestId).message
    ensures var asked := Asked(entry, rows);
      r.Unsuccessful? <==>
        asked.Some? && query(asked.value.requestId).Answered? && !query(asked.value.requestId).info.successful
    ensures r.Unsuccessful? ==> r.message == query(Asked(entry, rows).value.requestId).info.status.message
    ensures var asked := Asked(entry, rows);
      r.OrderMissing? <==>
        && asked.Some? && query(asked.value.requestId).Answered?
        && query(asked.value.requestId).info.successful && asked.value.cartId !in orderOfCart
    ensures r.OrderMissing? ==> r.cartId == Asked(entry, rows).value.cartId
  {
    if entry.Notification? && !entry.validSignature then InvalidNotification
    else match Locate(rows, entry)
      case None => NotFound
      case Some(k) =>
        var row := rows[k];
        if row.status != PENDING then NotPending(row.id)
        else match query(row.requestId)
          case TransportError(message) => QueryFailed(message)
          case Answered(info) =>
            if info.successful && row.cartId in orderOfCart then Settled(row.id, StatusOf(info))
            else if !info.successful then Unsuccessful(info.status.message)
            else OrderMissing(row.cartId)
  }

  /** Updating a payment keeps its reference and request id, so lookups find the same row. */
  lemma LocateAfterUpdate(rows: seq<PaymentRow>, paymentId: int, status: int, response: RedirectInformation,
                          entry: ProcessEntry)
    ensures Locate(UpdatedRows(rows, paymentId, status, response), entry) == Locate(rows, entry)
  {
    var updated := UpdatedRows(rows, paymentId, status, response);
    forall column: Column
      ensures FirstMatch(updated, column, 0) == FirstMatch(rows, column, 0)
    {
      FirstMatchSameMatches(updated, rows, column, 0);
    }
  }

  /**
   * process settles a payment at most once: after it settled one with a
   * final status, the same return or notification finds the payment no longer
   * pending and asks the gateway nothing.
   */
  lemma SettledPaymentIsNotProcessedAgain(entry: ProcessEntry, rows: seq<PaymentRow>, orderOfCart: map<int, int>,
                                          query: int -> QueryOutcome, later: int -> QueryOutcome)
    requires forall i :: 0 <= i < |rows| ==> rows[i].id == i + 1
    requires Expected(entry, rows, orderOfCart, query).Settled?
    requires Expected(entry, rows, orderOfCart, query).status != PENDING
    ensures var settled := Expected(entry, rows, orderOfCart, query);
      var info := query(rows[settled.paymentId - 1].requestId).info;
      Expected(entry, UpdatedRows(rows, settled.paymentId, settled.status, info), orderOfCart, later)
        == NotPending(settled.paymentId)
  {
    var settled := Expected(entry, rows, orderOfCart, query);
    var k := Locate(rows, entry).value;
    var info := query(rows[k].requestId).info;
    LocateAfterUpdate(rows, settled.paymentId, settled.status, info, entry);
  }

  /**
   * The payment redirect records is the one the customer's return finds: the
   * return URL's query parameter locates the appended row, provided no earlier
   * payment carries the same order reference.
   */
  lemma ReturnFindsRecordedPayment(rows: seq<PaymentRow>, row: PaymentRow, shopBaseUrl: string)
    requires Base64.IsBytes(row.reference) && !Php.Empty(row.reference)
    requires forall j :: 0 <= j < |rows| ==> rows[j].reference != row.reference
    ensures var url := Checkout.ReturnUrl(shopBaseUrl, row.reference);
      Locate(rows + [row], ReturnFlow(url[|Checkout.ReturnPrefix(shopBaseUrl)|..])) == Some(|rows|)
  {
    Checkout.ReturnUrlCarriesReference(shopBaseUrl, row.reference);
    FindAppendedByReference(rows, row);
  }

  /** The table after updateTransaction's UPDATE ... WHERE id_payment = paymentId, ids being positions plus one. */
  function UpdatedRows(rows: seq<PaymentRow>, paymentId: int, status: int, response: RedirectInformation): (r: seq<PaymentRow>)
    ensures |r| == |rows|
    ensures forall j :: 0 <= j < |rows| && j != paymentId - 1 ==> r[j] == rows[j]
    ensures 1 <= paymentId <= |rows| ==> r[paymentId - 1] == Project(rows[paymentId - 1], status, response)
  {
    if 1 <= paymentId <= |rows| then rows[paymentId - 1 := Project(rows[paymentId - 1], status, response)]
    else rows
  }

  /** The row insertPaymentPlaceToPay adds, with its defaults: no reason, conversion 1, authorization 000000. */
  function NewRow(id: int, requestId: int, cartId: int, currencyId: int, date: string, amount: int,
                  status: int, message: string, ipAddress: string, reference: string): PaymentRow {
    PaymentRow(id, cartId, currencyId, date, amount, status, "", message, "1", ipAddress, requestId,
               "000000", reference, "", "", "", "", "", None, "")
  }

  /** What the sweep leaves in a row: pending rows with a request id and an order take the gateway's answer. */
  function Swept(row: PaymentRow, query: int -> QueryOutcome, orderOfCart: map<int, int>): (r: PaymentRow)
    ensures row.status != PENDING || row.requestId == 0 ==> r == row
    ensures query(row.requestId).TransportError? ==> r == row
    ensures row.cartId !in orderOfCart ==> r == row
    ensures && row.status == PENDING && row.requestId != 0 && query(row.requestId).Answered?
            && row.cartId in orderOfCart
            ==> r == Project(row, StatusOf(query(row.requestId).info), query(row.requestId).info)
    ensures r.id == row.id && r.reference == row.reference && r.requestId == row.requestId
  {
    if row.status != PENDING || row.requestId == 0 then row
    else match query(row.requestId)
      case TransportError(_) => row
      case Answered(info) =>
        if row.cartId in orderOfCart then Project(row, StatusOf(info), info) else row
  }

  /** The request ids the sweep asks the gateway about, in table order. */
  function PendingRequestIds(rows: seq<PaymentRow>): (r: seq<int>)
    ensures |r| <= |rows|
    ensures forall q :: q in r <==>
      q != 0 && exists j :: 0 <= j < |rows| && rows[j].status == PENDING && rows[j].requestId == q
  {
    if |rows| == 0 then []
    else
      var last := rows[|rows| - 1];
      PendingRequestIds(rows[..|rows| - 1])
      + (if last.status == PENDING && last.requestId != 0 then [last.requestId] else [])
  }

  /** The request ids of a prefix one row longer are those of the prefix and of the added row. */
  lemma PendingRequestIdsStep(rows: seq<PaymentRow>, i: nat)
    requires i < |rows|
    ensures PendingRequestIds(rows[..i + 1]) == PendingRequestIds(rows[..i]) + PendingRequestIds([rows[i]])
  {
    assert rows[..i + 1][..i] == rows[..i];
    assert [rows[i]][..0] == [];
  }

  /**
   * The order move the sweep makes for one row: the order of the row's cart
   * and the state settleTransaction gives it, when the row is pending, has a
   * request id, is answered, has an order, and the order moves at all.
   */
  function SweepTransition(row: PaymentRow, query: int -> QueryOutcome, orderOfCart: map<int, int>,
                           orders: map<int, Order>, ids: OrderStateIds): (r: Option<(int, int)>)
    ensures r.Some? <==>
      && row.status == PENDING && row.requestId != 0 && query(row.requestId).Answered?
      && row.cartId in orderOfCart && orderOfCart[row.cartId] in orders
      && OrderTransition(orders[orderOfCart[row.cartId]].state, StatusOf(query(row.requestId).info), ids).Some?
    ensures r.Some? ==>
      && r.value.0 == orderOfCart[row.cartId]
      && Some(r.value.1) == OrderTransition(orders[r.value.0].state, StatusOf(query(row.requestId).info), ids)
  {
    if row.status != PENDING || row.requestId == 0 || query(row.requestId).TransportError?
      || row.cartId !in orderOfCart || orderOfCart[row.cartId] !in orders
    then None
    else
      var orderId := orderOfCart[row.cartId];
      var next := OrderTransition(orders[orderId].state, StatusOf(query(row.requestId).info), ids);
      if next.Some? then Some((orderId, next.value)) else None
  }

  /** The orders after one move: the moved order takes its new state, nothing else changes. */
  function Moved(orders: map<int, Order>, move: Option<(int, int)>): (r: map<int, Order>)
    ensures r.Keys == orders.Keys
    ensures forall o :: o in orders && (move.None? || move.value.0 != o) ==> r[o] == orders[o]
    ensures move.Some? && move.value.0 in orders ==> r[move.value.0] == orders[move.value.0].(state := move.value.1)
  {
    if move.Some? && move.value.0 in orders then orders[move.value.0 := orders[move.value.0].(state := move.value.1)]
    else orders
  }

  /** The history entry one move writes, notifying the customer. */
  function Logged(move: Option<(int, int)>): seq<HistoryEntry> {
    if move.Some? then [HistoryEntry(move.value.0, move.value.1, true)] else []
  }

  /**
   * The orders after the sweep has settled `rows` in table order, starting
   * from `orders`: only states change, and a paid order stays paid.
   */
  function SweptOrders(rows: seq<PaymentRow>, query: int -> QueryOutcome, orderOfCart: map<int, int>,
                       orders: map<int, Order>, ids: OrderStateIds): (r: map<int, Order>)
    ensures r.Keys == orders.Keys
    ensures forall o :: o in orders ==> r[o].cartId == orders[o].cartId && r[o].customerId == orders[o].customerId
    ensures forall o :: o in orders && orders[o].state == ids.payment ==> r[o].state == ids.payment
  {
    if |rows| == 0 then orders
    else
      var before := SweptOrders(rows[..|rows| - 1], query, orderOfCart, orders, ids);
      Moved(before, SweepTransition(rows[|rows| - 1], query, orderOfCart, before, ids))
  }

  /** The history entries the sweep writes while settling `rows`: one notifying entry per order move. */
  function SweptHistory(rows: seq<PaymentRow>, query: int -> QueryOutcome, orderOfCart: map<int, int>,
                        orders: map<int, Order>, ids: OrderStateIds): (r: seq<HistoryEntry>)
    ensures |r| <= |rows|
    ensures forall k :: 0 <= k < |r| ==> r[k].orderId in orders && r[k].withEmail
  {
    if |rows| == 0 then []
    else
      var prefix := rows[..|rows| - 1];
      SweptHistory(prefix, query, orderOfCart, orders, ids)
      + Logged(SweepTransition(rows[|rows| - 1], query, orderOfCart, SweptOrders(prefix, query, orderOfCart, orders, ids), ids))
  }

  /** Settling one more row of the table: its move applied to the orders and logged after the history so far. */
  lemma SweptPrefixStep(rows: seq<PaymentRow>, i: nat, query: int -> QueryOutcome, orderOfCart: map<int, int>,
                        orders: map<int, Order>, ids: OrderStateIds)
    requires i < |rows|
    ensures var before := SweptOrders(rows[..i], query, orderOfCart, orders, ids);
      var move := SweepTransition(rows[i], query, orderOfCart, before, ids);
      && SweptOrders(rows[..i + 1], query, orderOfCart, orders, ids) == Moved(before, move)
      && SweptHistory(rows[..i + 1], query, orderOfCart, orders, ids)
         == SweptHistory(rows[..i], query, orderOfCart, orders, ids) + Logged(move)
  {
    assert rows[..i + 1][..i] == rows[..i] && rows[..i + 1][i] == rows[i];
  }

  /** Every order whose state the sweep changed has a notifying history entry with its final state. */
  lemma {:induction false} SweptChangesAreLogged(rows: seq<PaymentRow>, query: int -> QueryOutcome,
                                                 orderOfCart: map<int, int>, orders: map<int, Order>,
                                                 ids: OrderStateIds, o: int)
    requires o in orders
    requires SweptOrders(rows, query, orderOfCart, orders, ids)[o].state != orders[o].state
    ensures HistoryEntry(o, SweptOrders(rows, query, orderOfCart, orders, ids)[o].state, true)
            in SweptHistory(rows, query, orderOfCart, orders, ids)
  {
    var prefix := rows[..|rows| - 1];
    var before := SweptOrders(prefix, query, orderOfCart, orders, ids);
    var step := SweepTransition(rows[|rows| - 1], query, orderOfCart, before, ids);
    if step.None? || step.value.0 != o {
      SweptChangesAreLogged(prefix, query, orderOfCart, orders, ids, o);
    }
  }

  /**
   * The sweep's state after its first `i` turns over `snapshot`: those rows
   * are swept, the rest untouched, their request ids asked, and the orders
   * and history are those settling them in order gives.
   */
  ghost predicate SweepInvariant(snapshot: seq<PaymentRow>, i: nat, query: int -> QueryOutcome,
                                 orderOfCart: map<int, int>, ids: OrderStateIds,
                                 startQueries: seq<int>, startOrders: map<int, Order>, startHistory: seq<HistoryEntry>,
                                 rows: seq<PaymentRow>, orders: map<int, Order>, history: seq<HistoryEntry>,
                                 queries: seq<int>)
  {
    && i <= |snapshot| == |rows|
    && (forall j :: 0 <= j < i ==> rows[j] == Swept(snapshot[j], query, orderOfCart))
    && (forall j :: i <= j < |rows| ==> rows[j] == snapshot[j])
    && queries == startQueries + PendingRequestIds(snapshot[..i])
    && orders == SweptOrders(snapshot[..i], query, orderOfCart, startOrders, ids)
    && history == startHistory + SweptHistory(snapshot[..i], query, orderOfCart, startOrders, ids)
  }

  /** A turn that settles row `i` as the sweep does carries the invariant to `i + 1`. */
  lemma SweepInvariantStep(snapshot: seq<PaymentRow>, i: nat, query: int -> QueryOutcome,
                           orderOfCart: map<int, int>, ids: OrderStateIds,
                           startQueries: seq<int>, startOrders: map<int, Order>, startHistory: seq<HistoryEntry>,
                           rows: seq<PaymentRow>, orders: map<int, Order>, history: seq<HistoryEntry>,
                           queries: seq<int>)
    requires i < |snapshot|
    requires SweepInvariant(snapshot, i, query, orderOfCart, ids, startQueries, startOrders, startHistory,
                            rows, orders, history, queries)
    ensures var move := SweepTransition(rows[i], query, orderOfCart, orders, ids);
      SweepInvariant(snapshot, i + 1, query, orderOfCart, ids, startQueries, startOrders, startHistory,
                     rows[i := Swept(rows[i], query, orderOfCart)], Moved(orders, move),
                     history + Logged(move), queries + PendingRequestIds([rows[i]]))
  {
    PendingRequestIdsStep(snapshot, i);
    SweptPrefixStep(snapshot, i, query, orderOfCart, startOrders, ids);
  }

  /** How the sweep ends. */
  datatype SweepOutcome =
    | NotAllowed                                 // neither from the console nor in debug mode
    | Finished
    | Aborted(position: nat, message: string)    // a gateway query raised; the rest is not visited

  /** The customer's cart as redirect loads it; None where the platform object did not load. */
  datatype Cart = Cart(
    id: int,
    customerId: int,
    currencyId: int,
    total: int,
    totalWithoutTaxes: int,
    locale: string,
    customerEmail: Option<string>,
    invoiceAddressLoaded: bool,
    delivery: Option<Checkout.Address>,
    currencyIso: Option<string>)

  /** The request redirect runs in: the client's address and agent, the shop URL and the clock. */
  datatype Visit = Visit(ipAddress: string, userAgent: string, shopBaseUrl: string, now: int, nowText: string)

  /** How redirect ends. */
  datatype RedirectOutcome =
    | NoCart                          // sent to authentication
    | PendingPaymentExists            // sent to authentication
    | Rejected(code: int)             // exception 301, 302 or 303
    | ToGateway(processUrl: string)
    | ToOrderStatus(message: string)  // the gateway refused the session
    | SessionFailed(message: string)  // the session request raised

  const INVALID_CUSTOMER: int := 301
  const INVALID_ADDRESS: int := 302
  const INVALID_CURRENCY: int := 303

  class PlacetoPayPayment {
    /** The payment table; row i has id_payment i + 1. */
    var rows: seq<PaymentRow>
    var orders: map<int, Order>
    /** The order placed from each cart. */
    var orderOfCart: map<int, int>
    var history: seq<HistoryEntry>
    /** The order the last validateOrder created. */
    var currentOrder: int
    var nextOrderId: int
    /** The request ids asked of the gateway, in order. */
    ghost var queries: seq<int>
    const ids: OrderStateIds

    ghost predicate Valid()
      reads this
    {
      && (forall i :: 0 <= i < |rows| ==> rows[i].id == i + 1)
      && (forall c :: c in orderOfCart ==> orderOfCart[c] in orders && orders[orderOfCart[c]].cartId == c)
      && (forall o :: o in orders ==> 0 < o < nextOrderId)
      && 0 < nextOrderId
    }

    constructor (ids: OrderStateIds)
      ensures Valid()
      ensures this.ids == ids
      ensures rows == [] && orders == map[] && orderOfCart == map[] && history == [] && queries == []
    {
      this.ids := ids;
      rows := [];
      orders := map[];
      orderOfCart := map[];
      history := [];
      currentOrder := 0;
      nextOrderId := 1;
      queries := [];
    }

    /** getLastPendingTransaction is not empty: some order of the customer has a pending payment. */
    predicate HasPendingPayment(customerId: int)
      reads this
    {
      exists i, o :: 0 <= i < |rows| && o in orders && rows[i].status == PENDING
        && orders[o].cartId == rows[i].cartId && orders[o].customerId == customerId
    }

    /** insertPaymentPlaceToPay: append a row with the next id and the insert defaults. */
    method InsertPayment(requestId: int, cartId: int, currencyId: int, amount: int, status: int,
                         message: string, ipAddress: string, reference: string, date: string)
      requires Valid()
      modifies this`rows
      ensures Valid()
      ensures rows == old(rows) + [NewRow(|old(rows)| + 1, requestId, cartId, currencyId, date, amount,
                                          status, message, ipAddress, reference)]
    {
      rows := rows + [NewRow(|rows| + 1, requestId, cartId, currencyId, date, amount,
                             status, message, ipAddress, reference)];
    }

    /** updateTransaction: project the gateway answer onto the payment with this id; no row, no change. */
    method UpdateTransaction(paymentId: int, status: int, response: RedirectInformation)
      requires Valid()
      modifies this`rows
      ensures Valid()
      ensures rows == UpdatedRows(old(rows), paymentId, status, response)
    {
      if 1 <= paymentId <= |rows| {
        rows := rows[paymentId - 1 := Project(rows[paymentId - 1], status, response)];
      }
    }

    /**
     * settleTransaction: move the order as OrderTransition says, writing a
     * history entry that notifies the customer, then update the payment.
     */
    method SettleTransaction(paymentId: int, status: int, orderId: int, response: RedirectInformation)
      requires Valid() && orderId in orders
      modifies this`rows, this`orders, this`history
      ensures Valid()
      ensures var next := OrderTransition(old(orders[orderId].state), status, ids);
        && orders == (if next.Some? then old(orders)[orderId := old(orders[orderId]).(state := next.value)] else old(orders))
        && history == old(history) + (if next.Some? then [HistoryEntry(orderId, next.value, true)] else [])
      ensures rows == UpdatedRows(old(rows), paymentId, status, response)
    {
      var next := OrderTransition(orders[orderId].state, status, ids);
      if next.Some? {
        orders := orders[orderId := orders[orderId].(state := next.value)];
        history := history + [HistoryEntry(orderId, next.value, true)];
      }
      UpdateTransaction(paymentId, status, response);
    }

    /** updateCurrentOrderWithError: the order just created moves to the error state, without notifying. */
    method UpdateCurrentOrderWithError()
      requires Valid() && currentOrder in orders
      modifies this`orders, this`history
      ensures Valid()
      ensures orders == old(orders)[currentOrder := old(orders[currentOrder]).(state := ids.error)]
      ensures history == old(history) + [HistoryEntry(currentOrder, ids.error, false)]
    {
      orders := orders[currentOrder := orders[currentOrder].(state := ids.error)];
      history := history + [HistoryEntry(currentOrder, ids.error, false)];
    }

    /** The platform's validateOrder: a new order for the cart, in the given state, becomes the current order. */
    method ValidateOrder(cartId: int, customerId: int, state: int)
      requires Valid()
      modifies this`orders, this`orderOfCart, this`history, this`currentOrder, this`nextOrderId
      ensures Valid()
      ensures currentOrder == old(nextOrderId) && currentOrder !in old(orders)
      ensures orders == old(orders)[currentOrder := Order(cartId, customerId, state)]
      ensures orderOfCart == old(orderOfCart)[cartId := currentOrder]
      ensures history == old(history) + [HistoryEntry(currentOrder, state, true)]
      ensures nextOrderId == old(nextOrderId) + 1
    {
      currentOrder := nextOrderId;
      orders := orders[currentOrder := Order(cartId, customerId, state)];
      orderOfCart := orderOfCart[cartId := currentOrder];
      history := history + [HistoryEntry(currentOrder, state, true)];
      nextOrderId := nextOrderId + 1;
    }

    /**
     * process: find the payment, and when it is still pending ask the gateway
     * and settle it against the order of its cart.
     */
    method Process(entry: ProcessEntry, query: int -> QueryOutcome) returns (outcome: ProcessOutcome)
      requires Valid()
      modifies this`rows, this`orders, this`history, this`queries
      ensures Valid()
      ensures outcome == Expected(entry, old(rows), old(orderOfCart), query)
      ensures outcome.Settled? ==>
        var orderId := old(orderOfCart)[old(rows)[outcome.paymentId - 1].cartId];
        var info := query(old(rows)[outcome.paymentId - 1].requestId).info;
        var next := OrderTransition(old(orders[orderId].state), outcome.status, ids);
        && rows == UpdatedRows(old(rows), outcome.paymentId, outcome.status, info)
        && orders == (if next.Some? then old(orders)[orderId := old(orders[orderId]).(state := next.value)] else old(orders))
        && history == old(history) + (if next.Some? then [HistoryEntry(orderId, next.value, true)] else [])
      ensures !outcome.Settled? ==> rows == old(rows) && orders == old(orders) && history == old(history)
      ensures outcome.InvalidNotification? || outcome.NotFound? || outcome.NotPending? ==> queries == old(queries)
      ensures !(outcome.InvalidNotification? || outcome.NotFound? || outcome.NotPending?) ==>
        queries == old(queries) + [old(rows)[Locate(old(rows), entry).value].requestId]
    {
      if entry.Notification? && !entry.validSignature {
        return InvalidNotification;
      }
      var found := Locate(rows, entry);
      if found.None? {
        return NotFound;
      }
      var row := rows[found.value];
      if row.status != PENDING {
        return NotPending(row.id);
      }
      queries := queries + [row.requestId];
      var answer := query(row.requestId);
      if answer.TransportError? {
        return QueryFailed(answer.message);
      }
      var info := answer.info;
      if info.successful && row.cartId in orderOfCart {
        var status := StatusOf(info);
        SettleTransaction(row.id, status, orderOfCart[row.cartId], info);
        outcome := Settled(row.id, status);
      } else if !info.successful {
        outcome := Unsuccessful(info.status.message);
      } else {
        outcome := OrderMissing(row.cartId);
      }
    }

    /**
     * resolvePendingPayments: walk the table in order; every pending payment
     * with a request id is asked of the gateway and, when its cart has an
     * order, settled with the status the answer gives, successful or not. A
     * query that raises ends the sweep.
     */
    method ResolvePendingPayments(fromConsole: bool, debug: bool, query: int -> QueryOutcome)
      returns (outcome: SweepOutcome)
      requires Valid()
      modifies this`rows, this`orders, this`history, this`queries
      ensures Valid()
      ensures !fromConsole && !debug ==> outcome == NotAllowed
      ensures outcome == NotAllowed ==>
        rows == old(rows) && orders == old(orders) && history == old(history) && queries == old(queries)
      ensures |rows| == |old(rows)|
      ensures outcome.Finished? ==>
        && (forall j :: 0 <= j < |rows| ==> rows[j] == Swept(old(rows)[j], query, old(orderOfCart)))
        && queries == old(queries) + PendingRequestIds(old(rows))
      ensures outcome.Aborted? ==>
        var at := outcome.position;
        && at < |rows| && old(rows)[at].status == PENDING && old(rows)[at].requestId != 0
        && query(old(rows)[at].requestId) == TransportError(outcome.message)
        && (forall j :: 0 <= j < at ==> rows[j] == Swept(old(rows)[j], query, old(orderOfCart)))
        && (forall j :: at <= j < |rows| ==> rows[j] == old(rows)[j])
        && queries == old(queries) + PendingRequestIds(old(rows)[..at + 1])
      ensures outcome.Finished? ==>
        && orders == SweptOrders(old(rows), query, old(orderOfCart), old(orders), ids)
        && history == old(history) + SweptHistory(old(rows), query, old(orderOfCart), old(orders), ids)
      ensures outcome.Aborted? ==>
        && orders == SweptOrders(old(rows)[..outcome.position], query, old(orderOfCart), old(orders), ids)
        && history == old(history) + SweptHistory(old(rows)[..outcome.position], query, old(orderOfCart), old(orders), ids)
      ensures orders.Keys == old(orders).Keys
      ensures forall o :: o in old(orders) && old(orders)[o].state == ids.payment ==> orders[o].state == ids.payment
    {
      if !fromConsole && !debug {
        return NotAllowed;
      }
      var snapshot := rows;
      var i := 0;
      while i < |snapshot|
        invariant Valid()
        invariant i <= |snapshot|
        invariant SweptUpTo(snapshot, i, query, old(queries), old(orders), old(history))
      {
        var failure := AdvanceSweep(snapshot, i, query, old(queries), old(orders), old(history));
        if failure.Some? {
          return Aborted(i, failure.value);
        }
        i := i + 1;
      }
      assert snapshot[..i] == snapshot;
      outcome := Finished;
    }

    /** The sweep's invariant over this payment module's state. */
    ghost predicate SweptUpTo(snapshot: seq<PaymentRow>, i: nat, query: int -> QueryOutcome,
                              startQueries: seq<int>, startOrders: map<int, Order>, startHistory: seq<HistoryEntry>)
      reads this
    {
      SweepInvariant(snapshot, i, query, orderOfCart, ids, startQueries, startOrders, startHistory,
                     rows, orders, history, queries)
    }

    /** One turn of the sweep carries its state from the first `i` rows of `snapshot` to the first `i + 1`. */
    method AdvanceSweep(ghost snapshot: seq<PaymentRow>, i: nat, query: int -> QueryOutcome,
                        ghost startQueries: seq<int>, ghost startOrders: map<int, Order>,
                        ghost startHistory: seq<HistoryEntry>)
      returns (failure: Option<string>)
      requires Valid() && i < |snapshot|
      requires SweptUpTo(snapshot, i, query, startQueries, startOrders, startHistory)
      modifies this`rows, this`orders, this`history, this`queries
      ensures Valid()
      ensures failure.None? ==> SweptUpTo(snapshot, i + 1, query, startQueries, startOrders, startHistory)
      ensures failure.Some? ==>
        && rows == old(rows)
        && snapshot[i].status == PENDING && snapshot[i].requestId != 0
        && query(snapshot[i].requestId) == TransportError(failure.value)
        && queries == startQueries + PendingRequestIds(snapshot[..i + 1])
        && orders == old(orders) && history == old(history)
    {
      SweepInvariantStep(snapshot, i, query, orderOfCart, ids, startQueries, startOrders, startHistory,
                         rows, orders, history, queries);
      PendingRequestIdsStep(snapshot, i);
      failure := ResolveOne(i, query);
    }

    /**
     * One turn of the sweep: the payment at position `i` is asked about when
     * it is pending and has a request id, and settled when its cart has an
     * order; a query that raises changes nothing but the query log.
     */
    method ResolveOne(i: nat, query: int -> QueryOutcome) returns (failure: Option<string>)
      requires Valid() && i < |rows|
      modifies this`rows, this`orders, this`history, this`queries
      ensures Valid()
      ensures var row := old(rows)[i];
        var move := SweepTransition(row, query, orderOfCart, old(orders), ids);
        failure.None? ==>
          && rows == old(rows)[i := Swept(row, query, orderOfCart)]
          && orders == Moved(old(orders), move)
          && history == old(history) + Logged(move)
          && queries == old(queries) + PendingRequestIds([row])
      ensures failure.Some? ==>
        && rows == old(rows) && orders == old(orders) && history == old(history)
        && old(rows)[i].status == PENDING && old(rows)[i].requestId != 0
        && query(old(rows)[i].requestId) == TransportError(failure.value)
        && queries == old(queries) + PendingRequestIds([old(rows)[i]])
    {
      var row := rows[i];
      assert PendingRequestIds([row]) == (if row.status == PENDING && row.requestId != 0 then [row.requestId] else []) by {
        assert [row][..0] == [];
      }
      if row.status != PENDING || row.requestId == 0 {
        return None;
      }
      queries := queries + [row.requestId];
      var answer := query(row.requestId);
      if answer.TransportError? {
        return Some(answer.message);
      }
      var status := StatusOf(answer.info);
      if row.cartId !in orderOfCart {
        return None;
      }
      SettleTransaction(row.id, status, orderOfCart[row.cartId], answer.info);
      failure := None;
    }

    /**
     * redirect: check the cart, create the order in the module's waiting
     * state, ask the gateway for a session and record the payment; a refused
     * session records a failed payment and a raised one records nothing, and
     * both move the order to the error state.
     */
    method Redirect(cart: Cart, visit: Visit, options: Checkout.StoreOptions, allowPendingPurchases: bool,
                    orderReference: string, gateway: Checkout.SessionRequest -> SessionOutcome)
      returns (outcome: RedirectOutcome, sent: Option<Checkout.SessionRequest>)
      requires Valid()
      requires Base64.IsBytes(orderReference)
      modifies this`rows, this`orders, this`orderOfCart, this`history, this`currentOrder, this`nextOrderId
      ensures Valid()
      ensures cart.id == 0 ==> outcome == NoCart
      ensures cart.id != 0 && old(HasPendingPayment(cart.customerId)) && !allowPendingPurchases ==>
        outcome == PendingPaymentExists
      ensures outcome.NoCart? || outcome.PendingPaymentExists? || outcome.Rejected? ==>
        && sent == None && rows == old(rows) && orders == old(orders) && orderOfCart == old(orderOfCart)
        && history == old(history)
      ensures outcome.Rejected? ==>
        (outcome.code == INVALID_CUSTOMER <==> cart.customerEmail.None?)
        && (outcome.code == INVALID_ADDRESS <==>
              cart.customerEmail.Some? && (!cart.invoiceAddressLoaded || cart.delivery.None?))
        && (outcome.code == INVALID_CURRENCY <==>
              cart.customerEmail.Some? && cart.invoiceAddressLoaded && cart.delivery.Some? && cart.currencyIso.None?)
      ensures outcome.Rejected? <==>
        && cart.id != 0 && !(old(HasPendingPayment(cart.customerId)) && !allowPendingPurchases)
        && (cart.customerEmail.None? || !cart.invoiceAddressLoaded || cart.delivery.None? || cart.currencyIso.None?)
      ensures sent.Some? <==> !(outcome.NoCart? || outcome.PendingPaymentExists? || outcome.Rejected?)
      ensures sent.Some? ==>
        && currentOrder == old(nextOrderId) && currentOrder !in old(orders)
        && orderOfCart == old(orderOfCart)[cart.id := currentOrder]
        && currentOrder in orders && orders[currentOrder].cartId == cart.id
        && orders[currentOrder].customerId == cart.customerId
        && sent.value.returnUrl == Checkout.ReturnUrl(visit.shopBaseUrl, orderReference)
        && sent.value.payment.reference == orderReference
        && sent.value.payment.amount.total == cart.total
        && sent.value.buyer.email == cart.customerEmail.value
      ensures sent.Some? ==> nextOrderId == old(nextOrderId) + 1
      ensures sent.Some? ==>
        var created := HistoryEntry(currentOrder, ids.placetopay, true);
        var failed := HistoryEntry(currentOrder, ids.error, false);
        match gateway(sent.value)
        case Created(response) =>
          if response.successful then
            && orders == old(orders)[currentOrder := Order(cart.id, cart.customerId, ids.placetopay)]
            && history == old(history) + [created]
          else
            && orders == old(orders)[currentOrder := Order(cart.id, cart.customerId, ids.error)]
            && history == old(history) + [created, failed]
        case SessionTransportError(_) =>
          && orders == old(orders)[currentOrder := Order(cart.id, cart.customerId, ids.error)]
          && history == old(history) + [created, failed]
      ensures sent.Some? ==>
        match gateway(sent.value)
        case Created(response) =>
          if response.successful then
            && outcome == ToGateway(response.processUrl)
            && orders[currentOrder].state == ids.placetopay
            && rows == old(rows) + [NewRow(|old(rows)| + 1, response.requestId, cart.id, cart.currencyId,
                                           visit.nowText, cart.total, PENDING, response.message,
                                           visit.ipAddress, orderReference)]
          else
            && outcome == ToOrderStatus(response.message)
            && orders[currentOrder].state == ids.error
            && rows == old(rows) + [NewRow(|old(rows)| + 1, 0, cart.id, cart.currencyId,
                                           visit.nowText, 0, FAILED, response.message,
                                           visit.ipAddress, orderReference)]
        case SessionTransportError(message) =>
          && outcome == SessionFailed(message)
          && orders[currentOrder].state == ids.error
          && rows == old(rows)
    {
      sent := None;
      if cart.id == 0 {
        return NoCart, sent;
      }
      if HasPendingPayment(cart.customerId) && !allowPendingPurchases {
        return PendingPaymentExists, sent;
      }
      if cart.customerEmail.None? {
        return Rejected(INVALID_CUSTOMER), sent;
      }
      if !cart.invoiceAddressLoaded || cart.delivery.None? {
        return Rejected(INVALID_ADDRESS), sent;
      }
      if cart.currencyIso.None? {
        return Rejected(INVALID_CURRENCY), sent;
      }

      ValidateOrder(cart.id, cart.customerId, ids.placetopay);
      var returnUrl := Checkout.ReturnUrl(visit.shopBaseUrl, orderReference);
      var request := Checkout.BuildRequest(
        cart.locale, returnUrl, visit.ipAddress, visit.userAgent, visit.now,
        cart.customerEmail.value, cart.delivery.value, orderReference, cart.currencyIso.value,
        cart.total, cart.totalWithoutTaxes, options);
      sent := Some(request);

      var session := gateway(request);
      if session.SessionTransportError? {
        UpdateCurrentOrderWithError();
        return SessionFailed(session.message), sent;
      }
      var response := session.response;
      if response.successful {
        InsertPayment(response.requestId, cart.id, cart.currencyId, cart.total, PENDING,
                      response.message, visit.ipAddress, orderReference, visit.nowText);
        outcome := ToGateway(response.processUrl);
      } else {
        UpdateCurrentOrderWithError();
        InsertPayment(0, cart.id, cart.currencyId, 0, FAILED,
                      response.message, visit.ipAddress, orderReference, visit.nowText);
        outcome := ToOrderStatus(response.message);
      }
    }
  }
}
