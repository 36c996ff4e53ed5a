/**
 * The reconciliation rules of the payment module: the local status derived
 * from a gateway answer, the order state a settlement writes, and how an
 * answer is projected onto a payment row.
 */
module Reconciliation {
  import opened Wrappers
  import opened PaymentStatus
  import opened Gateway
  import Installments
  import Php

  /** getStatusPayment: approved only on a successful answer; rejected whenever the status says so; pending otherwise. */
  function StatusOf(response: RedirectInformation): (r: int)
    ensures r == APPROVED <==> response.successful && response.status.approved
    ensures r == REJECTED <==> response.status.rejected && !(response.successful && response.status.approved)
    ensures r == PENDING <==> !response.status.rejected && !(response.successful && response.status.approved)
    ensures r != FAILED && r != DUPLICATE
  {
    if response.successful then
      if response.status.approved then APPROVED
      else if response.status.rejected then REJECTED
      else PENDING
    else if response.status.rejected then REJECTED
    else PENDING
  }

  /** getStatusDescription: the short status key shown to the buyer and its text (translation left out). */
  function StatusDescription(status: int): (r: (string, string))
    ensures r.0 == "ok" <==> status == APPROVED || status == DUPLICATE
    ensures r.0 == "fail" <==> status == FAILED
    ensures r.0 == "rejected" <==> status == REJECTED
    ensures r.0 == "pending" <==> status !in {APPROVED, DUPLICATE, FAILED, REJECTED}
  {
    if status == APPROVED || status == DUPLICATE then ("ok", "Completed payment")
    else if status == FAILED then ("fail", "Failed payment")
    else if status == REJECTED then ("rejected", "Rejected payment")
    else ("pending", "Pending payment")
  }

  /** The store's configured order-state identifiers. */
  datatype OrderStateIds = OrderStateIds(payment: int, error: int, canceled: int, placetopay: int)

  /**
   * The order state settleTransaction writes to the order history, or None
   * when it writes no history entry.
   */
  function OrderTransition(current: int, status: int, ids: OrderStateIds): Option<int> {
    if current == ids.payment then None
    else if status == FAILED || status == REJECTED then
      if current == ids.error || current == ids.canceled then None
      else if status == FAILED then Some(ids.error)
      else Some(ids.canceled)
    else if status == APPROVED || status == DUPLICATE then Some(ids.payment)
    else None
  }

  /** A paid order is never moved, whatever the status. */
  lemma PaidOrderIsFinal(status: int, ids: OrderStateIds)
    ensures OrderTransition(ids.payment, status, ids) == None
  {
  }

  /** Every case of the settlement switch, for an order that is not paid yet. */
  lemma OrderTransitionCases(current: int, status: int, ids: OrderStateIds)
    requires current != ids.payment
    ensures status == FAILED && current != ids.error && current != ids.canceled ==>
      OrderTransition(current, status, ids) == Some(ids.error)
    ensures status == REJECTED && current != ids.error && current != ids.canceled ==>
      OrderTransition(current, status, ids) == Some(ids.canceled)
    ensures (status == FAILED || status == REJECTED) && (current == ids.error || current == ids.canceled) ==>
      OrderTransition(current, status, ids) == None
    ensures status == APPROVED || status == DUPLICATE ==>
      OrderTransition(current, status, ids) == Some(ids.payment)
    ensures status == PENDING ==> OrderTransition(current, status, ids) == None
  {
  }

  /**
   * Settling the same status a second time writes no further history entry:
   * the first settlement moved the order to a state the guard recognises.
   */
  lemma SecondSettlementWritesNothing(current: int, status: int, ids: OrderStateIds)
    requires OrderTransition(current, status, ids).Some?
    ensures OrderTransition(OrderTransition(current, status, ids).value, status, ids) == None
  {
  }

  /** str_replace('*', '', s). */
  function RemoveStars(s: string): (r: string)
    ensures |r| <= |s|
  {
    if s == [] then []
    else if s[0] == '*' then RemoveStars(s[1..])
    else [s[0]] + RemoveStars(s[1..])
  }

  /** A single character: a star is dropped, anything else is kept. */
  lemma RemoveStarsSingle(c: char)
    ensures RemoveStars([c]) == if c == '*' then [] else [c]
  {
    assert [c][1..] == [];
  }

  /** Removing stars works piece by piece, keeping the order of what is left. */
  lemma {:induction false} RemoveStarsAppend(a: string, b: string)
    ensures RemoveStars(a + b) == RemoveStars(a) + RemoveStars(b)
  {
    if a != [] {
      assert (a + b)[0] == a[0] && (a + b)[1..] == a[1..] + b;
      RemoveStarsAppend(a[1..], b);
    } else {
      assert a + b == b;
    }
  }

  /** No '*' is left and every other character is kept: removing again changes nothing. */
  lemma {:induction false} RemoveStarsClean(s: string)
    ensures forall i :: 0 <= i < |RemoveStars(s)| ==> RemoveStars(s)[i] != '*'
    ensures RemoveStars(RemoveStars(s)) == RemoveStars(s)
    ensures (forall i :: 0 <= i < |s| ==> s[i] != '*') ==> RemoveStars(s) == s
  {
    if s != [] {
      RemoveStarsClean(s[1..]);
      if s[0] != '*' {
        var rest := RemoveStars(s[1..]);
        assert RemoveStars(s) == [s[0]] + rest;
        assert ([s[0]] + rest)[1..] == rest;
        assert (forall i :: 0 <= i < |s| ==> s[i] != '*') ==> (forall i :: 0 <= i < |s[1..]| ==> s[1..][i] != '*');
      }
    }
  }

  /** One row of the payment table. */
  datatype PaymentRow = PaymentRow(
    id: int,
    cartId: int,
    currencyId: int,
    date: string,
    amount: int,
    status: int,
    reason: string,
    reasonDescription: string,
    conversion: string,
    ipAddress: string,
    requestId: int,
    authCode: string,
    reference: string,
    franchise: string,
    franchiseName: string,
    bank: string,
    receipt: string,
    payerEmail: string,
    installments: Option<int>,
    lastDigits: string)

  /** The last transaction and its status, when it exists, has a status and is successful. */
  function Settlement(response: RedirectInformation): Option<(Transaction, Status)> {
    if response.lastTransaction.Some?
      && response.lastTransaction.value.status.Some?
      && response.lastTransaction.value.successful
    then Some((response.lastTransaction.value, response.lastTransaction.value.status.value))
    else None
  }

  /** The payer e-mail echoed by the gateway, when the echoed request carries a non-empty one. */
  function EchoedEmail(response: RedirectInformation): Option<string> {
    if response.request.Some? && response.request.value.payer.Some?
      && !Php.Empty(response.request.value.payer.value.email)
    then Some(response.request.value.payer.value.email)
    else None
  }

  /** The card's last digits from the additional data, with the masking stars removed. */
  function LastDigits(data: seq<(string, Value)>): string {
    var v := Lookup(data, "lastDigits");
    if v.Some? && v.value.Scalar? then RemoveStars(v.value.text) else ""
  }

  /** updateTransaction: the row after projecting the gateway answer onto it with the new status. */
  function Project(row: PaymentRow, status: int, response: RedirectInformation): (r: PaymentRow)
    ensures r.status == status
    ensures r.id == row.id && r.cartId == row.cartId && r.currencyId == row.currencyId
    ensures r.amount == row.amount && r.ipAddress == row.ipAddress
    ensures r.requestId == row.requestId && r.reference == row.reference
  {
    var settlement := Settlement(response);
    var s := if settlement.Some? then settlement.value.1 else response.status;
    var email := EchoedEmail(response).GetOr("");
    if settlement.None? then
      row.(status := status, date := s.date, reason := s.reason, reasonDescription := s.message,
           franchise := "", franchiseName := "", bank := "", authCode := "", receipt := "",
           conversion := "", payerEmail := email, installments := None, lastDigits := "")
    else
      var tx := settlement.value.0;
      row.(status := status, date := s.date, reason := s.reason, reasonDescription := s.message,
           franchise := tx.franchise, franchiseName := tx.paymentMethodName, bank := tx.issuerName,
           authCode := tx.authorization, receipt := tx.receipt, conversion := tx.conversionFactor,
           payerEmail := email, installments := Some(Installments.Count(tx.additionalData)),
           lastDigits := LastDigits(tx.additionalData))
  }

  /** Without a successful last transaction the metadata is blanked and the answer's own status text is kept. */
  lemma ProjectWithoutSettlement(row: PaymentRow, status: int, response: RedirectInformation)
    requires Settlement(response).None?
    ensures var r := Project(row, status, response);
      && r.bank == "" && r.franchise == "" && r.franchiseName == "" && r.authCode == ""
      && r.receipt == "" && r.conversion == "" && r.installments == None && r.lastDigits == ""
      && r.date == response.status.date && r.reason == response.status.reason
      && r.reasonDescription == response.status.message
  {
  }

  /** With a successful last transaction its metadata and status text are copied, the last digits without stars. */
  lemma ProjectWithSettlement(row: PaymentRow, status: int, response: RedirectInformation)
    requires Settlement(response).Some?
    ensures var r := Project(row, status, response);
      var tx := response.lastTransaction.value;
      && r.bank == tx.issuerName && r.franchise == tx.franchise && r.franchiseName == tx.paymentMethodName
      && r.authCode == tx.authorization && r.receipt == tx.receipt && r.conversion == tx.conversionFactor
      && r.installments == Some(Installments.Count(tx.additionalData))
      && r.date == tx.status.value.date && r.reason == tx.status.value.reason
      && r.reasonDescription == tx.status.value.message
      && (forall i :: 0 <= i < |r.lastDigits| ==> r.lastDigits[i] != '*')
      && var v := Lookup(tx.additionalData, "lastDigits");
         r.lastDigits == if v.Some? && v.value.Scalar? then RemoveStars(v.value.text) else ""
  {
    var v := Lookup(response.lastTransaction.value.additionalData, "lastDigits");
    if v.Some? && v.value.Scalar? {
      RemoveStarsClean(v.value.text);
    }
  }

  /** The payer e-mail is written only when the echoed request has a non-empty one; otherwise it is blanked. */
  lemma ProjectPayerEmail(row: PaymentRow, status: int, response: RedirectInformation)
    ensures var r := Project(row, status, response);
      && (EchoedEmail(response).Some? ==> r.payerEmail == response.request.value.payer.value.email)
      && (EchoedEmail(response).None? ==> r.payerEmail == "")
  {
  }
}
