/**
 * The gateway's messages as the payment module sees them. The classes that
 * decode them belong to the gateway client library, which is not part of
 * this model; only the fields the module reads are kept.
 */
module Gateway {
  import opened Wrappers

  /**
   * A value of a PHP array taken from the transaction's additional data.
   * `asInt` is Some((int) v) exactly when is_numeric(v) holds of the scalar.
   */
  datatype Value =
    | Null
    | Scalar(text: string, asInt: Option<int>)
    | Array(entries: seq<(string, Value)>)

  /** $array[$key] with isset: the value under the key, None when the key is absent. */
  function Lookup(entries: seq<(string, Value)>, key: string): (r: Option<Value>)
    ensures r.Some? ==> exists i :: 0 <= i < |entries| && entries[i] == (key, r.value)
    ensures r.None? ==> forall i :: 0 <= i < |entries| ==> entries[i].0 != key
  {
    if entries == [] then None
    else if entries[0].0 == key then Some(entries[0].1)
    else Lookup(entries[1..], key)
  }

  /** The value Lookup finds is the one under the first entry with the key. */
  lemma {:induction false} LookupFirst(entries: seq<(string, Value)>, key: string, v: Value)
    ensures Lookup(entries, key) == Some(v) <==>
      exists i :: 0 <= i < |entries| && entries[i] == (key, v) && forall j :: 0 <= j < i ==> entries[j].0 != key
  {
    if entries != [] && entries[0].0 != key {
      LookupFirst(entries[1..], key, v);
      var tail := entries[1..];
      if Lookup(entries, key) == Some(v) {
        var i :| 0 <= i < |tail| && tail[i] == (key, v) && forall j :: 0 <= j < i ==> tail[j].0 != key;
        assert entries[i + 1] == (key, v);
        assert forall j :: 0 <= j < i + 1 ==> entries[j].0 != key by {
          forall j | 0 <= j < i + 1 ensures entries[j].0 != key {
            if j > 0 { assert entries[j] == tail[j - 1]; }
          }
        }
      } else {
        forall i | 0 <= i < |entries| && entries[i] == (key, v)
          ensures !(forall j :: 0 <= j < i ==> entries[j].0 != key)
        {
          assert i > 0 && tail[i - 1] == (key, v);
        }
      }
    } else if entries != [] {
      if Lookup(entries, key) != Some(v) {
        forall i | 0 <= i < |entries| && entries[i] == (key, v)
          ensures !(forall j :: 0 <= j < i ==> entries[j].0 != key)
        {
          assert i != 0;
        }
      }
    }
  }

  /** A status block: the outcome flags and its reason, message and date. */
  datatype Status = Status(approved: bool, rejected: bool, reason: string, message: string, date: string)

  /** The last transaction of a session with its settlement metadata. */
  datatype Transaction = Transaction(
    status: Option<Status>,
    successful: bool,
    issuerName: string,
    franchise: string,
    paymentMethodName: string,
    authorization: string,
    receipt: string,
    conversionFactor: string,
    additionalData: seq<(string, Value)>)

  datatype Payer = Payer(email: string)

  /** The request echoed back by the gateway. */
  datatype RequestEcho = RequestEcho(payer: Option<Payer>)

  /** The answer to a session query. */
  datatype RedirectInformation = RedirectInformation(
    successful: bool,
    status: Status,
    lastTransaction: Option<Transaction>,
    request: Option<RequestEcho>)

  /** A query either answers or fails in transport (the client library throws). */
  datatype QueryOutcome = Answered(info: RedirectInformation) | TransportError(message: string)

  /** The answer to a session creation. */
  datatype RedirectResponse = RedirectResponse(successful: bool, requestId: int, processUrl: string, message: string)

  datatype SessionOutcome = Created(response: RedirectResponse) | SessionTransportError(message: string)
}

/** getInstallments: where the number of installments is looked for in the additional data, and in what order. */
module Installments {
  import opened Wrappers
  import opened Gateway

  const INSTALLMENT_KEYS: seq<string> := ["installments", "installment"]

  /** The numeric value of a looked-up entry, if it is set and numeric. */
  function Numeric(v: Option<Value>): Option<int> {
    if v.Some? && v.value.Scalar? then v.value.asInt else None
  }

  /** The first numeric candidate of an ordered list of places. */
  function FirstNumeric(candidates: seq<Option<Value>>): (r: Option<int>)
    ensures r.Some? ==> exists i :: 0 <= i < |candidates| && Numeric(candidates[i]) == r
    ensures r.None? <==> forall i :: 0 <= i < |candidates| ==> Numeric(candidates[i]).None?
  {
    if candidates == [] then None
    else if Numeric(candidates[0]).Some? then Numeric(candidates[0])
    else FirstNumeric(candidates[1..])
  }

  lemma {:induction false} FirstNumericAppend(a: seq<Option<Value>>, b: seq<Option<Value>>)
    ensures FirstNumeric(a + b) == if FirstNumeric(a).Some? then FirstNumeric(a) else FirstNumeric(b)
  {
    if a != [] {
      assert (a + b)[1..] == a[1..] + b;
      FirstNumericAppend(a[1..], b);
    } else {
      assert a + b == b;
    }
  }

  /** The two installment keys of one array, in order. */
  function KeyCandidates(entries: seq<(string, Value)>): seq<Option<Value>> {
    seq(|INSTALLMENT_KEYS|, k requires 0 <= k < |INSTALLMENT_KEYS| => Lookup(entries, INSTALLMENT_KEYS[k]))
  }

  /** Candidates inside processorFields: each field's `value` array, when it is one. */
  function ProcessorCandidates(fields: seq<(string, Value)>): seq<Option<Value>> {
    if fields == [] then []
    else
      var field := fields[0].1;
      var here :=
        if field.Array? && Lookup(field.entries, "value").Some? && Lookup(field.entries, "value").value.Array?
        then KeyCandidates(Lookup(field.entries, "value").value.entries)
        else [];
      here + ProcessorCandidates(fields[1..])
  }

  /** Candidates inside every nested array of the additional data. */
  function NestedCandidates(entries: seq<(string, Value)>): seq<Option<Value>> {
    if entries == [] then []
    else
      (if entries[0].1.Array? then KeyCandidates(entries[0].1.entries) else [])
      + NestedCandidates(entries[1..])
  }

  /** The processorFields array, when the key is set to an array. */
  function ProcessorFields(data: seq<(string, Value)>): seq<(string, Value)> {
    var fields := Lookup(data, "processorFields");
    if fields.Some? && fields.value.Array? then fields.value.entries else []
  }

  /**
   * Reference definition: every place an installment count may sit, in the
   * order they are searched: the top level, then processorFields, then any
   * nested array.
   */
  function Candidates(data: seq<(string, Value)>): seq<Option<Value>> {
    KeyCandidates(data) + ProcessorCandidates(ProcessorFields(data)) + NestedCandidates(data)
  }

  /** The installment count: the first numeric candidate, 0 when there is none. */
  function Count(data: seq<(string, Value)>): int {
    FirstNumeric(Candidates(data)).GetOr(0)
  }

  /** A numeric top-level `installments` wins over everything else. */
  lemma TopLevelInstallmentsWins(data: seq<(string, Value)>, n: int)
    requires Numeric(Lookup(data, "installments")) == Some(n)
    ensures Count(data) == n
  {
    assert Candidates(data)[0] == Lookup(data, "installments");
  }

  /** Without a numeric top-level `installments`, a numeric top-level `installment` wins. */
  lemma TopLevelInstallmentWins(data: seq<(string, Value)>, n: int)
    requires Numeric(Lookup(data, "installments")).None?
    requires Numeric(Lookup(data, "installment")) == Some(n)
    ensures Count(data) == n
  {
    var c := Candidates(data);
    assert c[0] == Lookup(data, "installments") && c[1] == Lookup(data, "installment");
    assert c == [c[0]] + ([c[1]] + c[2..]);
    FirstNumericAppend([c[0]], [c[1]] + c[2..]);
    FirstNumericAppend([c[1]], c[2..]);
  }

  /** The count is 0 when no candidate is numeric, and otherwise the value of some candidate. */
  lemma InstallmentsSound(data: seq<(string, Value)>)
    ensures (forall i :: 0 <= i < |Candidates(data)| ==> Numeric(Candidates(data)[i]).None?)
            ==> Count(data) == 0
    ensures Count(data) != 0 ==>
      exists i :: 0 <= i < |Candidates(data)| && Numeric(Candidates(data)[i]) == Some(Count(data))
  {
  }

  /** The first numeric value among the installment keys of one array. */
  method NumericFromKeys(entries: seq<(string, Value)>) returns (found: Option<int>)
    ensures found == FirstNumeric(KeyCandidates(entries))
  {
    var k := 0;
    while k < |INSTALLMENT_KEYS|
      invariant 0 <= k <= |INSTALLMENT_KEYS|
      invariant FirstNumeric(KeyCandidates(entries)) == FirstNumeric(KeyCandidates(entries)[k..])
    {
      assert KeyCandidates(entries)[k..][1..] == KeyCandidates(entries)[k + 1..];
      var v := Lookup(entries, INSTALLMENT_KEYS[k]);
      if v.Some? && v.value.Scalar? && v.value.asInt.Some? {
        return v.value.asInt;
      }
      k := k + 1;
    }
    return None;
  }

  /** getInstallments: the three searches in order, returning at the first numeric value. */
  method GetInstallments(data: seq<(string, Value)>) returns (n: int)
    ensures n == Count(data)
  {
    var c := Candidates(data);
    var pc := ProcessorCandidates(ProcessorFields(data));
    FirstNumericAppend(KeyCandidates(data) + pc, NestedCandidates(data));
    FirstNumericAppend(KeyCandidates(data), pc);

    var top := NumericFromKeys(data);
    if top.Some? {
      return top.value;
    }

    var fields := ProcessorFields(data);
    var i := 0;
    while i < |fields|
      invariant 0 <= i <= |fields|
      invariant FirstNumeric(pc) == FirstNumeric(ProcessorCandidates(fields[i..]))
    {
      assert fields[i..][1..] == fields[i + 1..];
      var field := fields[i].1;
      var here :=
        if field.Array? && Lookup(field.entries, "value").Some? && Lookup(field.entries, "value").value.Array?
        then KeyCandidates(Lookup(field.entries, "value").value.entries)
        else [];
      FirstNumericAppend(here, ProcessorCandidates(fields[i + 1..]));
      if field.Array? {
        var value := Lookup(field.entries, "value");
        if value.Some? && value.value.Array? {
          var found := NumericFromKeys(value.value.entries);
          if found.Some? {
            return found.value;
          }
        }
      }
      i := i + 1;
    }

    var j := 0;
    while j < |data|
      invariant 0 <= j <= |data|
      invariant FirstNumeric(NestedCandidates(data)) == FirstNumeric(NestedCandidates(data[j..]))
    {
      assert data[j..][1..] == data[j + 1..];
      var value := data[j].1;
      FirstNumericAppend(if value.Array? then KeyCandidates(value.entries) else [], NestedCandidates(data[j + 1..]));
      if value.Array? {
        var found := NumericFromKeys(value.entries);
        if found.Some? {
          return found.value;
        }
      }
      j := j + 1;
    }
    return 0;
  }
}
