/**
 * The order status classifier `PayStatus::get`, which maps a numeric PAY.
 * status code to a named status. Its source is not part of this model; the
 * classifier below is the table the unit tests assert for it, and it is the
 * one classifier both the exchange and the order view use.
 */
module PayStatus {
  import opened Wrappers
  import opened PhpValue

  datatype Status =
    | CHARGEBACK
    | REFUND
    | PARTIAL_REFUND
    | VOID
    | DENIED
    | CANCEL
    | PENDING
    | CONFIRMED
    | PARTIAL_PAYMENT
    | VERIFY
    | AUTHORIZE
    | PARTLY_CAPTURED
    | PAID

  /** The status codes with a status of their own, as the tests list them. */
  const Known: map<int, Status> := map[
    -70 := CHARGEBACK, -71 := CHARGEBACK,
    -72 := REFUND, -81 := REFUND,
    -82 := PARTIAL_REFUND,
    -61 := VOID,
    -63 := DENIED, -64 := DENIED,
    20 := PENDING, 25 := PENDING, 50 := PENDING, 90 := PENDING, 98 := PENDING,
    75 := CONFIRMED, 76 := CONFIRMED,
    80 := PARTIAL_PAYMENT,
    85 := VERIFY,
    95 := AUTHORIZE,
    97 := PARTLY_CAPTURED,
    100 := PAID
  ]

  /** The code of a paid order, `PayStatus::PAID`. */
  const PaidCode := 100
  /** The code of an authorised order, `PayStatus::AUTHORIZE`. */
  const AuthorizeCode := 95

  /** The message of the exception thrown for a code the table does not know. */
  function UnexpectedStatus(code: int): string
  {
    "Unexpected status: " + IntToString(code)
  }

  /**
   * `PayStatus::get($code)`: the status of a listed code; CANCEL for any other
   * negative code; an exception for any other non-negative code.
   */
  function Classify(code: int): (r: Result<Status, string>)
    ensures code in Known ==> r == Success(Known[code])
    ensures code !in Known && code < 0 ==> r == Success(CANCEL)
    ensures code !in Known && code >= 0 ==> r == Failure(UnexpectedStatus(code))
  {
    if code < 0 then
      Success(
        if code == -70 || code == -71 then CHARGEBACK
        else if code == -72 || code == -81 then REFUND
        else if code == -82 then PARTIAL_REFUND
        else if code == -61 then VOID
        else if code == -63 || code == -64 then DENIED
        else CANCEL)
    else if code == 20 || code == 25 || code == 50 || code == 90 || code == 98 then Success(PENDING)
    else if code == 75 || code == 76 then Success(CONFIRMED)
    else if code == 80 then Success(PARTIAL_PAYMENT)
    else if code == 85 then Success(VERIFY)
    else if code == 95 then Success(AUTHORIZE)
    else if code == 97 then Success(PARTLY_CAPTURED)
    else if code == 100 then Success(PAID)
    else Failure(UnexpectedStatus(code))
  }

  /** Every status except CANCEL is reached only from the codes the table lists for it. */
  lemma ClassifyOnlyListedCodes(code: int, s: Status)
    requires Classify(code) == Success(s) && s != CANCEL
    ensures code in Known && Known[code] == s
  {
  }

  /** The classifier succeeds exactly on negative codes and the listed ones. */
  lemma ClassifyDefinedOn(code: int)
    ensures Classify(code).Success? <==> code < 0 || code in Known
  {
  }

  /** The exception message names the code: two rejected codes with one message are one code. */
  lemma {:induction false} UnexpectedStatusInjective(a: int, b: int)
    requires UnexpectedStatus(a) == UnexpectedStatus(b)
    ensures a == b
  {
    var p := "Unexpected status: ";
    assert IntToString(a) == UnexpectedStatus(a)[|p|..];
    assert IntToString(b) == UnexpectedStatus(b)[|p|..];
    IntToStringInjective(a, b);
  }

  /** The codes the exchange treats as a paid event are those classified PAID or AUTHORIZE. */
  lemma PaidEventCodes(code: int)
    ensures (code == PaidCode || code == AuthorizeCode)
        <==> (Classify(code) == Success(PAID) || Classify(code) == Success(AUTHORIZE))
  {
  }
}
