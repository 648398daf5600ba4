/**
  What the bot asks of the YooKassa gateway and how it reads the answers: the
  fixed payment request of `process_email`, and the first-terminal-status rule
  of the `check_payment_status` poll loop.
*/
module PaymentGateway {

  /** The statuses a YooKassa payment reports. */
  datatype PaymentStatus = Pending | WaitingForCapture | Succeeded | Canceled

  /** The two statuses on which the poll loop stops. */
  predicate IsTerminal(s: PaymentStatus) {
    s == Succeeded || s == Canceled
  }

  /** Number of `Payment.find_one` queries before the loop gives up. */
  const PollAttempts: nat := 30
  /** Seconds slept before each query (used only to relate the budget to the window). */
  const PollIntervalSeconds: nat := 10
  /** Validity window written into the request's `expires_at`. */
  const PaymentValidityMinutes: nat := 5
  const PriceValue: string := "2999.00"
  const PriceCurrency: string := "RUB"

  /**
    The payment `process_email` creates: a fixed price, immediate capture, a
    receipt sent to the given email, expiring after the validity window.
  */
  datatype PaymentRequest = PaymentRequest(
    value: string,
    currency: string,
    capture: bool,
    expiresInMinutes: nat,
    receiptEmail: string)

  function NewPaymentRequest(email: string): PaymentRequest {
    PaymentRequest(PriceValue, PriceCurrency, true, PaymentValidityMinutes, email)
  }

  /** What a successful `Payment.create` hands back. */
  datatype CreatedPayment = CreatedPayment(id: string, confirmationUrl: string)

  /** How the poll loop ends; `attempt` is the 0-based index of the deciding query. */
  datatype PollOutcome = Paid(attempt: nat) | Cancelled(attempt: nat) | TimedOut

  /** None of the first `k` statuses is terminal. */
  predicate NoTerminalBefore(statuses: seq<PaymentStatus>, k: nat)
    requires k <= |statuses|
  {
    forall j :: 0 <= j < k ==> !IsTerminal(statuses[j])
  }

  function Later(r: PollOutcome): PollOutcome {
    match r
    case Paid(k) => Paid(k + 1)
    case Cancelled(k) => Cancelled(k + 1)
    case TimedOut => TimedOut
  }

  /**
    The outcome of polling through `statuses`: decided by the first terminal
    status, `Succeeded` giving `Paid` and `Canceled` giving `Cancelled`, and a
    time-out when no status is terminal.
  */
  function PollOutcomeOf(statuses: seq<PaymentStatus>): (r: PollOutcome)
    ensures r.Paid? ==> r.attempt < |statuses| && statuses[r.attempt] == Succeeded
                        && NoTerminalBefore(statuses, r.attempt)
    ensures r.Cancelled? ==> r.attempt < |statuses| && statuses[r.attempt] == Canceled
                             && NoTerminalBefore(statuses, r.attempt)
    ensures r.TimedOut? <==> NoTerminalBefore(statuses, |statuses|)
  {
    if |statuses| == 0 then TimedOut
    else if statuses[0] == Succeeded then Paid(0)
    else if statuses[0] == Canceled then Cancelled(0)
    else Later(PollOutcomeOf(statuses[1..]))
  }

  /** The first terminal status, wherever it is, decides the outcome. */
  lemma PollOutcomeAtFirstTerminal(statuses: seq<PaymentStatus>, i: nat)
    requires i < |statuses| && NoTerminalBefore(statuses, i) && IsTerminal(statuses[i])
    ensures PollOutcomeOf(statuses) == if statuses[i] == Succeeded then Paid(i) else Cancelled(i)
  {
  }

  /** Statuses after the deciding one are never looked at. */
  lemma {:induction false} PollOutcomeIgnoresLater(statuses: seq<PaymentStatus>, later: seq<PaymentStatus>)
    requires !PollOutcomeOf(statuses).TimedOut?
    ensures PollOutcomeOf(statuses + later) == PollOutcomeOf(statuses)
  {
    assert (statuses + later)[0] == statuses[0];
    if !IsTerminal(statuses[0]) {
      PollOutcomeIgnoresLater(statuses[1..], later);
      assert (statuses + later)[1..] == statuses[1..] + later;
    }
  }

  /**
    The attempt budget spans exactly the payment's validity window. The sleep
    between queries is not otherwise modelled: only its length enters here.
  */
  lemma PollWindowMatchesExpiry()
    ensures PollAttempts * PollIntervalSeconds == PaymentValidityMinutes * 60
  {
  }
}
