/**
 * The card payment forms of the club page (membership fee) and of the event
 * page (ticket). Both create a payment intent on the backend, let the card
 * processor confirm it, and report it to the backend only once the processor
 * says it succeeded.
 */
module Checkout {
  import opened Wrappers
  import opened JsValues
  import opened Effects

  /** What is being paid for. */
  datatype Purpose = Membership(clubId: string) | EventTicket(eventId: string, clubId: string)

  /** How creating the payment intent settles. */
  datatype IntentReply = IntentCreated(clientSecret: string) | IntentFailed(message: Option<string>)

  /** What the card processor's `confirmCardPayment` returns, or that it threw. */
  datatype CardOutcome = CardError(message: string) | CardIntent(intentId: string, status: string) | CardThrew

  /** The backend request that creates the payment intent. */
  function IntentRequest(p: Purpose): Request {
    match p
    case Membership(clubId) => Request(Post, "/payments/create-payment-intent", map["clubId" := Str(clubId)])
    case EventTicket(eventId, _) => Request(Post, "/payments/create-event-payment-intent", map["eventId" := Str(eventId)])
  }

  /** The backend request that records a succeeded payment. */
  function ConfirmRequest(p: Purpose, intentId: string): Request {
    match p
    case Membership(clubId) =>
      Request(Post, "/payments/confirm",
              map["paymentIntentId" := Str(intentId), "type" := Str("membership"), "clubId" := Str(clubId)])
    case EventTicket(eventId, clubId) =>
      Request(Post, "/payments/confirm",
              map["paymentIntentId" := Str(intentId), "type" := Str("event"), "eventId" := Str(eventId),
                  "clubId" := Str(clubId)])
  }

  function SuccessText(p: Purpose): string {
    match p
    case Membership(_) => "Payment successful! Welcome to the club!"
    case EventTicket(_, _) => "Payment successful! You're registered!"
  }

  const PaymentFailed := "Payment failed"

  /** Whether the processor reports a succeeded payment. */
  predicate Succeeded(card: CardOutcome) {
    card.CardIntent? && card.status == "succeeded"
  }

  /**
   * The effects of one submission with the processor ready: the intent request;
   * then, when it was created, either the processor's error, nothing (a status
   * other than "succeeded"), or the confirm request followed by the success
   * toast; any rejection on the way ends in a toast.
   */
  function SubmitEffects(p: Purpose, intent: IntentReply, card: CardOutcome, confirmed: Reply): seq<Effect> {
    [Send(IntentRequest(p))] +
    match intent
    case IntentFailed(message) => [ToastError(TextOr(message, PaymentFailed))]
    case IntentCreated(_) =>
      match card
      case CardThrew => [ToastError(PaymentFailed)]
      case CardError(message) => [ToastError(message)]
      case CardIntent(intentId, status) =>
        if status != "succeeded" then []
        else
          [Send(ConfirmRequest(p, intentId))] +
          match confirmed
          case Ok => [ToastSuccess(SuccessText(p))]
          case Failed(message) => [ToastError(TextOr(message, PaymentFailed))]
  }

  /** Whether a submission ends by calling the page's `onSuccess`. */
  predicate Completes(intent: IntentReply, card: CardOutcome, confirmed: Reply) {
    intent.IntentCreated? && Succeeded(card) && confirmed.Ok?
  }

  /**
   * The backend hears of a payment only after the processor reports it
   * succeeded: the requests are the intent, then the confirm exactly in that case.
   */
  lemma ConfirmOnlyAfterSuccess(p: Purpose, intent: IntentReply, card: CardOutcome, confirmed: Reply)
    ensures intent.IntentCreated? && Succeeded(card) ==>
      Requests(SubmitEffects(p, intent, card, confirmed)) == [IntentRequest(p), ConfirmRequest(p, card.intentId)]
    ensures !(intent.IntentCreated? && Succeeded(card)) ==>
      Requests(SubmitEffects(p, intent, card, confirmed)) == [IntentRequest(p)]
  {
    var es := SubmitEffects(p, intent, card, confirmed);
    var tail := es[1..];
    assert es == [Send(IntentRequest(p))] + tail;
    RequestsAppend([Send(IntentRequest(p))], tail);
    assert Requests([Send(IntentRequest(p))]) == [IntentRequest(p)] by {
      assert [Send(IntentRequest(p))][1..] == [];
    }
    if intent.IntentCreated? && Succeeded(card) {
      var rest := tail[1..];
      assert tail == [Send(ConfirmRequest(p, card.intentId))] + rest;
      RequestsAppend([Send(ConfirmRequest(p, card.intentId))], rest);
      assert [Send(ConfirmRequest(p, card.intentId))][1..] == [];
      RequestsNone(rest);
    } else {
      RequestsNone(tail);
    }
  }

  /** The confirm request names the purpose: a membership, or an event ticket with its club. */
  lemma ConfirmNamesPurpose(p: Purpose, intentId: string)
    ensures ConfirmRequest(p, intentId).body["paymentIntentId"] == Str(intentId)
    ensures p.Membership? ==> (ConfirmRequest(p, intentId).body["type"] == Str("membership")
      && ConfirmRequest(p, intentId).body["clubId"] == Str(p.clubId) && "eventId" !in ConfirmRequest(p, intentId).body)
    ensures p.EventTicket? ==> (ConfirmRequest(p, intentId).body["type"] == Str("event")
      && ConfirmRequest(p, intentId).body["eventId"] == Str(p.eventId)
      && ConfirmRequest(p, intentId).body["clubId"] == Str(p.clubId))
  {
  }

  /** A payment form: the purpose it was mounted for, its `processing` flag, and what it did. */
  class CardPaymentForm {
    const purpose: Purpose
    var processing: bool
    var effects: seq<Effect>

    constructor(p: Purpose)
      ensures purpose == p && !processing && effects == []
    {
      purpose := p;
      processing := false;
      effects := [];
    }

    /**
     * `handleSubmit`: nothing happens until the processor is ready; otherwise
     * the submission runs with `processing` raised and ends with it lowered,
     * and the result says whether `onSuccess` was called.
     */
    method HandleSubmit(sdkReady: bool, intent: IntentReply, card: CardOutcome, confirmed: Reply)
      returns (calledOnSuccess: bool)
      modifies this
      ensures !sdkReady ==> effects == old(effects) && processing == old(processing) && !calledOnSuccess
      ensures sdkReady ==> effects == old(effects) + SubmitEffects(purpose, intent, card, confirmed) && !processing
      ensures calledOnSuccess <==> sdkReady && Completes(intent, card, confirmed)
    {
      if !sdkReady {
        return false;
      }
      processing := true;
      var added := [Send(IntentRequest(purpose))];
      calledOnSuccess := false;
      match intent {
        case IntentFailed(message) =>
          added := added + [ToastError(TextOr(message, PaymentFailed))];
        case IntentCreated(_) =>
          match card {
            case CardThrew =>
              added := added + [ToastError(PaymentFailed)];
            case CardError(message) =>
              added := added + [ToastError(message)];
            case CardIntent(intentId, status) =>
              if status == "succeeded" {
                added := added + [Send(ConfirmRequest(purpose, intentId))];
                if confirmed.Ok? {
                  added := added + [ToastSuccess(SuccessText(purpose))];
                  calledOnSuccess := true;
                } else {
                  added := added + [ToastError(TextOr(confirmed.message, PaymentFailed))];
                }
              }
          }
      }
      effects := effects + added;
      processing := false;
    }
  }
}
