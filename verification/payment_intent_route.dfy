/** The `POST /api/create-payment-intent` handler: convert the requested
    amount to minor currency units, ask the payment processor for an intent,
    and map the outcome to a JSON response. The processor call is a
    parameter: its result for the requested parameters is an input. */
module PaymentIntentRoute {
  import opened CartTypes

  /** The JSON body the checkout page sends. */
  datatype IntentRequest = IntentRequest(amount: real, currency: string)

  /** Something thrown: an `Error` instance carries a message. */
  datatype Thrown = ErrorInstance(message: string) | NonErrorValue

  /** The request as the handler reads it: `request.json()` may throw. */
  datatype RouteInput = Readable(body: IntentRequest) | Unreadable(reason: Thrown)

  /** The arguments of `stripe.paymentIntents.create`. */
  datatype IntentParams = IntentParams(amount: int, currency: string)

  /** The processor's answer: an intent whose client secret may be null, or a
      thrown value. */
  datatype CreateResult = Created(clientSecret: Option<string>) | CreateFailed(reason: Thrown)

  datatype ResponseBody = SecretBody(clientSecret: Option<string>) | ErrorBody(error: string)

  datatype Response = Response(status: int, body: ResponseBody)

  const UnknownError: string := "An unknown error occurred"

  /** `Math.round(amount * 100)` on exact reals: the nearest whole number of
      minor units, halves rounded upward. */
  function ToMinorUnits(amount: real): (r: int)
    ensures amount * 100.0 - 0.5 < r as real <= amount * 100.0 + 0.5
  {
    (amount * 100.0 + 0.5).Floor
  }

  /** The intent the handler asks for: the converted amount and the currency
      passed through unchecked. */
  function ParamsFor(body: IntentRequest): (p: IntentParams)
    ensures p.currency == body.currency
    ensures body.amount * 100.0 - 0.5 < p.amount as real <= body.amount * 100.0 + 0.5
  {
    IntentParams(ToMinorUnits(body.amount), body.currency)
  }

  /** The message reported for a thrown value. */
  function MessageOf(t: Thrown): string
  {
    match t
    case ErrorInstance(m) => m
    case NonErrorValue => UnknownError
  }

  /** The handler. `create` stands for the processor: it is consulted only for
      a readable request, with the converted parameters. */
  function Post(input: RouteInput, create: IntentParams -> CreateResult): (r: Response)
    ensures r.status == 200 || r.status == 500
    ensures r.status == 200 <==> input.Readable? && create(ParamsFor(input.body)).Created?
    ensures r.status == 200 ==> r.body == SecretBody(create(ParamsFor(input.body)).clientSecret)
    ensures r.status == 500 && input.Unreadable? ==> r.body == ErrorBody(MessageOf(input.reason))
    ensures r.status == 500 && input.Readable? ==>
              r.body == ErrorBody(MessageOf(create(ParamsFor(input.body)).reason))
  {
    match input
    case Unreadable(t) => Response(500, ErrorBody(MessageOf(t)))
    case Readable(body) =>
      match create(ParamsFor(body))
      case Created(secret) => Response(200, SecretBody(secret))
      case CreateFailed(t) => Response(500, ErrorBody(MessageOf(t)))
  }

  // ---------------------------------------------------------------------
  // Properties of the conversion

  /** A whole number of cents converts exactly. */
  lemma WholeCentsExact(amount: real, cents: int)
    requires amount * 100.0 == cents as real
    ensures ToMinorUnits(amount) == cents
  {
  }

  /** An amount exactly halfway between two cents rounds up, also below zero. */
  lemma HalfCentRoundsUp(amount: real, k: int)
    requires amount * 100.0 == k as real + 0.5
    ensures ToMinorUnits(amount) == k + 1
  {
  }

  /** A larger amount never converts to fewer minor units. */
  lemma ToMinorUnitsMonotone(a: real, b: real)
    requires a <= b
    ensures ToMinorUnits(a) <= ToMinorUnits(b)
  {
  }

  /** 40.00 dollars is 4000 cents. */
  lemma FortyDollarsExample()
    ensures ToMinorUnits(40.0) == 4000
  {
    WholeCentsExact(40.0, 4000);
  }

  /** Any failure is reported as a 500 carrying the `Error` message, or the
      fixed text when something other than an `Error` was thrown. */
  lemma FailureReportedAs500(input: RouteInput, create: IntentParams -> CreateResult, t: Thrown)
    requires input.Unreadable? ==> input.reason == t
    requires input.Readable? ==> create(ParamsFor(input.body)) == CreateFailed(t)
    ensures Post(input, create) == Response(500, ErrorBody(MessageOf(t)))
    ensures t.NonErrorValue? ==> Post(input, create).body.error == UnknownError
  {
  }
}
