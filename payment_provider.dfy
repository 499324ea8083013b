/**
 * `PaymentProviderImpl` (payment-svc/internal/provider/payment_provider.go):
 * one HTTP call to the payment backend per operation, and a classification
 * of what came back.
 */
module PaymentProvider {
  import opened Wrappers
  import opened Json
  import opened StepReply

  /** The shape of the data the backend returns; its declaration is not part of this model. */
  type Transaction = Json
  type AccountBalance = Json

  datatype PaymentRequest = PaymentRequest(refId: string, amount: int, accountBankId: string)

  datatype AccountBalanceRequest = AccountBalanceRequest(deposit: int, username: string)

  /** One call through `interfaces.Client`: the verb, the path and the body. */
  datatype HttpCall<Q> = HttpCall(verb: string, path: string, body: Q)

  /** What the client reports: its error (if any), and the response it decoded. */
  datatype ClientAnswer<T> = ClientAnswer(err: Option<string>, response: BaseResponse<T>)

  /**
   * The classification all three operations share: a client error becomes an
   * error response with its message, a status other than `expected` one
   * with the response's error text; the response is returned in every case.
   */
  function Classify<T>(c: ClientAnswer<T>, expected: int): (a: ProviderAnswer<T>)
    ensures a.response == Some(c.response)
    ensures a.err.None? <==> c.err.None? && c.response.statusCode == expected
    ensures c.err.Some? ==> a.err == Some(ErrorResponse(c.err.value))
    ensures c.err.None? && c.response.statusCode != expected ==> a.err == Some(ErrorResponse(c.response.error))
  {
    if c.err.Some? then ProviderAnswer(Some(c.response), Some(ErrorResponse(c.err.value)))
    else if c.response.statusCode != expected then ProviderAnswer(Some(c.response), Some(ErrorResponse(c.response.error)))
    else ProviderAnswer(Some(c.response), None)
  }

  const RefundCall := (req: PaymentRequest) => HttpCall("PATCH", "/refund", req)
  const BalanceCall := (req: AccountBalanceRequest) => HttpCall("POST", "/balances", req)
  const PaymentCall := (req: PaymentRequest) => HttpCall("POST", "", req)

  /** `RefundPayment`: PATCH "/refund", which succeeds only with status 200. */
  function RefundPayment(client: HttpCall<PaymentRequest> -> ClientAnswer<Transaction>, req: PaymentRequest)
    : (a: ProviderAnswer<Transaction>)
    ensures var c := client(HttpCall("PATCH", "/refund", req));
      a.response == Some(c.response) && (a.err.None? <==> c.err.None? && c.response.statusCode == 200)
  {
    Classify(client(RefundCall(req)), 200)
  }

  /** `CreateAccountBalance`: POST "/balances", which succeeds only with status 201. */
  function CreateAccountBalance(client: HttpCall<AccountBalanceRequest> -> ClientAnswer<AccountBalance>,
                                req: AccountBalanceRequest): (a: ProviderAnswer<AccountBalance>)
    ensures var c := client(HttpCall("POST", "/balances", req));
      a.response == Some(c.response) && (a.err.None? <==> c.err.None? && c.response.statusCode == 201)
  {
    Classify(client(BalanceCall(req)), 201)
  }

  /** `ProcessPayment`: POST to the client's base path, which succeeds only with status 201. */
  function ProcessPayment(client: HttpCall<PaymentRequest> -> ClientAnswer<Transaction>, req: PaymentRequest)
    : (a: ProviderAnswer<Transaction>)
    ensures var c := client(HttpCall("POST", "", req));
      a.response == Some(c.response) && (a.err.None? <==> c.err.None? && c.response.statusCode == 201)
  {
    Classify(client(PaymentCall(req)), 201)
  }
}
