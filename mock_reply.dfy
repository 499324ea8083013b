/** What the handlers of the mock backend (mock-svc/handler) share: their reply and the validator's rules. */
module MockReply {
  /** The JSON reply of a handler: its HTTP status and either data or an error text. */
  datatype Reply<T> =
    | Ok(code: int, data: T)
    | Err(code: int, message: string)
    | Invalid   // 400 with the validator's own message

  predicate IsSpace(c: char)
  {
    c == ' ' || c == '\t' || c == '\n' || c == '\r'
  }

  /** valo's "notblank": some character other than white space. */
  predicate NotBlank(s: string)
  {
    exists i :: 0 <= i < |s| && !IsSpace(s[i])
  }

  /** valo's "sizeMin=n": at least `n` characters. */
  predicate SizeMin(s: string, n: nat)
  {
    |s| >= n
  }
}
