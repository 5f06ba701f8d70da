/** HTTP header values shared by the simulations. */
module HttpConstants {
  import opened Expressions

  const AuthorizationHeader := "Authorization"
  const BearerPrefix := "Bearer "

  /** `bearerSessionToken`: the `Authorization` header value carrying the
      session attribute that holds the token. */
  function BearerSessionToken(e: string): (r: string)
    ensures |r| == |e| + 10
    ensures r[..|BearerPrefix|] == BearerPrefix
    ensures r[|BearerPrefix|..] == Placeholder(e)
    ensures r[9..|r| - 1] == e
  {
    BearerPrefix + Placeholder(e)
  }

  /** Distinct expressions give distinct header values. */
  lemma BearerSessionTokenInjective(e1: string, e2: string)
    ensures BearerSessionToken(e1) == BearerSessionToken(e2) ==> e1 == e2
  {
  }

  /** The token the payment journey sends. */
  lemma BearerPayerToken()
    ensures BearerSessionToken("payerToken") == "Bearer #{payerToken}"
  {
  }
}
