/**
 * The outcome classification of `fetchServers` (main.go): the HTTP round
 * trip and the JSON decoder are abstract inputs, and the model decides
 * which of them yields the server list and which an error, and what the
 * error reports.
 */
module Api {
  import opened Domain

  /** What decoding a 200 response body into a list of servers produced. */
  datatype DecodeResult = Decoded(servers: seq<Server>) | DecodeFailed(reason: string)

  /**
   * What the HTTP client returned for the GET of the server collection:
   * a transport-level failure, or a response with its status code and the
   * result of decoding its body.
   */
  datatype HttpOutcome =
    | TransportFailed(cause: string)
    | Response(statusCode: int, body: DecodeResult)

  /** The three error kinds of `fetchServers`. */
  datatype FetchError =
    | RequestError(cause: string)
    | UnexpectedStatus(code: int)
    | UnmarshalError(reason: string)

  datatype FetchResult = Fetched(servers: seq<Server>) | FetchFailed(error: FetchError)

  /** The only status code that lets the body be decoded. */
  const StatusOK: int := 200

  /**
   * Classify the outcome of the request: a transport failure, a status
   * other than 200 and a decode failure are errors without data, and only
   * a 200 response whose body decodes yields the decoded list, unchanged.
   */
  function FetchServers(outcome: HttpOutcome): (r: FetchResult)
    ensures r.Fetched? <==> outcome.Response? && outcome.statusCode == StatusOK && outcome.body.Decoded?
    ensures r.Fetched? ==> r.servers == outcome.body.servers
    ensures outcome.TransportFailed? ==> r == FetchFailed(RequestError(outcome.cause))
    ensures outcome.Response? && outcome.statusCode != StatusOK ==> r == FetchFailed(UnexpectedStatus(outcome.statusCode))
    ensures outcome.Response? && outcome.statusCode == StatusOK && outcome.body.DecodeFailed? ==>
      r == FetchFailed(UnmarshalError(outcome.body.reason))
  {
    match outcome
    case TransportFailed(cause) => FetchFailed(RequestError(cause))
    case Response(code, body) =>
      if code != StatusOK then FetchFailed(UnexpectedStatus(code))
      else match body
        case DecodeFailed(reason) => FetchFailed(UnmarshalError(reason))
        case Decoded(servers) => Fetched(servers)
  }

  /** A successful fetch of N servers returns exactly those N, in order. */
  lemma FetchKeepsOrder(servers: seq<Server>)
    ensures FetchServers(Response(StatusOK, Decoded(servers))) == Fetched(servers)
    ensures forall i :: 0 <= i < |servers| ==>
      FetchServers(Response(StatusOK, Decoded(servers))).servers[i] == servers[i]
  {
  }

  // ---- error messages ----

  const RequestPrefix: string := "error making request: "
  const StatusPrefix: string := "unexpected status code: "
  const UnmarshalPrefix: string := "error unmarshaling response: "

  /**
   * The text of each error, with the status code written in decimal (`%d`).
   * The message of an unexpected-status error carries the status code, and
   * no other kind of error reads as a status error.
   */
  function ErrorMessage(e: FetchError): (msg: string)
    ensures StatusOfMessage(msg) == if e.UnexpectedStatus? then Some(e.code) else None
  {
    match e
    case RequestError(cause) =>
      var msg := RequestPrefix + cause;
      assert msg[0] != StatusPrefix[0];
      msg
    case UnexpectedStatus(code) =>
      var msg := StatusPrefix + FormatInt(code);
      assert msg[..|StatusPrefix|] == StatusPrefix;
      assert msg[|StatusPrefix|..] == FormatInt(code);
      msg
    case UnmarshalError(reason) =>
      var msg := UnmarshalPrefix + reason;
      assert msg[0] != StatusPrefix[0];
      msg
  }

  predicate IsDigit(c: char) { '0' <= c <= '9' }

  predicate AllDigits(s: string) { forall i :: 0 <= i < |s| ==> IsDigit(s[i]) }

  function DigitChar(d: nat): (c: char)
    requires d < 10
    ensures IsDigit(c) && c as int - '0' as int == d
  {
    ('0' as int + d) as char
  }

  /** The decimal digits of `n`, most significant first, without leading zeros. */
  function DecimalNat(n: nat): (s: string)
    ensures |s| > 0 && AllDigits(s)
    ensures |s| > 1 ==> s[0] != '0'
  {
    if n < 10 then [DigitChar(n)] else DecimalNat(n / 10) + [DigitChar(n % 10)]
  }

  /**
   * How `%d` writes an integer: an optional minus sign, then the digits.
   * Reading the text back gives the integer, negative ones included.
   */
  function FormatInt(i: int): (s: string)
    ensures |s| > 0 && (s[0] == '-' <==> i < 0)
    ensures ParseInt(s) == Some(i)
  {
    if i < 0 then
      var s := "-" + DecimalNat(-i);
      assert s[1..] == DecimalNat(-i);
      DecimalNatRoundTrip(-i);
      s
    else
      DecimalNatRoundTrip(i);
      DecimalNat(i)
  }

  /** The value of a string of decimal digits. */
  function DigitsValue(s: string): nat
    requires AllDigits(s)
  {
    if s == [] then 0 else DigitsValue(s[..|s| - 1]) * 10 + (s[|s| - 1] as int - '0' as int)
  }

  /** Reads back an integer written by `FormatInt`. */
  function ParseInt(s: string): Option<int>
  {
    if |s| > 1 && s[0] == '-' && AllDigits(s[1..]) then Some(0 - DigitsValue(s[1..]) as int)
    else if |s| > 0 && AllDigits(s) then Some(DigitsValue(s))
    else None
  }

  /** The status code an error message reports, if it reports one. */
  function StatusOfMessage(msg: string): Option<int>
  {
    if |StatusPrefix| <= |msg| && msg[..|StatusPrefix|] == StatusPrefix
    then ParseInt(msg[|StatusPrefix|..])
    else None
  }

  lemma {:induction false} DecimalNatRoundTrip(n: nat)
    ensures DigitsValue(DecimalNat(n)) == n
  {
    if n >= 10 {
      var s := DecimalNat(n);
      assert s[..|s| - 1] == DecimalNat(n / 10);
      DecimalNatRoundTrip(n / 10);
    }
  }
}
