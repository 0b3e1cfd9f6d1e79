/** The HTTP exception taxonomy of the client: one exception class per error
    kind, the fields every exception carries, and the classification of a
    status code into the class that is raised for it. */
module HttpErrors {
  import opened Wrappers
  import opened Json
  import Decimal

  /** The exception classes a classification can raise. Every one of them is
      a NuclinoHTTPException; `HTTPException` is that base class itself. */
  datatype ExceptionClass =
    | HTTPException
    | ValidationError
    | AuthenticationError
    | PermissionError
    | NotFoundError
    | RateLimitError
    | ServerError

  /** A raised exception: its class, `status_code`, `message` and
      `response_data`. `retryAfter` is the `retry_after` attribute, which only
      a NuclinoRateLimitError has (`Some(JNull)` when it is `None`). */
  datatype HttpException = HttpException(
    cls: ExceptionClass,
    statusCode: int,
    message: string,
    responseData: Json,
    retryAfter: Option<Json>)

  /** The rate-limit constructor calls `get` on a truthy `response_data`, so
      only a dict may be given there; the other classes accept any value. */
  predicate AcceptsData(cls: ExceptionClass, responseData: Json) {
    cls == RateLimitError && Truthy(responseData) ==> responseData.JObj?
  }

  /** The `retry_after` a rate-limit error takes from the data it was given. */
  function RetryAfter(responseData: Json): (r: Json)
    requires AcceptsData(RateLimitError, responseData)
    ensures GetItem(responseData, "retry_after").Success? ==> r == GetItem(responseData, "retry_after").value
    ensures GetItem(responseData, "retry_after").Failure? ==> r == JNull
  {
    if Truthy(responseData) then PyGet(responseData, "retry_after", JNull).value else JNull
  }

  /** The shape every constructed exception has: data that is a truthy value
      or the empty dict, and a `retry_after` exactly on a rate-limit error,
      taken from that data. */
  predicate WellFormed(e: HttpException) {
    && (Truthy(e.responseData) || e.responseData == JObj(map[]))
    && (e.retryAfter.Some? <==> e.cls == RateLimitError)
    && (e.cls == RateLimitError ==> AcceptsData(e.cls, e.responseData) && e.retryAfter.value == RetryAfter(e.responseData))
  }

  /** Constructing an exception of class `cls`: the fields are stored as
      given, except that absent or empty data becomes the empty dict; a
      rate-limit error also reads `retry_after` from the data. */
  function NewException(cls: ExceptionClass, statusCode: int, message: string, responseData: Json): (e: HttpException)
    requires AcceptsData(cls, responseData)
    ensures e.cls == cls && e.statusCode == statusCode && e.message == message
    ensures Truthy(responseData) ==> e.responseData == responseData
    ensures !Truthy(responseData) ==> e.responseData == JObj(map[])
    ensures WellFormed(e)
  {
    var data := if Truthy(responseData) then responseData else JObj(map[]);
    var retry := if cls == RateLimitError then Some(RetryAfter(responseData)) else None;
    HttpException(cls, statusCode, message, data, retry)
  }

  /** A well-formed exception is exactly what the constructor builds from its
      own fields: normalising the data a second time changes nothing. */
  lemma RebuildWellFormed(e: HttpException)
    requires WellFormed(e)
    ensures AcceptsData(e.cls, e.responseData)
    ensures NewException(e.cls, e.statusCode, e.message, e.responseData) == e
  {
  }

  /** The statuses that have a class of their own. */
  const ExceptionMap: map<int, ExceptionClass> := map[
    400 := ValidationError,
    401 := AuthenticationError,
    403 := PermissionError,
    404 := NotFoundError,
    429 := RateLimitError
  ]

  /** The class raised for a status: the table first, then any other status
      in [500, 600) is a server error, and everything else is the base class.
      The classification is total and each class has exactly these statuses. */
  function ClassFor(statusCode: int): (c: ExceptionClass)
    ensures c == ValidationError <==> statusCode == 400
    ensures c == AuthenticationError <==> statusCode == 401
    ensures c == PermissionError <==> statusCode == 403
    ensures c == NotFoundError <==> statusCode == 404
    ensures c == RateLimitError <==> statusCode == 429
    ensures c == ServerError <==> 500 <= statusCode < 600
    ensures c == HTTPException <==>
      statusCode !in {400, 401, 403, 404, 429} && !(500 <= statusCode < 600)
  {
    if statusCode in ExceptionMap then ExceptionMap[statusCode]
    else if 500 <= statusCode < 600 then ServerError
    else HTTPException
  }

  /** `raise_for_status_code`: the exception it raises (it never returns
      normally) carries the given status and message, the class the status
      selects, and the given data or the empty dict when none or empty. */
  function RaiseForStatusCode(statusCode: int, message: string, responseData: Json := JNull): (e: HttpException)
    requires AcceptsData(ClassFor(statusCode), responseData)
    ensures e.cls == ClassFor(statusCode)
    ensures e.statusCode == statusCode && e.message == message
    ensures e.responseData == (if Truthy(responseData) then responseData else JObj(map[]))
    ensures WellFormed(e)
  {
    NewException(ClassFor(statusCode), statusCode, message, responseData)
  }

  /** The class raised depends only on the status, never on the message or
      the data. */
  lemma ClassDependsOnlyOnStatus(statusCode: int, m1: string, d1: Json, m2: string, d2: Json)
    requires AcceptsData(ClassFor(statusCode), d1)
    requires AcceptsData(ClassFor(statusCode), d2)
    ensures RaiseForStatusCode(statusCode, m1, d1).cls == RaiseForStatusCode(statusCode, m2, d2).cls
  {
  }

  /** A 429 carries the body's `retry_after`, or `None` when the body has none. */
  lemma RateLimitRetryAfter(message: string, body: map<string, Json>)
    ensures RaiseForStatusCode(429, message, JObj(body)).retryAfter ==
      Some(if "retry_after" in body then body["retry_after"] else JNull)
  {
  }

  /** The position of the first `c` in `s`, or `|s|` when there is none. */
  function IndexOf(c: char, s: string): (k: nat)
    ensures k <= |s|
    ensures k < |s| ==> s[k] == c
    ensures forall i :: 0 <= i < k ==> s[i] != c
  {
    if s == [] then 0 else if s[0] == c then 0 else 1 + IndexOf(c, s[1..])
  }

  /** Reads a string form back into its status and message. */
  function ParseStr(s: string): Option<(int, string)> {
    var k := IndexOf(':', s);
    if k + 1 < |s| && s[k + 1] == ' ' && Decimal.IsDecimal(s[..k])
    then Some((Decimal.ParseInt(s[..k]), s[k + 2..]))
    else None
  }

  /** The string form of an exception, `"<status_code>: <message>"`. It loses
      nothing: status and message can be read back from it, since the
      rendered status contains no colon. */
  function Str(e: HttpException): (r: string)
    ensures r == Decimal.IntToDecimal(e.statusCode) + ": " + e.message
    ensures ParseStr(r) == Some((e.statusCode, e.message))
  {
    var d := Decimal.IntToDecimal(e.statusCode);
    var s := d + ": " + e.message;
    assert IndexOf(':', s) == |d| by {
      assert s[|d|] == ':';
      forall i | 0 <= i < |d| ensures s[i] != ':' {
        assert s[i] == d[i];
        if i > 0 || e.statusCode >= 0 {
          assert Decimal.IsDigit(if e.statusCode < 0 then d[1..][i - 1] else d[i]);
        }
      }
    }
    assert s[..|d|] == d;
    assert s[|d| + 2..] == e.message;
    Decimal.ParseIntToDecimal(e.statusCode);
    s
  }
}
