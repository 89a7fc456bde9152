/**
 * The success rule every REST call of the console applies to its response:
 * a status code in the Successful class (section 15.3 of RFC 9110, the
 * range 200 to 299) lets the call go on, any other code raises a
 * `RequestException` whose message names the request method, the URL, the
 * status code and the response body.
 */
module Http {
  import opened Wrappers
  import Python

  datatype Method = GET | POST | PUT

  /** The method name as `requests` reports it in `response.request.method`. */
  function MethodName(m: Method): string
  {
    match m
    case GET => "GET"
    case POST => "POST"
    case PUT => "PUT"
  }

  /** What a call needs of a `requests.Response`: the request verb and URL, the status and the body text. */
  datatype Response = Response(verb: Method, url: string, statusCode: int, text: string)

  /** The `requests.RequestException` raised for `response`; its message is `Message()`. */
  datatype RequestException = RequestException(response: Response)
  {
    function Message(): string
    {
      FailureMessage(response)
    }
  }

  /** `status_code in range(200, 300)`. */
  predicate IsSuccess(statusCode: int)
  {
    200 <= statusCode < 300
  }

  /** The message `assertSuccess` formats for a failed response. */
  function FailureMessage(r: Response): (m: string)
    ensures |m| > 10 + |r.url| + |r.text|
    ensures m[..10] == "\n\nRequest " && m[|m| - 1] == '\n'
  {
    "\n\nRequest " + MethodName(r.verb) + " '" + r.url + "' failed ("
      + Python.IntToString(r.statusCode) + "):\n" + r.text + "\n"
  }

  /** `assertSuccess(response)`: passes exactly on a 2xx status, otherwise raises with the formatted message. */
  function AssertSuccess(r: Response): (o: Outcome<RequestException>)
    ensures o.Pass? <==> 200 <= r.statusCode < 300
    ensures o.Fail? ==> o.error.Message() == FailureMessage(r)
  {
    if IsSuccess(r.statusCode) then Pass else Fail(RequestException(r))
  }

  /**
   * The failure message carries the method, the URL, the status code (in a form
   * that reads back to the same number) and the body, each at a known place.
   */
  lemma FailureMessageFields(r: Response)
    ensures (var m := FailureMessage(r);
            var name := MethodName(r.verb);
            var u := 12 + |name|;
            var q := u + |r.url| + 10;
            var status := Python.IntToString(r.statusCode);
            && m[..10] == "\n\nRequest "
            && m[10..10 + |name|] == name
            && m[u..u + |r.url|] == r.url
            && Python.ParseInt(m[q..q + |status|]) == r.statusCode
            && m[|m| - 1 - |r.text|..|m| - 1] == r.text)
  {
    var m := FailureMessage(r);
    var name := MethodName(r.verb);
    var status := Python.IntToString(r.statusCode);
    var u := 12 + |name|;
    var q := u + |r.url| + 10;
    assert m == "\n\nRequest " + name + " '" + r.url + "' failed (" + status + "):\n" + r.text + "\n";
    assert m[q..q + |status|] == status;
    Python.ParseIntToString(r.statusCode);
  }
}
