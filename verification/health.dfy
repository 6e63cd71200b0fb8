/**
 * The health checker: one GET of the target URL, whose outcome is classified
 * into the triple (is_healthy, status_code, message).  The GET itself is not
 * modelled; its outcome is the input `Probe`.
 */
module Health {
  import Decimal

  /** What the GET produced: a response, or one of the exceptions caught. */
  datatype Probe =
    | Response(status: int)           // an HTTP response arrived
    | Timeout                         // requests.exceptions.Timeout
    | ConnectionError                 // requests.exceptions.ConnectionError
    | RequestError(description: string)  // any other requests.exceptions.RequestException
    | OtherError(description: string)    // any other Exception

  datatype CheckResult = CheckResult(isHealthy: bool, statusCode: int, message: string)

  const HealthyMessage := "API is responding normally"
  const TimeoutMessage := "API request timed out"
  const ConnectionMessage := "Failed to connect to API"
  const StatusPrefix := "API returned status "
  const RequestPrefix := "Request failed: "
  const UnexpectedPrefix := "Unexpected error: "

  predicate IsTransportFailure(p: Probe) {
    !p.Response?
  }

  /** Classification of one probe; total, so a check never raises. */
  function CheckApiHealth(p: Probe): (r: CheckResult)
    ensures r.isHealthy <==> p == Response(200)
    ensures p.Response? ==> r.statusCode == p.status
    ensures IsTransportFailure(p) ==> r.statusCode == 0
  {
    match p
    case Response(status) =>
      if status == 200 then CheckResult(true, status, HealthyMessage)
      else CheckResult(false, status, StatusPrefix + Decimal.IntToString(status))
    case Timeout => CheckResult(false, 0, TimeoutMessage)
    case ConnectionError => CheckResult(false, 0, ConnectionMessage)
    case RequestError(e) => CheckResult(false, 0, RequestPrefix + e)
    case OtherError(e) => CheckResult(false, 0, UnexpectedPrefix + e)
  }

  /** A 200 response yields exactly the healthy triple. */
  lemma HealthyTriple(p: Probe)
    requires CheckApiHealth(p).isHealthy
    ensures CheckApiHealth(p) == CheckResult(true, 200, HealthyMessage)
  {
  }

  /**
   * A non-200 response is unhealthy, keeps its code, and the message names
   * the code so that two different codes never give the same message.
   */
  lemma NonOkStatusKept(a: int, b: int)
    requires a != 200 && b != 200
    ensures !CheckApiHealth(Response(a)).isHealthy && CheckApiHealth(Response(a)).statusCode == a
    ensures CheckApiHealth(Response(a)).message == StatusPrefix + Decimal.IntToString(a)
    ensures CheckApiHealth(Response(a)).message == CheckApiHealth(Response(b)).message <==> a == b
  {
    var ma := CheckApiHealth(Response(a)).message;
    var mb := CheckApiHealth(Response(b)).message;
    if ma == mb {
      assert ma[|StatusPrefix|..] == Decimal.IntToString(a);
      assert mb[|StatusPrefix|..] == Decimal.IntToString(b);
      Decimal.IntToStringInjective(a, b);
    }
  }

  /** 503 is reported as unhealthy with status 503, never as healthy. */
  lemma ServiceUnavailable()
    ensures CheckApiHealth(Response(503)) == CheckResult(false, 503, "API returned status 503")
  {
  }

  /**
   * For any response whose status is not 0, the status code is 0 exactly when
   * the GET failed at the transport level.  (A response with status 0 would
   * look like a transport failure.)
   */
  lemma StatusZeroExactlyOnTransportFailure(p: Probe)
    requires p.Response? ==> p.status != 0
    ensures CheckApiHealth(p).statusCode == 0 <==> IsTransportFailure(p)
  {
  }

  /**
   * The transport failures are told apart by their message: equal messages
   * mean the same kind of failure with the same description.  In particular
   * a timeout and a refused connection give different messages.
   */
  lemma TransportMessagesDistinct(p: Probe, q: Probe)
    requires IsTransportFailure(p) && IsTransportFailure(q)
    ensures CheckApiHealth(p).message == CheckApiHealth(q).message <==> p == q
  {
    var mp, mq := CheckApiHealth(p).message, CheckApiHealth(q).message;
    if mp == mq {
      assert mp[0] == mq[0];
      match p
      case RequestError(e) =>
        assert q.RequestError?;
        assert mp[|RequestPrefix|..] == e;
        assert mq[|RequestPrefix|..] == q.description;
      case OtherError(e) =>
        assert q.OtherError?;
        assert mp[|UnexpectedPrefix|..] == e;
        assert mq[|UnexpectedPrefix|..] == q.description;
      case _ =>
    }
  }
}
