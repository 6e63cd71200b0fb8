/**
 * The monitor loop of APIMonitor: one check per iteration, a "down" alert on
 * every unhealthy check, a "back online" alert on the first healthy check
 * after an unhealthy one, and one boolean of state, previous_healthy.
 *
 * The endless loop is modelled over a finite sequence of iterations; each
 * iteration supplies what the outside world contributes to it: the outcome
 * of the GET, the wall-clock timestamp, and the reply the bot API would give
 * to a POST made in that iteration (ignored when nothing is posted).
 */
module ApiMonitor {
  import opened Wrappers
  import Decimal
  import opened Health
  import opened Telegram

  /** The fields an APIMonitor is constructed with; never changed afterwards. */
  datatype Config = Config(apiUrl: string, botToken: string, chatId: string)

  datatype Iteration = Iteration(probe: Probe, timestamp: string, reply: ProviderReply)

  datatype Alert = Down | BackOnline

  /** One message handed to the notifier, and whether it was delivered. */
  datatype Notification = Notification(alert: Alert, text: string, delivered: bool)

  const DownHeadline := "\U{1F6A8} <b>Server is down</b>"
  const BackOnlineHeadline := "\U{1F7E2} <b>Server is back online</b>"
  const UrlLabel := "\n\n<b>URL:</b> "
  const StatusCodeLabel := "\n<b>Status Code:</b> "
  const MessageLabel := "\n<b>Message:</b> "
  const TimeLabel := "\n<b>Time:</b> "

  function Headline(alert: Alert): (line: string) {
    match alert
    case Down => DownHeadline
    case BackOnline => BackOnlineHeadline
  }

  /** The concatenation of `parts`, in order. */
  function Concat(parts: seq<string>): (s: string) {
    if parts == [] then [] else Concat(parts[..|parts| - 1]) + parts[|parts| - 1]
  }

  /**
   * The two HTML message templates, chosen by `alert`: the headline, then the
   * URL, the status code as Python's str renders it, the message and the
   * timestamp, each behind its bold label.
   */
  function AlertText(apiUrl: string, alert: Alert, check: CheckResult, timestamp: string): (text: string) {
    Concat([Headline(alert),
            UrlLabel, apiUrl,
            StatusCodeLabel, Decimal.IntToString(check.statusCode),
            MessageLabel, check.message,
            TimeLabel, timestamp])
  }

  lemma ConcatSnoc(parts: seq<string>, x: string)
    ensures Concat(parts + [x]) == Concat(parts) + x
  {
  }

  lemma ConcatNine(a: string, b: string, c: string, d: string, e: string,
                   f: string, g: string, h: string, i: string)
    ensures Concat([a, b, c, d, e, f, g, h, i]) == a + b + c + d + e + f + g + h + i
  {
    ConcatSnoc([], a);
    assert [] + [a] == [a];
    ConcatSnoc([a], b);
    assert [a] + [b] == [a, b];
    ConcatSnoc([a, b], c);
    assert [a, b] + [c] == [a, b, c];
    ConcatSnoc([a, b, c], d);
    assert [a, b, c] + [d] == [a, b, c, d];
    ConcatSnoc([a, b, c, d], e);
    assert [a, b, c, d] + [e] == [a, b, c, d, e];
    ConcatSnoc([a, b, c, d, e], f);
    assert [a, b, c, d, e] + [f] == [a, b, c, d, e, f];
    ConcatSnoc([a, b, c, d, e, f], g);
    assert [a, b, c, d, e, f] + [g] == [a, b, c, d, e, f, g];
    ConcatSnoc([a, b, c, d, e, f, g], h);
    assert [a, b, c, d, e, f, g] + [h] == [a, b, c, d, e, f, g, h];
    ConcatSnoc([a, b, c, d, e, f, g, h], i);
    assert [a, b, c, d, e, f, g, h] + [i] == [a, b, c, d, e, f, g, h, i];
  }

  /** The alert text laid out part by part, as the f-string writes it. */
  lemma AlertTextLayout(apiUrl: string, alert: Alert, check: CheckResult, timestamp: string)
    ensures AlertText(apiUrl, alert, check, timestamp)
         == Headline(alert) + UrlLabel + apiUrl
            + StatusCodeLabel + Decimal.IntToString(check.statusCode)
            + MessageLabel + check.message + TimeLabel + timestamp
  {
    ConcatNine(Headline(alert), UrlLabel, apiUrl,
               StatusCodeLabel, Decimal.IntToString(check.statusCode),
               MessageLabel, check.message, TimeLabel, timestamp);
  }

  /** A recipient can always tell a down alert from a back-online alert. */
  lemma AlertKindReadable(u1: string, a1: Alert, c1: CheckResult, t1: string,
                          u2: string, a2: Alert, c2: CheckResult, t2: string)
    requires AlertText(u1, a1, c1, t1) == AlertText(u2, a2, c2, t2)
    ensures a1 == a2
  {
    AlertTextLayout(u1, a1, c1, t1);
    AlertTextLayout(u2, a2, c2, t2);
    assert AlertText(u1, a1, c1, t1)[0] == Headline(a1)[0];
    assert AlertText(u2, a2, c2, t2)[0] == Headline(a2)[0];
  }

  function Healthy(it: Iteration): (healthy: bool) {
    CheckApiHealth(it.probe).isHealthy
  }

  /**
   * The reference for previous_healthy after the first `n` iterations: true
   * at start-up, then the health of the latest check.
   */
  function RecordedHealthy(iters: seq<Iteration>, n: nat): (healthy: bool)
    requires n <= |iters|
  {
    n == 0 || Healthy(iters[n - 1])
  }

  /** The alert for `alert` built from iteration `it`, and its delivery. */
  function Notify(cfg: Config, alert: Alert, it: Iteration): (m: Notification) {
    var text := AlertText(cfg.apiUrl, alert, CheckApiHealth(it.probe), it.timestamp);
    Notification(alert, text, SendTelegramMessage(cfg.botToken, cfg.chatId, text, it.reply))
  }

  /**
   * The reference for which alert iteration `i` sends, stated over the checks
   * themselves rather than over a flag: down on every unhealthy check, back
   * online on a healthy check whose predecessor was unhealthy.
   */
  function Decision(iters: seq<Iteration>, i: nat): (alert: Option<Alert>)
    requires i < |iters|
  {
    if !Healthy(iters[i]) then Some(Down)
    else if !RecordedHealthy(iters, i) then Some(BackOnline)
    else None
  }

  /** The notification iteration `i` sends, if any. */
  function Outcome(cfg: Config, iters: seq<Iteration>, i: nat): (sent: Option<Notification>)
    requires i < |iters|
  {
    match Decision(iters, i)
    case Some(alert) => Some(Notify(cfg, alert, iters[i]))
    case None => None
  }

  /** The notifications sent during the first `n` iterations, in order. */
  function Sent(cfg: Config, iters: seq<Iteration>, n: nat): (sent: seq<Notification>)
    requires n <= |iters|
  {
    if n == 0 then []
    else Sent(cfg, iters, n - 1) + (match Outcome(cfg, iters, n - 1) case Some(m) => [m] case None => [])
  }

  /**
   * The kinds of the alerts sent during the first `n` iterations, in order.
   * This equals `Kinds(Sent(cfg, iters, n))` (SentFollowsDecisions); it is kept
   * separate so that the counting and ordering proofs never unfold the
   * message texts, which is what makes them cheap for the verifier.
   */
  function AlertsSent(iters: seq<Iteration>, n: nat): (alerts: seq<Alert>)
    requires n <= |iters|
  {
    if n == 0 then []
    else AlertsSent(iters, n - 1) + (match Decision(iters, n - 1) case Some(a) => [a] case None => [])
  }

  function Kinds(s: seq<Notification>): (alerts: seq<Alert>) {
    seq(|s|, k requires 0 <= k < |s| => s[k].alert)
  }

  /**
   * The loop of APIMonitor.monitor over `iters`: returns the notifications it
   * sends and the final value of previous_healthy.
   */
  method Monitor(cfg: Config, iters: seq<Iteration>) returns (sent: seq<Notification>, previousHealthy: bool)
    ensures sent == Sent(cfg, iters, |iters|)
    ensures previousHealthy == RecordedHealthy(iters, |iters|)
  {
    previousHealthy := true;
    sent := [];
    var i := 0;
    while i < |iters|
      invariant 0 <= i <= |iters|
      invariant previousHealthy == RecordedHealthy(iters, i)
      invariant sent == Sent(cfg, iters, i)
    {
      var it := iters[i];
      var check := CheckApiHealth(it.probe);
      if !check.isHealthy {
        previousHealthy := false;
        var text := AlertText(cfg.apiUrl, Down, check, it.timestamp);
        var delivered := SendTelegramMessage(cfg.botToken, cfg.chatId, text, it.reply);
        sent := sent + [Notification(Down, text, delivered)];
      } else if !previousHealthy {
        var text := AlertText(cfg.apiUrl, BackOnline, check, it.timestamp);
        var delivered := SendTelegramMessage(cfg.botToken, cfg.chatId, text, it.reply);
        sent := sent + [Notification(BackOnline, text, delivered)];
        previousHealthy := true;
      }
      i := i + 1;
    }
  }

  /**
   * Every unhealthy check sends one down alert carrying that check's status
   * code and message, whatever came before: repeated failures are not
   * deduplicated.
   */
  lemma DownOnEveryFailure(cfg: Config, iters: seq<Iteration>, i: nat)
    requires i < |iters| && !Healthy(iters[i])
    ensures Outcome(cfg, iters, i).Some? && Outcome(cfg, iters, i).value.alert == Down
    ensures Outcome(cfg, iters, i).value.text
         == AlertText(cfg.apiUrl, Down, CheckApiHealth(iters[i].probe), iters[i].timestamp)
    ensures !RecordedHealthy(iters, i + 1)
  {
  }

  /** A back-online alert is sent exactly on an unhealthy-to-healthy edge. */
  lemma BackOnlineExactlyOnRecovery(cfg: Config, iters: seq<Iteration>, i: nat)
    requires i < |iters|
    ensures (Outcome(cfg, iters, i).Some? && Outcome(cfg, iters, i).value.alert == BackOnline)
        <==> (Healthy(iters[i]) && i > 0 && !Healthy(iters[i - 1]))
    ensures Healthy(iters[i]) ==> RecordedHealthy(iters, i + 1)
  {
  }

  /** Nothing is sent exactly when the check is healthy and the recorded state was healthy. */
  lemma SilentExactlyWhenSteady(cfg: Config, iters: seq<Iteration>, i: nat)
    requires i < |iters|
    ensures Outcome(cfg, iters, i).None? <==> Healthy(iters[i]) && RecordedHealthy(iters, i)
  {
  }

  /** Healthy checks from start-up on send nothing: the initial state is healthy. */
  lemma {:induction false} HealthyStartIsSilent(cfg: Config, iters: seq<Iteration>, n: nat)
    requires n <= |iters|
    requires forall j :: 0 <= j < n ==> Healthy(iters[j])
    ensures Sent(cfg, iters, n) == []
  {
    if n > 0 {
      HealthyStartIsSilent(cfg, iters, n - 1);
    }
  }

  /** The alerts sent are, one for one, the alerts decided. */
  lemma {:induction false} SentFollowsDecisions(cfg: Config, iters: seq<Iteration>, n: nat)
    requires n <= |iters|
    ensures Kinds(Sent(cfg, iters, n)) == AlertsSent(iters, n)
  {
    if n > 0 {
      SentFollowsDecisions(cfg, iters, n - 1);
      var prev := Sent(cfg, iters, n - 1);
      var o := Outcome(cfg, iters, n - 1);
      if o.Some? {
        assert Sent(cfg, iters, n) == prev + [o.value];
        assert Kinds(prev + [o.value]) == Kinds(prev) + [o.value.alert];
      } else {
        assert Sent(cfg, iters, n) == prev;
      }
    }
  }

  function CountUnhealthy(iters: seq<Iteration>, n: nat): (count: nat)
    requires n <= |iters|
  {
    if n == 0 then 0 else CountUnhealthy(iters, n - 1) + (if Healthy(iters[n - 1]) then 0 else 1)
  }

  function Count(alerts: seq<Alert>, alert: Alert): (count: nat) {
    if alerts == [] then 0
    else Count(alerts[..|alerts| - 1], alert) + (if alerts[|alerts| - 1] == alert then 1 else 0)
  }

  lemma CountSnoc(alerts: seq<Alert>, a: Alert, alert: Alert)
    ensures Count(alerts + [a], alert) == Count(alerts, alert) + (if a == alert then 1 else 0)
  {
  }

  /** As many down alerts are sent as there were unhealthy checks. */
  lemma {:induction false} DownsMatchFailures(cfg: Config, iters: seq<Iteration>, n: nat)
    requires n <= |iters|
    ensures Count(Kinds(Sent(cfg, iters, n)), Down) == CountUnhealthy(iters, n)
  {
    SentFollowsDecisions(cfg, iters, n);
    DownCount(iters, n);
  }

  lemma {:induction false} DownCount(iters: seq<Iteration>, n: nat)
    requires n <= |iters|
    ensures Count(AlertsSent(iters, n), Down) == CountUnhealthy(iters, n)
  {
    if n > 0 {
      DownCount(iters, n - 1);
      match Decision(iters, n - 1)
      case None =>
        assert AlertsSent(iters, n) == AlertsSent(iters, n - 1);
      case Some(a) =>
        CountSnoc(AlertsSent(iters, n - 1), a, Down);
    }
  }

  /** Every back-online alert in `alerts` immediately follows a down alert. */
  predicate BackOnlineAfterDown(alerts: seq<Alert>) {
    forall k :: 0 <= k < |alerts| && alerts[k] == BackOnline ==> k > 0 && alerts[k - 1] == Down
  }

  lemma AppendKeepsBackOnlineAfterDown(alerts: seq<Alert>, a: Alert)
    requires BackOnlineAfterDown(alerts)
    requires a == BackOnline ==> |alerts| > 0 && alerts[|alerts| - 1] == Down
    ensures BackOnlineAfterDown(alerts + [a])
  {
  }

  /**
   * In the stream of sent alerts every back-online alert immediately follows
   * a down alert, and while the recorded state is unhealthy the latest alert
   * sent is a down alert.
   */
  lemma {:induction false} BackOnlineFollowsDown(cfg: Config, iters: seq<Iteration>, n: nat)
    requires n <= |iters|
    ensures BackOnlineAfterDown(Kinds(Sent(cfg, iters, n)))
    ensures var s := Sent(cfg, iters, n);
      !RecordedHealthy(iters, n) ==> |s| > 0 && s[|s| - 1].alert == Down
  {
    SentFollowsDecisions(cfg, iters, n);
    AlertsAlternate(iters, n);
    var s := Sent(cfg, iters, n);
    if |s| > 0 {
      assert Kinds(s)[|s| - 1] == s[|s| - 1].alert;
    }
  }

  lemma {:induction false} AlertsAlternate(iters: seq<Iteration>, n: nat)
    requires n <= |iters|
    ensures BackOnlineAfterDown(AlertsSent(iters, n))
    ensures var s := AlertsSent(iters, n);
      !RecordedHealthy(iters, n) ==> |s| > 0 && s[|s| - 1] == Down
  {
    if n > 0 {
      AlertsAlternate(iters, n - 1);
      var prev := AlertsSent(iters, n - 1);
      match Decision(iters, n - 1)
      case None =>
        assert AlertsSent(iters, n) == prev;
      case Some(a) =>
        assert AlertsSent(iters, n) == prev + [a];
        AppendKeepsBackOnlineAfterDown(prev, a);
    }
  }

  /**
   * Two healthy checks, a timeout, then two healthy checks: one down alert
   * reporting status 0 for the timeout, one back-online alert for the first
   * healthy check after it, and nothing else.
   */
  lemma TimeoutScenario(cfg: Config, iters: seq<Iteration>)
    requires |iters| == 5
    requires iters[0].probe == Response(200) && iters[1].probe == Response(200)
    requires iters[2].probe == Timeout
    requires iters[3].probe == Response(200) && iters[4].probe == Response(200)
    ensures Sent(cfg, iters, 2) == []
    ensures Sent(cfg, iters, 5) == [
      Notify(cfg, Down, iters[2]),
      Notify(cfg, BackOnline, iters[3])]
    ensures Notify(cfg, Down, iters[2]).text
         == AlertText(cfg.apiUrl, Down, CheckResult(false, 0, TimeoutMessage), iters[2].timestamp)
    ensures RecordedHealthy(iters, 5)
  {
    assert Sent(cfg, iters, 1) == [];
    assert Sent(cfg, iters, 2) == [];
    assert Sent(cfg, iters, 3) == [Notify(cfg, Down, iters[2])];
    assert Sent(cfg, iters, 4) == [Notify(cfg, Down, iters[2]), Notify(cfg, BackOnline, iters[3])];
  }
}
