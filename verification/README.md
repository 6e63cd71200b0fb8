# server-health-checker: the health-check-and-notify logic of APIMonitor

This project models the decision logic of `APIMonitor` in `monitor.py`. The monitor
polls one HTTP endpoint and sends Telegram messages about its health. Every network
call is turned into an input value, which leaves three parts:

- **Health check** (`Health`): the outcome of one GET is classified into the triple
  `(is_healthy, status_code, message)`. The outcome (`Probe`) is a response with a
  status code, a timeout, a connection error, another request exception, or any
  other exception.
- **Notifier** (`Telegram`): decides whether a POST to the bot API is made at all
  (token and chat id both non-empty) and what request it would be. It then turns the
  provider's reply (`ProviderReply`: a status, or a raised exception) into the
  boolean "delivered".
- **Monitor loop** (`ApiMonitor`): the `while` loop over the one boolean
  `previous_healthy`, run over a finite sequence of iterations. Each iteration
  supplies the probe outcome, the timestamp and the reply the bot API would give.
  `Monitor` is the imperative loop. `Decision`, `Outcome` and `Sent` are its
  reference definition, stated over the checks themselves instead of over the flag.
  The lemmas state the alerting policy: a down alert on every failed check, a
  back-online alert exactly on the unhealthy-to-healthy edge, and nothing otherwise.

`Decimal` renders integers as Python's `str(int)` does. It is used for the
`"API returned status {code}"` message and the status code in the alert text. Its
parse round trip shows that a rendered code identifies the code.

Three details of `monitor.py` shape the model:
- `check_api_health` returns a triple `(is_healthy, status_code, message)` (monitor.py:34-67);
- the transport-failure messages are "API request timed out" and "Failed to connect to API",
  and the other two exception branches prefix the exception's text with "Request failed: "
  or "Unexpected error: ";
- on an unhealthy check `previous_healthy` is set to false before the down alert is sent
  (monitor.py:120-131), and on recovery it is set to true after the send, whatever the send
  returned (monitor.py:146-150).

## Model

| member | source | states |
|---|---|---|
| Health.CheckApiHealth | monitor.py:34-67 | a probe is healthy exactly when it is a 200 response; a response keeps its status code; every transport failure or exception gives status 0; the check is total (never raises) |
| Health.HealthyTriple | monitor.py:45-47 | a healthy check is exactly `(True, 200, "API is responding normally")` |
| Health.NonOkStatusKept | monitor.py:48-50 | a non-200 response is unhealthy, keeps its code, and its message is "API returned status " followed by the code as `str` renders it; two non-200 codes give the same message only if they are equal |
| Health.ServiceUnavailable | monitor.py:48-50 | a 503 response is classified as `(False, 503, "API returned status 503")`, never healthy |
| Health.StatusZeroExactlyOnTransportFailure | monitor.py:52-67 | for every response whose status is not 0, status 0 is reported exactly when the GET failed at the transport level (a response with status 0 would look like a transport failure) |
| Health.TransportMessagesDistinct | monitor.py:52-67 | two transport failures give the same message exactly when they are the same failure with the same description; a timeout and a refused connection differ |
| Decimal.NatToString | monitor.py:50 | the rendering of a natural number is a non-empty string of decimal digits with no leading zero |
| Decimal.ParseNatToString | monitor.py:50 | parsing the decimal rendering of `n` gives back `n` |
| Decimal.IntToString | monitor.py:50 | Python's `str` of an int, used in the status message here and for the status code in both alert templates (monitor.py:126, 142): non-empty, and starting with '-' exactly for negative numbers |
| Decimal.IntToStringInjective | monitor.py:50 | different integers get different decimal renderings, including negative ones |
| Decimal.NegativeDigits | monitor.py:50 | after the minus sign, the rendering of a negative integer parses to its absolute value |
| Telegram.MessageRequest | monitor.py:79-89 | no request is built exactly when the token or the chat id is empty; otherwise the POST goes to "https://api.telegram.org/bot" + token + "/sendMessage" and carries the chat id, the message unchanged and parse mode HTML |
| Telegram.SendTelegramMessage | monitor.py:69-101 | the result is true exactly when token and chat id are non-empty and the provider answers 200; any other status or any exception gives false; total (never raises) |
| Telegram.UnconfiguredNeverPosts | monitor.py:79-81 | with an empty token or chat id no POST is made and the result is false, whatever the provider would have answered |
| ApiMonitor.AlertTextLayout | monitor.py:123-145 | `AlertText` is the f-string of both templates: the headline for the alert kind (down or back online), then the URL, the status code as `str` renders it, the message and the timestamp, each behind its bold label |
| ApiMonitor.AlertKindReadable | monitor.py:123-145 | a down alert text and a back-online alert text are never equal, whatever the URL, check and timestamp |
| ApiMonitor.Monitor | monitor.py:103-153 | the loop sends exactly the reference notifications `Sent`, and leaves `previous_healthy` equal to the latest check's health (true when nothing was checked), whether or not any send succeeded |
| ApiMonitor.DownOnEveryFailure | monitor.py:119-134 | every unhealthy check sends one down alert whatever the previous state, built from that check's status code and message; the recorded state becomes unhealthy |
| ApiMonitor.BackOnlineExactlyOnRecovery | monitor.py:135-150 | a back-online alert is sent if and only if the check is healthy and the previous check was unhealthy; after a healthy check the recorded state is healthy |
| ApiMonitor.SilentExactlyWhenSteady | monitor.py:135-136 | an iteration sends nothing if and only if its check is healthy and the recorded state was healthy |
| ApiMonitor.HealthyStartIsSilent | monitor.py:113-150 | since the state starts healthy, healthy checks from start-up send no notification |
| ApiMonitor.SentFollowsDecisions | monitor.py:115-150 | the kinds of the notifications sent are, one for one and in order, the alerts decided per iteration |
| ApiMonitor.DownCount | monitor.py:119-134 | the decided alerts contain as many down alerts as there were unhealthy checks |
| ApiMonitor.DownsMatchFailures | monitor.py:119-134 | as many down alerts are sent as there were unhealthy checks: repeated failures are not deduplicated |
| ApiMonitor.AlertsAlternate | monitor.py:113-150 | among the decided alerts every back-online alert directly follows a down alert; while the state is unhealthy the latest alert is a down alert |
| ApiMonitor.BackOnlineFollowsDown | monitor.py:113-150 | among the sent notifications every back-online alert directly follows a down alert, so none comes first and no two come in a row; while the state is unhealthy the latest one sent is a down alert |
| ApiMonitor.TimeoutScenario | monitor.py:113-153 | checks 200, 200, timeout, 200, 200 give no alert for the first two, one down alert reporting status 0 and the timeout message, one back-online alert, and nothing more |

## Left out

- The GET through `requests.Session` and the POST to the bot API are not performed. Their outcomes are the inputs `Probe` and `ProviderReply`.
- Timeouts are not modelled; a timeout is only a `Probe` value. The POST passes `timeout=10` (monitor.py:92). The GET sets no timeout of its own: monitor.py:32 assigns an attribute named `timeout` on the session object, but `requests.Session` never reads an attribute of that name. So the configured 30 seconds never applies to `session.get` at monitor.py:43. A `Timeout` outcome of the GET can therefore only come from a timeout reported by the operating system, which the `requests` timeout exceptions caught at monitor.py:52 still cover.
- Logging configuration and every log call: they have no effect on any decision.
- `time.sleep` and the endless `while True`: the loop runs over a finite sequence of iterations, and the check interval is not a parameter.
- `datetime.now().strftime(...)`: each iteration carries its timestamp as an opaque string.
- `KeyboardInterrupt` and the loop's catch-all handler: the end of the iteration sequence stands for the interrupt. In the model nothing inside an iteration can raise, because the check and the notifier are total, so the catch-all path never occurs. In the source, an exception caught by that handler leaves `previous_healthy` at whatever the iteration had set it to by then. That is false after monitor.py:120 in an unhealthy iteration. It is true after monitor.py:150 in a recovering iteration, for example if the sleep at monitor.py:153 raises. It is the previous value when the exception comes before either assignment.
- `main()`: reading the environment variables, the 300-second default interval and `sys.exit(1)` on missing configuration are startup glue. A token or chat id of `None` is not modelled; an empty string stands for "not configured".
- The emoji in the two headlines are written as the Unicode scalar values U+1F6A8 and U+1F7E2. Strings are sequences of Unicode scalar values, with no encoding.
- Each iteration carries a provider reply even when it posts nothing; the model ignores the reply then.
