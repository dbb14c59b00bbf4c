# Liveness monitor: one check cycle, modelled in Dafny

This project models the decision and action-ordering logic of the liveness monitor in
`monitor-service/monitor.js`. The monitor polls a critical service by GET and classifies the
outcome as HEALTHY or FAILING. On FAILING it logs an alert, sends the alert to a Telegram proxy
(only when `CHANNEL_ID` is set) and asks an admin service to restart the critical service.

Every network and clock result is an input to the model:

- the probe outcome: a reply (status, latency in whole milliseconds, decoded body) or a thrown error message;
- the outcome of each of the two POSTs (delivered, or failed with a message);
- the configuration, as an immutable record (`Monitor.Config`, with `Monitor.DefaultConfig()` giving the source's defaults);
- `toFixed(2)`, as a function parameter `fixed2`.

One cycle is the pure function `Monitor.CycleTrace`. It returns the ordered trace of what the cycle
does: the GET, the POSTs with their URLs, payloads and timeouts, and the console lines, recorded by
what they report. The methods `SendTelegram`, `RestartService` and `CheckStatus` follow the source
step by step. `CheckStatus` updates a local `alertMessage` the way `checkStatus` does. Each method is
proved to produce exactly the specified trace.

Files:

- `wrappers.dfy`: `Option`.
- `decimal.dfy`: how an integer status prints in a template literal, and its inverse.
- `alerts.dfy`: the two alert messages, and a parse that recovers what each was built from.
- `monitor.dfy`: configuration, classification, the trace specification and the three methods.
- `properties.dfy`: which calls a cycle makes, how many and in what order, the channel gate, the
  fixed restart payload, recovery despite sink failures, the inert `memory` field, and scenarios.

Two details of the code are modelled as written:

- `body.memory` is read inside the `try` block. A reply whose decoded body is `null` or `undefined`
  (`Monitor.Nullish`) therefore throws a TypeError there. Such a reply is reported as
  `ALERT: service unreachable (<TypeError message>)`, with no status line, whatever its status and
  latency (`MonitorProperties.NullishBodyUnreachable`). The TypeError's wording depends on the
  JavaScript engine, so the body carries it as an input, the way a thrown probe carries its message.
- `if (alertMessage)` tests JavaScript truthiness (`Monitor.Truthy`). Recovery always runs on
  FAILING only because every alert message is non-empty (`Alerts.Text`).

With axios's default settings, a reply whose status is outside 2xx reaches the `catch` branch as an
error, not the `status !== 200` test. A 503 reply therefore alerts as "service unreachable
(Request failed with status code 503)", not as "status 503". The model takes the probe outcome as
input, so both shapes can be expressed. `Replied` with a non-200 status stands for whatever reply
reaches line 61.

## Model

| member | source | states |
|---|---|---|
| `Decimal.NatText` | monitor-service/monitor.js:63 | the printed status is digits only, at least one, with a leading zero only for 0 |
| `Decimal.IntText` | monitor-service/monitor.js:63 | the printed status is never empty, starts with `-` exactly when negative, and holds only digits besides that sign, so it contains no space |
| `Decimal.ParseIntText` | monitor-service/monitor.js:63 | printing the status as the template literal does and reading it back gives the same integer |
| `Alerts.Text` | monitor-service/monitor.js:63-66 | each alert message starts with `ALERT: ` and is never empty, so `if (alertMessage)` always holds for it |
| `Alerts.ParseText` | monitor-service/monitor.js:63-66 | a status alert's message yields back its status and formatted latency; an unreachable alert's message yields back the error message |
| `Alerts.TextInjective` | monitor-service/monitor.js:63-66 | two different alerts never produce the same message |
| `Monitor.DefaultConfig` | monitor-service/monitor.js:3-8 | without environment variables, notifications are off (empty channel), the poll interval is 5000 ms and the latency threshold 0.5 s |
| `Monitor.IsFailingReply` | monitor-service/monitor.js:61 | the FAILING test of line 61, restated in milliseconds (status not 200, or latency in ms above threshold × 1000); what follows from it is stated by `Monitor.Classify` and `MonitorProperties.NonOkStatusAlerts` |
| `Monitor.ChannelSet` | monitor-service/monitor.js:11 | the channel gate: only the empty channel id is falsy; its effect on the calls is stated by `MonitorProperties.NotifyCalls` |
| `Monitor.Truthy` | monitor-service/monitor.js:69 | truthiness of `alertMessage`; `MonitorProperties.AlertMessageTruthy` proves null is falsy and every alert message truthy |
| `MonitorProperties.AlertMessageTruthy` | monitor-service/monitor.js:48-69 | `alertMessage` is falsy while null and truthy once it holds either alert message, so `if (alertMessage)` runs the alert steps exactly on FAILING |
| `Monitor.Classify` | monitor-service/monitor.js:47-67 | HEALTHY exactly when the probe replied, its body could be read, the status is 200 and latency/1000 ≤ threshold; a thrown probe, or a nullish body, gives the unreachable alert with the error's message; a failing reply gives the status alert with its status and formatted latency |
| `Monitor.ProbeSteps` | monitor-service/monitor.js:50-58 | the probe step is the GET to the target URL with a 2000 ms timeout; exactly when a reply's body could be read, healthy or failing, it is followed by the stdout status line with that reply's status and latency |
| `Monitor.NotifySteps` | monitor-service/monitor.js:10-29 | two steps, the POST first, when a channel is set; one step otherwise; the last step is always a console line, a failed POST included |
| `Monitor.RestartSteps` | monitor-service/monitor.js:33-41 | three steps with the restart POST in the middle; a failure ends the step with the stderr line carrying the error message |
| `Monitor.AlertSteps` | monitor-service/monitor.js:69-74 | the alert line first, then exactly the notification steps, with the restart POST second to last |
| `Monitor.CycleTrace` | monitor-service/monitor.js:47-75 | every cycle starts with the GET; a cycle is HEALTHY exactly when nothing follows the probe steps; a FAILING cycle's restart POST is its second-to-last action |
| `Monitor.SendTelegram` | monitor-service/monitor.js:10-29 | without a channel, only a skip line; with one, one POST to the send-message endpoint, then a sent line or a failure line, and nothing propagates |
| `Monitor.RestartService` | monitor-service/monitor.js:33-41 | a request line, one POST to the restart URL, then a completion line or a failure line carrying the error message |
| `Monitor.CheckStatus` | monitor-service/monitor.js:47-75 | the method that mutates `alertMessage` and sequences the awaited steps produces exactly the cycle trace |
| `MonitorProperties.ProbeCalls` | monitor-service/monitor.js:50-58 | the probe step issues exactly one GET, to the target URL, with a 2000 ms timeout |
| `MonitorProperties.NotifyCalls` | monitor-service/monitor.js:11-24 | empty channel id: only the skip line and no call; non-empty: exactly one POST to `<base>/send-message` with `{channel_name, message}` and a 3000 ms timeout |
| `MonitorProperties.RestartCalls` | monitor-service/monitor.js:33-41 | whatever its outcome, the restart step issues exactly one POST, to the restart URL, with `{service: "critical"}` and a 3000 ms timeout |
| `MonitorProperties.AlertStepsCalls` | monitor-service/monitor.js:69-74 | the alert part of a cycle holds exactly one alert line and issues the notification POST (if a channel is set) before the one restart POST |
| `MonitorProperties.CycleCalls` | monitor-service/monitor.js:47-75 | the calls of a cycle are the GET, then nothing if HEALTHY; if FAILING, the notification POST when a channel is set, then exactly one restart POST |
| `MonitorProperties.CycleAlertLines` | monitor-service/monitor.js:48-70 | a cycle logs no alert when HEALTHY and exactly one, the alert's message, when FAILING |
| `MonitorProperties.HealthyReply` | monitor-service/monitor.js:58-69 | status 200 within the threshold: the trace is the GET and the status line only, with no notification and no restart |
| `MonitorProperties.NonOkStatusAlerts` | monitor-service/monitor.js:61-63 | a status other than 200 alerts whatever the latency and threshold |
| `MonitorProperties.FailingReplyAlertText` | monitor-service/monitor.js:61-63 | a failing reply's alert begins `ALERT: status <status> latency ` |
| `MonitorProperties.ThrownProbeAlert` | monitor-service/monitor.js:65-66 | a thrown probe gives exactly `ALERT: service unreachable (<message>)`, whatever the threshold |
| `MonitorProperties.NullishBodyUnreachable` | monitor-service/monitor.js:54-66 | a null or undefined body fails at the `memory` read, whatever the status and latency: an unreachable alert with the TypeError's message, no status line, then alert, notify and restart |
| `MonitorProperties.FailingCycleOrder` | monitor-service/monitor.js:69-74 | a FAILING trace is the probe steps, the alert line, the notification steps, then the restart steps. The restart POST and its outcome line come last whatever the notification outcome, so a sink failure neither stops recovery nor escapes the cycle |
| `MonitorProperties.FailingCycleRestarts` | monitor-service/monitor.js:69-74 | for every notification outcome, a FAILING cycle's last call is the restart POST: a sink failure never stops recovery |
| `MonitorProperties.MemoryInert` | monitor-service/monitor.js:55-61 | two replies differing only in `memory` give the same cycle trace |
| `MonitorProperties.ScenarioHealthy` | monitor-service/monitor.js:61 | defaults, status 200 in 200 ms: only the GET is issued |
| `MonitorProperties.ScenarioSlow` | monitor-service/monitor.js:61-74 | status 200 in 800 ms against 0.5 s with a channel set: alert `ALERT: status 200 latency <0.8 formatted>s`, then the notification POST and the restart POST |
| `MonitorProperties.ScenarioBadStatus` | monitor-service/monitor.js:61-73 | status 503 in 100 ms: alert `ALERT: status 503 latency <0.1 formatted>s` and a restart POST |
| `MonitorProperties.ScenarioRefused` | monitor-service/monitor.js:65-73 | probe throws `ECONNREFUSED`: alert `ALERT: service unreachable (ECONNREFUSED)` and a restart POST |
| `MonitorProperties.ScenarioRejectedStatus` | monitor-service/monitor.js:65-66 | a 503 rejected by the HTTP client as `Request failed with status code 503` alerts as `ALERT: service unreachable (Request failed with status code 503)` |
| `MonitorProperties.ScenarioRejectedStatusRestarts` | monitor-service/monitor.js:65-73 | that rejected 503 still leads to the restart POST |
| `MonitorProperties.ScenarioNoChannel` | monitor-service/monitor.js:11-13 | default (empty) channel on a FAILING cycle: a skip line, no notification POST, and still the restart POST |

## Left out

- Scheduling (`setInterval`, monitor-service/monitor.js:81) and the possible overlap of cycles are not modelled. The model covers one cycle. Because a cycle takes no state from earlier cycles, repeated cycles behave independently.
- The trace lists steps in the order they settle. The interleaving of in-flight calls from overlapping cycles is not modelled.
- Timing by `Date.now()` is not modelled. Latency is an input in whole milliseconds. It is compared as the exact real `ms / 1000` against a `real` threshold, not in floating point.
- `toFixed(2)` is the parameter `fixed2`, and its rounding is not modelled. The `toFixed(3)` status line is recorded as status and milliseconds.
- Environment parsing (`parseInt`, `parseFloat`) is not modelled. A NaN threshold, under which no latency would ever exceed it, cannot be expressed.
- axios calls are replaced by their outcomes. Status validation, the 2000/3000 ms timeouts' effect and error message wording belong to the library. The timeouts appear only as fields of the calls.
- The wording of the TypeError thrown by reading `memory` from a null or undefined body belongs to the JavaScript engine. It is an input carried by `Monitor.Nullish`.
- Console text is recorded by what each line reports and which stream it goes to. The exact wording and the start-up banner (monitor-service/monitor.js:77-79) are not modelled.
- The memory-threshold recovery that the exercise comments describe is not implemented in the source, and is not modelled.
