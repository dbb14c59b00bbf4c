/**
 * One check cycle of the liveness monitor (monitor-service/monitor.js).
 *
 * Every network and clock result is an input: the outcome of the GET probe
 * (a reply with its status, its latency in whole milliseconds and its body,
 * or a thrown error), and whether each of the two POSTs was delivered. A
 * cycle produces an ordered trace of actions: the calls it issues and the
 * console lines it writes.
 */
module Monitor {
  import opened Wrappers
  import opened Alerts

  /** The process-wide settings, read once from the environment at start-up. */
  datatype Config = Config(
    targetUrl: string,           // CRITICAL_URL, probed by GET
    restartUrl: string,          // ADMIN_RESTART_URL, asked to restart the service
    telegramBaseUrl: string,     // TELEGRAM_PROXY_BASE_URL, the notification proxy
    channelId: string,           // CHANNEL_ID; empty switches notifications off
    pollIntervalMs: int,         // POLL_INTERVAL; used only by the timer
    latencyThresholdSec: real)   // LATENCY_THRESHOLD_SEC

  /** The settings when no environment variable is set: notifications are off by default. */
  function DefaultConfig(): (c: Config)
    ensures !ChannelSet(c.channelId)
    ensures c.pollIntervalMs == 5000 && c.latencyThresholdSec == 0.5
  {
    Config(
      "http://localhost:8080/status",
      "http://localhost:5001/restart_service",
      "http://localhost:8100",
      "",
      5 * 1000,
      0.5)
  }

  const ProbeTimeoutMs := 2000
  const SinkTimeoutMs := 3000
  const SendMessagePath: string := "/send-message"
  const RestartedService: string := "critical"

  /**
   * The decoded body of a reply. Reading `memory` from a null or undefined
   * body throws a TypeError, whose message (worded by the JavaScript engine)
   * `readError` carries; from anything else it gives the field, which is
   * kept as its raw JSON text and never looked at.
   */
  datatype Body = Nullish(readError: string) | Parsed(memory: Option<string>)

  datatype ProbeOutcome =
    | Replied(status: int, latencyMs: int, body: Body)
    | Threw(message: string)

  /** Whether a POST settled successfully, or the message of the error it threw. */
  datatype SinkOutcome = Delivered | Failed(message: string)

  datatype Payload =
    | SendMessage(channelName: string, message: string)  // {channel_name, message}
    | RestartRequest(service: string)                    // {service}

  datatype Stream = Stdout | Stderr

  /** Console lines, by what they report rather than by their exact text. */
  datatype Line =
    | StatusLine(status: int, latencyMs: int)
    | AlertLine(text: string)
    | TelegramSkipped(text: string)
    | TelegramSent(text: string, channel: string)
    | TelegramFailed
    | RestartRequested
    | RestartCompleted
    | RestartFailed(reason: string)

  datatype Action =
    | Get(url: string, timeoutMs: int)
    | Post(url: string, payload: Payload, timeoutMs: int)
    | Log(stream: Stream, line: Line)

  /** The per-cycle classification: HEALTHY, or FAILING with the alert to raise. */
  datatype Verdict = Healthy | Failing(alert: Alert)

  /** Latency in seconds of a delay measured in milliseconds. */
  function LatencySec(ms: int): real {
    ms as real / 1000.0
  }

  /** The test a reply must pass to count as healthy, negated. */
  predicate IsFailingReply(status: int, latencyMs: int, thresholdSec: real): (failing: bool)
    ensures failing <==> status != 200 || latencyMs as real > thresholdSec * 1000.0
  {
    status != 200 || LatencySec(latencyMs) > thresholdSec
  }

  /** The channel gate: JavaScript treats only the empty string as false. */
  predicate ChannelSet(channelId: string) {
    channelId != ""
  }

  /** JavaScript truthiness of a variable holding `null` or a string. */
  predicate Truthy(message: Option<string>) {
    message.Some? && message.value != ""
  }

  /**
   * Sorts one probe outcome into HEALTHY or FAILING. `fixed2` stands for
   * `toFixed(2)` applied to the latency in seconds.
   */
  function Classify(thresholdSec: real, probe: ProbeOutcome, fixed2: real -> string): (v: Verdict)
    ensures v.Healthy? <==>
      probe.Replied? && probe.body.Parsed? && probe.status == 200 && LatencySec(probe.latencyMs) <= thresholdSec
    ensures probe.Threw? ==> v == Failing(Unreachable(probe.message))
    ensures probe.Replied? && probe.body.Nullish? ==> v == Failing(Unreachable(probe.body.readError))
    ensures probe.Replied? && probe.body.Parsed? && v.Failing? ==>
      v.alert == BadReply(probe.status, fixed2(LatencySec(probe.latencyMs)))
  {
    match probe
    case Threw(message) => Failing(Unreachable(message))
    case Replied(status, latencyMs, body) =>
      if !body.Parsed? then Failing(Unreachable(body.readError))
      else if IsFailingReply(status, latencyMs, thresholdSec) then
        Failing(BadReply(status, fixed2(LatencySec(latencyMs))))
      else Healthy
  }

  function NotifyPost(cfg: Config, text: string): Action {
    Post(cfg.telegramBaseUrl + SendMessagePath, SendMessage(cfg.channelId, text), SinkTimeoutMs)
  }

  function RestartPost(cfg: Config): Action {
    Post(cfg.restartUrl, RestartRequest(RestartedService), SinkTimeoutMs)
  }

  /** What the probe step does: the GET, then the status line if the body could be read. */
  function ProbeSteps(cfg: Config, probe: ProbeOutcome): (r: seq<Action>)
    ensures 1 <= |r| <= 2 && r[0] == Get(cfg.targetUrl, ProbeTimeoutMs)
    ensures |r| == 2 <==> probe.Replied? && probe.body.Parsed?
    ensures |r| == 2 ==> r[1] == Log(Stdout, StatusLine(probe.status, probe.latencyMs))
  {
    [Get(cfg.targetUrl, ProbeTimeoutMs)] +
    if probe.Replied? && probe.body.Parsed? then [Log(Stdout, StatusLine(probe.status, probe.latencyMs))] else []
  }

  /** What the notification step does with the alert `text`. */
  function NotifySteps(cfg: Config, text: string, outcome: SinkOutcome): (r: seq<Action>)
    ensures |r| == if ChannelSet(cfg.channelId) then 2 else 1
    ensures ChannelSet(cfg.channelId) ==> r[0] == NotifyPost(cfg, text)
    ensures r[|r| - 1].Log?  // the step always settles on a console line, a failure included
  {
    if !ChannelSet(cfg.channelId) then [Log(Stdout, TelegramSkipped(text))]
    else
      [NotifyPost(cfg, text)] +
      match outcome
      case Delivered => [Log(Stdout, TelegramSent(text, cfg.channelId))]
      case Failed(_) => [Log(Stderr, TelegramFailed)]
  }

  /** What the restart step does. */
  function RestartSteps(cfg: Config, outcome: SinkOutcome): (r: seq<Action>)
    ensures |r| == 3 && r[1] == RestartPost(cfg)
    ensures outcome.Failed? ==> r[2] == Log(Stderr, RestartFailed(outcome.message))
  {
    [Log(Stdout, RestartRequested), RestartPost(cfg)] +
    match outcome
    case Delivered => [Log(Stdout, RestartCompleted)]
    case Failed(message) => [Log(Stderr, RestartFailed(message))]
  }

  /** The ALERT → RECOVER part of a FAILING cycle. */
  function AlertSteps(cfg: Config, text: string, notify: SinkOutcome, restart: SinkOutcome): (r: seq<Action>)
    ensures |r| == 1 + |NotifySteps(cfg, text, notify)| + 3
    ensures r[0] == Log(Stderr, AlertLine(text)) && r[|r| - 2] == RestartPost(cfg)
    ensures r[1..1 + |NotifySteps(cfg, text, notify)|] == NotifySteps(cfg, text, notify)
  {
    [Log(Stderr, AlertLine(text))] + NotifySteps(cfg, text, notify) + RestartSteps(cfg, restart)
  }

  /** The whole trace of one cycle: START → PROBE → HEALTHY | FAILING → ALERT → RECOVER. */
  function CycleTrace(cfg: Config, probe: ProbeOutcome, fixed2: real -> string,
                      notify: SinkOutcome, restart: SinkOutcome): (r: seq<Action>)
    ensures |r| >= 1 && r[0] == Get(cfg.targetUrl, ProbeTimeoutMs)
    ensures Classify(cfg.latencyThresholdSec, probe, fixed2).Healthy? <==> |r| == |ProbeSteps(cfg, probe)|
    ensures Classify(cfg.latencyThresholdSec, probe, fixed2).Failing? ==> |r| >= 2 && r[|r| - 2] == RestartPost(cfg)
  {
    ProbeSteps(cfg, probe) +
    match Classify(cfg.latencyThresholdSec, probe, fixed2)
    case Healthy => []
    case Failing(alert) => AlertSteps(cfg, Text(alert), notify, restart)
  }

  /** The subsequence of `t` whose actions satisfy `p`, in order. */
  function Keep(t: seq<Action>, p: Action -> bool): (r: seq<Action>)
    ensures |r| <= |t|
    ensures forall i :: 0 <= i < |r| ==> p(r[i]) && r[i] in t
  {
    if t == [] then [] else (if p(t[0]) then [t[0]] else []) + Keep(t[1..], p)
  }

  predicate IsCall(a: Action) {
    !a.Log?
  }

  predicate IsAlertLine(a: Action) {
    a.Log? && a.line.AlertLine?
  }

  /** The network calls in a trace, in the order they are issued. */
  function Calls(t: seq<Action>): seq<Action> {
    Keep(t, IsCall)
  }

  /** sendTelegram: skips when no channel is set, otherwise one POST whose failure is only logged. */
  method SendTelegram(cfg: Config, text: string, outcome: SinkOutcome) returns (trace: seq<Action>)
    ensures trace == NotifySteps(cfg, text, outcome)
    ensures !ChannelSet(cfg.channelId) ==> trace == [Log(Stdout, TelegramSkipped(text))]
    ensures ChannelSet(cfg.channelId) ==> |trace| == 2 && trace[0] == NotifyPost(cfg, text) && trace[1].Log?
  {
    if !ChannelSet(cfg.channelId) {
      trace := [Log(Stdout, TelegramSkipped(text))];
      return;
    }
    trace := [NotifyPost(cfg, text)];
    match outcome {
      case Delivered =>
        trace := trace + [Log(Stdout, TelegramSent(text, cfg.channelId))];
      case Failed(_) =>
        trace := trace + [Log(Stderr, TelegramFailed)];
    }
  }

  /** restartService: one POST with the fixed payload; a failure is logged with its message. */
  method RestartService(cfg: Config, outcome: SinkOutcome) returns (trace: seq<Action>)
    ensures trace == RestartSteps(cfg, outcome)
    ensures |trace| == 3 && trace[1] == RestartPost(cfg) && trace[0].Log? && trace[2].Log?
    ensures outcome.Failed? ==> trace[2] == Log(Stderr, RestartFailed(outcome.message))
  {
    trace := [Log(Stdout, RestartRequested)];
    trace := trace + [RestartPost(cfg)];
    match outcome {
      case Delivered =>
        trace := trace + [Log(Stdout, RestartCompleted)];
      case Failed(message) =>
        trace := trace + [Log(Stderr, RestartFailed(message))];
    }
  }

  /**
   * checkStatus: probe, classify into the local `alertMessage`, and when it
   * holds a message log it, notify, then request the restart, in that order.
   */
  method CheckStatus(cfg: Config, probe: ProbeOutcome, fixed2: real -> string,
                     notify: SinkOutcome, restart: SinkOutcome) returns (trace: seq<Action>)
    ensures trace == CycleTrace(cfg, probe, fixed2, notify, restart)
  {
    var alertMessage: Option<string> := None;
    trace := [Get(cfg.targetUrl, ProbeTimeoutMs)];
    match probe {
      case Threw(message) =>
        alertMessage := Some(Text(Unreachable(message)));
      case Replied(status, latencyMs, body) =>
        if !body.Parsed? {
          alertMessage := Some(Text(Unreachable(body.readError)));
        } else {
          trace := trace + [Log(Stdout, StatusLine(status, latencyMs))];
          if IsFailingReply(status, latencyMs, cfg.latencyThresholdSec) {
            alertMessage := Some(Text(BadReply(status, fixed2(LatencySec(latencyMs)))));
          }
        }
    }
    ghost var verdict := Classify(cfg.latencyThresholdSec, probe, fixed2);
    assert trace == ProbeSteps(cfg, probe);
    assert alertMessage == if verdict.Healthy? then None else Some(Text(verdict.alert));
    if Truthy(alertMessage) {
      var text := alertMessage.value;
      var steps := [Log(Stderr, AlertLine(text))];
      var sent := SendTelegram(cfg, text, notify);
      steps := steps + sent;
      var restarted := RestartService(cfg, restart);
      steps := steps + restarted;
      assert steps == AlertSteps(cfg, text, notify, restart);
      trace := trace + steps;
    }
  }
}
