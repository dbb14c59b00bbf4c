/** Properties of one monitor cycle, stated over the trace it produces. */
module MonitorProperties {
  import opened Wrappers
  import opened Decimal
  import opened Alerts
  import opened Monitor

  lemma {:induction false} KeepAppend(a: seq<Action>, b: seq<Action>, p: Action -> bool)
    ensures Keep(a + b, p) == Keep(a, p) + Keep(b, p)
  {
    if a == [] {
      assert a + b == b;
    } else {
      assert (a + b)[0] == a[0];
      assert (a + b)[1..] == a[1..] + b;
      KeepAppend(a[1..], b, p);
    }
  }

  /** `alertMessage` is falsy while it is null and truthy once it holds any alert message. */
  lemma AlertMessageTruthy(a: Alert)
    ensures Truthy(Some(Text(a))) && !Truthy(None)
  {
  }

  /** The channel gate: no channel means only a skip line; a channel means exactly one POST. */
  lemma NotifyCalls(cfg: Config, text: string, outcome: SinkOutcome)
    ensures !ChannelSet(cfg.channelId) ==>
      NotifySteps(cfg, text, outcome) == [Log(Stdout, TelegramSkipped(text))] &&
      Calls(NotifySteps(cfg, text, outcome)) == []
    ensures ChannelSet(cfg.channelId) ==>
      Calls(NotifySteps(cfg, text, outcome)) ==
        [Post(cfg.telegramBaseUrl + "/send-message", SendMessage(cfg.channelId, text), 3000)]
  {
    var steps := NotifySteps(cfg, text, outcome);
    if ChannelSet(cfg.channelId) {
      KeepAppend([steps[0]], steps[1..], IsCall);
      assert steps == [steps[0]] + steps[1..];
    }
  }

  /** The restart step always issues exactly one POST, with the fixed payload, whatever its outcome. */
  lemma RestartCalls(cfg: Config, outcome: SinkOutcome)
    ensures Calls(RestartSteps(cfg, outcome)) ==
      [Post(cfg.restartUrl, RestartRequest("critical"), 3000)]
  {
    var steps := RestartSteps(cfg, outcome);
    KeepAppend(steps[..2], steps[2..], IsCall);
    assert steps == steps[..2] + steps[2..];
    KeepAppend([steps[0]], [steps[1]], IsCall);
    assert steps[..2] == [steps[0]] + [steps[1]];
  }

  /** The alert-side steps issue the notification POST (when a channel is set), then the restart POST. */
  lemma AlertStepsCalls(cfg: Config, text: string, notify: SinkOutcome, restart: SinkOutcome)
    ensures Calls(AlertSteps(cfg, text, notify, restart)) ==
      (if ChannelSet(cfg.channelId) then [NotifyPost(cfg, text)] else []) + [RestartPost(cfg)]
    ensures Keep(AlertSteps(cfg, text, notify, restart), IsAlertLine) == [Log(Stderr, AlertLine(text))]
  {
    var head := [Log(Stderr, AlertLine(text))];
    var n := NotifySteps(cfg, text, notify);
    var r := RestartSteps(cfg, restart);
    assert AlertSteps(cfg, text, notify, restart) == head + n + r;
    assert Calls(head + n + r) == Calls(n) + Calls(r) by {
      KeepAppend(head + n, r, IsCall);
      KeepAppend(head, n, IsCall);
    }
    NotifyCalls(cfg, text, notify);
    RestartCalls(cfg, restart);
    assert Keep(head + n + r, IsAlertLine) == head by {
      KeepAppend(head + n, r, IsAlertLine);
      KeepAppend(head, n, IsAlertLine);
      NoAlertLineIn(n);
      NoAlertLineIn(r);
    }
  }

  lemma NoAlertLineIn(t: seq<Action>)
    requires forall i :: 0 <= i < |t| ==> !IsAlertLine(t[i])
    ensures Keep(t, IsAlertLine) == []
  {
  }

  /**
   * Which calls a cycle issues, how many and in what order: always the GET
   * first; then nothing when HEALTHY; when FAILING the notification POST
   * (only if a channel is set) and then exactly one restart POST.
   */
  lemma {:induction false} CycleCalls(cfg: Config, probe: ProbeOutcome, fixed2: real -> string,
                                      notify: SinkOutcome, restart: SinkOutcome)
    ensures Calls(CycleTrace(cfg, probe, fixed2, notify, restart)) ==
      [Get(cfg.targetUrl, 2000)] +
      match Classify(cfg.latencyThresholdSec, probe, fixed2)
      case Healthy => []
      case Failing(alert) =>
        (if ChannelSet(cfg.channelId) then [NotifyPost(cfg, Text(alert))] else []) + [RestartPost(cfg)]
  {
    ProbeCalls(cfg, probe);
    var p := ProbeSteps(cfg, probe);
    match Classify(cfg.latencyThresholdSec, probe, fixed2)
    case Healthy =>
      assert CycleTrace(cfg, probe, fixed2, notify, restart) == p + [];
      KeepAppend(p, [], IsCall);
    case Failing(alert) =>
      var a := AlertSteps(cfg, Text(alert), notify, restart);
      assert CycleTrace(cfg, probe, fixed2, notify, restart) == p + a;
      KeepAppend(p, a, IsCall);
      AlertStepsCalls(cfg, Text(alert), notify, restart);
  }

  /** The probe step issues exactly the GET, with its fixed timeout. */
  lemma ProbeCalls(cfg: Config, probe: ProbeOutcome)
    ensures Calls(ProbeSteps(cfg, probe)) == [Get(cfg.targetUrl, 2000)]
  {
    var p := ProbeSteps(cfg, probe);
    KeepAppend([p[0]], p[1..], IsCall);
    assert p == [p[0]] + p[1..];
  }

  /** At most one alert line per cycle, and exactly one when the cycle is FAILING. */
  lemma {:induction false} CycleAlertLines(cfg: Config, probe: ProbeOutcome, fixed2: real -> string,
                                           notify: SinkOutcome, restart: SinkOutcome)
    ensures Keep(CycleTrace(cfg, probe, fixed2, notify, restart), IsAlertLine) ==
      match Classify(cfg.latencyThresholdSec, probe, fixed2)
      case Healthy => []
      case Failing(alert) => [Log(Stderr, AlertLine(Text(alert)))]
  {
    var p := ProbeSteps(cfg, probe);
    NoAlertLineIn(p);
    match Classify(cfg.latencyThresholdSec, probe, fixed2)
    case Healthy =>
      assert CycleTrace(cfg, probe, fixed2, notify, restart) == p + [];
      KeepAppend(p, [], IsAlertLine);
    case Failing(alert) =>
      var a := AlertSteps(cfg, Text(alert), notify, restart);
      assert CycleTrace(cfg, probe, fixed2, notify, restart) == p + a;
      KeepAppend(p, a, IsAlertLine);
      AlertStepsCalls(cfg, Text(alert), notify, restart);
  }

  /** A reply with status 200 within the threshold: no alert, no notification, no restart. */
  lemma HealthyReply(cfg: Config, latencyMs: int, memory: Option<string>, fixed2: real -> string,
                     notify: SinkOutcome, restart: SinkOutcome)
    requires LatencySec(latencyMs) <= cfg.latencyThresholdSec
    ensures CycleTrace(cfg, Replied(200, latencyMs, Parsed(memory)), fixed2, notify, restart) ==
      [Get(cfg.targetUrl, 2000), Log(Stdout, StatusLine(200, latencyMs))]
    ensures Calls(CycleTrace(cfg, Replied(200, latencyMs, Parsed(memory)), fixed2, notify, restart)) ==
      [Get(cfg.targetUrl, 2000)]
  {
    CycleCalls(cfg, Replied(200, latencyMs, Parsed(memory)), fixed2, notify, restart);
  }

  /** A status other than 200 alerts whatever the latency and the threshold. */
  lemma NonOkStatusAlerts(thresholdSec: real, status: int, latencyMs: int, memory: Option<string>,
                          fixed2: real -> string)
    requires status != 200
    ensures Classify(thresholdSec, Replied(status, latencyMs, Parsed(memory)), fixed2) ==
      Failing(BadReply(status, fixed2(LatencySec(latencyMs))))
  {
  }

  /** A failing reply's alert begins with `ALERT: status <status> latency `. */
  lemma FailingReplyAlertText(thresholdSec: real, status: int, latencyMs: int, memory: Option<string>,
                              fixed2: real -> string)
    requires IsFailingReply(status, latencyMs, thresholdSec)
    ensures Classify(thresholdSec, Replied(status, latencyMs, Parsed(memory)), fixed2).Failing?
    ensures var text := Text(Classify(thresholdSec, Replied(status, latencyMs, Parsed(memory)), fixed2).alert);
      var prefix := "ALERT: status " + IntText(status) + " latency ";
      |text| > |prefix| && text[..|prefix|] == prefix
  {
    var text := Text(BadReply(status, fixed2(LatencySec(latencyMs))));
    var prefix := "ALERT: status " + IntText(status) + " latency ";
    assert text == prefix + (fixed2(LatencySec(latencyMs)) + "s");
  }

  /** A probe that throws yields exactly `ALERT: service unreachable (<message>)`, whatever the threshold. */
  lemma ThrownProbeAlert(thresholdSec: real, message: string, fixed2: real -> string)
    ensures Classify(thresholdSec, Threw(message), fixed2).Failing?
    ensures Text(Classify(thresholdSec, Threw(message), fixed2).alert) ==
      "ALERT: service unreachable (" + message + ")"
  {
  }

  /**
   * A reply whose body is null or undefined makes reading `memory` throw
   * inside the probe's try block: the cycle reports the service unreachable,
   * writes no status line, and goes on to recovery, whatever the status and latency.
   */
  lemma NullishBodyUnreachable(cfg: Config, status: int, latencyMs: int, readError: string, fixed2: real -> string,
                               notify: SinkOutcome, restart: SinkOutcome)
    ensures Classify(cfg.latencyThresholdSec, Replied(status, latencyMs, Nullish(readError)), fixed2) ==
      Failing(Unreachable(readError))
    ensures CycleTrace(cfg, Replied(status, latencyMs, Nullish(readError)), fixed2, notify, restart) ==
      [Get(cfg.targetUrl, 2000)] + AlertSteps(cfg, Text(Unreachable(readError)), notify, restart)
  {
  }

  /**
   * A FAILING cycle runs, in this order: the probe steps, the alert line, the
   * notification step, the restart step; and it ends with the restart's own
   * outcome line whatever the notification step did, so neither sink's failure
   * stops recovery or escapes the cycle.
   */
  lemma FailingCycleOrder(cfg: Config, probe: ProbeOutcome, fixed2: real -> string,
                          notify: SinkOutcome, restart: SinkOutcome)
    requires Classify(cfg.latencyThresholdSec, probe, fixed2).Failing?
    ensures var text := Text(Classify(cfg.latencyThresholdSec, probe, fixed2).alert);
      var trace := CycleTrace(cfg, probe, fixed2, notify, restart);
      var p := |ProbeSteps(cfg, probe)|;
      var n := |NotifySteps(cfg, text, notify)|;
      |trace| == p + 1 + n + 3 &&
      trace[..p] == ProbeSteps(cfg, probe) &&
      trace[p] == Log(Stderr, AlertLine(text)) &&
      trace[p + 1..p + 1 + n] == NotifySteps(cfg, text, notify) &&
      trace[p + 1 + n..] == RestartSteps(cfg, restart) &&
      trace[|trace| - 2] == RestartPost(cfg) &&
      trace[|trace| - 1] ==
        (match restart
         case Delivered => Log(Stdout, RestartCompleted)
         case Failed(message) => Log(Stderr, RestartFailed(message)))
  {
    var text := Text(Classify(cfg.latencyThresholdSec, probe, fixed2).alert);
    var ps := ProbeSteps(cfg, probe);
    var ns := NotifySteps(cfg, text, notify);
    var rs := RestartSteps(cfg, restart);
    var trace := CycleTrace(cfg, probe, fixed2, notify, restart);
    assert trace == ps + [Log(Stderr, AlertLine(text))] + ns + rs;
    assert |trace| == |ps| + 1 + |ns| + 3;
    assert trace[..|ps|] == ps;
    assert trace[|ps| + 1..|ps| + 1 + |ns|] == ns;
    assert trace[|ps| + 1 + |ns|..] == rs;
  }

  /**
   * Whatever the notification step did, a FAILING cycle's last call is the
   * restart POST: a sink failure never stops recovery.
   */
  lemma FailingCycleRestarts(cfg: Config, probe: ProbeOutcome, fixed2: real -> string,
                             notify: SinkOutcome, restart: SinkOutcome)
    requires Classify(cfg.latencyThresholdSec, probe, fixed2).Failing?
    ensures var calls := Calls(CycleTrace(cfg, probe, fixed2, notify, restart));
      |calls| >= 2 && calls[|calls| - 1] == RestartPost(cfg) && RestartPost(cfg) in calls
  {
    CycleCalls(cfg, probe, fixed2, notify, restart);
  }

  /** The `memory` field read from the body never changes what a cycle does. */
  lemma MemoryInert(cfg: Config, status: int, latencyMs: int, m1: Option<string>, m2: Option<string>,
                    fixed2: real -> string, notify: SinkOutcome, restart: SinkOutcome)
    ensures CycleTrace(cfg, Replied(status, latencyMs, Parsed(m1)), fixed2, notify, restart) ==
            CycleTrace(cfg, Replied(status, latencyMs, Parsed(m2)), fixed2, notify, restart)
  {
  }

  /** Status 200 in 0.2 s against 0.5 s: no alert, no call but the probe. */
  lemma ScenarioHealthy(fixed2: real -> string, notify: SinkOutcome, restart: SinkOutcome)
    ensures Calls(CycleTrace(DefaultConfig(), Replied(200, 200, Parsed(None)), fixed2, notify, restart)) ==
      [Get("http://localhost:8080/status", 2000)]
  {
    HealthyReply(DefaultConfig(), 200, None, fixed2, notify, restart);
  }

  /** Status 200 in 0.8 s against 0.5 s, with a channel set: alert, notification, restart. */
  lemma ScenarioSlow(fixed2: real -> string, notify: SinkOutcome, restart: SinkOutcome)
    ensures Classify(0.5, Replied(200, 800, Parsed(None)), fixed2) == Failing(BadReply(200, fixed2(0.8)))
    ensures Text(BadReply(200, fixed2(0.8))) == "ALERT: status " + "200" + " latency " + fixed2(0.8) + "s"
    ensures Calls(CycleTrace(DefaultConfig().(channelId := "ops"), Replied(200, 800, Parsed(None)), fixed2, notify, restart)) ==
      [Get("http://localhost:8080/status", 2000),
       Post("http://localhost:8100/send-message",
            SendMessage("ops", "ALERT: status " + "200" + " latency " + fixed2(0.8) + "s"), 3000),
       Post("http://localhost:5001/restart_service", RestartRequest("critical"), 3000)]
  {
    var cfg := DefaultConfig().(channelId := "ops");
    var probe := Replied(200, 800, Parsed(None));
    assert LatencySec(800) == 0.8;
    StatusText(200, "200");
    var text := "ALERT: status " + "200" + " latency " + fixed2(0.8) + "s";
    var alert := BadReply(200, fixed2(0.8));
    assert Classify(cfg.latencyThresholdSec, probe, fixed2) == Failing(alert);
    assert Text(alert) == text;
    assert ChannelSet(cfg.channelId);
    CycleCalls(cfg, probe, fixed2, notify, restart);
    assert Calls(CycleTrace(cfg, probe, fixed2, notify, restart)) ==
      [Get(cfg.targetUrl, 2000)] + [NotifyPost(cfg, text)] + [RestartPost(cfg)];
    assert cfg.telegramBaseUrl + SendMessagePath == "http://localhost:8100/send-message";
    assert NotifyPost(cfg, text) ==
      Post("http://localhost:8100/send-message", SendMessage("ops", text), 3000);
  }

  lemma StatusText(status: nat, text: string)
    requires 100 <= status < 1000
    requires text == [DigitChar(status / 100), DigitChar(status / 10 % 10), DigitChar(status % 10)]
    ensures IntText(status) == text
  {
    assert NatText(status / 10) == [DigitChar(status / 100), DigitChar(status / 10 % 10)];
  }

  /** Status 503 in 0.1 s: alert with the status, restart requested. */
  lemma ScenarioBadStatus(fixed2: real -> string, notify: SinkOutcome, restart: SinkOutcome)
    ensures Text(Classify(0.5, Replied(503, 100, Parsed(None)), fixed2).alert) ==
      "ALERT: status " + "503" + " latency " + fixed2(0.1) + "s"
    ensures RestartPost(DefaultConfig()) in Calls(CycleTrace(DefaultConfig(), Replied(503, 100, Parsed(None)), fixed2, notify, restart))
  {
    assert LatencySec(100) == 0.1;
    StatusText(503, "503");
    FailingCycleRestarts(DefaultConfig(), Replied(503, 100, Parsed(None)), fixed2, notify, restart);
  }

  /**
   * A 503 reply as the default HTTP client delivers it: rejected as an error,
   * so it reaches the catch and alerts as unreachable.
   */
  lemma ScenarioRejectedStatus(fixed2: real -> string)
    ensures Text(Classify(0.5, Threw("Request failed with status code 503"), fixed2).alert) ==
      "ALERT: service unreachable (" + "Request failed with status code 503" + ")"
  {
    ThrownProbeAlert(0.5, "Request failed with status code 503", fixed2);
  }

  /** The same rejected 503 still leads to the restart POST. */
  lemma ScenarioRejectedStatusRestarts(fixed2: real -> string, notify: SinkOutcome, restart: SinkOutcome)
    ensures RestartPost(DefaultConfig())
      in Calls(CycleTrace(DefaultConfig(), Threw("Request failed with status code 503"), fixed2, notify, restart))
  {
    FailingCycleRestarts(DefaultConfig(), Threw("Request failed with status code 503"), fixed2, notify, restart);
  }

  /** The probe throws ECONNREFUSED: unreachable alert, restart requested. */
  lemma ScenarioRefused(fixed2: real -> string, notify: SinkOutcome, restart: SinkOutcome)
    ensures Text(Classify(0.5, Threw("ECONNREFUSED"), fixed2).alert) ==
      "ALERT: service unreachable (" + "ECONNREFUSED" + ")"
    ensures RestartPost(DefaultConfig()) in Calls(CycleTrace(DefaultConfig(), Threw("ECONNREFUSED"), fixed2, notify, restart))
  {
    FailingCycleRestarts(DefaultConfig(), Threw("ECONNREFUSED"), fixed2, notify, restart);
  }

  /** No channel set: a FAILING cycle skips the notification POST but still restarts. */
  lemma ScenarioNoChannel(probe: ProbeOutcome, fixed2: real -> string, notify: SinkOutcome, restart: SinkOutcome)
    requires Classify(0.5, probe, fixed2).Failing?
    ensures Calls(CycleTrace(DefaultConfig(), probe, fixed2, notify, restart)) ==
      [Get("http://localhost:8080/status", 2000),
       Post("http://localhost:5001/restart_service", RestartRequest("critical"), 3000)]
    ensures Log(Stdout, TelegramSkipped(Text(Classify(0.5, probe, fixed2).alert))) in
      CycleTrace(DefaultConfig(), probe, fixed2, notify, restart)
  {
    CycleCalls(DefaultConfig(), probe, fixed2, notify, restart);
    FailingCycleOrder(DefaultConfig(), probe, fixed2, notify, restart);
    var text := Text(Classify(0.5, probe, fixed2).alert);
    var p := |ProbeSteps(DefaultConfig(), probe)|;
    assert CycleTrace(DefaultConfig(), probe, fixed2, notify, restart)[p + 1] == Log(Stdout, TelegramSkipped(text));
  }
}
