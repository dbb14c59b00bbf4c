/**
 * The two alert messages the monitor builds (monitor-service/monitor.js, checkStatus),
 * and a parse that recovers what each was built from.
 *
 * The latency in a status alert is printed by `toFixed(2)`, a float-to-decimal
 * rounding this model leaves abstract: the alert carries the already formatted text.
 */
module Alerts {
  import opened Wrappers
  import opened Decimal

  datatype Alert =
    | BadReply(status: int, latencyText: string)  // a reply that failed the status or latency test
    | Unreachable(reason: string)                  // the probe threw; `reason` is the error's message

  const StatusPrefix: string := "ALERT: status "
  const LatencyInfix: string := " latency "
  const UnreachablePrefix: string := "ALERT: service unreachable ("

  /** The alert message. It is never empty, so JavaScript treats it as true. */
  function Text(a: Alert): (s: string)
    ensures |s| > 7 && s[..7] == "ALERT: "
  {
    match a
    case BadReply(status, latencyText) => StatusPrefix + IntText(status) + LatencyInfix + latencyText + "s"
    case Unreachable(reason) => UnreachablePrefix + reason + ")"
  }

  /** Index of the first space in `s`, or `|s|` when there is none. */
  function FirstSpace(s: string): (k: nat)
    ensures k <= |s|
    ensures forall i :: 0 <= i < k ==> s[i] != ' '
    ensures k < |s| ==> s[k] == ' '
  {
    if s == [] || s[0] == ' ' then 0 else 1 + FirstSpace(s[1..])
  }

  predicate StartsWith(s: string, prefix: string) {
    |s| >= |prefix| && s[..|prefix|] == prefix
  }

  /** Recovers the alert from its message, or None for any other string. */
  function Parse(s: string): Option<Alert> {
    if |s| > |UnreachablePrefix| && StartsWith(s, UnreachablePrefix) && s[|s| - 1] == ')' then
      Some(Unreachable(s[|UnreachablePrefix|..|s| - 1]))
    else if StartsWith(s, StatusPrefix) then
      ParseStatusPart(s[|StatusPrefix|..])
    else None
  }

  /** Reads `<status> latency <text>s`, the part of a status alert after its prefix. */
  function ParseStatusPart(rest: string): Option<Alert> {
    var k := FirstSpace(rest);
    match ParseInt(rest[..k])
    case None => None
    case Some(status) =>
      match ParseLatencyPart(rest[k..])
      case None => None
      case Some(latencyText) => Some(BadReply(status, latencyText))
  }

  /** Reads ` latency <text>s` and gives back `<text>`. */
  function ParseLatencyPart(tail: string): Option<string> {
    if |tail| > |LatencyInfix| && StartsWith(tail, LatencyInfix) && tail[|tail| - 1] == 's' then
      Some(tail[|LatencyInfix|..|tail| - 1])
    else None
  }

  lemma {:induction false} FirstSpaceAfter(t: string, u: string)
    requires forall i :: 0 <= i < |t| ==> t[i] != ' '
    requires |u| > 0 && u[0] == ' '
    ensures FirstSpace(t + u) == |t|
  {
    if t != [] {
      assert (t + u)[1..] == t[1..] + u;
      FirstSpaceAfter(t[1..], u);
    }
  }

  /** Every alert message can be read back into the alert it reports. */
  lemma ParseText(a: Alert)
    ensures Parse(Text(a)) == Some(a)
  {
    match a
    case Unreachable(reason) => ParseUnreachable(reason);
    case BadReply(status, latencyText) => ParseBadReply(status, latencyText);
  }

  lemma ParseUnreachable(reason: string)
    ensures Parse(Text(Unreachable(reason))) == Some(Unreachable(reason))
  {
    var s := Text(Unreachable(reason));
    assert s == UnreachablePrefix + reason + ")";
    assert StartsWith(s, UnreachablePrefix);
    assert s[|UnreachablePrefix|..|s| - 1] == reason;
  }

  lemma ParseBadReply(status: int, latencyText: string)
    ensures Parse(Text(BadReply(status, latencyText))) == Some(BadReply(status, latencyText))
  {
    var s := Text(BadReply(status, latencyText));
    var t := IntText(status);
    var u := LatencyInfix + latencyText + "s";
    assert s == StatusPrefix + (t + u);
    assert !StartsWith(s, UnreachablePrefix) by {
      assert s[8] == 't' && UnreachablePrefix[8] == 'e';
      if |s| >= |UnreachablePrefix| {
        assert s[..|UnreachablePrefix|][8] == s[8];
      }
    }
    assert s[..|StatusPrefix|] == StatusPrefix;
    assert s[|StatusPrefix|..] == t + u;
    ParseStatusPartOf(status, u);
    ParseLatencyPartOf(latencyText);
  }

  lemma ParseStatusPartOf(status: int, u: string)
    requires |u| > 0 && u[0] == ' '
    ensures ParseStatusPart(IntText(status) + u) ==
      match ParseLatencyPart(u)
      case None => None
      case Some(latencyText) => Some(BadReply(status, latencyText))
  {
    var t := IntText(status);
    FirstSpaceAfter(t, u);
    assert (t + u)[..|t|] == t;
    assert (t + u)[|t|..] == u;
    ParseIntText(status);
  }

  lemma ParseLatencyPartOf(latencyText: string)
    ensures ParseLatencyPart(LatencyInfix + latencyText + "s") == Some(latencyText)
  {
    var u := LatencyInfix + latencyText + "s";
    assert u[..|LatencyInfix|] == LatencyInfix;
    assert u[|LatencyInfix|..|u| - 1] == latencyText;
  }

  /** Different alerts never produce the same message. */
  lemma TextInjective(a: Alert, b: Alert)
    requires Text(a) == Text(b)
    ensures a == b
  {
    ParseText(a);
    ParseText(b);
  }
}
