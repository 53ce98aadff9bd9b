/**
  Range alerts of the PLC logger (alerts.py): the per-tag bound test, the
  cooldown ledger `last_alert_time`, the choice of mail channel and the
  shift-report trigger.

  The clock and the outcome of a mail send are not computed here: each
  reading of a poll cycle comes with an `Env` that says what `time.time()`
  returns when that reading is handled and whether the mail library raises.
 */
module Alerts {
  import opened Wrappers
  import Text

  type Tag = string

  /** A tag value as returned by the controller. `NonNumeric` stands for every
      value Python cannot order against a number (a string, a composite
      structure); booleans and integers are `Num`. */
  datatype Value = Num(x: real) | NonNumeric

  /** One `RANGE_ALERTS` entry `(low, high)`; `None` is no limit on that side. */
  datatype Bounds = Bounds(low: Option<real>, high: Option<real>)

  /** One item of the `tag_values` dictionary; `None` is a failed read. */
  datatype Reading = Reading(tag: Tag, value: Option<Value>)

  /** What the outside world does while one reading is handled. */
  datatype Env = Env(now: real, sendRaises: bool)

  /** The configuration constants read by alerts.py. */
  datatype Config = Config(
    rangeAlerts: map<Tag, Bounds>,
    emailEnabled: bool,
    emailCooldown: real,
    emailMethod: string)

  /** Result of comparing one reading with its bounds. `Incomparable` is
      the `TypeError` Python raises when a non-numeric value meets a bound. */
  datatype Verdict = Skipped | InRange | OutOfRange(v: real) | Incomparable

  datatype Channel = Smtp | Outlook | NoChannel

  /** One `(tag, value, datetime.now())` entry of the returned list. */
  datatype AlertRecord = AlertRecord(tag: Tag, value: real, at: real)

  /** One call of `send_email_alert` that returned normally. */
  datatype Dispatch = Dispatch(tag: Tag, value: real, channel: Channel, at: real)

  /** The exception that ends `check_alerts` early. */
  datatype Failure = ComparisonError(tag: Tag) | SendError(tag: Tag)

  /** The state of a poll cycle part way through: the ledger, the sends so
      far, the list being built and the exception, if one was raised. */
  datatype Cycle = Cycle(
    ledger: map<Tag, real>,
    sent: seq<Dispatch>,
    alerts: seq<AlertRecord>,
    raised: Option<Failure>)

  /** What the caller of `check_alerts` sees. */
  datatype Outcome = Completed(alerts: seq<AlertRecord>) | Raised(failure: Failure)

  /** Values inside both bounds (a bound itself included) are in range. */
  predicate WithinBounds(v: real, b: Bounds)
  {
    (b.low.None? || b.low.value <= v) && (b.high.None? || v <= b.high.value)
  }

  /** The verdict for one reading: no rule or no value skips it; otherwise
      the low test and then the high test each may set the alert flag. */
  function Evaluate(rules: map<Tag, Bounds>, r: Reading): Verdict
  {
    if r.tag !in rules || r.value.None? then Skipped
    else
      var b := rules[r.tag];
      match r.value.value
      case NonNumeric =>
        if b.low.Some? || b.high.Some? then Incomparable else InRange
      case Num(v) =>
        var lowBreached := b.low.Some? && v < b.low.value;
        var alertNeeded := lowBreached || (b.high.Some? && v > b.high.value);
        if alertNeeded then OutOfRange(v) else InRange
  }

  /** `last_alert_time.get(tag, 0)`. */
  function LastAlert(ledger: map<Tag, real>, tag: Tag): real
  {
    if tag in ledger then ledger[tag] else 0.0
  }

  /** The condition for calling `send_email_alert`: mail on and at least the
      cooldown since the ledger's entry. */
  predicate MayDispatch(cfg: Config, ledger: map<Tag, real>, tag: Tag, now: real)
  {
    cfg.emailEnabled && now - LastAlert(ledger, tag) >= cfg.emailCooldown
  }

  /** `send_email_alert`'s choice, by the upper-cased method name. */
  function SelectChannel(emailMethod: string): Channel
  {
    var m := Text.ToUpper(emailMethod);
    if m == "SMTP" then Smtp
    else if m == "OUTLOOK" then Outlook
    else NoChannel
  }

  /** One turn of the loop of `check_alerts`. */
  function Step(cfg: Config, s: Cycle, r: Reading, e: Env): Cycle
    requires s.raised.None?
  {
    match Evaluate(cfg.rangeAlerts, r)
    case Skipped => s
    case InRange => s
    case Incomparable => s.(raised := Some(ComparisonError(r.tag)))
    case OutOfRange(v) =>
      var record := AlertRecord(r.tag, v, e.now);
      if MayDispatch(cfg, s.ledger, r.tag, e.now) then
        var channel := SelectChannel(cfg.emailMethod);
        if channel != NoChannel && e.sendRaises then
          s.(raised := Some(SendError(r.tag)))
        else
          Cycle(s.ledger[r.tag := e.now], s.sent + [Dispatch(r.tag, v, channel, e.now)], s.alerts + [record], None)
      else
        s.(alerts := s.alerts + [record])
  }

  /** The first `n` turns of the loop, starting from the ledger `ledger0`;
      after an exception nothing more happens. */
  function Run(cfg: Config, readings: seq<Reading>, env: seq<Env>, ledger0: map<Tag, real>, n: nat): Cycle
    requires n <= |readings| == |env|
  {
    if n == 0 then Cycle(ledger0, [], [], None)
    else
      var s := Run(cfg, readings, env, ledger0, n - 1);
      if s.raised.Some? then s else Step(cfg, s, readings[n - 1], env[n - 1])
  }

  function OutcomeOf(c: Cycle): Outcome
  {
    if c.raised.Some? then Raised(c.raised.value) else Completed(c.alerts)
  }

  /** Once an exception is raised, later readings change nothing. */
  lemma {:induction false} RunStaysRaised(cfg: Config, readings: seq<Reading>, env: seq<Env>,
                                          ledger0: map<Tag, real>, k: nat, n: nat)
    requires k <= n <= |readings| == |env|
    requires Run(cfg, readings, env, ledger0, k).raised.Some?
    ensures Run(cfg, readings, env, ledger0, n) == Run(cfg, readings, env, ledger0, k)
  {
    if k < n {
      RunStaysRaised(cfg, readings, env, ledger0, k, n - 1);
    }
  }

  /** `shift_report_if_needed`: a report is due when the clock, written as
      `HH:MM`, is one of the configured shift start times. */
  function ShiftReportDue(hour: nat, minute: nat, shiftStartTimes: seq<string>): bool
    requires hour < 24 && minute < 60
  {
    Text.HourMinute(hour, minute) in shiftStartTimes
  }

  /** The module-level state of alerts.py: the cooldown ledger, and, as a
      log that exists only for the proof, every call of `send_email_alert`
      that returned. Mail goes out only for entries whose channel is not
      `NoChannel`. */
  class AlertEngine {
    var lastAlertTime: map<Tag, real>
    ghost var dispatched: seq<Dispatch>

    /** The module as imported: an empty ledger. */
    constructor ()
      ensures lastAlertTime == map[] && dispatched == []
    {
      lastAlertTime := map[];
      dispatched := [];
    }

    /** `send_email_alert(tag, value)`: returns false when the mail library
        raises; a method name that selects no channel sends nothing and
        returns normally. */
    method SendEmailAlert(emailMethod: string, tag: Tag, value: real, now: real, raises: bool)
      returns (returned: bool)
      modifies this`dispatched
      ensures returned == (SelectChannel(emailMethod) == NoChannel || !raises)
      ensures dispatched == old(dispatched) +
        (if returned then [Dispatch(tag, value, SelectChannel(emailMethod), now)] else [])
    {
      var m := Text.ToUpper(emailMethod);
      var channel := NoChannel;
      if m == "SMTP" {
        channel := Smtp;
      } else if m == "OUTLOOK" {
        channel := Outlook;
      }
      returned := channel == NoChannel || !raises;
      if returned {
        dispatched := dispatched + [Dispatch(tag, value, channel, now)];
      }
    }

    /** `check_alerts(tag_values)`, with `env[i]` the world as seen while
        `readings[i]` is handled. */
    method CheckAlerts(cfg: Config, readings: seq<Reading>, env: seq<Env>) returns (out: Outcome)
      requires |env| == |readings|
      modifies this
      ensures var c := Run(cfg, readings, env, old(lastAlertTime), |readings|);
        lastAlertTime == c.ledger && dispatched == old(dispatched) + c.sent && out == OutcomeOf(c)
    {
      ghost var ledger0, sent0 := lastAlertTime, dispatched;
      var alertsTriggered: seq<AlertRecord> := [];
      var i := 0;
      while i < |readings|
        invariant 0 <= i <= |readings|
        invariant var c := Run(cfg, readings, env, ledger0, i);
          c.raised.None? && lastAlertTime == c.ledger && dispatched == sent0 + c.sent && alertsTriggered == c.alerts
      {
        var tag, value := readings[i].tag, readings[i].value;
        if tag !in cfg.rangeAlerts || value.None? {
          i := i + 1;
          continue;
        }
        var b := cfg.rangeAlerts[tag];
        var alertNeeded := false;
        var v := 0.0;
        match value.value {
          case NonNumeric =>
            if b.low.Some? || b.high.Some? {
              out := Raised(ComparisonError(tag));
              RunStaysRaised(cfg, readings, env, ledger0, i + 1, |readings|);
              return;
            }
          case Num(x) =>
            v := x;
            if b.low.Some? && v < b.low.value {
              alertNeeded := true;
            }
            if b.high.Some? && v > b.high.value {
              alertNeeded := true;
            }
        }
        if alertNeeded {
          var now := env[i].now;
          var lastTime := if tag in lastAlertTime then lastAlertTime[tag] else 0.0;
          if cfg.emailEnabled && now - lastTime >= cfg.emailCooldown {
            var returned := SendEmailAlert(cfg.emailMethod, tag, v, now, env[i].sendRaises);
            if !returned {
              out := Raised(SendError(tag));
              RunStaysRaised(cfg, readings, env, ledger0, i + 1, |readings|);
              return;
            }
            lastAlertTime := lastAlertTime[tag := now];
          }
          alertsTriggered := alertsTriggered + [AlertRecord(tag, v, now)];
        }
        i := i + 1;
      }
      out := Completed(alertsTriggered);
    }
  }
}
