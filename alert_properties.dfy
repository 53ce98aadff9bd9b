/**
  What a poll cycle of `check_alerts` does, stated without the loop: the
  alert list, the sends and the new ledger as functions of the readings and
  the ledger the cycle starts from, and the single-reading rules (the bound
  test, the cooldown, the default last time, the channel choice).
 */
module AlertProperties {
  import opened Wrappers
  import Text
  import opened Alerts

  /** Dictionary keys are distinct. */
  predicate DistinctTags(readings: seq<Reading>)
  {
    forall i, j :: 0 <= i < j < |readings| ==> readings[i].tag != readings[j].tag
  }

  /** The reading's list entry, if it is out of range. */
  function RecordFor(rules: map<Tag, Bounds>, r: Reading, e: Env): seq<AlertRecord>
  {
    match Evaluate(rules, r)
    case OutOfRange(v) => [AlertRecord(r.tag, v, e.now)]
    case _ => []
  }

  /** One entry for every out-of-range reading among the first `n`, in order. */
  function Flagged(rules: map<Tag, Bounds>, readings: seq<Reading>, env: seq<Env>, n: nat): seq<AlertRecord>
    requires n <= |readings| == |env|
  {
    if n == 0 then []
    else Flagged(rules, readings, env, n - 1) + RecordFor(rules, readings[n - 1], env[n - 1])
  }

  /** The send for a reading, judged against the ledger at the start of the cycle. */
  function DispatchFor(cfg: Config, ledger0: map<Tag, real>, r: Reading, e: Env): seq<Dispatch>
  {
    match Evaluate(cfg.rangeAlerts, r)
    case OutOfRange(v) =>
      if MayDispatch(cfg, ledger0, r.tag, e.now)
      then [Dispatch(r.tag, v, SelectChannel(cfg.emailMethod), e.now)]
      else []
    case _ => []
  }

  /** The sends due among the first `n` readings, in order. */
  function Due(cfg: Config, readings: seq<Reading>, env: seq<Env>, ledger0: map<Tag, real>, n: nat): seq<Dispatch>
    requires n <= |readings| == |env|
  {
    if n == 0 then []
    else Due(cfg, readings, env, ledger0, n - 1) + DispatchFor(cfg, ledger0, readings[n - 1], env[n - 1])
  }

  /** The exception a reading raises, judged against the starting ledger. */
  function FailureAt(cfg: Config, ledger0: map<Tag, real>, r: Reading, e: Env): Option<Failure>
  {
    match Evaluate(cfg.rangeAlerts, r)
    case Incomparable => Some(ComparisonError(r.tag))
    case OutOfRange(_) =>
      if MayDispatch(cfg, ledger0, r.tag, e.now) && SelectChannel(cfg.emailMethod) != NoChannel && e.sendRaises
      then Some(SendError(r.tag))
      else None
    case _ => None
  }

  /** The ledger after stamping each send's tag with its time, in order. */
  function Stamp(ledger: map<Tag, real>, ds: seq<Dispatch>): map<Tag, real>
  {
    if ds == [] then ledger
    else Stamp(ledger, ds[..|ds| - 1])[ds[|ds| - 1].tag := ds[|ds| - 1].at]
  }

  predicate DistinctDispatchTags(ds: seq<Dispatch>)
  {
    forall i, j :: 0 <= i < j < |ds| ==> ds[i].tag != ds[j].tag
  }

  lemma {:induction false} StampUntouched(ledger: map<Tag, real>, ds: seq<Dispatch>, t: Tag)
    requires forall k :: 0 <= k < |ds| ==> ds[k].tag != t
    ensures t in Stamp(ledger, ds) <==> t in ledger
    ensures t in ledger ==> Stamp(ledger, ds)[t] == ledger[t]
  {
    if ds != [] {
      StampUntouched(ledger, ds[..|ds| - 1], t);
    }
  }

  lemma {:induction false} StampAt(ledger: map<Tag, real>, ds: seq<Dispatch>, k: nat)
    requires k < |ds| && DistinctDispatchTags(ds)
    ensures ds[k].tag in Stamp(ledger, ds) && Stamp(ledger, ds)[ds[k].tag] == ds[k].at
  {
    if k < |ds| - 1 {
      StampAt(ledger, ds[..|ds| - 1], k);
    }
  }

  /** Every send due among the first `n` readings is for one of those
      readings, flagged and past its cooldown. */
  lemma {:induction false} DueFrom(cfg: Config, readings: seq<Reading>, env: seq<Env>,
                                   ledger0: map<Tag, real>, n: nat, k: nat)
    requires n <= |readings| == |env|
    requires k < |Due(cfg, readings, env, ledger0, n)|
    ensures exists i :: 0 <= i < n && DispatchFor(cfg, ledger0, readings[i], env[i]) == [Due(cfg, readings, env, ledger0, n)[k]]
  {
    var prev := Due(cfg, readings, env, ledger0, n - 1);
    if k < |prev| {
      DueFrom(cfg, readings, env, ledger0, n - 1, k);
    } else {
      assert DispatchFor(cfg, ledger0, readings[n - 1], env[n - 1]) == [Due(cfg, readings, env, ledger0, n)[k]];
    }
  }

  lemma DueDistinct(cfg: Config, readings: seq<Reading>, env: seq<Env>, ledger0: map<Tag, real>, n: nat)
    requires n <= |readings| == |env| && DistinctTags(readings)
    ensures DistinctDispatchTags(Due(cfg, readings, env, ledger0, n))
  {
    var ds := Due(cfg, readings, env, ledger0, n);
    forall a, b | 0 <= a < b < |ds| ensures ds[a].tag != ds[b].tag {
      DueFromBefore(cfg, readings, env, ledger0, n, b);
      var j :| 0 <= j < n && DispatchFor(cfg, ledger0, readings[j], env[j]) == [ds[b]]
            && forall k :: 0 <= k < b ==> ds[k].tag != readings[j].tag;
    }
  }

  /** A send due among the first `n` for reading `j` comes after every send
      for earlier readings, so no earlier send carries reading `j`'s tag. */
  lemma {:induction false} DueFromBefore(cfg: Config, readings: seq<Reading>, env: seq<Env>,
                                         ledger0: map<Tag, real>, n: nat, k: nat)
    requires n <= |readings| == |env| && DistinctTags(readings)
    requires k < |Due(cfg, readings, env, ledger0, n)|
    ensures var ds := Due(cfg, readings, env, ledger0, n);
      exists j :: 0 <= j < n && DispatchFor(cfg, ledger0, readings[j], env[j]) == [ds[k]]
        && forall m :: 0 <= m < k ==> ds[m].tag != readings[j].tag
  {
    var ds := Due(cfg, readings, env, ledger0, n);
    var prev := Due(cfg, readings, env, ledger0, n - 1);
    if k < |prev| {
      DueFromBefore(cfg, readings, env, ledger0, n - 1, k);
      var j :| 0 <= j < n - 1 && DispatchFor(cfg, ledger0, readings[j], env[j]) == [prev[k]]
            && forall m :: 0 <= m < k ==> prev[m].tag != readings[j].tag;
      assert forall m :: 0 <= m < k ==> ds[m] == prev[m];
    } else {
      assert DispatchFor(cfg, ledger0, readings[n - 1], env[n - 1]) == [ds[k]];
      forall m | 0 <= m < k ensures ds[m].tag != readings[n - 1].tag {
        assert ds[m] == prev[m];
        DueFrom(cfg, readings, env, ledger0, n - 1, m);
      }
    }
  }

  /** The ledger a cycle starts from decides each reading's send: no earlier
      send of the cycle touched that reading's tag. */
  lemma LedgerForNextReading(cfg: Config, readings: seq<Reading>, env: seq<Env>, ledger0: map<Tag, real>, n: nat)
    requires n < |readings| == |env| && DistinctTags(readings)
    ensures LastAlert(Stamp(ledger0, Due(cfg, readings, env, ledger0, n)), readings[n].tag)
         == LastAlert(ledger0, readings[n].tag)
  {
    var ds := Due(cfg, readings, env, ledger0, n);
    forall k | 0 <= k < |ds| ensures ds[k].tag != readings[n].tag {
      DueFrom(cfg, readings, env, ledger0, n, k);
    }
    StampUntouched(ledger0, ds, readings[n].tag);
  }

  /** Stamping one more call is one more map update. */
  lemma StampSnoc(ledger: map<Tag, real>, ds: seq<Dispatch>, d: Dispatch)
    ensures Stamp(ledger, ds + [d]) == Stamp(ledger, ds)[d.tag := d.at]
  {
    assert (ds + [d])[..|ds|] == ds;
  }

  /** One turn of the loop, for a reading whose tag the cycle has not
      stamped yet, does what the reference functions say. */
  lemma StepAgrees(cfg: Config, ledger0: map<Tag, real>, s: Cycle, r: Reading, e: Env)
    requires s.raised.None? && s.ledger == Stamp(ledger0, s.sent)
    requires LastAlert(s.ledger, r.tag) == LastAlert(ledger0, r.tag)
    ensures var c := Step(cfg, s, r, e);
      && c.raised == FailureAt(cfg, ledger0, r, e)
      && (c.raised.None? ==> c.alerts == s.alerts + RecordFor(cfg.rangeAlerts, r, e)
                             && c.sent == s.sent + DispatchFor(cfg, ledger0, r, e))
      && (c.raised.Some? ==> c.sent == s.sent && c.ledger == s.ledger)
      && c.ledger == Stamp(ledger0, c.sent)
  {
    var c := Step(cfg, s, r, e);
    var verdict := Evaluate(cfg.rangeAlerts, r);
    if verdict.OutOfRange? {
      var v := verdict.v;
      var may := MayDispatch(cfg, s.ledger, r.tag, e.now);
      assert may == MayDispatch(cfg, ledger0, r.tag, e.now);
      var channel := SelectChannel(cfg.emailMethod);
      if may && !(channel != NoChannel && e.sendRaises) {
        var d := Dispatch(r.tag, v, channel, e.now);
        assert DispatchFor(cfg, ledger0, r, e) == [d];
        assert c.sent == s.sent + [d];
        StampSnoc(ledger0, s.sent, d);
      }
    }
  }

  /** The loop of `check_alerts` agrees with the reference description:
      it raises exactly when some reading fails; until then its list is
      `Flagged`, its sends are `Due`; and the ledger is always the starting
      ledger stamped with the sends made, which are a prefix of `Due`. */
  lemma {:induction false} RunAgreesWithReference(cfg: Config, readings: seq<Reading>, env: seq<Env>,
                                                  ledger0: map<Tag, real>, n: nat)
    requires n <= |readings| == |env| && DistinctTags(readings)
    ensures var c := Run(cfg, readings, env, ledger0, n);
      && (c.raised.None? <==> forall i :: 0 <= i < n ==> FailureAt(cfg, ledger0, readings[i], env[i]).None?)
      && (c.raised.None? ==> c.alerts == Flagged(cfg.rangeAlerts, readings, env, n)
                             && c.sent == Due(cfg, readings, env, ledger0, n))
      && c.sent <= Due(cfg, readings, env, ledger0, n)
      && c.ledger == Stamp(ledger0, c.sent)
  {
    if n > 0 {
      RunAgreesWithReference(cfg, readings, env, ledger0, n - 1);
      var s := Run(cfg, readings, env, ledger0, n - 1);
      var due := Due(cfg, readings, env, ledger0, n - 1);
      assert due <= Due(cfg, readings, env, ledger0, n);
      if s.raised.None? {
        LedgerForNextReading(cfg, readings, env, ledger0, n - 1);
        StepAgrees(cfg, ledger0, s, readings[n - 1], env[n - 1]);
      }
    }
  }

  /** A whole cycle: it completes exactly when no reading fails, and then
      returns `Flagged` and has made the sends `Due` and stamped them. */
  lemma CompletedCycle(cfg: Config, readings: seq<Reading>, env: seq<Env>, ledger0: map<Tag, real>)
    requires |readings| == |env| && DistinctTags(readings)
    ensures var c := Run(cfg, readings, env, ledger0, |readings|);
      && (OutcomeOf(c).Completed? <==> forall i :: 0 <= i < |readings| ==> FailureAt(cfg, ledger0, readings[i], env[i]).None?)
      && (OutcomeOf(c).Completed? ==>
            && OutcomeOf(c).alerts == Flagged(cfg.rangeAlerts, readings, env, |readings|)
            && c.sent == Due(cfg, readings, env, ledger0, |readings|)
            && c.ledger == Stamp(ledger0, Due(cfg, readings, env, ledger0, |readings|)))
  {
    RunAgreesWithReference(cfg, readings, env, ledger0, |readings|);
  }

  /** Throttling never removes an entry: two cycles over the same readings
      and rules return the same list whatever the mail settings and the
      ledger, when both complete. */
  lemma ThrottlingKeepsAlerts(cfg1: Config, cfg2: Config, readings: seq<Reading>, env1: seq<Env>, env2: seq<Env>,
                              ledger1: map<Tag, real>, ledger2: map<Tag, real>)
    requires |readings| == |env1| && DistinctTags(readings)
    requires |env2| == |env1| && forall i :: 0 <= i < |env1| ==> env1[i].now == env2[i].now
    requires cfg1.rangeAlerts == cfg2.rangeAlerts
    requires OutcomeOf(Run(cfg1, readings, env1, ledger1, |readings|)).Completed?
    requires OutcomeOf(Run(cfg2, readings, env2, ledger2, |readings|)).Completed?
    ensures OutcomeOf(Run(cfg1, readings, env1, ledger1, |readings|))
         == OutcomeOf(Run(cfg2, readings, env2, ledger2, |readings|))
  {
    CompletedCycle(cfg1, readings, env1, ledger1);
    CompletedCycle(cfg2, readings, env2, ledger2);
    FlaggedSameClock(cfg1.rangeAlerts, readings, env1, env2, |readings|);
  }

  lemma {:induction false} FlaggedSameClock(rules: map<Tag, Bounds>, readings: seq<Reading>, env1: seq<Env>, env2: seq<Env>, n: nat)
    requires n <= |readings| == |env1| == |env2|
    requires forall i :: 0 <= i < |env1| ==> env1[i].now == env2[i].now
    ensures Flagged(rules, readings, env1, n) == Flagged(rules, readings, env2, n)
  {
    if n > 0 {
      FlaggedSameClock(rules, readings, env1, env2, n - 1);
    }
  }

  /** The list names each out-of-range reading once, and nothing else. */
  lemma {:induction false} FlaggedEntries(rules: map<Tag, Bounds>, readings: seq<Reading>, env: seq<Env>, n: nat, a: AlertRecord)
    requires n <= |readings| == |env|
    ensures a in Flagged(rules, readings, env, n) <==>
      exists i :: 0 <= i < n && Evaluate(rules, readings[i]) == OutOfRange(a.value)
                 && a == AlertRecord(readings[i].tag, a.value, env[i].now)
  {
    if n > 0 {
      FlaggedEntries(rules, readings, env, n - 1, a);
    }
  }

  lemma {:induction false} DueContains(cfg: Config, readings: seq<Reading>, env: seq<Env>, ledger0: map<Tag, real>, n: nat, i: nat)
    requires i < n <= |readings| == |env|
    ensures forall d :: d in DispatchFor(cfg, ledger0, readings[i], env[i]) ==> d in Due(cfg, readings, env, ledger0, n)
  {
    if i < n - 1 {
      DueContains(cfg, readings, env, ledger0, n - 1, i);
    }
  }

  /** In a completed cycle `send_email_alert` is called for a reading's tag
      exactly when the reading is out of range, mail is on, and at least the
      cooldown has passed since the ledger's entry (0 if none) at the start
      of the cycle. Mail goes out only when the call's channel is not
      `NoChannel`. */
  lemma DispatchedIff(cfg: Config, readings: seq<Reading>, env: seq<Env>, ledger0: map<Tag, real>, i: nat)
    requires i < |readings| == |env| && DistinctTags(readings)
    requires OutcomeOf(Run(cfg, readings, env, ledger0, |readings|)).Completed?
    ensures var sent := Run(cfg, readings, env, ledger0, |readings|).sent;
      (exists k :: 0 <= k < |sent| && sent[k].tag == readings[i].tag) <==>
        (Evaluate(cfg.rangeAlerts, readings[i]).OutOfRange?
         && cfg.emailEnabled && env[i].now - LastAlert(ledger0, readings[i].tag) >= cfg.emailCooldown)
  {
    var n := |readings|;
    CompletedCycle(cfg, readings, env, ledger0);
    var sent := Due(cfg, readings, env, ledger0, n);
    if exists k :: 0 <= k < |sent| && sent[k].tag == readings[i].tag {
      var k :| 0 <= k < |sent| && sent[k].tag == readings[i].tag;
      DueFrom(cfg, readings, env, ledger0, n, k);
      var j :| 0 <= j < n && DispatchFor(cfg, ledger0, readings[j], env[j]) == [sent[k]];
      assert j == i;
    }
    var ds := DispatchFor(cfg, ledger0, readings[i], env[i]);
    if ds != [] {
      DueContains(cfg, readings, env, ledger0, n, i);
      assert ds[0] in sent;
    }
  }

  /** In every cycle, completed or not, each send made was for an
      out-of-range reading whose cooldown had elapsed. */
  lemma SentOnlyWhenDue(cfg: Config, readings: seq<Reading>, env: seq<Env>, ledger0: map<Tag, real>, k: nat)
    requires |readings| == |env| && DistinctTags(readings)
    requires k < |Run(cfg, readings, env, ledger0, |readings|).sent|
    ensures var d := Run(cfg, readings, env, ledger0, |readings|).sent[k];
      exists i :: 0 <= i < |readings| && readings[i].tag == d.tag && d.at == env[i].now
        && Evaluate(cfg.rangeAlerts, readings[i]) == OutOfRange(d.value)
        && cfg.emailEnabled && env[i].now - LastAlert(ledger0, d.tag) >= cfg.emailCooldown
        && d.channel == SelectChannel(cfg.emailMethod)
  {
    RunAgreesWithReference(cfg, readings, env, ledger0, |readings|);
    var c := Run(cfg, readings, env, ledger0, |readings|);
    var due := Due(cfg, readings, env, ledger0, |readings|);
    assert c.sent[k] == due[k];
    DueFrom(cfg, readings, env, ledger0, |readings|, k);
  }

  /** After any cycle the ledger holds the call time for each tag for which
      `send_email_alert` returned in it, and every other entry is as before. */
  lemma LedgerAfterCycle(cfg: Config, readings: seq<Reading>, env: seq<Env>, ledger0: map<Tag, real>)
    requires |readings| == |env| && DistinctTags(readings)
    ensures var c := Run(cfg, readings, env, ledger0, |readings|);
      && (forall k :: 0 <= k < |c.sent| ==> c.sent[k].tag in c.ledger && c.ledger[c.sent[k].tag] == c.sent[k].at)
      && (forall t :: (forall k :: 0 <= k < |c.sent| ==> c.sent[k].tag != t) ==>
            (t in c.ledger <==> t in ledger0) && (t in ledger0 ==> c.ledger[t] == ledger0[t]))
  {
    var c := Run(cfg, readings, env, ledger0, |readings|);
    RunAgreesWithReference(cfg, readings, env, ledger0, |readings|);
    DueDistinct(cfg, readings, env, ledger0, |readings|);
    var due := Due(cfg, readings, env, ledger0, |readings|);
    assert DistinctDispatchTags(c.sent) by {
      assert forall k :: 0 <= k < |c.sent| ==> c.sent[k] == due[k];
    }
    forall k | 0 <= k < |c.sent| ensures c.sent[k].tag in c.ledger && c.ledger[c.sent[k].tag] == c.sent[k].at {
      StampAt(ledger0, c.sent, k);
    }
    forall t | forall k :: 0 <= k < |c.sent| ==> c.sent[k].tag != t
      ensures (t in c.ledger <==> t in ledger0) && (t in ledger0 ==> c.ledger[t] == ledger0[t])
    {
      StampUntouched(ledger0, c.sent, t);
    }
  }

  /** A reading with no rule, or with no value, leaves no list entry, no
      send and no ledger change for its tag. */
  lemma SkippedReadingLeavesNoTrace(cfg: Config, readings: seq<Reading>, env: seq<Env>, ledger0: map<Tag, real>, i: nat)
    requires i < |readings| == |env| && DistinctTags(readings)
    requires readings[i].tag !in cfg.rangeAlerts || readings[i].value.None?
    ensures var c := Run(cfg, readings, env, ledger0, |readings|);
      && (forall k :: 0 <= k < |c.sent| ==> c.sent[k].tag != readings[i].tag)
      && (readings[i].tag in c.ledger <==> readings[i].tag in ledger0)
      && (readings[i].tag in ledger0 ==> c.ledger[readings[i].tag] == ledger0[readings[i].tag])
      && (OutcomeOf(c).Completed? ==> forall a :: a in OutcomeOf(c).alerts ==> a.tag != readings[i].tag)
  {
    var c := Run(cfg, readings, env, ledger0, |readings|);
    var t := readings[i].tag;
    forall k | 0 <= k < |c.sent| ensures c.sent[k].tag != t {
      SentOnlyWhenDue(cfg, readings, env, ledger0, k);
    }
    LedgerAfterCycle(cfg, readings, env, ledger0);
    if OutcomeOf(c).Completed? {
      CompletedCycle(cfg, readings, env, ledger0);
      forall a | a in OutcomeOf(c).alerts ensures a.tag != t {
        FlaggedEntries(cfg.rangeAlerts, readings, env, |readings|, a);
      }
    }
  }

  /** The bound test: a numeric value with a rule is flagged exactly when it
      lies outside its bounds; a bound itself is in range. */
  lemma FlaggedIffOutsideBounds(rules: map<Tag, Bounds>, tag: Tag, v: real)
    requires tag in rules
    ensures Evaluate(rules, Reading(tag, Some(Num(v)))) == (if WithinBounds(v, rules[tag]) then InRange else OutOfRange(v))
  {
  }

  /** No rule, or no value, is never evaluated. */
  lemma NoRuleOrNoValueSkipped(rules: map<Tag, Bounds>, r: Reading)
    ensures Evaluate(rules, r) == Skipped <==> r.tag !in rules || r.value.None?
  {
  }

  /** Bounds `(None, None)` never flag, and never compare at all. */
  lemma UnboundedNeverFlags(rules: map<Tag, Bounds>, r: Reading)
    requires r.tag in rules && rules[r.tag] == Bounds(None, None)
    ensures Evaluate(rules, r) == if r.value.None? then Skipped else InRange
  {
  }

  /** A non-numeric value raises as soon as its rule has any bound. */
  lemma NonNumericRaisesIffBounded(rules: map<Tag, Bounds>, tag: Tag)
    requires tag in rules
    ensures Evaluate(rules, Reading(tag, Some(NonNumeric))) == Incomparable
        <==> rules[tag].low.Some? || rules[tag].high.Some?
  {
  }

  /** With bounds `(30, None)`: 29.9 is flagged, 30 and 30.1 are not. */
  lemma LowBoundExample()
    ensures var rules := map["Line_Pressure" := Bounds(Some(30.0), None)];
      && Evaluate(rules, Reading("Line_Pressure", Some(Num(29.9)))) == OutOfRange(29.9)
      && Evaluate(rules, Reading("Line_Pressure", Some(Num(30.0)))) == InRange
      && Evaluate(rules, Reading("Line_Pressure", Some(Num(30.1)))) == InRange
  {
  }

  /** A gap exactly equal to the cooldown still sends. */
  lemma CooldownBoundarySends(cfg: Config, s: Cycle, r: Reading, e: Env)
    requires s.raised.None? && cfg.emailEnabled && r.tag in s.ledger
    requires Evaluate(cfg.rangeAlerts, r).OutOfRange?
    requires e.now - s.ledger[r.tag] == cfg.emailCooldown
    requires SelectChannel(cfg.emailMethod) == NoChannel || !e.sendRaises
    ensures var c := Step(cfg, s, r, e);
      c.raised.None? && |c.sent| == |s.sent| + 1 && c.ledger == s.ledger[r.tag := e.now]
  {
  }

  /** A tag with no ledger entry counts as last sent at time 0. */
  lemma FirstAlertSendsAfterCooldownFromZero(cfg: Config, s: Cycle, r: Reading, e: Env)
    requires s.raised.None? && r.tag !in s.ledger
    requires Evaluate(cfg.rangeAlerts, r).OutOfRange?
    requires SelectChannel(cfg.emailMethod) == NoChannel || !e.sendRaises
    ensures var c := Step(cfg, s, r, e);
      |c.sent| == |s.sent| + 1 <==> cfg.emailEnabled && e.now >= cfg.emailCooldown
  {
  }

  /** The ledger is written only after the send returns: a send that
      raises leaves the ledger as it was, so the next cycle tries again. */
  lemma SendErrorLeavesLedger(cfg: Config, s: Cycle, r: Reading, e: Env)
    requires s.raised.None?
    requires Step(cfg, s, r, e).raised == Some(SendError(r.tag))
    ensures Step(cfg, s, r, e).ledger == s.ledger && Step(cfg, s, r, e).sent == s.sent
    ensures SelectChannel(cfg.emailMethod) != NoChannel && e.sendRaises
  {
  }

  /** A method name that selects no channel sends nothing, yet the ledger
      is stamped and the send cannot fail. */
  lemma UnknownMethodStillStamps(cfg: Config, s: Cycle, r: Reading, e: Env)
    requires s.raised.None? && SelectChannel(cfg.emailMethod) == NoChannel
    requires Evaluate(cfg.rangeAlerts, r).OutOfRange? && MayDispatch(cfg, s.ledger, r.tag, e.now)
    ensures var c := Step(cfg, s, r, e);
      c.raised.None? && c.ledger == s.ledger[r.tag := e.now]
      && c.sent == s.sent + [Dispatch(r.tag, Evaluate(cfg.rangeAlerts, r).v, NoChannel, e.now)]
  {
  }

  /** `EMAIL_METHOD.upper() == "SMTP"` and `== "OUTLOOK"`, as spellings. */
  lemma SelectChannelIff(emailMethod: string)
    ensures SelectChannel(emailMethod) == Smtp <==> Text.SpellsWord(emailMethod, "SMTP")
    ensures SelectChannel(emailMethod) == Outlook <==> Text.SpellsWord(emailMethod, "OUTLOOK")
    ensures SelectChannel(emailMethod) == NoChannel <==>
      !Text.SpellsWord(emailMethod, "SMTP") && !Text.SpellsWord(emailMethod, "OUTLOOK")
  {
    Text.UpperEqualsIff(emailMethod, "SMTP");
    Text.UpperEqualsIff(emailMethod, "OUTLOOK");
  }

  /** The default method `"smtp"` selects SMTP; `"Outlook"` selects Outlook. */
  lemma SelectChannelExamples()
    ensures SelectChannel("smtp") == Smtp && SelectChannel("Outlook") == Outlook
    ensures SelectChannel("gmail") == NoChannel
  {
    SelectChannelIff("smtp");
    SelectChannelIff("Outlook");
    SelectChannelIff("gmail");
    assert !Text.SpellsLetter('g', 'S') && !Text.SpellsLetter('g', 'O');
  }

  /** A shift report is due exactly when some configured start time reads
      as the current hour and minute; an entry not written as zero-padded
      `HH:MM` (such as "6:00") never matches. */
  lemma ShiftReportDueIff(hour: nat, minute: nat, shiftStartTimes: seq<string>)
    requires hour < 24 && minute < 60
    ensures ShiftReportDue(hour, minute, shiftStartTimes) <==>
      exists j :: 0 <= j < |shiftStartTimes| && Text.ParseHourMinute(shiftStartTimes[j]) == Some((hour, minute))
  {
    if ShiftReportDue(hour, minute, shiftStartTimes) {
      var j :| 0 <= j < |shiftStartTimes| && shiftStartTimes[j] == Text.HourMinute(hour, minute);
      Text.ParseFormatted(hour, minute);
    }
    if exists j :: 0 <= j < |shiftStartTimes| && Text.ParseHourMinute(shiftStartTimes[j]) == Some((hour, minute)) {
      var j :| 0 <= j < |shiftStartTimes| && Text.ParseHourMinute(shiftStartTimes[j]) == Some((hour, minute));
      Text.FormatParsed(shiftStartTimes[j]);
    }
  }

  /** Four poll cycles of one tag with rule `(30, None)` and a 30-minute
      cooldown, the ledger carried from one cycle to the next: 25 at T0 is
      sent by SMTP; 25 five minutes later is listed but not sent; 35 at forty
      minutes is not listed and leaves the ledger; 20 at fifty minutes is
      sent again. */
  lemma FourCycleScenario()
    ensures
      var tag := "Line_Pressure";
      var cfg := Config(map[tag := Bounds(Some(30.0), None)], true, 1800.0, "smtp");
      var t0 := 100000.0;
      var c1 := Run(cfg, [Reading(tag, Some(Num(25.0)))], [Env(t0, false)], map[], 1);
      var c2 := Run(cfg, [Reading(tag, Some(Num(25.0)))], [Env(t0 + 300.0, true)], c1.ledger, 1);
      var c3 := Run(cfg, [Reading(tag, Some(Num(35.0)))], [Env(t0 + 2400.0, true)], c2.ledger, 1);
      var c4 := Run(cfg, [Reading(tag, Some(Num(20.0)))], [Env(t0 + 3000.0, false)], c3.ledger, 1);
      && c1.sent == [Dispatch(tag, 25.0, Smtp, t0)] && c1.ledger == map[tag := t0]
      && c2.sent == [] && OutcomeOf(c2) == Completed([AlertRecord(tag, 25.0, t0 + 300.0)]) && c2.ledger == c1.ledger
      && c3.sent == [] && OutcomeOf(c3) == Completed([]) && c3.ledger == c1.ledger
      && c4.sent == [Dispatch(tag, 20.0, Smtp, t0 + 3000.0)] && c4.ledger == map[tag := t0 + 3000.0]
  {
    SelectChannelExamples();
  }
}

