# Range alerts of the PLC logger, in Dafny

This project models the alert engine of the PLC logger (`alerts.py`). Each poll cycle,
`check_alerts` walks the tag readings. For each tag it compares the value with that tag's
`RANGE_ALERTS` bounds `(low, high)`, where either bound may be `None`. For every breach it
consults the module-level cooldown ledger `last_alert_time`. When mail is enabled and the
cooldown has passed, it calls `send_email_alert` and then stamps the ledger. Every breach goes into the
returned list. `send_email_alert` picks the SMTP or Outlook channel from the upper-cased
`EMAIL_METHOD`. `shift_report_if_needed` starts a shift report when the clock reads one of the
configured `HH:MM` start times.

Files:

- `wrappers.dfy`: `Option`, for Python's `None`.
- `text.dfy`: `str.upper()` on the characters that matter for channel selection, and
  `strftime("%H:%M")` with its inverse.
- `alerts.dfy`: the data model, the bound test `Evaluate`, the loop body `Step`, the cycle
  `Run`, channel selection, the shift-report trigger, and the class `AlertEngine`. That class
  holds the ledger `lastAlertTime` and a proof-only log `dispatched` of every
  `send_email_alert` call that returned. Mail goes out only for log entries whose channel is
  not `NoChannel`. Its
  method `CheckAlerts` is the imperative loop of `check_alerts`. It is proved equal to `Run`.
- `alert_properties.dfy`: reference definitions that say what a cycle should produce
  (`Flagged`, `Due`, `Stamp`, `FailureAt`), written without the loop, and the lemmas that
  connect `Run` to them.

Inputs from outside the program are explicit. `Config` holds the constants `RANGE_ALERTS`,
`EMAIL_ENABLED`, `EMAIL_COOLDOWN` and `EMAIL_METHOD`. Each reading comes with an `Env`. That
`Env` gives the value `time.time()` returns while the reading is handled, and says whether the
mail library raises if a send is attempted.

Behaviour of alerts.py worth stating:

- The cooldown test `now - last >= cooldown` is non-strict: a gap equal to the cooldown
  still sends.
- A tag with no ledger entry counts as last sent at time 0.
- A non-numeric value on a tag with a bound is compared with a number. That raises
  `TypeError`, so the cycle ends with `Raised(ComparisonError(tag))`.
- An exception from the mail library leaves `check_alerts`. The ledger is not stamped for
  that tag and the remaining tags are not examined. Stamps and sends made earlier in the
  cycle remain.
- An `EMAIL_METHOD` that selects no channel sends nothing when an alert is due, and the
  ledger is still stamped.
- alerts.py escalates nothing for critical tags and flattens no composite values.

## Model

| member | source | states |
|---|---|---|
| `AlertProperties.FlaggedIffOutsideBounds` | alerts.py:27-32 | a numeric value with a rule is out of range exactly when it lies outside the closed interval of its set bounds; a value equal to a bound is in range |
| `AlertProperties.NoRuleOrNoValueSkipped` | alerts.py:24-25 | a reading is skipped exactly when its tag has no rule or its value is None |
| `AlertProperties.UnboundedNeverFlags` | alerts.py:27-32 | bounds `(None, None)` never flag and never compare |
| `AlertProperties.NonNumericRaisesIffBounded` | alerts.py:29-32 | a non-numeric value raises exactly when its rule has at least one bound |
| `AlertProperties.LowBoundExample` | alerts.py:29-30 | with bounds (30, None), 29.9 is flagged and 30 and 30.1 are not |
| `AlertProperties.SkippedReadingLeavesNoTrace` | alerts.py:23-25 | a tag with no rule, or with a None value, gets no list entry and no send, and its ledger entry is unchanged |
| `AlertProperties.CompletedCycle` | alerts.py:15-45 | a cycle completes exactly when no reading fails; it then returns one entry per out-of-range reading in input order, makes exactly the sends due against the starting ledger, and stamps exactly those |
| `AlertProperties.RunAgreesWithReference` | alerts.py:21-45 | after any number of loop turns: raised iff some reading so far failed; until then the list and sends are the reference ones; sends are always a prefix of the due sends and the ledger is the starting ledger stamped with them |
| `AlertProperties.StepAgrees` | alerts.py:27-43 | one loop turn raises the reading's failure, or appends its entry and its due send; a raising turn changes neither ledger nor sends |
| `AlertProperties.ThrottlingKeepsAlerts` | alerts.py:34-45 | the returned list does not depend on the mail settings or the ledger, so throttling never removes an entry |
| `AlertProperties.FlaggedEntries` | alerts.py:34-43 | an entry is in the list exactly when it is `(tag, value, now)` of an out-of-range reading |
| `AlertProperties.DispatchedIff` | alerts.py:35-39 | in a completed cycle `send_email_alert` is called for a tag exactly when it is out of range, mail is enabled and `now - last >= cooldown`, with last the starting-ledger entry or 0; mail goes out only when the call's channel is not `NoChannel` |
| `AlertProperties.SentOnlyWhenDue` | alerts.py:35-39 | in any cycle, even one that raised, every returned `send_email_alert` call was for an out-of-range reading with mail enabled and the cooldown elapsed, on the selected channel |
| `AlertProperties.LedgerAfterCycle` | alerts.py:36-40 | after any cycle the ledger entry of each tag for which `send_email_alert` returned is the call's time, and every other entry is unchanged |
| `AlertProperties.CooldownBoundarySends` | alerts.py:37 | a gap exactly equal to the cooldown still sends and stamps the ledger |
| `AlertProperties.FirstAlertSendsAfterCooldownFromZero` | alerts.py:36-37 | for a tag with no ledger entry, a flagged reading calls `send_email_alert` exactly when mail is enabled and `now >= cooldown` |
| `AlertProperties.SendErrorLeavesLedger` | alerts.py:39-40 | if the send raises, the ledger and the sends are left as they were, because the stamp comes after the send |
| `AlertProperties.UnknownMethodStillStamps` | alerts.py:37-40 | an unknown method sends nothing, cannot fail, and still stamps the ledger |
| `AlertProperties.FourCycleScenario` | alerts.py:34-40 | four cycles with the ledger carried over: sent by SMTP, throttled but listed, in range and untouched, sent again |
| `AlertProperties.SelectChannelIff` | alerts.py:51-56 | SMTP exactly when the method spells "SMTP" in any case, Outlook exactly when it spells "OUTLOOK", otherwise no channel |
| `AlertProperties.SelectChannelExamples` | config_template.py:26-29 | "smtp" selects SMTP, "Outlook" selects Outlook, "gmail" selects nothing |
| `AlertProperties.ShiftReportDueIff` | alerts.py:58-65 | a report is due exactly when some configured start time parses as the current hour and minute; an entry without zero padding never matches |
| `Alerts.Evaluate` | alerts.py:24-32 | the verdict for one reading; characterised by `FlaggedIffOutsideBounds`, `NoRuleOrNoValueSkipped`, `UnboundedNeverFlags` and `NonNumericRaisesIffBounded` |
| `Alerts.LastAlert` | alerts.py:36 | the ledger entry or 0; its use is stated by `FirstAlertSendsAfterCooldownFromZero` and `DispatchedIff` |
| `Alerts.MayDispatch` | alerts.py:37 | the send condition; stated by `DispatchedIff`, `SentOnlyWhenDue` and `CooldownBoundarySends` |
| `Alerts.Step` | alerts.py:24-43 | one loop turn; characterised by `StepAgrees`, `SendErrorLeavesLedger` and `UnknownMethodStillStamps` |
| `Alerts.Run` | alerts.py:21-45 | the loop over a cycle's readings; characterised by `RunAgreesWithReference`, `CompletedCycle` and `RunStaysRaised` |
| `Alerts.SelectChannel` | alerts.py:51-56 | the channel for the method name; characterised by `SelectChannelIff` |
| `Alerts.ShiftReportDue` | alerts.py:58-65 | the shift-report trigger; characterised by `ShiftReportDueIff` |
| `Text.HourMinute` | alerts.py:63 | `strftime("%H:%M")`, five characters with a colon in the middle; its inverse is stated by `ParseFormatted` and `FormatParsed` |
| `Alerts.RunStaysRaised` | alerts.py:23-45 | once an exception is raised, later readings change nothing |
| `Alerts.AlertEngine.constructor` | alerts.py:13 | the ledger starts empty |
| `Alerts.AlertEngine.SendEmailAlert` | alerts.py:47-56 | returns normally unless a channel is selected and the library raises; a returned call is logged with its channel |
| `Alerts.AlertEngine.CheckAlerts` | alerts.py:15-45 | the new ledger, the sends made and the outcome are those of `Run` from the old ledger |
| `Text.ToUpper` | alerts.py:51 | upper-casing keeps the length and maps every character by `UpperChar` |
| `Text.UpperEqualsIff` | alerts.py:51-54 | the upper case of a string equals an upper-case ASCII word exactly when the string spells that word in some mixture of cases |
| `Text.ParseFormatted` | alerts.py:63 | reading back `HH:MM` gives the hour and minute that were written |
| `Text.FormatParsed` | alerts.py:63 | every string that reads as a valid `HH:MM` is the formatted form of what it reads as |

## Left out

- Reading the controller (`plc_comm.py`): the readings are an input. A failed read is a `None` value.
- The clock: `time.time()` and `datetime.now()` are inputs (`Env.now`, the hour and minute given to `ShiftReportDue`).
- Alerts.AlertEngine.CheckAlerts: models `datetime.now()` at alerts.py:43 as the same instant as `time.time()` at alerts.py:35. It also models times as exact reals, not floating point.
- Mail transport (`email_smtp.py`, `email_outlook.py`): each returned `send_email_alert` call is an entry in the proof-only log `dispatched`. Whether it raises is the input `Env.sendRaises`. The subject and body text are not modelled.
- `generate_shift_report` (PDF rendering): `ShiftReportDue` says only whether it is called.
- Text.ToUpper: upper-cases ASCII letters and the two non-ASCII letters whose upper case is a single ASCII letter (U+017F to S, U+0131 to I). All other characters are kept unchanged, so other Unicode case mappings are not modelled; for example `"ß".upper()` is `"SS"` in Python. These two are the only non-ASCII characters whose upper case is a single ASCII letter. No multi-letter upper case (ß, the ligatures U+FB00 to U+FB06) can spell "SMTP" or "OUTLOOK", so `SelectChannel` picks the same channel as Python for every method name.
- Tag values: values Python can order against a number are reals, booleans included. Every other value is `NonNumeric`. NaN is not modelled.
- Dictionary iteration order: a poll cycle is a sequence of readings. Lemmas that need distinct tags, as dictionary keys are, require it.
- `logger.py`, `charts.py`, `report_pdf.py`, `html_summary.py`, `email_utils.py`, `utils.py`: file, plotting and templating I/O.
- `main.py`: the endless poll loop and its sleep. Successive cycles are modelled by carrying the ledger from one `Run` or `CheckAlerts` call to the next.
- `config.py` lacks `EMAIL_ENABLED`, `EMAIL_COOLDOWN`, `EMAIL_METHOD` and `SHIFT_START_TIMES`, which alerts.py reads. They are parameters here. The declared `CRITICAL_TAGS` and `MAX_RETRIES` are used by no code, so they are not modelled.
