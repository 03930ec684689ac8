# MVL_Checker presence session, modelled in Dafny

MVL_Checker is an unattended script for a web learning portal. It logs in, opens a
primary and a secondary course page, stays on each for a randomised time, and
keeps a ledger file with the instant of its last run. The ledger throttles it to
one run per cooldown period. Its whole decision logic is in `main.py`, and this
project models that logic:

- `wrappers.dfy` (`Wrappers`): `Option` and `Result`.
- `ledger.dfy` (`RunLedger`): the `last_run.txt` ledger.
  - `can_run` is a cooldown gate that creates the record on first use.
  - `save_run_time` overwrites the record.
  - The ledger is a class whose one field is the stored record. The record is absent, a readable instant, or unparsable.
- `planner.dfy` (`DurationPlanner`): the dwell plan drawn at start-up.
  - It draws whole minutes in [3, 8].
  - Each page stay is half the total, stretched by a multiplier in [1.2, 1.5] and truncated.
- `session.dfy` (`SessionDriver`): `run()`.
  - Login, form submission with a fallback, primary course with up to three attempts, two dwell loops with keep-alive touches, and teardown.
  - Class `Session` performs it step by step, in methods whose loops mirror the source's loops.
  - Each method is proved against a pure function that gives the trace of events and the error raised by that stretch of the protocol.
- `scheduler.dfy` (`Scheduler`): the module-level code and the `__main__` block.
  - The configuration check, and the log-size gate (class `LogFile`).
  - The short-circuit `has_internet() and can_run()`, then the session.
  - The top-level `except Exception`.
  - `Launch` is proved against the pure function `Invocation`, which gives the exit, the new ledger and the session trace.

How the environment is represented:
- The browser is an oracle record that says which of its calls succeed. Whether the primary course loads is a function of the attempt number.
- Connectivity, the clock readings, the random draws and whether deleting the log works are all parameters.
- Instants are integer microseconds, the resolution of the timestamp the ledger stores.

Behaviours of `main.py` that are easy to miss, all of which the model keeps:
- The cooldown is 5 days (`main.py:78`). The comments and the skip message at `main.py:68` and `main.py:209` say 10.
- The driver is created before the `try` (`main.py:103`). A failed driver start therefore gets no teardown and no ledger write.
- The current-URL read after the redirect wait (`main.py:142`) is not guarded, so its failure aborts the login before the dump.
- The screenshot and HTML dump (`main.py:145-147`) are not guarded, so a failed dump aborts the session.
- Errors that reach the top-level handler (`main.py:210-211`) are logged and swallowed, so the process exits 0. Of the failures the model represents, only the configuration error at `main.py:24-25` escapes. It is raised at module level, before the handler.
- Only the stretched split exists (`main.py:33-34`). A plain even split does not appear in the code.
- The secondary course is mandatory: its navigation failure is fatal (`main.py:178`).

## Model

| member | source | states |
|---|---|---|
| RunLedger.Ledger.CanRun | main.py:69-80 | Result is the eligibility of the old record. With no record it allows the run and creates the record at `now`; with a record it leaves the ledger unchanged. |
| RunLedger.Ledger.SaveRunTime | main.py:83-85 | The record afterwards holds exactly `now`, whatever was stored before. |
| RunLedger.EligibleIff | main.py:69-80 | Eligible iff there is no record or the readable record is at least the cooldown old; an error iff the stored text is unparsable. |
| RunLedger.CooldownBoundary | main.py:78 | The comparison is inclusive: exactly 5 days (432 000 000 000 µs) after the last run is allowed, one microsecond less is not. |
| RunLedger.EligibilityMonotone | main.py:78 | With the ledger unwritten, a later check that follows an eligible one is eligible too. |
| DurationPlanner.StretchBounds | main.py:33-34 | Truncating h times a multiplier in [1.2, 1.5] gives a value between floor(6h/5) and floor(3h/2). |
| DurationPlanner.StretchedHalf | main.py:33-34 | One page stay lies between 1.2 and 1.5 times half the total, both rounded down. |
| DurationPlanner.Plan | main.py:31-34 | Total is minutes·60 seconds. Each stay is at least half and at most three quarters of the total. Together the stays take at least the total (at least 180 s) and at most 1.5 times the total. |
| SessionDriver.OccurrencesAppend | main.py:88-199 | Counting events in a trace distributes over concatenation (the basis of every count about the session). |
| SessionDriver.OccurrencesIn | main.py:88-199 | An event has a positive count in a trace exactly when it occurs in it. |
| SessionDriver.DwellSteps | main.py:167-174 | A dwell loop only sleeps one-second ticks and touches the session. |
| SessionDriver.DwellPauses | main.py:167-168 | A dwell of n seconds sleeps exactly n one-second ticks. |
| SessionDriver.DwellTouches | main.py:170-174 | A dwell of n seconds touches the session k times with 10k-9 <= n <= 10k (iterations 0, 10, 20, ...). |
| SessionDriver.DwellCounts | main.py:167-174 | A dwell of n seconds has n ticks and ceil(n/10) keep-alive touches. |
| SessionDriver.RetryShape | main.py:151-163 | From attempt a the tries are a, a+1, ..., all but the last failed, success iff the last one loaded, and failure only after the third attempt. |
| SessionDriver.RetrySteps | main.py:151-163 | The retry loop only requests the primary course and sleeps the 3-second retry pause. |
| SessionDriver.RetryPauses | main.py:160-161 | The retry pauses number one fewer than the attempts: no pause after the last attempt. |
| SessionDriver.PrimaryRetryBound | main.py:151-163 | From attempt 1: between one and three attempts, numbered 1, 2, 3, stopping at the first that loads. The loop raises exactly when none of the three loads, and then only after three attempts. It pauses attempts-1 times. |
| SessionDriver.SubmitFallback | main.py:124-135 | The click comes right after the credentials. The form submit is tried iff the click failed, and the login raises there iff both failed. |
| SessionDriver.LoginOutcome | main.py:107-147 | Login gets through iff the page loads, both fields are found, one submission works, the current URL can be read and the dump is written. A failed URL read raises its own error and the dump is then not attempted. A failed dump alone raises the dump error. A successful login ends with the dump. |
| SessionDriver.LoginFailureSkipsCourses | main.py:106-199 | Any login failure (page, fields, submission, URL read, dump) becomes the run's error before any course is requested, and teardown still runs. |
| SessionDriver.RedirectNeverFatal | main.py:138-141 | Whether the URL changes after login never changes how the run ends. |
| SessionDriver.LoginSteps | main.py:107-147 | Login neither starts nor tears down the driver, and neither dwells nor touches the session. |
| SessionDriver.BodyOnlySessionSteps | main.py:106-191 | The guarded block never starts or quits the driver nor writes the ledger itself. |
| SessionDriver.CompletedBody | main.py:106-191 | A guarded block that raised nothing went through login, primary course, first dwell, secondary course and second dwell in that order. |
| SessionDriver.TeardownExactlyOnce | main.py:103-199 | The driver is quit iff it started. If it started, the trace starts with the driver start and ends with exactly one quit and one ledger write at the teardown instant, whichever stage raised, and the block's error propagates. A failed start has no teardown. |
| SessionDriver.CompletedRunCounts | main.py:165-191 | A run that raised nothing slept first+second one-second ticks, touched the session ceil(first/10)+ceil(second/10) times, and opened the secondary course. |
| SessionDriver.Session.Run | main.py:88-199 | The trace grows by the run's protocol trace and the raised error is the protocol's. The ledger holds the teardown instant iff the driver started, and the driver is closed afterwards. |
| SessionDriver.Session.Login | main.py:107-147 | Sign-in then confirmation, the confirmation skipped when sign-in raised: the trace grows by the login protocol and the error is the login's. |
| SessionDriver.Session.SignIn | main.py:107-135 | The trace grows by page load, username, the 0.5 s pause, password and the click with its form-submit fallback, stopping at the first failing step, whose error is returned. |
| SessionDriver.Session.Confirm | main.py:138-147 | The trace grows by the redirect wait (never fatal), the URL read and the dump; a failed URL read stops before the dump. |
| SessionDriver.Session.Body | main.py:106-195 | The guarded block: the trace grows by login then the course visits, the visits skipped when login raised, and the first error is returned. |
| SessionDriver.Session.VisitCourses | main.py:150-191 | The primary course with retries, then the stays, the stays skipped when the primary course failed. |
| SessionDriver.Session.StayOnCourses | main.py:165-191 | First dwell, secondary course, second dwell; an unreachable secondary course raises and skips the second dwell. |
| SessionDriver.Session.OpenPrimaryCourse | main.py:151-163 | The retry loop appends exactly the retry protocol's trace and raises its error. |
| SessionDriver.Session.Dwell | main.py:167-174 | The dwell loop appends exactly n ticks with keep-alive touches at iterations divisible by 10. |
| Scheduler.LogFile.CheckAndCleanup | main.py:48-56 | The log is removed iff it exists, is larger than 10 MiB and deletion works; a failed deletion leaves it as it was and raises nothing. |
| Scheduler.CleanupDeletesOnlyOversized | main.py:48-56 | The log is gone afterwards iff it was absent or was oversized and deletion worked. Any file that remains is unchanged. The limit is strict: 10 485 760 bytes is kept, one more is not. |
| Scheduler.Launch | main.py:202-211 | The exit, the new ledger and the trace are those of `Invocation`. The log gate runs only after the configuration check passed. |
| Scheduler.OfflineTouchesNothing | main.py:205 | Without connectivity the ledger is not consulted (short-circuit): no record is created, no session runs, exit status 0. |
| Scheduler.SessionIffBothGates | main.py:205-207 | A session starts iff the connectivity probe succeeds and the ledger says eligible. |
| Scheduler.FirstRunCreatesRecord | main.py:70-73 | With no ledger the first online invocation runs. The record exists even when the driver never starts, holding the check instant. |
| Scheduler.CooldownSkips | main.py:75-80 | A readable record younger than 5 days skips the run with exit 0 and leaves the ledger and the browser untouched. |
| Scheduler.LedgerHoldsTeardownInstant | main.py:196-199 | When both gates pass and the driver comes up, the ledger holds the teardown instant, however the session ended. |
| Scheduler.CompletedDwellWithinPlan | main.py:31-34 | A completed invocation slept between minutes·60 and 1.5·minutes·60 one-second ticks on the course pages. |
| Scheduler.ErrorsDoNotEscape | main.py:202-211 | The exit status is 0 iff the configuration is complete: every other error is caught by the top-level handler. |
| Scheduler.GarbledLedgerBlocksForever | main.py:75-76 | An unparsable ledger is caught at the top level and never rewritten, so every later online invocation ends the same way and runs no session. |

## Left out

- Logging and the `print` calls are left out. They are output only and change no state the model tracks.
- Log rotation timing is not modelled. `logging.basicConfig` (`main.py:36-40`) opens the log before the size gate runs, so on some platforms a deletion leaves the logger writing to the removed file or fails because the file is open. The model has one flag for whether deletion works.
- A failure to open the log file in `logging.basicConfig` (`main.py:36-40`) is not modelled. That code runs at module level, before the handler, so such a failure also escapes with a nonzero exit status.
- `has_internet` (`main.py:59-66`) becomes the boolean parameter `online`. Its HTTP request is not modelled.
- `datetime.now()` becomes parameters: the instant of the ledger check and the instant of teardown. ISO-8601 text and its parsing become the `Entry` datatype, `Stamp` or `Garbled`. File-system errors other than a missing file are not modelled.
- Time zones are not modelled. The stored instants are naive local times in the source.
- DurationPlanner.StretchedHalf: the multiplier is an exact rational in [6/5, 3/2]. Python's `random.uniform` returns a binary float, so the stretched product can differ from the exact one by rounding. The bounds proved are for the exact product.
- Selenium details are not modelled: the Chrome options, the user-agent string, the 20-second waits, and the locators `username`, `password`, `loginbtn` and `login`. Each unguarded step that can abort the session has one success flag. A step may be several consecutive calls with nothing observable between them: the driver download and start (`main.py:103`), the wait, `clear` and `send_keys` for each field (`main.py:111-113`, `main.py:118-120`), and the screenshot and the HTML dump (`main.py:145-147`). The URL reads inside the primary-course retry (`main.py:156`) fold into that attempt's flag, because the retry's `except` catches them.
- `driver.quit()` failing inside the `finally` block is not modelled. The model assumes teardown's quit returns normally, so the ledger write after it always happens.
- Keep-alive failures (`main.py:171-174`) are swallowed by the source and leave no trace, so the model has no input for them.
- `build.py` is packaging tooling, and it is not part of this model.
- A plain even split with no stretch is not modelled, because `main.py` contains only the stretched split.
