/**
 * The entry point: the configuration check made at start-up, the log-size
 * gate, the short-circuit gate (connectivity first, then the ledger), the
 * session, and the top-level handler that catches whatever the gate or the
 * session raises.
 */
module Scheduler {
  import opened Wrappers
  import opened RunLedger
  import opened DurationPlanner
  import opened SessionDriver

  /** 10 MiB. */
  const LOG_MAX_SIZE: nat := 10 * 1024 * 1024

  /** The log-size test: strictly greater than the ceiling. */
  predicate Oversized(size: nat)
  {
    size > LOG_MAX_SIZE
  }

  /** The log file after the size gate, given whether deleting it works. None: no file. */
  function AfterCleanup(size: Option<nat>, removeOk: bool): Option<nat>
  {
    if size.Some? && Oversized(size.value) && removeOk then None else size
  }

  /** The log file on disk; `size` is None while it does not exist. */
  class LogFile {
    var size: Option<nat>

    constructor (size: Option<nat>)
      ensures this.size == size
    {
      this.size := size;
    }

    /** Delete the log when it is larger than the ceiling; a failed delete is reported and swallowed. */
    method CheckAndCleanup(removeOk: bool)
      modifies this
      ensures size == AfterCleanup(old(size), removeOk)
    {
      if size.Some? && size.value > LOG_MAX_SIZE {
        if removeOk {
          size := None;
        }
      }
    }
  }

  /**
   * The gate deletes the log only when it exists, is over 10 MiB and the
   * delete succeeds; otherwise the file is left exactly as it was.
   */
  lemma CleanupDeletesOnlyOversized(size: Option<nat>, removeOk: bool)
    ensures AfterCleanup(size, removeOk) == None
        <==> size == None || (Oversized(size.value) && removeOk)
    ensures AfterCleanup(size, removeOk) != None ==> AfterCleanup(size, removeOk) == size
    ensures !Oversized(LOG_MAX_SIZE) && Oversized(LOG_MAX_SIZE + 1) && LOG_MAX_SIZE == 10_485_760
  {
  }

  /** The four settings read from the environment; None when unset. */
  datatype Config = Config(
    username: Option<string>,
    password: Option<string>,
    courseUrl: Option<string>,
    secondCourseUrl: Option<string>)

  /** A setting counts as given when it is set and not empty. */
  predicate Given(v: Option<string>)
  {
    v.Some? && v.value != ""
  }

  /** All four settings are required. */
  predicate Complete(c: Config)
  {
    Given(c.username) && Given(c.password) && Given(c.courseUrl) && Given(c.secondCourseUrl)
  }

  /** The three random draws made at start-up: whole minutes and two stretch multipliers. */
  datatype Draw = Draw(minutes: int, firstStretch: Stretch, secondStretch: Stretch)

  /** The ranges the draws come from. */
  predicate ValidDraw(d: Draw)
  {
    MIN_MINUTES <= d.minutes <= MAX_MINUTES && InStretchRange(d.firstStretch) && InStretchRange(d.secondStretch)
  }

  function PlanOf(d: Draw): SessionPlan
    requires ValidDraw(d)
  {
    Plan(d.minutes, d.firstStretch, d.secondStretch)
  }

  /**
   * What one invocation meets: settings, draws, whether deleting the log
   * works, whether the connectivity probe succeeds, the instant of the
   * ledger check, the browser, and the instant of teardown.
   */
  datatype Env = Env(
    config: Config,
    draw: Draw,
    removeOk: bool,
    online: bool,
    checkedAt: Instant,
    browser: Browser,
    finishedAt: Instant)

  /** What the top-level handler catches. */
  datatype TopError = LedgerUnreadable | SessionRaised(failure: Failure)

  /** How an invocation ends. */
  datatype Exit =
    | ConfigMissing           // raised at start-up, outside the handler
    | Skipped                 // no connectivity, or the cooldown has not elapsed
    | Completed
    | Caught(error: TopError) // logged by the top-level handler

  /** Only the start-up configuration error escapes the top-level handler. */
  function ExitStatus(x: Exit): nat
  {
    if x.ConfigMissing? then 1 else 0
  }

  /** How an invocation ends, the ledger it leaves, and what the session did. */
  datatype Report = Report(exit: Exit, record: Option<Entry>, events: seq<Event>)

  /** One invocation, starting from ledger state `record`. */
  function Invocation(env: Env, record: Option<Entry>): Report
    requires ValidDraw(env.draw)
  {
    if !Complete(env.config) then Report(ConfigMissing, record, [])
    else if !env.online then Report(Skipped, record, [])
    else
      match Eligibility(record, env.checkedAt)
      case Err(_) => Report(Caught(LedgerUnreadable), record, [])
      case Ok(false) => Report(Skipped, record, [])
      case Ok(true) =>
        var run := RunPhase(env.browser, PlanOf(env.draw), env.finishedAt);
        Report(if run.raised.Some? then Caught(SessionRaised(run.raised.value)) else Completed,
               if env.browser.startsOk then Some(Stamp(env.finishedAt)) else AfterCheck(record, env.checkedAt),
               run.events)
  }

  /**
   * The program's entry: the configuration check, the log gate, then
   * `online and can_run()` with Python's short-circuit, then the session.
   * Returns how the invocation ended and the session's trace.
   */
  method Launch(env: Env, log: LogFile, ledger: Ledger) returns (exit: Exit, events: seq<Event>)
    requires ValidDraw(env.draw)
    modifies log, ledger
    ensures Report(exit, ledger.record, events) == Invocation(env, old(ledger.record))
    ensures log.size == if Complete(env.config) then AfterCleanup(old(log.size), env.removeOk) else old(log.size)
  {
    events := [];
    if !Complete(env.config) {
      return ConfigMissing, [];
    }
    var plan := PlanOf(env.draw);
    log.CheckAndCleanup(env.removeOk);
    if !env.online {
      return Skipped, [];
    }
    var eligible := ledger.CanRun(env.checkedAt);
    if eligible.Err? {
      return Caught(LedgerUnreadable), [];
    }
    if !eligible.value {
      return Skipped, [];
    }
    var session := new Session(ledger);
    var raised := session.Run(env.browser, plan, env.finishedAt);
    events := session.trace;
    exit := if raised.Some? then Caught(SessionRaised(raised.value)) else Completed;
  }

  /** Without connectivity the ledger is not consulted: no record is created and no session runs. */
  lemma OfflineTouchesNothing(env: Env, record: Option<Entry>)
    requires ValidDraw(env.draw) && Complete(env.config) && !env.online
    ensures var r := Invocation(env, record);
      r.exit == Skipped && r.record == record && r.events == [] && ExitStatus(r.exit) == 0
  {
  }

  /** A session starts exactly when both the connectivity probe and the ledger gate say yes. */
  lemma SessionIffBothGates(env: Env, record: Option<Entry>)
    requires ValidDraw(env.draw) && Complete(env.config)
    ensures Invocation(env, record).events != []
        <==> env.online && Eligibility(record, env.checkedAt) == Ok(true)
  {
  }

  /**
   * The very first invocation with connectivity always runs, and its ledger
   * record exists even if the driver never starts (so no teardown writes it).
   */
  lemma FirstRunCreatesRecord(env: Env)
    requires ValidDraw(env.draw) && Complete(env.config) && env.online
    ensures var r := Invocation(env, None);
      && r.events != [] && r.record.Some?
      && (!env.browser.startsOk ==> r.record == Some(Stamp(env.checkedAt)))
  {
  }

  /** A readable record younger than the cooldown skips the run and leaves the ledger alone. */
  lemma CooldownSkips(env: Env, last: Instant)
    requires ValidDraw(env.draw) && Complete(env.config) && env.online
    requires env.checkedAt - last < COOLDOWN
    ensures var r := Invocation(env, Some(Stamp(last)));
      r.exit == Skipped && r.record == Some(Stamp(last)) && r.events == [] && ExitStatus(r.exit) == 0
  {
  }

  /** Once the driver has started, the ledger ends up holding the teardown instant, however the session ended. */
  lemma LedgerHoldsTeardownInstant(env: Env, record: Option<Entry>)
    requires ValidDraw(env.draw) && Complete(env.config) && env.online
    requires Eligibility(record, env.checkedAt) == Ok(true) && env.browser.startsOk
    ensures Invocation(env, record).record == Some(Stamp(env.finishedAt))
    ensures Invocation(env, record).exit != Skipped
  {
  }

  /**
   * An invocation that completes dwelt between the drawn total and one and
   * a half times it, in one-second steps, on the two course pages.
   */
  lemma CompletedDwellWithinPlan(env: Env, record: Option<Entry>)
    requires ValidDraw(env.draw)
    ensures var r := Invocation(env, record); var seconds := Occurrences(r.events, Pause(TICK_MS));
      r.exit == Completed ==> env.draw.minutes * 60 <= seconds <= (3 * (env.draw.minutes * 60)) / 2
  {
    if Invocation(env, record).exit == Completed {
      CompletedRunCounts(env.browser, PlanOf(env.draw), env.finishedAt);
    }
  }

  /** Whatever the gate or the session raises is caught: with the settings present the exit status is 0. */
  lemma ErrorsDoNotEscape(env: Env, record: Option<Entry>)
    requires ValidDraw(env.draw)
    ensures ExitStatus(Invocation(env, record).exit) == 0 <==> Complete(env.config)
  {
  }

  /**
   * An unreadable ledger is caught at the top level and never rewritten:
   * every later invocation is caught the same way and no session runs.
   */
  lemma GarbledLedgerBlocksForever(env: Env)
    requires ValidDraw(env.draw) && Complete(env.config) && env.online
    ensures var r := Invocation(env, Some(Garbled));
      r.exit == Caught(LedgerUnreadable) && r.record == Some(Garbled) && r.events == []
  {
  }
}
