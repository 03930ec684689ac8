/**
 * The browser session of run(): a strictly linear protocol
 *   start driver -> login page -> username -> password -> submit (click,
 *   then form-submit fallback) -> wait for redirect -> debug dump ->
 *   primary course (up to 3 attempts) -> dwell -> secondary course -> dwell
 * with a teardown (quit the driver, record the run) that runs however the
 * protocol after driver start ends.
 *
 * The browser is an oracle: a record saying which of its calls succeed.
 * What the session does is recorded as a trace of events; the pure
 * functions below give the trace and the raised error of each stretch of
 * the protocol, and class Session performs the protocol step by step.
 */
module SessionDriver {
  import opened Wrappers
  import opened RunLedger
  import opened DurationPlanner

  const PASSWORD_PAUSE_MS: nat := 500   // the pause before re-finding the password field
  const RETRY_PAUSE_MS: nat := 3000     // the pause between failed primary-course attempts
  const TICK_MS: nat := 1000            // one dwell step
  const MAX_RETRIES: nat := 3
  const KEEP_ALIVE_EVERY: nat := 10

  /** What the session does, in order. A flag says whether the browser call succeeded. */
  datatype Event =
    | StartDriver(ok: bool)
    | LoadLogin(ok: bool)
    | EnterUsername(ok: bool)
    | EnterPassword(ok: bool)
    | ClickLogin(ok: bool)
    | SubmitForm(ok: bool)
    | AwaitRedirect(changed: bool)
    | ReadUrl(ok: bool)
    | SaveDebugDump(ok: bool)
    | OpenPrimary(attempt: nat, ok: bool)
    | OpenSecondary(ok: bool)
    | Pause(ms: nat)
    | KeepAlive
    | QuitDriver
    | RecordRun(at: Instant)

  /** The errors that abort the protocol. */
  datatype Failure =
    | DriverInit
    | LoginPageUnreachable
    | UsernameField
    | PasswordField
    | SubmitFailed
    | UrlUnreadable
    | DebugDumpFailed
    | PrimaryExhausted
    | SecondaryUnreachable

  /** Which browser calls succeed. `primaryLoads(k)` answers attempt k (1-based). */
  datatype Browser = Browser(
    startsOk: bool,
    loginPageLoads: bool,
    usernameReady: bool,
    passwordReady: bool,
    clickWorks: bool,
    formSubmitWorks: bool,
    redirects: bool,
    urlReadable: bool,
    dumpWorks: bool,
    primaryLoads: nat -> bool,
    secondaryLoads: bool)

  /** The events of a stretch of the protocol and the error it raised, if any. */
  datatype Phase = Phase(events: seq<Event>, raised: Option<Failure>) {
    /** Sequencing with exceptions: `next` happens only when this stretch raised nothing. */
    function Then(next: Phase): Phase
    {
      if raised.Some? then this else Phase(events + next.events, next.raised)
    }
  }

  /** A single browser call that raises `f` when it fails. */
  function Step(e: Event, ok: bool, f: Failure): Phase
  {
    Phase([e], if ok then None else Some(f))
  }

  /** How often `e` occurs in `events`. */
  function Occurrences(events: seq<Event>, e: Event): nat
  {
    if events == [] then 0
    else Occurrences(events[..|events| - 1], e) + (if events[|events| - 1] == e then 1 else 0)
  }

  /** Counting distributes over concatenation. */
  lemma {:induction false} OccurrencesAppend(s: seq<Event>, t: seq<Event>, e: Event)
    ensures Occurrences(s + t, e) == Occurrences(s, e) + Occurrences(t, e)
    decreases |t|
  {
    if t == [] {
      assert s + t == s;
    } else {
      var u := t[..|t| - 1];
      assert (s + t)[..|s + t| - 1] == s + u;
      OccurrencesAppend(s, u, e);
    }
  }

  /** An event occurs at least once exactly when it is in the sequence. */
  lemma {:induction false} OccurrencesIn(s: seq<Event>, e: Event)
    ensures Occurrences(s, e) > 0 <==> e in s
  {
    if s != [] {
      var u := s[..|s| - 1];
      OccurrencesIn(u, e);
      assert s == u + [s[|s| - 1]];
    }
  }

  /** Counting in a one-element sequence. */
  lemma OccurrencesSingle(x: Event, e: Event)
    ensures Occurrences([x], e) == if x == e then 1 else 0
  {
    assert [x][..0] == [];
  }

  /** The login form submission: click first, form submit only when the click failed. */
  function SubmitPhase(b: Browser): Phase
  {
    if b.clickWorks then Phase([ClickLogin(true)], None)
    else Phase([ClickLogin(false), SubmitForm(b.formSubmitWorks)],
               if b.formSubmitWorks then None else Some(SubmitFailed))
  }

  /** Login page, credentials and submission. */
  function SignInPhase(b: Browser): Phase
  {
    if !b.loginPageLoads then
      Phase([LoadLogin(false)], Some(LoginPageUnreachable))
    else if !b.usernameReady then
      Phase([LoadLogin(true), EnterUsername(false)], Some(UsernameField))
    else
      var credentials := [LoadLogin(true), EnterUsername(true), Pause(PASSWORD_PAUSE_MS), EnterPassword(b.passwordReady)];
      if !b.passwordReady then Phase(credentials, Some(PasswordField))
      else
        var submit := SubmitPhase(b);
        Phase(credentials + submit.events, submit.raised)
  }

  /** After submission: the redirect wait (never fatal), the unguarded URL read and the debug dump. */
  function ConfirmPhase(b: Browser): Phase
  {
    var waited := [AwaitRedirect(b.redirects), ReadUrl(b.urlReadable)];
    if !b.urlReadable then Phase(waited, Some(UrlUnreadable))
    else Phase(waited + [SaveDebugDump(b.dumpWorks)], if b.dumpWorks then None else Some(DebugDumpFailed))
  }

  /** The whole login stretch of the guarded block. */
  function LoginPhase(b: Browser): Phase
  {
    SignInPhase(b).Then(ConfirmPhase(b))
  }

  /** Primary course navigation from `attempt` on: stop at the first success, pause between failures. */
  function PrimaryPhase(loads: nat -> bool, attempt: nat): Phase
    requires 1 <= attempt <= MAX_RETRIES
    decreases MAX_RETRIES - attempt
  {
    if loads(attempt) then Phase([OpenPrimary(attempt, true)], None)
    else if attempt < MAX_RETRIES then
      var rest := PrimaryPhase(loads, attempt + 1);
      Phase([OpenPrimary(attempt, false), Pause(RETRY_PAUSE_MS)] + rest.events, rest.raised)
    else Phase([OpenPrimary(attempt, false)], Some(PrimaryExhausted))
  }

  /** Whether iteration i of a dwell loop touches the session. */
  predicate TouchesAt(i: nat)
  {
    i % KEEP_ALIVE_EVERY == 0
  }

  /** The first `n` iterations of a dwell loop: a one-second pause each, a keep-alive on every tenth. */
  function DwellTrace(n: nat): seq<Event>
  {
    if n == 0 then []
    else DwellTrace(n - 1) + [Pause(TICK_MS)]
         + (if TouchesAt(n - 1) then [KeepAlive] else [])
  }

  /** The two stays and the secondary navigation between them. */
  function StayPhase(b: Browser, plan: SessionPlan): Phase
  {
    Phase(DwellTrace(plan.first), None)
      .Then(Step(OpenSecondary(b.secondaryLoads), b.secondaryLoads, SecondaryUnreachable))
      .Then(Phase(DwellTrace(plan.second), None))
  }

  lemma AppendAssoc(a: seq<Event>, b: seq<Event>, c: seq<Event>)
    ensures a + b + c == a + (b + c)
  {
  }

  lemma WrapAssoc(a: seq<Event>, body: seq<Event>, at: Instant)
    ensures a + [StartDriver(true)] + body + [QuitDriver] + [RecordRun(at)]
         == a + ([StartDriver(true)] + body + [QuitDriver, RecordRun(at)])
  {
  }

  /** The stays, written out: the second stay happens only when the secondary course loads. */
  lemma StayPhaseShape(b: Browser, plan: SessionPlan)
    ensures b.secondaryLoads ==>
      && StayPhase(b, plan).events == DwellTrace(plan.first) + [OpenSecondary(true)] + DwellTrace(plan.second)
      && StayPhase(b, plan).raised == None
    ensures !b.secondaryLoads ==>
      && StayPhase(b, plan).events == DwellTrace(plan.first) + [OpenSecondary(false)]
      && StayPhase(b, plan).raised == Some(SecondaryUnreachable)
  {
  }

  /** Everything after login: the primary course with retries, then the stays. */
  function CoursePhase(b: Browser, plan: SessionPlan): Phase
  {
    PrimaryPhase(b.primaryLoads, 1).Then(StayPhase(b, plan))
  }

  /** Everything between driver start and teardown. */
  function SessionBody(b: Browser, plan: SessionPlan): Phase
  {
    LoginPhase(b).Then(CoursePhase(b, plan))
  }

  /**
   * A whole run() ending at instant `at`. The driver is started before the
   * guarded block, so a failed start has no teardown.
   */
  function RunPhase(b: Browser, plan: SessionPlan, at: Instant): Phase
  {
    if !b.startsOk then Phase([StartDriver(false)], Some(DriverInit))
    else
      var body := SessionBody(b, plan);
      Phase([StartDriver(true)] + body.events + [QuitDriver, RecordRun(at)], body.raised)
  }

  /** The attempt numbers of the primary-course navigations in `events`, in order. */
  function Attempts(events: seq<Event>): seq<nat>
  {
    if events == [] then []
    else (if events[0].OpenPrimary? then [events[0].attempt] else []) + Attempts(events[1..])
  }

  /** Events that belong to the guarded block, not to driver start or teardown. */
  predicate IsSessionStep(e: Event)
  {
    !(e.StartDriver? || e.QuitDriver? || e.RecordRun?)
  }

  /** A dwell of n seconds is made of one-second pauses and keep-alive touches only. */
  lemma {:induction false} DwellSteps(n: nat)
    ensures forall e :: e in DwellTrace(n) ==> e == Pause(TICK_MS) || e == KeepAlive
  {
    if n > 0 {
      DwellSteps(n - 1);
    }
  }

  /** One iteration of the dwell loop adds one pause and, at a multiple of ten, one touch. */
  lemma DwellStep(n: nat)
    requires n > 0
    ensures Occurrences(DwellTrace(n), Pause(TICK_MS)) == Occurrences(DwellTrace(n - 1), Pause(TICK_MS)) + 1
    ensures Occurrences(DwellTrace(n), KeepAlive)
         == Occurrences(DwellTrace(n - 1), KeepAlive) + (if TouchesAt(n - 1) then 1 else 0)
  {
    var prev := DwellTrace(n - 1);
    var touch: seq<Event> := if TouchesAt(n - 1) then [KeepAlive] else [];
    assert DwellTrace(n) == prev + ([Pause(TICK_MS)] + touch);
    OccurrencesAppend(prev, [Pause(TICK_MS)] + touch, Pause(TICK_MS));
    OccurrencesAppend(prev, [Pause(TICK_MS)] + touch, KeepAlive);
    OccurrencesAppend([Pause(TICK_MS)], touch, Pause(TICK_MS));
    OccurrencesAppend([Pause(TICK_MS)], touch, KeepAlive);
    OccurrencesSingle(Pause(TICK_MS), Pause(TICK_MS));
    OccurrencesSingle(Pause(TICK_MS), KeepAlive);
    OccurrencesSingle(KeepAlive, Pause(TICK_MS));
    OccurrencesSingle(KeepAlive, KeepAlive);
  }

  /** A dwell of n seconds pauses one second n times. */
  lemma {:induction false} DwellPauses(n: nat)
    ensures Occurrences(DwellTrace(n), Pause(TICK_MS)) == n
  {
    if n == 0 {
      assert DwellTrace(n) == [];
    } else {
      DwellPauses(n - 1);
      DwellStep(n);
    }
  }

  /** The number k of keep-alive touches in a dwell of n seconds is the least k with n <= 10k. */
  lemma {:induction false} DwellTouches(n: nat)
    ensures var k := Occurrences(DwellTrace(n), KeepAlive); 10 * k - 9 <= n <= 10 * k
  {
    if n == 0 {
      assert DwellTrace(n) == [];
    } else {
      DwellTouches(n - 1);
      TouchStep(n);
    }
  }

  /** The bound on touches survives one more iteration of the dwell loop. */
  lemma TouchStep(n: nat)
    requires n > 0
    requires var k := Occurrences(DwellTrace(n - 1), KeepAlive); 10 * k - 9 <= n - 1 <= 10 * k
    ensures var k := Occurrences(DwellTrace(n), KeepAlive); 10 * k - 9 <= n <= 10 * k
  {
    DwellStep(n);
    TouchBound(n - 1, Occurrences(DwellTrace(n - 1), KeepAlive));
  }

  /** If k = ceil(i/10), then k plus the touch at iteration i is ceil((i+1)/10). */
  lemma TouchBound(i: nat, k: int)
    requires 10 * k - 9 <= i <= 10 * k
    ensures var k' := k + (if TouchesAt(i) then 1 else 0); 10 * k' - 9 <= i + 1 <= 10 * k'
  {
    var q, r := i / 10, i % 10;
    assert i == 10 * q + r && 0 <= r < 10;
    if r == 0 {
      assert q == k;
    }
  }


  /** ceil(n/10): how many of 0, 1, ..., n-1 are multiples of ten. */
  function KeepAliveCount(n: nat): nat
  {
    (n + 9) / 10
  }

  /** ceil(n/10) is the k with 10k - 9 <= n <= 10k. */
  lemma CeilTenth(n: nat, k: int)
    requires 10 * k - 9 <= n <= 10 * k
    ensures k == KeepAliveCount(n)
  {
  }

  /**
   * A dwell of n seconds is exactly n one-second pauses and ceil(n/10)
   * keep-alive touches (at i = 0, 10, 20, ...).
   */
  lemma DwellCounts(n: nat)
    ensures Occurrences(DwellTrace(n), Pause(TICK_MS)) == n
    ensures Occurrences(DwellTrace(n), KeepAlive) == KeepAliveCount(n)
  {
    DwellPauses(n);
    DwellTouches(n);
    CeilTenth(n, Occurrences(DwellTrace(n), KeepAlive));
  }

  /** Attempts of a failed attempt followed by the retry pause and the rest. */
  lemma AttemptsOfRetry(a: nat, rest: seq<Event>)
    ensures Attempts([OpenPrimary(a, false), Pause(RETRY_PAUSE_MS)] + rest) == [a] + Attempts(rest)
  {
    var s := [OpenPrimary(a, false), Pause(RETRY_PAUSE_MS)] + rest;
    assert s[1..][1..] == rest;
    assert Attempts(s[1..]) == Attempts(rest);
  }

  /**
   * Primary navigation from attempt `a` on: attempts a, a+1, ... in order,
   * every one but the last failed, success exactly when the last one loaded,
   * and failure only once all attempts up to MAX_RETRIES are used.
   */
  lemma {:induction false} RetryShape(loads: nat -> bool, a: nat)
    requires 1 <= a <= MAX_RETRIES
    ensures var p := PrimaryPhase(loads, a); var tries := Attempts(p.events);
      && 1 <= |tries| <= MAX_RETRIES - a + 1
      && (forall i :: 0 <= i < |tries| ==> tries[i] == a + i)
      && (forall i :: 0 <= i < |tries| - 1 ==> !loads(tries[i]))
      && (p.raised.None? <==> loads(a + |tries| - 1))
      && (p.raised.Some? ==> p.raised == Some(PrimaryExhausted) && |tries| == MAX_RETRIES - a + 1)
    decreases MAX_RETRIES - a
  {
    var p := PrimaryPhase(loads, a);
    if loads(a) {
      assert Attempts(p.events) == [a] + Attempts([]);
    } else if a < MAX_RETRIES {
      RetryShape(loads, a + 1);
      var rest := PrimaryPhase(loads, a + 1);
      AttemptsOfRetry(a, rest.events);
      var tries := Attempts(p.events);
      assert tries == [a] + Attempts(rest.events);
      assert p.raised == rest.raised;
      forall i | 0 <= i < |tries| - 1
        ensures !loads(tries[i])
      {
        if i > 0 {
          assert tries[i] == Attempts(rest.events)[i - 1];
        }
      }
    } else {
      assert Attempts(p.events) == [a] + Attempts([]);
    }
  }

  /** Besides the navigations, primary navigation only pauses. */
  lemma {:induction false} RetrySteps(loads: nat -> bool, a: nat)
    requires 1 <= a <= MAX_RETRIES
    ensures forall e :: e in PrimaryPhase(loads, a).events ==> e.OpenPrimary? || e == Pause(RETRY_PAUSE_MS)
    decreases MAX_RETRIES - a
  {
    if !loads(a) && a < MAX_RETRIES {
      RetrySteps(loads, a + 1);
    }
  }

  /** A failed attempt followed by its pause adds exactly one pause. */
  lemma RetryStepPauses(a: nat, rest: seq<Event>)
    ensures Occurrences([OpenPrimary(a, false), Pause(RETRY_PAUSE_MS)] + rest, Pause(RETRY_PAUSE_MS))
         == 1 + Occurrences(rest, Pause(RETRY_PAUSE_MS))
  {
    var pause := Pause(RETRY_PAUSE_MS);
    assert [OpenPrimary(a, false), pause] + rest == [OpenPrimary(a, false)] + ([pause] + rest);
    OccurrencesAppend([OpenPrimary(a, false)], [pause] + rest, pause);
    OccurrencesAppend([pause], rest, pause);
    OccurrencesSingle(OpenPrimary(a, false), pause);
    OccurrencesSingle(pause, pause);
  }

  /** Primary navigation pauses once between consecutive attempts, never after the last one. */
  lemma {:induction false} RetryPauses(loads: nat -> bool, a: nat)
    requires 1 <= a <= MAX_RETRIES
    ensures var p := PrimaryPhase(loads, a);
      Occurrences(p.events, Pause(RETRY_PAUSE_MS)) == |Attempts(p.events)| - 1
    decreases MAX_RETRIES - a
  {
    var p := PrimaryPhase(loads, a);
    var pause := Pause(RETRY_PAUSE_MS);
    if loads(a) || a == MAX_RETRIES {
      assert p.events == [OpenPrimary(a, loads(a))];
      assert Attempts(p.events) == [a] + Attempts([]);
      OccurrencesSingle(OpenPrimary(a, loads(a)), pause);
    } else {
      RetryPauses(loads, a + 1);
      var rest := PrimaryPhase(loads, a + 1);
      AttemptsOfRetry(a, rest.events);
      RetryStepPauses(a, rest.events);
    }
  }

  /**
   * The whole retry loop: attempts 1, 2, ... up to three, stopping at the
   * first that loads; it raises exactly when none of the three loads, and
   * pauses between failed attempts but not after the last.
   */
  lemma PrimaryRetryBound(loads: nat -> bool)
    ensures var p := PrimaryPhase(loads, 1); var n := |Attempts(p.events)|;
      && 1 <= n <= MAX_RETRIES
      && (forall i :: 0 <= i < n ==> Attempts(p.events)[i] == i + 1)
      && (forall k :: 1 <= k < n ==> !loads(k))
      && (p.raised.None? <==> loads(n))
      && (p.raised.None? <==> loads(1) || loads(2) || loads(3))
      && (p.raised.Some? ==> n == MAX_RETRIES && p.raised == Some(PrimaryExhausted))
      && Occurrences(p.events, Pause(RETRY_PAUSE_MS)) == n - 1
  {
    RetryShape(loads, 1);
    RetryPauses(loads, 1);
    var tries := Attempts(PrimaryPhase(loads, 1).events);
    forall k | 1 <= k < |tries|
      ensures !loads(k)
    {
      assert tries[k - 1] == k;
    }
  }

  /**
   * Submission with fallback, once the credentials are in: the click comes
   * first, the form submit is tried only when the click failed, and the
   * login raises at this point only when both failed.
   */
  lemma SubmitFallback(b: Browser)
    requires b.loginPageLoads && b.usernameReady && b.passwordReady
    ensures var events := LoginPhase(b).events;
      && |events| >= 5 && events[4] == ClickLogin(b.clickWorks)
      && (!b.clickWorks ==> |events| >= 6 && events[5] == SubmitForm(b.formSubmitWorks))
      && (SubmitForm(true) in events || SubmitForm(false) in events <==> !b.clickWorks)
      && (LoginPhase(b).raised == Some(SubmitFailed) <==> !b.clickWorks && !b.formSubmitWorks)
  {
  }

  /**
   * Login gets through exactly when the page loads, both fields are found,
   * one of the two submissions works, the current URL can be read and the
   * debug dump is written. A failed URL read aborts before the dump is
   * attempted; a failed dump is fatal on its own.
   */
  lemma LoginOutcome(b: Browser)
    ensures LoginPhase(b).raised.None?
        <==> b.loginPageLoads && b.usernameReady && b.passwordReady
             && (b.clickWorks || b.formSubmitWorks) && b.urlReadable && b.dumpWorks
    ensures LoginPhase(b).raised == Some(UrlUnreadable)
        <==> b.loginPageLoads && b.usernameReady && b.passwordReady
             && (b.clickWorks || b.formSubmitWorks) && !b.urlReadable
    ensures LoginPhase(b).raised == Some(DebugDumpFailed)
        <==> b.loginPageLoads && b.usernameReady && b.passwordReady
             && (b.clickWorks || b.formSubmitWorks) && b.urlReadable && !b.dumpWorks
    ensures !b.urlReadable ==> SaveDebugDump(true) !in LoginPhase(b).events && SaveDebugDump(false) !in LoginPhase(b).events
    ensures LoginPhase(b).raised.None? ==> LoginPhase(b).events[|LoginPhase(b).events| - 1] == SaveDebugDump(true)
  {
  }

  /**
   * Any login failure ends the session with that error before any course
   * page is requested, and teardown still runs.
   */
  lemma LoginFailureSkipsCourses(b: Browser, plan: SessionPlan, at: Instant)
    requires b.startsOk && LoginPhase(b).raised.Some?
    ensures RunPhase(b, plan, at).raised == LoginPhase(b).raised
    ensures forall e :: e in RunPhase(b, plan, at).events ==> !e.OpenPrimary? && !e.OpenSecondary?
    ensures QuitDriver in RunPhase(b, plan, at).events
  {
    assert SessionBody(b, plan) == LoginPhase(b);
  }

  /** Whether the page redirects after login never changes how the run ends. */
  lemma RedirectNeverFatal(b: Browser, plan: SessionPlan, at: Instant)
    ensures RunPhase(b, plan, at).raised == RunPhase(b.(redirects := true), plan, at).raised
    ensures RunPhase(b, plan, at).raised == RunPhase(b.(redirects := false), plan, at).raised
  {
  }

  /** Login neither starts nor tears down, and neither dwells nor touches the session. */
  lemma LoginSteps(b: Browser)
    ensures forall e :: e in LoginPhase(b).events ==> IsSessionStep(e) && e != Pause(TICK_MS) && e != KeepAlive
  {
  }

  /** The guarded block never starts, quits or records anything itself. */
  lemma BodyOnlySessionSteps(b: Browser, plan: SessionPlan)
    ensures forall e :: e in SessionBody(b, plan).events ==> IsSessionStep(e)
  {
    var stay := StayPhase(b, plan);
    assert forall e :: e in stay.events ==> IsSessionStep(e) by {
      DwellSteps(plan.first);
      DwellSteps(plan.second);
    }
    var course := CoursePhase(b, plan);
    assert forall e :: e in course.events ==> IsSessionStep(e) by {
      RetrySteps(b.primaryLoads, 1);
    }
    LoginSteps(b);
  }

  /** A guarded block that raised nothing went through every stage in order. */
  lemma CompletedBody(b: Browser, plan: SessionPlan)
    requires SessionBody(b, plan).raised.None?
    ensures b.secondaryLoads
    ensures SessionBody(b, plan).events
         == LoginPhase(b).events + PrimaryPhase(b.primaryLoads, 1).events
            + DwellTrace(plan.first) + [OpenSecondary(true)] + DwellTrace(plan.second)
  {
    var stay := StayPhase(b, plan);
    assert stay.raised.None?;
    assert stay.events == DwellTrace(plan.first) + [OpenSecondary(true)] + DwellTrace(plan.second);
  }

  /**
   * Teardown happens exactly when the driver started, and then exactly once,
   * as the last two events (quit, then record the run at `at`), whichever
   * stage raised; the error of the guarded block still propagates.
   */
  lemma TeardownExactlyOnce(b: Browser, plan: SessionPlan, at: Instant)
    ensures var r := RunPhase(b, plan, at);
      && (QuitDriver in r.events <==> b.startsOk)
      && (b.startsOk ==>
            && r.events[0] == StartDriver(true)
            && r.events[|r.events| - 2..] == [QuitDriver, RecordRun(at)]
            && Occurrences(r.events, QuitDriver) == 1
            && Occurrences(r.events, RecordRun(at)) == 1
            && (forall e :: e in r.events[..|r.events| - 2] ==> !e.QuitDriver? && !e.RecordRun?)
            && r.raised == SessionBody(b, plan).raised)
      && (!b.startsOk ==> r.events == [StartDriver(false)] && r.raised == Some(DriverInit))
  {
    if b.startsOk {
      BodyOnlySessionSteps(b, plan);
      WrappedShape(SessionBody(b, plan).events, at);
    }
  }

  /** Wrapping a block free of driver-lifecycle events in start and teardown puts one quit and one write at the end. */
  lemma WrappedShape(body: seq<Event>, at: Instant)
    requires forall e :: e in body ==> IsSessionStep(e)
    ensures var events := [StartDriver(true)] + body + [QuitDriver, RecordRun(at)];
      && events[0] == StartDriver(true)
      && events[|events| - 2..] == [QuitDriver, RecordRun(at)]
      && QuitDriver in events
      && Occurrences(events, QuitDriver) == 1
      && Occurrences(events, RecordRun(at)) == 1
      && (forall e :: e in events[..|events| - 2] ==> !e.QuitDriver? && !e.RecordRun?)
  {
    var events := [StartDriver(true)] + body + [QuitDriver, RecordRun(at)];
    assert events[..|events| - 2] == [StartDriver(true)] + body;
    assert QuitDriver !in body && RecordRun(at) !in body;
    OccurrencesIn(body, QuitDriver);
    OccurrencesIn(body, RecordRun(at));
    WrappedCounts(body, at, QuitDriver);
    WrappedCounts(body, at, RecordRun(at));
  }

  /**
   * A run that raised nothing dwelt exactly first + second one-second pauses,
   * with ceil(first/10) + ceil(second/10) keep-alive touches, and visited the
   * secondary course.
   */
  lemma CompletedRunCounts(b: Browser, plan: SessionPlan, at: Instant)
    requires RunPhase(b, plan, at).raised.None?
    ensures var events := RunPhase(b, plan, at).events;
      && Occurrences(events, Pause(TICK_MS)) == plan.first + plan.second
      && Occurrences(events, KeepAlive) == KeepAliveCount(plan.first) + KeepAliveCount(plan.second)
      && OpenSecondary(true) in events
  {
    var body := SessionBody(b, plan).events;
    assert RunPhase(b, plan, at).events == [StartDriver(true)] + body + [QuitDriver, RecordRun(at)];
    CompletedBodyCounts(b, plan);
    WrappedCounts(body, at, Pause(TICK_MS));
    WrappedCounts(body, at, KeepAlive);
  }

  /** Driver start and teardown add no pauses, touches or navigations. */
  lemma WrappedCounts(body: seq<Event>, at: Instant, e: Event)
    ensures Occurrences([StartDriver(true)] + body + [QuitDriver, RecordRun(at)], e)
         == Occurrences(body, e) + (if e == StartDriver(true) then 1 else 0)
            + (if e == QuitDriver then 1 else 0) + (if e == RecordRun(at) then 1 else 0)
  {
    assert [StartDriver(true)] + body + [QuitDriver, RecordRun(at)]
        == [StartDriver(true)] + body + [QuitDriver] + [RecordRun(at)];
    OccurrencesAppend([StartDriver(true)] + body + [QuitDriver], [RecordRun(at)], e);
    OccurrencesAppend([StartDriver(true)] + body, [QuitDriver], e);
    OccurrencesAppend([StartDriver(true)], body, e);
    OccurrencesSingle(StartDriver(true), e);
    OccurrencesSingle(QuitDriver, e);
    OccurrencesSingle(RecordRun(at), e);
  }

  /** The same counts for the guarded block alone. */
  lemma CompletedBodyCounts(b: Browser, plan: SessionPlan)
    requires SessionBody(b, plan).raised.None?
    ensures var events := SessionBody(b, plan).events;
      && Occurrences(events, Pause(TICK_MS)) == plan.first + plan.second
      && Occurrences(events, KeepAlive) == KeepAliveCount(plan.first) + KeepAliveCount(plan.second)
      && OpenSecondary(true) in events
  {
    var login := LoginPhase(b).events;
    var primary := PrimaryPhase(b.primaryLoads, 1).events;
    var events := SessionBody(b, plan).events;
    assert events == login + primary + DwellTrace(plan.first)
                     + [OpenSecondary(true)] + DwellTrace(plan.second) by {
      CompletedBody(b, plan);
    }
    assert Pause(TICK_MS) !in login && KeepAlive !in login by {
      LoginSteps(b);
    }
    assert Pause(TICK_MS) !in primary && KeepAlive !in primary by {
      RetrySteps(b.primaryLoads, 1);
    }
    CompletedTraceCounts(events, login, primary, plan.first, plan.second);
  }

  /** Counting pauses and touches in a completed run's trace, stage by stage. */
  lemma CompletedTraceCounts(events: seq<Event>, login: seq<Event>, primary: seq<Event>, n1: nat, n2: nat)
    requires events == login + primary + DwellTrace(n1) + [OpenSecondary(true)] + DwellTrace(n2)
    requires Pause(TICK_MS) !in login && KeepAlive !in login
    requires Pause(TICK_MS) !in primary && KeepAlive !in primary
    ensures Occurrences(events, Pause(TICK_MS)) == n1 + n2
    ensures Occurrences(events, KeepAlive) == KeepAliveCount(n1) + KeepAliveCount(n2)
  {
    DwellCounts(n1);
    DwellCounts(n2);
    OccurrencesIn(login, Pause(TICK_MS));
    OccurrencesIn(login, KeepAlive);
    OccurrencesIn(primary, Pause(TICK_MS));
    OccurrencesIn(primary, KeepAlive);
    OccurrencesSingle(OpenSecondary(true), Pause(TICK_MS));
    OccurrencesSingle(OpenSecondary(true), KeepAlive);
    var d1, d2 := DwellTrace(n1), DwellTrace(n2);
    forall e | e == Pause(TICK_MS) || e == KeepAlive
      ensures Occurrences(events, e)
           == Occurrences(login, e) + Occurrences(primary, e) + Occurrences(d1, e)
              + Occurrences([OpenSecondary(true)], e) + Occurrences(d2, e)
    {
      OccurrencesAppend(login + primary + d1 + [OpenSecondary(true)], d2, e);
      OccurrencesAppend(login + primary + d1, [OpenSecondary(true)], e);
      OccurrencesAppend(login + primary, d1, e);
      OccurrencesAppend(login, primary, e);
    }
  }

  /** One browser session, the ledger it records into, and what it has done so far. */
  class Session {
    const ledger: Ledger
    var driverOpen: bool
    var trace: seq<Event>

    constructor (ledger: Ledger)
      ensures this.ledger == ledger && !driverOpen && trace == []
    {
      this.ledger := ledger;
      driverOpen := false;
      trace := [];
    }

    /** run(): the protocol with its guaranteed teardown. */
    method Run(b: Browser, plan: SessionPlan, at: Instant) returns (raised: Option<Failure>)
      requires !driverOpen
      modifies this, ledger
      ensures !driverOpen
      ensures trace == old(trace) + RunPhase(b, plan, at).events
      ensures raised == RunPhase(b, plan, at).raised
      ensures ledger.record == if b.startsOk then Some(Stamp(at)) else old(ledger.record)
    {
      trace := trace + [StartDriver(b.startsOk)];
      if !b.startsOk {
        return Some(DriverInit);
      }
      driverOpen := true;
      raised := Body(b, plan);
      // teardown
      driverOpen := false;
      trace := trace + [QuitDriver];
      ledger.SaveRunTime(at);
      trace := trace + [RecordRun(at)];
      WrapAssoc(old(trace), SessionBody(b, plan).events, at);
    }

    /** The guarded block of run(): each stage runs only if the ones before it raised nothing. */
    method Body(b: Browser, plan: SessionPlan) returns (raised: Option<Failure>)
      requires driverOpen
      modifies this`trace
      ensures trace == old(trace) + SessionBody(b, plan).events
      ensures raised == SessionBody(b, plan).raised
    {
      ghost var start := trace;
      raised := Login(b);
      if raised.None? {
        raised := VisitCourses(b, plan);
        AppendAssoc(start, LoginPhase(b).events, CoursePhase(b, plan).events);
      }
    }

    /** The primary course with its retries, then the stays; the primary failing skips the rest. */
    method VisitCourses(b: Browser, plan: SessionPlan) returns (raised: Option<Failure>)
      modifies this`trace
      ensures trace == old(trace) + CoursePhase(b, plan).events
      ensures raised == CoursePhase(b, plan).raised
    {
      ghost var start := trace;
      raised := OpenPrimaryCourse(b.primaryLoads);
      if raised.None? {
        raised := StayOnCourses(b, plan);
        AppendAssoc(start, PrimaryPhase(b.primaryLoads, 1).events, StayPhase(b, plan).events);
      }
    }

    /** Dwell on the primary course, open the secondary one, dwell there. */
    method StayOnCourses(b: Browser, plan: SessionPlan) returns (raised: Option<Failure>)
      modifies this`trace
      ensures trace == old(trace) + StayPhase(b, plan).events
      ensures raised == StayPhase(b, plan).raised
    {
      StayPhaseShape(b, plan);
      ghost var start := trace;
      Dwell(plan.first);
      trace := trace + [OpenSecondary(b.secondaryLoads)];
      AppendAssoc(start, DwellTrace(plan.first), [OpenSecondary(b.secondaryLoads)]);
      if !b.secondaryLoads {
        return Some(SecondaryUnreachable);
      }
      Dwell(plan.second);
      AppendAssoc(start, DwellTrace(plan.first) + [OpenSecondary(true)], DwellTrace(plan.second));
      raised := None;
    }

    /** Sign in, then confirm; a failed sign-in skips the confirmation. */
    method Login(b: Browser) returns (raised: Option<Failure>)
      modifies this`trace
      ensures trace == old(trace) + LoginPhase(b).events
      ensures raised == LoginPhase(b).raised
    {
      ghost var start := trace;
      raised := SignIn(b);
      if raised.None? {
        raised := Confirm(b);
        AppendAssoc(start, SignInPhase(b).events, ConfirmPhase(b).events);
      }
    }

    /** Login page, credentials, then the click with the form-submit fallback. */
    method SignIn(b: Browser) returns (raised: Option<Failure>)
      modifies this`trace
      ensures trace == old(trace) + SignInPhase(b).events
      ensures raised == SignInPhase(b).raised
    {
      trace := trace + [LoadLogin(b.loginPageLoads)];
      if !b.loginPageLoads {
        return Some(LoginPageUnreachable);
      }
      trace := trace + [EnterUsername(b.usernameReady)];
      if !b.usernameReady {
        return Some(UsernameField);
      }
      trace := trace + [Pause(PASSWORD_PAUSE_MS), EnterPassword(b.passwordReady)];
      if !b.passwordReady {
        return Some(PasswordField);
      }
      trace := trace + [ClickLogin(b.clickWorks)];
      if !b.clickWorks {
        trace := trace + [SubmitForm(b.formSubmitWorks)];
        if !b.formSubmitWorks {
          return Some(SubmitFailed);
        }
      }
      raised := None;
    }

    /** The redirect wait, the URL read and the debug dump. */
    method Confirm(b: Browser) returns (raised: Option<Failure>)
      modifies this`trace
      ensures trace == old(trace) + ConfirmPhase(b).events
      ensures raised == ConfirmPhase(b).raised
    {
      // a redirect timeout is only logged
      trace := trace + [AwaitRedirect(b.redirects)];
      // the URL read after the wait is not guarded
      trace := trace + [ReadUrl(b.urlReadable)];
      if !b.urlReadable {
        return Some(UrlUnreadable);
      }
      trace := trace + [SaveDebugDump(b.dumpWorks)];
      if !b.dumpWorks {
        return Some(DebugDumpFailed);
      }
      raised := None;
    }

    /** The bounded retry loop over the primary course page. */
    method OpenPrimaryCourse(loads: nat -> bool) returns (raised: Option<Failure>)
      modifies this`trace
      ensures trace == old(trace) + PrimaryPhase(loads, 1).events
      ensures raised == PrimaryPhase(loads, 1).raised
    {
      var attempt := 1;
      while true
        invariant 1 <= attempt <= MAX_RETRIES
        invariant old(trace) + PrimaryPhase(loads, 1).events == trace + PrimaryPhase(loads, attempt).events
        invariant PrimaryPhase(loads, 1).raised == PrimaryPhase(loads, attempt).raised
        decreases MAX_RETRIES - attempt
      {
        if loads(attempt) {
          trace := trace + [OpenPrimary(attempt, true)];
          return None;
        }
        trace := trace + [OpenPrimary(attempt, false)];
        if attempt < MAX_RETRIES {
          trace := trace + [Pause(RETRY_PAUSE_MS)];
          attempt := attempt + 1;
        } else {
          return Some(PrimaryExhausted);
        }
      }
    }

    /** Stay on the current page for `n` seconds, touching the session every tenth second. */
    method Dwell(n: nat)
      modifies this`trace
      ensures trace == old(trace) + DwellTrace(n)
    {
      for i := 0 to n
        invariant trace == old(trace) + DwellTrace(i)
      {
        trace := trace + [Pause(TICK_MS)];
        if TouchesAt(i) {
          // the keep-alive's own errors are swallowed
          trace := trace + [KeepAlive];
        }
      }
    }
  }
}
