/**
 * The run ledger: the one persisted "last run" timestamp (the file
 * last_run.txt) and the cooldown gate that reads it.
 *
 * Instants are integer microseconds, the resolution of the timestamps the
 * program writes; the file's contents are abstracted to either a readable
 * timestamp or something that cannot be read back as one.
 */
module RunLedger {
  import opened Wrappers

  /** An instant, in microseconds. */
  type Instant = int

  const MICROS_PER_DAY: int := 24 * 60 * 60 * 1_000_000

  /** The cooldown the code enforces: five days (the comment above it says ten). */
  const COOLDOWN_DAYS: int := 5
  const COOLDOWN: int := COOLDOWN_DAYS * MICROS_PER_DAY

  /** What the ledger file holds once it exists. */
  datatype Entry =
    | Stamp(at: Instant)   // a timestamp that parses
    | Garbled              // contents that cannot be read back as a timestamp

  datatype LedgerError = Unreadable

  /** The eligibility comparison: inclusive at exactly the cooldown. */
  predicate CooldownElapsed(last: Instant, now: Instant)
  {
    now - last >= COOLDOWN
  }

  /** What the gate answers for a ledger in state `record` at instant `now`. */
  function Eligibility(record: Option<Entry>, now: Instant): Result<bool, LedgerError>
  {
    match record
    case None => Ok(true)
    case Some(Stamp(last)) => Ok(CooldownElapsed(last, now))
    case Some(Garbled) => Err(Unreadable)
  }

  /** The ledger after the gate has looked at it: a missing record is created. */
  function AfterCheck(record: Option<Entry>, now: Instant): Option<Entry>
  {
    if record.None? then Some(Stamp(now)) else record
  }

  /** The persisted ledger file. `record` is None while the file does not exist. */
  class Ledger {
    var record: Option<Entry>

    constructor (record: Option<Entry>)
      ensures this.record == record
    {
      this.record := record;
    }

    /** The cooldown gate. The first check ever creates the record and lets the run go ahead. */
    method CanRun(now: Instant) returns (r: Result<bool, LedgerError>)
      modifies this
      ensures r == Eligibility(old(record), now)
      ensures record == AfterCheck(old(record), now)
      ensures old(record).None? ==> r == Ok(true) && record == Some(Stamp(now))
      ensures old(record).Some? ==> record == old(record)
    {
      if record.None? {
        SaveRunTime(now);
        return Ok(true);
      }
      match record.value
      case Stamp(last) =>
        r := Ok(now - last >= COOLDOWN);
      case Garbled =>
        r := Err(Unreadable);
    }

    /** Overwrites the record with `now`; whatever was there before is gone. */
    method SaveRunTime(now: Instant)
      modifies this
      ensures record == Some(Stamp(now))
    {
      record := Some(Stamp(now));
    }
  }

  /** With no record the gate always opens; with a readable one it opens exactly when the cooldown has elapsed. */
  lemma EligibleIff(record: Option<Entry>, now: Instant)
    ensures Eligibility(record, now) == Ok(true)
        <==> record.None? || (record.value.Stamp? && now - record.value.at >= COOLDOWN)
    ensures Eligibility(record, now).Err? <==> record == Some(Garbled)
  {
  }

  /** The comparison is inclusive: exactly five days after the last run is allowed, a microsecond earlier is not. */
  lemma CooldownBoundary(last: Instant)
    ensures CooldownElapsed(last, last + COOLDOWN)
    ensures !CooldownElapsed(last, last + COOLDOWN - 1)
    ensures COOLDOWN == 432_000_000_000
  {
  }

  /** Once eligible, a later check stays eligible as long as nobody writes the ledger. */
  lemma EligibilityMonotone(record: Option<Entry>, now: Instant, later: Instant)
    requires now <= later
    requires Eligibility(record, now) == Ok(true)
    ensures Eligibility(record, later) == Ok(true)
  {
  }
}
