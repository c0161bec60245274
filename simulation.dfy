/**
 * The simulation knobs passed to the contention demos: a commit delay, the
 * update pattern and the lock mode of the status query.
 */
module Simulations {
  import opened Common

  /** A `java.time.Duration`, in nanoseconds. */
  datatype Duration = Duration(nanos: int)

  /** `Duration.toMillis`, which rounds towards negative infinity. */
  function ToMillis(d: Duration): int
  {
    d.nanos / 1_000_000
  }

  datatype Pattern = READ_MODIFY_WRITE | WRITE_ONLY

  /** `jakarta.persistence.LockModeType`. */
  datatype LockModeType =
    | READ | WRITE | OPTIMISTIC | OPTIMISTIC_FORCE_INCREMENT
    | PESSIMISTIC_READ | PESSIMISTIC_WRITE | PESSIMISTIC_FORCE_INCREMENT | NONE

  /** All fields of a simulation at one moment. */
  datatype Settings = Settings(commitDelay: Duration, pattern: Pattern, lockModeType: LockModeType)

  /** The field initialisers: no delay, read-modify-write, no lock. */
  const Defaults: Settings := Settings(Duration(0), READ_MODIFY_WRITE, NONE)

  class Simulation {
    var commitDelay: Duration
    var pattern: Pattern
    var lockModeType: LockModeType

    constructor ()
      ensures Current() == Defaults
    {
      commitDelay, pattern, lockModeType := Duration(0), READ_MODIFY_WRITE, NONE;
    }

    function Current(): Settings
      reads this
    {
      Settings(commitDelay, pattern, lockModeType)
    }

    method SetCommitDelay(d: Duration) returns (self: Simulation)
      modifies this
      ensures self == this
      ensures Current() == old(Current()).(commitDelay := d)
    {
      commitDelay := d;
      self := this;
    }

    method SetLockModeType(m: LockModeType) returns (self: Simulation)
      modifies this
      ensures self == this
      ensures Current() == old(Current()).(lockModeType := m)
    {
      lockModeType := m;
      self := this;
    }

    method SetPattern(p: Pattern) returns (self: Simulation)
      modifies this
      ensures self == this
      ensures Current() == old(Current()).(pattern := p)
    {
      pattern := p;
      self := this;
    }

    /**
     * `thinkTime`: sleeps, for the delay in whole milliseconds, only when the
     * delay is strictly positive; it changes no field. The sleep itself is not
     * modelled: the result is how long it would be, or None for no sleep.
     */
    method ThinkTime() returns (sleepMillis: Option<int>)
      ensures sleepMillis.Some? <==> commitDelay.nanos > 0
      ensures sleepMillis.Some? ==> sleepMillis.value == ToMillis(commitDelay) && sleepMillis.value >= 0
    {
      if commitDelay.nanos > 0 {
        sleepMillis := Some(ToMillis(commitDelay));
      } else {
        sleepMillis := None;
      }
    }
  }

  /** `Simulation.none()`. */
  method NoSimulation() returns (s: Simulation)
    ensures fresh(s) && s.Current() == Defaults
  {
    s := new Simulation();
  }

  /** `Simulation.readModifyWrite()`: the same settings as `none()`. */
  method ReadModifyWrite() returns (s: Simulation)
    ensures fresh(s) && s.Current() == Defaults
  {
    s := new Simulation();
    s := s.SetPattern(READ_MODIFY_WRITE);
  }

  /** `Simulation.writeOnly()`: differs from `none()` in the pattern alone. */
  method WriteOnly() returns (s: Simulation)
    ensures fresh(s) && s.Current() == Defaults.(pattern := WRITE_ONLY)
  {
    s := new Simulation();
    s := s.SetPattern(WRITE_ONLY);
  }
}
