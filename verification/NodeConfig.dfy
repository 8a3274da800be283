/** The node's settings with what is missing filled in (cli/internal/sandbox/config.go).
    Durations are in nanoseconds. */
module NodeConfig {
  import opened Node

  const MINUTE := 60_000_000_000

  function Max(a: int, b: int): int {
    if a < b then b else a
  }

  class Config {
    var pauseAfter: int
    var stopAfter: int
    var removeAfter: int
    var forgetAfter: int
    var awakePerPerson: int
    var awakePerNode: int

    constructor (times: SleepConfig, limits: Limits)
      ensures Times() == times && Caps() == limits
    {
      pauseAfter, stopAfter := times.pauseAfter, times.stopAfter;
      removeAfter, forgetAfter := times.removeAfter, times.forgetAfter;
      awakePerPerson, awakePerNode := limits.awakePerPerson, limits.awakePerNode;
    }

    function Times(): SleepConfig
      reads this
    {
      SleepConfig(pauseAfter, stopAfter, removeAfter, forgetAfter)
    }

    function Caps(): Limits
      reads this
    {
      Limits(awakePerPerson, awakePerNode)
    }

    method DefaultCaps()
      modifies `awakePerPerson, `awakePerNode
      ensures awakePerPerson == if old(awakePerPerson) > 0 then old(awakePerPerson) else 2
      ensures awakePerNode == if old(awakePerNode) > 0 then old(awakePerNode) else 6
    {
      if awakePerPerson <= 0 {
        awakePerPerson := 2;
      }
      if awakePerNode <= 0 {
        awakePerNode := 6;
      }
    }

    method DefaultWaits()
      modifies `pauseAfter, `stopAfter
      ensures pauseAfter == if old(pauseAfter) > 0 then old(pauseAfter) else MINUTE
      ensures stopAfter == Max(pauseAfter, if old(stopAfter) > 0 then old(stopAfter) else 15 * MINUTE)
    {
      if pauseAfter <= 0 {
        pauseAfter := MINUTE;
      }
      if stopAfter <= 0 {
        stopAfter := 15 * MINUTE;
      }
      if stopAfter < pauseAfter {
        stopAfter := pauseAfter;
      }
    }

    method DefaultRemovals()
      modifies `removeAfter, `forgetAfter
      ensures removeAfter == if old(removeAfter) <= 0 then 0 else Max(stopAfter, old(removeAfter))
      ensures forgetAfter == if old(forgetAfter) <= 0 then 0 else Max(removeAfter, old(forgetAfter))
    {
      if removeAfter < 0 {
        removeAfter := 0;
      } else if removeAfter > 0 && removeAfter < stopAfter {
        removeAfter := stopAfter;
      }
      if forgetAfter < 0 {
        forgetAfter := 0;
      } else if forgetAfter > 0 && forgetAfter < removeAfter {
        forgetAfter := removeAfter;
      }
    }

    /** Leaves the thresholds in order whatever was given, keeps what was already in
        order, leaves what was off off, and never shortens what was set. */
    method Defaults()
      modifies this
      ensures OrderedThresholds(Times()) && awakePerPerson > 0 && awakePerNode > 0
      ensures OrderedThresholds(old(Times())) ==> Times() == old(Times())
      ensures Longer(old(Times()), Times())
      ensures old(awakePerPerson) > 0 ==> awakePerPerson == old(awakePerPerson)
      ensures old(awakePerNode) > 0 ==> awakePerNode == old(awakePerNode)
    {
      DefaultCaps();
      DefaultWaits();
      DefaultRemovals();
    }
  }

  /** No duration that was set is shorter, and the last two stay off when they were. */
  predicate Longer(given: SleepConfig, kept: SleepConfig) {
    && given.pauseAfter <= kept.pauseAfter && given.stopAfter <= kept.stopAfter
    && (if given.removeAfter <= 0 then kept.removeAfter == 0 else given.removeAfter <= kept.removeAfter)
    && (if given.forgetAfter <= 0 then kept.forgetAfter == 0 else given.forgetAfter <= kept.forgetAfter)
  }
}
