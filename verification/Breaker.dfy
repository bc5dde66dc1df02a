/** The breaker in front of Redis. */
module Breaker {
  import opened Text

  datatype Report = Failure | Success | FailedProbe

  /** Failures reported since the last success; a failed probe is not counted. */
  function Streak(log: seq<Report>): nat {
    if log == [] then 0
    else
      match log[|log| - 1]
      case Failure => Streak(log[..|log| - 1]) + 1
      case Success => 0
      case FailedProbe => Streak(log[..|log| - 1])
  }

  lemma StreakStep(log: seq<Report>, r: Report)
    ensures Streak(log + [r]) == match r { case Failure => Streak(log) + 1 case Success => 0 case FailedProbe => Streak(log) }
  {
    assert (log + [r])[..|log|] == log;
  }

  /**
   The recovery timeout is checked, but `probeOk` is never set to true, so the breaker is
   open exactly while the streak has reached the threshold: time alone never half-opens it.
   */
  class DependencyBreaker {
    const threshold: int
    const recovery: int
    var failures: int
    var openSince: int
    var probeOk: Option<bool>
    ghost var log: seq<Report>

    ghost predicate Valid()
      reads this
    {
      failures == Streak(log) && probeOk != Some(true)
    }

    constructor (threshold: int, recovery: int)
      ensures Valid() && log == [] && this.threshold == threshold && this.recovery == recovery
    {
      this.threshold, this.recovery := threshold, recovery;
      failures, openSince, probeOk, log := 0, 0, None, [];
    }

    method IsOpen(now: int) returns (open: bool)
      requires Valid()
      ensures open <==> Streak(log) >= threshold
    {
      if failures < threshold { return false; }
      if now - openSince < recovery { return true; }
      return probeOk != Some(true);
    }

    method RecordFailure(now: int)
      requires Valid()
      modifies this
      ensures Valid() && log == old(log) + [Failure]
      ensures openSince == if Streak(log) >= threshold > Streak(old(log)) then now else old(openSince)
    {
      StreakStep(log, Failure);
      var wasOpen := IsOpen(now);
      failures := failures + 1;
      probeOk := None;
      log := log + [Failure];
      if failures >= threshold && !wasOpen { openSince := now; }
    }

    method RecordSuccess()
      requires Valid()
      modifies this
      ensures Valid() && log == old(log) + [Success] && openSince == 0
    {
      StreakStep(log, Success);
      failures, probeOk, openSince := 0, None, 0;
      log := log + [Success];
    }

    method Probe(now: int, ping: bool) returns (ok: bool)
      requires Valid()
      modifies this
      ensures Valid() && ok == ping && log == old(log) + [if ping then Success else FailedProbe]
      ensures openSince == if ping then 0 else now
    {
      if ping {
        RecordSuccess();
        return true;
      }
      StreakStep(log, FailedProbe);
      probeOk, openSince := Some(false), now;
      log := log + [FailedProbe];
      return false;
    }
  }
}
