/** Remediation cooldowns (agent/cooldown.go): the time of the last remediation of each parameter. */
module Cooldown {
  import opened Common

  predicate Cooling(last: map<string, int>, param: string, now: int, cooldown: int) {
    param in last && now - last[param] < cooldown
  }

  class CooldownManager {
    var lastRemediated: map<string, int>

    constructor ()
      ensures lastRemediated == map[]
    {
      lastRemediated := map[];
    }

    method InCooldown(param: string, now: int, cooldown: int) returns (r: bool)
      ensures r <==> Cooling(lastRemediated, param, now, cooldown)
    {
      if param !in lastRemediated {
        return false;
      }
      var elapsed := now - lastRemediated[param];
      return elapsed < cooldown;
    }

    method Record(param: string, now: int)
      modifies this
      ensures lastRemediated == old(lastRemediated)[param := now]
    {
      lastRemediated := lastRemediated[param := now];
    }

    method LastRemediation(param: string) returns (r: Moment)
      ensures r == if param in lastRemediated then At(lastRemediated[param]) else Never
    {
      if param in lastRemediated {
        return At(lastRemediated[param]);
      }
      return Never;
    }

    method Clear()
      modifies this
      ensures lastRemediated == map[]
    {
      lastRemediated := map[];
    }
  }
}
