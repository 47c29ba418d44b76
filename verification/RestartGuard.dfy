// The traffic guard of a user-requested restart: a kernel rule set with a lease
// plus the status the manager keeps about it.

module RestartGuards {
  import opened Types

  class RestartGuard {
    var enabled: bool     // the setting
    var installed: bool   // the blocking rules are present in the kernel
    var active: bool      // status: a guard belongs to the current transaction
    var lastError: bool   // status: the last removal could not be verified

    // No guard is left behind unnoticed: the monitor retries while an error is
    // recorded, so a guard that is still installed must have one.
    ghost predicate Accounted()
      reads this
    {
      installed ==> lastError
    }

    // What a previous manager left behind is unknown.
    constructor ()
    {
      enabled, installed, active, lastError := *, *, false, false;
    }

    method Enabled(world: World) returns (ok: bool, on: bool)
      ensures ok ==> on == enabled
      ensures world.Fixes(Prepare, ok)
    {
      ok := Attempt(world, Prepare);
      on := enabled;
    }

    // With the setting on, nothing goes on without a guard.
    method Begin(world: World) returns (ok: bool, begun: bool)
      modifies this`installed, this`active, this`lastError
      ensures ok ==> (begun <==> enabled)
      ensures begun ==> installed
      ensures world.Exactly? && Prepare in world.failing ==> !ok
      ensures world.Exactly? && world.failing !! {Prepare, RaiseGuard} ==> ok
      ensures begun ==> ok && active && !lastError
      ensures !begun && old(Accounted()) ==> Accounted()
      ensures !begun && ok ==> installed == old(installed) && active == old(active) && lastError == old(lastError)
    {
      var settings := Attempt(world, Prepare);
      if !settings || !enabled {
        return settings, false;
      }
      var valid := Attempt(world, RaiseGuard);
      if !valid {
        return false, false;
      }
      // Health check, removal of an older guard and installation share one
      // transaction, which may stop anywhere in between.
      var applied := Attempt(world, RaiseGuard);
      var checked: bool := *;
      if applied {
        installed := true;
        active, lastError := true, false;
        return true, true;
      }
      if checked { installed := *; }
      var removed := Remove(world);
      return false, false;
    }

    method Verify(world: World) returns (ok: bool)
      ensures world.Fixes(CheckGuard, ok)
    {
      ok := Attempt(world, CheckGuard);
    }

    // Whatever happens, an installed guard ends up with a recorded error.
    method Remove(world: World) returns (ok: bool)
      modifies this`installed, this`active, this`lastError
      ensures ok ==> !installed && !active && !lastError
      ensures !ok ==> lastError && active == old(active)
      ensures Accounted()
      ensures world.Fixes(DropGuard, ok)
    {
      ok := Attempt(world, DropGuard);
      if ok {
        installed, active, lastError := false, false, false;
      } else {
        installed := *;
        lastError := true;
      }
    }

    // The kernel drops the rules by itself when the lease ends.
    method LeaseEnds()
      modifies this`installed
      ensures !installed
    {
      installed := false;
    }
  }
}
