// The OpenWrt side: dnsmasq and its backup, the owned nftables and policy state,
// and the persisted generation that hotplug processes read. Each effect on the
// router or the state directory is one step and the manager may die before any
// of them; what the router and the disk hold then stays as it was.

module Dataplane {
  import opened Types

  // The dnsmasq options boxctl may change: someone's own values, or queries sent
  // to the core's listener.
  datatype DNS = Options(values: string) | Upstream(port: nat)

  datatype Plan = Plan(capture: CapturePlan, interfaces: nat, upstreamDNS: bool)

  // The last activated generation, as stored for other processes.
  datatype Active = Active(engine: Engine, capture: CapturePlan, plan: Plan)

  class Activation {
    var dnsmasq: DNS             // the dnsmasq options boxctl may change
    var nft: Option<Plan>        // owned tables, rules and routes
    var backup: Option<DNS>      // DNS backup file
    var saved: Option<Active>    // active-gateway state file
    var lastPlan: Option<Plan>   // memory of this process
    var gatewayMode: bool        // operating-mode setting
    var crashed: bool
    var world: World
    ghost var original: DNS      // dnsmasq as it was before boxctl

    // A determined world in which the manager is alive.
    ghost predicate Steady()
      reads this
    {
      world.Exactly? && !crashed
    }

    // The original DNS settings are never lost: either dnsmasq still has them
    // or the backup file holds exactly them.
    ghost predicate Conserved()
      reads this
    {
      if backup.Some? then backup.value == original else dnsmasq == original
    }

    // What no operation changes; and the dead stay dead.
    twostate predicate Kept()
      reads this
    {
      && original == old(original) && gatewayMode == old(gatewayMode) && world == old(world)
      && (old(crashed) ==> crashed) && (world.Exactly? ==> crashed == old(crashed))
    }

    // Neither the router nor what is stored about it changed.
    twostate predicate Untouched()
      reads this
    {
      && dnsmasq == old(dnsmasq) && nft == old(nft) && backup == old(backup) && saved == old(saved)
      && lastPlan == old(lastPlan)
    }

    constructor (dnsmasq: DNS, gatewayMode: bool, world: World)
      ensures Conserved() && !crashed && backup.None? && saved.None? && nft.None? && lastPlan.None?
      ensures this.dnsmasq == dnsmasq && this.gatewayMode == gatewayMode && this.world == world
    {
      this.dnsmasq, original, this.gatewayMode, crashed, this.world := dnsmasq, dnsmasq, gatewayMode, false, world;
      nft, backup, saved, lastPlan := None, None, None, None;
    }

    // -------------------------------------------------- single effects

    // Whether the next effect happens, and then whether it succeeds.
    method Try(e: Effect) returns (ok: bool)
      modifies this`crashed
      ensures old(crashed) ==> crashed
      ensures ok ==> !crashed
      ensures old(Steady()) ==> !crashed && world.Fixes(e, ok)
    {
      var dies := Dies(world);
      crashed := crashed || dies;
      ok := Attempt(world, e);
      ok := ok && !crashed;
    }

    method GatewayApply(plan: Plan) returns (ok: bool)
      modifies this`crashed, this`nft
      ensures ok ==> nft == Some(plan) && !crashed
      ensures old(crashed) ==> crashed && nft == old(nft)
      ensures old(Steady()) ==> !crashed && world.Fixes(ApplyRules, ok) && (!ok ==> nft == old(nft))
    {
      ok := Try(ApplyRules);
      if crashed { return; }
      if ok { nft := Some(plan); } else if world.Any? { nft := *; }
    }

    method GatewayCleanup(plan: Plan) returns (ok: bool)
      modifies this`crashed, this`nft
      ensures ok ==> nft.None? && !crashed
      ensures old(crashed) ==> crashed && nft == old(nft)
      ensures old(Steady()) ==> !crashed && world.Fixes(RemoveRules, ok) && (!ok ==> nft == old(nft))
    {
      ok := Try(RemoveRules);
      if crashed { return; }
      if ok { nft := None; } else if world.Any? { nft := *; }
    }

    // A failed UCI batch or dnsmasq restart may leave any mixture behind.
    method SetDNS(value: DNS, e: Effect) returns (ok: bool)
      modifies this`crashed, this`dnsmasq
      ensures ok ==> dnsmasq == value && !crashed
      ensures old(crashed) ==> crashed && dnsmasq == old(dnsmasq)
      ensures old(Steady()) ==> !crashed && world.Fixes(e, ok)
    {
      ok := Try(e);
      if crashed { return; }
      if ok { dnsmasq := value; } else if world.Any? { dnsmasq := *; }
    }

    method WriteBackup(value: Option<DNS>) returns (ok: bool)
      modifies this`crashed, this`backup
      ensures backup == if ok then value else old(backup)
      ensures ok ==> !crashed
      ensures old(crashed) ==> crashed
      ensures old(Steady()) ==> !crashed && world.Fixes(WriteFile, ok)
    {
      ok := Try(WriteFile);
      if ok { backup := value; }
    }

    method WriteSaved(value: Option<Active>) returns (ok: bool)
      modifies this`crashed, this`saved
      ensures saved == if ok then value else old(saved)
      ensures ok ==> !crashed
      ensures old(crashed) ==> crashed
      ensures old(Steady()) ==> !crashed && world.Fixes(WriteFile, ok)
    {
      ok := Try(WriteFile);
      if ok { saved := value; }
    }

    // -------------------------------------------------------- planning

    function UpstreamDNS(plan: Plan): DNS { Upstream(plan.capture.listener) }

    // A fresh plan for a generation; discovery or validation may fail.
    method BuildPlan(g: Generation) returns (plan: Option<Plan>)
      ensures plan.Some? ==> plan.value.capture == g.capture
      ensures world.Fixes(Prepare, plan.Some?)
    {
      var interfaces: nat, upstream: bool := *, *;
      var found := Attempt(world, Prepare);
      plan := if found then Some(Plan(g.capture, interfaces, upstream)) else None;
    }

    method RefreshInterfaces(plan: Plan) returns (next: Option<Plan>)
      ensures next.Some? ==> next.value == plan.(interfaces := next.value.interfaces)
      ensures world.Fixes(Prepare, next.Some?)
    {
      var interfaces: nat := *;
      var found := Attempt(world, Prepare);
      next := if found then Some(plan.(interfaces := interfaces)) else None;
    }

    // Cleanup prefers what was really applied over anything recomputed.
    method PlanForCleanup(g: Option<Generation>) returns (plan: Option<Plan>)
      ensures lastPlan.Some? ==> plan == lastPlan
      ensures lastPlan.None? && saved.Some? ==> plan == Some(saved.value.plan)
      ensures world.Exactly? && Prepare !in world.failing && g.Some? ==> plan.Some?
    {
      if lastPlan.Some? { return lastPlan; }
      if saved.Some? { return Some(saved.value.plan); }
      if g.Some? {
        plan := BuildPlan(g.value);
        if plan.Some? { return; }
      }
      plan := *;
    }

    predicate HasOwnership()
      reads this
    {
      lastPlan.Some? || saved.Some? || backup.Some?
    }

    // ------------------------------------------------------- operations

    // The first backup is taken while dnsmasq is untouched and then reused
    // until a restore succeeds.
    method EnsureDNSBackup() returns (b: Option<DNS>)
      requires Conserved()
      modifies this`crashed, this`backup
      ensures Conserved() && (old(crashed) ==> crashed)
      ensures b.Some? ==> b == backup && b == Some(original)
      ensures old(backup).Some? ==> backup == old(backup)
      ensures old(Steady()) ==> !crashed
      ensures old(Steady()) && world.failing !! {Prepare, WriteFile} ==> !crashed && b.Some?
    {
      if backup.Some? { return backup; }
      var readable := Attempt(world, Prepare);
      if !readable { return None; }
      var written := WriteBackup(Some(dnsmasq));
      b := if written then backup else None;
    }

    method ApplyDNS(plan: Plan, b: DNS) returns (ok: bool)
      requires Conserved() && backup == Some(b)
      modifies this`crashed, this`dnsmasq
      ensures Conserved() && (old(crashed) ==> crashed)
      ensures ok ==> dnsmasq == (if plan.upstreamDNS then UpstreamDNS(plan) else b) && !crashed
      ensures old(Steady()) ==> !crashed && world.Fixes(ApplyResolver, ok)
    {
      ok := SetDNS(if plan.upstreamDNS then UpstreamDNS(plan) else b, ApplyResolver);
    }

    method RestoreDNS() returns (ok: bool)
      requires Conserved()
      modifies this`crashed, this`dnsmasq, this`backup
      ensures Conserved() && (old(crashed) ==> crashed)
      ensures ok ==> dnsmasq == original && backup.None?
      ensures ok && old(backup).Some? ==> !crashed
      ensures old(Steady()) ==> !crashed
      ensures old(Steady()) && world.failing !! {RestoreResolver, WriteFile} ==> ok
    {
      if backup.None? { return true; }
      ok := SetDNS(backup.value, RestoreResolver);
      if ok { ok := WriteBackup(None); }
    }

    // `released` is whether the transaction lock could be released afterwards;
    // a failure there turns a finished operation into a reported error.
    method Activate(g: Generation) returns (ok: bool, ghost released: bool)
      requires Conserved()
      modifies this
      ensures Conserved() && Kept()
      ensures ok && gatewayMode ==>
                && released && nft == lastPlan && saved.Some? && saved.value.engine == g.engine
                && saved.value.capture == g.capture && lastPlan == Some(saved.value.plan)
                && saved.value.plan.capture == g.capture
      ensures ok && gatewayMode ==>
                dnsmasq == if saved.value.plan.upstreamDNS then Upstream(g.capture.listener) else original
      ensures ok && gatewayMode ==> backup == Some(original)
      ensures ok && !gatewayMode ==>
                lastPlan.None? && saved == old(saved) && nft == old(nft) && dnsmasq == old(dnsmasq)
      ensures saved in {old(saved)} || (saved.Some? && saved.value.capture == g.capture)
      ensures old(Steady()) && world.failing == {} ==> ok && !crashed
      ensures old(Steady()) && !gatewayMode && Prepare !in world.failing ==> ok
      ensures old(Steady()) && gatewayMode && TakeLock in world.failing ==> !ok && Untouched()
      // An error may come after the fact.
      ensures old(Steady()) && gatewayMode && world.failing == {ReleaseLock} ==>
                !ok && !released && nft.Some? && nft == lastPlan && saved.Some? && saved.value.capture == g.capture
      // Only pointing dnsmasq at the core fails: rules and backup stay.
      ensures old(Steady()) && gatewayMode && world.failing == {ApplyResolver} ==>
                !ok && !crashed && nft.Some? && backup.Some? && lastPlan == old(lastPlan) && saved == old(saved)
    {
      released, ok := true, false;
      var readable := Attempt(world, Prepare);
      if !readable { return; }
      if !gatewayMode {
        lastPlan := None;
        return true, true;
      }
      var entered := Attempt(world, TakeLock);
      if !entered { return; }
      var plan := BuildPlan(g);
      if plan.None? { return; }
      var b := EnsureDNSBackup();
      if b.None? { return; }
      ok := GatewayApply(plan.value);
      if !ok { return; }
      ok := ApplyDNS(plan.value, b.value);
      if !ok { return; }
      lastPlan := plan;
      ok := WriteSaved(Some(Active(g.engine, g.capture, plan.value)));
      var freed := Attempt(world, ReleaseLock);
      ok, released := ok && freed, freed;
    }

    // Best effort on both owners. `skipped` is the server-mode shortcut, taken
    // when this process has no record of owning anything.
    method Deactivate(g: Option<Generation>) returns (ok: bool, ghost skipped: bool)
      requires Conserved()
      modifies this
      ensures Conserved() && Kept()
      ensures ok ==> dnsmasq == original && backup.None? && lastPlan.None? && saved.None?
      ensures skipped ==> ok && !gatewayMode && !old(HasOwnership()) && nft == old(nft)
      ensures ok ==> (nft.None? <==> !skipped || old(nft).None?)
      ensures old(Steady()) && Prepare !in world.failing && !gatewayMode && !old(HasOwnership()) ==> skipped
      // Only removing the rules fails: DNS is restored, the rules stay.
      ensures old(Steady()) && gatewayMode && g.Some? && world.failing == {RemoveRules} ==>
                && !ok && !crashed && backup.None? && nft == old(nft)
                && lastPlan == old(lastPlan) && saved == old(saved)
      ensures old(Steady()) && world.failing == {} && g.Some? ==> ok && !crashed
      ensures old(Steady()) && gatewayMode && TakeLock in world.failing ==> !ok && Untouched()
      ensures old(Steady()) && gatewayMode && g.Some? && world.failing == {ReleaseLock} ==>
                !ok && dnsmasq == original && backup.None? && nft.None? && saved.None?
    {
      ok, skipped := false, false;
      var readable := Attempt(world, Prepare);
      if readable && !gatewayMode && !HasOwnership() {
        lastPlan := None;
        return true, true;
      }
      var entered := Attempt(world, TakeLock);
      if !entered { return; }
      var plan := PlanForCleanup(g);
      var restored := RestoreDNS();
      ok := false;
      if plan.Some? {
        ok := GatewayCleanup(plan.value);
      }
      ok := ok && restored;
      if ok { ok := WriteSaved(None); }
      if ok { lastPlan := None; }
      var freed := Attempt(world, ReleaseLock);
      ok := ok && freed;
    }

    method RollbackLocked(plan: Plan) returns (ok: bool)
      requires Conserved() && backup.Some?
      modifies this
      ensures Conserved() && Kept()
      ensures ok ==> dnsmasq == original && backup.None? && nft.None? && saved.None? && lastPlan.None?
      ensures saved in {old(saved), None}
      ensures old(Steady()) ==>
                !crashed && (world.failing !! {RestoreResolver, RemoveRules, WriteFile} ==> ok)
    {
      var restored := RestoreDNS();
      ok := GatewayCleanup(plan);
      ok := ok && restored;
      if ok { ok := WriteSaved(None); }
      if ok { lastPlan := None; }
    }

    // A hotplug event: reapply the stored generation, or fail open.
    method Reconcile() returns (ok: bool)
      requires Conserved()
      modifies this
      ensures Conserved() && Kept()
      ensures ok ==> saved == old(saved) && saved.Some? && nft == lastPlan && lastPlan.Some?
                     && lastPlan.value == saved.value.plan.(interfaces := lastPlan.value.interfaces)
                     && backup == Some(original)
      ensures ok ==>
                dnsmasq
                == if saved.value.plan.upstreamDNS then Upstream(saved.value.plan.capture.listener) else original
      ensures saved in {old(saved), None}
      // Done when nothing fails, and undone when rules or resolver cannot be set.
      ensures old(Steady()) && old(saved).Some? && world.failing == {} ==> ok && !crashed
      ensures old(Steady()) && old(saved).Some? && world.failing in {{ApplyRules}, {ApplyResolver}} ==>
                !ok && !crashed && dnsmasq == original && backup.None? && nft.None? && saved.None?
      ensures old(Steady()) && TakeLock in world.failing ==> !ok && Untouched()
      ensures old(Steady()) && old(saved).Some? && world.failing == {ReleaseLock} ==>
                !ok && saved == old(saved) && nft.Some? && nft == lastPlan && backup == Some(original)
      ensures old(saved).None? ==> nft == old(nft) && dnsmasq == old(dnsmasq) && backup == old(backup)
    {
      ok := false;
      var entered := Attempt(world, TakeLock);
      if !entered || saved.None? { return; }
      var plan := RefreshInterfaces(saved.value.plan);
      if plan.None? { return; }
      var b := EnsureDNSBackup();
      if b.None? { return; }
      ok := GatewayApply(plan.value);
      if !ok {
        var undone := RollbackLocked(plan.value);
        return;
      }
      ok := ApplyDNS(plan.value, b.value);
      if !ok {
        var undone := RollbackLocked(plan.value);
        return;
      }
      lastPlan := plan;
      ok := Attempt(world, ReleaseLock);
    }

    // Replaces the two address sets of the live generation. Nothing else about
    // it changes, and a state file that cannot be written puts the old plan
    // back.
    method RefreshDynamicCapture(destinations: seq<nat>, endpoints: seq<nat>)
      returns (ok: bool, refreshed: CapturePlan, step: RefreshStep)
      requires Conserved()
      modifies this
      ensures Conserved() && Kept() && backup == old(backup) && dnsmasq == old(dnsmasq)
      ensures ok <==> step.Done?
      ensures old(saved).None? ==> step.Unchanged? && nft == old(nft)
      ensures step.Unchanged? ==> saved == old(saved)
      ensures old(saved).Some? ==>
                && saved.Some? && saved.value.engine == old(saved).value.engine
                && saved.value.capture == PersistedAfter(old(saved).value.capture, destinations, endpoints, step)
      ensures ok ==> refreshed == saved.value.capture && nft == lastPlan && lastPlan == Some(saved.value.plan)
      ensures old(Steady()) && old(saved).Some? && world.failing == {ReleaseLock} ==> step.Unreleased?
      ensures old(Steady()) && old(saved).Some? && world.failing == {} ==> step.Done? && !crashed
      ensures old(Steady()) && (TakeLock in world.failing || Prepare in world.failing) ==> Untouched()
      // A state file that cannot be written puts the old plan back.
      ensures old(Steady()) && old(saved).Some? && world.failing == {WriteFile} ==>
                step.Unchanged? && !crashed && nft == Some(saved.value.plan) && lastPlan == old(lastPlan)
    {
      ok, step := false, Unchanged;
      refreshed := CapturePlan(0, false, [], []);
      var entered := Attempt(world, TakeLock);
      var valid := Attempt(world, Prepare);
      if !entered || saved.None? || !valid { return; }
      var active := saved.value;
      var candidate := active.capture.(destinations := destinations, endpoints := endpoints);
      var plan := RefreshInterfaces(active.plan.(capture := candidate));
      if plan.None? { return; }
      ok := GatewayApply(plan.value);
      if !ok { return; }
      ok := WriteSaved(Some(active.(capture := candidate, plan := plan.value)));
      if !ok {
        var undone := GatewayApply(active.plan);
        return;
      }
      lastPlan := plan;
      refreshed := candidate;
      ok := Attempt(world, ReleaseLock);
      step := if ok then Done else Unreleased;
    }

    // ------------------------------------------------------ environment

    method Reboot()
      modifies this`lastPlan, this`crashed
      ensures lastPlan.None? && !crashed
    {
      lastPlan, crashed := None, false;
    }

    // An administrator edits dnsmasq while boxctl keeps no backup of it.
    method EditDNS(value: DNS)
      requires Conserved() && backup.None?
      modifies this`dnsmasq, this`original
      ensures Conserved() && dnsmasq == value
    {
      dnsmasq, original := value, value;
    }

    // Any interleaving of operations, failures, crashes, restarts, edits and
    // mode changes keeps the original DNS settings.
    method Run(steps: nat)
      requires Conserved()
      modifies this
      ensures Conserved()
    {
      for step := 0 to steps
        invariant Conserved()
      {
        var op: nat, g: Generation, d: seq<nat>, e: seq<nat>, value: DNS, mode: bool := *, *, *, *, *, *;
        var ok: bool, refreshed: CapturePlan;
        ghost var released;
        var how: RefreshStep;
        match op
        case 0 => ok, released := Activate(g);
        case 1 => ok, released := Deactivate(Some(g));
        case 2 => ok := Reconcile();
        case 3 => ok, refreshed, how := RefreshDynamicCapture(d, e);
        case 4 => Reboot();
        case 5 => if backup.None? { EditDNS(value); }
        case _ => gatewayMode := mode;
      }
    }
  }

  // How far a dynamic refresh got: nothing stored, stored and reported, or
  // stored but reported as an error because the lock was not released.
  datatype RefreshStep = Unchanged | Done | Unreleased

  function PersistedAfter(before: CapturePlan, destinations: seq<nat>, endpoints: seq<nat>, step: RefreshStep)
    : CapturePlan
  {
    if step.Unchanged? then before else before.(destinations := destinations, endpoints := endpoints)
  }

  // Owned rules can stay behind a cleanup that reports success: dnsmasq cannot
  // be pointed at the core, the rollback restores it but cannot remove the rules,
  // and the mode is changed before the next cleanup, which then finds no record
  // of owning anything.
  method RulesLeftBehind(g: Generation, values: string)
    returns (activation: Activation, activated: bool, undone: bool, cleaned: bool)
    ensures !activated && !undone && cleaned
    ensures activation.Conserved() && activation.dnsmasq == activation.original && activation.nft.Some?
  {
    activation := new Activation(Options(values), true, Exactly({ApplyResolver}));
    ghost var released, skipped;
    activated, released := activation.Activate(g);
    activation.world := Exactly({RemoveRules});
    undone, skipped := activation.Deactivate(Some(g));
    activation.world, activation.gatewayMode := Exactly({}), false;
    cleaned, skipped := activation.Deactivate(Some(g));
  }
}
