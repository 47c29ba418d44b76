// What may change while a core keeps running: its configuration by hot reload
// and its address sets by dynamic refresh. Both hold the lifecycle's operation
// lock, so each is one step.

module HotReload {
  import opened Types
  import opened Engines
  import opened Dataplane

  // The listener part and both address lists, element by element.
  predicate SameCapturePlan(left: CapturePlan, right: CapturePlan)
    ensures SameCapturePlan(left, right) <==> left == right
  {
    && left.listener == right.listener && left.dnsEnabled == right.dnsEnabled
    && |left.destinations| == |right.destinations| && |left.endpoints| == |right.endpoints|
    && (forall i | 0 <= i < |left.destinations| :: left.destinations[i] == right.destinations[i])
    && (forall i | 0 <= i < |left.endpoints| :: left.endpoints[i] == right.endpoints[i])
  }

  // A refresh that stored its address sets, and whether it could release its
  // lock and so report success.
  datatype Stored = Stored(destinations: seq<nat>, endpoints: seq<nat>, released: bool)

  // The snapshot has what the last refresh that stored something put there.
  predicate LastStoredShown(history: seq<Stored>, snapshot: CapturePlan) {
    history != [] ==>
      var last := history[|history| - 1];
      last.released || (last.destinations == snapshot.destinations && last.endpoints == snapshot.endpoints)
  }

  // A live Mihomo core, and a selected profile that captures the same traffic.
  predicate SwapPossible(running: Option<Engine>, live: map<Engine, Generation>, prepared: Generation,
                         selected: Option<Generation>) {
    && running == Some(Mihomo) && Mihomo in live && prepared.engine.Mihomo?
    && selected.Some? && selected.value.engine.Mihomo? && selected.value.capture == prepared.capture
  }

  // Prepares the selected profile and swaps it into the running core, unless
  // that would change what is captured. `selected` is what preparing it gives, but
  // for the private runtime made here; `tried` is the generation prepared, if any.
  method SwapInto(host: EngineHost, prepared: Generation, selected: Option<Generation>, world: World)
    returns (swap: Reloaded, tried: Option<Generation>)
    requires host.Valid()
    modifies host
    ensures host.Valid()
    ensures tried.None? ==>
              && swap.Refused? && host.runtimes == old(host.runtimes) && host.live == old(host.live)
              && host.discarded == old(host.discarded) && host.accepted == old(host.accepted)
    ensures tried.Some? ==> tried.value.runtime == old(host.issued) && selected.Some?
    ensures tried.Some? ==> tried.value == selected.value.(runtime := tried.value.runtime)
    ensures !swap.Refused? ==>
              && tried.Some? && tried.value.engine == prepared.engine && tried.value.capture == prepared.capture
              && host.live == map[tried.value.engine := tried.value]
              && host.accepted == old(host.accepted) + {tried.value.runtime}
    ensures swap.Refused? ==> host.accepted == old(host.accepted)
    ensures swap.Refused? ==> host.live == old(host.live) || host.live == map[]
    // The manager removes a runtime in use exactly when the swap went unrecorded.
    ensures host.lost == old(host.lost) + if swap.SwappedUnrecorded? then {tried.value.runtime} else {}
    ensures swap.Swapped? ==> tried.value.runtime in host.runtimes && tried.value.runtime !in host.discarded
    // The runtime of a failed attempt stays exactly when it is not Mihomo's.
    ensures tried.Some? && !swap.Swapped? ==> (tried.value.runtime in host.runtimes <==> tried.value.engine.SingBox?)
    ensures swap.SwappedUnrecorded? ==> tried.value.engine.Mihomo?
    ensures old(host.running) == Some(Mihomo) && selected.Some? ==> tried.Some?
    ensures selected.Some? && selected.value.engine != prepared.engine ==> swap.Refused? && host.live == old(host.live)
    // The swap happens and cannot be recorded.
    ensures SwapPossible(old(host.running), old(host.live), prepared, selected) && world == Exactly({RecordSwap}) ==>
              swap.SwappedUnrecorded?
    ensures SwapPossible(old(host.running), old(host.live), prepared, selected) && world == Exactly({}) ==>
              && swap.Swapped?
              && host.runtimes == old(host.runtimes) - {old(host.live)[Mihomo].runtime} + {tried.value.runtime}
  {
    swap, tried := Refused, None;
    // Only the Mihomo driver reloads; the running engine's driver is asked.
    var capable: bool := *;
    if host.running.Some? { capable := host.running.value.Mihomo?; }
    if !capable || selected.None? { return; }
    var r := host.Issue();
    var g := selected.value.(runtime := r);
    tried := Some(g);
    if g.engine == prepared.engine && SameCapturePlan(prepared.capture, g.capture) {
      swap := host.Reload(g, world);
      if swap.Swapped? { return; }
    }
    if g.engine.Mihomo? { host.Remove(g); }
  }

  class RunningCore {
    const host: EngineHost
    const activation: Activation
    var running: bool
    var prepared: Generation

    // The snapshot of the running generation and the generation stored for
    // other processes capture the same traffic.
    ghost predicate Agrees()
      reads this, activation
    {
      running ==> activation.saved.Some? && activation.saved.value.capture == prepared.capture
    }

    constructor (host: EngineHost, activation: Activation, prepared: Generation)
      ensures this.host == host && this.activation == activation && !running && Agrees()
    {
      this.host, this.activation, this.running, this.prepared := host, activation, false, prepared;
    }

    // A start in gateway mode, once the core itself is up.
    method GoLive(g: Generation) returns (ok: bool)
      requires activation.Conserved() && activation.gatewayMode
      modifies this, activation
      ensures activation.Conserved() && activation.Kept()
      ensures ok ==> running && prepared == g && Agrees()
      ensures !ok ==> !running
      ensures old(activation.Steady()) && activation.world.failing == {} ==> ok && !activation.crashed
    {
      ghost var released;
      ok, released := activation.Activate(g);
      running := ok;
      if ok { prepared := g; }
    }

    ghost predicate Reloadable(selected: Option<Generation>)
      reads this, host
    {
      running && SwapPossible(host.running, host.live, prepared, selected)
    }

    // Reloads the selected profile into the running core.
    method Reload(selected: Option<Generation>) returns (ok: bool, swap: Reloaded, tried: Option<Generation>)
      requires host.Valid()
      modifies this, host
      ensures host.Valid() && running == old(running) && Agrees() == old(Agrees())
      ensures ok <==> swap.Swapped?
      ensures ok ==> tried.Some? && prepared == tried.value && host.live == map[prepared.engine := prepared]
      ensures ok ==> prepared.capture == old(prepared).capture && prepared.engine == old(prepared).engine
      ensures !ok ==> prepared == old(prepared)
      ensures tried.None? ==> swap.Refused? && host.runtimes == old(host.runtimes) && host.live == old(host.live)
      // The runtime of a failed attempt stays exactly when it is not Mihomo's.
      ensures tried.Some? && !ok ==> (tried.value.runtime in host.runtimes <==> tried.value.engine.SingBox?)
      // The live core loses its runtime exactly when it took the new one and the
      // swap could not be recorded.
      ensures old(host.Intact()) ==> (host.Intact() <==> !swap.SwappedUnrecorded?)
      ensures old(running) && old(host.running) == Some(Mihomo) && selected.Some? ==>
                tried.Some? && tried.value == selected.value.(runtime := tried.value.runtime)
      ensures selected.Some? && selected.value.engine != old(prepared).engine ==>
                swap.Refused? && host.live == old(host.live)
      ensures tried.Some? ==> tried.value.runtime == old(host.issued)
      ensures old(Reloadable(selected)) && activation.world == Exactly({}) ==> ok
      // The swap happens and cannot be recorded: the accepted runtime is removed.
      ensures old(Reloadable(selected)) && activation.world == Exactly({RecordSwap}) ==>
                && !ok && swap.SwappedUnrecorded? && tried.Some?
                && host.live == map[Mihomo := tried.value] && tried.value.runtime !in host.runtimes
    {
      ok, swap, tried := false, Refused, None;
      if !running { return; }
      swap, tried := SwapInto(host, prepared, selected, activation.world);
      ok := swap.Swapped?;
      if ok { prepared := tried.value; }
      if swap.SwappedUnrecorded? { assert host.live[tried.value.engine].runtime == tried.value.runtime; }
    }

    // A running generation can be refreshed.
    ghost predicate Refreshable()
      reads this, activation
    {
      && activation.Steady() && activation.saved.Some?
      && running && prepared.engine.Mihomo? && activation.gatewayMode
    }

    // It can, except for the release of the lock.
    ghost predicate LockStuck()
      reads this, activation
    {
      Refreshable() && activation.world.failing == {ReleaseLock}
    }

    // Refreshes the two address sets, where that applies: for a running Mihomo
    // core in gateway mode. An error leaves the snapshot as it was.
    method Refresh(destinations: seq<nat>, endpoints: seq<nat>) returns (ok: bool, step: RefreshStep)
      requires activation.Conserved()
      modifies this, activation
      ensures activation.Conserved() && activation.Kept() && running == old(running)
      ensures activation.saved.Some? == old(activation.saved).Some?
      ensures !(running && old(prepared).engine.Mihomo? && activation.gatewayMode) ==> ok && step.Unchanged?
      ensures running && old(prepared).engine.Mihomo? && activation.gatewayMode ==> (ok <==> step.Done?)
      ensures step.Unchanged? ==> prepared == old(prepared) && activation.saved == old(activation.saved)
      ensures step.Unreleased? ==> prepared == old(prepared)
      ensures !step.Unchanged? ==>
                && old(activation.saved).Some?
                && activation.saved.value.capture
                   == old(activation.saved).value.capture.(destinations := destinations, endpoints := endpoints)
      ensures step.Done? ==> Agrees() && prepared == old(prepared).(capture := activation.saved.value.capture)
      ensures old(LockStuck()) ==> step.Unreleased?
      ensures old(Refreshable()) && activation.world.failing == {} ==> ok && step.Done?
    {
      step := Unchanged;
      if !activation.gatewayMode { return true, step; }
      if !running || prepared.engine.SingBox? { return true, step; }
      var computed := Attempt(activation.world, Prepare);
      if !computed { return false, step; }
      ghost var stored := activation.saved;
      var refreshed: CapturePlan;
      ok, refreshed, step := activation.RefreshDynamicCapture(destinations, endpoints);
      if ok { prepared := prepared.(capture := refreshed); }
    }

    // The parts a refresh never touches agree.
    ghost predicate SameListener()
      reads this, activation
    {
      && activation.saved.Some?
      && activation.saved.value.capture.listener == prepared.capture.listener
      && activation.saved.value.capture.dnsEnabled == prepared.capture.dnsEnabled
    }

    // Any run of reloads, refreshes and mode changes, failed ones included. At
    // its end snapshot and stored generation agree exactly when the last refresh
    // that stored anything also released its lock, or stored what the snapshot
    // has anyway.
    method Run(steps: nat) returns (ghost history: seq<Stored>)
      requires host.Valid() && activation.Conserved() && running && Agrees()
      modifies this, host, activation
      ensures host.Valid() && activation.Conserved() && running
      ensures Agrees() <==> LastStoredShown(history, prepared.capture)
    {
      history := [];
      for step := 0 to steps
        invariant host.Valid() && activation.Conserved() && running && SameListener()
        invariant Agrees() <==> LastStoredShown(history, prepared.capture)
        invariant history != [] ==>
          && activation.saved.value.capture.destinations == history[|history| - 1].destinations
          && activation.saved.value.capture.endpoints == history[|history| - 1].endpoints
      {
        var what: nat, selected: Option<Generation>, d: seq<nat>, e: seq<nat>, mode: bool := *, *, *, *, *;
        if what == 0 {
          var ok, swap, tried := Reload(selected);
        } else if what == 1 {
          var ok, how := Refresh(d, e);
          if !how.Unchanged? { history := history + [Stored(d, e, how.Done?)]; }
        } else {
          activation.gatewayMode := mode;
        }
      }
    }
  }

  // After a start in gateway mode, a refresh of a Mihomo core whose lock cannot
  // be released leaves snapshot and stored generation different.
  method RefreshDisagrees(g: Generation, values: string) returns (core: RunningCore, ok: bool)
    requires g.engine.Mihomo? && g.capture.destinations != [1]
    ensures core.running && !ok && !core.Agrees()
  {
    var host := new EngineHost({Mihomo, SingBox}, {}, 0);
    var activation := new Activation(Options(values), true, Exactly({}));
    core := new RunningCore(host, activation, g);
    var live := core.GoLive(g);
    activation.world := Exactly({ReleaseLock});
    var step: RefreshStep;
    ok, step := core.Refresh([1], []);
  }

  // A Mihomo core runs while a sing-box profile is selected: the reload is
  // refused and the private runtime made for it stays behind.
  method RefusedRuntimeStays(running: Generation, selected: Generation)
    returns (core: RunningCore, ok: bool, tried: Option<Generation>)
    requires running.engine.Mihomo? && running.runtime == 0 && selected.engine.SingBox?
    ensures core.running && !ok && tried.Some? && tried.value.runtime in core.host.runtimes
    ensures core.host.live == map[Mihomo := running] && tried.value.runtime != running.runtime
  {
    var host := new EngineHost({Mihomo, SingBox}, {0}, 1);
    var adopted := host.SetAdopted(running);
    var activation := new Activation(Options(""), true, Exactly({}));
    core := new RunningCore(host, activation, running);
    var live := core.GoLive(running);
    var swap: Reloaded;
    ok, swap, tried := core.Reload(Some(selected));
  }

  // A hot reload swaps the configuration and cannot record it: the core runs the
  // new generation, whose private runtime is removed, and the snapshot still names
  // the old one.
  method AcceptedRuntimeRemoved(running: Generation, selected: Generation)
    returns (core: RunningCore, ok: bool, tried: Option<Generation>)
    requires running.engine.Mihomo? && running.runtime == 0
    requires selected.engine.Mihomo? && selected.capture == running.capture
    ensures core.running && !ok && core.prepared == running
    ensures tried.Some? && tried.value == selected.(runtime := tried.value.runtime)
    ensures core.host.live == map[Mihomo := tried.value] && tried.value.runtime in core.host.accepted
    ensures tried.value.runtime !in core.host.runtimes
  {
    var host := new EngineHost({Mihomo, SingBox}, {0}, 1);
    var adopted := host.SetAdopted(running);
    var activation := new Activation(Options(""), true, Exactly({}));
    core := new RunningCore(host, activation, running);
    var live := core.GoLive(running);
    activation.world := Exactly({RecordSwap});
    var swap: Reloaded;
    ok, swap, tried := core.Reload(Some(selected));
  }
}
