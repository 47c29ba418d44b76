// The core -> gateway -> DNS transaction. Every method that takes the operation
// lock is one atomic step; `AtRest` is what holds whenever the lock is free.

module Lifecycles {
  import opened Types
  import opened Traces
  import opened Engines
  import opened RestartGuards
  import opened ProfileSwitch
  import HotReload

  datatype State = Unset | Stopped | Starting | Running | Stopping | CleanupFailed | Failed

  // What a history establishes after a final probe.
  function Answered(s: Summary, ready: bool): Summary {
    s.(ready := s.ready || ready, settled := s.settled || (ready && s.capture.On?))
  }

  class Lifecycle {
    const host: EngineHost
    const guard: RestartGuard?
    const switcher: ProfileSwitcher
    const complete: bool         // every dependency was supplied
    const controllerFailures: nat
    const world: World

    var state: State
    var prepared: Option<Generation>
    var healthRunning: bool
    var lastError: bool
    var guardInProgress: bool
    var absences: nat            // failed calls so far whose error reads as not-exist
    ghost var trace: seq<Event>
    ghost var known: Summary

    // `known` is what the calls made so far establish.
    ghost predicate Recorded()
      reads this
    {
      known == Summarize(trace)
    }

    ghost predicate Valid()
      reads this, host
    {
      Recorded() && host.Valid()
    }

    // The same core and listener; a hot reload may have replaced the rest of the
    // configuration, a dynamic refresh the address sets.
    static predicate SameCore(g: Generation, h: Generation) {
      && g.engine == h.engine && g.capture.listener == h.capture.listener
      && g.capture.dnsEnabled == h.capture.dnsEnabled
    }

    // Capture is on for the core that runs, and a probe succeeded after that.
    ghost predicate Serves(g: Generation)
      reads this
    {
      && state == Running && prepared == Some(g) && known.settled
      && known.capture.On? && SameCore(known.capture.g, g)
    }

    // What each state means while no operation is under way.
    ghost predicate StateMeaning()
      reads this, host
    {
      match state
      case Unset => known.capture.Unknown? && prepared.None?
      case Stopped => known.stopped && known.capture.Off? && prepared.None? && host.running.None?
      case Running => prepared.Some? && Serves(prepared.value) && prepared.value.runtime in host.accepted
      case CleanupFailed => known.capture.Suspect? && lastError
      case Failed => known.capture.Off? && lastError
      case Starting => false
      case Stopping => false
    }

    // A determined world in which no call a start or stop makes fails.
    ghost predicate Helpful() {
      && world.Exactly?
      && Prepare !in world.failing && StartCore !in world.failing && StopCore !in world.failing
      && AnswerProbe !in world.failing && CheckGuard !in world.failing
      && InstallCapture !in world.failing && DropCapture !in world.failing
      && RaiseGuard !in world.failing && DropGuard !in world.failing
    }

    // One generation was offered to the core, and that one is up, its start noted.
    twostate predicate Restarted()
      reads this, switcher.disk
    {
      && prepared.Some? && IsUp(prepared.value) && known.starts == old(known).starts + [prepared.value]
      && StartNoted(old(switcher.disk.files), switcher.disk.files, prepared.value, old(switcher.disk.Calm()))
    }

    // The selected profile can be started.
    ghost predicate Startable()
      reads switcher.disk
    {
      && Helpful() && complete
      && switcher.disk.files.active.Some? && switcher.disk.files.active.value.engine in host.backends
    }

    // The running core can be replaced by the selected profile.
    ghost predicate Renewable()
      reads this, host, switcher.disk
    {
      Startable() && state == Running && prepared.Some? && prepared.value.runtime in host.runtimes
    }

    // Nothing is left of a failed generation, and a start would not fail.
    ghost predicate CanRestart()
      reads this, host
    {
      Helpful() && state != CleanupFailed && !healthRunning && host.running.None?
    }

    ghost predicate Orderly()
      reads this
    {
      known.failOpen && known.readyFirst
    }

    ghost predicate AtRest()
      reads this, host, guard
    {
      && Valid() && Orderly() && StateMeaning() && !guardInProgress
      && (guard != null ==> guard.Accounted())
    }

    ghost predicate IsUp(g: Generation)
      reads this
    {
      state == Running && prepared == Some(g) && known.capture == On(g) && known.settled
    }

    // Cleanup-failed is left only through a successful cleanup.
    twostate predicate CleanupHeld()
      reads this
    {
      old(state) == CleanupFailed && state != CleanupFailed ==> known.cleanups > old(known).cleanups
    }

    // Whatever runtime is on disk is read by the core, or was there before and
    // not read by it: nothing new was left behind, nothing released was kept.
    twostate predicate Tidy()
      reads host
    {
      forall r | r in host.runtimes :: r in host.Owned() || (r in old(host.runtimes) && r !in old(host.Owned()))
    }

    // Tidy, but for one runtime the caller still holds.
    twostate predicate TidyApart(runtime: nat)
      reads host
    {
      forall r | r in host.runtimes && r != runtime ::
        r in host.Owned() || (r in old(host.runtimes) && r !in old(host.Owned()))
    }

    // A runtime the manager was handed is either gone or read by the core.
    ghost predicate Disposed(runtime: nat)
      reads host
    {
      runtime in host.runtimes ==> runtime in host.Owned()
    }

    // The manager removes the runtime exactly when no core ever accepted it.
    ghost predicate ReturnedOrTaken(runtime: nat)
      reads host
    {
      Disposed(runtime) && (runtime in host.discarded <==> runtime !in host.accepted)
    }

    constructor (host: EngineHost, guard: RestartGuard?, switcher: ProfileSwitcher, complete: bool,
                 controllerFailures: nat,
                 world: World)
      requires host.Valid()
      requires guard != null ==> guard.Accounted()
      ensures AtRest() && state == Unset && trace == []
      ensures this.host == host && this.guard == guard && this.switcher == switcher
      ensures this.complete == complete && this.world == world
    {
      this.host, this.guard, this.switcher, this.complete := host, guard, switcher, complete;
      this.controllerFailures, this.world, absences := controllerFailures, world, 0;
      state, prepared, healthRunning, lastError, guardInProgress, trace := Unset, None, false, false, false, [];
      known := INITIAL;
    }

    // ---------------------------------------------------- external calls

    ghost method Note(e: Event)
      requires Recorded()
      modifies this`trace, this`known
      ensures Recorded() && trace == old(trace) + [e] && known == Step(old(known), e)
    {
      SummarizeAppend(trace, e);
      trace, known := trace + [e], Step(known, e);
    }

    method CoreStart(g: Generation) returns (ok: bool)
      requires Valid() && host.Fresh(g)
      modifies this`trace, this`known, host
      ensures Valid() && known == Step(old(known), Event.CoreStart(g, ok))
      ensures host.lost == old(host.lost)
      ensures trace == old(trace) + [Event.CoreStart(g, ok)]
      ensures host.accepted == old(host.accepted) + (if ok then {g.runtime} else {})
      ensures host.issued == old(host.issued) && host.discarded == old(host.discarded)
      ensures ok ==> host.running == Some(g.engine) && host.live == map[g.engine := g]
      ensures ok ==> host.runtimes == old(host.runtimes)
      ensures ok ==> old(host.running).None?
      ensures !ok ==> host.OnlyExits() && host.running == old(host.running)
      ensures g.runtime in host.runtimes
      ensures world.Exactly? && old(host.running).None? && g.engine in host.backends ==> world.Fixes(StartCore, ok)
    {
      ok := host.Start(g, world);
      Note(Event.CoreStart(g, ok));
    }

    // Whether the caller has gone; nobody goes in a determined world.
    method Cancelled() returns (cancelled: bool)
      ensures world.Exactly? ==> !cancelled
    {
      cancelled := *;
      cancelled := cancelled && world.Any?;
    }

    // The error of a failed call may read as not-exist: a program, a script or a
    // file that it needs is missing.
    method Failing()
      modifies this`absences
      ensures absences in {old(absences), old(absences) + 1}
      ensures world.Exactly? ==> absences == old(absences) + 1
    {
      var absent: bool := *;
      if absent || world.Exactly? { absences := absences + 1; }
    }

    method CoreStop() returns (ok: bool)
      requires Valid()
      modifies this`trace, this`known, this`absences, host
      ensures Valid() && host.OnlyExits() && known == Step(old(known), Event.CoreStop(ok))
      ensures trace == old(trace) + [Event.CoreStop(ok)] && (ok ==> absences == old(absences))
      ensures world.Exactly? && StopCore !in world.failing ==> ok
      ensures ok ==> host.running.None? && host.live == map[]
    {
      ok := host.Stop(world);
      if !ok { Failing(); }
      Note(Event.CoreStop(ok));
    }

    method Activate(g: Generation) returns (ok: bool)
      requires Recorded()
      modifies this`trace, this`known, this`absences
      ensures Recorded() && known == Step(old(known), Event.Activate(g, ok)) && old(trace) <= trace
      ensures ok ==> absences == old(absences)
      ensures world.Fixes(InstallCapture, ok)
    {
      ok := Attempt(world, InstallCapture);
      if !ok { Failing(); }
      Note(Event.Activate(g, ok));
    }

    method Deactivate() returns (ok: bool)
      requires Recorded()
      modifies this`trace, this`known, this`absences
      ensures Recorded() && known == Step(old(known), Event.Deactivate(ok))
      ensures trace == old(trace) + [Event.Deactivate(ok)]
      ensures ok ==> absences == old(absences)
      ensures world.Fixes(DropCapture, ok) && (world.Exactly? && !ok ==> absences > old(absences))
    {
      ok := Attempt(world, DropCapture);
      if !ok { Failing(); }
      Note(Event.Deactivate(ok));
    }

    method Commit(c: ProfileSwitch.Commit) returns (ok: bool, ghost compensated: bool)
      requires Recorded() && Committable(switcher.disk.files, c)
      modifies this`trace, this`known, switcher.disk
      ensures Recorded() && known == Step(old(known), Event.Commit(ok)) && old(trace) <= trace
      ensures old(switcher.disk.Calm()) ==>
                switcher.disk.Calm() && compensated && (Current(old(switcher.disk.files), c) ==> ok)
      ensures CommitOutcome(c, old(switcher.disk.files), switcher.disk.files, ok && !c.NoCommit?, compensated)
    {
      ok, compensated := switcher.Apply(c);
      Note(Event.Commit(ok));
    }

    // Renders and validates a profile, or else the selected one, into a private
    // runtime.
    method PrepareFor(profile: Option<Profile>) returns (g: Option<Generation>)
      requires Valid()
      modifies host
      ensures Valid() && host.live == old(host.live) && host.running == old(host.running)
      ensures host.lost == old(host.lost)
      ensures host.accepted == old(host.accepted) && host.discarded == old(host.discarded)
      ensures g.None? ==> host.runtimes == old(host.runtimes)
      ensures g.Some? ==> host.Fresh(g.value) && host.runtimes == old(host.runtimes) + {g.value.runtime}
      ensures g.Some? ==> g.value.runtime !in old(host.runtimes)
      ensures g.Some? && profile.Some? ==> PreparedMatchesProfile(g.value, profile.value)
      ensures world.Exactly? && Prepare !in world.failing ==> g.Some?
      ensures world.Exactly? && profile.None? && g.Some? && switcher.disk.files.active.Some? ==>
                g.value.engine == switcher.disk.files.active.value.engine
      ensures g.Some? && profile.Some? && world.Exactly? && profile.value in switcher.disk.files.sources ==>
                g.value.revision == ContentRevision(switcher.disk.files.sources[profile.value])
    {
      var rendered := Attempt(world, Prepare);
      if !rendered {
        return None;
      }
      var r := host.Issue();
      var engine: Engine, source: string, revision: string, capture: CapturePlan := *, *, *, *;
      if world.Exactly? && switcher.disk.files.active.Some? { engine := switcher.disk.files.active.value.engine; }
      if profile.Some? {
        engine, source := profile.value.engine, ProfilePath(profile.value);
        if world.Exactly? && profile.value in switcher.disk.files.sources {
          revision := ContentRevision(switcher.disk.files.sources[profile.value]);
        }
      }
      g := Some(Generation(engine, r, source, revision, capture));
    }

    method PrepareActive() returns (g: Option<Generation>)
      requires Valid()
      modifies host
      ensures Valid() && host.live == old(host.live) && host.running == old(host.running)
      ensures host.lost == old(host.lost)
      ensures host.accepted == old(host.accepted) && host.discarded == old(host.discarded)
      ensures g.None? ==> host.runtimes == old(host.runtimes)
      ensures g.Some? ==> host.Fresh(g.value) && host.runtimes == old(host.runtimes) + {g.value.runtime}
      ensures g.Some? ==> g.value.runtime !in old(host.runtimes)
      ensures Helpful() ==> g.Some?
      ensures Startable() && g.Some? ==> g.value.engine in host.backends
    {
      g := PrepareFor(None);
    }

    // Polls until the core is ready, has exited, or the deadline passes.
    method WaitReady(g: Generation) returns (health: Health, ok: bool)
      requires Valid()
      modifies this`trace, this`known, this`absences, host
      ensures Valid() && host.OnlyExits() && host.running == old(host.running)
      ensures known == Answered(old(known), ok)
      ensures old(trace) <= trace
      ensures ok ==> health.running && health.controllerReady && !health.failed
      ensures ok && g.capture.dnsEnabled ==> health.dnsReady
      ensures world.Exactly? && !ok ==> absences == old(absences) + 1
      ensures world.Exactly? ==> host.live == old(host.live) && (ok <==> host.Answering(world))
    {
      var budget: nat := *;
      ok := false;
      while true
        invariant Valid() && host.OnlyExits() && host.running == old(host.running)
        invariant known == old(known) && old(trace) <= trace
        invariant absences == old(absences)
        invariant !ok && (world.Exactly? ==> host.live == old(host.live))
        decreases budget
      {
        health := host.Poll(world);
        ok := ReadyFor(health, g);
        Note(Probe(ok));
        if ok { return; }
        if (!health.running && health.exited) || budget == 0 {
          Failing();
          return;
        }
        budget := budget - 1;
      }
    }

    // --------------------------------------------------- state recording

    method RecordHealth(health: Health, ready: bool)
      modifies this`healthRunning, this`lastError
      ensures healthRunning == health.running
      ensures lastError == if ready && state == Running && prepared.Some? && ReadyFor(health, prepared.value) then false
                           else !ready || old(lastError)
    {
      healthRunning := health.running;
      if !ready {
        lastError := true;
      } else if state == Running && prepared.Some? && ReadyFor(health, prepared.value) {
        lastError := false;
      }
    }

    method MarkCleanupFailed(g: Option<Generation>)
      modifies this`state, this`prepared, this`lastError
      ensures state == CleanupFailed && prepared == g && lastError
    {
      state, prepared, lastError := CleanupFailed, g, true;
    }

    method FailAfterRollback()
      modifies this`state, this`lastError
      ensures lastError && state == if old(state) == CleanupFailed then CleanupFailed else Failed
    {
      if state != CleanupFailed {
        state := Failed;
      }
      lastError := true;
    }

    // Removes capture, then stops the core. When capture cannot be removed the
    // core is kept alive.
    method Rollback(g: Option<Generation>) returns (ok: bool)
      requires Valid() && Orderly() && state != CleanupFailed
      modifies this, host
      ensures Valid() && Orderly() && host.OnlyExits() && old(trace) <= trace
      ensures guardInProgress == old(guardInProgress)
      ensures known.commits == old(known).commits && known.committed == old(known).committed
      ensures known.starts == old(known).starts
      ensures state == CleanupFailed ==> !ok && known.capture.Suspect? && prepared == g && lastError
                                         && host.live == old(host.live) && host.runtimes == old(host.runtimes)
      ensures state != CleanupFailed ==>
                state == old(state) && known.capture.Off? && known.cleanups > old(known).cleanups
      ensures ok ==> known.stopped && prepared.None? && !healthRunning && host.running.None? && host.live == map[]
      ensures known.cleanups >= old(known).cleanups
      ensures Helpful() ==> ok
    {
      var cleaned := Deactivate();
      if !cleaned {
        MarkCleanupFailed(g);
        return false;
      }
      var stopped := CoreStop();
      if !stopped {
        return false;
      }
      prepared, healthRunning := None, false;
      ok := true;
    }

    // Gives up on g: rolls back, then records the failure unless cleanup is
    // unresolved.
    method Undo(g: Option<Generation>)
      requires Valid() && Orderly() && state != CleanupFailed
      modifies this, host
      ensures Valid() && Orderly() && host.OnlyExits() && old(trace) <= trace && guardInProgress == old(guardInProgress)
      ensures GaveUp(g)
      ensures known.commits == old(known).commits && known.committed == old(known).committed
      ensures known.starts == old(known).starts
      ensures known.cleanups >= old(known).cleanups
      ensures Helpful() ==> CanRestart()
    {
      var undone := Rollback(g);
      FailAfterRollback();
    }

    ghost predicate GaveUp(g: Option<Generation>)
      reads this
    {
      || (state == Failed && known.capture.Off? && lastError)
      || (state == CleanupFailed && known.capture.Suspect? && prepared == g && lastError)
    }

    // ------------------------------------------------------- starting

    method Probed(g: Generation) returns (health: Health, ready: bool)
      requires Valid()
      modifies this`trace, this`known, this`absences, this`healthRunning, this`lastError, host
      ensures Valid() && host.OnlyExits() && host.running == old(host.running)
      ensures known == Answered(old(known), ready) && (ready ==> health.running)
      ensures healthRunning == health.running && (!ready ==> lastError)
      ensures world.Exactly? ==> host.live == old(host.live) && (ready <==> host.Answering(world))
      ensures old(trace) <= trace
    {
      health, ready := WaitReady(g);
      RecordHealth(health, ready);
    }

    // Readiness, gateway, readiness through the changed packet path, and the
    // guard's own check of a guarded restart, up to the first that fails.
    method Settle(g: Generation) returns (health: Health, ok: bool)
      requires Valid() && Orderly()
      requires guardInProgress ==> guard != null
      modifies this`trace, this`known, this`absences, this`healthRunning, this`lastError, host
      ensures Valid() && Orderly() && host.OnlyExits() && old(trace) <= trace
      ensures ok ==> known.capture == On(g) && known.settled && (guardInProgress ==> known.verified)
      ensures known.commits == old(known).commits && known.committed == old(known).committed
      ensures known.cleanups == old(known).cleanups && known.starts == old(known).starts
      ensures ok ==> health.running
      ensures ok && world.Exactly? ==>
                && AnswerProbe !in world.failing && InstallCapture !in world.failing
                && (guardInProgress ==> CheckGuard !in world.failing)
      ensures Helpful() && old(host.live) != map[] ==> ok && host.live == old(host.live)
    {
      health, ok := Probed(g);
      if !ok { return; }
      ok := Activate(g);
      if !ok { return; }
      health, ok := Probed(g);
      if !ok || !guardInProgress { return; }
      ok := guard.Verify(world);
      Note(Verify(ok));
    }

    // Everything after the core runs.
    method BringUp(g: Generation) returns (ok: bool)
      requires Valid() && Orderly() && state != CleanupFailed
      requires guardInProgress ==> guard != null
      modifies this, host
      ensures Valid() && Orderly() && host.OnlyExits() && old(trace) <= trace && guardInProgress == old(guardInProgress)
      ensures ok ==> IsUp(g) && healthRunning && (guardInProgress ==> known.verified)
      ensures ok && world.Exactly? ==>
                && AnswerProbe !in world.failing && InstallCapture !in world.failing
                && (guardInProgress ==> CheckGuard !in world.failing)
      ensures old(host.live) != map[] && Helpful() ==> ok
      ensures !ok ==> GaveUp(Some(g)) && (Helpful() ==> CanRestart())
      ensures known.commits == old(known).commits && known.committed == old(known).committed
      ensures known.starts == old(known).starts
      ensures known.cleanups >= old(known).cleanups
    {
      var health: Health;
      health, ok := Settle(g);
      if !ok { Undo(Some(g)); return; }
      state, prepared, healthRunning, lastError := Running, Some(g), health.running, false;
    }

    // The core did not take g: give up and remove its runtime, unless capture may
    // still be there.
    method Withdraw(g: Generation)
      requires Valid() && Orderly() && state != CleanupFailed && host.Fresh(g)
      modifies this, host
      ensures Valid() && Orderly() && old(trace) <= trace && guardInProgress == old(guardInProgress)
      ensures GaveUp(Some(g)) && (Helpful() ==> CanRestart())
      ensures host.accepted == old(host.accepted) && host.issued == old(host.issued) && host.lost == old(host.lost)
      ensures host.discarded == old(host.discarded) + (if state != CleanupFailed then {g.runtime} else {})
      ensures host.runtimes <= old(host.runtimes) && host.Owned() <= old(host.Owned())
      ensures forall r | r in old(host.runtimes) && r != g.runtime && r !in old(host.Owned()) :: r in host.runtimes
      ensures forall r | r in host.runtimes && r != g.runtime :: r in host.Owned() || r !in old(host.Owned())
      ensures state != CleanupFailed ==> g.runtime !in host.runtimes
      ensures known.commits == old(known).commits && known.committed == old(known).committed
      ensures known.starts == old(known).starts && known.cleanups >= old(known).cleanups
    {
      Undo(Some(g));
      if state != CleanupFailed {
        host.Discard(g);
      }
    }

    // Starts one validated generation. `accepted` tells whether the core ever
    // took over the private runtime; until then it stays the caller's.
    method StartPrepared(g: Generation) returns (ok: bool, accepted: bool)
      requires Valid() && Orderly() && state != CleanupFailed && host.Fresh(g)
      requires guardInProgress ==> guard != null
      modifies this, host
      ensures Valid() && Orderly() && old(trace) <= trace && guardInProgress == old(guardInProgress)
      ensures host.lost == old(host.lost)
      ensures ok ==> IsUp(g) && accepted && healthRunning && (guardInProgress ==> known.verified)
      ensures known.starts == old(known).starts + [g]
      ensures |trace| > |old(trace)| && trace[|old(trace)|] == Event.CoreStart(g, accepted)
      ensures Helpful() && old(host.running).None? && g.engine in host.backends ==> ok
      ensures !ok ==> GaveUp(Some(g)) && (Helpful() ==> CanRestart())
      ensures host.accepted == old(host.accepted) + (if accepted then {g.runtime} else {})
      ensures host.discarded == old(host.discarded) + (if !accepted && state != CleanupFailed then {g.runtime} else {})
      ensures host.issued == old(host.issued) && host.runtimes <= old(host.runtimes)
      ensures forall r | r in old(host.runtimes) && r != g.runtime && r !in old(host.Owned()) :: r in host.runtimes
      ensures host.Owned() <= if accepted then {g.runtime} else old(host.Owned())
      ensures forall r | r in host.runtimes ::
                r in host.Owned() || r == g.runtime || (r in old(host.runtimes) && r !in old(host.Owned()))
      ensures accepted || state != CleanupFailed ==> Disposed(g.runtime)
      ensures known.commits == old(known).commits && known.committed == old(known).committed
      ensures known.cleanups >= old(known).cleanups
    {
      state, lastError, prepared := Starting, false, Some(g);
      accepted := CoreStart(g);
      if !accepted {
        Withdraw(g);
        return false, false;
      }
      ok := BringUp(g);
    }

    // A fresh manager, like one whose last operation failed, cannot know whether
    // capture is still installed: remove it before anything else.
    method ClearLeftovers() returns (ok: bool)
      requires Valid() && Orderly() && StateMeaning() && state in {Unset, Stopped, Failed}
      modifies this, host
      ensures Valid() && Orderly() && host.OnlyExits() && old(trace) <= trace && guardInProgress == old(guardInProgress)
      ensures ok ==> state == old(state) && known.capture.Off?
      ensures !ok ==> state in {Failed, CleanupFailed} && StateMeaning()
      ensures Helpful() ==> ok && host.running.None?
      ensures known.starts == old(known).starts
      ensures known.commits == old(known).commits && known.committed == old(known).committed
      ensures known.cleanups >= old(known).cleanups
    {
      if state == Stopped { return true; }
      ok := Rollback(prepared);
      if !ok { FailAfterRollback(); }
    }

    // Nothing is captured: prepare the selected profile and start it.
    method StartSelected() returns (ok: bool)
      requires Valid() && Orderly() && !guardInProgress && known.capture.Off?
      modifies this, host, switcher.disk
      ensures Valid() && Orderly() && !guardInProgress && StateMeaning() && old(trace) <= trace && OnlyStartRecorded()
      ensures host.lost == old(host.lost)
      ensures if ok then state == Running else state in {Failed, CleanupFailed}
      ensures state != CleanupFailed ==> Tidy()
      ensures ok ==> Restarted()
      ensures old(Startable()) && old(host.running).None? ==> ok
      ensures known.commits == old(known).commits && known.committed == old(known).committed
      ensures known.cleanups >= old(known).cleanups
    {
      state, lastError := Starting, false;
      var g := PrepareActive();
      if g.None? {
        state, lastError := Failed, true;
        return false;
      }
      var accepted: bool;
      ok, accepted := StartPrepared(g.value);
      if ok { var recorded := switcher.RecordStart(g.value); }
    }

    method StartLocked() returns (ok: bool)
      requires AtRest()
      modifies this, host, switcher.disk
      ensures AtRest() && CleanupHeld() && old(trace) <= trace && OnlyStartRecorded()
      ensures host.lost == old(host.lost)
      ensures ok ==> state == Running
      ensures !complete ==> !ok && trace == old(trace) && state == old(state)
      ensures old(state) in {Running, CleanupFailed} ==>
                state == old(state) && trace == old(trace) && host.live == old(host.live)
      ensures !ok && state != old(state) ==> state in {Failed, CleanupFailed}
      ensures state != CleanupFailed ==> Tidy()
      ensures ok && old(state) != Running ==> Restarted()
      ensures old(Startable()) ==> (ok <==> old(state) != CleanupFailed)
      ensures known.commits == old(known).commits && known.committed == old(known).committed
      ensures known.cleanups >= old(known).cleanups
    {
      var cancelled := Cancelled();
      if !complete || cancelled { return false; }
      if state == Running { return true; }
      if state == CleanupFailed { return false; }
      var cleared := ClearLeftovers();
      if !cleared { return false; }
      ok := StartSelected();
    }

    method Start() returns (ok: bool)
      requires AtRest()
      modifies this, host, switcher.disk
      ensures AtRest() && CleanupHeld() && old(trace) <= trace && OnlyStartRecorded()
      ensures host.lost == old(host.lost)
      ensures ok ==> state == Running
      ensures old(Startable()) && TakeLock !in world.failing ==> (ok <==> old(state) != CleanupFailed)
      ensures world.Exactly? && TakeLock in world.failing ==> !ok && trace == old(trace) && state == old(state)
      ensures state != CleanupFailed ==> Tidy()
      ensures ok && old(state) != Running ==> Restarted()
    {
      var locked := Attempt(world, TakeLock);
      if !locked { return false; }
      ok := StartLocked();
    }

    // ------------------------------------------------------- stopping

    // The calls of a teardown: capture is removed first, and only if that worked
    // is the core stopped.
    twostate predicate TornDown()
      reads this
    {
      if state == CleanupFailed then trace == old(trace) + [Event.Deactivate(false)]
      else trace == old(trace) + [Event.Deactivate(true)] + [Event.CoreStop(state == Stopped)]
    }

    // Capture first; without that the core is kept.
    method TearDown() returns (ok: bool)
      requires Valid() && Orderly()
      modifies this, host
      ensures Valid() && Orderly() && host.OnlyExits() && old(trace) <= trace && guardInProgress == old(guardInProgress)
      ensures ok ==> state == Stopped && !healthRunning && host.live == map[]
      ensures !ok ==> state in {Failed, CleanupFailed}
      ensures StateMeaning() && known.cleanups >= old(known).cleanups
      ensures !ok ==> prepared == old(prepared) && healthRunning == old(healthRunning)
      ensures TornDown()
      ensures Helpful() ==> ok
      ensures state != CleanupFailed ==> known.cleanups > old(known).cleanups
      ensures known.commits == old(known).commits && known.committed == old(known).committed
      ensures known.starts == old(known).starts
      ensures world.Exactly? && DropCapture in world.failing ==>
                state == CleanupFailed && absences > old(absences) && host.live == old(host.live)
    {
      state, lastError := Stopping, false;
      var cleaned := Deactivate();
      if !cleaned {
        MarkCleanupFailed(prepared);
        return false;
      }
      ok := CoreStop();
      if ok {
        state, healthRunning, lastError, prepared := Stopped, false, false, None;
      } else {
        state, lastError := Failed, true;
      }
    }

    method StopLocked(force: bool) returns (ok: bool)
      requires Valid() && Orderly() && (state == Stopped ==> StateMeaning())
      modifies this, host
      ensures Valid() && Orderly() && host.OnlyExits() && old(trace) <= trace && guardInProgress == old(guardInProgress)
      ensures ok ==> state == Stopped && StateMeaning()
      ensures ok && (force || old(state) != Stopped) ==>
                known.cleanups > old(known).cleanups && !healthRunning && host.live == map[]
      ensures !ok && complete ==> state in {Failed, CleanupFailed} && StateMeaning()
      ensures !ok && complete ==> known.cleanups >= old(known).cleanups
      ensures state == CleanupFailed && complete ==> prepared == old(prepared)
      ensures !complete ==> !ok && state == old(state) && prepared == old(prepared) && lastError == old(lastError)
      ensures !complete ==> trace == old(trace) && host.running == old(host.running)
      ensures CleanupHeld()
      ensures complete && (force || old(state) != Stopped) ==> TornDown()
      ensures !complete || (!force && old(state) == Stopped) ==>
                trace == old(trace) && state == old(state) && host.live == old(host.live)
      ensures !ok ==> healthRunning == old(healthRunning)
      ensures complete && Helpful() ==> ok
      ensures known.commits == old(known).commits && known.committed == old(known).committed
      ensures known.starts == old(known).starts
      ensures world.Exactly? && DropCapture in world.failing && complete && (force || old(state) != Stopped) ==>
                !ok && state == CleanupFailed && absences > old(absences) && host.live == old(host.live)
    {
      if !complete { return false; }
      if !force && state == Stopped && prepared.None? { return true; }
      ok := TearDown();
    }

    method Stop() returns (ok: bool, ghost locked: bool)
      requires AtRest()
      modifies this, host, guard
      ensures AtRest() && CleanupHeld() && old(trace) <= trace && host.OnlyExits()
      ensures state in {old(state), Stopped, Failed, CleanupFailed}
      ensures world.Fixes(TakeLock, locked)
      ensures Helpful() && complete && locked ==> state == Stopped && ok
      ensures guard != null && world.Exactly? && DropGuard !in world.failing
              && !old(guard.installed || guard.lastError) ==>
                !guard.installed && !guard.lastError
      ensures if locked && complete && old(state) != Stopped then TornDown() && state != Running
              else trace == old(trace) && state == old(state)
      ensures ok ==> state == Stopped && (guard != null && old(guard.active || guard.lastError) ==> !guard.installed)
    {
      var entered := Attempt(world, TakeLock);
      locked := entered;
      if !entered { return false, false; }
      ok := StopLocked(false);
      if guard != null && (guard.active || guard.lastError) {
        var removed := guard.Remove(world);
        ok := ok && removed;
      }
    }

    // Firewall recovery: the same teardown even when nothing seems to run.
    method CleanupFirewall() returns (ok: bool)
      requires AtRest()
      modifies this, host, guard
      ensures AtRest() && CleanupHeld() && old(trace) <= trace && host.OnlyExits()
      ensures world.Exactly? && TakeLock in world.failing ==> !ok && trace == old(trace) && state == old(state)
      ensures Helpful() && complete && TakeLock !in world.failing ==> state == Stopped && ok
      ensures ok ==> state == Stopped && known.cleanups > old(known).cleanups && (guard != null ==> !guard.installed)
    {
      var locked := Attempt(world, TakeLock);
      var cancelled := Cancelled();
      if !locked || cancelled { return false; }
      ok := StopLocked(true);
      if guard != null {
        var removed := guard.Remove(world);
        ok := ok && removed;
      }
    }

    // ------------------------------------------------ guarded replacement

    method BeginGuard(panel: bool) returns (ok: bool, begun: bool)
      requires guard != null ==> guard.Accounted()
      requires !guardInProgress
      modifies this`guardInProgress, guard
      ensures begun == guardInProgress && (begun ==> ok && panel && guard != null)
      ensures !begun && guard != null ==> guard.Accounted()
      ensures ok ==> (begun <==> panel && guard != null && guard.enabled)
      ensures guard != null ==> guard.enabled == old(guard.enabled)
      ensures Helpful() ==> ok
    {
      if !panel || guard == null { return true, false; }
      ok, begun := guard.Begin(world);
      if begun { guardInProgress := true; }
    }

    method FinishGuard(begun: bool) returns (ok: bool)
      requires begun ==> guard != null
      requires !begun && guard != null ==> guard.Accounted()
      modifies this`guardInProgress, guard
      ensures guard != null ==> guard.Accounted()
      ensures begun ==> !guardInProgress && (ok <==> !guard.lastError) && (ok ==> !guard.installed)
      ensures Helpful() ==> ok
      ensures !begun ==> ok && guardInProgress == old(guardInProgress)
    {
      if !begun { return true; }
      ok := guard.Remove(world);
      guardInProgress := false;
    }

    // Brings the clone of the previous generation back, unless the failed one
    // may still own the core or the dataplane. Tells whether the core took it.
    method RestoreAfterFailure(clone: Generation) returns (ok: bool, accepted: bool)
      requires Valid() && Orderly() && host.Fresh(clone)
      requires state in {Stopped, Failed, CleanupFailed} && StateMeaning()
      requires guardInProgress ==> guard != null
      modifies this, host
      ensures Valid() && Orderly() && StateMeaning() && old(trace) <= trace && guardInProgress == old(guardInProgress)
      ensures host.lost == old(host.lost)
      ensures ok ==> IsUp(clone) && (guardInProgress ==> known.verified)
      ensures !ok ==> state in {Stopped, Failed, CleanupFailed}
      ensures old(state) == CleanupFailed ==> state == CleanupFailed
      ensures accepted <==> clone.runtime in host.accepted
      ensures host.accepted == old(host.accepted) + (if accepted then {clone.runtime} else {})
      ensures host.discarded <= old(host.discarded) + (if accepted then {} else {clone.runtime})
      ensures old(host.discarded) <= host.discarded
      ensures host.issued == old(host.issued)
      ensures accepted ==> Disposed(clone.runtime)
      ensures !accepted ==> host.Owned() <= old(host.Owned())
      ensures forall r | r in host.runtimes ::
                r in host.Owned() || r == clone.runtime || (r in old(host.runtimes) && r !in old(host.Owned()))
      ensures known.commits == old(known).commits && known.committed == old(known).committed
      ensures known.cleanups >= old(known).cleanups
      // The clone is tried exactly when nothing of the failed one may be left.
      ensures if old(state) != CleanupFailed && !old(healthRunning) then
                && |trace| > |old(trace)| && trace[|old(trace)|] == Event.CoreStart(clone, accepted)
                && known.starts == old(known).starts + [clone]
              else trace == old(trace) && state == old(state) && healthRunning == old(healthRunning)
      ensures old(CanRestart()) && clone.engine in host.backends ==> ok
    {
      if state == CleanupFailed || healthRunning { return false, false; }
      ok, accepted := StartPrepared(clone);
    }

    // The commit of a switch is for this target, and can be made.
    ghost predicate Fits(c: ProfileSwitch.Commit, target: Generation)
      reads switcher.disk
    {
      Committable(switcher.disk.files, c) && (c.SelectProfile? ==> target.revision == c.t.newRevision)
    }

    // The commit will be made: the disk takes its writes and the source is as it
    // was.
    ghost predicate WillCommit(c: ProfileSwitch.Commit)
      reads switcher.disk
    {
      c.NoCommit? || (switcher.disk.Calm() && Current(switcher.disk.files, c))
    }

    // The files are as the commit left them, committed if and only if it
    // succeeded, with at most the start of the target recorded if that is up.
    twostate predicate DiskFollows(c: ProfileSwitch.Commit, target: Generation, compensated: bool)
      reads this, switcher.disk
    {
      var committed := known.committed > old(known).committed;
      && (old(switcher.disk.Calm()) ==> switcher.disk.Calm() && compensated)
      && (known.commits == old(known).commits && !IsUp(target) ==> switcher.disk.files == old(switcher.disk.files))
      && ReplacementOutcome(c, target, old(switcher.disk.files), switcher.disk.files, old(switcher.disk.Calm()),
                            IsUp(target), committed, compensated)
    }

    // The files are as before, apart from the recorded start of what runs now.
    twostate predicate OnlyStartRecorded()
      reads this, switcher.disk
    {
      || switcher.disk.files == old(switcher.disk.files)
      || (state == Running && prepared.Some?
          && StartRecorded(old(switcher.disk.files), switcher.disk.files, prepared.value))
    }

    // Commits, if there is something to commit, and records the start of the target.
    method CommitTarget(target: Generation, c: ProfileSwitch.Commit) returns (ok: bool, ghost compensated: bool)
      requires Recorded() && Fits(c, target)
      modifies this`trace, this`known, switcher.disk
      ensures Recorded() && old(trace) <= trace && (c.NoCommit? ==> ok)
      ensures known == if c.NoCommit? then old(known) else Step(old(known), Event.Commit(ok))
      ensures old(switcher.disk.Calm()) ==> switcher.disk.Calm() && compensated
      ensures old(WillCommit(c)) ==> ok
      ensures ReplacementOutcome(c, target, old(switcher.disk.files), switcher.disk.files, old(switcher.disk.Calm()),
                                 ok, ok && !c.NoCommit?, compensated)
    {
      ok, compensated := true, true;
      if !c.NoCommit? { ok, compensated := Commit(c); }
      if ok {
        var recorded := switcher.RecordStart(target);
      }
    }

    // The generations a replacement offered to the core: the target, and after it
    // the clone of the old one unless the target is up, its cleanup is unresolved
    // or its process may still run.
    twostate predicate Offered(target: Generation, rollback: Generation)
      reads this
    {
      var before := old(known).starts;
      && (known.starts == before || known.starts == before + [target] || known.starts == before + [target] + [rollback])
      && (IsUp(target) ==> known.starts == before + [target])
      && (known.starts == before + [target] && !IsUp(target) ==> state == CleanupFailed || healthRunning)
    }

    // The target is up and not committed: stop it and, once it is stopped, bring
    // the clone back.
    method Revert(target: Generation, rollback: Generation) returns (consumed: bool)
      requires Valid() && Orderly() && IsUp(target) && complete && healthRunning
      requires target.runtime in host.accepted && host.Owned() <= {target.runtime}
      requires host.Fresh(rollback) && target.runtime != rollback.runtime
      requires guardInProgress ==> guard != null
      modifies this, host
      ensures Valid() && Orderly() && StateMeaning() && old(trace) <= trace && guardInProgress == old(guardInProgress)
      ensures host.lost == old(host.lost)
      ensures Swapped(target, rollback, false) && !IsUp(target)
      ensures known.commits == old(known).commits && known.committed == old(known).committed
      ensures known.starts in {old(known).starts, old(known).starts + [rollback]}
      ensures known.starts == old(known).starts ==> state == CleanupFailed || healthRunning
      ensures Helpful() && rollback.engine in host.backends ==> state == Running
      ensures consumed <==> rollback.runtime in host.accepted
      ensures consumed ==> Disposed(rollback.runtime) && rollback.runtime !in host.discarded
      ensures !consumed ==> rollback.runtime !in host.Owned()
      ensures rollback.runtime < host.issued
      ensures TidyApart(rollback.runtime)
      ensures old(Disposed(target.runtime)) && state != CleanupFailed ==> Disposed(target.runtime)
    {
      consumed := false;
      var stopped := StopLocked(false);
      if stopped {
        var restored: bool;
        restored, consumed := RestoreAfterFailure(rollback);
      }
    }

    // The target is up: commit it, or stop it again and bring the clone back.
    method CommitOrRestore(target: Generation, rollback: Generation, c: ProfileSwitch.Commit)
      returns (ok: bool, consumed: bool, ghost compensated: bool)
      requires Valid() && Orderly() && IsUp(target) && complete && Fits(c, target)
      requires target.runtime in host.accepted && host.Owned() <= {target.runtime}
      requires host.Fresh(rollback) && target.runtime != rollback.runtime
      requires guardInProgress ==> guard != null && known.verified
      requires healthRunning
      modifies this, host, switcher.disk
      ensures Valid() && Orderly() && StateMeaning() && old(trace) <= trace && guardInProgress == old(guardInProgress)
      ensures host.lost == old(host.lost)
      ensures Swapped(target, rollback, ok)
      ensures known.committed == old(known).committed + if ok && !c.NoCommit? then 1 else 0
      ensures known.commits == old(known).commits + if c.NoCommit? then 0 else 1
      ensures old(WillCommit(c)) ==> ok
      ensures DiskFollows(c, target, compensated)
      ensures known.starts == old(known).starts || (!ok && known.starts == old(known).starts + [rollback])
      ensures !ok && known.starts == old(known).starts ==> state == CleanupFailed || healthRunning
      ensures Helpful() && rollback.engine in host.backends ==> state == Running
      ensures consumed <==> rollback.runtime in host.accepted
      ensures consumed ==> Disposed(rollback.runtime) && rollback.runtime !in host.discarded
      ensures !consumed ==> rollback.runtime !in host.Owned()
      ensures rollback.runtime < host.issued
      ensures TidyApart(rollback.runtime)
      ensures old(Disposed(target.runtime)) && state != CleanupFailed ==> Disposed(target.runtime)
    {
      consumed := false;
      ok, compensated := CommitTarget(target, c);
      if !ok { consumed := Revert(target, rollback); }
    }

    // The core is stopped: start the target and commit it, falling back to the
    // clone of the previous generation when either fails.
    method StartAndCommit(target: Generation, rollback: Generation, c: ProfileSwitch.Commit)
      returns (ok: bool, consumed: bool, ghost compensated: bool)
      requires Valid() && Orderly() && StateMeaning() && state == Stopped && complete && Fits(c, target)
      requires host.Fresh(target) && host.Fresh(rollback) && target.runtime != rollback.runtime
      requires guardInProgress ==> guard != null
      modifies this, host, switcher.disk
      ensures Valid() && Orderly() && StateMeaning() && old(trace) <= trace && guardInProgress == old(guardInProgress)
      ensures host.lost == old(host.lost)
      ensures Swapped(target, rollback, ok)
      ensures known.committed == old(known).committed + if ok && !c.NoCommit? then 1 else 0
      ensures known.commits <= old(known).commits + if c.NoCommit? then 0 else 1
      ensures SwappedRuntimes(target, rollback, consumed)
      ensures old(WillCommit(c)) && Helpful() && target.engine in host.backends ==> ok
      ensures DiskFollows(c, target, compensated)
      ensures Offered(target, rollback)
      ensures Helpful() && rollback.engine in host.backends ==> state == Running
    {
      var accepted, restored: bool;
      compensated := true;
      ok, accepted := StartPrepared(target);
      if !ok {
        restored, consumed := RestoreAfterFailure(rollback);
        return;
      }
      ok, consumed, compensated := CommitOrRestore(target, rollback, c);
    }

    // Either the target is up, or whatever runs is the clone; a guarded swap
    // leaves nothing running that the guard did not verify.
    ghost predicate Swapped(target: Generation, rollback: Generation, ok: bool)
      reads this
    {
      && (ok ==> IsUp(target))
      && (!ok && state == Running ==> IsUp(rollback))
      && (guardInProgress && state == Running ==> known.verified)
    }

    twostate predicate SwappedRuntimes(target: Generation, rollback: Generation, consumed: bool)
      reads this, host
    {
      && (state != CleanupFailed ==> Disposed(target.runtime) && TidyApart(rollback.runtime))
      && (consumed <==> rollback.runtime in host.accepted)
      && (consumed ==> Disposed(rollback.runtime) && rollback.runtime !in host.discarded)
      && (!consumed ==> rollback.runtime !in host.Owned())
      && rollback.runtime < host.issued
    }

    // From a running generation to the target.
    method SwapLive(target: Generation, rollback: Generation, c: ProfileSwitch.Commit)
      returns (ok: bool, consumed: bool, ghost compensated: bool)
      requires Valid() && Orderly() && StateMeaning() && state == Running && complete && Fits(c, target)
      requires host.Fresh(target) && host.Fresh(rollback) && target.runtime != rollback.runtime
      requires guardInProgress ==> guard != null
      modifies this, host, switcher.disk
      ensures Valid() && Orderly() && StateMeaning() && old(trace) <= trace && guardInProgress == old(guardInProgress)
      ensures host.lost == old(host.lost)
      ensures Swapped(target, rollback, ok)
      ensures known.committed == old(known).committed + if ok && !c.NoCommit? then 1 else 0
      ensures known.commits <= old(known).commits + if c.NoCommit? then 0 else 1
      ensures SwappedRuntimes(target, rollback, consumed)
      ensures old(WillCommit(c)) && Helpful() && target.engine in host.backends ==> ok
      ensures DiskFollows(c, target, compensated)
      ensures Offered(target, rollback)
      ensures Helpful() && rollback.engine in host.backends ==> state == Running
    {
      var stopped := StopLocked(false);
      if !stopped {
        host.Discard(target);
        return false, false, true;
      }
      ok, consumed, compensated := StartAndCommit(target, rollback, c);
    }

    // A panel request, with the restart guard switched on.
    ghost predicate Protected(panel: bool)
      reads guard
    {
      panel && guard != null && guard.enabled
    }

    // The swap under the restart guard of a panel request. The guard is removed,
    // or its failed removal recorded, on every path.
    method GuardedSwap(panel: bool, target: Generation, rollback: Generation, c: ProfileSwitch.Commit)
      returns (ok: bool, consumed: bool, ghost guarded: bool, ghost compensated: bool)
      requires AtRest() && state == Running && complete && Fits(c, target)
      requires host.Fresh(target) && host.Fresh(rollback) && target.runtime != rollback.runtime
      modifies this, host, guard, switcher.disk
      ensures AtRest() && old(trace) <= trace
      ensures host.lost == old(host.lost)
      ensures ok ==> IsUp(target)
      ensures state == Running && !IsUp(target) ==> IsUp(rollback) || prepared == old(prepared)
      ensures known.committed == old(known).committed + if IsUp(target) && !c.NoCommit? then 1 else 0
      ensures known.commits <= old(known).commits + if c.NoCommit? then 0 else 1
      ensures IsUp(target) && !ok ==> guarded && guard != null && guard.lastError
      ensures guarded && state == Running ==> known.verified
      ensures guarded && ok ==> guard != null && !guard.installed && !guard.lastError
      ensures old(Protected(panel)) && !guarded ==> !ok && known.starts == old(known).starts
      ensures guarded ==> guard != null && (guard.installed ==> guard.lastError)
      ensures SwappedRuntimes(target, rollback, consumed)
      ensures old(WillCommit(c)) && Helpful() && target.engine in host.backends ==> IsUp(target) && ok
      ensures DiskFollows(c, target, compensated)
      ensures Offered(target, rollback)
      ensures Helpful() && rollback.engine in host.backends ==> state == Running
    {
      var begunOk, begun := BeginGuard(panel);
      guarded := begun;
      if !begunOk {
        host.Discard(target);
        return false, false, false, true;
      }
      ok, consumed, compensated := SwapLive(target, rollback, c);
      var finished := FinishGuard(begun);
      ok := ok && finished;
    }

    // Nothing runs: the prepared runtime is not needed, only the commit is made,
    // and not even that while an operation is unresolved.
    method CommitStopped(target: Generation, c: ProfileSwitch.Commit) returns (ok: bool, ghost compensated: bool)
      requires AtRest() && host.Fresh(target) && Fits(c, target) && state != Running
      modifies this`trace, this`known, host, switcher.disk
      ensures AtRest() && old(trace) <= trace && host.live == old(host.live)
      ensures host.lost == old(host.lost)
      ensures DiskFollows(c, target, compensated)
      ensures known.capture == old(known).capture && known.cleanups == old(known).cleanups
      ensures known.commits <= old(known).commits + if c.NoCommit? then 0 else 1
      ensures known.committed == old(known).committed + if ok && !c.NoCommit? then 1 else 0
      ensures Disposed(target.runtime) && Tidy()
      ensures ok ==> state != CleanupFailed
      ensures old(WillCommit(c)) ==> (ok <==> state != CleanupFailed)
      ensures known.starts == old(known).starts
    {
      host.Discard(target);
      if state in {CleanupFailed, Starting, Stopping} { return false, true; }
      ok, compensated := true, true;
      if !c.NoCommit? { ok, compensated := Commit(c); }
    }

    // A replacement of the running generation in which no call fails.
    ghost predicate Replaceable(target: Generation, c: ProfileSwitch.Commit)
      reads this, host, switcher.disk
    {
      && Helpful() && complete && state == Running && WillCommit(c)
      && target.engine in host.backends && prepared.Some? && prepared.value.runtime in host.runtimes
    }

    // The guarded swap by way of the clone, which is removed if the core never
    // took it.
    method SwapByClone(panel: bool, target: Generation, rollback: Generation, c: ProfileSwitch.Commit)
      returns (ok: bool, ghost guarded: bool, ghost compensated: bool)
      requires AtRest() && state == Running && complete && Fits(c, target)
      requires host.Fresh(target) && host.Fresh(rollback) && target.runtime != rollback.runtime
      modifies this, host, guard, switcher.disk
      ensures AtRest() && old(trace) <= trace
      ensures host.lost == old(host.lost)
      ensures ok ==> IsUp(target)
      ensures state == Running && !IsUp(target) ==> IsUp(rollback) || prepared == old(prepared)
      ensures known.committed == old(known).committed + if IsUp(target) && !c.NoCommit? then 1 else 0
      ensures known.commits <= old(known).commits + if c.NoCommit? then 0 else 1
      ensures IsUp(target) && !ok ==> guarded && guard != null && guard.lastError
      ensures guarded && state == Running ==> known.verified
      ensures guarded && ok ==> guard != null && !guard.installed && !guard.lastError
      ensures old(Protected(panel)) && !guarded ==> known.starts == old(known).starts
      ensures guarded ==> guard != null && (guard.installed ==> guard.lastError)
      ensures old(WillCommit(c)) && Helpful() && target.engine in host.backends ==> IsUp(target) && ok
      ensures DiskFollows(c, target, compensated)
      ensures Offered(target, rollback)
      ensures Helpful() && rollback.engine in host.backends ==> state == Running
      ensures state != CleanupFailed ==> Disposed(target.runtime) && TidyApart(rollback.runtime)
      ensures ReturnedOrTaken(rollback.runtime)
    {
      var consumed: bool;
      ok, consumed, guarded, compensated := GuardedSwap(panel, target, rollback, c);
      if !consumed {
        host.Discard(rollback);
      }
    }

    // Replaces a running generation by way of a clone of its runtime.
    method ReplaceRunning(panel: bool, target: Generation, c: ProfileSwitch.Commit)
      returns (ok: bool, ghost clone: Option<Generation>, ghost guarded: bool, ghost compensated: bool)
      requires AtRest() && host.Fresh(target) && Fits(c, target) && state == Running && complete
      modifies this, host, guard, switcher.disk
      ensures AtRest() && old(trace) <= trace
      ensures host.lost == old(host.lost)
      ensures old(Replaceable(target, c)) ==> IsUp(target) && ok
      ensures DiskFollows(c, target, compensated)
      ensures if clone.Some? then Offered(target, clone.value) else known.starts == old(known).starts
      ensures Helpful() && old(prepared).value.engine in host.backends ==> state == Running
      ensures known.commits <= old(known).commits + if c.NoCommit? then 0 else 1
      ensures ok ==> IsUp(target) && clone.Some?
      ensures known.committed == old(known).committed + if IsUp(target) && !c.NoCommit? then 1 else 0
      ensures state == Running && !IsUp(target) ==> prepared.value.CloneOf(old(prepared).value)
      ensures IsUp(target) && !ok ==> guarded && guard != null && guard.lastError
      ensures guarded && state == Running ==> known.verified
      ensures guarded && ok ==> guard != null && !guard.installed && !guard.lastError
      ensures old(Protected(panel)) && !guarded ==> known.starts == old(known).starts
      ensures guarded ==> guard != null && (guard.installed ==> guard.lastError)
      ensures state != CleanupFailed ==> Disposed(target.runtime) && Tidy()
      ensures clone.Some? ==> ReturnedOrTaken(clone.value.runtime)
    {
      guarded, ok, compensated := false, false, true;
      var rollback := host.Clone(prepared.value, world);
      clone := rollback;
      if rollback.None? {
        host.Discard(target);
        return;
      }
      ok, guarded, compensated := SwapByClone(panel, target, rollback.value, c);
    }

    // Replaces the live generation. The target was prepared beforehand; commit
    // persists the selection only once the target is fully up, and a failure at
    // any later point brings back a clone of the previous runtime.
    method ReplaceLocked(panel: bool, target: Generation, c: ProfileSwitch.Commit)
      returns (changed: bool, ok: bool, ghost clone: Option<Generation>, ghost guarded: bool, ghost compensated: bool)
      requires AtRest() && host.Fresh(target) && Fits(c, target)
      modifies this, host, guard, switcher.disk
      ensures AtRest() && old(trace) <= trace && CleanupHeld()
      ensures host.lost == old(host.lost)
      ensures old(Replaceable(target, c)) ==> IsUp(target) && ok
      ensures old(state) != Running && complete && old(WillCommit(c)) ==> (ok <==> state != CleanupFailed)
      ensures DiskFollows(c, target, compensated)
      ensures if clone.Some? then Offered(target, clone.value) else known.starts == old(known).starts
      ensures old(state) == Running && Helpful() && old(prepared).value.engine in host.backends ==> state == Running
      // Nothing running: at most the selection is committed.
      ensures changed <==> complete && old(state) == Running
      ensures old(state) != Running ==>
                state == old(state) && prepared == old(prepared) && known.capture == old(known).capture
      // From running: the target is up and the selection committed, or neither;
      // anything else that runs is the previous configuration.
      ensures known.commits <= old(known).commits + if c.NoCommit? then 0 else 1
      ensures ok && old(state) == Running ==> IsUp(target) && clone.Some?
      ensures ok ==> known.committed == old(known).committed + if c.NoCommit? then 0 else 1
      ensures old(state) == Running && state == Running ==>
                || (IsUp(target) && known.committed == old(known).committed + if c.NoCommit? then 0 else 1)
                || (!IsUp(target) && known.committed == old(known).committed
                    && prepared.value.CloneOf(old(prepared).value))
      ensures old(state) == Running && state != Running ==> known.committed == old(known).committed
      ensures old(state) == Running && IsUp(target) && !ok ==> guarded && guard != null && guard.lastError
      // A guarded replacement ends verified, its guard removed or on record.
      ensures guarded && state == Running ==> known.verified
      ensures guarded && ok ==> guard != null && !guard.installed && !guard.lastError
      ensures old(Protected(panel)) && !guarded ==> known.starts == old(known).starts
      ensures guarded ==> guard != null && (guard.installed ==> guard.lastError)
      // Runtimes: the target is gone or owned unless cleanup is unresolved; the
      // clone is removed exactly when the core never accepted it.
      ensures state != CleanupFailed ==> Disposed(target.runtime) && Tidy()
      ensures clone.Some? ==> ReturnedOrTaken(clone.value.runtime)
    {
      clone, guarded, ok, changed, compensated := None, false, false, false, true;
      if !complete {
        host.Discard(target);
        return;
      }
      if state != Running {
        ok, compensated := CommitStopped(target, c);
        return;
      }
      changed := true;
      ok, clone, guarded, compensated := ReplaceRunning(panel, target, c);
    }

    // Switches the selected profile. A switch without a commit is refused.
    method SwitchPrepared(panel: bool, target: Generation, c: ProfileSwitch.Commit)
      returns (changed: bool, ok: bool, ghost clone: Option<Generation>, ghost guarded: bool, ghost compensated: bool)
      requires AtRest() && host.Fresh(target) && Fits(c, target)
      modifies this, host, guard, switcher.disk
      ensures AtRest() && old(trace) <= trace && CleanupHeld()
      ensures host.lost == old(host.lost)
      ensures old(Replaceable(target, c)) && !c.NoCommit? && TakeLock !in world.failing ==>
                IsUp(target) && ok
      ensures old(state) != Running && complete && old(WillCommit(c)) && !c.NoCommit? && world.Exactly?
              && TakeLock !in world.failing ==>
                (ok <==> state != CleanupFailed)
      ensures DiskFollows(c, target, compensated)
      ensures if clone.Some? then Offered(target, clone.value) else known.starts == old(known).starts
      ensures old(state) == Running && Helpful() && old(prepared).value.engine in host.backends ==> state == Running
      ensures changed ==> old(state) == Running
      ensures complete && (ok || known.starts != old(known).starts) ==> (changed <==> old(state) == Running)
      ensures old(state) != Running ==> state == old(state) && prepared == old(prepared)
      ensures ok ==> !c.NoCommit? && known.committed == old(known).committed + 1
      ensures ok && old(state) == Running ==> IsUp(target)
      ensures known.commits <= old(known).commits + 1
      ensures old(state) == Running ==>
                || (IsUp(target) && known.committed == old(known).committed + 1)
                || (!IsUp(target) && known.committed == old(known).committed
                    && (state == Running ==> prepared.value.CloneOf(old(prepared).value)))
      ensures old(state) == Running && IsUp(target) && !ok ==> guarded && guard != null && guard.lastError
      ensures guarded && state == Running ==> known.verified
      ensures guarded && ok ==> guard != null && !guard.installed && !guard.lastError
      ensures old(Protected(panel)) && !guarded ==> known.starts == old(known).starts
      ensures state != CleanupFailed ==> Disposed(target.runtime) && Tidy()
      ensures clone.Some? ==> ReturnedOrTaken(clone.value.runtime)
      ensures world.Exactly? && TakeLock in world.failing ==> !ok && switcher.disk.files == old(switcher.disk.files)
    {
      var locked := Attempt(world, TakeLock);
      if c.NoCommit? || !locked {
        host.Discard(target);
        return false, false, None, false, true;
      }
      changed, ok, clone, guarded, compensated := ReplaceLocked(panel, target, c);
    }

    // Applies a saved configuration to the running core; the selection stays.
    method ReconfigurePrepared(panel: bool, target: Generation, c: ProfileSwitch.Commit)
      returns (changed: bool, ok: bool, ghost clone: Option<Generation>, ghost guarded: bool, ghost compensated: bool)
      requires AtRest() && host.Fresh(target) && Fits(c, target)
      modifies this, host, guard, switcher.disk
      ensures AtRest() && old(trace) <= trace && CleanupHeld()
      ensures host.lost == old(host.lost)
      ensures old(Replaceable(target, c)) && TakeLock !in world.failing ==>
                IsUp(target) && ok
      ensures old(state) != Running && complete && old(WillCommit(c)) && world.Exactly?
              && TakeLock !in world.failing ==>
                (ok <==> state != CleanupFailed)
      ensures world.Exactly? && TakeLock in world.failing ==>
                !ok && trace == old(trace) && switcher.disk.files == old(switcher.disk.files)
      ensures complete && (ok || known.starts != old(known).starts) ==> (changed <==> old(state) == Running)
      ensures DiskFollows(c, target, compensated)
      ensures if clone.Some? then Offered(target, clone.value) else known.starts == old(known).starts
      ensures old(state) == Running && Helpful() && old(prepared).value.engine in host.backends ==> state == Running
      ensures old(state) != Running ==> state == old(state) && prepared == old(prepared) && !changed
      ensures ok && old(state) == Running ==> IsUp(target)
      ensures old(state) == Running && state == Running && !IsUp(target) ==> prepared.value.CloneOf(old(prepared).value)
      ensures state != CleanupFailed ==> Disposed(target.runtime) && Tidy()
      ensures guarded && state == Running ==> known.verified
      ensures guarded && ok ==> guard != null && !guard.installed && !guard.lastError
      ensures old(Protected(panel)) && !guarded ==> known.starts == old(known).starts
    {
      var locked := Attempt(world, TakeLock);
      if !locked {
        host.Discard(target);
        return false, false, None, false, true;
      }
      changed, ok, clone, guarded, compensated := ReplaceLocked(panel, target, c);
    }

    // A guarded restart validates the new generation before any teardown.
    method RestartPreparedLocked() returns (ok: bool)
      requires AtRest()
      modifies this, host, guard, switcher.disk
      ensures AtRest() && old(trace) <= trace && CleanupHeld() && OnlyStartRecorded()
      ensures host.lost == old(host.lost)
      ensures old(state) == Running && ok ==> state == Running
      ensures old(Renewable()) ==> ok && Restarted()
      ensures old(state) == Running && state == Running && !ok && guard != null && !guard.lastError ==>
                prepared.value.CloneOf(old(prepared).value)
      ensures state != CleanupFailed ==> Tidy()
      ensures old(Protected(true) && state == Running) && state == Running && known.starts != old(known).starts ==>
                known.verified
      ensures ok && old(state) == Running ==> Restarted()
    {
      if !complete { return false; }
      var target := PrepareActive();
      if target.None? { return false; }
      var changed: bool;
      ghost var clone, guarded, compensated;
      changed, ok, clone, guarded, compensated := ReplaceLocked(true, target.value, NoCommit);
    }

    method RestartLocked(panel: bool) returns (ok: bool)
      requires AtRest()
      modifies this, host, guard, switcher.disk
      ensures AtRest() && old(trace) <= trace && CleanupHeld()
      ensures host.lost == old(host.lost)
      ensures OnlyStartRecorded()
      ensures ok && old(state) == Running ==> state == Running
      ensures old(Startable()) && (old(Renewable()) || !old(Protected(panel))) ==> ok
      ensures state != CleanupFailed ==> Tidy()
      ensures old(Protected(panel) && state == Running) && state == Running && known.starts != old(known).starts ==>
                known.verified
      ensures ok ==> Restarted()
    {
      if panel && guard != null && state == Running {
        var readable, enabled := guard.Enabled(world);
        if !readable { return false; }
        if enabled {
          ok := RestartPreparedLocked();
          return;
        }
      }
      ok := StopLocked(false);
      if ok {
        ok := StartLocked();
      }
    }

    method Restart(panel: bool) returns (ok: bool)
      requires AtRest()
      modifies this, host, guard, switcher.disk
      ensures AtRest() && old(trace) <= trace && CleanupHeld()
      ensures host.lost == old(host.lost)
      ensures OnlyStartRecorded()
      ensures ok && old(state) == Running ==> state == Running
      ensures old(Startable()) && TakeLock !in world.failing && (old(Renewable()) || !old(Protected(panel))) ==> ok
      ensures world.Exactly? && TakeLock in world.failing ==> !ok && trace == old(trace) && state == old(state)
      ensures state != CleanupFailed ==> Tidy()
      ensures old(Protected(panel) && state == Running) && state == Running && known.starts != old(known).starts ==>
                known.verified
      ensures ok ==> Restarted()
    {
      var locked := Attempt(world, TakeLock);
      if !locked { return false; }
      ok := RestartLocked(panel);
    }

    // Never starts a core that was not running when the lock was taken.
    method RestartIfRunning(panel: bool) returns (restarted: bool, ok: bool)
      requires AtRest()
      modifies this, host, guard, switcher.disk
      ensures AtRest() && old(trace) <= trace && CleanupHeld()
      ensures host.lost == old(host.lost)
      ensures OnlyStartRecorded()
      ensures old(state) != Running ==>
                !restarted && state == old(state) && trace == old(trace) && host.live == old(host.live)
      ensures restarted && ok ==> state == Running
      ensures old(Startable()) && TakeLock !in world.failing && (old(Renewable()) || !old(Protected(panel))) ==>
                ok && (restarted <==> old(state) == Running)
      ensures world.Exactly? && TakeLock in world.failing ==>
                !ok && !restarted && trace == old(trace) && state == old(state)
      ensures state != CleanupFailed ==> Tidy()
      ensures old(Protected(panel) && state == Running) && state == Running && known.starts != old(known).starts ==>
                known.verified
      ensures restarted && ok ==> Restarted()
    {
      var locked := Attempt(world, TakeLock);
      if !locked { return false, false; }
      if state != Running { return false, true; }
      ok := RestartLocked(panel);
      restarted := true;
    }

    // ------------------------------------------- taking over a live core

    // A verified handoff: the predecessor's dataplane is taken as it stands.
    method Adopt(g: Generation, health: Health, pid: int) returns (ok: bool)
      requires AtRest() && g.runtime in host.accepted
      modifies this
      ensures AtRest() && old(trace) <= trace
      ensures ok ==> IsUp(g)
      ensures !ok ==> state == old(state) && prepared == old(prepared) && trace == old(trace)
      ensures ok <==> complete && health.running && pid > 1
      ensures absences == old(absences)
    {
      if !complete || !health.running || pid <= 1 { return false; }
      Note(Handoff(g));
      state, prepared, healthRunning, lastError := Running, Some(g), true, false;
      ok := true;
    }

    // A core that outlived a crashed manager: its dataplane is rebuilt before
    // it counts as running. `absent` tells that the reported error reads as
    // not-exist.
    method RecoverAdopted(g: Generation, health: Health, pid: int) returns (ok: bool, absent: bool)
      requires AtRest() && g.runtime in host.accepted
      modifies this, host, switcher.disk
      ensures AtRest() && old(trace) <= trace && host.OnlyExits() && OnlyStartRecorded()
      ensures !ok ==> switcher.disk.files == old(switcher.disk.files)
      ensures old(switcher.disk.Calm()) ==> switcher.disk.Calm()
      ensures ok ==> StartNoted(old(switcher.disk.files), switcher.disk.files, g, old(switcher.disk.Calm()))
      ensures ok ==> IsUp(g)
      ensures !ok ==> state in {Failed, CleanupFailed}
                      || (state == old(state) && trace == old(trace) && prepared == old(prepared)
                          && host.live == old(host.live))
      ensures world.Exactly? && TakeLock in world.failing ==> !ok && trace == old(trace) && state == old(state)
      ensures !health.running || pid <= 1 || !complete ==> !ok
      ensures absent <==> !ok && absences > old(absences)
      ensures Helpful() && TakeLock !in world.failing && complete && health.running && pid > 1
              && old(host.live) != map[] ==>
                ok
    {
      var before := absences;
      var locked := Attempt(world, TakeLock);
      var cancelled := Cancelled();
      if !locked || !complete || cancelled { return false, false; }
      state, prepared, healthRunning, lastError := Starting, Some(g), health.running, false;
      if !health.running || pid <= 1 {
        Undo(Some(g));
        return false, absences > before;
      }
      ok := BringUp(g);
      if ok { var recorded := switcher.RecordStart(g); }
      absent := !ok && absences > before;
    }

    // A core that does not belong to the recovered selection: capture first,
    // then its process.
    method DiscardAdopted(g: Generation, health: Health) returns (ok: bool, absent: bool)
      requires AtRest() && g.runtime in host.accepted
      modifies this, host
      ensures AtRest() && old(trace) <= trace && host.OnlyExits()
      ensures ok ==> state == Stopped && host.live == map[] && known.cleanups > old(known).cleanups
      ensures !ok ==> state in {Failed, CleanupFailed} || (state == old(state) && trace == old(trace))
      ensures world.Exactly? && TakeLock in world.failing ==> !ok && trace == old(trace) && state == old(state)
      ensures absent <==> !ok && absences > old(absences)
      ensures world == Exactly({DropCapture}) && complete ==>
                !ok && absent && state == CleanupFailed && prepared == Some(g) && host.live == old(host.live)
    {
      var before := absences;
      var locked := Attempt(world, TakeLock);
      if !locked || !complete { return false, false; }
      state, prepared, healthRunning, lastError := Running, Some(g), health.running, false;
      ok := StopLocked(false);
      absent := !ok && absences > before;
    }

    // --------------------------------------------------------- monitoring

    // A recorded error was cleared, unless that failed again.
    twostate predicate GuardRetried()
      reads guard
    {
      guard != null && old(guard.lastError) && world.Exactly? && world.failing !! {TakeLock, DropGuard} ==>
        !guard.installed && !guard.lastError
    }

    method RetryGuardCleanup()
      requires AtRest()
      modifies guard
      ensures AtRest() && GuardRetried()
      ensures guard != null && !old(guard.lastError) ==> unchanged(guard)
      ensures world.Exactly? && TakeLock in world.failing ==> guard != null ==> unchanged(guard)
    {
      var locked := Attempt(world, TakeLock);
      if guard == null || !locked || !guard.lastError { return; }
      var removed := guard.Remove(world);
    }

    // A health status after which the monitor gives the running core up: it has
    // exited, or it was unready once too often.
    predicate Hopeless(h: Health, g: Generation, failures: nat) {
      || !h.running
      || ((h.failed || !h.controllerReady || (g.capture.dnsEnabled && !h.dnsReady))
          && failures + 1 >= controllerFailures)
    }

    // One tick. `failures` counts the consecutive unready probes of a running
    // core; reaching the limit removes capture just as an exit does. `polled` is
    // the status a running core gave, if the lock was free; `retried` tells that
    // an unresolved cleanup was tried again.
    method MonitorTick(failures: nat) returns (next: nat, ghost polled: Option<Health>, ghost retried: bool)
      requires AtRest()
      modifies this, host, guard
      ensures AtRest() && old(trace) <= trace && CleanupHeld() && host.OnlyExits()
      ensures state in {old(state), Stopped, Failed, CleanupFailed}
      ensures state == Running ==> prepared == old(prepared)
      ensures next <= failures + 1 && (next > failures ==> next < controllerFailures)
      ensures GuardRetried()
      // Without the lock, or with nothing to watch, nothing happens.
      ensures polled.None? && !retried ==> trace == old(trace) && state == old(state)
      ensures old(state) != Running ==> polled.None? && next == 0
      ensures old(state) == Running ==> world.Fixes(TakeLock, polled.Some?) && (polled.None? ==> next == failures)
      // Fail open: capture goes first.
      ensures polled.Some? && complete && Hopeless(polled.value, old(prepared).value, failures) ==>
                TornDown() && state != Running && next == 0
      ensures polled.Some? && !Hopeless(polled.value, old(prepared).value, failures) ==>
                && trace == old(trace) && state == Running && healthRunning
                && (ReadyFor(polled.value, old(prepared).value) ==> !lastError) && (polled.value.failed ==> lastError)
                && next == if ReadyFor(polled.value, old(prepared).value) then 0 else failures + 1
      // A status that claims to run is that of a live core.
      ensures polled.Some? && polled.value.running ==> old(host.live) != map[]
      ensures old(state) != CleanupFailed ==> !retried
      ensures old(state) == CleanupFailed ==> world.Fixes(TakeLock, retried)
      ensures retried && complete ==> TornDown() && state != Running
    {
      polled, retried := None, false;
      RetryGuardCleanup();
      if state == CleanupFailed {
        var stopped;
        stopped, retried := Stop();
        return 0, polled, retried;
      }
      if state != Running { return 0, polled, retried; }
      var locked := Attempt(world, TakeLock);
      if !locked { return failures, polled, retried; }
      var health := host.Poll(world);
      polled := Some(health);
      RecordHealth(health, !health.failed);
      if !health.running {
        var stopped := StopLocked(false);
        return 0, polled, retried;
      }
      if health.failed || !health.controllerReady || (prepared.value.capture.dnsEnabled && !health.dnsReady) {
        next := failures + 1;
        if next >= controllerFailures {
          var stopped := StopLocked(false);
          next := 0;
        }
        return;
      }
      next := 0;
    }

    // ------------------------------------------------- while a core runs

    // Reloads the selected profile into the running core. The manager removes
    // the runtime that core reads exactly when the swap could not be recorded.
    method ReloadLive(selected: Option<Generation>) returns (swap: Reloaded)
      requires AtRest()
      modifies this, host
      ensures AtRest() && trace == old(trace) && state == old(state)
      ensures swap.Swapped? ==>
                && prepared.Some? && host.live == map[prepared.value.engine := prepared.value]
                && old(prepared).Some? && prepared.value.capture == old(prepared).value.capture
      ensures !swap.Swapped? ==> prepared == old(prepared)
      ensures host.lost == old(host.lost) + if swap.SwappedUnrecorded? then host.Owned() else {}
      ensures swap.Refused? ==> host.live == old(host.live) || host.live == map[]
      ensures world.Exactly? && TakeLock in world.failing ==> swap.Refused? && host.live == old(host.live)
      ensures old(state) != Running ==> swap.Refused? && host.live == old(host.live)
    {
      var locked := Attempt(world, TakeLock);
      if !locked || state != Running { return Refused; }
      var tried;
      swap, tried := HotReload.SwapInto(host, prepared.value, selected, world);
      if swap.Swapped? { prepared, lastError := tried, false; }
      if swap.SwappedUnrecorded? { assert host.live[tried.value.engine] == tried.value; }
    }

    // A refresh is for a running Mihomo generation, in gateway mode.
    twostate predicate Refreshes(gatewayMode: bool)
      reads `state
    {
      gatewayMode && state == Running && old(prepared).Some? && old(prepared).value.engine.Mihomo?
    }

    // Replaces the two address sets.
    method RefreshLive(gatewayMode: bool, destinations: seq<nat>, endpoints: seq<nat>) returns (ok: bool)
      requires AtRest()
      modifies this`prepared
      ensures AtRest()
      ensures prepared == if ok && Refreshes(gatewayMode) then
                            Some(old(prepared).value.(capture := old(prepared).value.capture.(
                                   destinations := destinations, endpoints := endpoints)))
                          else old(prepared)
      ensures world.Exactly? && TakeLock in world.failing && gatewayMode ==> !ok
    {
      if !gatewayMode { return true; }
      ok := Attempt(world, TakeLock);
      if !ok || state != Running || prepared.value.engine.SingBox? { return; }
      ok := *;
      if ok {
        var capture := prepared.value.capture.(destinations := destinations, endpoints := endpoints);
        prepared := Some(prepared.value.(capture := capture));
      }
    }

    // ------------------------------------------------------------ all runs

    // What startup may do first with a process that outlived the previous
    // manager: take it over as it stands, rebuild its dataplane, or stop it.
    method AdoptFound(g: Generation, health: Health, pid: int)
      requires AtRest() && state == Unset && host.live == map[] && host.running.None?
      requires g.runtime in host.runtimes && g.runtime !in host.discarded
      modifies this, host, switcher.disk
      ensures AtRest() && old(trace) <= trace
      ensures host.lost == old(host.lost)
    {
      var adopted := host.SetAdopted(g);
      if !adopted { return; }
      var how: nat, ok: bool, absent: bool := *, *, *;
      match how
      case 0 => ok := Adopt(g, health, pid);
      case 1 => ok, absent := RecoverAdopted(g, health, pid);
      case _ => ok, absent := DiscardAdopted(g, health);
    }

    // Any interleaving of operations, hot reloads, refreshes, spontaneous exits
    // and guard leases, after an adoption at startup or none. The lock makes each
    // operation one step. `unrecorded` collects the runtimes of the hot reloads
    // that a core took and that could not be recorded: the only ones ever taken
    // from a live core.
    method Run(steps: nat, found: Option<Generation>) returns (ghost unrecorded: set<nat>)
      requires AtRest()
      requires found.Some? ==> state == Unset && host.live == map[] && host.running.None?
      requires found.Some? ==> found.value.runtime in host.runtimes && found.value.runtime !in host.discarded
      modifies this, host, guard, switcher.disk
      ensures AtRest() && old(trace) <= trace
      ensures host.lost == old(host.lost) + unrecorded
      ensures old(host.lost) == {} ==> (host.Intact() <==> host.Owned() !! unrecorded)
    {
      var failures: nat := 0;
      unrecorded := {};
      if found.Some? {
        var health: Health, pid: int := *, *;
        AdoptFound(found.value, health, pid);
      }
      for step := 0 to steps
        invariant AtRest() && old(trace) <= trace && host.lost == old(host.lost) + unrecorded
      {
        var op: nat, panel: bool, c: ProfileSwitch.Commit := *, *, *;
        var r0, r1: bool;
        ghost var clone, guarded, compensated, held;
        ghost var polled: Option<Health>;
        match op
        case 0 => r0 := Start();
        case 1 => r0, held := Stop();
        case 2 => r0 := Restart(panel);
        case 3 => r0, r1 := RestartIfRunning(panel);
        case 4 =>
          var target := PrepareActive();
          if target.Some? && Committable(switcher.disk.files, c)
            && (c.SelectProfile? ==> target.value.revision == c.t.newRevision)
          {
            r0, r1, clone, guarded, compensated := SwitchPrepared(panel, target.value, c);
          }
        case 5 =>
          var target := PrepareActive();
          if target.Some? && Committable(switcher.disk.files, c) && !c.SelectProfile? {
            r0, r1, clone, guarded, compensated := ReconfigurePrepared(panel, target.value, c);
          }
        case 6 => failures, polled, held := MonitorTick(failures);
        case 7 => r0 := CleanupFirewall();
        case 8 => host.MayExit();
        case 9 =>
          var selected: Option<Generation> := *;
          var swap := ReloadLive(selected);
          if swap.SwappedUnrecorded? { unrecorded := unrecorded + host.Owned(); }
        case 10 =>
          var d: seq<nat>, e: seq<nat> := *, *;
          r0 := RefreshLive(panel, d, e);
        case _ => if guard != null { guard.LeaseEnds(); }
      }
      host.IntactUnlessLost();
    }

    // What every reachable state tells about the calls made so far, position by
    // position in the history.
    lemma ReachableStates()
      requires AtRest()
      ensures forall s: nat | s < |trace| && trace[s].CoreStop? :: OffAt(trace, s)
      ensures forall s: nat | s < |trace| && trace[s].Activate? :: ReadyAt(trace, s)
      ensures state == Stopped ==> StoppedAt(trace, |trace|)
      ensures state == Running ==> prepared.Some?
      ensures state == Running ==> known.capture.On? && SameCore(known.capture.g, prepared.value)
      ensures state == Running ==> exists a: nat, p: nat :: SettledFor(trace, known.capture.g, a, p, |trace|)
      ensures OffAt(trace, |trace|) <==> state in {Stopped, Failed}
      ensures state == Running && known.verified ==>
                exists a: nat, v: nat :: VerifiedFor(trace, known.capture.g, a, v, |trace|)
      ensures guard != null && guard.installed ==> guard.lastError
    {
      var n := |trace|;
      FailOpenMeaning(trace, n);
      ReadyFirstMeaning(trace, n);
      StoppedMeaning(trace, n);
      CaptureMeaning(trace, n);
      if state == Running { var a, p := SettledMeaning(trace, n); }
      if state == Running && known.verified { var a, v := VerifiedMeaning(trace, n); }
    }

    // At no point are two backends live. A live one reads a runtime that is still
    // on disk and that the manager never removed, exactly unless its last hot
    // reload could not be recorded.
    lemma OneLiveCore(e: Engine, f: Engine)
      requires AtRest() && e in host.live && f in host.live
      ensures e == f && host.running == Some(e)
      ensures host.live[e].runtime in host.runtimes && host.live[e].runtime !in host.discarded
              <==> host.live[e].runtime !in host.lost
    {
    }
  }

  // A manager starts with whatever guard its predecessor left, and removes it
  // before anything else.
  method OpenLifecycle(host: EngineHost, switcher: ProfileSwitcher, guarded: bool, complete: bool,
                       controllerFailures: nat, world: World)
    returns (lifecycle: Lifecycle)
    requires host.Valid()
    ensures fresh(lifecycle) && lifecycle.AtRest() && lifecycle.state == Unset && lifecycle.trace == []
    ensures lifecycle.host == host && lifecycle.switcher == switcher
    ensures lifecycle.complete == complete && lifecycle.world == world
    ensures if guarded then lifecycle.guard != null && fresh(lifecycle.guard) else lifecycle.guard == null
  {
    var guard: RestartGuard? := null;
    if guarded {
      guard := new RestartGuard();
      var removed := guard.Remove(world);
    }
    lifecycle := new Lifecycle(host, guard, switcher, complete, controllerFailures, world);
  }
}
