// The process facade: one backend per engine, at most one of them running, and
// the private runtime directories the engine package creates and removes.

module Engines {
  import opened Types

  datatype Health = Health(running: bool, controllerReady: bool, dnsReady: bool, exited: bool, failed: bool)

  // A core that can take traffic: running, controller up, DNS up when used.
  predicate ReadyFor(h: Health, g: Generation) {
    h.running && h.controllerReady && (g.capture.dnsEnabled ==> h.dnsReady) && !h.failed
  }

  // What became of a hot reload.
  datatype Reloaded = Refused | Swapped | SwappedUnrecorded

  ghost function RuntimesOf(live: map<Engine, Generation>): set<nat> {
    set e | e in live :: live[e].runtime
  }

  class EngineHost {
    const backends: set<Engine>
    var running: Option<Engine>
    var epoch: nat
    var live: map<Engine, Generation>  // the process each backend supervises
    var runtimes: set<nat>             // private runtime directories on disk
    var issued: nat                    // directory names handed out so far
    ghost var accepted: set<nat>       // runtimes some Start or Reload accepted
    ghost var discarded: set<nat>      // runtimes removed by the manager itself
    ghost var lost: set<nat>           // of those, the ones a process was reading

    // Runtimes a supervised process still reads.
    ghost function Owned(): set<nat>
      reads this
    {
      RuntimesOf(live)
    }

    ghost predicate Valid()
      reads this
    {
      && live.Keys <= backends
      && (running.Some? ==> running.value in backends)
      && (forall e | e in live :: running == Some(e) && live[e].engine == e && live[e].runtime in accepted)
      && (forall r | r in runtimes :: r < issued)
      && (forall r | r in accepted :: r < issued)
      && (forall r | r in discarded :: r < issued)
      && lost <= accepted && lost <= discarded
      && (forall e | e in live :: live[e].runtime in lost || Kept(live[e].runtime))
    }

    ghost predicate Kept(runtime: nat)
      reads this
    {
      runtime in runtimes && runtime !in discarded
    }

    // Every supervised process still has its runtime on disk.
    ghost predicate Intact()
      reads this
    {
      forall e | e in live :: Kept(live[e].runtime)
    }

    // A runtime prepared for the manager and not yet offered to a core.
    ghost predicate Fresh(g: Generation)
      reads this
    {
      g.runtime in runtimes && g.runtime !in accepted && g.runtime !in discarded
    }

    // Between two calls a process may exit; its backend then drops the runtime.
    twostate predicate OnlyExits()
      reads this
    {
      && ((live == old(live) && runtimes == old(runtimes))
          || (live == map[] && old(live) != map[] && runtimes == old(runtimes) - old(Owned())))
      && issued == old(issued) && accepted == old(accepted) && discarded == old(discarded)
      && lost == old(lost)
    }

    // A fresh manager supervises nothing; runtimes of its predecessor may be on
    // disk already.
    constructor (backends: set<Engine>, existing: set<nat>, issued: nat)
      requires forall r | r in existing :: r < issued
      ensures Valid() && Intact() && this.backends == backends
      ensures live == map[] && running == None && runtimes == existing && discarded == {} && lost == {}
    {
      this.backends := backends;
      running, epoch, live, runtimes, this.issued := None, 0, map[], existing, issued;
      accepted, discarded, lost := {}, {}, {};
    }

    method MayExit()
      requires Valid()
      modifies this
      ensures Valid() && OnlyExits()
      ensures running == old(running) && epoch == old(epoch)
    {
      var exits: bool := *;
      if exits && running.Some? && running.value in live {
        var r := live[running.value].runtime;
        live := map[];
        runtimes := runtimes - {r};
        assert old(Owned()) == {r} by { assert forall e | e in old(live) :: e == running.value; }
      }
    }

    method Start(g: Generation, world: World) returns (ok: bool)
      requires Valid() && Fresh(g)
      modifies this
      ensures Valid()
      ensures ok ==> old(running).None? && running == Some(g.engine) && live == map[g.engine := g]
      ensures ok ==> accepted == old(accepted) + {g.runtime} && runtimes == old(runtimes)
      ensures ok ==> discarded == old(discarded) && lost == old(lost) && issued == old(issued)
      ensures ok ==> epoch == old(epoch) + 1
      ensures !ok ==> OnlyExits() && running == old(running) && epoch == old(epoch)
      ensures old(running).Some? || g.engine !in backends ==> !ok
      ensures g.runtime in runtimes
      ensures world.Exactly? && old(running).None? && g.engine in backends ==> world.Fixes(StartCore, ok)
      ensures world.Exactly? && !ok ==> live == old(live)
    {
      if world.Any? { MayExit(); }
      if g.engine !in backends || running.Some? {
        return false;
      }
      ok := Attempt(world, StartCore);
      if ok {
        live := live[g.engine := g];
        running := Some(g.engine);
        epoch := epoch + 1;
        accepted := accepted + {g.runtime};
      }
    }

    // Stops whichever backend owns the live process; a stop with nothing
    // running succeeds. Releasing the process removes its runtime.
    method Stop(world: World) returns (ok: bool)
      requires Valid()
      modifies this
      ensures Valid() && OnlyExits()
      ensures ok ==> running.None? && live == map[]
      ensures !ok ==> running == old(running) && running.Some?
      ensures ok && old(running).None? ==> epoch == old(epoch)
      ensures ok && old(running).Some? ==> epoch == old(epoch) + 1
      ensures world.Exactly? ==> (ok <==> old(running).None? || StopCore !in world.failing)
      ensures world.Exactly? && !ok ==> live == old(live)
    {
      if world.Any? { MayExit(); }
      if running.None? {
        return true;
      }
      ok := Attempt(world, StopCore);
      if ok {
        ghost var owned := Owned();
        if running.value in live {
          runtimes := runtimes - {live[running.value].runtime};
          assert owned == {live[running.value].runtime} by {
            assert forall e | e in live :: e == running.value;
          }
        }
        live := map[];
        running := None;
        epoch := epoch + 1;
      }
    }

    // Swaps the running core's configuration in place. The backend follows the
    // process in memory even when it cannot record the swap on disk.
    method Reload(g: Generation, world: World) returns (r: Reloaded)
      requires Valid() && Fresh(g)
      modifies this
      ensures Valid() && running == old(running) && lost == old(lost)
      ensures discarded == old(discarded) && issued == old(issued)
      ensures r.Refused? ==> OnlyExits()
      ensures !r.Refused? ==> running == Some(g.engine) && live == map[g.engine := g]
      ensures !r.Refused? ==> old(live).Keys == {g.engine} && accepted == old(accepted) + {g.runtime}
      ensures r.Swapped? ==> runtimes == old(runtimes) - {old(live)[g.engine].runtime}
      ensures r.SwappedUnrecorded? ==> runtimes == old(runtimes)
      ensures epoch == old(epoch) + if r.Swapped? then 1 else 0
      ensures g.runtime in runtimes
      // Only recording the swap fails.
      ensures world == Exactly({RecordSwap}) && old(running) == Some(g.engine) && g.engine in old(live) ==>
                r.SwappedUnrecorded?
      ensures world == Exactly({}) && old(running) == Some(g.engine) && g.engine in old(live) ==> r.Swapped?
    {
      if world.Any? { MayExit(); }
      if running.None? || running.value != g.engine || g.engine !in live {
        return Refused;
      }
      var taken := Attempt(world, SwapCore);
      if !taken {
        return Refused;
      }
      var previous := live[g.engine].runtime;
      assert forall e | e in live :: e == g.engine;
      live := map[g.engine := g];
      accepted := accepted + {g.runtime};
      var recorded := Attempt(world, RecordSwap);
      if !recorded {
        return SwappedUnrecorded;
      }
      runtimes := runtimes - {previous};
      epoch := epoch + 1;
      r := Swapped;
    }

    method Poll(world: World) returns (h: Health)
      requires Valid()
      modifies this
      ensures Valid() && OnlyExits()
      ensures running == old(running) && epoch == old(epoch)
      ensures h.running ==> live != map[]
      ensures world.Exactly? ==> live == old(live) && (h.running && h.controllerReady <==> Answering(world))
      ensures world.Exactly? && Answering(world) ==> h.dnsReady && !h.failed
    {
      if world.Any? { MayExit(); }
      h := *;
      if world.Exactly? { h := Health(true, Answering(world), true, false, false); }
      if running.None? {
        h := Health(false, false, false, false, false);
      } else if running.value !in live {
        h := h.(running := false, controllerReady := false, dnsReady := false);
      }
    }

    // In a determined world the live core answers every probe or none.
    predicate Answering(world: World)
      reads this
    {
      live != map[] && world.Exactly? && AnswerProbe !in world.failing
    }

    // Records the engine of a process that outlived the previous manager. The
    // backend named here has already taken supervision of it.
    method SetAdopted(g: Generation) returns (ok: bool)
      requires Valid() && live == map[] && g.runtime in runtimes && g.runtime !in discarded
      modifies this
      ensures ok <==> g.engine in backends && old(running) in {None, Some(g.engine)}
      ensures ok ==> running == Some(g.engine) && live == map[g.engine := g] && g.runtime in accepted
      ensures Valid() && runtimes == old(runtimes) && issued == old(issued)
      ensures discarded == old(discarded) && lost == old(lost)
      ensures !ok ==> live == old(live) && running == old(running)
      ensures epoch == old(epoch) + if ok then 1 else 0
    {
      if g.engine !in backends || (running.Some? && running.value != g.engine) {
        return false;
      }
      running := Some(g.engine);
      live := map[g.engine := g];
      accepted := accepted + {g.runtime};
      epoch := epoch + 1;
      ok := true;
    }

    // A private runtime for a new generation.
    method Issue() returns (runtime: nat)
      requires Valid()
      modifies this
      ensures Valid() && runtime == old(issued) && issued == old(issued) + 1
      ensures runtimes == old(runtimes) + {runtime}
      ensures runtime !in accepted && runtime !in discarded && runtime !in old(runtimes)
      ensures live == old(live) && running == old(running) && accepted == old(accepted) && discarded == old(discarded)
      ensures lost == old(lost)
    {
      runtime := issued;
      issued := issued + 1;
      runtimes := runtimes + {runtime};
    }

    // Snapshots the private runtime of a live generation; impossible once the
    // runtime is gone.
    method Clone(g: Generation, world: World) returns (clone: Option<Generation>)
      requires Valid()
      modifies this
      ensures Valid()
      ensures live == old(live) && running == old(running) && accepted == old(accepted) && discarded == old(discarded)
      ensures lost == old(lost)
      ensures clone.None? ==> runtimes == old(runtimes) && issued == old(issued)
      ensures clone.Some? ==> clone.value.CloneOf(g) && Fresh(clone.value) && clone.value.runtime !in old(runtimes)
                              && runtimes == old(runtimes) + {clone.value.runtime} && issued == old(issued) + 1
                              && clone.value.runtime == old(issued)
      ensures g.runtime !in old(runtimes) ==> clone.None?
      ensures world.Exactly? && g.runtime in old(runtimes) ==> world.Fixes(Prepare, clone.Some?)
    {
      var readable := Attempt(world, Prepare);
      if !readable || g.runtime !in runtimes {
        return None;
      }
      var r := Issue();
      clone := Some(g.(runtime := r));
    }

    // Removes one private runtime directory, whoever reads it.
    method Remove(g: Generation)
      requires Valid() && g.runtime < issued
      modifies this
      ensures Valid() && runtimes == old(runtimes) - {g.runtime} && discarded == old(discarded) + {g.runtime}
      ensures live == old(live) && running == old(running) && accepted == old(accepted) && issued == old(issued)
      ensures lost == old(lost) + old(Owned()) * {g.runtime} && epoch == old(epoch)
    {
      lost := lost + Owned() * {g.runtime};
      runtimes := runtimes - {g.runtime};
      discarded := discarded + {g.runtime};
    }

    // Removes a runtime the caller still owns. Removing one a process reads
    // would pull the configuration from under it.
    method Discard(g: Generation)
      requires Valid() && g.runtime < issued && g.runtime !in Owned()
      modifies this
      ensures Valid()
      ensures runtimes == old(runtimes) - {g.runtime} && discarded == old(discarded) + {g.runtime}
      ensures live == old(live) && running == old(running) && accepted == old(accepted) && issued == old(issued)
      ensures lost == old(lost) && epoch == old(epoch)
    {
      Remove(g);
    }

    // A supervised process still has its runtime exactly unless the manager
    // removed it under it.
    lemma IntactUnlessLost()
      requires Valid()
      ensures Intact() <==> Owned() !! lost
    {
      forall e | e in live ensures live[e].runtime in Owned() {}
    }
  }
}
