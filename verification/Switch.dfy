// A profile switch as a whole: the journal, the live core and the commit, and
// what recovery makes of an interruption.

module Switches {
  import opened Types
  import opened Traces
  import opened Engines
  import opened ProfileSwitch
  import opened Lifecycles

  class Switching {
    const lifecycle: Lifecycle
    const switcher: ProfileSwitcher
    const disk: Disk

    constructor (lifecycle: Lifecycle)
      ensures this.lifecycle == lifecycle && switcher == lifecycle.switcher && disk == switcher.disk
    {
      this.lifecycle, switcher, disk := lifecycle, lifecycle.switcher, lifecycle.switcher.disk;
    }

    ghost predicate Wired()
    {
      switcher == lifecycle.switcher && disk == switcher.disk
    }

    // The journaled part: the live core is switched and commits, and only then
    // is the shared state published and the journal dropped. Core and selection
    // move together: from running, the target is up exactly when it is committed,
    // and otherwise at most a clone of the old generation runs.
    method SwitchJournaled(panel: bool, g: Generation, t: Transition)
      returns (ok: bool, ghost committed: bool, ghost compensated: bool)
      requires Wired() && lifecycle.AtRest() && lifecycle.host.Fresh(g) && lifecycle.Fits(SelectProfile(t), g)
      modifies lifecycle, lifecycle.host, lifecycle.guard, disk
      ensures lifecycle.AtRest()
      ensures if committed then CommittedWith(old(disk.files), disk.files, t)
              else CommitOutcome(SelectProfile(t), old(disk.files), disk.files, false, compensated)
      ensures ok ==> committed && disk.files.journal.None?
      ensures old(lifecycle.state) == Running ==> (committed <==> lifecycle.IsUp(g))
      ensures old(lifecycle.state) == Running && lifecycle.state == Running && !committed ==>
                lifecycle.prepared.value.CloneOf(old(lifecycle.prepared).value)
      ensures old(lifecycle.state) != Running ==>
                lifecycle.state == old(lifecycle.state) && lifecycle.prepared == old(lifecycle.prepared)
      ensures lifecycle.world.Exactly? && TakeLock in lifecycle.world.failing ==> !ok && disk.files == old(disk.files)
      ensures old(WillSwitch(g, t)) ==> committed && ok
      ensures disk.files.journal in {Some(t), Some(t.(phase := Phase.Committed)), None}
    {
      ghost var before, so_far := disk.files, lifecycle.known.committed;
      var changed: bool;
      ghost var clone, guarded;
      changed, ok, clone, guarded, compensated := lifecycle.SwitchPrepared(panel, g, SelectProfile(t));
      committed := lifecycle.known.committed > so_far;
      if !ok { return; }
      ok := disk.Write(disk.files.(shared := Some(t.target)));
      if !ok { return; }
      ok := disk.Write(disk.files.(journal := None));
    }

    ghost predicate WillSwitch(g: Generation, t: Transition)
      reads disk, lifecycle, lifecycle.host, lifecycle.switcher.disk
    {
      && disk.world == Exactly({}) && !disk.crashed && StillAt(disk.files, t.target, t.newRevision)
      && lifecycle.Helpful() && lifecycle.complete && TakeLock !in lifecycle.world.failing
      && lifecycle.state != CleanupFailed
      && (lifecycle.state == Running ==> lifecycle.Replaceable(g, SelectProfile(t)))
    }

    // A disk and lifecycle on which preparing this switch does not fail.
    ghost predicate Prepares(target: Profile)
      reads disk, lifecycle
    {
      && disk.world == Exactly({}) && !disk.crashed
      && lifecycle.world.Exactly? && Effect.Prepare !in lifecycle.world.failing
      && target in disk.files.sources && MirrorFits(disk.files, target.engine)
    }

    // The switch of a core that does not run can be prepared, but not made.
    ghost predicate LockTaken(target: Profile)
      reads disk, lifecycle
    {
      Prepares(target) && TakeLock in lifecycle.world.failing && lifecycle.state != Running
    }

    ghost predicate OnlyJournaled(before: Files, now: Files, target: Profile) {
      exists t: Transition :: t.target == target && t.phase.Prepared? && Captures(t, before)
        && now == before.(journal := Some(t))
    }

    // The generation that runs, as the lifecycle knows it.
    function Live(): Option<Generation>
      reads lifecycle
    {
      if lifecycle.state == Running then lifecycle.prepared else None
    }

    // A switch to the target, running or not, in which no call fails.
    ghost predicate Possible(target: Profile)
      reads disk, lifecycle, lifecycle.host
    {
      && Prepares(target) && lifecycle.Helpful() && lifecycle.complete
      && TakeLock !in lifecycle.world.failing && lifecycle.state != CleanupFailed
      && (lifecycle.state == Running ==>
            && target.engine in lifecycle.host.backends && lifecycle.prepared.Some?
            && lifecycle.prepared.value.runtime in lifecycle.host.runtimes)
    }

    // Renders the target and writes the journal; without both, nothing is left of
    // either.
    method Prepare(target: Profile) returns (g: Option<Generation>, t: Option<Transition>)
      requires Wired() && lifecycle.AtRest() && SourceKept(disk.files)
      modifies lifecycle.host, disk
      ensures lifecycle.AtRest() && g.Some? == t.Some?
      ensures g.None? ==> disk.files == old(disk.files) && lifecycle.host.runtimes == old(lifecycle.host.runtimes)
      ensures g.Some? ==>
                && lifecycle.host.Fresh(g.value) && PreparedMatchesProfile(g.value, target)
                && t.value.target == target && t.value.newRevision == g.value.revision
                && Captures(t.value, old(disk.files)) && disk.files == old(disk.files).(journal := t)
                && lifecycle.Fits(SelectProfile(t.value), g.value)
      ensures g.Some? ==> Remembers(t.value, old(disk.files), old(Live()))
      ensures old(Prepares(target)) ==>
                g.Some? && StillAt(disk.files, target, t.value.newRevision) && g.value.engine == target.engine
      ensures lifecycle.host.live == old(lifecycle.host.live) && old(lifecycle.host.runtimes) <= lifecycle.host.runtimes
      ensures old(disk.world.Exactly? && !disk.crashed) ==> !disk.crashed
    {
      t := None;
      var live := if lifecycle.state == Running then lifecycle.prepared else None;
      g := lifecycle.PrepareFor(Some(target));
      if g.None? { return; }
      if g.value.revision != "" { t := switcher.Preflight(target, g.value.revision, live); }
      var saved := false;
      if t.Some? { saved := disk.Write(disk.files.(journal := t)); }
      if !saved {
        lifecycle.host.Discard(g.value);
        g, t := None, None;
      }
    }

    // How an attempt to switch a profile ended, for the disk it started from.
    ghost predicate Moved(before: Files, now: Files, target: Profile, committed: bool, compensated: bool) {
      && SwitchOutcome(before, now, target)
      && (committed ==> IsCommitted(before, now, target))
      && (!committed && compensated ==> View(now, target) == View(before, target))
    }

    // A confirmed switch to a profile that is not the selected one.
    method SwitchTo(target: Profile, panel: bool)
      returns (ok: bool, ghost g: Option<Generation>, ghost committed: bool, ghost compensated: bool)
      requires Wired() && lifecycle.AtRest() && !disk.crashed && SourceKept(disk.files)
      modifies lifecycle, lifecycle.host, lifecycle.guard, disk
      ensures lifecycle.AtRest()
      ensures Moved(old(disk.files), disk.files, target, committed, compensated)
      ensures ok ==> committed && disk.files.journal.None?
      ensures g.None? || old(lifecycle.state) != Running ==>
                lifecycle.state == old(lifecycle.state) && lifecycle.prepared == old(lifecycle.prepared)
      ensures g.None? ==> !committed && lifecycle.trace == old(lifecycle.trace)
      ensures g.Some? ==> PreparedMatchesProfile(g.value, target)
      ensures g.Some? && old(lifecycle.state) == Running ==> (committed <==> lifecycle.IsUp(g.value))
      ensures g.Some? && old(lifecycle.state) == Running && !committed && lifecycle.state == Running ==>
                lifecycle.prepared.value.CloneOf(old(lifecycle.prepared).value)
      ensures disk.files.journal.Some? && disk.files.journal != old(disk.files).journal ==>
                Remembers(disk.files.journal.value, old(disk.files), old(Live()))
      ensures old(Possible(target)) ==> committed && g.Some? && ok
      ensures old(LockTaken(target)) ==> !ok && OnlyJournaled(old(disk.files), disk.files, target)
    {
      ok, g, committed, compensated := false, None, false, true;
      ghost var f0 := disk.files;
      var prepared, t := Prepare(target);
      if prepared.None? { return; }
      ghost var f1 := disk.files;
      g := prepared;
      ok, committed, compensated := SwitchJournaled(panel, prepared.value, t.value);
      if committed {
        CommittedFromJournaled(f0, f1, disk.files, t.value);
      } else {
        CompensatedView(f0, f1, t.value, disk.files, compensated);
      }
    }

    // A switch of the selected profile. `g` is the target's prepared generation,
    // once the journal was written and the lifecycle was asked to take it.
    method Switch(target: Profile, confirmed: bool, panel: bool)
      returns (ok: bool, ghost g: Option<Generation>, ghost committed: bool, ghost compensated: bool)
      requires Wired() && lifecycle.AtRest() && !disk.crashed && SourceKept(disk.files)
      modifies lifecycle, lifecycle.host, lifecycle.guard, disk
      ensures lifecycle.AtRest()
      // The disk, at every return and wherever the manager died.
      ensures old(disk.files).active == Some(target) ==>
                View(disk.files, target) == View(old(disk.files), target) && g.None?
      ensures old(disk.files).active == Some(target) && old(disk.Calm()) ==>
                ok && (switcher.Unpublished(old(disk.files), target) ==>
                         disk.files.journal.None? && disk.files.shared == Some(target))
      ensures old(disk.files).active != Some(target) ==>
                Moved(old(disk.files), disk.files, target, committed, compensated)
      ensures old(disk.files).active != Some(target) && ok ==> committed && disk.files.journal.None?
      // A running core is not touched without confirmation.
      ensures old(lifecycle.state) == Running && !confirmed && old(disk.files).active != Some(target) ==>
                !ok && disk.files == old(disk.files) && g.None?
      // Unless asked, and unless it runs, the lifecycle stays as it is.
      ensures g.None? || old(lifecycle.state) != Running ==>
                lifecycle.state == old(lifecycle.state) && lifecycle.prepared == old(lifecycle.prepared)
      ensures g.None? ==> !committed && lifecycle.trace == old(lifecycle.trace)
      // From running, core and selection move together: the target is up exactly
      // when it is committed, and otherwise at most the old configuration runs.
      ensures g.Some? ==> PreparedMatchesProfile(g.value, target)
      ensures g.Some? && old(lifecycle.state) == Running ==> (committed <==> lifecycle.IsUp(g.value))
      ensures g.Some? && old(lifecycle.state) == Running && !committed && lifecycle.state == Running ==>
                lifecycle.prepared.value.CloneOf(old(lifecycle.prepared).value)
      // Whatever journal it leaves names what ran before.
      ensures disk.files.journal.Some? && disk.files.journal != old(disk.files).journal ==>
                Remembers(disk.files.journal.value, old(disk.files), old(Live()))
      // When no call fails, the switch is made.
      ensures old(Possible(target)) && confirmed && old(disk.files).active != Some(target) ==>
                committed && g.Some? && ok
      // Without the operation lock only the journal is written.
      ensures old(disk.files).active != Some(target) && old(LockTaken(target)) ==>
                !ok && OnlyJournaled(old(disk.files), disk.files, target)
    {
      ok, g, committed, compensated := false, None, false, true;
      if disk.files.active == Some(target) {
        ok := switcher.FinalizeCommittedState(target);
        return;
      }
      if lifecycle.state == Running && !confirmed { return; }
      ok, g, committed, compensated := SwitchTo(target, panel);
    }

    // A switch interrupted anywhere, then any number of recoveries interrupted
    // anywhere. Once a recovery completes, the target's view is either entirely
    // the one from before the switch or entirely the committed one, as the
    // journal says, and recovering again would change nothing.
    method SwitchAndRecover(target: Profile, confirmed: bool, panel: bool, interruptions: nat) returns (recovered: bool)
      requires Wired() && lifecycle.AtRest()
      requires disk.files.active != Some(target) && !disk.crashed && SourceKept(disk.files)
      requires Recoverable(disk.files) && Recovered(disk.files) == disk.files
      modifies lifecycle, lifecycle.host, lifecycle.guard, disk
      ensures recovered ==> Recoverable(disk.files) && Recovered(disk.files) == disk.files
      ensures recovered ==> AllOrNothing(old(disk.files), disk.files, target)
      ensures old(disk.Calm()) ==> recovered
    {
      ghost var before := disk.files;
      var ok: bool;
      ghost var g, committed, compensated;
      ok, g, committed, compensated := Switch(target, confirmed, panel);
      ghost var left := disk.files;
      for i := 0 to interruptions
        invariant disk.files.journal == left.journal
        invariant Recoverable(disk.files) == Recoverable(left)
        invariant Recoverable(left) ==> Recovered(disk.files) == Recovered(left)
      {
        disk.Reboot();
        recovered := switcher.RecoverSelection();
      }
      disk.Reboot();
      recovered := switcher.RecoverSelection();
      if recovered {
        assert disk.files == Recovered(left);
        RecoveryIdempotent(left);
        OutcomeAfterRecovery(before, left, target);
      }
    }
  }

  // A disk with profile a selected and mirrored, b being another profile of the
  // same engine; and the disk after a was edited.
  function Before(a: Profile, b: Profile): Files {
    Files(Some(a), map[Mihomo := "v1"], map[], map[a := "v1", b := "w"], None, None)
  }

  function Edited(f: Files, a: Profile): Files {
    f.(sources := f.sources[a := "v2"], mirrors := f.mirrors[Mihomo := "v2"])
  }

  lemma EditReverted(a: Profile, b: Profile, f: Files, t: Transition)
    requires a != b && a.engine.Mihomo? && b.engine.Mihomo? && t.target == b && t.phase.Prepared?
    requires Captures(t, Before(a, b)) && f == Edited(Before(a, b).(journal := Some(t)), a)
    ensures Recoverable(f) && Recovered(f).active == Some(a)
    ensures a in Recovered(f).sources && Recovered(f).sources[a] == "v2"
    ensures Lookup(Recovered(f).mirrors, Mihomo) == Some("v1")
  {
  }

  // A switch from a to b that fails for want of the operation lock.
  method FailedSwitch(a: Profile, b: Profile) returns (switching: Switching, switched: bool)
    requires a != b && b.engine.Mihomo?
    ensures fresh(switching) && fresh(switching.disk) && switching.Wired()
    ensures !switched && switching.disk.world == Exactly({})
    ensures switching.OnlyJournaled(Before(a, b), switching.disk.files, b)
  {
    var disk := new Disk(Before(a, b), Exactly({}));
    var switcher := new ProfileSwitcher(disk);
    var host := new EngineHost({Mihomo}, {}, 0);
    var lifecycle := OpenLifecycle(host, switcher, true, true, 3, Exactly({TakeLock}));
    switching := new Switching(lifecycle);
    ghost var g, committed, compensated;
    switched, g, committed, compensated := switching.Switch(b, true, true);
  }

  // After it the journal stays. Editing the selected profile a, source and
  // mirror, is then undone in the mirror by the recovery of the next start.
  method FailedSwitchRevertsEdit() returns (disk: Disk, a: Profile, switched: bool, recovered: bool)
    ensures !switched && recovered && disk.files.active == Some(a) && a.engine.Mihomo?
    ensures a in disk.files.sources && disk.files.sources[a] == "v2"
    ensures Lookup(disk.files.mirrors, Mihomo) == Some("v1")
  {
    a := Profile("a", Mihomo);
    var b := Profile("b", Mihomo);
    var switching;
    switching, switched := FailedSwitch(a, b);
    disk := switching.disk;
    disk.Reboot();
    var edited := disk.Write(Edited(disk.files, a));
    ghost var t: Transition :| t.target == b && t.phase.Prepared? && Captures(t, Before(a, b))
      && disk.files == Edited(Before(a, b).(journal := Some(t)), a);
    EditReverted(a, b, disk.files, t);
    recovered := switching.switcher.RecoverSelection();
  }
}
