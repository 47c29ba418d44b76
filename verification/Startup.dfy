// Startup after a crash: the durable selection is recovered first, then any
// core that outlived the old manager is reconciled with it, and only then is
// the journal of an interrupted switch dropped.

module Startup {
  import opened Types
  import opened Traces
  import opened Engines
  import opened Lifecycles
  import opened ProfileSwitch
  import opened Switches

  // What one backend finds in its process record.
  datatype Found = Nothing | Unusable | Process(g: Generation, health: Health, pid: int)

  // A live process is adoptable only when its record and runtime check out.
  ghost predicate Adoptable(found: map<Engine, Found>, host: EngineHost)
    reads host
  {
    forall e | e in found && found[e].Process? ::
      found[e].g.engine == e && found[e].g.runtime in host.runtimes && found[e].g.runtime !in host.discarded
  }

  // The selected engine's backend is asked first. A record nobody owns counts
  // as nothing; an unusable one is an error unless another backend succeeds.
  function AdoptSelectedEngine(selected: Engine, found: map<Engine, Found>): (r: Found)
    ensures r.Process? <==> exists e :: e in found && found[e].Process?
    ensures r.Process? ==> exists e :: e in found && found[e] == r
    ensures selected in found && found[selected].Process? ==> r == found[selected]
    ensures r.Nothing? <==> forall e | e in found :: found[e].Nothing?
  {
    var other := if selected.Mihomo? then SingBox else Mihomo;
    if selected in found && found[selected].Process? then found[selected]
    else if other in found && found[other].Process? then found[other]
    else if (selected in found && found[selected].Unusable?) || (other in found && found[other].Unusable?) then
      assert forall e | e in found :: e == selected || e == other;
      Unusable
    else
      assert forall e | e in found :: e == selected || e == other;
      Nothing
  }

  // What became of a process found at startup: none could be adopted; it was
  // accepted; or it was adopted and then not accepted, with an error that does
  // or does not read as not-exist.
  datatype Adoption = NotAdopted | Accepted | Rejected(absent: bool)

  class Manager {
    const lifecycle: Lifecycle
    const switcher: ProfileSwitcher
    const disk: Disk

    constructor (lifecycle: Lifecycle)
      ensures this.lifecycle == lifecycle && Wired()
    {
      this.lifecycle, switcher, disk := lifecycle, lifecycle.switcher, lifecycle.switcher.disk;
    }

    ghost predicate Wired()
    {
      switcher == lifecycle.switcher && disk == switcher.disk
    }

    // The running generation belongs to the profile and revision recovery
    // arrived at.
    ghost predicate RunsRecovered(profile: Option<Profile>, revision: string)
      reads this, lifecycle, disk
    {
      lifecycle.state == Running ==>
        && lifecycle.prepared.Some? && profile.Some?
        && PreparedMatchesRevision(disk.files, lifecycle.prepared.value, profile.value, revision)
    }

    // No process is left over from before: its capture was removed, then it was
    // stopped.
    twostate predicate Discarded()
      reads this, lifecycle, lifecycle.host
    {
      && lifecycle.state == Stopped && lifecycle.host.live == map[]
      && lifecycle.known.cleanups > old(lifecycle.known).cleanups
    }

    // The process runs as the recovered generation, or is gone.
    twostate predicate Reconciled()
      reads this, lifecycle, lifecycle.host
    {
      lifecycle.state == Running || Discarded()
    }

    // The disk is as given, apart from the recorded start of what runs now.
    ghost predicate Finished(f: Files)
      reads lifecycle, disk
    {
      || disk.files == f
      || (lifecycle.state == Running && lifecycle.prepared.Some?
          && StartRecorded(f, disk.files, lifecycle.prepared.value))
    }

    // Nothing the lifecycle does for a process it finds would fail.
    ghost predicate Ready()
    {
      lifecycle.Helpful() && lifecycle.complete && TakeLock !in lifecycle.world.failing
    }

    // A process of that profile, at that revision, is found alive and can be
    // supervised.
    ghost predicate Survives(found: map<Engine, Found>, profile: Option<Profile>, revision: string)
    {
      && profile.Some? && profile.value.engine in found && profile.value.engine in lifecycle.host.backends
      && var p := found[profile.value.engine];
         p.Process? && p.health.running && p.pid > 1
         && PreparedMatchesProfile(p.g, profile.value) && revision != "" && p.g.revision == revision
    }

    // The no-touch path is kept for a verified handoff of a matching process.
    method AcceptAdopted(g: Generation, health: Health, pid: int, handoff: bool, matches: bool, startStopped: bool)
      returns (handedOff: bool, ok: bool, absent: bool)
      requires Wired() && lifecycle.AtRest() && g.runtime in lifecycle.host.accepted
      modifies lifecycle, lifecycle.host, disk
      ensures lifecycle.AtRest() && lifecycle.OnlyStartRecorded()
      ensures old(disk.Calm()) ==> disk.Calm()
      ensures !ok || handoff || Discarded() ==> disk.files == old(disk.files)
      ensures ok && !handoff && !Discarded() ==> StartNoted(old(disk.files), disk.files, g, old(disk.Calm()))
      ensures ok ==> lifecycle.IsUp(g) || Discarded()
      ensures ok && !matches ==> Discarded()
      ensures ok && startStopped && !handoff ==> Discarded()
      ensures !ok ==> lifecycle.state in {old(lifecycle.state), Failed, CleanupFailed}
      ensures handedOff ==> ok && handoff && matches && lifecycle.IsUp(g)
      ensures ok && handoff && matches ==> handedOff
      // The error reads as not-exist exactly when a failed call's did.
      ensures absent <==> !ok && lifecycle.absences > old(lifecycle.absences)
      // A matching process is taken over when no call fails.
      ensures matches && (handoff || !startStopped) && old(lifecycle.host.live) != map[] && Ready() && health.running
              && pid > 1 ==>
                ok && lifecycle.IsUp(g)
      ensures !matches && lifecycle.world == Exactly({DropCapture}) && lifecycle.complete ==>
                && !ok && absent && lifecycle.state == CleanupFailed
                && lifecycle.prepared == Some(g) && lifecycle.host.live == old(lifecycle.host.live)
    {
      if !matches || (!handoff && startStopped) {
        ok, absent := lifecycle.DiscardAdopted(g, health);
        return false, ok, absent;
      }
      if handoff {
        ok := lifecycle.Adopt(g, health, pid);
        return ok, ok, false;
      }
      ok, absent := lifecycle.RecoverAdopted(g, health, pid);
      handedOff := false;
    }

    // Reconciles whatever process is found with the profile and revision that
    // startup arrived at. `absent` tells that no process was found, or that the
    // error of reconciling it reads as not-exist.
    method ReconcileProcess(found: map<Engine, Found>, selected: Engine, wanted: Option<Profile>, required: string,
                            handoff: bool, startStopped: bool)
      returns (handedOff: bool, adopted: bool, absent: bool, ghost adoption: Adoption)
      requires Wired() && lifecycle.AtRest() && lifecycle.state == Unset
      requires lifecycle.host.live == map[] && lifecycle.host.running.None? && Adoptable(found, lifecycle.host)
      modifies lifecycle, lifecycle.host, disk
      ensures lifecycle.AtRest() && RunsRecovered(wanted, required) && lifecycle.OnlyStartRecorded()
      ensures old(disk.Calm()) ==> disk.Calm()
      ensures adoption.NotAdopted? ==> !adopted && lifecycle.state == Unset && lifecycle.trace == old(lifecycle.trace)
      ensures adoption.NotAdopted? ==> (absent <==> AdoptSelectedEngine(selected, found).Nothing?)
      ensures adoption.Accepted? <==> adopted
      ensures adopted ==> Reconciled()
      ensures adoption.Rejected? ==> adoption.absent == absent && lifecycle.state in {Unset, Failed, CleanupFailed}
      ensures adoption.Rejected? ==> (absent <==> lifecycle.absences > old(lifecycle.absences))
      ensures handedOff ==> handoff && adopted && lifecycle.state == Running
      ensures adopted && handoff && lifecycle.state == Running ==> handedOff
      ensures Ready() && Survives(found, wanted, required) && selected == wanted.value.engine
              && (handoff || !startStopped) ==>
                adopted && lifecycle.IsUp(found[selected].g)
      ensures Ready() && wanted.Some? && wanted.value in old(disk.files).sources && required == ""
              && Survives(found, wanted, ContentRevision(old(disk.files).sources[wanted.value]))
              && selected == wanted.value.engine && (handoff || !startStopped) ==>
                adopted && lifecycle.IsUp(found[selected].g)
      ensures old(Foreign(found, selected, wanted)) ==>
                && adoption == Rejected(true) && absent && !handedOff
                && lifecycle.state == CleanupFailed && StillLive(found)
    {
      adoption, handedOff := NotAdopted, false;
      var candidate := AdoptSelectedEngine(selected, found);
      adopted, absent := false, candidate.Nothing?;
      if candidate.Process? { adopted := lifecycle.host.SetAdopted(candidate.g); }
      if adopted {
        var matches := wanted.Some? && PreparedMatchesRevision(disk.files, candidate.g, wanted.value, required);
        handedOff, adopted, absent :=
          AcceptAdopted(candidate.g, candidate.health, candidate.pid, handoff, matches, startStopped);
        adoption := if adopted then Accepted else Rejected(absent);
      }
    }

    // A process of some other generation is found, on a router where capture
    // cannot be removed because the dnsmasq script is missing.
    ghost predicate Foreign(found: map<Engine, Found>, selected: Engine, wanted: Option<Profile>)
      reads this, lifecycle, lifecycle.host
    {
      var candidate := AdoptSelectedEngine(selected, found);
      && lifecycle.world == Exactly({DropCapture}) && lifecycle.complete
      && candidate.Process? && candidate.g.engine in lifecycle.host.backends
      && (wanted.None? || !PreparedMatchesProfile(candidate.g, wanted.value))
    }

    // A process that was found is supervised and alive.
    ghost predicate StillLive(found: map<Engine, Found>)
      reads lifecycle.host
    {
      exists e :: e in found && found[e].Process? && lifecycle.host.live == map[e := found[e].g]
    }

    // The engine whose process is looked for first.
    function Selected(f: Files): Engine { if f.active.Some? then f.active.value.engine else Mihomo }

    // The running generation is of the selected profile as its source is now, or
    // made from the Mihomo mirror before revisions were recorded.
    ghost predicate RunsSelected()
      reads this, lifecycle, disk
    {
      lifecycle.state == Running ==>
        && lifecycle.prepared.Some? && disk.files.active.Some?
        && var g, p := lifecycle.prepared.value, disk.files.active.value;
           && PreparedMatchesProfile(g, p)
           && (if g.revision == "" then p.engine.Mihomo?
               else p in disk.files.sources && g.revision == ContentRevision(disk.files.sources[p]))
    }

    // A process of the selected profile, as its source is, survived.
    ghost predicate SelectedSurvives(found: map<Engine, Found>, f: Files)
    {
      f.journal.None? && f.active.Some? && f.active.value in f.sources
      && Survives(found, f.active, ContentRevision(f.sources[f.active.value]))
    }

    // Running only with the profile and at the revision the journal names: what a
    // committed switch committed, what ran before a prepared one. Without a
    // journal, with the selected profile as it is.
    ghost predicate RunsAsJournaled(f: Files)
      reads this, lifecycle, disk
    {
      match f.journal
      case None => RunsSelected()
      case Some(t) =>
        && (t.phase.Committed? ==> RunsRecovered(Some(t.target), t.newRevision))
        && (t.phase.Prepared? ==> RunsRecovered(t.prior, t.oldRevision))
    }

    // What the journal names survived the crash.
    ghost predicate JournaledSurvives(found: map<Engine, Found>, f: Files)
    {
      f.journal.Some? && var t := f.journal.value;
        && (t.phase.Committed? ==> Survives(found, Some(t.target), t.newRevision))
        && (t.phase.Prepared? ==> Survives(found, t.prior, t.oldRevision))
    }

    // It runs again.
    ghost predicate SurvivorUp(found: map<Engine, Found>, f: Files)
      requires JournaledSurvives(found, f)
      reads lifecycle
    {
      var t := f.journal.value;
      lifecycle.IsUp(found[(if t.phase.Committed? then t.target else t.prior.value).engine].g)
    }

    // The disk is the recovered one and its journal is still there: reconciles the
    // process found with what the journal names, and then drops the journal.
    method ReconcileJournaled(found: map<Engine, Found>, handoff: bool, startStopped: bool)
      returns (ok: bool, handedOff: bool, adopted: bool, ghost adoption: Adoption)
      requires Wired() && lifecycle.AtRest() && lifecycle.state == Unset
      requires lifecycle.host.live == map[] && lifecycle.host.running.None? && Adoptable(found, lifecycle.host)
      requires disk.files.journal.Some? && Recoverable(disk.files) && Recovered(disk.files) == disk.files
      modifies lifecycle, lifecycle.host, disk
      ensures lifecycle.AtRest() && RunsAsJournaled(old(disk.files))
      ensures adoption.NotAdopted? ==> lifecycle.state == Unset && lifecycle.trace == old(lifecycle.trace)
      ensures adoption.Accepted? <==> adopted
      ensures adopted ==> Reconciled()
      ensures adoption.Rejected? ==> lifecycle.state in {Unset, Failed, CleanupFailed}
      ensures adoption.Rejected? ==> (adoption.absent <==> lifecycle.absences > old(lifecycle.absences))
      ensures handedOff ==> handoff && adopted && lifecycle.state == Running
      ensures disk.files.journal != old(disk.files).journal ==>
                && Finished(old(disk.files).(journal := None, shared := disk.files.shared))
                && adoption != Rejected(false)
      ensures ok ==> disk.files.journal.None?
      ensures old(disk.Calm()) && !ok ==>
                !adopted && disk.files.journal == old(disk.files).journal && adoption in {NotAdopted, Rejected(false)}
      ensures old(Foreign(found, Selected(disk.files), disk.files.active)) && old(disk.Calm()) ==>
                ok && adoption == Rejected(true) && lifecycle.state == CleanupFailed && StillLive(found)
      ensures old(disk.Calm()) && Ready() && JournaledSurvives(found, old(disk.files)) && (handoff || !startStopped) ==>
                ok && adopted && SurvivorUp(found, old(disk.files)) && (handoff ==> handedOff)
    {
      var (wanted, required, recovering) := switcher.RecoveryProfile();
      var absent;
      handedOff, adopted, absent, adoption :=
        ReconcileProcess(found, Selected(disk.files), wanted, required, handoff, startStopped);
      ok := adopted || absent;
      if ok { ok := switcher.CompleteRecovery(); }
    }

    // A started manager whose disk is the recovered one.
    method Resume(found: map<Engine, Found>, noCore: bool, linux: bool, handoff: bool, startStopped: bool)
      returns (ok: bool, ghost adoption: Adoption)
      requires Wired() && lifecycle.AtRest() && lifecycle.state == Unset
      requires lifecycle.host.live == map[] && lifecycle.host.running.None? && Adoptable(found, lifecycle.host)
      requires Recoverable(disk.files) && Recovered(disk.files) == disk.files
      modifies lifecycle, lifecycle.host, disk
      ensures lifecycle.AtRest() && RunsAsJournaled(old(disk.files))
      ensures adoption.NotAdopted? ==> lifecycle.state == Unset && lifecycle.trace == old(lifecycle.trace)
      ensures adoption.Accepted? ==> Reconciled()
      ensures adoption.Rejected? ==> lifecycle.state in {Unset, Failed, CleanupFailed}
      ensures adoption.Rejected? ==> (adoption.absent <==> lifecycle.absences > old(lifecycle.absences))
      ensures disk.files.journal != old(disk.files).journal ==>
                && Finished(old(disk.files).(journal := None, shared := disk.files.shared))
                && adoption != Rejected(false)
      ensures old(disk.files).journal.Some? && !adoption.NotAdopted? && old(disk.Calm()) ==>
                (disk.files.journal.None? && !Reconciled() <==> adoption == Rejected(true))
      ensures ok && handoff ==> lifecycle.state == Running
      ensures ok && noCore ==> disk.files.journal == old(disk.files).journal && lifecycle.state == Unset
      ensures ok && !noCore ==> disk.files.journal.None?
      ensures old(LeftBehind(found)) && !noCore && linux && !handoff ==>
                && ok && adoption == Rejected(true)
                && lifecycle.state == CleanupFailed && StillLive(found)
      ensures old(disk.Calm()) && Ready() && JournaledSurvives(found, old(disk.files)) && !noCore && linux
              && (handoff || !startStopped) ==>
                ok && adoption.Accepted? && SurvivorUp(found, old(disk.files)) && disk.files.journal.None?
      ensures Ready() && SelectedSurvives(found, old(disk.files)) && !noCore && linux && (handoff || !startStopped) ==>
                ok && adoption.Accepted? && lifecycle.IsUp(found[old(disk.files).active.value.engine].g)
    {
      adoption := NotAdopted;
      var handedOff := false;
      if !noCore && linux {
        var adopted, absent;
        if disk.files.journal.Some? {
          ok, handedOff, adopted, adoption := ReconcileJournaled(found, handoff, startStopped);
          if !ok { return; }
        } else {
          handedOff, adopted, absent, adoption :=
            ReconcileProcess(found, Selected(disk.files), disk.files.active, "", handoff, startStopped);
        }
        if handoff && !adopted { return false, adoption; }
      } else if !noCore {
        ok := switcher.CompleteRecovery();
        if !ok { return; }
      }
      ok := !handoff || handedOff;
    }

    // `found` is what each backend reports about a process that outlived the
    // crash, `handoff` whether a verified handoff was requested.
    method Start(found: map<Engine, Found>, noCore: bool, linux: bool, handoff: bool, startStopped: bool)
      returns (ok: bool, ghost adoption: Adoption)
      requires Wired() && lifecycle.AtRest() && lifecycle.state == Unset
      requires lifecycle.host.live == map[] && lifecycle.host.running.None?
      requires Adoptable(found, lifecycle.host) && !disk.crashed
      modifies lifecycle, lifecycle.host, disk
      ensures lifecycle.AtRest() && RunsAsJournaled(old(disk.files))
      // What each outcome of the adoption says about the process.
      ensures adoption.NotAdopted? ==> lifecycle.state == Unset && lifecycle.trace == old(lifecycle.trace)
      ensures adoption.Accepted? ==> Reconciled()
      ensures adoption.Rejected? ==> lifecycle.state in {Unset, Failed, CleanupFailed}
      ensures adoption.Rejected? ==> (adoption.absent <==> lifecycle.absences > old(lifecycle.absences))
      // The journal goes only after the selection was recovered. It goes with an
      // adopted process neither running as recovered nor discarded if, as long as
      // the disk takes the writes, and only if a failed call read as not-exist.
      ensures disk.files.journal != old(disk.files).journal ==>
                && Recoverable(old(disk.files))
                && Finished(Recovered(old(disk.files)).(journal := None, shared := disk.files.shared))
                && adoption != Rejected(false)
      ensures old(disk.files).journal.Some? && !adoption.NotAdopted? && old(disk.Calm()) ==>
                (disk.files.journal.None? && !Reconciled() <==> adoption == Rejected(true))
      ensures ok && handoff ==> lifecycle.state == Running
      ensures ok && noCore ==> disk.files.journal == old(disk.files).journal && lifecycle.state == Unset
      ensures ok && !noCore ==> disk.files.journal.None?
      ensures old(LeftBehind(found)) && !noCore && linux && !handoff ==>
                && ok && adoption == Rejected(true)
                && lifecycle.state == CleanupFailed && StillLive(found)
      // When no call fails, the generation the journal names is taken over: the
      // target of a committed switch, the old one of a prepared switch.
      ensures old(disk.Calm()) && Recoverable(old(disk.files)) && Ready() && JournaledSurvives(found, old(disk.files))
              && !noCore && linux && (handoff || !startStopped) ==>
                ok && adoption.Accepted? && SurvivorUp(found, old(disk.files)) && disk.files.journal.None?
      ensures Ready() && SelectedSurvives(found, old(disk.files)) && !noCore && linux && (handoff || !startStopped) ==>
                ok && adoption.Accepted? && lifecycle.IsUp(found[old(disk.files).active.value.engine].g)
    {
      adoption := NotAdopted;
      ok := switcher.RecoverSelection();
      if !ok { return; }
      RecoveryIdempotent(old(disk.files));
      ok, adoption := Resume(found, noCore, linux, handoff, startStopped);
    }

    // An interrupted switch that recovers to another profile than the one whose
    // process is found.
    ghost predicate LeftBehind(found: map<Engine, Found>)
      reads this, lifecycle, lifecycle.host, disk
    {
      && disk.Calm() && disk.files.journal.Some? && Recoverable(disk.files)
      && Foreign(found, Selected(Recovered(disk.files)), Recovered(disk.files).active)
    }
  }

  // A generation of the profile that was selected before a switch, at the revision
  // that ran then, or else at that of its source.
  ghost predicate RanBefore(g: Generation, before: Files, live: Option<Generation>) {
    && before.active.Some? && before.active.value in before.sources
    && PreparedMatchesProfile(g, before.active.value)
    && g.revision ==
         if live.Some? && PreparedMatchesProfile(live.value, before.active.value) && live.value.revision != ""
         then live.value.revision else ContentRevision(before.sources[before.active.value])
  }

  // A generation of the target, at the revision of its source.
  ghost predicate IsTargets(g: Generation, before: Files, target: Profile) {
    && target in before.sources
    && PreparedMatchesProfile(g, target) && g.revision == ContentRevision(before.sources[target])
  }

  // The one of the two a switch left behind, as its journal says.
  ghost predicate Owed(g: Generation, before: Files, left: Files, target: Profile, live: Option<Generation>) {
    left.journal.Some? &&
    if left.journal.value.phase.Committed? then IsTargets(g, before, target) else RanBefore(g, before, live)
  }

  ghost predicate Alone(found: map<Engine, Found>, g: Generation, host: EngineHost) {
    && g.engine in found && found[g.engine].Process? && found[g.engine].g == g && g.engine in host.backends
    && found[g.engine].health.running && found[g.engine].pid > 1
  }

  // What the journal of a switch says is true of the disk before it.
  ghost predicate Truthful(t: Transition, before: Files, target: Profile, live: Option<Generation>) {
    && t.target == target && Remembers(t, before, live)
    && (t.phase.Committed? ==> StillAt(before, target, t.newRevision))
  }

  // A switch that may die anywhere, and the manager that comes after it.
  method SwitchThenDie(switching: Switching, target: Profile, panel: bool, host: EngineHost, world: World)
    returns (manager: Manager)
    requires switching.Wired() && switching.lifecycle.AtRest() && !switching.disk.crashed
    requires SourceKept(switching.disk.files)
    requires switching.disk.files.active != Some(target) && switching.disk.files.journal.None?
    requires host.Valid() && host != switching.lifecycle.host
    modifies switching.lifecycle, switching.lifecycle.host, switching.lifecycle.guard, switching.disk
    ensures fresh(manager) && fresh(manager.lifecycle) && manager.Wired() && manager.disk == switching.disk
    ensures manager.lifecycle.AtRest() && manager.lifecycle.state == Unset && manager.lifecycle.host == host
    ensures !manager.disk.crashed && (old(switching.disk.Calm()) ==> manager.disk.Calm())
    ensures manager.disk.files.journal.Some? ==>
              && Recoverable(manager.disk.files)
              && Truthful(manager.disk.files.journal.value, old(switching.disk.files), target, old(switching.Live()))
  {
    ghost var g, committed, compensated;
    var switched;
    switched, g, committed, compensated := switching.Switch(target, true, panel);
    switching.disk.Reboot();
    var lifecycle := OpenLifecycle(host, switching.switcher, true, true, 3, world);
    manager := new Manager(lifecycle);
  }

  // A switch that may die anywhere, and the next start. If a journal is left, only
  // the generation it owes runs: the target at the committed content, or what ran
  // before. When no call of the start fails, that generation is taken over if it
  // survived, and the journal is gone.
  method SwitchThenStart(switching: Switching, target: Profile, panel: bool, host: EngineHost,
                         found: map<Engine, Found>, handoff: bool, startStopped: bool, world: World)
    returns (manager: Manager, ghost left: Files, ok: bool)
    requires switching.Wired() && switching.lifecycle.AtRest() && !switching.disk.crashed
    requires SourceKept(switching.disk.files)
    requires switching.disk.files.active != Some(target) && switching.disk.files.journal.None?
    requires host.Valid() && host.live == map[] && host.running.None? && Adoptable(found, host)
    requires host != switching.lifecycle.host
    modifies switching.lifecycle, switching.lifecycle.host, switching.lifecycle.guard, switching.disk, host
    ensures fresh(manager) && manager.lifecycle.AtRest() && manager.lifecycle.host == host
    ensures manager.lifecycle.state == Running && left.journal.Some? ==>
              Owed(manager.lifecycle.prepared.value, old(switching.disk.files), left, target, old(switching.Live()))
    ensures forall g | Owed(g, old(switching.disk.files), left, target, old(switching.Live())) && Alone(found, g, host)
                       && manager.Ready() && old(switching.disk.Calm()) && (handoff || !startStopped) ::
              ok && manager.lifecycle.IsUp(g) && switching.disk.files.journal.None?
  {
    manager := SwitchThenDie(switching, target, panel, host, world);
    left := switching.disk.files;
    ghost var adoption;
    ok, adoption := manager.Start(found, false, true, handoff, startStopped);
  }

  // The manager died while switching from a Mihomo profile a to a sing-box
  // profile b, with the sing-box core up.
  function Interrupted(a: Profile, b: Profile): Files {
    var t := Transition(Some(a), b, "v", "w", None, None, Prepared);
    Files(Some(a), map[Mihomo := "v"], map[], map[a := "v", b := "w"], None, Some(t))
  }

  lemma InterruptedRecovers(a: Profile, b: Profile)
    requires a.engine.Mihomo? && b.engine.SingBox?
    ensures Recoverable(Interrupted(a, b)) && Recovered(Interrupted(a, b)).active == Some(a)
  {
  }

  // The next manager on that disk, on a router without its dnsmasq script, so
  // that capture cannot be removed; and the process it finds.
  method AfterCrash(a: Profile, b: Profile) returns (manager: Manager, found: map<Engine, Found>)
    requires a.engine.Mihomo? && b.engine.SingBox?
    ensures manager.Wired() && manager.lifecycle.AtRest() && manager.lifecycle.state == Unset
    ensures manager.lifecycle.host.live == map[] && manager.lifecycle.host.running.None?
    ensures fresh(manager.lifecycle) && fresh(manager.lifecycle.host) && fresh(manager.disk)
    ensures found.Keys == {SingBox} && Adoptable(found, manager.lifecycle.host)
    ensures manager.disk.files == Interrupted(a, b) && manager.LeftBehind(found)
  {
    var disk := new Disk(Interrupted(a, b), Exactly({}));
    var switcher := new ProfileSwitcher(disk);
    var host := new EngineHost({Mihomo, SingBox}, {0}, 1);
    var lifecycle := OpenLifecycle(host, switcher, true, true, 3, Exactly({DropCapture}));
    manager := new Manager(lifecycle);
    var g := Generation(SingBox, 0, ProfilePath(b), "w", CapturePlan(0, true, [], []));
    found := map[SingBox := Process(g, Health(true, true, true, false, false), 2)];
    InterruptedRecovers(a, b);
  }

  // Startup succeeds all the same: the journal is gone, and the core that does
  // not belong to the recovered profile is alive.
  method MissingScript(a: Profile, b: Profile) returns (manager: Manager, ok: bool)
    requires a.engine.Mihomo? && b.engine.SingBox?
    ensures ok && manager.disk.files.journal.None? && manager.disk.files.active == Some(a)
    ensures manager.lifecycle.state == CleanupFailed && SingBox in manager.lifecycle.host.live
  {
    var found;
    manager, found := AfterCrash(a, b);
    InterruptedRecovers(a, b);
    ghost var adoption;
    ok, adoption := manager.Start(found, false, true, false, false);
  }
}
