// Publishing a dashboard tree by renames, and recovering after an interruption.
// Each rename or removal is one step; the process may die before any of them,
// and what the directory holds then stays as it was.

module Dashboard {
  import opened Types

  // A directory: a whole verified tree, or the remains of one.
  datatype Dir = Complete(version: nat) | Partial(hasIndex: bool) {
    // What recovery looks at.
    predicate Installed() { Complete? || hasIndex }
  }

  // The only backup is a whole tree of this version.
  ghost predicate Sole(backups: map<nat, Dir>, version: nat) {
    exists name :: name in backups && backups == map[name := Complete(version)]
  }

  // Nothing is lost: the ui directory is a whole tree, or it is absent and the
  // only backup is one.
  ghost predicate Safe(ui: Option<Dir>, backups: map<nat, Dir>) {
    if ui.Some? then ui.value.Complete? else exists version :: Sole(backups, version)
  }

  // The tree that is served, or that recovery will put back.
  ghost function Served(ui: Option<Dir>, backups: map<nat, Dir>): nat
    requires Safe(ui, backups)
  {
    if ui.Some? then ui.value.version
    else var version :| Sole(backups, version); version
  }

  lemma SoleUnique(backups: map<nat, Dir>, v: nat, w: nat)
    requires Sole(backups, v) && Sole(backups, w)
    ensures v == w
  {
    var name :| name in backups && backups == map[name := Complete(v)];
    assert backups[name] == Complete(v);
  }

  lemma ServedBackup(backups: map<nat, Dir>, name: nat, version: nat)
    requires backups == map[name := Complete(version)]
    ensures Safe(None, backups) && Served(None, backups) == version
  {
    assert name in backups;
    assert Sole(backups, version);
    SoleUnique(backups, version, Served(None, backups));
  }

  // With a single backup there is no choice.
  lemma OnlyOne(backups: map<nat, Dir>, name: nat)
    requires |backups| == 1 && name in backups
    ensures backups == map[name := backups[name]] && backups.Values == {backups[name]}
    ensures Safe(None, backups) ==> backups[name] == Complete(Served(None, backups))
  {
    assert |backups.Keys - {name}| == 0;
    assert backups == map[name := backups[name]];
    if Safe(None, backups) {
      var version := Served(None, backups);
      var n :| n in backups && backups == map[n := Complete(version)];
    }
  }

  // The directory a first installation leaves when it is interrupted between
  // making and removing the reserved name.
  const EMPTY := Partial(false)

  // Not a whole tree anywhere: nothing at all, or empty leftovers.
  ghost predicate Hollow(ui: Option<Dir>, backups: map<nat, Dir>) {
    && (ui.Some? ==> ui.value == EMPTY)
    && (forall name | name in backups :: backups[name] == EMPTY)
    && |backups| <= 1
  }

  // How an attempt ended that began without a whole tree: one was put in place;
  // the reserved name was made but not removed; or neither.
  datatype Trial = Placed | Interrupted | Neither

  // Leftovers are what recovery will find exactly when some attempt was
  // interrupted in that way and none put a whole tree in place.
  predicate LeftoversOnly(log: seq<Trial>) { Interrupted in log && Placed !in log }

  class DashboardRoot {
    const world: World
    var ui: Option<Dir>
    var backups: map<nat, Dir>  // directories kept under the name of a previous tree
    var crashed: bool

    ghost predicate Recoverable()
      reads this
    {
      Safe(ui, backups)
    }

    ghost function Visible(): nat
      requires Recoverable()
      reads this
    {
      Served(ui, backups)
    }

    ghost predicate Empty()
      reads this
    {
      Hollow(ui, backups)
    }

    // Nothing has been installed and nothing left over.
    ghost predicate Fresh()
      reads this
    {
      ui == None && backups == map[]
    }

    // A determined world in which the manager is alive.
    ghost predicate Steady()
      reads this
    {
      world.Exactly? && !crashed
    }

    constructor (version: nat)
      ensures Recoverable() && Visible() == version && !crashed && backups == map[] && world.Any?
    {
      ui, backups, crashed, world := Some(Complete(version)), map[], false, Any;
    }

    constructor Bare(world: World)
      ensures Fresh() && !crashed && this.world == world
    {
      ui, backups, crashed, this.world := None, map[], false, world;
    }

    // -------------------------------------------------------- single effects

    method Try(e: Effect) returns (ok: bool)
      modifies this`crashed
      ensures old(crashed) ==> crashed
      ensures ok ==> !crashed
      ensures old(Steady()) ==> !crashed && world.Fixes(e, ok)
    {
      var dies := Dies(world);
      crashed := crashed || dies;
      ok := Attempt(world, e);
      ok := ok && !crashed;
    }

    // Makes a directory of an unused name and removes it again, to reserve the
    // name. `left` tells that the empty directory stays behind.
    method Reserve(name: nat) returns (ok: bool, ghost left: bool)
      modifies this`crashed, this`backups
      ensures old(crashed) ==> crashed && !left
      ensures ok ==> !crashed && !left && name !in backups
      ensures left ==> name !in old(backups)
      ensures backups == if left then old(backups)[name := EMPTY] else old(backups)
      ensures old(Steady()) && old(backups) == map[] && world.failing == {ClearName} ==> left && !crashed
      ensures old(Steady()) ==>
                !crashed && (world.failing !! {WriteFile, ClearName} && name !in old(backups) ==> ok)
    {
      left := false;
      ok := Try(WriteFile);
      if !ok || name in backups { return false, false; }
      backups := backups[name := EMPTY];
      ok := Try(ClearName);
      if ok {
        backups := backups - {name};
        assert backups == old(backups);
      } else {
        left := true;
      }
    }

    method RenameUiToBackup(name: nat) returns (ok: bool)
      requires ui.Some?
      modifies this`crashed, this`ui, this`backups
      ensures old(crashed) ==> crashed
      ensures ok ==> !crashed && ui == None && backups == old(backups)[name := old(ui).value]
      ensures !ok ==> ui == old(ui) && backups == old(backups)
      ensures old(Steady()) ==> !crashed && world.Fixes(WriteFile, ok)
    {
      ok := Try(WriteFile);
      if ok { ui, backups := None, backups[name := ui.value]; }
    }

    method RenameBackupToUi(name: nat) returns (ok: bool)
      requires ui.None? && name in backups
      modifies this`crashed, this`ui, this`backups
      ensures old(crashed) ==> crashed
      ensures ok ==> !crashed && ui == Some(old(backups)[name]) && backups == old(backups) - {name}
      ensures !ok ==> ui == old(ui) && backups == old(backups)
      ensures old(Steady()) ==> !crashed && world.Fixes(WriteFile, ok)
    {
      ok := Try(WriteFile);
      if ok { ui, backups := Some(backups[name]), backups - {name}; }
    }

    method RenameStagedToUi(version: nat) returns (ok: bool)
      requires ui.None?
      modifies this`crashed, this`ui
      ensures old(crashed) ==> crashed
      ensures ok ==> !crashed && ui == Some(Complete(version))
      ensures !ok ==> ui == old(ui)
      ensures old(Steady()) ==> !crashed && world.Fixes(WriteFile, ok)
    {
      ok := Try(WriteFile);
      if ok { ui := Some(Complete(version)); }
    }

    method RenameUiToFailed() returns (ok: bool)
      modifies this`crashed, this`ui
      ensures old(crashed) ==> crashed
      ensures ok ==> !crashed && ui == None
      ensures !ok ==> ui == old(ui)
      ensures old(Steady()) ==> !crashed && world.Fixes(WriteFile, ok)
    {
      ok := Try(WriteFile);
      if ok { ui := None; }
    }

    // Removal of a tree file by file. Only a crash stops it half way.
    method RemoveBackup(name: nat)
      requires name in backups
      modifies this`crashed, this`backups
      ensures old(crashed) ==> crashed && backups == old(backups)
      ensures backups - {name} == old(backups) - {name}
      ensures !crashed ==> backups == old(backups) - {name}
      ensures old(Steady()) ==> !crashed
    {
      var alive := Try(WriteFile);
      if crashed { return; }
      var index: bool := *;
      backups := backups[name := Partial(index)];
      alive := Try(WriteFile);
      if !crashed { backups := backups - {name}; }
    }

    // ---------------------------------------------------------- publishing

    // Replaces the served tree. Whatever fails, and wherever it is interrupted,
    // the old tree or the whole new one can still be served. Without an old tree
    // the new one is put in place as a whole, or only empty directories are left,
    // and a new one of those exactly when the reservation was interrupted.
    method Publish(staged: nat) returns (ok: bool, ghost left: bool)
      requires !crashed && backups == map[] && (ui.Some? ==> ui.value.Complete? || ui.value == EMPTY)
      modifies this
      ensures old(Recoverable()) ==> Recoverable() && (Visible() == old(ui.value.version) || Visible() == staged)
      ensures !old(Recoverable()) ==>
                || (!left && ui == Some(Complete(staged)))
                || (Empty() && (left ==> ui == old(ui) && backups != map[]) && (!left ==> (Fresh() <==> old(Fresh()))))
      ensures ok ==> ui == Some(Complete(staged))
      ensures old(Steady()) && world.failing == {ClearName} ==> left && !crashed
      ensures old(Steady()) && world.failing == {} ==> ok && backups == map[] && !crashed
      // A publication that is not durable is taken back.
      ensures old(Steady()) && world.failing == {SyncName} ==> !ok && !left && ui == old(ui) && backups == map[]
    {
      var backup: nat := *;
      var reserved;
      reserved, left := Reserve(backup);
      if !reserved {
        if left { assert backups == map[backup := EMPTY] && |backups| == 1; }
        return false, left;
      }
      var hadPrevious := ui.Some?;
      if hadPrevious {
        var moved := RenameUiToBackup(backup);
        if !moved { return false, left; }
        assert backups == map[backup := old(ui).value];
        if old(ui).value.Complete? { ServedBackup(backups, backup, old(ui.value.version)); }
      }
      var published := RenameStagedToUi(staged);
      if !published {
        if hadPrevious { var restored := RenameBackupToUi(backup); }
        return false, left;
      }
      var synced := Try(SyncName);
      if !synced {
        RollbackPublished(backup, hadPrevious);
        return false, left;
      }
      if hadPrevious {
        RemoveBackup(backup);
        var durable := Try(SyncName);
      }
      ok := true;
    }

    // The new tree is in place but its publication may not be durable.
    method RollbackPublished(backup: nat, hadPrevious: bool)
      requires ui.Some? && ui.value.Complete?
      requires hadPrevious ==> backup in backups && backups == map[backup := backups[backup]]
      modifies this
      ensures hadPrevious && old(backups[backup].Complete?) ==>
                Recoverable() && (Visible() == old(ui.value.version) || Visible() == old(backups[backup].version))
      ensures hadPrevious ==>
                || (ui in {old(ui), None} && backups == old(backups))
                || (ui == Some(old(backups[backup])) && backups == map[])
      ensures !hadPrevious ==> ui in {None, old(ui)} && backups == old(backups)
      ensures old(Steady()) && WriteFile !in world.failing ==>
                !crashed && (if hadPrevious then ui == Some(old(backups[backup])) && backups == map[] else ui.None?)
    {
      var reserved := Try(WriteFile);
      if !reserved { return; }
      var staged := RenameUiToFailed();
      if !staged { return; }
      if hadPrevious {
        if backups[backup].Complete? { ServedBackup(backups, backup, backups[backup].version); }
        var restored := RenameBackupToUi(backup);
        if !restored { return; }
      }
      var synced := Try(SyncName);
    }

    // ------------------------------------------------------------ recovery

    // Removes every backup, in some order.
    method RemoveBackups()
      modifies this`crashed, this`backups
      ensures old(crashed) ==> crashed
      ensures !crashed ==> backups == map[]
      ensures old(Steady()) ==> !crashed
    {
      var names := backups.Keys;
      while names != {}
        invariant old(crashed) ==> crashed
        invariant names <= backups.Keys
        invariant !crashed ==> backups.Keys == names
        invariant old(Steady()) ==> !crashed
        decreases |names|
      {
        var name :| name in names;
        var rest := backups - {name};
        RemoveBackup(name);
        assert backups.Keys >= rest.Keys;
        names := names - {name};
      }
    }

    // Recovery after an interruption. From a recoverable state it never changes
    // which tree is visible, whether it finishes, fails or is interrupted; when
    // it finishes, that tree is in place and no backup is left. It puts a single
    // leftover in place whatever that holds, and refuses to choose between
    // several or to replace a ui directory that is not a tree.
    method Recover() returns (ok: bool)
      modifies this
      ensures old(crashed) ==> crashed
      ensures old(Recoverable()) ==> Recoverable() && Visible() == old(Visible())
      ensures old(Recoverable()) && ok && !crashed ==> ui.Some? && backups == map[]
      ensures old(ui.None? && |backups| > 1) ==> !ok && ui.None?
      ensures old(ui.None? && |backups| == 1) && ok ==>
                ui.Some? && old(backups.Values) == {ui.value} && backups == map[]
      ensures old(backups == map[]) ==> ui == old(ui) && backups == old(backups)
      ensures old(ui.Some? && !ui.value.Installed() && backups != map[]) ==>
                !ok && ui == old(ui) && backups == old(backups)
      ensures !old(ui.Some? && ui.value.Installed()) && !ok ==>
                || (ui == old(ui) && backups == old(backups))
                || (old(ui.None? && |backups| == 1) && ui.Some? && old(backups.Values) == {ui.value}
                    && backups == map[])
      ensures old(Steady() && (ui.None? || backups == map[]) && |backups| <= 1) && world.failing == {ClearName} ==>
                ok && !crashed
      ensures old(Steady()) && world.failing == {} ==>
                && !crashed
                && (ok <==> old(backups == map[] || (if ui.None? then |backups| == 1 else ui.value.Installed())))
                && (ok ==> backups == map[])
    {
      var found := Try(Prepare);
      if !found { return false; }
      if backups == map[] { return true; }
      var inspected := Try(Prepare);
      if !inspected { return false; }
      if ui.Some? && ui.value.Installed() {
        RemoveBackups();
        var synced := Try(SyncName);
        return true;
      }
      if ui.Some? || |backups| != 1 { return false; }
      var name :| name in backups;
      OnlyOne(backups, name);
      ok := RenameBackupToUi(name);
      if ok { ok := Try(SyncName); }
    }

    // ------------------------------------------------------------ whole runs

    // One installation attempt: recovery first, then staging a verified tree,
    // then its publication unless it is the installed version already.
    method Install(staged: nat) returns (ok: bool, ghost attempt: Trial)
      requires (Recoverable() || Empty()) && !crashed
      modifies this
      ensures old(Recoverable()) ==> Recoverable() && (Visible() == old(Visible()) || Visible() == staged)
      ensures !old(Recoverable()) ==>
                match attempt
                case Placed => ui == Some(Complete(staged))
                case Interrupted => Empty() && backups != map[]
                case Neither => Empty() && (Fresh() <==> old(Fresh()))
      ensures old(Steady()) && old(Empty()) && world.failing == {ClearName} && old(ui.None? || backups == map[]) ==>
                !ok && attempt == Interrupted && !crashed && (old(Fresh()) ==> ui.None?)
      ensures old(Steady()) && old(Empty()) && world.failing == {ClearName} && old(ui.Some? && backups == map[]) ==>
                ui == old(ui)
      ensures old(Steady()) && old(Recoverable() || Fresh()) && world.failing == {} ==>
                ok && ui == Some(Complete(staged)) && backups == map[]
    {
      attempt := Neither;
      ok := Recover();
      if !ok || crashed { return false, Neither; }
      var prepared := Try(Prepare);
      if !prepared { return false, Neither; }
      if ui == Some(Complete(staged)) { return true, Neither; }
      ghost var left;
      ok, left := Publish(staged);
      attempt := if left then Interrupted else if ui == Some(Complete(staged)) then Placed else Neither;
    }

    method Restart()
      modifies this`crashed
      ensures !crashed
    {
      crashed := false;
    }

    // Any number of installation and recovery attempts, each interrupted
    // anywhere, followed by one recovery. If that finishes, the served directory
    // is one whole tree: the first one or one that was fully staged.
    method InstallAndRecover(attempts: seq<nat>) returns (ok: bool)
      requires Recoverable() && !crashed
      modifies this
      ensures Recoverable() && (Visible() == old(Visible()) || Visible() in attempts)
      ensures ok && !crashed ==> backups == map[] && ui == Some(Complete(Visible()))
    {
      for i := 0 to |attempts|
        invariant Recoverable() && (Visible() == old(Visible()) || Visible() in attempts[..i]) && !crashed
      {
        assert attempts[..i + 1] == attempts[..i] + [attempts[i]];
        var recoverOnly: bool := *;
        if recoverOnly {
          ok := Recover();
        } else {
          ghost var attempt;
          ok, attempt := Install(attempts[i]);
        }
        Restart();
      }
      ok := Recover();
    }

    // The same from a root without a dashboard. A recovery that finishes leaves
    // no tree or one whole staged tree, unless an attempt was interrupted between
    // making and removing its reserved name and none put a tree in place: then,
    // and only then, it leaves an empty directory.
    method FirstInstallAndRecover(attempts: seq<nat>) returns (ok: bool, ghost log: seq<Trial>)
      requires Fresh() && !crashed
      modifies this
      ensures |log| <= |attempts|
      ensures ok && !crashed ==>
                (ui == None || (ui.value.Complete? && ui.value.version in attempts) <==> !LeftoversOnly(log))
      ensures ok && !crashed && LeftoversOnly(log) ==> ui == Some(EMPTY)
    {
      log := [];
      for i := 0 to |attempts|
        invariant |log| <= i && !crashed
        invariant Placed in log ==> Recoverable() && Visible() in attempts[..i]
        invariant Placed !in log ==> Empty() && (Fresh() <==> Interrupted !in log)
      {
        assert attempts[..i + 1] == attempts[..i] + [attempts[i]];
        var recoverOnly: bool := *;
        if recoverOnly {
          ok := Recover();
        } else {
          ghost var attempt;
          ok, attempt := Install(attempts[i]);
          log := log + [attempt];
        }
        Restart();
      }
      ok := Recover();
    }
  }

  // Two first installations, each interrupted while it reserves a name: the
  // first recovery puts an empty directory in place, and after the second every
  // recovery refuses.
  method InterruptedTwice(version: nat) returns (root: DashboardRoot, first: bool, second: bool)
    ensures first && !second
    ensures root.ui == Some(EMPTY) && root.backups != map[]
  {
    root := new DashboardRoot.Bare(Exactly({ClearName}));
    ghost var attempt;
    var ok: bool;
    ok, attempt := root.Install(version);
    first := root.Recover();
    ok, attempt := root.Install(version);
    second := root.Recover();
  }
}
