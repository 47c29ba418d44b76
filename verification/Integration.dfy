// Installing the system files of a manager release and putting the previous
// ones back when the update does not work out.

module Integration {
  import opened Types
  import opened Sorting

  type Path = string

  datatype Content = Content(mode: nat, data: seq<nat>)

  // A file as recorded in a plan or snapshot.
  datatype IntegrationFile = IntegrationFile(path: Path, present: bool, mode: nat, data: seq<nat>)

  // A file of a release manifest.
  datatype ManifestFile = ManifestFile(path: Path, mode: nat, preserve: bool, data: seq<nat>)

  type Disk = map<Path, Content>

  // The administrator's configuration.
  const UCI: Path := "etc/config/boxctl"

  function At(disk: Disk, path: Path): Option<Content> { if path in disk then Some(disk[path]) else None }

  function Wanted(file: IntegrationFile): Option<Content> {
    if file.present then Some(Content(file.mode, file.data)) else None
  }

  predicate SameIntegrationFile(a: IntegrationFile, b: IntegrationFile) {
    a.present == b.present && (!a.present || (a.mode == b.mode && a.data == b.data))
  }

  function ReadFile(disk: Disk, path: Path): IntegrationFile {
    if path in disk then IntegrationFile(path, true, disk[path].mode, disk[path].data)
    else IntegrationFile(path, false, 0, [])
  }

  function Snapshot(disk: Disk, paths: seq<Path>): seq<IntegrationFile> {
    seq(|paths|, i requires 0 <= i < |paths| => ReadFile(disk, paths[i]))
  }

  ghost predicate DistinctPaths(files: seq<IntegrationFile>) {
    forall i, j | 0 <= i < j < |files| :: files[i].path != files[j].path
  }

  // Whether apply leaves the file alone whatever it contains.
  predicate Protected(disk: Disk, path: Path, restoring: bool) {
    path == UCI && (restoring || path in disk)
  }

  function Put(disk: Disk, file: IntegrationFile): Disk {
    if file.present then disk[file.path := Content(file.mode, file.data)] else disk - {file.path}
  }

  // The disk once the first n files have been applied.
  function Applied(disk: Disk, files: seq<IntegrationFile>, n: nat, restoring: bool): Disk
    requires n <= |files|
  {
    if n == 0 then disk
    else
      var before := Applied(disk, files, n - 1, restoring);
      if Protected(before, files[n - 1].path, restoring) then before else Put(before, files[n - 1])
  }

  // What each path holds afterwards: its planned content, if it is among the
  // files applied and not protected, and otherwise what it held before.
  lemma {:induction false} AppliedAt(disk: Disk, files: seq<IntegrationFile>, n: nat, restoring: bool, path: Path)
    requires n <= |files| && DistinctPaths(files)
    ensures (forall i | 0 <= i < n :: files[i].path != path) ==>
              At(Applied(disk, files, n, restoring), path) == At(disk, path)
    ensures Protected(disk, path, restoring) ==> At(Applied(disk, files, n, restoring), path) == At(disk, path)
    ensures forall i | 0 <= i < n && files[i].path == path ::
        At(Applied(disk, files, n, restoring), path)
        == if Protected(disk, path, restoring) then At(disk, path) else Wanted(files[i])
  {
    if n > 0 { AppliedAt(disk, files, n - 1, restoring, path); }
  }

  // What verification accepts.
  predicate Matches(disk: Disk, file: IntegrationFile, restoring: bool) {
    Protected(disk, file.path, restoring) || SameIntegrationFile(ReadFile(disk, file.path), file)
  }

  ghost predicate AllMatch(disk: Disk, files: seq<IntegrationFile>, restoring: bool) {
    forall i | 0 <= i < |files| :: Matches(disk, files[i], restoring)
  }

  lemma SameMeaning(disk: Disk, file: IntegrationFile)
    ensures SameIntegrationFile(ReadFile(disk, file.path), file) <==> At(disk, file.path) == Wanted(file)
  {
  }

  // Applying all files makes verification pass.
  lemma AppliedMatches(disk: Disk, files: seq<IntegrationFile>, restoring: bool)
    requires DistinctPaths(files)
    ensures AllMatch(Applied(disk, files, |files|, restoring), files, restoring)
  {
    var after := Applied(disk, files, |files|, restoring);
    forall i | 0 <= i < |files| ensures Matches(after, files[i], restoring) {
      AppliedAt(disk, files, |files|, restoring, files[i].path);
      SameMeaning(after, files[i]);
    }
  }

  // A planned file set belongs to a snapshot when it names the same paths.
  ghost predicate SamePaths(a: seq<IntegrationFile>, b: seq<IntegrationFile>) {
    |a| == |b| && forall i | 0 <= i < |a| :: a[i].path == b[i].path
  }

  // Restoring the snapshot taken before undoes any part of an update: every path
  // but the administrator's file is as it was, that file is as it was if it
  // existed, and verification of the snapshot passes.
  lemma RestoreUndoes(disk: Disk, paths: seq<Path>, after: seq<IntegrationFile>, n: nat, restoring: bool, path: Path)
    requires SamePaths(after, Snapshot(disk, paths)) && DistinctPaths(after) && n <= |after|
    ensures var before := Snapshot(disk, paths);
      var updated := Applied(disk, after, n, restoring);
      var restored := Applied(updated, before, |before|, true);
      && (path != UCI || UCI in disk ==> At(restored, path) == At(disk, path))
      && (path == UCI ==> At(restored, path) == At(updated, path))
      && AllMatch(restored, before, true)
  {
    var before := Snapshot(disk, paths);
    var updated := Applied(disk, after, n, restoring);
    var restored := Applied(updated, before, |before|, true);
    assert DistinctPaths(before);
    AppliedAt(disk, after, n, restoring, path);
    AppliedAt(updated, before, |before|, true, path);
    AppliedMatches(updated, before, true);
    if i: int :| 0 <= i < |before| && before[i].path == path {
      assert Wanted(before[i]) == At(disk, path);
    } else {
      assert forall i | 0 <= i < n :: after[i].path == before[i].path;
    }
  }

  // -------------------------------------------------------------- planning

  // A validated manifest: each path once, only the administrator's file is a
  // default that an installed one takes precedence over.
  ghost predicate ValidManifest(files: seq<ManifestFile>) {
    && (forall i, j | 0 <= i < j < |files| :: files[i].path != files[j].path)
    && (forall i | 0 <= i < |files| :: files[i].preserve <==> files[i].path == UCI)
  }

  ghost predicate Indexed(desired: map<Path, ManifestFile>, files: seq<ManifestFile>, n: nat)
    requires n <= |files|
  {
    && (forall i | 0 <= i < n :: files[i].path in desired && desired[files[i].path] == files[i])
    && (forall p | p in desired :: exists i | 0 <= i < n :: files[i].path == p)
  }

  function Planned(desired: map<Path, ManifestFile>, actual: IntegrationFile): IntegrationFile {
    if actual.path !in desired then IntegrationFile(actual.path, false, 0, [])
    else
      var file := desired[actual.path];
      if file.preserve && actual.present then actual else IntegrationFile(actual.path, true, file.mode, file.data)
  }

  function PathsOf(manifest: seq<ManifestFile>): seq<Path> {
    seq(|manifest|, i requires 0 <= i < |manifest| => manifest[i].path)
  }

  // The release's content of a path, if it has one.
  ghost predicate Releases(manifest: seq<ManifestFile>, path: Path, content: Option<Content>) {
    if content.None? then forall i | 0 <= i < |manifest| :: manifest[i].path != path
    else exists i | 0 <= i < |manifest| ::
      manifest[i].path == path && content == Some(Content(manifest[i].mode, manifest[i].data))
  }

  datatype Plan = Plan(before: seq<IntegrationFile>, after: seq<IntegrationFile>, changed: bool)

  // What a plan is good for: it covers each path of the new and of the installed
  // release once, and applying it installs exactly the new release, removes what
  // only the old one had, and keeps the administrator's file.
  ghost predicate Sound(plan: Plan, disk: Disk, manifest: seq<ManifestFile>, paths: seq<Path>) {
    && plan.before == Snapshot(disk, paths)
    && SamePaths(plan.after, plan.before) && DistinctPaths(plan.after)
    && (plan.changed <==> exists i | 0 <= i < |paths| :: !SameIntegrationFile(plan.before[i], plan.after[i]))
    && (forall i | 0 <= i < |paths| ::
          if paths[i] == UCI && UCI in disk && (exists k | 0 <= k < |manifest| :: manifest[k].path == UCI)
          then plan.after[i] == plan.before[i]
          else Releases(manifest, paths[i], Wanted(plan.after[i])))
  }

  method IndexManifest(manifest: seq<ManifestFile>) returns (desired: map<Path, ManifestFile>)
    requires ValidManifest(manifest)
    ensures Indexed(desired, manifest, |manifest|)
  {
    desired := map[];
    for i := 0 to |manifest|
      invariant Indexed(desired, manifest, i)
    {
      desired := desired[manifest[i].path := manifest[i]];
    }
  }

  method PlanFiles(before: seq<IntegrationFile>, desired: map<Path, ManifestFile>)
    returns (after: seq<IntegrationFile>, changed: bool)
    ensures |after| == |before| && forall k | 0 <= k < |before| :: after[k] == Planned(desired, before[k])
    ensures changed <==> exists k | 0 <= k < |before| :: !SameIntegrationFile(before[k], after[k])
  {
    after, changed := [], false;
    for i := 0 to |before|
      invariant |after| == i && forall k | 0 <= k < i :: after[k] == Planned(desired, before[k])
      invariant changed <==> exists k | 0 <= k < i :: !SameIntegrationFile(before[k], after[k])
    {
      var planned := Planned(desired, before[i]);
      if !SameIntegrationFile(before[i], planned) { changed := true; }
      after := after + [planned];
    }
  }

  method PlanIntegration(disk: Disk, manifest: seq<ManifestFile>, installed: seq<ManifestFile>)
    returns (plan: Plan, paths: seq<Path>)
    requires ValidManifest(manifest) && ValidManifest(installed)
    ensures Strict(paths, TextLess)
    ensures forall p :: p in paths <==> p in PathsOf(manifest) || p in PathsOf(installed)
    ensures Sound(plan, disk, manifest, paths)
  {
    TextOrder();
    SortCompactMeaning(PathsOf(manifest) + PathsOf(installed), TextLess);
    paths := SortCompact(PathsOf(manifest) + PathsOf(installed), TextLess);
    var before := Snapshot(disk, paths);
    var desired := IndexManifest(manifest);
    var after, changed := PlanFiles(before, desired);
    plan := Plan(before, after, changed);
    PlanSound(plan, disk, desired, manifest, paths);
  }

  lemma PlanSound(plan: Plan, disk: Disk, desired: map<Path, ManifestFile>, manifest: seq<ManifestFile>,
                  paths: seq<Path>)
    requires ValidManifest(manifest) && Indexed(desired, manifest, |manifest|)
    requires forall i, j | 0 <= i < j < |paths| :: paths[i] != paths[j]
    requires plan.before == Snapshot(disk, paths) && |plan.after| == |plan.before|
    requires forall k | 0 <= k < |plan.before| :: plan.after[k] == Planned(desired, plan.before[k])
    requires plan.changed <==> exists i | 0 <= i < |plan.before| :: !SameIntegrationFile(plan.before[i], plan.after[i])
    ensures Sound(plan, disk, manifest, paths)
  {
    forall i | 0 <= i < |paths|
      ensures plan.after[i].path == plan.before[i].path == paths[i]
      ensures if paths[i] == UCI && UCI in disk && (exists k | 0 <= k < |manifest| :: manifest[k].path == UCI)
        then plan.after[i] == plan.before[i] else Releases(manifest, paths[i], Wanted(plan.after[i]))
    {
      PlannedMeaning(disk, desired, manifest, paths[i]);
    }
  }

  lemma PlannedMeaning(disk: Disk, desired: map<Path, ManifestFile>, manifest: seq<ManifestFile>, path: Path)
    requires ValidManifest(manifest) && Indexed(desired, manifest, |manifest|)
    ensures var actual := ReadFile(disk, path);
      var planned := Planned(desired, actual);
      if path == UCI && UCI in disk && (exists k | 0 <= k < |manifest| :: manifest[k].path == UCI)
      then planned == actual else Releases(manifest, path, Wanted(planned))
  {
  }

  // Applying a whole plan installs the release on every path it covers.
  lemma UpdateInstalls(plan: Plan, disk: Disk, manifest: seq<ManifestFile>, paths: seq<Path>, path: Path)
    requires Sound(plan, disk, manifest, paths)
    ensures var after := Applied(disk, plan.after, |plan.after|, false);
      && (path !in paths || (path == UCI && UCI in disk) ==> At(after, path) == At(disk, path))
      && (path in paths && !(path == UCI && UCI in disk) ==> Releases(manifest, path, At(after, path)))
  {
    AppliedAt(disk, plan.after, |plan.after|, false, path);
    if path in paths {
      var i :| 0 <= i < |paths| && paths[i] == path;
      assert plan.after[i].path == plan.before[i].path == path;
    } else {
      assert forall i | 0 <= i < |plan.after| :: plan.after[i].path == plan.before[i].path == paths[i];
    }
  }

  // ----------------------------------------------------------- the service

  // The installed binary and the two it leaves behind.
  datatype Binaries = Binaries(current: nat, previous: Option<nat>, failed: Option<nat>)

  // How an update ended: done, refused with nothing touched, not swapped in, or
  // failed later, with what was put back.
  datatype Outcome = Updated | Refused | NotSwapped | Failed(binaryRestored: bool, filesRestored: bool)

  // Some file besides the administrator's.
  predicate HasOwn(files: seq<IntegrationFile>) { exists i | 0 <= i < |files| :: files[i].path != UCI }

  class UpdateService {
    const world: World
    var disk: Disk
    var binaries: Binaries

    // The first n files have been applied to the state before.
    ghost predicate Partly(before: Disk, files: seq<IntegrationFile>, restoring: bool, n: nat)
      reads this
    {
      n <= |files| && disk == Applied(before, files, n, restoring)
    }

    // Applies the files in order and stops at the first failure; whatever was
    // written until then stays.
    method ApplyIntegration(files: seq<IntegrationFile>, restoring: bool) returns (ok: bool, ghost done: nat)
      modifies this`disk
      ensures Partly(old(disk), files, restoring, done)
      ensures if ok then done == |files| else done < |files| && !(restoring && files[done].path == UCI)
      ensures world.Exactly? && world.failing !! {Effect.Prepare, WriteFile} ==> ok
    {
      done := 0;
      for i := 0 to |files|
        invariant Partly(old(disk), files, restoring, i) && done == i
      {
        var file := files[i];
        if restoring && file.path == UCI {
          done := i + 1;
          continue;
        }
        var readable := Attempt(world, Effect.Prepare);
        if !readable { return false, done; }
        var actual := ReadFile(disk, file.path);
        if !(SameIntegrationFile(actual, file) || (file.path == UCI && actual.present)) {
          var written := Attempt(world, WriteFile);
          if !written { return false, done; }
          disk := if file.present then disk[file.path := Content(file.mode, file.data)] else disk - {file.path};
        }
        done := i + 1;
      }
      ok := true;
    }

    // Passes exactly when all files are readable and match.
    method VerifyIntegration(files: seq<IntegrationFile>, restoring: bool) returns (ok: bool, readable: bool)
      ensures ok <==> readable && AllMatch(disk, files, restoring)
      ensures world.Exactly? && ReadBack !in world.failing && AllMatch(disk, files, restoring) ==> ok
      ensures world.Exactly? && ReadBack in world.failing && HasOwn(files) ==> !ok
    {
      readable := true;
      for i := 0 to |files|
        invariant readable && forall k | 0 <= k < i :: Matches(disk, files[k], restoring)
        invariant world.Exactly? && ReadBack in world.failing ==> forall k | 0 <= k < i :: files[k].path == UCI
      {
        var expected := files[i];
        if restoring && expected.path == UCI { continue; }
        var read := Attempt(world, ReadBack);
        if !read { return false, false; }
        var actual := ReadFile(disk, expected.path);
        if expected.path == UCI && actual.present { continue; }
        if !SameIntegrationFile(actual, expected) { return false, readable; }
      }
      ok := true;
    }

    // The binary swaps of the update package; on a failure nothing is promised.
    method InstallBinary(binary: nat) returns (ok: bool)
      modifies this`binaries
      ensures ok ==> binaries.current == binary && binaries.previous == Some(old(binaries.current))
      ensures world.Fixes(SwapBinary, ok)
    {
      ok := Attempt(world, SwapBinary);
      var failed: Option<nat> := *;
      var left: Binaries := *;
      binaries := if ok then Binaries(binary, Some(binaries.current), failed) else left;
    }

    method RollbackBinary() returns (ok: bool)
      modifies this`binaries
      ensures ok ==> old(binaries.previous) == Some(binaries.current) && binaries.failed == Some(old(binaries.current))
      ensures old(binaries.previous).Some? ==> world.Fixes(SwapBinary, ok)
    {
      ok := Attempt(world, SwapBinary);
      var left: Binaries := *;
      ok := ok && binaries.previous.Some?;
      binaries := if ok then Binaries(binaries.previous.value, None, Some(binaries.current)) else left;
    }

    // Everything but the administrator's file is as in the given state, and that
    // one too if it existed.
    ghost predicate Undone(before: Disk)
      reads this
    {
      forall path :: path != UCI || UCI in before ==> At(disk, path) == At(before, path)
    }

    ghost predicate UCIKept(before: Disk)
      reads this
    {
      UCI in before ==> At(disk, UCI) == At(before, UCI)
    }

    // A restoration that could not read or write the file at `done`: those before
    // it are restored.
    ghost predicate StoppedAt(start: Disk, files: seq<IntegrationFile>, done: nat)
      reads this
    {
      done < |files| && files[done].path != UCI && Partly(start, files, true, done)
    }

    // Everything but the restart, or the reading back of what was installed, works.
    ghost predicate CheckFails(restart: bool, files: seq<IntegrationFile>) {
      (restart && world == Exactly({RestartManager})) || (HasOwn(files) && world == Exactly({ReadBack}))
    }

    lemma PartlyKeepsUCI(before: Disk, files: seq<IntegrationFile>, restoring: bool, n: nat)
      requires Partly(before, files, restoring, n) && DistinctPaths(files)
      ensures UCIKept(before)
    {
      AppliedAt(before, files, n, restoring, UCI);
    }

    // Puts back the files of a snapshot after some of another set were applied.
    method RestoreFiles(ghost start: Disk, ghost paths: seq<Path>, before: seq<IntegrationFile>,
                        ghost after: seq<IntegrationFile>, ghost restoring: bool, ghost n: nat)
      returns (ok: bool)
      requires before == Snapshot(start, paths) && SamePaths(after, before) && DistinctPaths(after)
      requires Partly(start, after, restoring, n)
      modifies this`disk
      ensures UCIKept(start) && At(disk, UCI) == At(old(disk), UCI)
      ensures ok ==> Undone(start) && AllMatch(disk, before, true)
      ensures !ok ==> exists done :: StoppedAt(old(disk), before, done)
      ensures world.Exactly? && world.failing !! {Effect.Prepare, WriteFile} ==> ok
    {
      ghost var updated := disk;
      assert DistinctPaths(before);
      PartlyKeepsUCI(start, after, restoring, n);
      ghost var done;
      ok, done := ApplyIntegration(before, true);
      AppliedAt(updated, before, done, true, UCI);
      assert !ok ==> StoppedAt(updated, before, done);
      if ok {
        RestoreUndoes(start, paths, after, n, restoring, UCI);
        forall path | path != UCI || UCI in start ensures At(disk, path) == At(start, path) {
          RestoreUndoes(start, paths, after, n, restoring, path);
        }
      }
    }

    // The update transaction: new binary, new files, restart, verification; any
    // failure after the binary was swapped puts binary and files back.
    method Install(plan: Plan, binary: nat, restart: bool, ghost manifest: seq<ManifestFile>, ghost paths: seq<Path>)
      returns (outcome: Outcome)
      requires Sound(plan, disk, manifest, paths)
      modifies this
      ensures UCIKept(old(disk))
      ensures outcome.Updated? ==>
          disk == Applied(old(disk), plan.after, |plan.after|, false) && AllMatch(disk, plan.after, false)
          && binaries.current == binary && binaries.previous == Some(old(binaries.current))
      ensures outcome.Refused? ==> disk == old(disk) && binaries == old(binaries)
      ensures outcome.NotSwapped? ==> disk == old(disk)
      ensures outcome.Failed? && outcome.filesRestored ==> Undone(old(disk)) && AllMatch(disk, plan.before, true)
      ensures outcome.Failed? && outcome.binaryRestored ==> binaries.current == old(binaries.current)
      ensures world == Exactly({}) || (!restart && world == Exactly({RestartManager})) ==> outcome.Updated?
      ensures CheckFails(restart, plan.after) ==> outcome == Failed(true, true)
    {
      var saved := Attempt(world, Effect.Prepare);
      if !saved { return Refused; }
      var installed := InstallBinary(binary);
      if !installed { return NotSwapped; }
      var applied, done := ApplyIntegration(plan.after, false);
      PartlyKeepsUCI(old(disk), plan.after, false, done);
      var verified := applied;
      if applied { AppliedMatches(old(disk), plan.after, false); }
      if applied && restart { verified := Attempt(world, RestartManager); }
      if verified {
        var readable: bool;
        verified, readable := VerifyIntegration(plan.after, false);
      }
      if verified { return Updated; }
      var binaryOk := RollbackBinary();
      var filesOk := RestoreFiles(old(disk), paths, plan.before, plan.after, false, done);
      if binaryOk && filesOk && restart { var restarted: bool := *; }
      outcome := Failed(binaryOk, filesOk);
    }

    // The reverse transaction: previous binary and the files saved for it; any
    // failure puts the current ones back.
    method Rollback(saved: seq<IntegrationFile>, restart: bool) returns (outcome: Outcome)
      requires DistinctPaths(saved)
      modifies this
      ensures At(disk, UCI) == At(old(disk), UCI)
      ensures outcome.Updated? ==> AllMatch(disk, saved, true) && old(binaries.previous) == Some(binaries.current)
      ensures outcome.Refused? ==> disk == old(disk) && binaries == old(binaries)
      ensures outcome.NotSwapped? ==> disk == old(disk)
      ensures outcome.Failed? && outcome.filesRestored ==> Undone(old(disk))
      ensures outcome.Failed? && outcome.binaryRestored ==> binaries.current == old(binaries.current)
      ensures old(binaries.previous).Some?
              && (world == Exactly({}) || (!restart && world == Exactly({RestartManager}))) ==>
                outcome.Updated?
      ensures CheckFails(restart, saved) && old(binaries.previous).Some? ==> outcome == Failed(true, true)
    {
      var readable := Attempt(world, Effect.Prepare);
      if !readable { return Refused; }
      var paths := seq(|saved|, i requires 0 <= i < |saved| => saved[i].path);
      var before := Snapshot(disk, paths);
      var swapped := RollbackBinary();
      if !swapped { return NotSwapped; }
      var applied, done := ApplyIntegration(saved, true);
      AppliedAt(old(disk), saved, done, true, UCI);
      var verified := applied;
      if applied { AppliedMatches(old(disk), saved, true); }
      if applied && restart { verified := Attempt(world, RestartManager); }
      if verified {
        var read: bool;
        verified, read := VerifyIntegration(saved, true);
      }
      if verified { return Updated; }
      var failed := binaries.failed;
      var binaryOk := false;
      if failed.Some? { binaryOk := InstallBinary(failed.value); }
      var filesOk := RestoreFiles(old(disk), paths, before, saved, true, done);
      outcome := Failed(binaryOk, filesOk);
    }
  }
}
