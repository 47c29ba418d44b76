// The crash-recoverable profile switch. The disk is a record of files, every
// write is one atomic step, and the manager may die before any of them: from
// then on no write takes effect until the next start.

module ProfileSwitch {
  import opened Types

  datatype Profile = Profile(name: string, engine: Engine)

  datatype RevisionRecord = RevisionRecord(applied: string, pending: string, pendingAt: nat)

  datatype Phase = Prepared | Committed

  datatype Transition = Transition(
    prior: Option<Profile>,
    target: Profile,
    oldRevision: string,
    newRevision: string,
    previousMirror: Option<string>,
    previousRecord: Option<RevisionRecord>,
    phase: Phase)

  datatype Files = Files(
    active: Option<Profile>,
    mirrors: map<Engine, string>,
    records: map<Profile, RevisionRecord>,
    sources: map<Profile, string>,
    shared: Option<Profile>,
    journal: Option<Transition>)

  const MAX_MIRROR := 33554432

  // A mirror larger than this is not captured.
  predicate MirrorFits(f: Files, e: Engine) { e in f.mirrors ==> |f.mirrors[e]| <= MAX_MIRROR }

  // A digest without collisions, and never empty.
  function ContentRevision(content: string): (r: string)
    ensures r != ""
  {
    "#" + content
  }

  lemma RevisionsDiffer(a: string, b: string)
    ensures ContentRevision(a) == ContentRevision(b) <==> a == b
  {
    assert ContentRevision(a)[1..] == a && ContentRevision(b)[1..] == b;
  }

  function Put<K, V>(m: map<K, V>, k: K, v: Option<V>): map<K, V> {
    if v.Some? then m[k := v.value] else m - {k}
  }

  function Lookup<K, V>(m: map<K, V>, k: K): Option<V> {
    if k in m then Some(m[k]) else None
  }

  // The record says that the revision is the applied one; what was pending is so
  // no longer if it was that revision, and stays otherwise.
  predicate NowApplied(before: Option<RevisionRecord>, after: Option<RevisionRecord>, revision: string) {
    && after.Some? && after.value.applied == revision
    && (if before.Some? && before.value.pending != revision then
          after.value.pending == before.value.pending && after.value.pendingAt == before.value.pendingAt
        else after.value.pending == "" && after.value.pendingAt == 0)
  }

  function MarkApplied(previous: Option<RevisionRecord>, revision: string): (r: RevisionRecord)
    ensures NowApplied(previous, Some(r), revision)
  {
    var item := if previous.Some? then previous.value else RevisionRecord("", "", 0);
    var next := item.(applied := revision);
    if next.pending == revision then next.(pending := "", pendingAt := 0) else next
  }

  // The store refuses to delete the selected profile.
  predicate SourceKept(f: Files) {
    f.active.Some? ==> f.active.value in f.sources
  }

  // What a switch to p is about: the selection, p's engine mirror, p's record.
  datatype Selection = Selection(active: Option<Profile>, mirror: Option<string>, record: Option<RevisionRecord>)

  function View(f: Files, p: Profile): Selection {
    Selection(f.active, Lookup(f.mirrors, p.engine), Lookup(f.records, p))
  }

  const MIHOMO_CONFIG := "config.yaml"

  function ProfilePath(p: Profile): (r: string)
    ensures p.engine.Mihomo? ==> r == "configs/" + p.name + ".yaml"
    ensures p.engine.SingBox? ==> r == "configs/" + p.name + ".json"
  {
    "configs/" + p.name + if p.engine.Mihomo? then ".yaml" else ".json"
  }

  // A Mihomo generation made from the active mirror belongs to any Mihomo
  // profile; otherwise the profile's own file must be its source.
  predicate PreparedMatchesProfile(g: Generation, p: Profile) {
    g.engine == p.engine && ((p.engine.Mihomo? && g.source == MIHOMO_CONFIG) || g.source == ProfilePath(p))
  }

  // A generation belongs to one profile only, unless it was made from the mirror,
  // which belongs to every Mihomo profile.
  lemma OneProfile(g: Generation, p: Profile, q: Profile)
    requires PreparedMatchesProfile(g, p) && q.engine == p.engine && p != q
    ensures PreparedMatchesProfile(g, q) <==> p.engine.Mihomo? && g.source == MIHOMO_CONFIG
  {
    var end := if p.engine.Mihomo? then ".yaml" else ".json";
    assert p.name == ProfilePath(p)[8..|ProfilePath(p)| - 5];
    assert q.name == ProfilePath(q)[8..|ProfilePath(q)| - 5];
    assert ProfilePath(p) != MIHOMO_CONFIG && ProfilePath(q) != MIHOMO_CONFIG by {
      assert ProfilePath(p)[6] == 's' && ProfilePath(q)[6] == 's' && MIHOMO_CONFIG[6] == '.';
    }
  }

  predicate PreparedMatchesRevision(f: Files, g: Generation, p: Profile, required: string) {
    && PreparedMatchesProfile(g, p)
    && (if required != "" then g.revision == required
        else if g.revision == "" then p.engine.Mihomo?
        else p in f.sources && ContentRevision(f.sources[p]) == g.revision)
  }

  // ------------------------------------------------ what recovery produces

  predicate Recoverable(f: Files) {
    match f.journal
    case None => true
    case Some(t) => if t.phase.Committed? then t.target in f.sources else t.prior.Some? ==> t.prior.value in f.sources
  }

  function Restored(f: Files, t: Transition): Files
    requires t.prior.Some? ==> t.prior.value in f.sources
  {
    var mirrors := if t.prior.Some? then f.mirrors[t.prior.value.engine := f.sources[t.prior.value]] else f.mirrors;
    f.(active := t.prior,
       mirrors := Put(mirrors, t.target.engine, t.previousMirror),
       records := Put(f.records, t.target, t.previousRecord))
  }

  function Activated(f: Files, p: Profile): Files
    requires p in f.sources
  {
    f.(active := Some(p), mirrors := f.mirrors[p.engine := f.sources[p]])
  }

  function Recovered(f: Files): Files
    requires Recoverable(f)
  {
    match f.journal
    case None => f
    case Some(t) => if t.phase.Committed? then Activated(f, t.target) else Restored(f, t)
  }

  // The journal of a switch holds exactly what was there before it.
  predicate Captures(t: Transition, before: Files) {
    && t.prior == before.active
    && t.previousMirror == Lookup(before.mirrors, t.target.engine)
    && t.previousRecord == Lookup(before.records, t.target)
  }

  function CommittedFiles(before: Files, t: Transition): Files
    requires t.target in before.sources
  {
    Activated(before, t.target).(
      records := before.records[t.target := MarkApplied(Lookup(before.records, t.target), t.newRevision)],
      journal := Some(t.(phase := Phase.Committed)))
  }

  // Running recovery again changes nothing.
  lemma RecoveryIdempotent(f: Files)
    requires Recoverable(f)
    ensures Recoverable(Recovered(f)) && Recovered(Recovered(f)) == Recovered(f)
  {
    if f.journal.Some? && f.journal.value.phase.Prepared? {
      var t, g := f.journal.value, Recovered(f);
      assert Recovered(g).mirrors == g.mirrors;
      assert Recovered(g).records == g.records;
    }
  }

  // Recovering from a journal that captured `before` brings back its view of
  // the target, whatever the interrupted switch did in between; the only other
  // thing it may touch is the mirror of the old profile's own engine.
  lemma PreparedRecovery(before: Files, t: Transition, now: Files)
    requires Captures(t, before) && t.phase.Prepared? && now.journal == Some(t) && Recoverable(now)
    requires now.sources == before.sources
    ensures View(Recovered(now), t.target) == View(before, t.target)
    ensures forall p | p in before.records && p != t.target && Lookup(now.records, p) == Lookup(before.records, p) ::
              Lookup(Recovered(now).records, p) == Lookup(before.records, p)
    ensures forall e | e != t.target.engine :: Lookup(Recovered(now).mirrors, e) ==
              if t.prior.Some? && t.prior.value.engine == e then Some(before.sources[t.prior.value])
              else Lookup(now.mirrors, e)
  {
  }

  // A journal left behind by a failed switch is harmless exactly as long as the
  // selection it captured still stands: recovery undoes any later change to
  // what it covers. The condition can be read off the disk before starting.
  lemma StaleJournal(f: Files, t: Transition)
    requires f.journal == Some(t) && t.phase.Prepared? && Recoverable(f)
    ensures Recovered(f) == f <==>
              && View(f, t.target) == Selection(t.prior, t.previousMirror, t.previousRecord)
              && (t.prior.Some? && t.prior.value.engine != t.target.engine ==>
                    Lookup(f.mirrors, t.prior.value.engine) == Some(f.sources[t.prior.value]))
  {
    var g := Recovered(f);
    if View(f, t.target) == Selection(t.prior, t.previousMirror, t.previousRecord)
      && (t.prior.Some? && t.prior.value.engine != t.target.engine ==>
            Lookup(f.mirrors, t.prior.value.engine) == Some(f.sources[t.prior.value]))
    {
      assert g.mirrors == f.mirrors;
      assert g.records == f.records;
    }
    if g == f { assert View(g, t.target) == View(f, t.target); }
  }

  // ------------------------------------------------------------- commits

  // What a replacement of the live generation persists once the new one is up:
  // nothing, the selection of a journaled switch, or the applied revision of a
  // saved configuration.
  datatype Commit =
    | NoCommit
    | SelectProfile(t: Transition)
    | MarkRevision(profile: Profile, revision: string)

  // A selection can be committed while its own journal stands and what it
  // captured is still there.
  predicate Committable(f: Files, c: Commit) {
    c.SelectProfile? ==>
      && c.t.phase.Prepared? && f.journal == Some(c.t) && Captures(c.t, f)
      && (c.t.prior.Some? ==> c.t.prior.value in f.sources)
  }

  // The source still is at the revision, so that this may be recorded.
  predicate StillAt(f: Files, p: Profile, revision: string) {
    p in f.sources && ContentRevision(f.sources[p]) == revision
  }

  // What is to be committed is still what the source holds.
  predicate Current(f: Files, c: Commit) {
    match c
    case NoCommit => true
    case SelectProfile(t) => StillAt(f, t.target, t.newRevision)
    case MarkRevision(p, revision) => StillAt(f, p, revision)
  }

  // The files after a commit, reached or not. A selection is committed as a
  // whole, or can be recovered to what it was; it is what it was already if the
  // compensation succeeded.
  ghost predicate CommitOutcome(c: Commit, before: Files, after: Files, committed: bool, compensated: bool) {
    match c
    case NoCommit => after == before
    case MarkRevision(p, revision) =>
      var marked := before.(records := before.records[p := MarkApplied(Lookup(before.records, p), revision)]);
      after in {before, marked} && (committed ==> after == marked && StillAt(before, p, revision))
    case SelectProfile(t) =>
      if committed then StillAt(before, t.target, t.newRevision) && after == CommittedFiles(before, t)
      else
        && after.journal == before.journal && after.sources == before.sources && Recoverable(after)
        && Recovered(after) == Recovered(before)
        && (compensated ==> after == before || after == Recovered(before))
  }

  // A generation of the selected profile, at some revision.
  predicate Belongs(f: Files, g: Generation) {
    f.active.Some? && g.revision != "" && PreparedMatchesProfile(g, f.active.value)
  }

  // The files with the start of g recorded: the applied revision of the selected
  // profile, for a generation that belongs to it and has a revision.
  predicate StartRecorded(before: Files, after: Files, g: Generation) {
    && Belongs(before, g)
    && var p := before.active.value;
       && NowApplied(Lookup(before.records, p), Lookup(after.records, p), g.revision)
       && after == before.(records := before.records[p := MarkApplied(Lookup(before.records, p), g.revision)])
  }

  // The start of g was recorded, or was not and need not be: it always is on a
  // calm disk, if g belongs to the selected profile.
  ghost predicate StartNoted(before: Files, after: Files, g: Generation, calm: bool) {
    StartRecorded(before, after, g) || (after == before && !(calm && Belongs(before, g)))
  }

  // The files after a replacement of the live generation by g: as the commit left
  // them, and with the start of g noted if it is `up`.
  ghost predicate ReplacementOutcome(c: Commit, g: Generation, before: Files, after: Files, calm: bool, up: bool,
                                     committed: bool, compensated: bool) {
    match c
    case NoCommit => if up then StartNoted(before, after, g, calm) else after == before
    case MarkRevision(p, revision) =>
      var marked := before.(records := before.records[p := MarkApplied(Lookup(before.records, p), revision)]);
      if !committed then after in {before, marked}
      else StillAt(before, p, revision) && if up then StartNoted(marked, after, g, calm) else after == marked
    case SelectProfile(_) => CommitOutcome(c, before, after, committed, compensated)
  }

  // The journal names what ran before: the selected profile at the revision of
  // the generation that ran, or else of its source.
  predicate Remembers(t: Transition, before: Files, live: Option<Generation>) {
    && t.prior == before.active
    && (t.prior.Some? ==>
          t.prior.value in before.sources && t.oldRevision == RunningRevision(before, t.prior.value, live))
  }

  // Where a switch to the target may leave the disk, crashed or not: it never
  // started; it is journaled as prepared, so that recovery undoes it; or it
  // is committed, with or without its journal.
  ghost predicate SwitchOutcome(before: Files, now: Files, target: Profile) {
    || now == before
    || (now.journal.Some? && now.journal.value.target == target && now.journal.value.phase.Prepared?
        && Captures(now.journal.value, before) && now.sources == before.sources && Recoverable(now)
        && Recovered(now) == Recovered(before.(journal := now.journal)))
    || IsCommitted(before, now, target)
  }

  ghost predicate IsCommitted(before: Files, now: Files, target: Profile) {
    exists t: Transition :: t.target == target && CommittedWith(before, now, t)
  }

  ghost predicate CommittedWith(before: Files, now: Files, t: Transition) {
    && StillAt(before, t.target, t.newRevision)
    && now == CommittedFiles(before, t).(journal := now.journal, shared := now.shared)
    && (now.journal == Some(t.(phase := Phase.Committed)) || (now.journal.None? && now.shared == Some(t.target)))
  }

  // The view of a committed switch.
  ghost predicate SelectionCommitted(before: Files, now: Files, target: Profile) {
    && target in before.sources
    && now.active == Some(target) && Lookup(now.mirrors, target.engine) == Some(before.sources[target])
    && NowApplied(Lookup(before.records, target), Lookup(now.records, target), ContentRevision(before.sources[target]))
  }

  // Selection, mirror and record of the target are all as before or all as
  // committed, and a journal that is still there says which; nothing that
  // belongs to another profile was touched.
  ghost predicate AllOrNothing(before: Files, now: Files, target: Profile) {
    && (View(now, target) == View(before, target) || SelectionCommitted(before, now, target))
    && (now.journal.Some? && now.journal != before.journal ==>
          && (now.journal.value.phase.Committed? <==> SelectionCommitted(before, now, target))
          && (now.journal.value.phase.Prepared? ==> View(now, target) == View(before, target)))
    && (forall p | p != target :: Lookup(now.records, p) == Lookup(before.records, p))
    && now.sources == before.sources
  }

  // Journaling is the only difference between the two starting points.
  lemma CommittedFromJournaled(f0: Files, f1: Files, now: Files, t: Transition)
    requires f1 == f0.(journal := f1.journal) && CommittedWith(f1, now, t)
    ensures CommittedWith(f0, now, t)
  {
  }

  // A failed and compensated commit leaves what it covers as it was.
  lemma CompensatedView(f0: Files, f1: Files, t: Transition, now: Files, compensated: bool)
    requires f1 == f0.(journal := Some(t)) && Captures(t, f0) && Committable(f1, SelectProfile(t))
    requires CommitOutcome(SelectProfile(t), f1, now, false, compensated)
    ensures SwitchOutcome(f0, now, t.target)
    ensures compensated ==> View(now, t.target) == View(f0, t.target)
  {
    PreparedRecovery(f0, t, f1);
  }

  lemma OutcomeAfterRecovery(before: Files, left: Files, target: Profile)
    requires before.active != Some(target) && Recoverable(before) && Recovered(before) == before
    requires SwitchOutcome(before, left, target) && Recoverable(left)
    ensures left == before ==> Recovered(left) == before
    ensures left.journal.Some? && left.journal.value.phase.Prepared? && !IsCommitted(before, left, target) ==>
              View(Recovered(left), target) == View(before, target)
    ensures IsCommitted(before, left, target) ==> SelectionCommitted(before, Recovered(left), target)
    ensures SelectionCommitted(before, Recovered(left), target) ==>
              View(Recovered(left), target) != View(before, target)
    ensures AllOrNothing(before, Recovered(left), target)
  {
    if left.journal.Some? && left.journal.value.phase.Prepared? && Captures(left.journal.value, before)
      && left.sources == before.sources && left.journal.value.target == target
    {
      PreparedRecovery(before, left.journal.value, left);
    }
    if IsCommitted(before, left, target) {
      var t: Transition :| t.target == target && CommittedWith(before, left, t);
      CommittedRecovers(before, left, t);
    }
  }

  lemma CommittedRecovers(before: Files, left: Files, t: Transition)
    requires CommittedWith(before, left, t) && Recoverable(left)
    ensures Recovered(left) == left && SelectionCommitted(before, left, t.target)
    ensures forall p | p != t.target :: Lookup(left.records, p) == Lookup(before.records, p)
  {
    assert Recovered(left).mirrors == left.mirrors;
  }

  // ------------------------------------------------------------- the disk

  class Disk {
    const world: World
    var files: Files
    var crashed: bool

    // A determined world in which every write takes effect.
    ghost predicate Calm()
      reads this
    {
      world.Exactly? && world.failing !! {WriteFile, ReleaseLock} && !crashed
    }

    // Only the release of a store lock fails.
    ghost predicate OnlyLate()
      reads this
    {
      world == Exactly({ReleaseLock}) && !crashed
    }

    constructor (files: Files, world: World)
      ensures this.files == files && !crashed && this.world == world
    {
      this.files, crashed, this.world := files, false, world;
    }

    // One atomic write: it takes effect, fails leaving the old value, or never
    // happens because the manager died.
    method Write(next: Files) returns (ok: bool)
      modifies this
      ensures ok ==> !crashed && files == next
      ensures !ok ==> files == old(files)
      ensures old(crashed) ==> crashed
      ensures world.Exactly? ==> crashed == old(crashed)
      ensures world.Exactly? && WriteFile !in world.failing && !old(crashed) ==> ok
      ensures old(Calm()) ==> ok && Calm()
    {
      var dies := Dies(world);
      crashed := crashed || dies;
      ok := Attempt(world, WriteFile);
      ok := ok && !crashed;
      if ok { files := next; }
    }

    method Reboot()
      modifies this
      ensures files == old(files) && !crashed
    {
      crashed := false;
    }

    // Publishes a profile: mirror first, metadata last; a failed metadata write
    // puts the mirror back. Releasing the store lock may fail after the fact.
    method Activate(p: Profile) returns (ok: bool)
      modifies this
      ensures old(crashed) ==> crashed
      ensures ok ==> p in old(files).sources && !crashed && files == Activated(old(files), p)
      ensures p !in old(files).sources ==> files == old(files)
      ensures files == old(files).(active := files.active, mirrors := files.mirrors)
      ensures files.active in {old(files).active, Some(p)}
      ensures p in files.sources ==>
                files.mirrors in {old(files).mirrors, old(files).mirrors[p.engine := files.sources[p]]}
      ensures old(Calm()) ==> Calm() && (p in old(files).sources ==> ok)
      // An error may come after the fact.
      ensures old(OnlyLate()) && p in old(files).sources ==> !ok && files == Activated(old(files), p)
    {
      if p !in files.sources { return false; }
      var before := Lookup(files.mirrors, p.engine);
      ok := Write(files.(mirrors := files.mirrors[p.engine := files.sources[p]]));
      if !ok { return false; }
      ok := Write(files.(active := Some(p)));
      if !ok {
        assert Put(files.mirrors, p.engine, before) == old(files).mirrors;
        var undone := Write(files.(mirrors := Put(files.mirrors, p.engine, before)));
        return false;
      }
      ok := Attempt(world, ReleaseLock);
    }

    // A locked read-modify-write of one revision record.
    method WriteRecord(p: Profile, record: Option<RevisionRecord>) returns (ok: bool)
      modifies this
      ensures old(crashed) ==> crashed
      ensures ok ==> !crashed && files == old(files).(records := Put(old(files).records, p, record))
      ensures files in {old(files), old(files).(records := Put(old(files).records, p, record))}
      ensures old(Calm()) ==> ok && Calm()
      ensures old(OnlyLate()) ==> !ok && files == old(files).(records := Put(old(files).records, p, record))
    {
      ok := Write(files.(records := Put(files.records, p, record)));
      var released := Attempt(world, ReleaseLock);
      ok := ok && released;
    }
  }

  // --------------------------------------------------------- the switcher

  class ProfileSwitcher {
    const disk: Disk

    constructor (disk: Disk)
      ensures this.disk == disk
    {
      this.disk := disk;
    }

    // Compensation of a prepared switch. Each part is attempted even when an
    // earlier one fails, and every interruption leaves the same thing to do.
    method RestoreTransition(t: Transition) returns (ok: bool)
      modifies disk
      ensures old(disk.crashed) ==> disk.crashed
      ensures ok ==>
                && !disk.crashed && (t.prior.Some? ==> t.prior.value in old(disk.files).sources)
                && disk.files == Restored(old(disk.files), t)
      ensures disk.files.sources == old(disk.files).sources && disk.files.journal == old(disk.files).journal
      ensures (t.prior.Some? ==> t.prior.value in disk.files.sources) ==>
                Restored(disk.files, t) == Restored(old(disk.files), t)
      ensures old(disk.Calm()) ==> disk.Calm() && ((t.prior.Some? ==> t.prior.value in disk.files.sources) ==> ok)
    {
      ghost var f0 := disk.files;
      var recordOk := disk.WriteRecord(t.target, t.previousRecord);
      ghost var f1 := disk.files;
      assert (t.prior.Some? ==> t.prior.value in f0.sources) ==> Restored(f1, t) == Restored(f0, t) by {
        assert Put(f1.records, t.target, t.previousRecord) == Put(f0.records, t.target, t.previousRecord);
      }
      if t.prior.None? {
        var mirrorOk := disk.Write(disk.files.(mirrors := Put(disk.files.mirrors, t.target.engine, t.previousMirror)));
        assert Restored(disk.files, t) == Restored(f1, t) by {
          assert Put(disk.files.mirrors, t.target.engine, t.previousMirror)
              == Put(f1.mirrors, t.target.engine, t.previousMirror);
        }
        var activeOk := disk.Write(disk.files.(active := None));
        ok := recordOk && mirrorOk && activeOk;
        return;
      }
      var selectionOk := disk.Activate(t.prior.value);
      ghost var f2 := disk.files;
      assert t.prior.value in f1.sources ==> Restored(f2, t) == Restored(f1, t) by {
        if t.prior.value in f1.sources {
          var e, content := t.prior.value.engine, f1.sources[t.prior.value];
          assert f2.mirrors[e := content] == f1.mirrors[e := content];
        }
      }
      var mirrorOk := disk.Write(disk.files.(mirrors := Put(disk.files.mirrors, t.target.engine, t.previousMirror)));
      assert t.prior.value in f1.sources ==> Restored(disk.files, t) == Restored(f2, t) by {
        if t.prior.value in f1.sources { RestoredMirror(f2, disk.files, t); }
      }
      ok := recordOk && selectionOk && mirrorOk;
    }

    lemma RestoredMirror(f: Files, g: Files, t: Transition)
      requires t.prior.Some? && t.prior.value in f.sources
      requires g in {f, f.(mirrors := Put(f.mirrors, t.target.engine, t.previousMirror))}
      ensures Restored(g, t) == Restored(f, t)
    {
      assert Restored(g, t).mirrors == Restored(f, t).mirrors;
    }

    // The durable side of recovery. Interrupted anywhere, it leaves a disk from
    // which recovery still produces the same files.
    method RecoverSelection() returns (ok: bool)
      modifies disk
      ensures old(disk.crashed) ==> disk.crashed
      ensures ok ==> Recoverable(old(disk.files)) && disk.files == Recovered(old(disk.files))
      ensures disk.files.journal == old(disk.files).journal
      ensures Recoverable(disk.files) == Recoverable(old(disk.files))
      ensures Recoverable(disk.files) ==> Recovered(disk.files) == Recovered(old(disk.files))
      ensures old(disk.Calm()) && Recoverable(old(disk.files)) ==> ok && !disk.crashed
      ensures old(disk.files).journal.None? ==> ok
    {
      if disk.files.journal.None? { return true; }
      var t := disk.files.journal.value;
      if t.phase.Committed? {
        ok := disk.Activate(t.target);
        ghost var f, g := old(disk.files), disk.files;
        if t.target in f.sources {
          assert g.mirrors[t.target.engine := f.sources[t.target]] == f.mirrors[t.target.engine := f.sources[t.target]];
        }
      } else {
        ok := RestoreTransition(t);
      }
    }

    function RecoveryProfile(): (r: (Option<Profile>, string, bool))
      reads this, disk
      ensures !r.2 ==> r.0.None?
      ensures Recoverable(disk.files) && r.2 ==> r.0 == Recovered(disk.files).active
    {
      match disk.files.journal
      case None => (None, "", false)
      case Some(t) =>
        if t.phase.Committed? then (Some(t.target), t.newRevision, true) else (t.prior, t.oldRevision, true)
    }

    // After a committed switch the generation to keep is the target's at the
    // committed content, which is what its record says was applied.
    lemma RecoversCommitted(before: Files, t: Transition)
      requires CommittedWith(before, disk.files, t) && disk.files.journal.Some?
      ensures t.target in before.sources && t.target in disk.files.records
      ensures RecoveryProfile() == (Some(t.target), ContentRevision(before.sources[t.target]), true)
      ensures RecoveryProfile().1 == disk.files.records[t.target].applied
    {
    }

    // After a prepared one it is what was selected and ran before.
    lemma RecoversPrepared(before: Files, live: Option<Generation>)
      requires disk.files.journal.Some? && disk.files.journal.value.phase.Prepared?
      requires Remembers(disk.files.journal.value, before, live)
      ensures RecoveryProfile().0 == before.active && RecoveryProfile().2
      ensures before.active.Some? ==>
                && before.active.value in before.sources
                && RecoveryProfile().1 == RunningRevision(before, before.active.value, live)
    {
    }

    // Publishes what a crash may have skipped after the commit, then drops the
    // journal.
    method CompleteRecovery() returns (ok: bool)
      modifies disk
      ensures old(disk.crashed) ==> disk.crashed
      ensures disk.files == old(disk.files).(shared := disk.files.shared, journal := disk.files.journal)
      ensures disk.files.journal in {old(disk.files).journal, None}
      ensures ok ==> disk.files.journal.None?
      ensures ok && old(disk.files).journal.Some? && old(disk.files).journal.value.phase.Committed? ==>
                disk.files.shared == Some(old(disk.files).journal.value.target)
      ensures !ok && !disk.crashed ==> disk.files.journal == old(disk.files).journal
      ensures old(disk.Calm()) ==> ok && disk.Calm()
      ensures disk.files.journal != old(disk.files).journal && old(disk.files).journal.value.phase.Committed? ==>
                disk.files.shared == Some(old(disk.files).journal.value.target)
    {
      if disk.files.journal.None? { return true; }
      if disk.files.journal.value.phase.Committed? {
        var published := disk.Write(disk.files.(shared := Some(disk.files.journal.value.target)));
        if !published { return false; }
      }
      ok := disk.Write(disk.files.(journal := None));
    }

    // A switch to the target was committed and not finished.
    predicate Unpublished(f: Files, target: Profile) {
      f.journal.Some? && f.journal.value.phase.Committed? && f.journal.value.target == target
    }

    method FinalizeCommittedState(target: Profile) returns (ok: bool)
      modifies disk
      ensures old(disk.crashed) ==> disk.crashed
      ensures disk.files == old(disk.files).(shared := disk.files.shared, journal := disk.files.journal)
      ensures disk.files.journal in {old(disk.files).journal, None}
      ensures disk.files.journal != old(disk.files).journal ==>
                old(disk.files).journal.value.phase.Committed? && old(disk.files).journal.value.target == target
                && disk.files.shared == Some(target)
      ensures old(disk.Calm()) ==> ok && (Unpublished(old(disk.files), target) ==> disk.files.journal.None?)
    {
      if disk.files.journal.None? { return true; }
      var t := disk.files.journal.value;
      if t.phase.Prepared? || t.target != target { return true; }
      ok := CompleteRecovery();
    }

    // The commit of a switch: recheck the source, publish it, record its
    // revision and only then mark the journal. Any failure compensates.
    method CommitSelection(t: Transition) returns (ok: bool, ghost compensated: bool)
      requires t.phase.Prepared? && disk.files.journal == Some(t) && Captures(t, disk.files)
      requires t.prior.Some? ==> t.prior.value in disk.files.sources
      modifies disk
      ensures old(disk.crashed) ==> disk.crashed
      ensures disk.files.sources == old(disk.files).sources && Recoverable(disk.files)
      ensures ok ==> t.target in disk.files.sources && t.newRevision == ContentRevision(disk.files.sources[t.target])
      ensures ok ==> disk.files == CommittedFiles(old(disk.files), t)
      ensures ok ==> SelectionCommitted(old(disk.files), disk.files, t.target)
      ensures !ok ==> disk.files.journal == Some(t) && Recovered(disk.files) == Recovered(old(disk.files))
      ensures !ok && compensated ==> disk.files == old(disk.files) || disk.files == Recovered(old(disk.files))
      ensures old(disk.Calm()) ==>
                disk.Calm() && compensated && (ok <==> StillAt(old(disk.files), t.target, t.newRevision))
    {
      ghost var f0 := disk.files;
      compensated := true;
      if !StillAt(disk.files, t.target, t.newRevision) { return false, true; }
      ok := disk.Activate(t.target);
      ghost var f1 := disk.files;
      RestoredAfterActivation(f0, f1, t);
      if !ok {
        compensated := RestoreTransition(t);
        return false, compensated;
      }
      var record := MarkApplied(Lookup(disk.files.records, t.target), t.newRevision);
      ok := disk.WriteRecord(t.target, Some(record));
      ghost var f2 := disk.files;
      assert Put(f2.records, t.target, t.previousRecord) == Put(f1.records, t.target, t.previousRecord);
      assert Restored(f2, t) == Restored(f0, t);
      if !ok {
        compensated := RestoreTransition(t);
        return false, compensated;
      }
      ok := disk.Write(disk.files.(journal := Some(t.(phase := Phase.Committed))));
      if !ok {
        compensated := RestoreTransition(t);
        return false, compensated;
      }
    }

    lemma RestoredAfterActivation(f0: Files, f1: Files, t: Transition)
      requires t.target in f0.sources && (t.prior.Some? ==> t.prior.value in f0.sources)
      requires f1 == f0.(active := f1.active, mirrors := f1.mirrors)
      requires f1.mirrors in {f0.mirrors, f0.mirrors[t.target.engine := f0.sources[t.target]]}
      ensures Restored(f1, t) == Restored(f0, t)
    {
      assert Restored(f1, t).mirrors == Restored(f0, t).mirrors;
    }

    // Any commit. One of a selection or revision rechecks the source first.
    method Apply(c: Commit) returns (ok: bool, ghost compensated: bool)
      requires Committable(disk.files, c)
      modifies disk
      ensures old(disk.crashed) ==> disk.crashed
      ensures CommitOutcome(c, old(disk.files), disk.files, ok && !c.NoCommit?, compensated)
      ensures c.NoCommit? ==> ok
      ensures ok && c.SelectProfile? ==> SelectionCommitted(old(disk.files), disk.files, c.t.target)
      ensures ok && c.MarkRevision? ==>
                && c.profile in disk.files.sources && c.revision == ContentRevision(disk.files.sources[c.profile])
                && NowApplied(Lookup(old(disk.files).records, c.profile), Lookup(disk.files.records, c.profile),
                              c.revision)
      ensures old(disk.Calm()) ==> disk.Calm() && compensated && (Current(old(disk.files), c) ==> ok)
    {
      ok, compensated := true, true;
      match c
      case NoCommit =>
      case SelectProfile(t) => ok, compensated := CommitSelection(t);
      case MarkRevision(p, revision) =>
        if !StillAt(disk.files, p, revision) { return false, true; }
        var record := MarkApplied(Lookup(disk.files.records, p), revision);
        ok := disk.WriteRecord(p, Some(record));
    }

    // A successful start records the applied revision of the selected profile.
    method RecordStart(g: Generation) returns (ok: bool)
      modifies disk
      ensures old(disk.crashed) ==> disk.crashed
      ensures disk.files == old(disk.files) || StartRecorded(old(disk.files), disk.files, g)
      ensures !Belongs(old(disk.files), g) ==> disk.files == old(disk.files)
      ensures old(disk.Calm()) ==> disk.Calm() && ok
      ensures old(disk.Calm()) && Belongs(old(disk.files), g) ==> StartRecorded(old(disk.files), disk.files, g)
    {
      var p := disk.files.active;
      if p.None? || g.revision == "" || !PreparedMatchesProfile(g, p.value) { return true; }
      ok := disk.WriteRecord(p.value, Some(MarkApplied(Lookup(disk.files.records, p.value), g.revision)));
    }

    // Reads everything a rollback would need; nothing is written yet. `live` is
    // the generation the lifecycle reports as running, if any, and `newRevision`
    // what the preparation read; the source may have changed since.
    method Preflight(target: Profile, newRevision: string, live: Option<Generation>) returns (t: Option<Transition>)
      requires SourceKept(disk.files)
      ensures t.Some? ==>
                && t.value.target == target && t.value.phase.Prepared? && Captures(t.value, disk.files)
                && t.value.newRevision == newRevision
      ensures t.Some? ==> Remembers(t.value, disk.files, live)
      ensures t.Some? && t.value.previousMirror.Some? ==> |t.value.previousMirror.value| <= MAX_MIRROR
      ensures disk.world.Exactly? && Prepare !in disk.world.failing ==>
                (t.Some? <==> (target.engine in disk.files.mirrors ==>
                                 |disk.files.mirrors[target.engine]| <= MAX_MIRROR))
    {
      var mirror := Lookup(disk.files.mirrors, target.engine);
      if !MirrorFits(disk.files, target.engine) { return None; }
      var prior, oldRevision := disk.files.active, "";
      if prior.Some? {
        if live.Some? && PreparedMatchesProfile(live.value, prior.value) && live.value.revision != "" {
          oldRevision := live.value.revision;
        } else {
          var readable := Attempt(disk.world, Prepare);
          if !readable { return None; }
          oldRevision := ContentRevision(disk.files.sources[prior.value]);
        }
      }
      var record := Lookup(disk.files.records, target);
      t := Some(Transition(prior, target, oldRevision, newRevision, mirror, record, Prepared));
    }
  }

  // The revision of the old profile that is really in use.
  function RunningRevision(f: Files, prior: Profile, live: Option<Generation>): string
    requires prior in f.sources
  {
    if live.Some? && PreparedMatchesProfile(live.value, prior) && live.value.revision != "" then live.value.revision
    else ContentRevision(f.sources[prior])
  }
}
