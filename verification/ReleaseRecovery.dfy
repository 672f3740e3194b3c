/** Running a deploy again after any crash reaches the state an uninterrupted deploy would have reached. */
module ReleaseRecovery {
  import opened Basics
  import opened ReleaseStore
  import opened ReleaseHistory

  predicate IsDeploy(c: Command) { c.action != Rollback }

  function AllMigrations(c: Command): set<Migration> { FirstMigrations(c, |c.migrations|) }

  /** The recorded candidate, if any, is the requested one. */
  ghost predicate CandidateFits(t: Store, c: Command) {
    Rel(t, c.version).candidate.Some? ==> Names(Rel(t, c.version).candidate.value.id, c)
  }

  /** A release that succeeded but was not promoted may only go on while it is the pending one. */
  ghost predicate StillPending(t: Store, c: Command) {
    Rel(t, c.version).success.Some? && t.current != Some(c.version) ==> t.pending == Some(Owner(t, c))
  }

  ghost predicate OwnershipFits(t: Store, c: Command) {
    if c.action == DeployInitial
    then (t.initial.Some? ==> t.initial == Some(Owner(t, c))) && (t.initial.None? ==> !t.baseEnv)
    else t.initial.Some? && t.initialComplete == t.initial && t.baseEnv
  }

  ghost predicate DatabaseFits(t: Store, c: Command) {
    if Rel(t, c.version).deployment.Some? then Rel(t, c.version).deployment.value.fingerprint == t.migrations
    else t.migrations + AllMigrations(c) != {}
  }

  /** What a deploy needs beyond its opening guard; a caller can check all of it before the command starts. */
  ghost predicate Rest(t: Store, c: Command) {
    CandidateFits(t, c) && StillPending(t, c) && OwnershipFits(t, c) && DatabaseFits(t, c)
  }

  ghost predicate Accepts(t: Store, c: Command) {
    OpeningGuard(t, c) && Rest(t, c)
  }

  // ----- The rest of the guards follow from the history -----

  lemma RecordGuards(t: Store, c: Command, stage: Stage)
    requires ReleaseOk(Rel(t, c.version), c.version, t.loaded) && IsDeploy(c) && Rest(t, c)
    requires stage in {MarkPending, WriteOwner, CheckDeployment, CheckSuccess, WriteSuccess, WriteFinalized}
    ensures Guard(t, c, stage)
  {
  }

  lemma ImageGuards(t: Store, c: Command, stage: Stage)
    requires HistoryOk(t) && Rest(t, c) && (stage == LoadImages || stage.TagAlias?)
    ensures Guard(t, c, stage)
  {
    RelOk(t, c.version);
    hide LinksOk, MarkersOk, InitialFirst, AliasesOk, ReleasesOk;
    if stage == LoadImages {
      if Rel(t, c.version).candidate.None? { NoAliasYet(t, c); }
    } else if (stage.name, c.version) in t.aliases && Rel(t, c.version).deployment.Some? {
      AliasAgrees(t, c, stage.name);
    }
  }

  lemma InitialGuards(t: Store, c: Command, stage: Stage)
    requires DeployAt(t, c, stage) && IsDeploy(c) && Rest(t, c)
    requires stage in {OwnInitial, CompleteInitial, WriteDeployment}
    ensures Guard(t, c, stage)
  {
    hide ImagesAt, TagsAt, LinksAt, PendingAt;
    match stage {
      case OwnInitial => if c.action == DeployInitial { NotCompleted(t, c); }
      case CompleteInitial => if c.action == DeployInitial { NotCompletedYet(t, c); }
      case WriteDeployment =>
        assert t.migrations + AllMigrations(c) == t.migrations || Rel(t, c.version).deployment.Some?;
    }
  }

  lemma GuardHolds(t: Store, c: Command, stage: Stage)
    requires HistoryOk(t) && DeployAt(t, c, stage) && IsDeploy(c) && Rest(t, c) && stage != Opening
    ensures Guard(t, c, stage)
  {
    if stage in {OwnInitial, CompleteInitial, WriteDeployment} {
      InitialGuards(t, c, stage);
    } else {
      hide DeployAt, Rest;
      if stage == LoadImages || stage.TagAlias? {
        ImageGuards(t, c, stage);
      } else if stage in {MarkPending, WriteOwner, CheckDeployment, CheckSuccess, WriteSuccess, WriteFinalized} {
        RelOk(t, c.version);
        hide HistoryOk, Guard, ReleaseOk;
        RecordGuards(t, c, stage);
      }
    }
  }

  lemma NoAliasYet(t: Store, c: Command)
    requires HistoryOk(t) && Rel(t, c.version).candidate.None?
    ensures AliasesAbsent(t, c.version)
  {
  }

  lemma AliasAgrees(t: Store, c: Command, n: ImageName)
    requires HistoryOk(t) && (n, c.version) in t.aliases && Rel(t, c.version).deployment.Some?
    ensures t.aliases[(n, c.version)] == ImageOf(Rel(t, c.version).deployment.value.candidate.id.images, n)
  {
    RelOk(t, c.version);
  }

  lemma NotCompleted(t: Store, c: Command)
    requires DeployAt(t, c, OwnInitial) && c.action == DeployInitial
    ensures t.initialComplete.None?
  {
  }

  lemma NotCompletedYet(t: Store, c: Command)
    requires DeployAt(t, c, CompleteInitial) && c.action == DeployInitial
    ensures t.initialComplete.None?
  {
  }

  // ----- A stage neither creates nor removes a reason to refuse -----

  lemma CandidateStays(t: Store, c: Command, now: Time, stage: Stage)
    ensures CandidateFits(Effect(t, c, now, stage), c) <==> CandidateFits(t, c)
  {
    ReleaseWritten(t, c, now, stage);
    hide Effect;
  }

  lemma PendingRanks()
    ensures Passed(WriteSuccess, MarkPending) && !Passed(WriteSuccess, ClearPending)
    ensures Passed(Rename, MarkPending) && !Passed(Rename, ClearPending) && Passed(ClearPending, Rename)
    ensures Passed(ClearPending, MarkPending) && !Passed(ClearPending, ClearPending)
  {
  }

  lemma PendingStays(t: Store, c: Command, now: Time, stage: Stage)
    requires PendingAt(t, c, stage) && LinksAt(t, c, stage) && Guard(t, c, stage) && IsDeploy(c)
    ensures StillPending(Effect(t, c, now, stage), c) <==> StillPending(t, c)
  {
    OwnerStays(t, c, now, stage);
    ReleaseWritten(t, c, now, stage);
    MarkersWritten(t, c, now, stage);
    LinksWritten(t, c, now, stage);
    PendingRanks();
    if stage != MarkPending { hide Guard; }
    hide Effect, Passed, Rank, OpeningGuard;
  }

  lemma OwnershipStays(t: Store, c: Command, now: Time, stage: Stage)
    requires InitialAt(t, c, stage) && Guard(t, c, stage) && IsDeploy(c)
    ensures OwnershipFits(Effect(t, c, now, stage), c) <==> OwnershipFits(t, c)
  {
    OwnerStays(t, c, now, stage);
    MarkersWritten(t, c, now, stage);
    InitialGuardHeld(t, c, stage);
    OwnerRanks();
    hide Effect, Passed, Rank, Guard, OpeningGuard, Owner;
  }

  lemma AllContains(c: Command, k: nat)
    requires k < |c.migrations|
    ensures c.migrations[k] in AllMigrations(c)
  {
  }

  lemma DatabaseStays(t: Store, c: Command, now: Time, stage: Stage)
    requires DatabaseAt(t, c, stage) && Guard(t, c, stage) && IsDeploy(c)
    ensures DatabaseFits(Effect(t, c, now, stage), c) <==> DatabaseFits(t, c)
    ensures Rel(t, c.version).deployment.None? ==>
      Effect(t, c, now, stage).migrations + AllMigrations(c) == t.migrations + AllMigrations(c)
  {
    ReleaseWritten(t, c, now, stage);
    MigrationsApplied(t, c, now, stage);
    if stage.Migrate? { AllContains(c, stage.done); }
    if stage != WriteDeployment { hide Guard; }
    hide Effect, Passed, OpeningGuard;
  }

  lemma RestStays(t: Store, c: Command, now: Time, stage: Stage)
    requires DeployAt(t, c, stage) && IsDeploy(c) && Guard(t, c, stage)
    ensures Rest(Effect(t, c, now, stage), c) <==> Rest(t, c)
  {
    hide CandidateFits, StillPending, OwnershipFits, DatabaseFits, Effect, Guard;
    CandidateStays(t, c, now, stage);
    PendingStays(t, c, now, stage);
    OwnershipStays(t, c, now, stage);
    DatabaseStays(t, c, now, stage);
  }

  // ----- The state an uninterrupted deploy reaches -----

  /** The deployment record: the one on disk, or the one written at time `at`. */
  ghost function FinalManifest(t: Store, c: Command, at: Time): Manifest {
    if Rel(t, c.version).deployment.Some? then Rel(t, c.version).deployment.value
    else Manifest(Cand(t, c), at, t.migrations + AllMigrations(c))
  }

  function AllAliases(aliases: map<(ImageName, Version), ImageId>, v: Version, images: Images)
    : map<(ImageName, Version), ImageId>
  {
    aliases[(Web, v) := images.web][(Api, v) := images.api][(Migrator, v) := images.migrate]
  }

  function AllLatest(latest: map<ImageName, ImageId>, images: Images): map<ImageName, ImageId> {
    latest[Web := images.web][Api := images.api][Migrator := images.migrate]
  }

  ghost function FinalRelease(t: Store, c: Command, at: Time): Release {
    var m := Some(FinalManifest(t, c, at));
    Release(Some(Cand(t, c)), FinalOwner(t, c, Rel(t, c.version).initialOwner), m, m, m)
  }

  /** An initial deploy leaves its own identity where a plain one leaves what it found. */
  function FinalOwner(t: Store, c: Command, found: Option<Identity>): Option<Identity> {
    if c.action == DeployInitial then Some(Owner(t, c)) else found
  }

  function FinalPrevious(t: Store, c: Command): Option<Version> {
    if t.current.Some? && t.current != Some(c.version) then t.current else t.previous
  }

  function FinalMigrations(t: Store, c: Command): set<Migration> {
    if Rel(t, c.version).deployment.Some? then t.migrations else t.migrations + AllMigrations(c)
  }

  /** The state after a complete deploy of `c` that found `t`; `previous` is the release that was current before. */
  ghost function Goal(t: Store, c: Command, at: Time): Store {
    Store(
      t.releases[c.version := FinalRelease(t, c, at)],
      None,
      FinalOwner(t, c, t.initial),
      FinalOwner(t, c, t.initialComplete),
      Some(c.version),
      FinalPrevious(t, c),
      None,
      Some(FinalManifest(t, c, at)),
      true,
      AllAliases(t.aliases, c.version, Owner(t, c).images),
      AllLatest(t.latestTags, Owner(t, c).images),
      t.loaded + {Owner(t, c).images},
      FinalMigrations(t, c))
  }

  lemma ManifestStays(t: Store, c: Command, now: Time, stage: Stage, at: Time)
    requires DatabaseAt(t, c, stage) && Guard(t, c, stage) && IsDeploy(c)
    ensures FinalManifest(Effect(t, c, now, stage), c, at)
         == FinalManifest(t, c, if stage == WriteDeployment then now else at)
  {
    ReleaseWritten(t, c, now, stage);
    OwnerStays(t, c, now, stage);
    DatabaseStays(t, c, now, stage);
    MigrationsApplied(t, c, now, stage);
    if stage == WriteDeployment && Rel(t, c.version).deployment.None? {
      assert t.migrations + AllMigrations(c) == t.migrations;
    }
    hide Effect, Guard, Passed;
  }

  lemma ReleasesMove(t: Store, c: Command, now: Time, stage: Stage, final: Release)
    ensures Effect(t, c, now, stage).releases[c.version := final] == t.releases[c.version := final]
  {
    match stage {
      case WriteCandidate =>
      case WriteOwner =>
      case WriteDeployment =>
      case WriteSuccess =>
      case WriteFinalized =>
      case _ =>
    }
  }

  lemma AliasesMove(t: Store, c: Command, now: Time, stage: Stage)
    requires HistoryOk(t) && IsDeploy(c)
    ensures AllAliases(Effect(t, c, now, stage).aliases, c.version, Owner(t, c).images)
         == AllAliases(t.aliases, c.version, Owner(t, c).images)
  {
    hide Effect, HistoryOk, Owner;
    AliasesWritten(t, c, now, stage);
    if Rel(t, c.version).deployment.Some? {
      HistoryReleases(t);
      DeploymentIsOwners(t, c);
    }
    if stage.TagAlias? { match stage.name { case Web => case Api => case Migrator => } }
  }

  lemma HistoryReleases(t: Store)
    requires HistoryOk(t)
    ensures ReleasesOk(t)
  {
    hide ReleasesOk, LinksOk, MarkersOk, InitialFirst, AliasesOk;
  }

  lemma AliasesWritten(t: Store, c: Command, now: Time, stage: Stage)
    ensures Effect(t, c, now, stage).aliases
         == if stage.TagAlias? && (stage.name, c.version) !in t.aliases && Rel(t, c.version).deployment.Some?
            then t.aliases[(stage.name, c.version) :=
              ImageOf(Rel(t, c.version).deployment.value.candidate.id.images, stage.name)]
            else t.aliases
  {
    match stage {
      case TagAlias(n) =>
      case _ =>
    }
  }

  lemma LatestMoves(t: Store, c: Command, now: Time, stage: Stage)
    ensures AllLatest(Effect(t, c, now, stage).latestTags, Owner(t, c).images)
         == AllLatest(t.latestTags, Owner(t, c).images)
  {
    hide Effect, Owner, Published;
    TagsWritten(t, c, now, stage);
    if stage.TagLatest? { match stage.name { case Web => case Api => case Migrator => } }
  }

  lemma PreviousMoves(t: Store, c: Command, now: Time, stage: Stage)
    requires LinksAt(t, c, stage)
    ensures FinalPrevious(Effect(t, c, now, stage), c) == FinalPrevious(t, c)
  {
    LinksWritten(t, c, now, stage);
    LinkRanks();
    hide Effect, Passed, Rank;
  }

  /** No stage moves the goal: wherever a deploy stops, what is left to reach is the same. */
  lemma GoalStays(t: Store, c: Command, now: Time, stage: Stage, at: Time)
    requires HistoryOk(t) && DeployAt(t, c, stage) && IsDeploy(c) && Guard(t, c, stage)
    ensures Goal(Effect(t, c, now, stage), c, at) == Goal(t, c, if stage == WriteDeployment then now else at)
  {
    hide Effect, Guard, HistoryOk, DeployAt, AllAliases, AllLatest, FinalManifest, FinalRelease, FinalMigrations,
         FinalPrevious, FinalOwner, Owner, Cand, DatabaseAt, LinksAt, Rel;
    DeployParts(t, c, stage);
    OwnerStays(t, c, now, stage);
    OwnersMove(t, c, now, stage);
    ManifestStays(t, c, now, stage, at);
    var d := if stage == WriteDeployment then now else at;
    FinalReleaseStays(t, c, now, stage, at, d);
    MigrationsMove(t, c, now, stage);
    AliasesMove(t, c, now, stage);
    LatestMoves(t, c, now, stage);
    PreviousMoves(t, c, now, stage);
    LoadedMoves(t, c, now, stage);
    ReleasesMove(t, c, now, stage, FinalRelease(t, c, d));
  }

  /** The initial markers only ever become the owner of an initial deploy. */
  lemma OwnersMove(t: Store, c: Command, now: Time, stage: Stage)
    ensures var t' := Effect(t, c, now, stage);
            && FinalOwner(t', c, t'.initial) == FinalOwner(t, c, t.initial)
            && FinalOwner(t', c, t'.initialComplete) == FinalOwner(t, c, t.initialComplete)
  {
    hide Effect, Owner, Cand;
    OwnerStays(t, c, now, stage);
    MarkersWritten(t, c, now, stage);
  }

  lemma FinalReleaseStays(t: Store, c: Command, now: Time, stage: Stage, at: Time, d: Time)
    requires FinalManifest(Effect(t, c, now, stage), c, at) == FinalManifest(t, c, d)
    ensures FinalRelease(Effect(t, c, now, stage), c, at) == FinalRelease(t, c, d)
  {
    hide Effect, Owner, Cand, FinalManifest;
    OwnerStays(t, c, now, stage);
    ReleaseWritten(t, c, now, stage);
  }

  lemma DeployParts(t: Store, c: Command, stage: Stage)
    requires DeployAt(t, c, stage)
    ensures DatabaseAt(t, c, stage) && LinksAt(t, c, stage)
  {
    hide DatabaseAt, LinksAt, ImagesAt, OwnerAt, TagsAt;
  }

  lemma LoadedMoves(t: Store, c: Command, now: Time, stage: Stage)
    ensures Effect(t, c, now, stage).loaded + {Owner(t, c).images} == t.loaded + {Owner(t, c).images}
  {
    hide Effect;
    ImagesLoaded(t, c, now, stage);
  }

  lemma MigrationsMove(t: Store, c: Command, now: Time, stage: Stage)
    requires DatabaseAt(t, c, stage) && Guard(t, c, stage) && IsDeploy(c)
    ensures FinalMigrations(Effect(t, c, now, stage), c) == FinalMigrations(t, c)
  {
    hide Effect, Guard, DatabaseAt, AllMigrations;
    ReleaseWritten(t, c, now, stage);
    DatabaseStays(t, c, now, stage);
    MigrationsApplied(t, c, now, stage);
    MigrationsAreDone(t, c, stage);
  }

  lemma MigrationsAreDone(t: Store, c: Command, stage: Stage)
    requires DatabaseAt(t, c, stage)
    ensures stage == WriteDeployment && Rel(t, c.version).deployment.None? ==>
      t.migrations + AllMigrations(c) == t.migrations
  {
    hide Passed;
  }

  // ----- At the end the goal is reached -----

  lemma FinishedRanks(stage: Stage)
    requires stage == ClearPending || stage == Finished
    ensures Passed(stage, WriteCandidate) && Passed(stage, WriteDeployment) && Passed(stage, WriteSuccess)
    ensures Passed(stage, OwnInitial) && Passed(stage, WriteOwner) && Passed(stage, MakeEnv)
    ensures Passed(stage, CompleteInitial)
    ensures Passed(stage, Rename) && Passed(stage, WriteFinalized) && Passed(stage, WriteLatest)
    ensures forall n: ImageName :: Passed(stage, TagAlias(n)) && Passed(stage, TagLatest(n))
    ensures stage == Finished ==> Passed(stage, ClearPending)
    ensures Passed(stage, Opening) && Passed(stage, CheckDeployment) && Passed(stage, MarkPending)
  {
  }

  lemma RecordsAreFinal(t: Store, c: Command, stage: Stage)
    requires HistoryOk(t) && DeployAt(t, c, stage) && IsDeploy(c) && (stage == ClearPending || stage == Finished)
    ensures var m := Rel(t, c.version).deployment;
            && m.Some? && m.value.candidate == Cand(t, c) && t.latest == m && t.current == Some(c.version)
            && t.currentNext.None? && t.baseEnv && Owner(t, c).images in t.loaded && m.value.fingerprint == t.migrations
            && c.version in t.releases
            && t.releases[c.version] == Release(Some(Cand(t, c)), Rel(t, c.version).initialOwner, m, m, m)
            && (c.action == DeployInitial ==>
                  Rel(t, c.version).initialOwner == Some(Owner(t, c))
                  && t.initial == Some(Owner(t, c)) && t.initialComplete == Some(Owner(t, c)))
            && (stage == Finished ==> t.pending.None?)
  {
    RelOk(t, c.version);
    FinishedRanks(stage);
    hide HistoryOk, ReleasesOk, Passed, TagsAt;
    assert t.latest == Published(t, c) by { LatestIsPublished(t, c, stage); }
  }

  lemma LatestIsPublished(t: Store, c: Command, stage: Stage)
    requires TagsAt(t, c, stage) && (stage == ClearPending || stage == Finished)
    ensures t.latest == Published(t, c)
    ensures forall n: ImageName :: (n, c.version) in t.aliases && n in t.latestTags
    ensures forall n: ImageName :: t.latestTags[n] == ImageOf(Owner(t, c).images, n)
  {
    FinishedRanks(stage);
    hide Passed;
  }

  lemma TagsAreFinal(t: Store, c: Command, stage: Stage)
    requires HistoryOk(t) && DeployAt(t, c, stage) && IsDeploy(c) && (stage == ClearPending || stage == Finished)
    ensures AllAliases(t.aliases, c.version, Owner(t, c).images) == t.aliases
    ensures AllLatest(t.latestTags, Owner(t, c).images) == t.latestTags
  {
    LatestIsPublished(t, c, stage);
    FinishedRanks(stage);
    hide Passed;
    var images := Owner(t, c).images;
    forall n: ImageName ensures (n, c.version) in t.aliases && t.aliases[(n, c.version)] == ImageOf(images, n) {}
    assert t.aliases[(Web, c.version)] == ImageOf(images, Web) && t.aliases[(Api, c.version)] == ImageOf(images, Api);
    assert t.aliases[(Migrator, c.version)] == ImageOf(images, Migrator);
    assert t.latestTags[Web] == ImageOf(images, Web) && t.latestTags[Api] == ImageOf(images, Api);
    assert t.latestTags[Migrator] == ImageOf(images, Migrator);
  }

  lemma GoalIsReached(t: Store, c: Command, stage: Stage, at: Time)
    requires HistoryOk(t) && DeployAt(t, c, stage) && IsDeploy(c) && (stage == ClearPending || stage == Finished)
    ensures t.(pending := None) == Goal(t, c, at)
    ensures stage == Finished ==> t == Goal(t, c, at)
  {
    hide HistoryOk, DeployAt, AllAliases, AllLatest, Cand, AllMigrations, Owner, FinalRelease, FinalManifest, Rel;
    RecordsAreFinal(t, c, stage);
    TagsAreFinal(t, c, stage);
    FinalReleaseReached(t, c, at);
    assert t.releases[c.version := t.releases[c.version]] == t.releases;
    assert t.loaded + {Owner(t, c).images} == t.loaded;
  }

  lemma FinalReleaseReached(t: Store, c: Command, at: Time)
    requires var m := Rel(t, c.version).deployment;
             && m.Some? && c.version in t.releases
             && t.releases[c.version] == Release(Some(Cand(t, c)), Rel(t, c.version).initialOwner, m, m, m)
             && (c.action == DeployInitial ==> Rel(t, c.version).initialOwner == Some(Owner(t, c)))
    ensures FinalManifest(t, c, at) == Rel(t, c.version).deployment.value
    ensures FinalRelease(t, c, at) == t.releases[c.version]
  {
    hide Cand, Owner;
  }

  lemma FinishedRests(t: Store, c: Command)
    requires HistoryOk(t) && DeployAt(t, c, Finished) && IsDeploy(c)
    ensures Rest(t, c)
  {
    RecordsAreFinal(t, c, Finished);
    FinishedRanks(Finished);
    assert Names(Owner(t, c), c);
    hide HistoryOk, Passed;
  }

  // ----- Complete and interrupted deploys -----

  lemma StagesRunDown(c: Command, stage: Stage)
    requires stage != Finished && (stage.Migrate? ==> stage.done < |c.migrations|)
    ensures Left(c, AfterStage(c, stage)) < Left(c, stage)
  {
    match stage {
      case TagAlias(n) => match n { case Web => case Api => case Migrator => }
      case TagLatest(n) => match n { case Web => case Api => case Migrator => }
      case _ =>
    }
  }

  lemma OnlyFinishedHasNothingLeft(c: Command, stage: Stage)
    ensures Left(c, stage) == 0 ==> stage == Finished
  {
    match stage {
      case TagAlias(n) => match n { case Web => case Api => case Migrator => }
      case TagLatest(n) => match n { case Web => case Api => case Migrator => }
      case _ =>
    }
  }

  /** The command is at `x` and nothing will refuse it any more. */
  ghost predicate OnItsWay(x: Progress, c: Command) {
    && !x.refused && HistoryOk(x.store) && DeployAt(x.store, c, x.stage) && IsDeploy(c) && Rest(x.store, c)
    && (x.stage == Opening ==> OpeningGuard(x.store, c))
    && FinalizedIsCurrent(x.store, c.version)
  }

  ghost predicate FinalizedIsCurrent(t: Store, v: Version) {
    Rel(t, v).finalized.Some? ==> t.current == Some(v)
  }

  lemma FinalizedStaysCurrent(t: Store, c: Command, now: Time, stage: Stage)
    requires LinksAt(t, c, stage) && FinalizedIsCurrent(t, c.version)
    ensures FinalizedIsCurrent(Effect(t, c, now, stage), c.version)
  {
    ReleaseWritten(t, c, now, stage);
    LinksWritten(t, c, now, stage);
    LinkRanks();
    hide Effect, Passed, Rank;
  }

  lemma WayGoesOn(x: Progress, c: Command, now: Time, at: Time)
    requires OnItsWay(x, c) && x.stage != Finished
    ensures OnItsWay(Tick(x, c, now), c)
    ensures Tick(x, c, now) == Progress(Effect(x.store, c, now, x.stage), AfterStage(c, x.stage), false)
    ensures Goal(Tick(x, c, now).store, c, at) == Goal(x.store, c, if x.stage == WriteDeployment then now else at)
  {
    hide HistoryOk, DeployAt, Effect, Rest, Goal, OpeningGuard;
    if x.stage != Opening { GuardHolds(x.store, c, x.stage); }
    assert Guard(x.store, c, x.stage);
    hide Guard;
    KeepsHistory(x.store, c, now, x.stage) by { DeployIsAt(x.store, c, x.stage); }
    DeployMovesOn(x.store, c, now, x.stage);
    RestStays(x.store, c, now, x.stage);
    GoalStays(x.store, c, now, x.stage, at);
    FinalizedStaysCurrent(x.store, c, now, x.stage) by { DeployParts(x.store, c, x.stage); }
    hide FinalizedIsCurrent;
    NeverOpeningAgain(c, x.stage);
    hide AfterStage;
  }

  lemma DeployIsAt(t: Store, c: Command, stage: Stage)
    requires DeployAt(t, c, stage) && IsDeploy(c)
    ensures At(t, c, stage)
  {
    hide DeployAt;
  }

  lemma NeverOpeningAgain(c: Command, stage: Stage)
    requires stage != Finished
    ensures AfterStage(c, stage) != Opening
  {
    match stage {
      case TagAlias(n) => match n { case Web => case Api => case Migrator => }
      case TagLatest(n) => match n { case Web => case Api => case Migrator => }
      case _ =>
    }
  }

  lemma MigratingIsBounded(x: Progress, c: Command)
    requires OnItsWay(x, c)
    ensures x.stage.Migrate? ==> x.stage.done < |c.migrations|
  {
    hide HistoryOk, ImagesAt, OwnerAt, TagsAt, LinksAt, Rest;
  }

  /** Left alone, it reaches its goal. */
  lemma {:induction false} WayEnds(x: Progress, c: Command, now: Time, n: nat)
    requires OnItsWay(x, c) && Left(c, x.stage) <= n
    ensures Ticks(x, c, now, n) == Progress(Goal(x.store, c, now), Finished, false)
    decreases n
  {
    hide OnItsWay, Tick, Left, AfterStage, Goal, Effect;
    if x.stage == Finished {
      RefusedStays(x, c, now, n);
      FinishedIsGoal(x, c, now);
    } else {
      OnlyFinishedHasNothingLeft(c, x.stage);
      MigratingIsBounded(x, c);
      StagesRunDown(c, x.stage);
      WayGoesOn(x, c, now, now);
      WayEnds(Tick(x, c, now), c, now, n - 1);
    }
  }

  lemma FinishedIsGoal(x: Progress, c: Command, at: Time)
    requires OnItsWay(x, c) && x.stage == Finished
    ensures x == Progress(Goal(x.store, c, at), Finished, false)
  {
    hide HistoryOk, DeployAt, Rest, Goal;
    GoalIsReached(x.store, c, Finished, at);
  }

  lemma StartIsOnItsWay(t: Store, c: Command)
    requires HistoryOk(t) && IsDeploy(c) && Accepts(t, c)
    ensures OnItsWay(Start(t), c)
  {
    StartsAt(t, c);
    RelOk(t, c.version);
    hide HistoryOk, DeployAt, Rank;
  }

  // ----- Refusal -----

  lemma {:induction false} NeverFinishes(x: Progress, c: Command, now: Time, n: nat)
    requires HistoryOk(x.store) && DeployAt(x.store, c, x.stage) && IsDeploy(c)
    requires x.refused || !Rest(x.store, c)
    ensures Ticks(x, c, now, n).refused || Ticks(x, c, now, n).stage != Finished
    decreases n
  {
    hide HistoryOk, DeployAt, Rest, Guard, Effect, AfterStage;
    if x.refused {
      RefusedStays(x, c, now, n);
    } else {
      if x.stage == Finished { FinishedRests(x.store, c); }
      if n > 0 {
        if Guard(x.store, c, x.stage) {
          KeepsHistory(x.store, c, now, x.stage) by { DeployIsAt(x.store, c, x.stage); }
          DeployMovesOn(x.store, c, now, x.stage);
          RestStays(x.store, c, now, x.stage);
        }
        NeverFinishes(Tick(x, c, now), c, now, n - 1);
      }
    }
  }

  /** An uninterrupted deploy finishes exactly when it is acceptable, and then reaches its goal. */
  lemma FinishesIffAccepted(t: Store, c: Command, now: Time)
    requires HistoryOk(t) && IsDeploy(c)
    ensures Complete(t, c, now).stage == Finished && !Complete(t, c, now).refused <==> Accepts(t, c)
    ensures Accepts(t, c) ==> Complete(t, c, now) == Progress(Goal(t, c, now), Finished, false)
  {
    hide HistoryOk, Rest, OpeningGuard, DeployAt, Goal, Tick, Effect, AfterStage;
    StartsAt(t, c);
    if Accepts(t, c) {
      StartIsOnItsWay(t, c);
      WayEnds(Start(t), c, now, Left(c, Opening));
    } else if OpeningGuard(t, c) {
      NeverFinishes(Start(t), c, now, Left(c, Opening));
    } else {
      ClosedAtOnce(t, c, now, Left(c, Opening));
    }
  }

  lemma ClosedAtOnce(t: Store, c: Command, now: Time, n: nat)
    requires !OpeningGuard(t, c) && n > 0
    ensures Ticks(Start(t), c, now, n) == Start(t).(refused := true)
  {
    hide OpeningGuard;
    assert Tick(Start(t), c, now) == Start(t).(refused := true);
    RefusedStays(Start(t).(refused := true), c, now, n - 1);
  }

  // ----- Crash anywhere, run again -----

  lemma {:induction false} CrashedOnItsWay(x: Progress, c: Command, now: Time, n: nat, at: Time) returns (d: Time)
    requires OnItsWay(x, c)
    ensures OnItsWay(Ticks(x, c, now, n), c)
    ensures Goal(Ticks(x, c, now, n).store, c, at) == Goal(x.store, c, d) && (d == now || d == at)
    decreases n
  {
    hide OnItsWay, Goal, Effect, AfterStage;
    d := at;
    if n > 0 {
      if x.stage == Finished {
        RefusedStays(x, c, now, n);
      } else {
        WayGoesOn(x, c, now, at);
        var e := CrashedOnItsWay(Tick(x, c, now), c, now, n - 1, at);
        WayGoesOn(x, c, now, e);
        d := if x.stage == WriteDeployment then now else e;
      }
    }
  }

  lemma MayOpenAgain(x: Progress, c: Command)
    requires OnItsWay(x, c)
    ensures c.action == DeployInitial && x.store.initialComplete.Some? ==>
      x.stage == ClearPending || x.stage == Finished
    ensures (c.action == DeployInitial && x.store.initialComplete.Some?) || OpeningGuard(x.store, c)
  {
    var t := x.store;
    RelOk(t, c.version);
    OpeningRanks(x.stage);
    assert Names(Owner(t, c), c);
    hide HistoryOk, TagsAt, DatabaseAt, PendingAt, Rank, Passed;
  }

  lemma OpeningRanks(stage: Stage)
    ensures Passed(stage, CompleteInitial) ==> stage == ClearPending || stage == Finished
    ensures Passed(stage, Opening) <==> stage != Opening
    ensures Passed(stage, WriteFinalized) ==> Passed(stage, Rename)
  {
    RankedRank(stage);
  }

  /** The store a crash (or an external failure) leaves when it stops the command after `n` stages. */
  function Crashed(t: Store, c: Command, now: Time, n: nat): Store {
    Ticks(Start(t), c, now, n).store
  }

  /**
   * Crash recovery: after a crash at any stage of an acceptable deploy, running the same command again reaches the
   * goal of the first run, deployed at one of the two times, with `previous` being the release that was current before
   * the first run. The one exception is an initial deployment whose completion is already recorded: the command is
   * refused without a change, and only the pending marker can be missing from the goal.
   */
  lemma RunningAgainRecovers(t: Store, c: Command, now: Time, n: nat, later: Time) returns (d: Time)
    requires HistoryOk(t) && IsDeploy(c) && Accepts(t, c)
    ensures d == now || d == later
    ensures var crashed := Crashed(t, c, now, n);
            if c.action == DeployInitial && crashed.initialComplete.Some?
            then Complete(crashed, c, later) == Start(crashed).(refused := true)
                 && crashed.(pending := None) == Goal(t, c, d)
            else Complete(crashed, c, later) == Progress(Goal(t, c, d), Finished, false)
    ensures Goal(t, c, d).previous
         == if t.current.Some? && t.current != Some(c.version) then t.current else t.previous
    ensures Complete(t, c, now) == Progress(Goal(t, c, now), Finished, false)
  {
    FinishesIffAccepted(t, c, now);
    StartIsOnItsWay(t, c);
    d := CrashedOnItsWay(Start(t), c, now, n, later);
    var x := Ticks(Start(t), c, now, n);
    MayOpenAgain(x, c);
    hide HistoryOk, Rest, OpeningGuard, DeployAt, Tick, Effect, AfterStage, Ticks;
    if c.action == DeployInitial && x.store.initialComplete.Some? {
      GoalIsReached(x.store, c, x.stage, later);
      AlreadyComplete(x.store, c, later);
    } else {
      FinishesIffAccepted(x.store, c, later);
    }
  }

  lemma AlreadyComplete(t: Store, c: Command, now: Time)
    requires c.action == DeployInitial && t.initialComplete.Some?
    ensures Complete(t, c, now) == Start(t).(refused := true)
  {
    ClosedAtOnce(t, c, now, Left(c, Opening));
  }

  /** Two goals of the same start differ in the deployment time only, and not even there if it was recorded before. */
  lemma GoalsDifferInTimeOnly(t: Store, c: Command, d: Time, e: Time)
    ensures Rel(t, c.version).deployment.Some? ==> Goal(t, c, d) == Goal(t, c, e)
    ensures FinalManifest(t, c, d).candidate == FinalManifest(t, c, e).candidate
    ensures FinalManifest(t, c, d).fingerprint == FinalManifest(t, c, e).fingerprint
    ensures var m := Some(FinalManifest(t, c, e));
            Goal(t, c, e) == Goal(t, c, d).(latest := m, releases := Goal(t, c, d).releases[c.version :=
              Goal(t, c, d).releases[c.version].(deployment := m, success := m, finalized := m)])
  {
    hide AllAliases, AllLatest, AllMigrations;
  }

  /** Deploying again what is already in place changes nothing. */
  lemma DeployingTwiceIsOnce(t: Store, c: Command, now: Time, later: Time)
    requires HistoryOk(t) && c.action == Deploy && Accepts(t, c)
    ensures Complete(Goal(t, c, now), c, later) == Progress(Goal(t, c, now), Finished, false)
  {
    hide HistoryOk, Rest, OpeningGuard, Goal, Ticks, DeployAt;
    FinishesIffAccepted(t, c, now);
    StartIsOnItsWay(t, c);
    var n := Left(c, Opening);
    var d := CrashedOnItsWay(Start(t), c, now, n, later);
    var x := Ticks(Start(t), c, now, n);
    FinishedIsGoal(x, c, later);
    MayOpenAgain(x, c);
    FinishesIffAccepted(x.store, c, later);
  }

  // ----- Any number of crashes -----

  datatype Attempt = Attempt(at: Time, stages: nat)

  function CrashedAgain(t: Store, c: Command, attempts: seq<Attempt>): Store
    decreases |attempts|
  {
    if attempts == [] then t
    else CrashedAgain(Crashed(t, c, attempts[0].at, attempts[0].stages), c, attempts[1..])
  }

  predicate IsTimeOf(d: Time, attempts: seq<Attempt>, later: Time) {
    d == later || exists i :: 0 <= i < |attempts| && attempts[i].at == d
  }

  lemma {:induction false} CompletedInitialStays(t: Store, c: Command, attempts: seq<Attempt>)
    requires c.action == DeployInitial && t.initialComplete.Some?
    ensures CrashedAgain(t, c, attempts) == t
    decreases |attempts|
  {
    hide OpeningGuard, Tick;
    if attempts != [] {
      if attempts[0].stages > 0 {
        assert !OpeningGuard(t, c) by { InitialIsClosed(t, c); }
        ClosedAtOnce(t, c, attempts[0].at, attempts[0].stages);
      }
      CompletedInitialStays(t, c, attempts[1..]);
    }
  }

  lemma InitialIsClosed(t: Store, c: Command)
    requires c.action == DeployInitial && t.initialComplete.Some?
    ensures !OpeningGuard(t, c)
  {
  }

  /** However often the same command is interrupted, the first attempt that is left alone reaches the first goal. */
  lemma {:induction false} EveryAttemptRecovers(t: Store, c: Command, attempts: seq<Attempt>, later: Time)
    returns (d: Time)
    requires HistoryOk(t) && IsDeploy(c) && Accepts(t, c)
    ensures IsTimeOf(d, attempts, later)
    ensures var crashed := CrashedAgain(t, c, attempts);
            if c.action == DeployInitial && crashed.initialComplete.Some?
            then Complete(crashed, c, later) == Start(crashed).(refused := true)
                 && crashed.(pending := None) == Goal(t, c, d)
            else Complete(crashed, c, later) == Progress(Goal(t, c, d), Finished, false)
    decreases |attempts|
  {
    hide HistoryOk, Rest, OpeningGuard, Goal, Ticks, DeployAt, Left;
    if attempts == [] {
      FinishesIffAccepted(t, c, later);
      d := later;
      if c.action == DeployInitial && t.initialComplete.Some? { InitialIsClosed(t, c); }
    } else {
      var first := attempts[0];
      StartIsOnItsWay(t, c);
      var x := Ticks(Start(t), c, first.at, first.stages);
      var known := CrashedOnItsWay(Start(t), c, first.at, first.stages, later);
      MayOpenAgain(x, c);
      if c.action == DeployInitial && x.store.initialComplete.Some? {
        CompletedInitialStays(x.store, c, attempts[1..]);
        GoalIsReached(x.store, c, x.stage, later);
        AlreadyComplete(x.store, c, later);
        d := known;
      } else {
        var rest := EveryAttemptRecovers(x.store, c, attempts[1..], later);
        d := CrashedOnItsWay(Start(t), c, first.at, first.stages, rest);
        TimesCarryOver(attempts, later, rest, d);
      }
    }
  }

  lemma TimesCarryOver(attempts: seq<Attempt>, later: Time, rest: Time, d: Time)
    requires attempts != [] && IsTimeOf(rest, attempts[1..], later) && (d == attempts[0].at || d == rest)
    ensures IsTimeOf(d, attempts, later)
  {
    if d == rest && rest != later {
      var i :| 0 <= i < |attempts[1..]| && attempts[1..][i].at == rest;
      assert attempts[i + 1].at == rest;
    }
  }
}
