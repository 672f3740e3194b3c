/** A rollback is accepted or refused at once, and can be interrupted and repeated without changing where it ends. */
module ReleaseRollback {
  import opened Basics
  import opened ReleaseStore
  import opened ReleaseHistory
  import opened ReleaseRecovery

  /**
   * The state after a complete rollback: other links, tags and latest.json, and not one release record more or less.
   */
  ghost function RollbackGoal(t: Store, c: Command): Store
    requires Succeeded(t, c.version)
  {
    var manifest := Rel(t, c.version).success;
    t.(pending := None, current := Some(c.version), previous := FinalPrevious(t, c), currentNext := None,
       latest := manifest, latestTags := AllLatest(t.latestTags, manifest.value.candidate.id.images))
  }

  lemma OpenRollbackSucceeded(t: Store, c: Command)
    requires OpeningGuard(t, c) && c.action == Rollback
    ensures Succeeded(t, c.version)
  {
  }

  // ----- One stage -----

  lemma RollbackGuards(t: Store, c: Command, stage: Stage)
    requires RollbackAt(t, c, stage) && c.action == Rollback && stage != Opening
    ensures Guard(t, c, stage)
  {
    hide OpeningGuard, LinksAt, InitialGuard, DeploymentGuard;
    RankedRank(stage);
  }

  /** What no stage of a rollback touches. */
  ghost predicate RecordsKept(t: Store, t': Store, v: Version) {
    && Rel(t', v) == Rel(t, v) && t'.releases == t.releases && t'.initial == t.initial
    && t'.initialComplete == t.initialComplete && t'.baseEnv == t.baseEnv && t'.aliases == t.aliases
    && t'.loaded == t.loaded && t'.migrations == t.migrations
  }

  predicate IsRollbackStage(stage: Stage) {
    || stage.TagLatest?
    || stage in {Opening, WriteLatest, DropPrevious, LinkPrevious, DropNext, LinkNext, Rename, ClearPending}
  }

  lemma RollbackRunsOnlyThese(t: Store, c: Command, stage: Stage)
    requires RollbackAt(t, c, stage) && c.action == Rollback && stage != Finished
    ensures IsRollbackStage(stage)
  {
    hide LinksAt;
    RankedRank(stage);
  }

  lemma RollbackKeepsRecords(t: Store, c: Command, now: Time, stage: Stage)
    requires IsRollbackStage(stage)
    ensures RecordsKept(t, Effect(t, c, now, stage), c.version)
  {
    hide Published, Owner;
    match stage {
      case TagLatest(_) =>
      case WriteLatest =>
      case DropPrevious =>
      case LinkPrevious =>
      case DropNext =>
      case LinkNext =>
      case Rename =>
      case ClearPending =>
      case _ =>
    }
  }

  lemma GuardStaysOpen(t: Store, t': Store, c: Command)
    requires OpeningGuard(t, c) && c.action == Rollback && RecordsKept(t, t', c.version) && t'.current.Some?
    ensures OpeningGuard(t', c)
  {
  }

  lemma CurrentStays(t: Store, c: Command, now: Time, stage: Stage)
    requires LinksAt(t, c, stage) && t.current.Some?
    ensures Effect(t, c, now, stage).current.Some?
  {
    hide Effect;
    LinksWritten(t, c, now, stage);
  }

  /** No stage moves the goal. */
  lemma RollbackGoalStays(t: Store, c: Command, now: Time, stage: Stage)
    requires LinksAt(t, c, stage) && IsRollbackStage(stage) && c.action == Rollback
    requires Succeeded(t, c.version) && Succeeded(Effect(t, c, now, stage), c.version)
    requires Rel(t, c.version).success.value.candidate.id == Owner(t, c)
    ensures RollbackGoal(Effect(t, c, now, stage), c) == RollbackGoal(t, c)
  {
    hide Effect, FinalPrevious, AllLatest, Owner, LinksAt;
    RollbackKeepsRecords(t, c, now, stage);
    PreviousMoves(t, c, now, stage);
    LatestMoves(t, c, now, stage);
  }

  // ----- The whole command -----

  ghost predicate RollingBack(x: Progress, c: Command) {
    && !x.refused && HistoryOk(x.store) && RollbackAt(x.store, c, x.stage) && c.action == Rollback
    && OpeningGuard(x.store, c) && Succeeded(x.store, c.version)
  }

  lemma RollbackLinks(t: Store, c: Command, stage: Stage)
    requires RollbackAt(t, c, stage)
    ensures LinksAt(t, c, stage)
  {
    hide LinksAt;
  }

  lemma RollbackStarts(t: Store, c: Command)
    requires HistoryOk(t) && c.action == Rollback && OpeningGuard(t, c)
    ensures RollingBack(Start(t), c)
  {
    hide HistoryOk, RollbackAt;
    StartsAt(t, c);
  }

  lemma RollbackGoesForward(x: Progress, c: Command, now: Time)
    requires RollingBack(x, c) && x.stage != Finished
    ensures RollingBack(Tick(x, c, now), c)
    ensures Tick(x, c, now) == Progress(Effect(x.store, c, now, x.stage), AfterStage(c, x.stage), false)
    ensures RollbackGoal(Tick(x, c, now).store, c) == RollbackGoal(x.store, c)
  {
    hide HistoryOk, RollbackAt, OpeningGuard, Effect, AfterStage, RollbackGoal, LinksAt, Owner, Succeeded, RecordsKept;
    var t, stage := x.store, x.stage;
    if stage != Opening { RollbackGuards(t, c, stage); }
    assert Guard(t, c, stage);
    hide Guard;
    RollbackRunsOnlyThese(t, c, stage);
    RollbackKeepsRecords(t, c, now, stage);
    KeepsHistory(t, c, now, stage);
    RollbackMovesOn(t, c, now, stage);
    RollbackLinks(t, c, stage);
    CurrentStays(t, c, now, stage) by { OpenHasCurrent(t, c); }
    GuardStaysOpen(t, Effect(t, c, now, stage), c);
    OpenRollbackSucceeded(Effect(t, c, now, stage), c);
    SuccessIsOwners(t, c) by { HistoryReleases(t); }
    RollbackGoalStays(t, c, now, stage);
  }

  lemma OpenHasCurrent(t: Store, c: Command)
    requires OpeningGuard(t, c) && c.action == Rollback
    ensures t.current.Some?
  {
  }

  lemma {:induction false} RollbackRuns(x: Progress, c: Command, now: Time, n: nat)
    requires RollingBack(x, c)
    ensures RollingBack(Ticks(x, c, now, n), c)
    ensures RollbackGoal(Ticks(x, c, now, n).store, c) == RollbackGoal(x.store, c)
    ensures Left(c, x.stage) <= n ==> Ticks(x, c, now, n).stage == Finished
    decreases n
  {
    hide HistoryOk, RollbackAt, OpeningGuard, Effect, AfterStage, RollbackGoal, Left, Tick;
    if x.stage == Finished {
      RefusedStays(x, c, now, n);
    } else {
      OnlyFinishedHasNothingLeft(c, x.stage);
      if n > 0 {
        RollbackGoesForward(x, c, now);
        NoMigrationInRollback(x.store, c, x.stage);
        StagesRunDown(c, x.stage);
        RollbackRuns(Tick(x, c, now), c, now, n - 1);
      }
    }
  }

  lemma NoMigrationInRollback(t: Store, c: Command, stage: Stage)
    requires RollbackAt(t, c, stage)
    ensures !stage.Migrate?
  {
    hide LinksAt;
  }

  lemma RollbackGoalReached(x: Progress, c: Command)
    requires RollingBack(x, c) && x.stage == Finished
    ensures x.store == RollbackGoal(x.store, c)
  {
    hide HistoryOk, OpeningGuard;
    FinishedRanks(Finished);
    SuccessIsOwners(x.store, c) by { HistoryReleases(x.store); }
    hide Passed, Owner;
    var t := x.store;
    assert t.latestTags[Web] == ImageOf(Owner(t, c).images, Web);
    assert t.latestTags[Api] == ImageOf(Owner(t, c).images, Api);
    assert t.latestTags[Migrator] == ImageOf(Owner(t, c).images, Migrator);
  }

  /** An uninterrupted rollback finishes exactly when it may open, and then reaches its goal. */
  lemma RollbackFinishesIffOpen(t: Store, c: Command, now: Time)
    requires HistoryOk(t) && c.action == Rollback
    ensures Complete(t, c, now).stage == Finished && !Complete(t, c, now).refused <==> OpeningGuard(t, c)
    ensures OpeningGuard(t, c) ==>
      Succeeded(t, c.version) && Complete(t, c, now) == Progress(RollbackGoal(t, c), Finished, false)
    ensures !OpeningGuard(t, c) ==> Complete(t, c, now) == Start(t).(refused := true)
  {
    hide HistoryOk, RollbackAt, OpeningGuard, RollbackGoal, Ticks;
    if OpeningGuard(t, c) {
      RollbackStarts(t, c);
      RollbackRuns(Start(t), c, now, Left(c, Opening));
      RollbackGoalReached(Complete(t, c, now), c);
    } else {
      ClosedAtOnce(t, c, now, Left(c, Opening));
    }
  }

  /** A rollback that has finished, however it was driven, was open and is at its goal. */
  lemma FinishedRollback(t: Store, c: Command, now: Time, n: nat)
    requires HistoryOk(t) && c.action == Rollback
    requires Ticks(Start(t), c, now, n).stage == Finished && !Ticks(Start(t), c, now, n).refused
    ensures OpeningGuard(t, c) && Succeeded(t, c.version) && Ticks(Start(t), c, now, n).store == RollbackGoal(t, c)
  {
    hide HistoryOk, RollbackAt, OpeningGuard, RollbackGoal, Tick;
    if OpeningGuard(t, c) {
      RollbackStarts(t, c);
      RollbackRuns(Start(t), c, now, n);
      RollbackGoalReached(Ticks(Start(t), c, now, n), c);
    } else if n > 0 {
      ClosedAtOnce(t, c, now, n);
    }
  }

  /**
   * However often a rollback is interrupted, and wherever, the first attempt that is left alone ends exactly where an
   * uninterrupted rollback would have ended: unlike a deploy, it is never refused on the way.
   */
  lemma {:induction false} EveryRollbackRecovers(t: Store, c: Command, attempts: seq<Attempt>, later: Time)
    requires HistoryOk(t) && c.action == Rollback && OpeningGuard(t, c)
    ensures Succeeded(t, c.version)
    ensures Complete(CrashedAgain(t, c, attempts), c, later) == Progress(RollbackGoal(t, c), Finished, false)
    decreases |attempts|
  {
    hide HistoryOk, RollbackAt, OpeningGuard, RollbackGoal, Ticks, Left;
    if attempts == [] {
      RollbackFinishesIffOpen(t, c, later);
    } else {
      RollbackStarts(t, c);
      RollbackRuns(Start(t), c, attempts[0].at, attempts[0].stages);
      EveryRollbackRecovers(Crashed(t, c, attempts[0].at, attempts[0].stages), c, attempts[1..], later);
    }
  }

  /** Rolling back to the release that was current before undoes the links and tags of a finished deploy. */
  lemma RollbackUndoesDeploy(t: Store, c: Command, back: Command, now: Time, later: Time)
    requires HistoryOk(t) && c.action == Deploy && Accepts(t, c)
    requires back.action == Rollback && t.current == Some(back.version) && back.version != c.version
    requires OpeningGuard(Goal(t, c, now), back)
    ensures var undone := Complete(Goal(t, c, now), back, later);
            && undone.stage == Finished && !undone.refused
            && undone.store.current == t.current && undone.store.previous == Some(c.version)
            && undone.store.latest == Rel(t, back.version).success
            && undone.store.releases == Goal(t, c, now).releases
  {
    FinishesIffAccepted(t, c, now);
    StartIsOnItsWay(t, c);
    var d := CrashedOnItsWay(Start(t), c, now, Left(c, Opening), now);
    RollbackFinishesIffOpen(Goal(t, c, now), back, later);
    hide HistoryOk, OpeningGuard, Accepts, Ticks, AllLatest, AllAliases;
  }
}
