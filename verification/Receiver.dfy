/**
 * The receiver as a program: files, links and tags are fields that its functions overwrite one after the other. Between
 * any two changes the process may stop (a crash, or an external command that fails): `life` is the number of stages it
 * still lives to run. Each method is proved to run exactly the stages of ReleaseStore it lives for, so what is proved
 * there about histories and recovery holds of this program.
 */
module Receiver {
  import opened Basics
  import opened ReleaseStore
  import opened ReleaseHistory
  import opened ReleaseRecovery
  import opened ReleaseRollback

  /** Still going; a guard raised an error; or the process stopped part-way. */
  datatype Ending = Going | Refused | Stopped

  /** The command got from `x` to `y` by running exactly its next `n` stages. */
  ghost predicate Follows(x: Progress, y: Progress, c: Command, now: Time, n: int) {
    0 <= n && y == Ticks(x, c, now, n)
  }

  lemma {:induction false} TicksThen(x: Progress, c: Command, now: Time, n: nat, m: nat)
    ensures Ticks(x, c, now, n + m) == Ticks(Ticks(x, c, now, n), c, now, m)
    decreases n
  {
    hide Tick;
    if n > 0 { TicksThen(Tick(x, c, now), c, now, n - 1, m); }
  }

  lemma FollowsSelf(x: Progress, c: Command, now: Time)
    ensures Follows(x, x, c, now, 0)
  {
  }

  lemma FollowsNext(x: Progress, y: Progress, c: Command, now: Time, n: int)
    requires Follows(x, y, c, now, n)
    ensures Follows(x, Tick(y, c, now), c, now, n + 1)
  {
    hide Tick;
    assert Ticks(y, c, now, 1) == Tick(y, c, now) by { assert Ticks(Tick(y, c, now), c, now, 0) == Tick(y, c, now); }
    TicksThen(x, c, now, n, 1);
  }

  lemma FollowsOn(x: Progress, y: Progress, z: Progress, c: Command, now: Time, n: int, m: int)
    requires Follows(x, y, c, now, n) && Follows(y, z, c, now, m)
    ensures Follows(x, z, c, now, n + m)
  {
    hide Tick;
    TicksThen(x, c, now, n, m);
  }

  lemma RefusedTick(y: Progress, c: Command, now: Time)
    requires !y.refused && y.stage != Finished && !Guard(y.store, c, y.stage)
    ensures Tick(y, c, now) == y.(refused := true)
  {
    hide Guard, Effect, AfterStage;
  }

  lemma GuardedTick(y: Progress, c: Command, now: Time)
    requires !y.refused && y.stage != Finished && Guard(y.store, c, y.stage)
    ensures Tick(y, c, now) == Progress(Effect(y.store, c, now, y.stage), AfterStage(c, y.stage), false)
  {
    hide Guard, Effect, AfterStage;
  }

  // ----- What following the stages means for the files -----

  /** Which ending is reported for which progress, and what is then on disk. */
  ghost predicate IsOutcome(end: Ending, store: Store, y: Progress) {
    && store == y.store
    && (end == Refused <==> y.refused)
    && (end == Going <==> !y.refused && y.stage == Finished)
  }

  lemma OutcomeOf(end: Ending, y: Progress)
    requires end == Refused <==> y.refused
    requires end == Stopped ==> y.stage != Finished
    requires end == Going ==> y.stage == Finished
    ensures IsOutcome(end, y.store, y)
  {
  }

  lemma FollowingKeepsHistory(t: Store, c: Command, now: Time, n: nat)
    requires HistoryOk(t)
    ensures HistoryOk(Ticks(Start(t), c, now, n).store)
  {
    hide HistoryOk, At, Tick;
    StartsAt(t, c);
    TicksKeep(Start(t), c, now, n);
  }

  /** A command that is refused or done stays so, however long its process lives on. */
  lemma LivingOnChangesNothing(x: Progress, y: Progress, c: Command, now: Time, n: int, life: int)
    requires Follows(x, y, c, now, n) && n <= life && (n == life || y.refused || y.stage == Finished)
    ensures y == Ticks(x, c, now, life)
  {
    hide Tick;
    TicksThen(x, c, now, n, life - n);
    if n < life { RefusedStays(y, c, now, life - n); }
  }

  lemma FinishedIsComplete(t: Store, c: Command, now: Time, n: nat)
    requires Ticks(Start(t), c, now, n).stage == Finished && !Ticks(Start(t), c, now, n).refused
    requires HistoryOk(t) && IsDeploy(c)
    ensures Accepts(t, c) && Ticks(Start(t), c, now, n).store == Goal(t, c, now)
  {
    hide HistoryOk, Tick, Accepts, Goal, Left;
    var y, all := Ticks(Start(t), c, now, n), Left(c, Opening);
    FinishesIffAccepted(t, c, now);
    if n <= all {
      TicksThen(Start(t), c, now, n, all - n);
      RefusedStays(y, c, now, all - n);
    } else {
      TicksThen(Start(t), c, now, all, n - all);
      if Accepts(t, c) {
        RefusedStays(Complete(t, c, now), c, now, n - all);
      } else {
        StuckStays(t, c, now, n);
      }
    }
  }

  lemma StuckStays(t: Store, c: Command, now: Time, n: nat)
    requires HistoryOk(t) && IsDeploy(c) && !Accepts(t, c)
    ensures Ticks(Start(t), c, now, n).refused || Ticks(Start(t), c, now, n).stage != Finished
  {
    hide HistoryOk, Rest, OpeningGuard, Tick, At;
    StartsAt(t, c);
    if OpeningGuard(t, c) {
      assert DeployAt(t, c, Opening) by { BeginsAt(t, c); }
      NeverFinishes(Start(t), c, now, n);
    } else if n > 0 {
      ClosedAtOnce(t, c, now, n);
    }
  }

  lemma BeginsAt(t: Store, c: Command)
    requires IsDeploy(c)
    ensures DeployAt(t, c, Opening)
  {
    StartsAt(t, c);
    hide DeployAt, RollbackAt;
  }

  // ----- The stages, one group of writes at a time -----

  lemma PreviousTicks(y: Progress, c: Command, now: Time)
    requires !y.refused && (y.stage == DropPrevious || y.stage == LinkPrevious)
    ensures var t := y.store;
            var away := t.current.Some? && t.current != Some(c.version);
            Tick(y, c, now) == Progress(
              if !away then t else t.(previous := if y.stage == DropPrevious then None else t.current),
              if y.stage == DropPrevious then LinkPrevious else DropNext, false)
  {
  }

  lemma CurrentTicks(y: Progress, c: Command, now: Time)
    requires !y.refused && (y.stage == DropNext || y.stage == LinkNext || y.stage == Rename)
    ensures Tick(y, c, now) == Progress(
      if y.stage == DropNext then y.store.(currentNext := None)
      else if y.stage == LinkNext then y.store.(currentNext := Some(c.version))
      else y.store.(current := y.store.currentNext, currentNext := None),
      if y.stage == DropNext then LinkNext
      else if y.stage == LinkNext then Rename
      else AfterStage(c, Rename), false)
  {
    match y.stage {
      case DropNext =>
      case LinkNext =>
      case Rename =>
    }
  }

  lemma TwoWays(c: Command)
    ensures AfterStage(c, Opening) == if c.action == Rollback then TagLatest(Web) else LoadImages
    ensures AfterStage(c, Rename) == if c.action == Rollback then ClearPending else WriteFinalized
  {
  }

  const IMAGE_NAMES := [Web, Api, Migrator]

  function AliasStage(i: nat): Stage { if i < 3 then TagAlias(IMAGE_NAMES[i]) else WriteSuccess }

  function LatestStage(i: nat): Stage { if i < 3 then TagLatest(IMAGE_NAMES[i]) else WriteLatest }

  lemma NextName(c: Command, i: nat)
    requires i < 3
    ensures AfterStage(c, AliasStage(i)) == AliasStage(i + 1) && AfterStage(c, LatestStage(i)) == LatestStage(i + 1)
  {
    if i == 0 {
    } else if i == 1 {
    }
  }

  class Server {
    var releases: map<Version, Release>
    var pending: Option<Identity>
    var initial: Option<Identity>
    var initialComplete: Option<Identity>
    var current: Option<Version>
    var previous: Option<Version>
    var currentNext: Option<Version>
    var latest: Option<Manifest>
    var baseEnv: bool
    var aliases: map<(ImageName, Version), ImageId>
    var latestTags: map<ImageName, ImageId>
    var loaded: set<Images>
    var migrations: set<Migration>
    var life: nat   // how many more stages the process lives to run

    constructor (life: nat)
      ensures this.life == life
      ensures View() == Store(map[], None, None, None, None, None, None, None, false, map[], map[], {}, {})
    {
      releases, aliases, latestTags := map[], map[], map[];
      pending, initial, initialComplete := None, None, None;
      current, previous, currentNext, latest := None, None, None, None;
      baseEnv, loaded, migrations := false, {}, {};
      this.life := life;
    }

    function View(): Store
      reads this
    {
      Store(releases, pending, initial, initialComplete, current, previous, currentNext, latest, baseEnv, aliases,
            latestTags, loaded, migrations)
    }

    function Directory(v: Version): Release
      reads this
    {
      Rel(View(), v)
    }

    /** The checks before anything is received. */
    method Open(c: Command, now: Time) returns (end: Ending, ghost y: Progress)
      modifies this`life
      ensures View() == old(View()) && life <= old(life) && Follows(Start(old(View())), y, c, now, old(life) - life)
      ensures y.store == View()
      ensures end == Refused <==> y.refused
      ensures end == Stopped ==> life == 0 && y.stage != Finished
      ensures end == Going ==> y.stage == AfterStage(c, Opening)
    {
      hide Tick, Follows, OpeningGuard, AfterStage;
      y := Start(View());
      FollowsSelf(y, c, now);
      if life == 0 { return Stopped, y; }
      life := life - 1;
      if !OpeningGuard(View(), c) {
        RefusedTick(y, c, now);
        FollowsNext(y, y, c, now, old(life) - life - 1);
        return Refused, Tick(y, c, now);
      }
      GuardedTick(y, c, now);
      FollowsNext(y, y, c, now, old(life) - life - 1);
      y := Tick(y, c, now);
      end := Going;
    }

    /** Load the images of the archive and record the candidate; a recorded candidate must be the requested one. */
    method ReceiveCandidate(c: Command, now: Time, ghost x: Progress) returns (end: Ending, ghost y: Progress)
      requires x == Progress(View(), LoadImages, false)
      modifies this`loaded, this`releases, this`life
      ensures life <= old(life) && Follows(x, y, c, now, old(life) - life)
      ensures y.store == View()
      ensures end == Refused <==> y.refused
      ensures end == Stopped ==> life == 0 && y.stage != Finished
      ensures end == Going ==> y.stage == MarkPending
    {
      hide Tick, Follows;
      y := x;
      FollowsSelf(x, c, now);
      var recorded := Directory(c.version).candidate;
      var refused := if recorded.Some?
                     then !Names(recorded.value.id, c) || recorded.value.id.images !in loaded
                     else !AliasesAbsent(View(), c.version);
      if life == 0 { return Stopped, y; }
      life := life - 1;
      if refused {
        RefusedTick(y, c, now);
        FollowsNext(x, y, c, now, old(life) - life - 1);
        return Refused, Tick(y, c, now);
      }
      GuardedTick(y, c, now);
      FollowsNext(x, y, c, now, old(life) - life - 1);
      y := Tick(y, c, now);
      if recorded.None? { loaded := loaded + {c.images}; }
      if life == 0 { return Stopped, y; }
      life := life - 1;
      GuardedTick(y, c, now);
      FollowsNext(x, y, c, now, old(life) - life - 1);
      y := Tick(y, c, now);
      if recorded.None? {
        releases := releases[c.version := Directory(c.version).(candidate := Some(NewCandidate(c)))];
      }
      end := Going;
    }

    /** `reconcile_pending`, after the check that an interrupted success is still the pending release. */
    method ReconcilePending(c: Command, now: Time, ghost x: Progress) returns (end: Ending, ghost y: Progress)
      requires x == Progress(View(), MarkPending, false)
      modifies this`pending, this`life
      ensures life <= old(life) && Follows(x, y, c, now, old(life) - life)
      ensures y.store == View()
      ensures end == Refused <==> y.refused
      ensures end == Stopped ==> life == 0 && y.stage != Finished
      ensures end == Going ==> y.stage == OwnInitial
    {
      hide Tick, Follows;
      y := x;
      FollowsSelf(x, c, now);
      var owner := Owner(View(), c);
      if life == 0 { return Stopped, y; }
      life := life - 1;
      if Directory(c.version).success.Some? && current != Some(c.version) && pending != Some(owner) {
        RefusedTick(y, c, now);
        FollowsNext(x, y, c, now, old(life) - life - 1);
        return Refused, Tick(y, c, now);
      }
      GuardedTick(y, c, now);
      FollowsNext(x, y, c, now, old(life) - life - 1);
      y := Tick(y, c, now);
      if pending != Some(owner) { pending := Some(owner); }
      end := Going;
    }

    /** The initial deployment claims the server; any other one needs the claim to be completed. */
    method ClaimServer(c: Command, now: Time, ghost x: Progress) returns (end: Ending, ghost y: Progress)
      requires x == Progress(View(), OwnInitial, false) && c.action != Rollback
      modifies this`initial, this`life
      ensures life <= old(life) && Follows(x, y, c, now, old(life) - life)
      ensures y.store == View()
      ensures end == Refused <==> y.refused
      ensures end == Stopped ==> life == 0 && y.stage != Finished
      ensures end == Going ==> y.stage == WriteOwner
    {
      hide Tick, Follows;
      y := x;
      FollowsSelf(x, c, now);
      var owner := Owner(View(), c);
      var refused := if c.action == DeployInitial
                     then if initial.Some? then initial.value != owner || initialComplete == Some(owner) else baseEnv
                     else initial.None? || initialComplete != initial || !baseEnv;
      if life == 0 { return Stopped, y; }
      life := life - 1;
      if refused {
        RefusedTick(y, c, now);
        FollowsNext(x, y, c, now, old(life) - life - 1);
        return Refused, Tick(y, c, now);
      }
      GuardedTick(y, c, now);
      FollowsNext(x, y, c, now, old(life) - life - 1);
      y := Tick(y, c, now);
      if c.action == DeployInitial && initial.None? { initial := Some(owner); }
      end := Going;
    }

    method PrepareServer(c: Command, now: Time, ghost x: Progress) returns (end: Ending, ghost y: Progress)
      requires x == Progress(View(), WriteOwner, false)
      modifies this`releases, this`baseEnv, this`life
      ensures life <= old(life) && Follows(x, y, c, now, old(life) - life)
      ensures y.store == View()
      ensures end == Refused <==> y.refused
      ensures end == Stopped ==> life == 0 && y.stage != Finished
      ensures end == Going ==> y.stage == CheckDeployment
    {
      hide Follows, View;
      end, y := RecordOwner(c, now, x);
      if end != Going { return; }
      ghost var z, mid := y, life;
      end, y := MakeEnvironment(c, now, z);
      FollowsOn(x, z, y, c, now, old(life) - mid, mid - life);
    }

    method RecordOwner(c: Command, now: Time, ghost x: Progress) returns (end: Ending, ghost y: Progress)
      requires x == Progress(View(), WriteOwner, false)
      modifies this`releases, this`life
      ensures life <= old(life) && Follows(x, y, c, now, old(life) - life)
      ensures y.store == View()
      ensures end == Refused <==> y.refused
      ensures end == Stopped ==> life == 0 && y.stage != Finished
      ensures end == Going ==> y.stage == MakeEnv
    {
      hide Tick, Follows;
      y := x;
      FollowsSelf(x, c, now);
      var owner, recorded := Owner(View(), c), Directory(c.version).initialOwner;
      if life == 0 { return Stopped, y; }
      life := life - 1;
      if c.action == DeployInitial && recorded.Some? && recorded.value != owner {
        RefusedTick(y, c, now);
        FollowsNext(x, y, c, now, old(life) - life - 1);
        return Refused, Tick(y, c, now);
      }
      GuardedTick(y, c, now);
      FollowsNext(x, y, c, now, old(life) - life - 1);
      y := Tick(y, c, now);
      if c.action == DeployInitial && recorded.None? {
        releases := releases[c.version := Directory(c.version).(initialOwner := Some(owner))];
      }
      end := Going;
    }

    /** generate-env.sh, only for the initial deployment and only once. */
    method MakeEnvironment(c: Command, now: Time, ghost x: Progress) returns (end: Ending, ghost y: Progress)
      requires x == Progress(View(), MakeEnv, false)
      modifies this`baseEnv, this`life
      ensures life <= old(life) && Follows(x, y, c, now, old(life) - life)
      ensures y.store == View()
      ensures !y.refused && end != Refused
      ensures end == Stopped ==> life == 0 && y.stage != Finished
      ensures end == Going ==> y.stage == CheckDeployment
    {
      hide Tick, Follows;
      y := x;
      FollowsSelf(x, c, now);
      if life == 0 { return Stopped, y; }
      life := life - 1;
      GuardedTick(y, c, now);
      FollowsNext(x, y, c, now, old(life) - life - 1);
      y := Tick(y, c, now);
      if c.action == DeployInitial && !baseEnv { baseEnv := true; }
      end := Going;
    }

    /** `load_deployment`, and the fingerprint check when there is one to resume. */
    method LoadDeployment(c: Command, now: Time, ghost x: Progress) returns (end: Ending, ghost y: Progress)
      requires x == Progress(View(), CheckDeployment, false)
      modifies this`life
      ensures life <= old(life) && Follows(x, y, c, now, old(life) - life)
      ensures y.store == View()
      ensures end == Refused <==> y.refused
      ensures end == Stopped ==> life == 0 && y.stage != Finished
      ensures end == Going ==> y.stage == MigrateFrom(c, 0)
    {
      hide Tick, Follows;
      y := x;
      FollowsSelf(x, c, now);
      var manifest := Directory(c.version).deployment;
      if life == 0 { return Stopped, y; }
      life := life - 1;
      if manifest.Some?
         && (manifest.value.candidate.id != Owner(View(), c) || manifest.value.fingerprint != migrations) {
        RefusedTick(y, c, now);
        FollowsNext(x, y, c, now, old(life) - life - 1);
        return Refused, Tick(y, c, now);
      }
      GuardedTick(y, c, now);
      FollowsNext(x, y, c, now, old(life) - life - 1);
      y := Tick(y, c, now);
      end := Going;
    }

    /** deploy-release.sh applies the pending migrations one after the other, unless a deployment is on record. */
    method ApplyMigrations(c: Command, now: Time, ghost x: Progress) returns (end: Ending, ghost y: Progress)
      requires x == Progress(View(), MigrateFrom(c, 0), false)
      modifies this`migrations, this`life
      ensures life <= old(life) && Follows(x, y, c, now, old(life) - life)
      ensures y.store == View() && !y.refused && end != Refused
      ensures end == Stopped ==> life == 0 && y.stage != Finished
      ensures end == Going ==> y.stage == WriteDeployment
    {
      hide Tick, Follows;
      y := x;
      FollowsSelf(x, c, now);
      var i := 0;
      while i < |c.migrations|
        invariant 0 <= i <= |c.migrations|
        invariant life <= old(life) && Follows(x, y, c, now, old(life) - life)
        invariant y == Progress(View(), MigrateFrom(c, i), false)
        invariant unchanged(this`releases)
      {
        if life == 0 { return Stopped, y; }
        life := life - 1;
        GuardedTick(y, c, now);
        FollowsNext(x, y, c, now, old(life) - life - 1);
        y := Tick(y, c, now);
        if Directory(c.version).deployment.None? { migrations := migrations + {c.migrations[i]}; }
        i := i + 1;
      }
      end := Going;
    }

    /** Record what was deployed; a success already on record must agree. */
    method RecordDeployment(c: Command, now: Time, ghost x: Progress) returns (end: Ending, ghost y: Progress)
      requires x == Progress(View(), WriteDeployment, false)
      modifies this`releases, this`life
      ensures life <= old(life) && Follows(x, y, c, now, old(life) - life)
      ensures y.store == View()
      ensures end == Refused <==> y.refused
      ensures end == Stopped ==> life == 0 && y.stage != Finished
      ensures end == Going ==> y.stage == TagAlias(Web)
    {
      hide Follows, View;
      end, y := WriteManifest(c, now, x);
      if end == Going {
        ghost var z, mid := y, life;
        end, y := CheckRecordedSuccess(c, now, z);
        FollowsOn(x, z, y, c, now, old(life) - mid, mid - life);
      }
    }

    method WriteManifest(c: Command, now: Time, ghost x: Progress) returns (end: Ending, ghost y: Progress)
      requires x == Progress(View(), WriteDeployment, false)
      modifies this`releases, this`life
      ensures life <= old(life) && Follows(x, y, c, now, old(life) - life)
      ensures y.store == View()
      ensures end == Refused <==> y.refused
      ensures end == Stopped ==> life == 0 && y.stage != Finished
      ensures end == Going ==> y.stage == CheckSuccess
    {
      hide Tick, Follows;
      y := x;
      FollowsSelf(x, c, now);
      if life == 0 { return Stopped, y; }
      life := life - 1;
      if Directory(c.version).deployment.None? && migrations == {} {
        RefusedTick(y, c, now);
        FollowsNext(x, y, c, now, old(life) - life - 1);
        return Refused, Tick(y, c, now);
      }
      GuardedTick(y, c, now);
      FollowsNext(x, y, c, now, old(life) - life - 1);
      y := Tick(y, c, now);
      if Directory(c.version).deployment.None? {
        var manifest := Manifest(Cand(View(), c), now, migrations);
        releases := releases[c.version := Directory(c.version).(deployment := Some(manifest))];
      }
      end := Going;
    }

    /** A success already on record must agree with the deployment. */
    method CheckRecordedSuccess(c: Command, now: Time, ghost x: Progress) returns (end: Ending, ghost y: Progress)
      requires x == Progress(View(), CheckSuccess, false)
      modifies this`life
      ensures life <= old(life) && Follows(x, y, c, now, old(life) - life)
      ensures y.store == View()
      ensures end == Refused <==> y.refused
      ensures end == Stopped ==> life == 0 && y.stage != Finished
      ensures end == Going ==> y.stage == TagAlias(Web)
    {
      hide Tick, Follows;
      y := x;
      FollowsSelf(x, c, now);
      if life == 0 { return Stopped, y; }
      life := life - 1;
      if Directory(c.version).success.Some? && Directory(c.version).success != Directory(c.version).deployment {
        RefusedTick(y, c, now);
        FollowsNext(x, y, c, now, old(life) - life - 1);
        return Refused, Tick(y, c, now);
      }
      GuardedTick(y, c, now);
      FollowsNext(x, y, c, now, old(life) - life - 1);
      y := Tick(y, c, now);
      end := Going;
    }

    /** `reconcile_version_aliases` */
    method ReconcileAliases(c: Command, now: Time, ghost x: Progress) returns (end: Ending, ghost y: Progress)
      requires x == Progress(View(), TagAlias(Web), false)
      modifies this`aliases, this`life
      ensures life <= old(life) && Follows(x, y, c, now, old(life) - life)
      ensures y.store == View()
      ensures end == Refused <==> y.refused
      ensures end == Stopped ==> life == 0 && y.stage != Finished
      ensures end == Going ==> y.stage == WriteSuccess
    {
      hide Tick, Follows, View;
      y := x;
      FollowsSelf(x, c, now);
      var i := 0;
      while i < 3
        invariant 0 <= i <= 3
        invariant life <= old(life) && Follows(x, y, c, now, old(life) - life)
        invariant y == Progress(View(), AliasStage(i), false)
      {
        ghost var z, mid := y, life;
        end, y := ReconcileAlias(c, now, i, z);
        FollowsOn(x, z, y, c, now, old(life) - mid, mid - life);
        if end != Going { return; }
        i := i + 1;
      }
      end := Going;
    }

    method ReconcileAlias(c: Command, now: Time, i: nat, ghost x: Progress) returns (end: Ending, ghost y: Progress)
      requires i < 3 && x == Progress(View(), AliasStage(i), false)
      modifies this`aliases, this`life
      ensures life <= old(life) && Follows(x, y, c, now, old(life) - life)
      ensures y.store == View()
      ensures end == Refused <==> y.refused
      ensures end == Stopped ==> life == 0 && y.stage != Finished
      ensures end == Going ==> y.stage == AliasStage(i + 1)
    {
      hide Tick, Follows;
      y := x;
      FollowsSelf(x, c, now);
      if life == 0 { return Stopped, y; }
      life := life - 1;
      var manifest, ref := Directory(c.version).deployment, (IMAGE_NAMES[i], c.version);
      if manifest.Some? && ref in aliases
         && aliases[ref] != ImageOf(manifest.value.candidate.id.images, IMAGE_NAMES[i]) {
        RefusedTick(y, c, now);
        FollowsNext(x, y, c, now, old(life) - life - 1);
        return Refused, Tick(y, c, now);
      }
      GuardedTick(y, c, now);
      FollowsNext(x, y, c, now, old(life) - life - 1);
      NextName(c, i);
      y := Tick(y, c, now);
      if manifest.Some? && ref !in aliases {
        aliases := aliases[ref := ImageOf(manifest.value.candidate.id.images, IMAGE_NAMES[i])];
      }
      end := Going;
    }

    method RecordSuccess(c: Command, now: Time, ghost x: Progress) returns (end: Ending, ghost y: Progress)
      requires x == Progress(View(), WriteSuccess, false)
      modifies this`releases, this`life
      ensures life <= old(life) && Follows(x, y, c, now, old(life) - life)
      ensures y.store == View()
      ensures end == Refused <==> y.refused
      ensures end == Stopped ==> life == 0 && y.stage != Finished
      ensures end == Going ==> y.stage == TagLatest(Web)
    {
      hide Tick, Follows;
      y := x;
      FollowsSelf(x, c, now);
      var r := Directory(c.version);
      if life == 0 { return Stopped, y; }
      life := life - 1;
      if r.success.Some? && r.success != r.deployment {
        RefusedTick(y, c, now);
        FollowsNext(x, y, c, now, old(life) - life - 1);
        return Refused, Tick(y, c, now);
      }
      GuardedTick(y, c, now);
      FollowsNext(x, y, c, now, old(life) - life - 1);
      y := Tick(y, c, now);
      if r.success.None? { releases := releases[c.version := r.(success := r.deployment)]; }
      end := Going;
    }

    /** Move the `latest` tags of all three images, then latest.json. */
    method TagLatestImages(c: Command, now: Time, ghost x: Progress) returns (end: Ending, ghost y: Progress)
      requires x == Progress(View(), TagLatest(Web), false)
      modifies this`latestTags, this`latest, this`life
      ensures life <= old(life) && Follows(x, y, c, now, old(life) - life)
      ensures y.store == View() && !y.refused && end != Refused
      ensures end == Stopped ==> life == 0 && y.stage != Finished
      ensures end == Going ==> y.stage == DropPrevious
    {
      hide Follows, View;
      end, y := MoveLatestTags(c, now, x);
      if end == Going {
        ghost var z, mid := y, life;
        end, y := PublishLatest(c, now, z);
        FollowsOn(x, z, y, c, now, old(life) - mid, mid - life);
      }
    }

    method MoveLatestTags(c: Command, now: Time, ghost x: Progress) returns (end: Ending, ghost y: Progress)
      requires x == Progress(View(), TagLatest(Web), false)
      modifies this`latestTags, this`life
      ensures life <= old(life) && Follows(x, y, c, now, old(life) - life)
      ensures y.store == View() && !y.refused && end != Refused
      ensures end == Stopped ==> life == 0 && y.stage != Finished
      ensures end == Going ==> y.stage == WriteLatest
    {
      hide Tick, Follows;
      y := x;
      FollowsSelf(x, c, now);
      var manifest := Published(View(), c);
      var i := 0;
      while i < 3
        invariant 0 <= i <= 3
        invariant life <= old(life) && Follows(x, y, c, now, old(life) - life)
        invariant y == Progress(View(), LatestStage(i), false)
        invariant manifest == Published(View(), c)
      {
        if life == 0 { return Stopped, y; }
        life := life - 1;
        GuardedTick(y, c, now);
        FollowsNext(x, y, c, now, old(life) - life - 1);
        NextName(c, i);
        y := Tick(y, c, now);
        if manifest.Some? {
          latestTags := latestTags[IMAGE_NAMES[i] := ImageOf(manifest.value.candidate.id.images, IMAGE_NAMES[i])];
        }
        i := i + 1;
      }
      end := Going;
    }

    /** latest.json */
    method PublishLatest(c: Command, now: Time, ghost x: Progress) returns (end: Ending, ghost y: Progress)
      requires x == Progress(View(), WriteLatest, false)
      modifies this`latest, this`life
      ensures life <= old(life) && Follows(x, y, c, now, old(life) - life)
      ensures y.store == View() && !y.refused && end != Refused
      ensures end == Stopped ==> life == 0 && y.stage != Finished
      ensures end == Going ==> y.stage == DropPrevious
    {
      hide Tick, Follows;
      y := x;
      FollowsSelf(x, c, now);
      if life == 0 { return Stopped, y; }
      life := life - 1;
      GuardedTick(y, c, now);
      FollowsNext(x, y, c, now, old(life) - life - 1);
      y := Tick(y, c, now);
      latest := Published(View(), c);
      end := Going;
    }

    /** The records that close a deploy. */
    method FinalizeRecords(c: Command, now: Time, ghost x: Progress) returns (end: Ending, ghost y: Progress)
      requires x == Progress(View(), WriteFinalized, false)
      modifies this`releases, this`initialComplete, this`life
      ensures life <= old(life) && Follows(x, y, c, now, old(life) - life)
      ensures y.store == View()
      ensures end == Refused <==> y.refused
      ensures end == Stopped ==> life == 0 && y.stage != Finished
      ensures end == Going ==> y.stage == ClearPending
    {
      hide Follows, View;
      end, y := RecordFinalized(c, now, x);
      if end != Going { return; }
      ghost var z, mid := y, life;
      end, y := CompleteInitialRecord(c, now, z);
      FollowsOn(x, z, y, c, now, old(life) - mid, mid - life);
    }

    method RecordFinalized(c: Command, now: Time, ghost x: Progress) returns (end: Ending, ghost y: Progress)
      requires x == Progress(View(), WriteFinalized, false)
      modifies this`releases, this`life
      ensures life <= old(life) && Follows(x, y, c, now, old(life) - life)
      ensures y.store == View()
      ensures end == Refused <==> y.refused
      ensures end == Stopped ==> life == 0 && y.stage != Finished
      ensures end == Going ==> y.stage == CompleteInitial
    {
      hide Tick, Follows;
      y := x;
      FollowsSelf(x, c, now);
      var r := Directory(c.version);
      if life == 0 { return Stopped, y; }
      life := life - 1;
      if r.finalized.Some? && r.finalized != r.deployment {
        RefusedTick(y, c, now);
        FollowsNext(x, y, c, now, old(life) - life - 1);
        return Refused, Tick(y, c, now);
      }
      GuardedTick(y, c, now);
      FollowsNext(x, y, c, now, old(life) - life - 1);
      y := Tick(y, c, now);
      if r.finalized.None? { releases := releases[c.version := r.(finalized := r.deployment)]; }
      end := Going;
    }

    method CompleteInitialRecord(c: Command, now: Time, ghost x: Progress) returns (end: Ending, ghost y: Progress)
      requires x == Progress(View(), CompleteInitial, false)
      modifies this`initialComplete, this`life
      ensures life <= old(life) && Follows(x, y, c, now, old(life) - life)
      ensures y.store == View()
      ensures end == Refused <==> y.refused
      ensures end == Stopped ==> life == 0 && y.stage != Finished
      ensures end == Going ==> y.stage == ClearPending
    {
      hide Tick, Follows;
      y := x;
      FollowsSelf(x, c, now);
      var owner := Owner(View(), c);
      if life == 0 { return Stopped, y; }
      life := life - 1;
      if c.action == DeployInitial && initialComplete.Some? && initialComplete.value != owner {
        RefusedTick(y, c, now);
        FollowsNext(x, y, c, now, old(life) - life - 1);
        return Refused, Tick(y, c, now);
      }
      GuardedTick(y, c, now);
      FollowsNext(x, y, c, now, old(life) - life - 1);
      y := Tick(y, c, now);
      if c.action == DeployInitial && initialComplete.None? { initialComplete := Some(owner); }
      end := Going;
    }

    /** `clear_pending`; a rollback drops whatever marker there is. */
    method ClearPendingMarker(c: Command, now: Time, ghost x: Progress) returns (end: Ending, ghost y: Progress)
      requires x == Progress(View(), ClearPending, false)
      modifies this`pending, this`life
      ensures life <= old(life) && Follows(x, y, c, now, old(life) - life)
      ensures y.store == View() && !y.refused && end != Refused
      ensures end == Stopped ==> life == 0 && y.stage != Finished
      ensures end == Going ==> y.stage == Finished
    {
      hide Tick, Follows;
      y := x;
      FollowsSelf(x, c, now);
      if life == 0 { return Stopped, y; }
      life := life - 1;
      GuardedTick(y, c, now);
      FollowsNext(x, y, c, now, old(life) - life - 1);
      y := Tick(y, c, now);
      if c.action == Rollback || pending == Some(Owner(View(), c)) { pending := None; }
      end := Going;
    }

    method RelinkPrevious(c: Command, now: Time, ghost x: Progress) returns (end: Ending, ghost y: Progress)
      requires x == Progress(View(), DropPrevious, false)
      modifies this`previous, this`life
      ensures life <= old(life) && Follows(x, y, c, now, old(life) - life)
      ensures y.store == View() && !y.refused && end != Refused
      ensures end == Stopped ==> life == 0 && y.stage != Finished
      ensures end == Going ==> y.stage == DropNext
    {
      hide Tick, Follows;
      y := x;
      FollowsSelf(x, c, now);
      if life == 0 { return Stopped, y; }
      life := life - 1;
      if current.Some? && current != Some(c.version) { previous := None; }
      PreviousTicks(y, c, now);
      FollowsNext(x, y, c, now, old(life) - life - 1);
      y := Tick(y, c, now);
      if life == 0 { return Stopped, y; }
      life := life - 1;
      if current.Some? && current != Some(c.version) { previous := current; }
      PreviousTicks(y, c, now);
      FollowsNext(x, y, c, now, old(life) - life - 1);
      y := Tick(y, c, now);
      end := Going;
    }

    method ReplaceCurrent(c: Command, now: Time, ghost x: Progress) returns (end: Ending, ghost y: Progress)
      requires x == Progress(View(), DropNext, false)
      modifies this`currentNext, this`current, this`life
      ensures life <= old(life) && Follows(x, y, c, now, old(life) - life)
      ensures y.store == View() && !y.refused && end != Refused
      ensures end == Stopped ==> life == 0 && y.stage != Finished
      ensures end == Going ==> y.stage == AfterStage(c, Rename)
    {
      hide Tick, Follows, AfterStage, View;
      end, y := LinkNextRelease(c, now, x);
      if end == Going {
        ghost var z, mid := y, life;
        end, y := RenameNext(c, now, z);
        FollowsOn(x, z, y, c, now, old(life) - mid, mid - life);
      }
    }

    method LinkNextRelease(c: Command, now: Time, ghost x: Progress) returns (end: Ending, ghost y: Progress)
      requires x == Progress(View(), DropNext, false)
      modifies this`currentNext, this`life
      ensures life <= old(life) && Follows(x, y, c, now, old(life) - life)
      ensures y.store == View() && !y.refused && end != Refused
      ensures end == Stopped ==> life == 0 && y.stage != Finished
      ensures end == Going ==> y.stage == Rename
    {
      hide Tick, Follows, AfterStage;
      y := x;
      FollowsSelf(x, c, now);
      if life == 0 { return Stopped, y; }
      life := life - 1;
      currentNext := None;
      CurrentTicks(y, c, now);
      FollowsNext(x, y, c, now, old(life) - life - 1);
      y := Tick(y, c, now);
      if life == 0 { return Stopped, y; }
      life := life - 1;
      currentNext := Some(c.version);
      CurrentTicks(y, c, now);
      FollowsNext(x, y, c, now, old(life) - life - 1);
      y := Tick(y, c, now);
      end := Going;
    }

    method RenameNext(c: Command, now: Time, ghost x: Progress) returns (end: Ending, ghost y: Progress)
      requires x == Progress(View(), Rename, false)
      modifies this`currentNext, this`current, this`life
      ensures life <= old(life) && Follows(x, y, c, now, old(life) - life)
      ensures y.store == View() && !y.refused && end != Refused
      ensures end == Stopped ==> life == 0 && y.stage != Finished
      ensures end == Going ==> y.stage == AfterStage(c, Rename)
    {
      hide Tick, Follows, AfterStage;
      y := x;
      FollowsSelf(x, c, now);
      if life == 0 { return Stopped, y; }
      life := life - 1;
      current, currentNext := currentNext, None;
      CurrentTicks(y, c, now);
      FollowsNext(x, y, c, now, old(life) - life - 1);
      y := Tick(y, c, now);
      end := Going;
    }

    /** `promote_links`: remember where `current` points, then replace it atomically. */
    method PromoteLinks(c: Command, now: Time, ghost x: Progress) returns (end: Ending, ghost y: Progress)
      requires x == Progress(View(), DropPrevious, false)
      modifies this`previous, this`currentNext, this`current, this`life
      ensures life <= old(life) && Follows(x, y, c, now, old(life) - life)
      ensures y.store == View() && !y.refused && end != Refused
      ensures end == Stopped ==> life == 0 && y.stage != Finished
      ensures end == Going ==> y.stage == AfterStage(c, Rename)
    {
      hide Follows, AfterStage, View;
      end, y := RelinkPrevious(c, now, x);
      if end == Going {
        ghost var z, mid := y, life;
        end, y := ReplaceCurrent(c, now, z);
        FollowsOn(x, z, y, c, now, old(life) - mid, mid - life);
      }
    }

    /** From a validated candidate to a prepared server. */
    method Prepare(c: Command, now: Time, ghost x: Progress) returns (end: Ending, ghost y: Progress)
      requires x == Progress(View(), LoadImages, false) && c.action != Rollback
      modifies this
      ensures life <= old(life) && Follows(x, y, c, now, old(life) - life)
      ensures y.store == View()
      ensures end == Refused <==> y.refused
      ensures end == Stopped ==> life == 0 && y.stage != Finished
      ensures end == Going ==> y.stage == CheckDeployment
    {
      hide Follows, View;
      end, y := ReceiveCandidate(c, now, x);
      if end != Going { return; }
      ghost var z, mid := y, life;
      end, y := ReconcilePending(c, now, z);
      FollowsOn(x, z, y, c, now, old(life) - mid, mid - life);
      if end != Going { return; }
      z := y;
      mid := life;
      end, y := ClaimServer(c, now, z);
      FollowsOn(x, z, y, c, now, old(life) - mid, mid - life);
      if end != Going { return; }
      z := y;
      mid := life;
      end, y := PrepareServer(c, now, z);
      FollowsOn(x, z, y, c, now, old(life) - mid, mid - life);
    }

    /** Migrate, unless that is already on record. */
    method RunDeployment(c: Command, now: Time, ghost x: Progress) returns (end: Ending, ghost y: Progress)
      requires x == Progress(View(), CheckDeployment, false)
      modifies this
      ensures life <= old(life) && Follows(x, y, c, now, old(life) - life)
      ensures y.store == View()
      ensures end == Refused <==> y.refused
      ensures end == Stopped ==> life == 0 && y.stage != Finished
      ensures end == Going ==> y.stage == TagAlias(Web)
    {
      hide Follows, MigrateFrom, View;
      end, y := LoadDeployment(c, now, x);
      if end != Going { return; }
      ghost var z, mid := y, life;
      end, y := ApplyMigrations(c, now, z);
      FollowsOn(x, z, y, c, now, old(life) - mid, mid - life);
      if end != Going { return; }
      z := y;
      mid := life;
      end, y := RecordDeployment(c, now, z);
      FollowsOn(x, z, y, c, now, old(life) - mid, mid - life);
    }

    /** `publish_new_success` */
    method Publish(c: Command, now: Time, ghost x: Progress) returns (end: Ending, ghost y: Progress)
      requires x == Progress(View(), TagAlias(Web), false)
      modifies this
      ensures life <= old(life) && Follows(x, y, c, now, old(life) - life)
      ensures y.store == View()
      ensures end == Refused <==> y.refused
      ensures end == Stopped ==> life == 0 && y.stage != Finished
      ensures end == Going ==> y.stage == AfterStage(c, Rename)
    {
      hide Follows, AfterStage, View;
      end, y := ReconcileAliases(c, now, x);
      if end != Going { return; }
      ghost var z, mid := y, life;
      end, y := RecordSuccess(c, now, z);
      FollowsOn(x, z, y, c, now, old(life) - mid, mid - life);
      if end != Going { return; }
      z := y;
      mid := life;
      end, y := TagLatestImages(c, now, z);
      FollowsOn(x, z, y, c, now, old(life) - mid, mid - life);
      if end != Going { return; }
      z := y;
      mid := life;
      end, y := PromoteLinks(c, now, z);
      FollowsOn(x, z, y, c, now, old(life) - mid, mid - life);
    }

    /** `deploy_release`: whenever the process ends, it has run exactly the stages it lived for. */
    method DeployRelease(c: Command, now: Time) returns (end: Ending)
      requires c.action != Rollback
      modifies this
      ensures IsOutcome(end, View(), Ticks(Start(old(View())), c, now, old(life)))
      ensures HistoryOk(old(View())) ==> HistoryOk(View())
      ensures HistoryOk(old(View())) && end == Going ==> Accepts(old(View()), c) && View() == Goal(old(View()), c, now)
    {
      ghost var y;
      end, y := DeployStages(c, now);
      hide *;
      LivingOnChangesNothing(Start(old(View())), y, c, now, old(life) - life, old(life));
      assert IsOutcome(end, View(), y) by { OutcomeOf(end, y); }
      if HistoryOk(old(View())) {
        FollowingKeepsHistory(old(View()), c, now, old(life));
        if end == Going { FinishedIsComplete(old(View()), c, now, old(life)); }
      }
    }

    method DeployStages(c: Command, now: Time) returns (end: Ending, ghost y: Progress)
      requires c.action != Rollback
      modifies this
      ensures life <= old(life) && Follows(Start(old(View())), y, c, now, old(life) - life)
      ensures y.store == View()
      ensures end == Refused <==> y.refused
      ensures end == Stopped ==> life == 0 && y.stage != Finished
      ensures end == Going ==> y.stage == Finished
    {
      hide Follows, Ticks, Tick, AfterStage, Rank, View;
      ghost var x := Start(View());
      end, y := ReachDeployment(c, now);
      if end != Going { return; }
      ghost var z, mid := y, life;
      end, y := PublishAndClose(c, now, z);
      FollowsOn(x, z, y, c, now, old(life) - mid, mid - life);
    }

    method ReachDeployment(c: Command, now: Time) returns (end: Ending, ghost y: Progress)
      requires c.action != Rollback
      modifies this
      ensures life <= old(life) && Follows(Start(old(View())), y, c, now, old(life) - life)
      ensures y.store == View()
      ensures end == Refused <==> y.refused
      ensures end == Stopped ==> life == 0 && y.stage != Finished
      ensures end == Going ==> y.stage == TagAlias(Web)
    {
      hide Follows, Ticks, Tick, AfterStage, Rank, View;
      TwoWays(c);
      ghost var x := Start(View());
      end, y := Open(c, now);
      if end != Going { return; }
      ghost var z, mid := y, life;
      end, y := Prepare(c, now, z);
      FollowsOn(x, z, y, c, now, old(life) - mid, mid - life);
      if end != Going { return; }
      z := y;
      mid := life;
      end, y := RunDeployment(c, now, z);
      FollowsOn(x, z, y, c, now, old(life) - mid, mid - life);
    }

    method PublishAndClose(c: Command, now: Time, ghost x: Progress) returns (end: Ending, ghost y: Progress)
      requires x == Progress(View(), TagAlias(Web), false) && c.action != Rollback
      modifies this
      ensures life <= old(life) && Follows(x, y, c, now, old(life) - life)
      ensures y.store == View()
      ensures end == Refused <==> y.refused
      ensures end == Stopped ==> life == 0 && y.stage != Finished
      ensures end == Going ==> y.stage == Finished
    {
      hide Follows, Ticks, Tick, AfterStage, Rank, View;
      TwoWays(c);
      end, y := Publish(c, now, x);
      if end != Going { return; }
      ghost var z, mid := y, life;
      end, y := FinalizeRecords(c, now, z);
      FollowsOn(x, z, y, c, now, old(life) - mid, mid - life);
      if end != Going { return; }
      z := y;
      mid := life;
      end, y := ClearPendingMarker(c, now, z);
      FollowsOn(x, z, y, c, now, old(life) - mid, mid - life);
    }

    /** `rollback_release`, in the same way. */
    method RollbackRelease(c: Command, now: Time) returns (end: Ending)
      requires c.action == Rollback
      modifies this
      ensures IsOutcome(end, View(), Ticks(Start(old(View())), c, now, old(life)))
      ensures HistoryOk(old(View())) ==> HistoryOk(View())
      ensures HistoryOk(old(View())) && end == Going ==>
        && OpeningGuard(old(View()), c) && Succeeded(old(View()), c.version)
        && View() == RollbackGoal(old(View()), c)
    {
      ghost var y;
      end, y := RollbackStages(c, now);
      hide *;
      LivingOnChangesNothing(Start(old(View())), y, c, now, old(life) - life, old(life));
      assert IsOutcome(end, View(), y) by { OutcomeOf(end, y); }
      if HistoryOk(old(View())) {
        FollowingKeepsHistory(old(View()), c, now, old(life));
        if end == Going { FinishedRollback(old(View()), c, now, old(life)); }
      }
    }

    method RollbackStages(c: Command, now: Time) returns (end: Ending, ghost y: Progress)
      requires c.action == Rollback
      modifies this
      ensures life <= old(life) && Follows(Start(old(View())), y, c, now, old(life) - life)
      ensures y.store == View()
      ensures end == Refused <==> y.refused
      ensures end == Stopped ==> life == 0 && y.stage != Finished
      ensures end == Going ==> y.stage == Finished
    {
      hide Follows, Ticks, Tick, AfterStage, Rank, View;
      TwoWays(c);
      ghost var x := Start(View());
      end, y := Open(c, now);
      if end != Going { return; }
      ghost var z, mid := y, life;
      end, y := TagLatestImages(c, now, z);
      FollowsOn(x, z, y, c, now, old(life) - mid, mid - life);
      if end != Going { return; }
      z := y;
      mid := life;
      end, y := PromoteLinks(c, now, z);
      FollowsOn(x, z, y, c, now, old(life) - mid, mid - life);
      if end != Going { return; }
      z := y;
      mid := life;
      end, y := ClearPendingMarker(c, now, z);
      FollowsOn(x, z, y, c, now, old(life) - mid, mid - life);
    }
  }
}
