/** What every run of deploys, rollbacks and crashes keeps true of the server's files. */
module ReleaseHistory {
  import opened Basics
  import opened ReleaseStore

  // ----- One release directory -----

  /** finalized implies success implies deployment implies candidate, all of one identity, the first three equal. */
  ghost predicate ReleaseOk(r: Release, v: Version, loaded: set<Images>) {
    && (r.candidate.Some? ==> r.candidate.value.id.version == v && r.candidate.value.id.images in loaded)
    && (r.deployment.Some? ==> r.candidate == Some(r.deployment.value.candidate))
    && (r.success.Some? ==> r.success == r.deployment)
    && (r.finalized.Some? ==> r.finalized == r.success)
    && (r.initialOwner.Some? ==> r.candidate.Some? && r.candidate.value.id == r.initialOwner.value)
  }

  ghost predicate ReleasesOk(t: Store) {
    forall v :: v in t.releases ==> ReleaseOk(t.releases[v], v, t.loaded)
  }

  predicate Succeeded(t: Store, v: Version) { Rel(t, v).success.Some? }

  ghost predicate LinksOk(t: Store) {
    && (t.current.Some? ==> Succeeded(t, t.current.value))
    && (t.previous.Some? ==> Succeeded(t, t.previous.value))
    && (t.latest.Some? ==> Rel(t, t.latest.value.candidate.id.version).success == t.latest)
  }

  predicate IsCandidateOf(t: Store, id: Identity) {
    Rel(t, id.version).candidate.Some? && Rel(t, id.version).candidate.value.id == id
  }

  ghost predicate MarkersOk(t: Store) {
    && (t.pending.Some? ==> IsCandidateOf(t, t.pending.value))
    && (t.initial.Some? ==> IsCandidateOf(t, t.initial.value))
    && (t.initialComplete.Some? ==> t.initial == t.initialComplete && Rel(t, t.initial.value.version).finalized.Some?)
  }

  /** Before the initial deployment is complete, only its own release can have succeeded. */
  ghost predicate InitialFirst(t: Store) {
    forall v: Version :: Succeeded(t, v) && t.initialComplete.None? ==> t.initial.Some? && t.initial.value.version == v
  }

  ghost predicate AliasesOk(t: Store) {
    forall n: ImageName, v: Version :: (n, v) in t.aliases ==>
      Rel(t, v).candidate.Some? && t.aliases[(n, v)] == ImageOf(Rel(t, v).candidate.value.id.images, n)
  }

  ghost predicate HistoryOk(t: Store) {
    ReleasesOk(t) && LinksOk(t) && MarkersOk(t) && InitialFirst(t) && AliasesOk(t)
  }

  // ----- What a command has established when it reaches a stage -----

  predicate Passed(stage: Stage, earlier: Stage) { Rank(earlier) < Rank(stage) }

  ghost predicate ImagesAt(t: Store, c: Command, stage: Stage) {
    && (Passed(stage, LoadImages) ==>
          if Rel(t, c.version).candidate.Some?
          then Names(Owner(t, c), c) && Owner(t, c).images in t.loaded else c.images in t.loaded)
    && (Passed(stage, WriteCandidate) ==>
          && Rel(t, c.version).candidate.Some? && Names(Owner(t, c), c)
          && Owner(t, c).images in t.loaded)
  }

  ghost predicate PendingAt(t: Store, c: Command, stage: Stage) {
    && (Passed(stage, MarkPending) && !Passed(stage, ClearPending) ==> t.pending == Some(Owner(t, c)))
    && (Passed(stage, ClearPending) ==> t.pending.None?)
  }

  ghost predicate InitialAt(t: Store, c: Command, stage: Stage) {
    && (Passed(stage, OwnInitial) ==> t.initial.Some?)
    && (c.action == DeployInitial ==>
          && (Passed(stage, OwnInitial) ==> t.initial == Some(Owner(t, c)))
          && (Passed(stage, Opening) && !Passed(stage, CompleteInitial) ==> t.initialComplete.None?)
          && (Passed(stage, WriteOwner) ==> Rel(t, c.version).initialOwner == Some(Owner(t, c)))
          && (Passed(stage, MakeEnv) ==> t.baseEnv)
          && (Passed(stage, CompleteInitial) ==> t.initialComplete == Some(Owner(t, c))))
    && (c.action == Deploy && Passed(stage, Opening) ==> t.initialComplete.Some?)
    && (c.action == Deploy && Passed(stage, OwnInitial) ==> t.initialComplete == t.initial && t.baseEnv)
  }

  ghost predicate OwnerAt(t: Store, c: Command, stage: Stage) {
    PendingAt(t, c, stage) && InitialAt(t, c, stage)
  }

  function FirstMigrations(c: Command, n: nat): set<Migration> {
    set i | 0 <= i < n && i < |c.migrations| :: c.migrations[i]
  }

  ghost predicate DatabaseAt(t: Store, c: Command, stage: Stage) {
    var d := Rel(t, c.version).deployment;
    && (stage.Migrate? ==> stage.done < |c.migrations|)
    && (stage.Migrate? && d.None? ==> FirstMigrations(c, stage.done) <= t.migrations)
    && (stage == WriteDeployment && d.None? ==> FirstMigrations(c, |c.migrations|) <= t.migrations)
    && (Passed(stage, CheckDeployment) && d.Some? ==> d.value.fingerprint == t.migrations)
    && (Passed(stage, WriteDeployment) ==> d.Some?)
  }

  ghost predicate TagsAt(t: Store, c: Command, stage: Stage) {
    && (forall n: ImageName :: Passed(stage, TagAlias(n)) ==> (n, c.version) in t.aliases)
    && (forall n: ImageName :: Passed(stage, TagLatest(n)) ==>
          n in t.latestTags && t.latestTags[n] == ImageOf(Owner(t, c).images, n))
    && (Passed(stage, WriteLatest) ==> t.latest == Published(t, c))
  }

  ghost predicate LinksAt(t: Store, c: Command, stage: Stage) {
    && (Passed(stage, WriteSuccess) ==> Succeeded(t, c.version))
    && (Passed(stage, LinkPrevious) && t.current.Some? && t.current != Some(c.version) ==> t.previous == t.current)
    && (stage == Rename ==> t.currentNext == Some(c.version))
    && (Passed(stage, Rename) ==> t.current == Some(c.version) && t.currentNext.None?)
    && (Passed(stage, WriteFinalized) && c.action != Rollback ==> Rel(t, c.version).finalized.Some?)
  }

  ghost predicate DeployAt(t: Store, c: Command, stage: Stage) {
    && ImagesAt(t, c, stage) && OwnerAt(t, c, stage) && DatabaseAt(t, c, stage) && TagsAt(t, c, stage)
    && LinksAt(t, c, stage)
  }

  /** A rollback only ever runs the opening stage and the stages from the latest tags on. */
  ghost predicate RollbackAt(t: Store, c: Command, stage: Stage) {
    && (stage == Opening || Rank(TagLatest(Web)) <= Rank(stage))
    && stage != WriteFinalized && stage != CompleteInitial
    && (Passed(stage, Opening) ==> Succeeded(t, c.version))
    && LinksAt(t, c, stage)
    && (forall n: ImageName :: Passed(stage, TagLatest(n)) ==>
          n in t.latestTags && t.latestTags[n] == ImageOf(Owner(t, c).images, n))
    && (Passed(stage, WriteLatest) ==> t.latest == Published(t, c))
    && (Passed(stage, ClearPending) ==> t.pending.None?)
  }

  ghost predicate At(t: Store, c: Command, stage: Stage) {
    if c.action == Rollback then RollbackAt(t, c, stage) else DeployAt(t, c, stage)
  }

  lemma StartsAt(t: Store, c: Command)
    ensures At(t, c, Opening)
  {
  }

  // ----- One stage -----

  lemma SetRelEffect(t: Store, v: Version, r: Release, u: Version)
    ensures Rel(SetRel(t, v, r), u) == if u == v then r else Rel(t, u)
  {
  }

  lemma RelOk(t: Store, v: Version)
    requires ReleasesOk(t)
    ensures ReleaseOk(Rel(t, v), v, t.loaded)
  {
  }

  /** Growing one release directory in an allowed way keeps everything that looks at releases. */
  ghost predicate Grows(x: Release, y: Release) {
    && (x.candidate.Some? ==> y.candidate == x.candidate)
    && (x.initialOwner.Some? ==> y.initialOwner == x.initialOwner)
    && (x.deployment.Some? ==> y.deployment == x.deployment)
    && (x.success.Some? ==> y.success == x.success)
    && (x.finalized.Some? ==> y.finalized == x.finalized)
  }

  lemma GrowKeepsReleases(t: Store, v: Version, r: Release)
    requires ReleasesOk(t) && ReleaseOk(r, v, t.loaded)
    ensures ReleasesOk(SetRel(t, v, r))
  {
  }

  lemma GrowKeepsPointers(t: Store, v: Version, r: Release)
    requires LinksOk(t) && MarkersOk(t) && Grows(Rel(t, v), r)
    ensures LinksOk(SetRel(t, v, r)) && MarkersOk(SetRel(t, v, r))
  {
  }

  lemma GrowKeepsAliases(t: Store, v: Version, r: Release)
    requires AliasesOk(t) && Grows(Rel(t, v), r)
    ensures AliasesOk(SetRel(t, v, r))
  {
    var t' := SetRel(t, v, r);
    forall n: ImageName, u: Version | (n, u) in t'.aliases
      ensures Rel(t', u).candidate.Some? && t'.aliases[(n, u)] == ImageOf(Rel(t', u).candidate.value.id.images, n)
    {
      SetRelEffect(t, v, r, u);
    }
  }

  lemma GrowKeepsInitialFirst(t: Store, v: Version, r: Release)
    requires InitialFirst(t)
    requires r.success.Some? && t.initialComplete.None? ==> t.initial.Some? && t.initial.value.version == v
    ensures InitialFirst(SetRel(t, v, r))
  {
    var t' := SetRel(t, v, r);
    forall u: Version | Succeeded(t', u) && t'.initialComplete.None?
      ensures t'.initial.Some? && t'.initial.value.version == u
    {
      SetRelEffect(t, v, r, u);
      assert u != v ==> Succeeded(t, u);
    }
  }

  lemma GrowKeepsHistory(t: Store, v: Version, r: Release)
    requires HistoryOk(t) && Grows(Rel(t, v), r) && ReleaseOk(r, v, t.loaded)
    requires r.success.Some? && t.initialComplete.None? ==> t.initial.Some? && t.initial.value.version == v
    ensures HistoryOk(SetRel(t, v, r))
  {
    hide ReleasesOk, LinksOk, MarkersOk, InitialFirst, AliasesOk;
    GrowKeepsReleases(t, v, r);
    GrowKeepsPointers(t, v, r);
    GrowKeepsAliases(t, v, r);
    GrowKeepsInitialFirst(t, v, r);
  }

  /** Fields the history does not speak about. */
  lemma OtherFieldsChange(t: Store, t': Store)
    requires HistoryOk(t) && t.loaded <= t'.loaded
    requires t' == t.(previous := t'.previous, currentNext := t'.currentNext, baseEnv := t'.baseEnv,
                      latestTags := t'.latestTags, loaded := t'.loaded, migrations := t'.migrations)
    requires t'.previous.Some? ==> Succeeded(t, t'.previous.value)
    ensures HistoryOk(t')
  {
    hide Effect;
    assert InitialFirst(t') by {
      forall v: Version | Succeeded(t', v) && t'.initialComplete.None?
        ensures t'.initial.Some? && t'.initial.value.version == v
      {
        assert Succeeded(t, v);
      }
    }
  }

  lemma PointersChange(t: Store, t': Store)
    requires HistoryOk(t)
    requires t' == t.(pending := t'.pending, initial := t'.initial, initialComplete := t'.initialComplete,
                      current := t'.current, currentNext := t'.currentNext, latest := t'.latest)
    requires LinksOk(t') && MarkersOk(t')
    requires t.initial.Some? ==> t'.initial == t.initial
    requires t.initialComplete.Some? ==> t'.initialComplete == t.initialComplete
    ensures HistoryOk(t')
  {
    hide LinksOk, MarkersOk;
    assert InitialFirst(t') by {
      forall v: Version | Succeeded(t', v) && t'.initialComplete.None?
        ensures t'.initial.Some? && t'.initial.value.version == v
      {
        assert Succeeded(t, v);
      }
    }
  }

  lemma NewAlias(t: Store, c: Command, n: ImageName)
    requires HistoryOk(t) && Rel(t, c.version).deployment.Some?
    ensures HistoryOk(t.(aliases := t.aliases[
      (n, c.version) := ImageOf(Rel(t, c.version).deployment.value.candidate.id.images, n)]))
  {
    var t' := t.(aliases := t.aliases[
      (n, c.version) := ImageOf(Rel(t, c.version).deployment.value.candidate.id.images, n)]);
    RelOk(t, c.version);
    assert InitialFirst(t') by {
      forall v: Version | Succeeded(t', v) && t'.initialComplete.None?
        ensures t'.initial.Some? && t'.initial.value.version == v
      {
        assert Succeeded(t, v);
      }
    }
  }

  lemma RecordCandidate(t: Store, c: Command)
    requires HistoryOk(t) && At(t, c, WriteCandidate) && c.action != Rollback && Rel(t, c.version).candidate.None?
    ensures HistoryOk(SetRel(t, c.version, Rel(t, c.version).(candidate := Some(NewCandidate(c)))))
  {
    RelOk(t, c.version);
    GrowKeepsHistory(t, c.version, Rel(t, c.version).(candidate := Some(NewCandidate(c))));
  }

  lemma RecordOwner(t: Store, c: Command)
    requires HistoryOk(t) && At(t, c, WriteOwner) && c.action == DeployInitial && Rel(t, c.version).initialOwner.None?
    ensures HistoryOk(SetRel(t, c.version, Rel(t, c.version).(initialOwner := Some(Owner(t, c)))))
  {
    RelOk(t, c.version);
    GrowKeepsHistory(t, c.version, Rel(t, c.version).(initialOwner := Some(Owner(t, c))));
  }

  lemma RecordDeployment(t: Store, c: Command, now: Time)
    requires HistoryOk(t) && At(t, c, WriteDeployment) && c.action != Rollback && Rel(t, c.version).deployment.None?
    ensures var manifest := Manifest(Cand(t, c), now, t.migrations);
            HistoryOk(SetRel(t, c.version, Rel(t, c.version).(deployment := Some(manifest))))
  {
    RelOk(t, c.version);
    GrowKeepsHistory(t, c.version, Rel(t, c.version).(deployment := Some(Manifest(Cand(t, c), now, t.migrations))));
  }

  lemma RecordSuccess(t: Store, c: Command)
    requires HistoryOk(t) && At(t, c, WriteSuccess) && c.action != Rollback && Rel(t, c.version).success.None?
    ensures HistoryOk(SetRel(t, c.version, Rel(t, c.version).(success := Rel(t, c.version).deployment)))
  {
    RelOk(t, c.version);
    GrowKeepsHistory(t, c.version, Rel(t, c.version).(success := Rel(t, c.version).deployment));
  }

  lemma RecordFinalized(t: Store, c: Command)
    requires HistoryOk(t) && At(t, c, WriteFinalized) && c.action != Rollback && Rel(t, c.version).finalized.None?
    ensures HistoryOk(SetRel(t, c.version, Rel(t, c.version).(finalized := Rel(t, c.version).deployment)))
  {
    RelOk(t, c.version);
    GrowKeepsHistory(t, c.version, Rel(t, c.version).(finalized := Rel(t, c.version).deployment));
  }

  lemma RecordKeepsHistory(t: Store, c: Command, now: Time, stage: Stage)
    requires HistoryOk(t) && At(t, c, stage) && Guard(t, c, stage)
    requires stage in {WriteCandidate, WriteOwner, WriteDeployment, WriteSuccess, WriteFinalized}
    ensures HistoryOk(Effect(t, c, now, stage))
  {
    hide HistoryOk, At;
    if c.action == Rollback { RollbackSkips(t, c, stage); }
    var r := Rel(t, c.version);
    match stage {
      case WriteCandidate => if r.candidate.None? { RecordCandidate(t, c); }
      case WriteOwner => if c.action == DeployInitial && r.initialOwner.None? { RecordOwner(t, c); }
      case WriteDeployment => if r.deployment.None? { RecordDeployment(t, c, now); }
      case WriteSuccess => if r.success.None? { RecordSuccess(t, c); }
      case WriteFinalized => if r.finalized.None? { RecordFinalized(t, c); }
    }
  }

  lemma RollbackSkips(t: Store, c: Command, stage: Stage)
    requires At(t, c, stage) && c.action == Rollback
    ensures stage != WriteFinalized && stage != CompleteInitial
    ensures stage == Opening || Rank(TagLatest(Web)) <= Rank(stage)
  {
  }

  lemma OwnCandidate(t: Store, c: Command, stage: Stage)
    requires At(t, c, stage) && c.action != Rollback && Passed(stage, WriteCandidate)
    ensures IsCandidateOf(t, Owner(t, c)) && Owner(t, c).version == c.version
    ensures c.action == DeployInitial && Passed(stage, OwnInitial) ==> t.initial == Some(Owner(t, c))
    ensures Passed(stage, WriteFinalized) ==> Rel(t, c.version).finalized.Some?
    ensures Passed(stage, WriteDeployment) ==> Rel(t, c.version).deployment.Some?
    ensures Passed(stage, WriteSuccess) ==> Succeeded(t, c.version)
  {
  }

  lemma RollbackSucceeded(t: Store, c: Command, stage: Stage)
    requires At(t, c, stage) && c.action == Rollback && stage != Opening
    ensures Succeeded(t, c.version)
  {
    assert Passed(stage, Opening) by { RankedRank(stage); }
  }

  lemma PublishedSucceeded(t: Store, c: Command, stage: Stage)
    requires HistoryOk(t) && At(t, c, stage) && Rank(TagLatest(Web)) <= Rank(stage)
    ensures Succeeded(t, c.version) && Published(t, c) == Rel(t, c.version).success
    ensures Rel(t, c.version).candidate.Some? && Published(t, c).value.candidate == Rel(t, c.version).candidate.value
    ensures Published(t, c).value.candidate.id.version == c.version
  {
    hide LinksOk, MarkersOk, InitialFirst, AliasesOk, ReleasesOk, At, Rank, Passed;
    LateRanks(stage);
    if c.action == Rollback { RollbackSucceeded(t, c, stage); } else { OwnCandidate(t, c, stage); }
    RelOk(t, c.version);
  }

  lemma LateRanks(stage: Stage)
    requires Rank(TagLatest(Web)) <= Rank(stage)
    ensures stage != Opening && stage != MarkPending
    ensures Passed(stage, WriteCandidate) && Passed(stage, WriteDeployment) && Passed(stage, WriteSuccess)
  {
  }

  lemma PendingChange(t: Store, pending: Option<Identity>)
    requires HistoryOk(t) && (pending.Some? ==> IsCandidateOf(t, pending.value))
    ensures HistoryOk(t.(pending := pending))
  {
    hide ReleasesOk, AliasesOk, InitialFirst;
    PointersChange(t, t.(pending := pending));
  }

  lemma InitialChange(t: Store, id: Identity)
    requires HistoryOk(t) && t.initial.None? && IsCandidateOf(t, id)
    ensures HistoryOk(t.(initial := Some(id)))
  {
    hide ReleasesOk, AliasesOk, InitialFirst;
    PointersChange(t, t.(initial := Some(id)));
  }

  lemma CompleteChange(t: Store, id: Identity)
    requires HistoryOk(t) && t.initialComplete.None? && t.initial == Some(id) && Rel(t, id.version).finalized.Some?
    ensures HistoryOk(t.(initialComplete := Some(id)))
  {
    hide ReleasesOk, AliasesOk, InitialFirst;
    PointersChange(t, t.(initialComplete := Some(id)));
  }

  lemma LatestChange(t: Store, latest: Option<Manifest>)
    requires HistoryOk(t)
    requires latest.Some? ==> Rel(t, latest.value.candidate.id.version).success == latest
    ensures HistoryOk(t.(latest := latest))
  {
    hide ReleasesOk, AliasesOk, InitialFirst;
    PointersChange(t, t.(latest := latest));
  }

  lemma CurrentChange(t: Store, v: Version)
    requires HistoryOk(t) && Succeeded(t, v)
    ensures HistoryOk(t.(current := Some(v), currentNext := None))
  {
    hide ReleasesOk, AliasesOk, InitialFirst;
    PointersChange(t, t.(current := Some(v), currentNext := None));
  }

  lemma MarkKeepsHistory(t: Store, c: Command, now: Time, stage: Stage)
    requires HistoryOk(t) && At(t, c, stage) && Guard(t, c, stage)
    requires stage in {MarkPending, OwnInitial, CompleteInitial, ClearPending}
    ensures HistoryOk(Effect(t, c, now, stage))
  {
    hide HistoryOk, At;
    if c.action == Rollback { RollbackSkips(t, c, stage); } else { OwnCandidate(t, c, stage); }
    var owner := Owner(t, c);
    match stage {
      case MarkPending => if c.action != Rollback { PendingChange(t, Some(owner)); }
      case OwnInitial => if c.action == DeployInitial && t.initial.None? { InitialChange(t, owner); }
      case CompleteInitial =>
        if c.action == DeployInitial && t.initialComplete.None? { CompleteChange(t, owner); }
      case ClearPending => PendingChange(t, None);
    }
  }

  lemma LinkKeepsHistory(t: Store, c: Command, now: Time, stage: Stage)
    requires HistoryOk(t) && At(t, c, stage) && Guard(t, c, stage)
    requires stage in {WriteLatest, Rename}
    ensures HistoryOk(Effect(t, c, now, stage))
  {
    PublishedSucceeded(t, c, stage);
    assert stage == Rename ==> t.currentNext == Some(c.version);
    hide HistoryOk, At;
    if stage == WriteLatest { LatestChange(t, Published(t, c)); } else { CurrentChange(t, c.version); }
  }

  lemma QuietKeepsHistory(t: Store, c: Command, now: Time, stage: Stage)
    requires HistoryOk(t)
    requires stage !in {WriteCandidate, WriteOwner, WriteDeployment, WriteSuccess, WriteFinalized, MarkPending,
                        OwnInitial, CompleteInitial, ClearPending, WriteLatest, Rename} && !stage.TagAlias?
    ensures HistoryOk(Effect(t, c, now, stage))
  {
    hide HistoryOk, Rel, Effect;
    PreviousSucceeded(t);
    QuietWritten(t, c, now, stage);
    OtherFieldsChange(t, Effect(t, c, now, stage));
  }

  lemma QuietWritten(t: Store, c: Command, now: Time, stage: Stage)
    requires stage !in {WriteCandidate, WriteOwner, WriteDeployment, WriteSuccess, WriteFinalized, MarkPending,
                        OwnInitial, CompleteInitial, ClearPending, WriteLatest, Rename} && !stage.TagAlias?
    ensures var t' := Effect(t, c, now, stage);
            && t.loaded <= t'.loaded
            && (t'.previous == t.previous || t'.previous == t.current || t'.previous.None?)
            && t' == t.(previous := t'.previous, currentNext := t'.currentNext, baseEnv := t'.baseEnv,
                        latestTags := t'.latestTags, loaded := t'.loaded, migrations := t'.migrations)
  {
    hide Published;
    match stage {
      case LoadImages =>
      case MakeEnv =>
      case Migrate(_) =>
      case TagLatest(_) =>
      case DropPrevious =>
      case LinkPrevious =>
      case DropNext =>
      case LinkNext =>
      case _ =>
    }
  }

  /** Every stage that passes its guard keeps the history. */
  lemma KeepsHistory(t: Store, c: Command, now: Time, stage: Stage)
    requires HistoryOk(t) && At(t, c, stage) && Guard(t, c, stage)
    ensures HistoryOk(Effect(t, c, now, stage))
  {
    hide HistoryOk, At, Guard, LinksOk;
    if stage in {WriteCandidate, WriteOwner, WriteDeployment, WriteSuccess, WriteFinalized} {
      RecordKeepsHistory(t, c, now, stage);
    } else if stage in {MarkPending, OwnInitial, CompleteInitial, ClearPending} {
      MarkKeepsHistory(t, c, now, stage);
    } else if stage in {WriteLatest, Rename} {
      LinkKeepsHistory(t, c, now, stage);
    } else if stage.TagAlias? {
      if (stage.name, c.version) !in t.aliases && Rel(t, c.version).deployment.Some? { NewAlias(t, c, stage.name); }
    } else {
      QuietKeepsHistory(t, c, now, stage);
    }
  }

  lemma PreviousSucceeded(t: Store)
    requires HistoryOk(t)
    ensures t.previous.Some? ==> Succeeded(t, t.previous.value)
    ensures t.current.Some? ==> Succeeded(t, t.current.value)
  {
  }

  // ----- A stage establishes what the next one relies on -----

  /** The release directory after a stage. */
  ghost function NextRelease(t: Store, c: Command, now: Time, stage: Stage): Release {
    var r := Rel(t, c.version);
    match stage
    case WriteCandidate => if r.candidate.None? then r.(candidate := Some(NewCandidate(c))) else r
    case WriteOwner =>
      if c.action == DeployInitial && r.initialOwner.None? then r.(initialOwner := Some(Owner(t, c))) else r
    case WriteDeployment =>
      if r.deployment.None? then r.(deployment := Some(Manifest(Cand(t, c), now, t.migrations))) else r
    case WriteSuccess => if r.success.None? then r.(success := r.deployment) else r
    case WriteFinalized => if r.finalized.None? then r.(finalized := r.deployment) else r
    case _ => r
  }

  lemma ReleaseWritten(t: Store, c: Command, now: Time, stage: Stage)
    ensures Rel(Effect(t, c, now, stage), c.version) == NextRelease(t, c, now, stage)
    ensures forall u: Version :: u != c.version ==> Rel(Effect(t, c, now, stage), u) == Rel(t, u)
  {
    hide Owner, Cand;
    match stage {
      case WriteCandidate =>
      case WriteOwner =>
      case WriteDeployment =>
      case WriteSuccess =>
      case WriteFinalized =>
      case _ =>
    }
  }

  lemma OwnerStays(t: Store, c: Command, now: Time, stage: Stage)
    ensures Owner(Effect(t, c, now, stage), c) == Owner(t, c) && Cand(Effect(t, c, now, stage), c) == Cand(t, c)
    ensures Rel(t, c.version).candidate.Some? ==>
      Rel(Effect(t, c, now, stage), c.version).candidate == Rel(t, c.version).candidate
  {
    ReleaseWritten(t, c, now, stage);
    hide Effect;
  }

  function Ranked(n: nat): Stage {
    match n
    case 0 => Opening
    case 1 => LoadImages
    case 2 => WriteCandidate
    case 3 => MarkPending
    case 4 => OwnInitial
    case 5 => WriteOwner
    case 6 => MakeEnv
    case 7 => CheckDeployment
    case 8 => Migrate(0)
    case 9 => WriteDeployment
    case 10 => CheckSuccess
    case 11 => TagAlias(Web)
    case 12 => TagAlias(Api)
    case 13 => TagAlias(Migrator)
    case 14 => WriteSuccess
    case 15 => TagLatest(Web)
    case 16 => TagLatest(Api)
    case 17 => TagLatest(Migrator)
    case 18 => WriteLatest
    case 19 => DropPrevious
    case 20 => LinkPrevious
    case 21 => DropNext
    case 22 => LinkNext
    case 23 => Rename
    case 24 => WriteFinalized
    case 25 => CompleteInitial
    case 26 => ClearPending
    case _ => Finished
  }

  lemma RankedRank(x: Stage)
    ensures Rank(x) == 8 <==> x.Migrate?
    ensures !x.Migrate? ==> Ranked(Rank(x)) == x
  {
    match x {
      case TagAlias(n) => match n { case Web => case Api => case Migrator => }
      case TagLatest(n) => match n { case Web => case Api => case Migrator => }
      case _ =>
    }
  }

  lemma RankNext(c: Command, stage: Stage)
    requires stage != Finished && (c.action == Rollback ==> stage != Opening && stage != Rename)
    ensures var next := Rank(AfterStage(c, stage));
            if stage == CheckDeployment || stage.Migrate? then next == 8 || next == 9 else next == Rank(stage) + 1
  {
    match stage {
      case TagAlias(n) => match n { case Web => case Api => case Migrator => }
      case TagLatest(n) => match n { case Web => case Api => case Migrator => }
      case _ =>
    }
  }

  /** Stages are passed one by one. */
  lemma PassedNext(c: Command, stage: Stage, x: Stage)
    requires stage != Finished && (c.action == Rollback ==> stage != Opening && stage != Rename)
    requires !x.Migrate? && x != Finished
    ensures Passed(AfterStage(c, stage), x) <==> Passed(stage, x) || stage == x
  {
    RankNext(c, stage);
    RankedRank(x);
    RankedRank(stage);
    RankedRank(CheckDeployment);
    hide AfterStage, Ranked;
    assert Rank(CheckDeployment) == 7;
    hide Rank;
  }

  lemma ImagesKept(t: Store, c: Command, now: Time, stage: Stage)
    requires ReleasesOk(t) && ImagesAt(t, c, stage) && Guard(t, c, stage) && c.action != Rollback && stage != Finished
    ensures ImagesAt(Effect(t, c, now, stage), c, AfterStage(c, stage))
  {
    hide Passed, AfterStage, Guard, Effect, Rank;
    OwnerStays(t, c, now, stage);
    ReleaseWritten(t, c, now, stage);
    ImagesLoaded(t, c, now, stage);
    PassedNext(c, stage, LoadImages);
    PassedNext(c, stage, WriteCandidate);
    TagRanks();
    if stage == LoadImages { LoadGuardHeld(t, c); }
  }

  lemma LoadGuardHeld(t: Store, c: Command)
    requires Guard(t, c, LoadImages)
    ensures Rel(t, c.version).candidate.Some? ==> Names(Owner(t, c), c) && Owner(t, c).images in t.loaded
  {
    hide OpeningGuard, AliasesAbsent;
  }

  lemma ImagesLoaded(t: Store, c: Command, now: Time, stage: Stage)
    ensures Effect(t, c, now, stage).loaded
         == if stage == LoadImages && Rel(t, c.version).candidate.None? then t.loaded + {c.images} else t.loaded
  {
  }

  lemma OwnerRanks()
    ensures Passed(OwnInitial, MarkPending) && Passed(WriteOwner, OwnInitial) && Passed(MakeEnv, WriteOwner)
    ensures Passed(CompleteInitial, MakeEnv) && Passed(ClearPending, CompleteInitial) && Passed(MarkPending, Opening)
    ensures !Passed(Opening, MarkPending) && !Passed(Opening, Opening) && !Passed(OwnInitial, ClearPending)
    ensures !Passed(MarkPending, ClearPending) && !Passed(OwnInitial, CompleteInitial)
  {
  }

  /** What each stage does to the markers. */
  ghost predicate MarkersAfter(t: Store, t': Store, c: Command, stage: Stage) {
    var owner, initially := Some(Owner(t, c)), c.action == DeployInitial;
    && t'.pending == (if stage == MarkPending then owner
                      else if stage == ClearPending && (c.action == Rollback || t.pending == owner) then None
                      else t.pending)
    && t'.initial == (if stage == OwnInitial && initially && t.initial.None? then owner else t.initial)
    && t'.initialComplete
         == (if stage == CompleteInitial && initially && t.initialComplete.None? then owner else t.initialComplete)
    && t'.baseEnv == (t.baseEnv || (stage == MakeEnv && initially))
  }

  lemma MarkersWritten(t: Store, c: Command, now: Time, stage: Stage)
    ensures MarkersAfter(t, Effect(t, c, now, stage), c, stage)
  {
    hide Owner;
    match stage {
      case MarkPending =>
      case OwnInitial =>
      case MakeEnv =>
      case CompleteInitial =>
      case ClearPending =>
      case _ =>
    }
  }

  lemma InitialGuardHeld(t: Store, c: Command, stage: Stage)
    requires Guard(t, c, stage)
    ensures stage == OwnInitial ==> InitialGuard(t, c)
    ensures stage == Opening ==> OpeningGuard(t, c)
    ensures stage == WriteOwner && c.action == DeployInitial && Rel(t, c.version).initialOwner.Some? ==>
      Rel(t, c.version).initialOwner.value == Owner(t, c)
  {
    hide InitialGuard, OpeningGuard, Owner;
  }

  lemma PendingKept(t: Store, c: Command, now: Time, stage: Stage)
    requires PendingAt(t, c, stage) && c.action != Rollback && stage != Finished
    ensures PendingAt(Effect(t, c, now, stage), c, AfterStage(c, stage))
  {
    hide AfterStage, Rank, Owner, Cand, Effect;
    OwnerStays(t, c, now, stage);
    OwnerRanks();
    PassedNext(c, stage, MarkPending);
    PassedNext(c, stage, ClearPending);
    MarkersWritten(t, c, now, stage);
  }

  lemma InitialKept(t: Store, c: Command, now: Time, stage: Stage)
    requires MarkersOk(t) && InitialAt(t, c, stage) && Guard(t, c, stage) && c.action != Rollback && stage != Finished
    ensures InitialAt(Effect(t, c, now, stage), c, AfterStage(c, stage))
  {
    hide AfterStage, Rank, Effect, Guard, Owner, Cand, IsCandidateOf, Names;
    OwnerStays(t, c, now, stage);
    OwnerRanks();
    PassedNext(c, stage, Opening);
    PassedNext(c, stage, OwnInitial);
    PassedNext(c, stage, WriteOwner);
    PassedNext(c, stage, MakeEnv);
    PassedNext(c, stage, CompleteInitial);
    MarkersWritten(t, c, now, stage);
    ReleaseWritten(t, c, now, stage);
    InitialGuardHeld(t, c, stage);
    if c.action == DeployInitial {
    } else {
    }
  }

  lemma FirstMigrationsGrow(c: Command, n: nat)
    requires n < |c.migrations|
    ensures FirstMigrations(c, n + 1) == FirstMigrations(c, n) + {c.migrations[n]}
  {
  }

  lemma MigrationsApplied(t: Store, c: Command, now: Time, stage: Stage)
    ensures Effect(t, c, now, stage).migrations
         == if stage.Migrate? && Rel(t, c.version).deployment.None? && stage.done < |c.migrations|
            then t.migrations + {c.migrations[stage.done]} else t.migrations
  {
  }

  lemma DatabaseKept(t: Store, c: Command, now: Time, stage: Stage)
    requires DatabaseAt(t, c, stage) && Guard(t, c, stage) && c.action != Rollback && stage != Finished
    ensures DatabaseAt(Effect(t, c, now, stage), c, AfterStage(c, stage))
  {
    hide Passed, Effect, Rank, Guard, AfterStage;
    PassedNext(c, stage, CheckDeployment);
    PassedNext(c, stage, WriteDeployment);
    DatabaseRanks();
    ReleaseWritten(t, c, now, stage);
    MigrationsApplied(t, c, now, stage);
    MigrationsNext(c, stage);
    if stage.Migrate? { FirstMigrationsGrow(c, stage.done); }
    if stage == CheckDeployment { DeploymentGuardHeld(t, c); }
  }

  lemma DeploymentGuardHeld(t: Store, c: Command)
    requires Guard(t, c, CheckDeployment)
    ensures DeploymentGuard(t, c)
  {
    hide DeploymentGuard, OpeningGuard;
  }

  /** Only the check and a migration lead to a migration, and all of them come before the deployment record. */
  lemma MigrationsNext(c: Command, stage: Stage)
    ensures var next := AfterStage(c, stage);
            && (next.Migrate? ==> next.done < |c.migrations|)
            && (next.Migrate? ==> stage == CheckDeployment || (stage.Migrate? && next.done == stage.done + 1))
            && (next.Migrate? && stage == CheckDeployment ==> next.done == 0)
            && (next == WriteDeployment ==>
                  (stage == CheckDeployment && |c.migrations| == 0)
                  || (stage.Migrate? && |c.migrations| <= stage.done + 1))
  {
    match stage {
      case TagAlias(n) => match n { case Web => case Api => case Migrator => }
      case TagLatest(n) => match n { case Web => case Api => case Migrator => }
      case _ =>
    }
  }

  lemma DatabaseRanks()
    ensures Passed(WriteDeployment, CheckDeployment)
  {
  }

  lemma LinkRanks()
    ensures Passed(Rename, WriteSuccess) && Passed(Rename, LinkPrevious) && Passed(LinkPrevious, WriteSuccess)
    ensures Passed(WriteFinalized, Rename) && !Passed(LinkNext, Rename) && Passed(LinkNext, LinkPrevious)
    ensures Passed(DropPrevious, WriteSuccess) && !Passed(DropPrevious, LinkPrevious) && !Passed(DropPrevious, Rename)
    ensures !Passed(WriteSuccess, LinkPrevious) && Passed(WriteSuccess, WriteDeployment)
    ensures Passed(WriteFinalized, WriteSuccess) && Passed(WriteFinalized, WriteDeployment)
    ensures !Passed(DropNext, Rename) && !Passed(LinkPrevious, LinkPrevious) && !Passed(LinkPrevious, Rename)
    ensures !Passed(Rename, Rename) && !Passed(Rename, WriteFinalized)
  {
  }

  /** What each stage does to the links. */
  ghost predicate LinksAfter(t: Store, t': Store, c: Command, stage: Stage) {
    var away := t.current.Some? && t.current != Some(c.version);
    && t'.current == (if stage == Rename then t.currentNext else t.current)
    && t'.previous == (if stage == DropPrevious && away then None
                       else if stage == LinkPrevious && away then t.current else t.previous)
    && t'.currentNext == (if stage == LinkNext then Some(c.version)
                          else if stage == DropNext || stage == Rename then None else t.currentNext)
  }

  lemma LinksWritten(t: Store, c: Command, now: Time, stage: Stage)
    ensures LinksAfter(t, Effect(t, c, now, stage), c, stage)
  {
    match stage {
      case DropPrevious =>
      case LinkPrevious =>
      case DropNext =>
      case LinkNext =>
      case Rename =>
      case _ =>
    }
  }

  lemma LinksKept(t: Store, c: Command, now: Time, stage: Stage)
    requires LinksAt(t, c, stage) && stage != Finished
    requires c.action == Rollback ==> stage != Opening && stage != Rename
    requires stage == WriteSuccess ==> Rel(t, c.version).deployment.Some? || Rel(t, c.version).success.Some?
    requires stage == WriteFinalized ==> Rel(t, c.version).deployment.Some?
    ensures LinksAt(Effect(t, c, now, stage), c, AfterStage(c, stage))
  {
    hide Passed, AfterStage, Rank, Effect;
    LinkRanks();
    PassedNext(c, stage, WriteSuccess);
    PassedNext(c, stage, LinkPrevious);
    PassedNext(c, stage, Rename);
    PassedNext(c, stage, WriteFinalized);
    LinksWritten(t, c, now, stage);
    ReleaseWritten(t, c, now, stage);
    OnlyLinkNextLeadsToRename(c, stage);
  }

  lemma OnlyLinkNextLeadsToRename(c: Command, stage: Stage)
    ensures AfterStage(c, stage) == Rename <==> stage == LinkNext
  {
    match stage {
      case Migrate(_) =>
      case TagAlias(n) => match n { case Web => case Api => case Migrator => }
      case TagLatest(n) => match n { case Web => case Api => case Migrator => }
      case _ =>
    }
  }

  lemma TagRanks()
    ensures Passed(WriteCandidate, LoadImages)
    ensures forall n: ImageName :: Passed(TagAlias(n), WriteCandidate) && Passed(TagAlias(n), WriteDeployment)
    ensures forall n: ImageName :: Passed(TagLatest(n), WriteCandidate) && Passed(TagLatest(n), WriteDeployment)
    ensures Passed(WriteLatest, WriteDeployment)
  {
  }

  /** What each stage does to the tags and to latest.json. */
  ghost predicate TagsAfter(t: Store, t': Store, c: Command, stage: Stage) {
    && (forall n: ImageName :: (n, c.version) in t.aliases ==> (n, c.version) in t'.aliases)
    && (stage.TagAlias? && Rel(t, c.version).deployment.Some? ==> (stage.name, c.version) in t'.aliases)
    && t'.latestTags
         == (if stage.TagLatest? && Published(t, c).Some?
             then t.latestTags[stage.name := ImageOf(Published(t, c).value.candidate.id.images, stage.name)]
             else t.latestTags)
    && t'.latest == (if stage == WriteLatest then Published(t, c) else t.latest)
  }

  lemma TagsWritten(t: Store, c: Command, now: Time, stage: Stage)
    ensures TagsAfter(t, Effect(t, c, now, stage), c, stage)
  {
    match stage {
      case TagAlias(n) =>
      case TagLatest(n) =>
      case WriteLatest =>
      case _ =>
    }
  }

  lemma PublishedStays(t: Store, c: Command, now: Time, stage: Stage)
    requires Published(t, c).Some?
    ensures Published(Effect(t, c, now, stage), c) == Published(t, c)
  {
    ReleaseWritten(t, c, now, stage);
    hide Effect;
  }

  lemma TagsPassedNext(c: Command, stage: Stage)
    requires stage != Finished && (c.action == Rollback ==> stage != Opening && stage != Rename)
    ensures forall n: ImageName ::
      Passed(AfterStage(c, stage), TagAlias(n)) <==> Passed(stage, TagAlias(n)) || stage == TagAlias(n)
    ensures forall n: ImageName ::
      Passed(AfterStage(c, stage), TagLatest(n)) <==> Passed(stage, TagLatest(n)) || stage == TagLatest(n)
  {
    hide Passed, AfterStage;
    forall n: ImageName
      ensures Passed(AfterStage(c, stage), TagAlias(n)) <==> Passed(stage, TagAlias(n)) || stage == TagAlias(n)
      ensures Passed(AfterStage(c, stage), TagLatest(n)) <==> Passed(stage, TagLatest(n)) || stage == TagLatest(n)
    {
      PassedNext(c, stage, TagAlias(n));
      PassedNext(c, stage, TagLatest(n));
    }
  }

  lemma TagsKept(t: Store, c: Command, now: Time, stage: Stage)
    requires ReleasesOk(t) && TagsAt(t, c, stage) && stage != Finished && c.action != Rollback
    requires Passed(stage, WriteDeployment) ==> Rel(t, c.version).deployment.Some?
    requires Passed(stage, WriteCandidate) ==> Rel(t, c.version).candidate.Some?
    ensures TagsAt(Effect(t, c, now, stage), c, AfterStage(c, stage))
  {
    hide Passed, AfterStage, Rank, Effect, ReleasesOk, Owner, Cand;
    if Rel(t, c.version).deployment.Some? { DeploymentIsOwners(t, c); }
    OwnerStays(t, c, now, stage);
    TagsWritten(t, c, now, stage);
    TagRanks();
    TagsPassedNext(c, stage);
    PassedNext(c, stage, WriteLatest);
    if Passed(stage, WriteDeployment) { PublishedStays(t, c, now, stage); }
    LaterThanLatest(stage);
  }

  lemma DeploymentIsOwners(t: Store, c: Command)
    requires ReleasesOk(t) && Rel(t, c.version).deployment.Some?
    ensures Rel(t, c.version).deployment.value.candidate.id == Owner(t, c)
  {
    RelOk(t, c.version);
  }

  lemma LaterThanLatest(stage: Stage)
    ensures Passed(stage, WriteLatest) ==> Passed(stage, WriteDeployment)
  {
  }

  /** Every stage of a deploy that passes its guard establishes what the next one relies on. */
  lemma DeployMovesOn(t: Store, c: Command, now: Time, stage: Stage)
    requires HistoryOk(t) && DeployAt(t, c, stage) && Guard(t, c, stage) && c.action != Rollback && stage != Finished
    ensures DeployAt(Effect(t, c, now, stage), c, AfterStage(c, stage))
  {
    ImagesKept(t, c, now, stage);
    PendingKept(t, c, now, stage);
    InitialKept(t, c, now, stage);
    DatabaseKept(t, c, now, stage);
    TagsKept(t, c, now, stage);
    DeploymentIsThere(stage);
    hide Effect, Guard, AfterStage, PendingAt, InitialAt, TagsAt, Passed;
    LinksKept(t, c, now, stage);
  }

  lemma DeploymentIsThere(stage: Stage)
    ensures stage == WriteSuccess || stage == WriteFinalized ==> Passed(stage, WriteDeployment)
  {
  }

  // ----- Rollback -----

  lemma RollbackRanks(c: Command)
    requires c.action == Rollback
    ensures AfterStage(c, Opening) == TagLatest(Web) && AfterStage(c, Rename) == ClearPending
    ensures Passed(TagLatest(Web), WriteSuccess) && !Passed(TagLatest(Web), LinkPrevious)
    ensures !Passed(TagLatest(Web), Rename)
    ensures Passed(ClearPending, Rename) && Passed(ClearPending, LinkPrevious) && Passed(ClearPending, WriteFinalized)
    ensures Passed(TagLatest(Web), Opening) && Passed(ClearPending, Opening) && !Passed(TagLatest(Web), WriteLatest)
    ensures forall n: ImageName :: Passed(ClearPending, TagLatest(n)) && !Passed(TagLatest(Web), TagLatest(n))
    ensures forall n: ImageName :: Passed(Rename, TagLatest(n))
    ensures Passed(ClearPending, WriteLatest) && Passed(Rename, WriteLatest)
    ensures !Passed(ClearPending, ClearPending) && !Passed(TagLatest(Web), ClearPending)
  {
  }

  /** A rollback's own facts about tags, apart from the links. */
  ghost predicate RollbackTagsAt(t: Store, c: Command, stage: Stage) {
    && (forall n: ImageName :: Passed(stage, TagLatest(n)) ==>
          n in t.latestTags && t.latestTags[n] == ImageOf(Owner(t, c).images, n))
    && (Passed(stage, WriteLatest) ==> t.latest == Published(t, c))
    && (Passed(stage, ClearPending) ==> t.pending.None?)
  }

  lemma RollbackBegins(t: Store, c: Command)
    requires OpeningGuard(t, c) && c.action == Rollback
    ensures RollbackAt(t, c, TagLatest(Web))
  {
    RollbackRanks(c);
    assert Rank(TagLatest(Web)) == 15 && Rank(WriteFinalized) == 24;
    assert !Passed(TagLatest(Web), WriteFinalized);
    hide Passed, Rank;
  }

  lemma RollbackTagsKept(t: Store, c: Command, now: Time, stage: Stage)
    requires ReleasesOk(t) && RollbackAt(t, c, stage) && c.action == Rollback && stage != Opening && stage != Rename
    requires stage != Finished
    ensures RollbackTagsAt(Effect(t, c, now, stage), c, AfterStage(c, stage))
  {
    hide Passed, AfterStage, Rank, Effect, ReleasesOk, LinksAt, Owner, Cand;
    LateRanks(stage);
    RollbackSucceeded(t, c, stage);
    SuccessIsOwners(t, c);
    OwnerStays(t, c, now, stage);
    TagsWritten(t, c, now, stage);
    MarkersWritten(t, c, now, stage);
    PublishedStays(t, c, now, stage);
    TagsPassedNext(c, stage);
    PassedNext(c, stage, WriteLatest);
    PassedNext(c, stage, ClearPending);
  }

  lemma SuccessIsOwners(t: Store, c: Command)
    requires ReleasesOk(t) && Succeeded(t, c.version)
    ensures Rel(t, c.version).success.value.candidate.id == Owner(t, c)
  {
    RelOk(t, c.version);
  }

  lemma RollbackGoesOn(c: Command, stage: Stage)
    requires c.action == Rollback && 15 <= Rank(stage) && stage != Rename && stage != Finished
    requires stage != WriteFinalized && stage != CompleteInitial
    ensures 15 <= Rank(AfterStage(c, stage)) && Passed(AfterStage(c, stage), Opening)
    ensures AfterStage(c, stage) != WriteFinalized && AfterStage(c, stage) != CompleteInitial
  {
    match stage {
      case TagLatest(n) => match n { case Web => case Api => case Migrator => }
      case _ =>
    }
  }

  lemma SuccessStays(t: Store, c: Command, now: Time, stage: Stage)
    requires Succeeded(t, c.version)
    ensures Succeeded(Effect(t, c, now, stage), c.version)
  {
    ReleaseWritten(t, c, now, stage);
    hide Effect;
  }

  lemma RenamedAt(t: Store, c: Command, now: Time)
    requires RollbackAt(t, c, Rename) && c.action == Rollback
    ensures RollbackAt(Effect(t, c, now, Rename), c, ClearPending)
  {
    RollbackRanks(c);
    LinkRanks();
    assert Rank(TagLatest(Web)) == 15 && Rank(ClearPending) == 26;
    hide Passed, Rank;
  }

  lemma RollbackLinksKept(t: Store, c: Command, now: Time, stage: Stage)
    requires RollbackAt(t, c, stage) && c.action == Rollback
    requires stage != Opening && stage != Rename && stage != Finished
    ensures LinksAt(Effect(t, c, now, stage), c, AfterStage(c, stage))
  {
    assert Rank(TagLatest(Web)) == 15;
    hide Effect, AfterStage, LinksAt, Passed;
    LinksKept(t, c, now, stage);
  }

  lemma RollbackFacts(t: Store, c: Command, stage: Stage)
    requires LinksAt(t, c, stage) && RollbackTagsAt(t, c, stage) && Succeeded(t, c.version)
    requires 15 <= Rank(stage) && stage != WriteFinalized && stage != CompleteInitial
    ensures RollbackAt(t, c, stage)
  {
    assert Rank(TagLatest(Web)) == 15;
    hide LinksAt, Rank, Passed;
  }

  lemma RollbackMovesOn(t: Store, c: Command, now: Time, stage: Stage)
    requires HistoryOk(t) && RollbackAt(t, c, stage) && Guard(t, c, stage) && c.action == Rollback && stage != Finished
    ensures RollbackAt(Effect(t, c, now, stage), c, AfterStage(c, stage))
  {
    if stage == Opening {
      RollbackBegins(t, c);
      RollbackRanks(c);
    } else if stage == Rename {
      RenamedAt(t, c, now);
      RollbackRanks(c);
    } else {
      RollbackSucceeded(t, c, stage);
      SuccessStays(t, c, now, stage);
      assert 15 <= Rank(stage) && stage != WriteFinalized && stage != CompleteInitial;
      hide Effect, Guard, AfterStage, RollbackAt, Rank, LinksAt, RollbackTagsAt, Succeeded;
      RollbackGoesOn(c, stage);
      RollbackTagsKept(t, c, now, stage);
      RollbackLinksKept(t, c, now, stage);
      RollbackFacts(Effect(t, c, now, stage), c, AfterStage(c, stage));
    }
  }

  lemma MovesOn(t: Store, c: Command, now: Time, stage: Stage)
    requires HistoryOk(t) && At(t, c, stage) && Guard(t, c, stage) && stage != Finished
    ensures At(Effect(t, c, now, stage), c, AfterStage(c, stage))
  {
    hide HistoryOk, RollbackAt, DeployAt, Guard, Effect, AfterStage;
    if c.action == Rollback { RollbackMovesOn(t, c, now, stage); } else { DeployMovesOn(t, c, now, stage); }
  }

  // ----- A command, interrupted anywhere -----

  ghost predicate RunningOk(x: Progress, c: Command) {
    HistoryOk(x.store) && At(x.store, c, x.stage)
  }

  lemma TickKeeps(x: Progress, c: Command, now: Time)
    requires RunningOk(x, c)
    ensures RunningOk(Tick(x, c, now), c)
  {
    hide HistoryOk, At, Guard, Effect, AfterStage;
    if !x.refused && x.stage != Finished && Guard(x.store, c, x.stage) {
      KeepsHistory(x.store, c, now, x.stage);
      MovesOn(x.store, c, now, x.stage);
    }
  }

  lemma {:induction false} TicksKeep(x: Progress, c: Command, now: Time, n: nat)
    requires RunningOk(x, c)
    ensures RunningOk(Ticks(x, c, now, n), c)
    decreases n
  {
    hide RunningOk, Tick;
    if n > 0 {
      TickKeeps(x, c, now);
      TicksKeep(Tick(x, c, now), c, now, n - 1);
    }
  }

  // ----- What no command takes back -----

  /** Records, ownership and version aliases are written once. */
  ghost predicate WrittenOnce(t: Store, t': Store) {
    && (forall v: Version :: Grows(Rel(t, v), Rel(t', v)))
    && (t.initial.Some? ==> t'.initial == t.initial)
    && (t.initialComplete.Some? ==> t'.initialComplete == t.initialComplete)
    && (forall k :: k in t.aliases ==> k in t'.aliases && t'.aliases[k] == t.aliases[k])
  }

  lemma WrittenOnceOn(x: Store, y: Store, z: Store)
    requires WrittenOnce(x, y) && WrittenOnce(y, z)
    ensures WrittenOnce(x, z)
  {
    forall v: Version ensures Grows(Rel(x, v), Rel(z, v)) {
      assert Grows(Rel(x, v), Rel(y, v)) && Grows(Rel(y, v), Rel(z, v));
    }
  }

  lemma AliasesStay(t: Store, c: Command, now: Time, stage: Stage)
    ensures forall k :: k in t.aliases ==>
      k in Effect(t, c, now, stage).aliases && Effect(t, c, now, stage).aliases[k] == t.aliases[k]
  {
    match stage {
      case TagAlias(n) =>
      case _ =>
    }
  }

  lemma StageWritesOnce(t: Store, c: Command, now: Time, stage: Stage)
    ensures WrittenOnce(t, Effect(t, c, now, stage))
  {
    ReleaseWritten(t, c, now, stage);
    MarkersWritten(t, c, now, stage);
    AliasesStay(t, c, now, stage);
    hide Effect;
    forall v: Version ensures Grows(Rel(t, v), Rel(Effect(t, c, now, stage), v)) {
      if v != c.version { assert Rel(Effect(t, c, now, stage), v) == Rel(t, v); }
    }
  }

  lemma {:induction false} TicksWriteOnce(x: Progress, c: Command, now: Time, n: nat)
    ensures WrittenOnce(x.store, Ticks(x, c, now, n).store)
    decreases n
  {
    hide WrittenOnce, Guard, Effect, AfterStage;
    if n == 0 {
      assert WrittenOnce(x.store, x.store) by { SameWrittenOnce(x.store); }
    } else {
      TicksWriteOnce(Tick(x, c, now), c, now, n - 1);
      StageWritesOnce(x.store, c, now, x.stage);
      SameWrittenOnce(x.store);
      WrittenOnceOn(x.store, Tick(x, c, now).store, Ticks(x, c, now, n).store);
    }
  }

  lemma SameWrittenOnce(t: Store)
    ensures WrittenOnce(t, t)
  {
  }

  // ----- Any number of commands, in any order, each interrupted anywhere -----

  /** A command started at a time and stopped after some stages: finished, refused, failed or crashed. */
  datatype Execution = Execution(command: Command, at: Time, stages: nat)

  function Server(t: Store, log: seq<Execution>): Store
    decreases |log|
  {
    if log == [] then t
    else Server(Ticks(Start(t), log[0].command, log[0].at, log[0].stages).store, log[1..])
  }

  const EMPTY_STORE :=
    Store(map[], None, None, None, None, None, None, None, false, map[], map[], {}, {})

  lemma {:induction false} ServerKeeps(t: Store, log: seq<Execution>)
    requires HistoryOk(t)
    ensures HistoryOk(Server(t, log)) && WrittenOnce(t, Server(t, log))
    decreases |log|
  {
    hide HistoryOk, WrittenOnce, At;
    SameWrittenOnce(t);
    if log != [] {
      var e := log[0];
      StartsAt(t, e.command);
      TicksKeep(Start(t), e.command, e.at, e.stages);
      TicksWriteOnce(Start(t), e.command, e.at, e.stages);
      var t1 := Ticks(Start(t), e.command, e.at, e.stages).store;
      ServerKeeps(t1, log[1..]);
      WrittenOnceOn(t, t1, Server(t, log));
    }
  }

  /**
   * Over all runs of deploy, deploy-initial, rollback and crash: every release's records form the chain finalized,
   * success, deployment, candidate with one identity, the first three equal; `current`, `previous` and `latest` point
   * only at successful releases; the initial markers agree; and before they exist only the initial release succeeds.
   */
  lemma HistoryHolds(log: seq<Execution>, v: Version)
    ensures var t := Server(EMPTY_STORE, log);
            && ReleaseOk(Rel(t, v), v, t.loaded)
            && (t.current == Some(v) || t.previous == Some(v) ==> Succeeded(t, v))
            && (t.initialComplete.Some? ==> t.initialComplete == t.initial)
            && (Succeeded(t, v) && t.initialComplete.None? ==> t.initial.Some? && t.initial.value.version == v)
            && (t.latest.Some? ==> Rel(t, t.latest.value.candidate.id.version).success == t.latest)
  {
    assert HistoryOk(EMPTY_STORE);
    ServerKeeps(EMPTY_STORE, log);
    var t := Server(EMPTY_STORE, log);
    RelOk(t, v);
    hide Server, WrittenOnce, ReleasesOk, AliasesOk;
  }

  /** Whatever follows, a record once written keeps its value. */
  lemma RecordsAreWrittenOnce(log: seq<Execution>, more: seq<Execution>, v: Version)
    ensures var t, t' := Server(EMPTY_STORE, log), Server(Server(EMPTY_STORE, log), more);
            && Grows(Rel(t, v), Rel(t', v))
            && (t.initial.Some? ==> t'.initial == t.initial)
            && (t.initialComplete.Some? ==> t'.initialComplete == t.initialComplete)
  {
    assert HistoryOk(EMPTY_STORE);
    ServerKeeps(EMPTY_STORE, log);
    ServerKeeps(Server(EMPTY_STORE, log), more);
    hide Server, HistoryOk;
  }

  /** A plain deploy changes nothing at all before the initial deployment is complete. */
  lemma {:induction false} PlainDeployWaits(t: Store, c: Command, now: Time, n: nat)
    requires c.action == Deploy && t.initialComplete.None?
    ensures Ticks(Start(t), c, now, n).store == t
  {
    if n > 0 {
      assert Tick(Start(t), c, now) == Start(t).(refused := true);
      RefusedStays(Start(t).(refused := true), c, now, n - 1);
    }
  }

  lemma {:induction false} RefusedStays(x: Progress, c: Command, now: Time, n: nat)
    requires x.refused || x.stage == Finished
    ensures Ticks(x, c, now, n) == x
    decreases n
  {
    if n > 0 { RefusedStays(x, c, now, n - 1); }
  }
}
