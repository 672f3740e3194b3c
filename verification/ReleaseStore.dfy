/**
 * deploy/receive-release.py: the durable files, links and image tags of a server, and the stages of a command. Each
 * stage checks a guard and makes at most one durable change, so a crash or an external failure between two changes is
 * a command that stops before some stage.
 */
module ReleaseStore {
  import opened Basics

  type Version = nat
  type Revision = nat
  type ArchiveHash = nat
  type ImageId = nat
  type Migration = nat
  type Time = int

  datatype ImageName = Web | Api | Migrator

  datatype Images = Images(web: ImageId, api: ImageId, migrate: ImageId)

  function ImageOf(images: Images, name: ImageName): ImageId {
    match name case Web => images.web case Api => images.api case Migrator => images.migrate
  }

  /** `candidate_identity` */
  datatype Identity = Identity(version: Version, revision: Revision, images: Images)

  datatype Candidate = Candidate(archive: ArchiveHash, id: Identity)

  /** The hash of the applied migrations is injective: the fingerprint is the set of migrations. */
  datatype Manifest = Manifest(candidate: Candidate, deployedAt: Time, fingerprint: set<Migration>)

  datatype Release = Release(
    candidate: Option<Candidate>,
    initialOwner: Option<Identity>,
    deployment: Option<Manifest>,
    success: Option<Manifest>,
    finalized: Option<Manifest>)

  const NO_RELEASE := Release(None, None, None, None, None)

  datatype Store = Store(
    releases: map<Version, Release>,
    pending: Option<Identity>,
    initial: Option<Identity>,
    initialComplete: Option<Identity>,
    current: Option<Version>,
    previous: Option<Version>,
    currentNext: Option<Version>,
    latest: Option<Manifest>,
    baseEnv: bool,
    aliases: map<(ImageName, Version), ImageId>,
    latestTags: map<ImageName, ImageId>,
    loaded: set<Images>,
    migrations: set<Migration>)

  function Rel(t: Store, v: Version): Release {
    if v in t.releases then t.releases[v] else NO_RELEASE
  }

  function SetRel(t: Store, v: Version, release: Release): Store {
    t.(releases := t.releases[v := release])
  }

  datatype Action = Deploy | DeployInitial | Rollback

  /** A validated command, with what the archive on its input contains and what its migrate image would apply. */
  datatype Command = Command(
    action: Action, version: Version, revision: Revision, archive: ArchiveHash, images: Images,
    migrations: seq<Migration>)

  datatype Stage =
    | Opening | LoadImages | WriteCandidate | MarkPending | OwnInitial | WriteOwner | MakeEnv | CheckDeployment
    | Migrate(done: nat) | WriteDeployment | CheckSuccess | TagAlias(name: ImageName) | WriteSuccess
    | TagLatest(name: ImageName) | WriteLatest | DropPrevious | LinkPrevious | DropNext | LinkNext | Rename
    | WriteFinalized | CompleteInitial | ClearPending | Finished

  function Rank(stage: Stage): nat {
    match stage
    case Opening => 0
    case LoadImages => 1
    case WriteCandidate => 2
    case MarkPending => 3
    case OwnInitial => 4
    case WriteOwner => 5
    case MakeEnv => 6
    case CheckDeployment => 7
    case Migrate(_) => 8
    case WriteDeployment => 9
    case CheckSuccess => 10
    case TagAlias(Web) => 11
    case TagAlias(Api) => 12
    case TagAlias(Migrator) => 13
    case WriteSuccess => 14
    case TagLatest(Web) => 15
    case TagLatest(Api) => 16
    case TagLatest(Migrator) => 17
    case WriteLatest => 18
    case DropPrevious => 19
    case LinkPrevious => 20
    case DropNext => 21
    case LinkNext => 22
    case Rename => 23
    case WriteFinalized => 24
    case CompleteInitial => 25
    case ClearPending => 26
    case Finished => 27
  }

  function MigrateFrom(c: Command, done: nat): Stage {
    if done < |c.migrations| then Migrate(done) else WriteDeployment
  }

  function AfterStage(c: Command, stage: Stage): Stage {
    match stage
    case Opening => if c.action == Rollback then TagLatest(Web) else LoadImages
    case LoadImages => WriteCandidate
    case WriteCandidate => MarkPending
    case MarkPending => OwnInitial
    case OwnInitial => WriteOwner
    case WriteOwner => MakeEnv
    case MakeEnv => CheckDeployment
    case CheckDeployment => MigrateFrom(c, 0)
    case Migrate(done) => MigrateFrom(c, done + 1)
    case WriteDeployment => CheckSuccess
    case CheckSuccess => TagAlias(Web)
    case TagAlias(Web) => TagAlias(Api)
    case TagAlias(Api) => TagAlias(Migrator)
    case TagAlias(Migrator) => WriteSuccess
    case WriteSuccess => TagLatest(Web)
    case TagLatest(Web) => TagLatest(Api)
    case TagLatest(Api) => TagLatest(Migrator)
    case TagLatest(Migrator) => WriteLatest
    case WriteLatest => DropPrevious
    case DropPrevious => LinkPrevious
    case LinkPrevious => DropNext
    case DropNext => LinkNext
    case LinkNext => Rename
    case Rename => if c.action == Rollback then ClearPending else WriteFinalized
    case WriteFinalized => CompleteInitial
    case CompleteInitial => ClearPending
    case ClearPending => Finished
    case Finished => Finished
  }

  // ----- Guards -----

  predicate Names(id: Identity, c: Command) {
    id.version == c.version && id.revision == c.revision
  }

  function NewCandidate(c: Command): Candidate {
    Candidate(c.archive, Identity(c.version, c.revision, c.images))
  }

  /** The candidate a deploy works on: the recorded one, or the one this command is about to record. */
  function Cand(t: Store, c: Command): Candidate {
    if Rel(t, c.version).candidate.Some? then Rel(t, c.version).candidate.value else NewCandidate(c)
  }

  function Owner(t: Store, c: Command): Identity { Cand(t, c).id }

  predicate OpeningGuard(t: Store, c: Command) {
    var r := Rel(t, c.version);
    match c.action
    case Rollback =>
      && r.success.Some? && Names(r.success.value.candidate.id, c)
      && t.current.Some?
      && r.success.value.candidate.id.images in t.loaded
      && (forall n: ImageName ::
            (n, c.version) in t.aliases
            && t.aliases[(n, c.version)] == ImageOf(r.success.value.candidate.id.images, n))
      && t.migrations == r.success.value.fingerprint
    case _ =>
      && (r.finalized.Some? && t.current != Some(c.version) ==> !Names(r.finalized.value.candidate.id, c))
      && (if c.action == DeployInitial
          then t.initialComplete.None? && (t.initial.Some? ==> Names(t.initial.value, c))
          else t.initialComplete.Some?)
  }

  predicate AliasesAbsent(t: Store, v: Version) {
    forall n: ImageName :: (n, v) !in t.aliases
  }

  predicate InitialGuard(t: Store, c: Command) {
    if c.action == DeployInitial
    then
      if t.initial.Some?
      then t.initial.value == Owner(t, c) && t.initialComplete != Some(Owner(t, c))
      else !t.baseEnv
    else t.initial.Some? && t.initialComplete == t.initial && t.baseEnv
  }

  predicate DeploymentGuard(t: Store, c: Command) {
    var d := Rel(t, c.version).deployment;
    d.Some? ==> d.value.candidate.id == Owner(t, c) && d.value.fingerprint == t.migrations
  }

  predicate Guard(t: Store, c: Command, stage: Stage) {
    var r := Rel(t, c.version);
    match stage
    case Opening => OpeningGuard(t, c)
    case LoadImages =>
      if r.candidate.Some?
      then Names(r.candidate.value.id, c) && r.candidate.value.id.images in t.loaded
      else AliasesAbsent(t, c.version)
    case MarkPending =>
      r.success.Some? && t.current != Some(c.version) ==> t.pending == Some(Owner(t, c))
    case OwnInitial => InitialGuard(t, c)
    case WriteOwner => c.action == DeployInitial && r.initialOwner.Some? ==> r.initialOwner.value == Owner(t, c)
    case CheckDeployment => DeploymentGuard(t, c)
    case WriteDeployment => r.deployment.None? ==> t.migrations != {}
    case CheckSuccess => r.success.Some? ==> r.success == r.deployment
    case TagAlias(n) =>
      (n, c.version) in t.aliases && r.deployment.Some? ==>
        t.aliases[(n, c.version)] == ImageOf(r.deployment.value.candidate.id.images, n)
    case WriteSuccess => r.success.Some? ==> r.success == r.deployment
    case WriteFinalized => r.finalized.Some? ==> r.finalized == r.deployment
    case CompleteInitial =>
      c.action == DeployInitial && t.initialComplete.Some? ==> t.initialComplete.value == Owner(t, c)
    case _ => true
  }

  // ----- Effects -----

  /** The manifest a command publishes: a deploy's deployment record, a rollback's success record. */
  function Published(t: Store, c: Command): Option<Manifest> {
    if c.action == Rollback then Rel(t, c.version).success else Rel(t, c.version).deployment
  }

  function Effect(t: Store, c: Command, now: Time, stage: Stage): Store {
    var v := c.version;
    var r := Rel(t, v);
    match stage
    case LoadImages => if r.candidate.None? then t.(loaded := t.loaded + {c.images}) else t
    case WriteCandidate => if r.candidate.None? then SetRel(t, v, r.(candidate := Some(NewCandidate(c)))) else t
    case MarkPending => t.(pending := Some(Owner(t, c)))
    case OwnInitial =>
      if c.action == DeployInitial && t.initial.None? then t.(initial := Some(Owner(t, c))) else t
    case WriteOwner =>
      if c.action == DeployInitial && r.initialOwner.None?
      then SetRel(t, v, r.(initialOwner := Some(Owner(t, c)))) else t
    case MakeEnv => if c.action == DeployInitial then t.(baseEnv := true) else t
    case Migrate(done) =>
      if r.deployment.None? && done < |c.migrations|
      then t.(migrations := t.migrations + {c.migrations[done]}) else t
    case WriteDeployment =>
      if r.deployment.None?
      then SetRel(t, v, r.(deployment := Some(Manifest(Cand(t, c), now, t.migrations)))) else t
    case TagAlias(n) =>
      if (n, v) !in t.aliases && r.deployment.Some?
      then t.(aliases := t.aliases[(n, v) := ImageOf(r.deployment.value.candidate.id.images, n)]) else t
    case WriteSuccess => if r.success.None? then SetRel(t, v, r.(success := r.deployment)) else t
    case TagLatest(n) =>
      if Published(t, c).Some?
      then t.(latestTags := t.latestTags[n := ImageOf(Published(t, c).value.candidate.id.images, n)]) else t
    case WriteLatest => t.(latest := Published(t, c))
    case DropPrevious => if t.current.Some? && t.current != Some(v) then t.(previous := None) else t
    case LinkPrevious => if t.current.Some? && t.current != Some(v) then t.(previous := t.current) else t
    case DropNext => t.(currentNext := None)
    case LinkNext => t.(currentNext := Some(v))
    case Rename => t.(current := t.currentNext, currentNext := None)
    case WriteFinalized => if r.finalized.None? then SetRel(t, v, r.(finalized := r.deployment)) else t
    case CompleteInitial =>
      if c.action == DeployInitial && t.initialComplete.None? then t.(initialComplete := Some(Owner(t, c))) else t
    case ClearPending =>
      if c.action == Rollback || t.pending == Some(Owner(t, c)) then t.(pending := None) else t
    case _ => t
  }

  // ----- Running a command -----

  /** A command in progress: a refused or finished one makes no further change. */
  datatype Progress = Progress(store: Store, stage: Stage, refused: bool)

  function Start(t: Store): Progress { Progress(t, Opening, false) }

  function Tick(x: Progress, c: Command, now: Time): Progress {
    if x.refused || x.stage == Finished then x
    else if !Guard(x.store, c, x.stage) then x.(refused := true)
    else Progress(Effect(x.store, c, now, x.stage), AfterStage(c, x.stage), false)
  }

  function Ticks(x: Progress, c: Command, now: Time, n: nat): Progress
    decreases n
  {
    if n == 0 then x else Ticks(Tick(x, c, now), c, now, n - 1)
  }

  /** How many stages are left. */
  function Left(c: Command, stage: Stage): nat {
    match stage
    case Migrate(done) => (27 - 8) + (if done < |c.migrations| then |c.migrations| - done else 0)
    case _ => 27 - Rank(stage) + if Rank(stage) < 8 then |c.migrations| else 0
  }

  /** A command nobody interrupts. */
  function Complete(t: Store, c: Command, now: Time): Progress {
    Ticks(Start(t), c, now, Left(c, Opening))
  }
}
