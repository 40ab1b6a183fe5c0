/** The hosted package catalog as its PostgreSQL triggers and constraints let it evolve: projects,
    releases and artifacts, one single-row statement per step. Tables whose foreign keys could only
    reject more statements, and CHECKs on the characters of a value, are absent, so every run of
    the real catalog is a run here. */
module Catalog {
  import opened Sql

  type Uuid = int

  datatype Publication = Ready | Published
  datatype Distribution = Available | Yanked | Revoked

  /** `package_projects`; `rest` holds the columns no guard reads. */
  datatype Project = Project(packageId: string, publisher: Option<Uuid>, rest: string)

  /** The columns of `package_releases` that name what is published: everything in `to_jsonb` but
      the id and the five mutable columns. */
  datatype Evidence = Evidence(
    projectId: Uuid, exactVersion: string, archive: string, contentDigest: string, signer: string,
    manifest: string, originalPublisher: Option<Uuid>, rest: string)

  datatype Release = Release(
    evidence: Evidence, publication: Publication, publishedAt: Option<int>,
    distribution: Distribution, revision: int, statusUpdatedAt: int)

  datatype Artifact = Artifact(size: int, createdAt: int, storageVersion: Option<string>)

  datatype Db = Db(projects: map<Uuid, Project>, releases: map<Uuid, Release>, artifacts: map<string, Artifact>)

  // ----- constraints -----

  /** ck_package_releases_publication_timestamp and ck_package_releases_revision_positive */
  predicate RowChecks(r: Release) {
    ((r.publication == Published) == r.publishedAt.Some?) && r.revision > 0
  }

  /** Every CHECK, NOT NULL, FOREIGN KEY and UNIQUE constraint holds. */
  predicate Valid(db: Db) {
    && (forall i | i in db.releases :: RowChecks(db.releases[i]))
    && (forall i | i in db.releases :: db.releases[i].evidence.originalPublisher.Some?)
    && (forall i | i in db.projects :: db.projects[i].publisher.Some?)
    && (forall i | i in db.releases :: db.releases[i].evidence.projectId in db.projects)
    && (forall i | i in db.releases :: db.releases[i].evidence.archive in db.artifacts)
    && (forall i, j | i in db.projects && j in db.projects && i != j ::
          db.projects[i].packageId != db.projects[j].packageId)
    && (forall i, j | i in db.releases && j in db.releases && i != j ::
          db.releases[i].evidence.archive != db.releases[j].evidence.archive
          && (db.releases[i].evidence.projectId != db.releases[j].evidence.projectId
              || db.releases[i].evidence.exactVersion != db.releases[j].evidence.exactVersion))
  }

  // ----- the release guards of the three revisions, on an UPDATE -----

  /** SQL's `<>` on a nullable column. */
  function Differ(a: Option<int>, b: Option<int>): Tri {
    if a.None? || b.None? then Unknown else Of(a.value != b.value)
  }

  predicate StatusMovesBack(o: Release, n: Release) {
    n.revision < o.revision || n.statusUpdatedAt < o.statusUpdatedAt
  }

  predicate Unrevoked(o: Release, n: Release) { o.distribution == Revoked && n.distribution != Revoked }

  predicate Unstamped(o: Release, n: Release) {
    o.distribution != n.distribution && n.revision != o.revision + 1
  }

  /** The row but for distribution_state, status_revision and status_updated_at differs. */
  predicate FrozenDiffers(id: Uuid, o: Release, newId: Uuid, n: Release) {
    newId != id || n.evidence != o.evidence || n.publication != o.publication || n.publishedAt != o.publishedAt
  }

  predicate Raises1(id: Uuid, o: Release, newId: Uuid, n: Release) {
    || StatusMovesBack(o, n)
    || (o.publication == Published && FrozenDiffers(id, o, newId, n))
    || Unrevoked(o, n)
    || (o.distribution != n.distribution && (n.revision != o.revision + 1 || n.statusUpdatedAt < o.statusUpdatedAt))
  }

  /** `maintenance`: the role exists and the current user is a member. */
  predicate Raises2(id: Uuid, o: Release, newId: Uuid, n: Release, maintenance: bool) {
    if o.evidence.originalPublisher.None? && n.evidence.originalPublisher.Some? then
      !maintenance || newId != id
      || n.(evidence := n.evidence.(originalPublisher := None)) != o
    else
      || (o.publication == Published && FrozenDiffers(id, o, newId, n))
      || StatusMovesBack(o, n) || Unrevoked(o, n) || Unstamped(o, n)
  }

  /** `stored`: the archive's artifact row exists with a non-null storage version. */
  predicate Raises3(id: Uuid, o: Release, newId: Uuid, n: Release, stored: bool) {
    || (o.publication == Ready && n.publication == Published && !stored)
    || newId != id || n.evidence != o.evidence
    || Of(o.publication == Published)
         .And(Of(n.publication != Published).Or(Differ(n.publishedAt, o.publishedAt))).Fires()
    || Unrevoked(o, n)
    || StatusMovesBack(o, n) || Unstamped(o, n)
  }

  /** Each replacement is at least as strict on an attributed release, once the timestamp CHECK is
      added; without it the mp0003 guard lets exactly one thing past that the others stop: a
      published release whose published_at becomes NULL. */
  lemma ReplacementNeverWeakens(id: Uuid, o: Release, newId: Uuid, n: Release, stored: bool, maintenance: bool)
    requires RowChecks(o) && o.evidence.originalPublisher.Some?
    requires !Raises3(id, o, newId, n, stored)
    ensures RowChecks(n) ==> !Raises2(id, o, newId, n, maintenance) && !Raises1(id, o, newId, n)
    ensures Raises2(id, o, newId, n, maintenance) == Raises1(id, o, newId, n)
    ensures Raises1(id, o, newId, n) <==> o.publication == Published && n.publishedAt.None?
  {
  }

  /** The strictness is real: the older guards let an unpublished release change its archive, and
      the newest does not. The NULL hole is real too. */
  lemma ReplacementIsStrict(id: Uuid, o: Release, archive: string)
    requires RowChecks(o) && o.evidence.originalPublisher.Some? && archive != o.evidence.archive
    ensures var n := o.(evidence := o.evidence.(archive := archive));
      o.publication == Ready ==> !Raises1(id, o, id, n) && !Raises2(id, o, id, n, false) && Raises3(id, o, id, n, true)
    ensures var n := o.(publishedAt := None);
      o.publication == Published ==> !Raises3(id, o, id, n, false) && !RowChecks(n) && Raises1(id, o, id, n)
  {
  }

  /** The mp0003 guard and the CHECK together, as one transition relation. */
  predicate ReleaseMove(id: Uuid, o: Release, newId: Uuid, n: Release, stored: bool) {
    && newId == id && n.evidence == o.evidence
    && (o.publication == Published ==> n.publication == Published && n.publishedAt == o.publishedAt)
    && (o.publication == Ready && n.publication == Published ==> stored)
    && (o.distribution == Revoked ==> n.distribution == Revoked)
    && n.revision >= o.revision && n.statusUpdatedAt >= o.statusUpdatedAt
    && (n.distribution != o.distribution ==> n.revision == o.revision + 1)
  }

  lemma GuardMeansMove(id: Uuid, o: Release, newId: Uuid, n: Release, stored: bool)
    requires RowChecks(o) && RowChecks(n)
    ensures !Raises3(id, o, newId, n, stored) <==> ReleaseMove(id, o, newId, n, stored)
  {
  }

  // ----- statements -----

  datatype Op =
    | InsertProject(id: Uuid, project: Project)
    | UpdateProject(id: Uuid, newId: Uuid, project: Project)
    | DeleteProject(id: Uuid)
    | InsertRelease(id: Uuid, release: Release)
    | UpdateRelease(id: Uuid, newId: Uuid, release: Release)
    | DeleteRelease(id: Uuid)
    | InsertArtifact(sha: string, artifact: Artifact)
    | UpdateArtifact(sha: string, newSha: string, artifact: Artifact)
    | DeleteArtifact(sha: string)

  predicate Stored(db: Db, archive: string) {
    archive in db.artifacts && db.artifacts[archive].storageVersion.Some?
  }

  predicate HasPublished(db: Db, project: Uuid) {
    exists i | i in db.releases ::
      db.releases[i].evidence.projectId == project && db.releases[i].publication == Published
  }

  /** The trigger raises. A statement that matches no row fires no row trigger. */
  predicate Raises(db: Db, op: Op) {
    match op
    case UpdateProject(id, newId, p) =>
      id in db.projects && HasPublished(db, id) && (newId != id || p.packageId != db.projects[id].packageId)
    case DeleteProject(id) => id in db.projects && HasPublished(db, id)
    case InsertRelease(_, r) => !Stored(db, r.evidence.archive)
    case UpdateRelease(id, newId, r) =>
      id in db.releases && Raises3(id, db.releases[id], newId, r, Stored(db, r.evidence.archive))
    case DeleteRelease(id) => id in db.releases
    case UpdateArtifact(sha, newSha, a) => sha in db.artifacts && (newSha != sha || a != db.artifacts[sha])
    case _ => false
  }

  /** A primary key the statement would duplicate. */
  predicate Collides(db: Db, op: Op) {
    match op
    case InsertProject(id, _) => id in db.projects
    case InsertRelease(id, _) => id in db.releases
    case InsertArtifact(sha, _) => sha in db.artifacts
    case UpdateProject(id, newId, _) => id in db.projects && newId != id && newId in db.projects
    case UpdateRelease(id, newId, _) => id in db.releases && newId != id && newId in db.releases
    case UpdateArtifact(sha, newSha, _) => sha in db.artifacts && newSha != sha && newSha in db.artifacts
    case _ => false
  }

  /** The tables after the statement, before constraints are checked. */
  function After(db: Db, op: Op): Db {
    match op
    case InsertProject(id, p) => db.(projects := db.projects[id := p])
    case UpdateProject(id, newId, p) =>
      if id in db.projects then db.(projects := (db.projects - {id})[newId := p]) else db
    case DeleteProject(id) => db.(projects := db.projects - {id})
    case InsertRelease(id, r) => db.(releases := db.releases[id := r])
    case UpdateRelease(id, newId, r) =>
      if id in db.releases then db.(releases := (db.releases - {id})[newId := r]) else db
    case DeleteRelease(id) => db.(releases := db.releases - {id})
    case InsertArtifact(sha, a) => db.(artifacts := db.artifacts[sha := a])
    case UpdateArtifact(sha, newSha, a) =>
      if sha in db.artifacts then db.(artifacts := (db.artifacts - {sha})[newSha := a]) else db
    case DeleteArtifact(sha) => db.(artifacts := db.artifacts - {sha})
  }

  predicate Accepted(db: Db, op: Op) {
    !Raises(db, op) && !Collides(db, op) && Valid(After(db, op))
  }

  /** A run: each state follows from the one before by one accepted statement. */
  ghost predicate IsRun(states: seq<Db>, ops: seq<Op>) {
    && |states| == |ops| + 1 && Valid(states[0])
    && forall k | 0 <= k < |ops| :: Accepted(states[k], ops[k]) && states[k + 1] == After(states[k], ops[k])
  }

  // ----- what one accepted statement does to a release, a project, an artifact -----

  lemma ReleaseStep(db: Db, op: Op, id: Uuid)
    requires Valid(db) && Accepted(db, op) && id in db.releases
    ensures id in After(db, op).releases
    ensures var archive := db.releases[id].evidence.archive;
      ReleaseMove(id, db.releases[id], id, After(db, op).releases[id], Stored(db, archive))
  {
    if op.UpdateRelease? && op.id == id {
      assert op.release == After(db, op).releases[op.newId];
      GuardMeansMove(id, db.releases[id], op.newId, op.release, Stored(db, op.release.evidence.archive));
    }
  }

  lemma ArtifactStep(db: Db, op: Op, id: Uuid)
    requires Valid(db) && Accepted(db, op) && id in db.releases
    ensures var archive := db.releases[id].evidence.archive;
      archive in After(db, op).artifacts && After(db, op).artifacts[archive] == db.artifacts[archive]
  {
  }

  // ----- published coordinates -----

  /** What a (package_id, exact_version) coordinate stands for. */
  datatype Resolution = Resolution(release: Uuid, evidence: Evidence, publishedAt: Option<int>, artifact: Artifact)

  predicate Resolves(db: Db, packageId: string, version: string, x: Resolution) {
    && x.release in db.releases
    && db.releases[x.release].publication == Published
    && db.releases[x.release].evidence == x.evidence
    && db.releases[x.release].publishedAt == x.publishedAt
    && x.evidence.exactVersion == version
    && x.evidence.projectId in db.projects && db.projects[x.evidence.projectId].packageId == packageId
    && x.evidence.archive in db.artifacts && db.artifacts[x.evidence.archive] == x.artifact
  }

  /** A coordinate stands for at most one thing: the two UNIQUE constraints compose. */
  lemma ResolutionIsUnique(db: Db, packageId: string, version: string, x: Resolution, y: Resolution)
    requires Valid(db) && Resolves(db, packageId, version, x) && Resolves(db, packageId, version, y)
    ensures x == y
  {
  }

  lemma ResolutionStep(db: Db, op: Op, packageId: string, version: string, x: Resolution)
    requires Valid(db) && Accepted(db, op) && Resolves(db, packageId, version, x)
    ensures Resolves(After(db, op), packageId, version, x)
  {
  }

  lemma StatesAreValid(states: seq<Db>, ops: seq<Op>, k: nat)
    requires IsRun(states, ops) && k < |states|
    ensures Valid(states[k])
    ensures k < |ops| ==> Accepted(states[k], ops[k]) && states[k + 1] == After(states[k], ops[k])
  {
    if k > 0 {
      assert states[(k - 1) + 1] == After(states[k - 1], ops[k - 1]);
    }
  }

  /** The k-th step of a run, seen from one release. */
  lemma ReleaseAt(states: seq<Db>, ops: seq<Op>, k: nat, id: Uuid)
    requires IsRun(states, ops) && k < |ops| && id in states[k].releases
    ensures id in states[k + 1].releases
    ensures var o := states[k].releases[id];
      && ReleaseMove(id, o, id, states[k + 1].releases[id], Stored(states[k], o.evidence.archive))
      && Stored(states[k], o.evidence.archive) == Stored(states[k + 1], o.evidence.archive)
  {
    StatesAreValid(states, ops, k);
    ReleaseStep(states[k], ops[k], id);
    ArtifactStep(states[k], ops[k], id);
  }

  lemma ResolutionAt(states: seq<Db>, ops: seq<Op>, k: nat, packageId: string, version: string, x: Resolution)
    requires IsRun(states, ops) && k < |ops| && Resolves(states[k], packageId, version, x)
    ensures Resolves(states[k + 1], packageId, version, x)
  {
    StatesAreValid(states, ops, k);
    ResolutionStep(states[k], ops[k], packageId, version, x);
  }

  lemma {:induction false} ResolvesThrough(states: seq<Db>, i: nat, j: nat, packageId: string, version: string, x: Resolution)
    requires i <= j < |states| && Resolves(states[i], packageId, version, x)
    requires forall k | 0 <= k < |states| - 1 && Resolves(states[k], packageId, version, x) :: Resolves(states[k + 1], packageId, version, x)
    ensures Resolves(states[j], packageId, version, x)
  {
    if i < j {
      ResolvesThrough(states, i, j - 1, packageId, version, x);
      assert Resolves(states[(j - 1) + 1], packageId, version, x);
    }
  }

  /** Once published, a coordinate means the same release, evidence, publication instant and
      artifact row in every later state, whatever is inserted, updated or deleted; so none of the
      rows behind it can disappear. */
  lemma PublishedForever(
    states: seq<Db>, ops: seq<Op>, i: nat, j: nat, packageId: string, version: string, x: Resolution, y: Resolution)
    requires IsRun(states, ops) && i <= j < |states| && Resolves(states[i], packageId, version, x)
    ensures Resolves(states[j], packageId, version, x)
    ensures Resolves(states[j], packageId, version, y) ==> y == x
  {
    forall k | 0 <= k < |states| - 1 && Resolves(states[k], packageId, version, x)
      ensures Resolves(states[k + 1], packageId, version, x)
    {
      ResolutionAt(states, ops, k, packageId, version, x);
    }
    ResolvesThrough(states, i, j, packageId, version, x);
    StatesAreValid(states, ops, j);
    if Resolves(states[j], packageId, version, y) {
      ResolutionIsUnique(states[j], packageId, version, x, y);
    }
  }

  /** A release this step publishes has a stored artifact. */
  lemma NewlyPublishedIsStored(db: Db, op: Op, packageId: string, version: string, x: Resolution)
    requires Valid(db) && Accepted(db, op) && Resolves(After(db, op), packageId, version, x)
    requires !(x.release in db.releases && db.releases[x.release].publication == Published)
    ensures x.artifact.storageVersion.Some?
  {
  }

  /** The release was already published in this state. */
  predicate AlreadyPublished(db: Db, id: Uuid) { id in db.releases && db.releases[id].publication == Published }

  /** Under some package name; a project may be renamed while nothing of it is published. */
  ghost predicate Stands(db: Db, version: string, x: Resolution) { exists name :: Resolves(db, name, version, x) }

  lemma StorageAt(states: seq<Db>, ops: seq<Op>, k: nat, version: string, x: Resolution)
    requires IsRun(states, ops) && k < |ops| && Stands(states[k + 1], version, x)
    ensures x.artifact.storageVersion.Some? || (AlreadyPublished(states[k], x.release) && Stands(states[k], version, x))
  {
    StatesAreValid(states, ops, k);
    var name :| Resolves(states[k + 1], name, version, x);
    if AlreadyPublished(states[k], x.release) {
      PublishedBefore(states[k], ops[k], name, version, x);
    } else {
      NewlyPublishedIsStored(states[k], ops[k], name, version, x);
    }
  }

  lemma {:induction false} StorageThrough(states: seq<Db>, j: nat, version: string, x: Resolution)
    requires j < |states| && Stands(states[j], version, x)
    requires forall k | 0 <= k < |states| - 1 && Stands(states[k + 1], version, x) ::
      x.artifact.storageVersion.Some? || (AlreadyPublished(states[k], x.release) && Stands(states[k], version, x))
    ensures x.artifact.storageVersion.Some? || AlreadyPublished(states[0], x.release)
  {
    if j > 0 && x.artifact.storageVersion.None? {
      assert Stands(states[(j - 1) + 1], version, x);
      StorageThrough(states, j - 1, version, x);
    }
  }

  /** Every publication that happens under this guard names a stored object version: a release
      published at state j either was already published when the run began or has one. */
  lemma PublicationNeedsStorage(
    states: seq<Db>, ops: seq<Op>, j: nat, packageId: string, version: string, x: Resolution)
    requires IsRun(states, ops) && j < |states| && Resolves(states[j], packageId, version, x)
    ensures x.artifact.storageVersion.Some? || AlreadyPublished(states[0], x.release)
  {
    forall k | 0 <= k < |states| - 1 && Stands(states[k + 1], version, x)
      ensures x.artifact.storageVersion.Some? || (AlreadyPublished(states[k], x.release) && Stands(states[k], version, x))
    {
      StorageAt(states, ops, k, version, x);
    }
    StorageThrough(states, j, version, x);
  }

  lemma PublishedBefore(db: Db, op: Op, packageId: string, version: string, x: Resolution)
    requires Valid(db) && Accepted(db, op) && Resolves(After(db, op), packageId, version, x)
    requires x.release in db.releases && db.releases[x.release].publication == Published
    ensures x.evidence.projectId in db.projects
    ensures Resolves(db, db.projects[x.evidence.projectId].packageId, version, x)
  {
  }

  /** A release reserved before storage versions existed can never be published: its evidence, its
      artifact row and the guard together pin it, in every later state. */
  lemma {:induction false} UnstoredReservationIsStuck(states: seq<Db>, ops: seq<Op>, j: nat, id: Uuid)
    requires IsRun(states, ops) && j < |states|
    requires id in states[0].releases && states[0].releases[id].publication == Ready
    requires !Stored(states[0], states[0].releases[id].evidence.archive)
    ensures id in states[j].releases && states[j].releases[id].publication == Ready
    ensures states[j].releases[id].evidence == states[0].releases[id].evidence
    ensures !Stored(states[j], states[0].releases[id].evidence.archive)
    decreases j
  {
    if j > 0 {
      UnstoredReservationIsStuck(states, ops, j - 1, id);
      ReleaseAt(states, ops, j - 1, id);
    }
  }

  // ----- status_revision as a version stamp -----

  /** Successive rows of one release, each obtained from the one before by the guard's leave. */
  predicate IsHistory(h: seq<Release>) {
    forall k | 0 <= k < |h| - 1 :: StatusMove(h[k], h[k + 1])
  }

  predicate StatusMove(o: Release, n: Release) {
    && n.revision >= o.revision && n.statusUpdatedAt >= o.statusUpdatedAt
    && (o.distribution == Revoked ==> n.distribution == Revoked)
    && (n.distribution != o.distribution ==> n.revision == o.revision + 1)
  }

  /** How often the distribution state changed along the way. */
  function Changes(h: seq<Release>): nat {
    if |h| <= 1 then 0
    else Changes(h[..|h| - 1]) + (if h[|h| - 1].distribution == h[|h| - 2].distribution then 0 else 1)
  }

  lemma {:induction false} HistoryIsStamped(h: seq<Release>)
    requires |h| > 0 && IsHistory(h)
    ensures Changes(h) <= h[|h| - 1].revision - h[0].revision
    ensures h[|h| - 1].revision == h[0].revision ==> h[|h| - 1].distribution == h[0].distribution
    ensures h[0].distribution == Revoked ==> h[|h| - 1].distribution == Revoked
  {
    if |h| > 1 {
      var shorter := h[..|h| - 1];
      HistoryIsStamped(shorter);
      assert StatusMove(h[|h| - 2], h[(|h| - 2) + 1]);
    }
  }

  lemma {:induction false} StaysThrough(states: seq<Db>, i: nat, j: nat, id: Uuid)
    requires i <= j < |states| && id in states[i].releases
    requires forall k | 0 <= k < |states| - 1 && id in states[k].releases :: id in states[k + 1].releases
    ensures id in states[j].releases
  {
    if i < j {
      StaysThrough(states, i, j - 1, id);
      assert id in states[(j - 1) + 1].releases;
    }
  }

  lemma ReleaseStays(states: seq<Db>, ops: seq<Op>, i: nat, j: nat, id: Uuid)
    requires IsRun(states, ops) && i <= j < |states| && id in states[i].releases
    ensures id in states[j].releases
  {
    forall k | 0 <= k < |states| - 1 && id in states[k].releases ensures id in states[k + 1].releases {
      ReleaseAt(states, ops, k, id);
    }
    StaysThrough(states, i, j, id);
  }

  /** The rows of one release from state i to state j. */
  ghost function Rows(states: seq<Db>, id: Uuid, i: nat, j: nat): seq<Release>
    requires i <= j < |states| && forall k | i <= k <= j :: id in states[k].releases
  {
    seq(j - i + 1, k requires 0 <= k <= j - i => states[i + k].releases[id])
  }

  lemma RowsAreHistory(states: seq<Db>, ops: seq<Op>, i: nat, j: nat, id: Uuid)
    requires IsRun(states, ops) && i <= j < |states| && id in states[i].releases
    ensures forall k | i <= k <= j :: id in states[k].releases
    ensures IsHistory(Rows(states, id, i, j))
  {
    forall k | i <= k <= j ensures id in states[k].releases {
      ReleaseStays(states, ops, i, k, id);
    }
    forall k | i <= k < j ensures StatusMove(states[k].releases[id], states[k + 1].releases[id]) {
      ReleaseAt(states, ops, k, id);
    }
  }

  /** `status_revision` is a version stamp: between any two states of a run the distribution state
      changed at most as often as the revision grew, so equal revisions mean an equal distribution
      state; and once revoked, a release is revoked for good. It never disappears either. */
  lemma RevisionStampsDistribution(states: seq<Db>, ops: seq<Op>, i: nat, j: nat, id: Uuid)
    requires IsRun(states, ops) && i <= j < |states| && id in states[i].releases
    ensures forall k | i <= k <= j :: id in states[k].releases
    ensures var o, n := states[i].releases[id], states[j].releases[id];
      && Changes(Rows(states, id, i, j)) <= n.revision - o.revision
      && (n.revision == o.revision ==> n.distribution == o.distribution)
      && (o.distribution == Revoked ==> n.distribution == Revoked)
  {
    RowsAreHistory(states, ops, i, j, id);
    HistoryIsStamped(Rows(states, id, i, j));
  }

  // ----- the constraints, row by row -----

  /** No other project has this name. */
  predicate NameFree(db: Db, id: Uuid, packageId: string) {
    forall i | i in db.projects && i != id :: db.projects[i].packageId != packageId
  }

  predicate Unreferred(db: Db, project: Uuid) { forall i | i in db.releases :: db.releases[i].evidence.projectId != project }

  /** Neither the archive nor the project's version is taken. */
  predicate CoordinateFree(db: Db, e: Evidence) {
    forall i | i in db.releases ::
      db.releases[i].evidence.archive != e.archive
      && (db.releases[i].evidence.projectId != e.projectId || db.releases[i].evidence.exactVersion != e.exactVersion)
  }

  /** After the guard has frozen the evidence only the CHECKs of the row itself are left. */
  lemma UpdateReleaseExactly(db: Db, id: Uuid, n: Release)
    requires Valid(db) && id in db.releases && n.evidence == db.releases[id].evidence
    ensures Valid(After(db, UpdateRelease(id, id, n))) <==> RowChecks(n)
  {
    assert After(db, UpdateRelease(id, id, n)).releases[id] == n;
  }

  lemma InsertReleaseExactly(db: Db, id: Uuid, n: Release)
    requires Valid(db) && id !in db.releases && n.evidence.archive in db.artifacts
    ensures Valid(After(db, InsertRelease(id, n))) <==>
      RowChecks(n) && n.evidence.originalPublisher.Some? && n.evidence.projectId in db.projects && CoordinateFree(db, n.evidence)
  {
    var after := After(db, InsertRelease(id, n));
    assert after.releases[id] == n;
    assert forall i | i in db.releases :: i in after.releases && after.releases[i] == db.releases[i] && i != id;
  }

  lemma UpdateProjectExactly(db: Db, id: Uuid, newId: Uuid, p: Project)
    requires Valid(db) && id in db.projects && (newId == id || newId !in db.projects)
    ensures Valid(After(db, UpdateProject(id, newId, p))) <==>
      p.publisher.Some? && NameFree(db, id, p.packageId) && (newId == id || Unreferred(db, id))
  {
    var after := After(db, UpdateProject(id, newId, p));
    assert after.projects[newId] == p && after.releases == db.releases;
    assert forall i | i in db.projects && i != id :: i in after.projects && after.projects[i] == db.projects[i] && i != newId;
  }

  lemma InsertProjectExactly(db: Db, id: Uuid, p: Project)
    requires Valid(db) && id !in db.projects
    ensures Valid(After(db, InsertProject(id, p))) <==> p.publisher.Some? && NameFree(db, id, p.packageId)
  {
    var after := After(db, InsertProject(id, p));
    assert after.projects[id] == p && after.releases == db.releases;
    assert forall i | i in db.projects :: i in after.projects && after.projects[i] == db.projects[i] && i != id;
  }

  // ----- the statements as they execute -----

  datatype Outcome = Done | Raised(message: string) | Violated

  /** The live catalog. Each method is one statement: the trigger body first, then the constraints;
      anything but `Done` leaves the tables as they were. */
  class Store {
    var projects: map<Uuid, Project>
    var releases: map<Uuid, Release>
    var artifacts: map<string, Artifact>

    ghost function Contents(): Db
      reads this
    {
      Db(projects, releases, artifacts)
    }

    constructor ()
      ensures Contents() == Db(map[], map[], map[]) && Valid(Contents())
    {
      projects, releases, artifacts := map[], map[], map[];
    }

    /** `mp_guard_release` on an UPDATE, in the order its body tests. */
    method GuardReleaseUpdate(id: Uuid, o: Release, newId: Uuid, n: Release) returns (outcome: Outcome)
      ensures outcome.Done? || outcome.Raised?
      ensures outcome.Raised? <==> Raises3(id, o, newId, n, Stored(Contents(), n.evidence.archive))
    {
      if o.publication == Ready && n.publication == Published {
        if !(n.evidence.archive in artifacts && artifacts[n.evidence.archive].storageVersion.Some?) {
          return Raised("new publication requires exact storage version");
        }
      }
      if newId != id || n.evidence != o.evidence {
        return Raised("release evidence is immutable");
      }
      if Of(o.publication == Published)
           .And(Of(n.publication != Published).Or(Differ(n.publishedAt, o.publishedAt))).Fires() {
        return Raised("publication is permanent");
      }
      if o.distribution == Revoked && n.distribution != Revoked {
        return Raised("revocation is monotonic");
      }
      if n.revision < o.revision || n.statusUpdatedAt < o.statusUpdatedAt
         || (o.distribution != n.distribution && n.revision != o.revision + 1) {
        return Raised("status evidence must advance");
      }
      outcome := Done;
    }

    method UpdateReleaseRow(id: Uuid, newId: Uuid, n: Release) returns (outcome: Outcome)
      requires Valid(Contents())
      modifies this
      ensures outcome.Done? <==> Accepted(old(Contents()), UpdateRelease(id, newId, n))
      ensures Contents() == if outcome.Done? then After(old(Contents()), UpdateRelease(id, newId, n)) else old(Contents())
      ensures Valid(Contents())
    {
      if id !in releases {
        return Done;
      }
      outcome := GuardReleaseUpdate(id, releases[id], newId, n);
      if outcome.Done? {
        UpdateReleaseExactly(Contents(), id, n);
        if !RowChecks(n) {
          return Violated;
        }
        releases := (releases - {id})[newId := n];
      }
    }

    method InsertReleaseRow(id: Uuid, n: Release) returns (outcome: Outcome)
      requires Valid(Contents())
      modifies this
      ensures outcome.Done? <==> Accepted(old(Contents()), InsertRelease(id, n))
      ensures Contents() == if outcome.Done? then After(old(Contents()), InsertRelease(id, n)) else old(Contents())
      ensures Valid(Contents())
    {
      if !(n.evidence.archive in artifacts && artifacts[n.evidence.archive].storageVersion.Some?) {
        return Raised("new publication requires exact storage version");
      }
      if id in releases {
        return Violated;
      }
      InsertReleaseExactly(Contents(), id, n);
      if !RowChecks(n) || n.evidence.originalPublisher.None? || n.evidence.projectId !in projects
         || !CoordinateFree(Db(projects, releases, artifacts), n.evidence) {
        return Violated;
      }
      releases := releases[id := n];
      outcome := Done;
    }

    method DeleteReleaseRow(id: Uuid) returns (outcome: Outcome)
      requires Valid(Contents())
      ensures outcome.Done? <==> Accepted(Contents(), DeleteRelease(id))
      ensures outcome.Done? ==> After(Contents(), DeleteRelease(id)) == Contents()
    {
      if id in releases {
        return Raised("release reservation is permanent");
      }
      assert releases - {id} == releases;
      outcome := Done;
    }

    /** `mp_guard_project` */
    method UpdateProjectRow(id: Uuid, newId: Uuid, p: Project) returns (outcome: Outcome)
      requires Valid(Contents())
      modifies this
      ensures outcome.Done? <==> Accepted(old(Contents()), UpdateProject(id, newId, p))
      ensures Contents() == if outcome.Done? then After(old(Contents()), UpdateProject(id, newId, p)) else old(Contents())
      ensures Valid(Contents())
    {
      if id !in projects {
        return Done;
      }
      var published := exists i | i in releases ::
        releases[i].evidence.projectId == id && releases[i].publication == Published;
      if published && (newId != id || p.packageId != projects[id].packageId) {
        return Raised("published identity is immutable");
      }
      if newId != id && newId in projects {
        return Violated;
      }
      UpdateProjectExactly(Contents(), id, newId, p);
      var db := Db(projects, releases, artifacts);
      if p.publisher.None? || !NameFree(db, id, p.packageId) || (newId != id && !Unreferred(db, id)) {
        return Violated;
      }
      projects := (projects - {id})[newId := p];
      outcome := Done;
    }

    method DeleteProjectRow(id: Uuid) returns (outcome: Outcome)
      requires Valid(Contents())
      modifies this
      ensures outcome.Done? <==> Accepted(old(Contents()), DeleteProject(id))
      ensures Contents() == if outcome.Done? then After(old(Contents()), DeleteProject(id)) else old(Contents())
      ensures Valid(Contents())
    {
      if id !in projects {
        assert projects - {id} == projects;
        return Done;
      }
      if exists i | i in releases :: releases[i].evidence.projectId == id && releases[i].publication == Published {
        return Raised("published project is retained");
      }
      if !Unreferred(Db(projects, releases, artifacts), id) {
        return Violated;
      }
      projects := projects - {id};
      outcome := Done;
    }

    /** `mp_guard_artifact`: the only UPDATE it lets through changes nothing. */
    method UpdateArtifactRow(sha: string, newSha: string, a: Artifact) returns (outcome: Outcome)
      requires Valid(Contents())
      ensures outcome.Done? <==> Accepted(Contents(), UpdateArtifact(sha, newSha, a))
      ensures outcome.Done? ==> After(Contents(), UpdateArtifact(sha, newSha, a)) == Contents()
    {
      if sha in artifacts && (newSha != sha || a != artifacts[sha]) {
        return Raised("artifact evidence is immutable");
      }
      assert sha in artifacts ==> (artifacts - {sha})[newSha := a] == artifacts;
      outcome := Done;
    }

    method InsertProjectRow(id: Uuid, p: Project) returns (outcome: Outcome)
      requires Valid(Contents())
      modifies this
      ensures outcome.Done? <==> Accepted(old(Contents()), InsertProject(id, p))
      ensures Contents() == if outcome.Done? then After(old(Contents()), InsertProject(id, p)) else old(Contents())
      ensures Valid(Contents())
    {
      if id in projects {
        return Violated;
      }
      InsertProjectExactly(Contents(), id, p);
      if p.publisher.None? || !NameFree(Db(projects, releases, artifacts), id, p.packageId) {
        return Violated;
      }
      projects := projects[id := p];
      outcome := Done;
    }

    method InsertArtifactRow(sha: string, a: Artifact) returns (outcome: Outcome)
      requires Valid(Contents())
      modifies this
      ensures outcome.Done? <==> Accepted(old(Contents()), InsertArtifact(sha, a))
      ensures Contents() == if outcome.Done? then After(old(Contents()), InsertArtifact(sha, a)) else old(Contents())
      ensures Valid(Contents())
    {
      if sha in artifacts {
        return Violated;
      }
      artifacts := artifacts[sha := a];
      outcome := Done;
    }

    /** Artifacts have no DELETE trigger; the RESTRICT foreign key is what stops this one. */
    method DeleteArtifactRow(sha: string) returns (outcome: Outcome)
      requires Valid(Contents())
      modifies this
      ensures outcome.Done? <==> Accepted(old(Contents()), DeleteArtifact(sha))
      ensures Contents() == if outcome.Done? then After(old(Contents()), DeleteArtifact(sha)) else old(Contents())
      ensures Valid(Contents())
    {
      if exists i | i in releases :: releases[i].evidence.archive == sha {
        return Violated;
      }
      artifacts := artifacts - {sha};
      outcome := Done;
    }
  }
}
