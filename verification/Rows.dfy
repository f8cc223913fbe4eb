/** The rows, files and in-flight work shared by every process of the V2 pipeline.

    Rows are maps keyed by their auto-increment id (or by the column of a unique index),
    the filesystem is a map from path to content, and a content is known by its SHA-256
    and its size.  `Db` is the state as a value; `Database` is the same state as an object
    that the transactions of the other modules update in place. */
module Rows {
  import opened Collections

  type Time = nat

  datatype Kind = Master | Gallery | Admin | PublishSource | Publish

  /** The four part kinds a manifest must name, each once. */
  const UPLOAD_KINDS: set<Kind> := {Master, Gallery, Admin, PublishSource}

  /** The three kinds that Complete promotes, in its order. */
  const PROMOTED: seq<Kind> := [Master, Gallery, Admin]

  const ALL_KINDS: seq<Kind> := [Master, Gallery, Admin, PublishSource, Publish]

  const MINIMUM_PART_BYTES: nat := 64
  const OUTPUT_RESERVE: nat := 33_554_432
  const JOB_MAX_ATTEMPTS: nat := 5

  datatype Blob = Blob(hash: nat, size: nat)

  /** `v2/<kind>/<hash>.webp`, `v2/publish/<image>/v1.webp`, `<staging>/<session>/<kind>.ready` */
  datatype Path =
    | Stored(kind: Kind, hash: nat)
    | PublishTarget(image: nat)
    | Staged(session: nat, part: Kind)

  type Disk = map<Path, Blob>

  /** A rendering stays within the limit of the bounded download. */
  type Rendering = b: Blob | b.size <= OUTPUT_RESERVE witness Blob(0, 0)

  datatype User = User(used: int, count: int, quota: int)

  datatype PartManifest = PartManifest(kind: Kind, blob: Blob)

  datatype PartStatus = Pending | Received | Finalized | Cleaned

  datatype Part = Part(status: PartStatus, blob: Blob)

  type Parts = map<Kind, Part>

  datatype SessionStatus =
    Initiated | Uploading | Processing | Completed | Failed | Cancelled | CleanupPending

  /** `staged` is staging_path <> ''. */
  datatype Session = Session(
    owner: nat,
    manifest: seq<PartManifest>,
    status: SessionStatus,
    expiresAt: Time,
    reserved: nat,
    staged: bool,
    image: Option<nat>,
    completedAt: Option<Time>,
    failedAt: Option<Time>,
    errorCode: bool,
    cleanupAfter: Option<Time>,
    parts: Parts)

  datatype Variant = Variant(path: Path, size: nat, active: bool)

  type Variants = map<Kind, Variant>

  datatype ImageStatus = ImageProcessing | ImageCompleted

  /** An image row with its variant rows, which their unique index keys by kind. */
  datatype Image = Image(owner: nat, file: nat, status: ImageStatus, variants: Variants)

  /** An image_files row; its unique file_hash is the key of the map that holds it. */
  datatype ImageFile = ImageFile(original: Path, thumbnail: Path, references: int)

  datatype JobStatus = Queued | Running | Retry | JobCompleted | Dead

  /** A publish job; the image id in its unique dedupe key is the key of the map that holds it,
      and `session` comes from its payload. */
  datatype Job = Job(
    session: nat,
    image: Option<nat>,
    status: JobStatus,
    attempts: nat,
    maxAttempts: nat,
    availableAt: Time,
    token: Option<nat>,
    leaseUntil: Option<Time>,
    watermark: bool)

  /** An outbox row of type storage.file.delete. */
  datatype DeleteEvent = DeleteEvent(paths: seq<Path>, published: bool)

  /** What a publish worker holds in memory between its transactions. */
  datatype Claim = Claim(
    image: nat,
    attempts: nat,
    refundable: bool,
    inspected: Option<Blob>,
    stagingClean: Option<bool>,
    seen: Time)

  datatype SweepStage = Listed | Claimed | Decided(final: SessionStatus) | Removed(last: SessionStatus)

  /** What the cleanup worker holds in memory about one session. */
  datatype Sweep = Sweep(session: nat, snapshot: Session, stage: SweepStage)

  datatype Config = Config(maxPartBytes: nat, maxActiveSessions: nat, sessionTTL: nat, jobLease: nat)

  /** `renderings` are the temporary files `<publish target>.<token>.part` by the token in their name; no row
      can name one.  `restores` is history: the session of every Complete that failed after it may have
      promoted parts, with the number of parts that it listed for compensation. */
  datatype Db = Db(
    clock: Time,
    users: map<nat, User>,
    keys: map<(nat, string), nat>,
    sessions: map<nat, Session>,
    nextSession: nat,
    images: map<nat, Image>,
    nextImage: nat,
    files: map<nat, ImageFile>,
    jobs: map<nat, Job>,
    events: seq<DeleteEvent>,
    disk: Disk,
    renderings: map<nat, Rendering>,
    claims: map<nat, Claim>,
    nextToken: nat,
    sweeps: map<nat, Sweep>,
    nextSweep: nat,
    cancels: set<nat>,
    restores: set<(nat, nat)>)

  class Database {
    var clock: Time
    var users: map<nat, User>
    var keys: map<(nat, string), nat>
    var sessions: map<nat, Session>
    var nextSession: nat
    var images: map<nat, Image>
    var nextImage: nat
    var files: map<nat, ImageFile>
    var jobs: map<nat, Job>
    var events: seq<DeleteEvent>
    var disk: Disk
    var renderings: map<nat, Rendering>
    var claims: map<nat, Claim>
    var nextToken: nat
    var sweeps: map<nat, Sweep>
    var nextSweep: nat
    var cancels: set<nat>
    var restores: set<(nat, nat)>

    ghost function View(): Db
      reads this
    {
      Db(clock, users, keys, sessions, nextSession, images, nextImage, files, jobs, events,
         disk, renderings, claims, nextToken, sweeps, nextSweep, cancels, restores)
    }
  }

  predicate LiveJob(jobs: map<nat, Job>, i: nat)
  {
    i in jobs && (jobs[i].status == Queued || jobs[i].status == Running || jobs[i].status == Retry)
  }

  /** Some committed image_variants or image_files row names the path. */
  predicate Referenced(images: map<nat, Image>, files: map<nat, ImageFile>, p: Path)
  {
    (exists i :: i in images && NamedBy(images[i].variants, p)) ||
    (exists h :: h in files && (files[h].original == p || files[h].thumbnail == p))
  }

  predicate NamedBy(variants: Variants, p: Path)
  {
    exists k :: k in variants && variants[k].path == p
  }

  /** The active reservation condition of the quota queries. */
  predicate Reserving(session: Session, at: Time)
  {
    ((session.status == Initiated || session.status == Uploading) && session.expiresAt > at) ||
    session.status == Processing
  }

  /** Aggregates over the rows with an id below n. */
  function SumBelow(f: nat -> nat, n: nat): nat
  {
    if n == 0 then 0 else SumBelow(f, n - 1) + f(n - 1)
  }

  function ReservedOf(sessions: map<nat, Session>, s: nat, user: nat, at: Time): nat
  {
    if s in sessions && sessions[s].owner == user && Reserving(sessions[s], at) then sessions[s].reserved else 0
  }

  function ReservedBy(sessions: map<nat, Session>, user: nat, at: Time): nat -> nat
  {
    (s: nat) => ReservedOf(sessions, s, user, at)
  }

  /** SUM(reserved_bytes) over the user's reserving sessions. */
  function ReservedBelow(sessions: map<nat, Session>, n: nat, user: nat, at: Time): nat
  {
    SumBelow(ReservedBy(sessions, user, at), n)
  }

  function ActiveOf(sessions: map<nat, Session>, s: nat, user: nat, at: Time): nat
  {
    if s in sessions && sessions[s].owner == user && Reserving(sessions[s], at) then 1 else 0
  }

  function ActiveBy(sessions: map<nat, Session>, user: nat, at: Time): nat -> nat
  {
    (s: nat) => ActiveOf(sessions, s, user, at)
  }

  /** COUNT(*) over the same rows. */
  function ActiveBelow(sessions: map<nat, Session>, n: nat, user: nat, at: Time): nat
  {
    SumBelow(ActiveBy(sessions, user, at), n)
  }

  function ActiveSize(variants: Variants, k: Kind): nat
  {
    if k in variants && variants[k].active then variants[k].size else 0
  }

  /** SUM(file_size) over the active variants of one image. */
  function ActiveBytes(variants: Variants): nat
  {
    ActiveSize(variants, Master) + ActiveSize(variants, Gallery) + ActiveSize(variants, Admin) +
    ActiveSize(variants, PublishSource) + ActiveSize(variants, Publish)
  }

  function VariantPath(variants: Variants, k: Kind): seq<Path>
  {
    if k in variants then [variants[k].path] else []
  }

  /** The paths of the first n kinds, as the loops over the variant rows collect them. */
  function PathsOfFirst(variants: Variants, n: nat): seq<Path>
    requires n <= |ALL_KINDS|
  {
    if n == 0 then [] else PathsOfFirst(variants, n - 1) + VariantPath(variants, ALL_KINDS[n - 1])
  }

  function VariantPaths(variants: Variants): seq<Path>
  {
    PathsOfFirst(variants, |ALL_KINDS|)
  }

  function BytesOfFirst(variants: Variants, n: nat): nat
    requires n <= |ALL_KINDS|
  {
    if n == 0 then 0 else BytesOfFirst(variants, n - 1) + ActiveSize(variants, ALL_KINDS[n - 1])
  }

  lemma BytesOfAll(variants: Variants)
    ensures BytesOfFirst(variants, |ALL_KINDS|) == ActiveBytes(variants)
  {
    assert BytesOfFirst(variants, 1) == ActiveSize(variants, Master);
    assert BytesOfFirst(variants, 2) == BytesOfFirst(variants, 1) + ActiveSize(variants, Gallery);
    assert BytesOfFirst(variants, 3) == BytesOfFirst(variants, 2) + ActiveSize(variants, Admin);
    assert BytesOfFirst(variants, 4) == BytesOfFirst(variants, 3) + ActiveSize(variants, PublishSource);
  }

  lemma {:induction false} PathsAre(variants: Variants, n: nat)
    requires n <= |ALL_KINDS|
    ensures forall p :: p in PathsOfFirst(variants, n) <==>
              exists j :: 0 <= j < n && ALL_KINDS[j] in variants && variants[ALL_KINDS[j]].path == p
  {
    if n > 0 {
      PathsAre(variants, n - 1);
    }
  }

  function KindIndex(k: Kind): (j: nat)
    ensures j < |ALL_KINDS| && ALL_KINDS[j] == k
  {
    match k
    case Master => 0
    case Gallery => 1
    case Admin => 2
    case PublishSource => 3
    case Publish => 4
  }

  /** The collected paths are exactly the paths the variant rows name. */
  lemma VariantPathsAre(variants: Variants)
    ensures forall p :: p in VariantPaths(variants) <==> NamedBy(variants, p)
  {
    PathsAre(variants, |ALL_KINDS|);
    forall p | NamedBy(variants, p)
      ensures p in VariantPaths(variants)
    {
      var k :| k in variants && variants[k].path == p;
      var j := KindIndex(k);
      assert ALL_KINDS[j] == k;
    }
  }

  function ReferenceOf(images: map<nat, Image>, i: nat, h: nat): nat
  {
    if i in images && images[i].file == h then 1 else 0
  }

  function ReferencesTo(images: map<nat, Image>, h: nat): nat -> nat
  {
    (i: nat) => ReferenceOf(images, i, h)
  }

  /** COUNT(*) over the images that reference a file. */
  function ReferencesBelow(images: map<nat, Image>, n: nat, h: nat): nat
  {
    SumBelow(ReferencesTo(images, h), n)
  }

  /** ON DELETE SET NULL of upload_sessions.image_id */
  function UnlinkSessions(sessions: map<nat, Session>, i: nat): map<nat, Session>
  {
    map s | s in sessions :: if sessions[s].image == Some(i) then sessions[s].(image := None) else sessions[s]
  }

  /** ON DELETE SET NULL of processing_jobs.image_id */
  function UnlinkJob(jobs: map<nat, Job>, i: nat): map<nat, Job>
  {
    if i in jobs then jobs[i := jobs[i].(image := None)] else jobs
  }

  /** The image_files rows once an image that referenced h is gone: dropped with the last
      reference, else recounted. */
  function DropReference(files: map<nat, ImageFile>, h: nat, remaining: nat): map<nat, ImageFile>
  {
    if h !in files then files
    else if remaining == 0 then files - {h}
    else files[h := files[h].(references := remaining)]
  }

  function RemoveStaging(disk: Disk, s: nat): Disk
  {
    map p | p in disk && !(p.Staged? && p.session == s) :: disk[p]
  }

  /** Remove the paths that no row names, as both deletion paths do under the storage lock. */
  function RemoveUnreferenced(images: map<nat, Image>, files: map<nat, ImageFile>, disk: Disk, paths: seq<Path>): Disk
  {
    if paths == [] then disk
    else
      var rest := RemoveUnreferenced(images, files, disk, paths[..|paths| - 1]);
      var p := paths[|paths| - 1];
      if Referenced(images, files, p) then rest else rest - {p}
  }
}
