/** The leased publish job: claim, lease upkeep, promotion of the publish target, the publish
    transaction and dead-job compensation.  A claim is what one worker remembers; its token is
    the fence that every transaction of the worker repeats. */
module Publish {
  import opened Collections
  import opened Rows

  datatype Renewal = Renewed | AlreadyDone | Gone

  datatype CommitResult = Published | LeaseLost | ImageGone | UserGone | OverQuota

  const CLEANUP_DELAY: nat := 300

  // ----- Claims and leases -----

  /** The jobs agree but for their leases, attempts and times. */
  ghost predicate SameJobs(a: map<nat, Job>, b: map<nat, Job>)
  {
    SameKeys(a, b) &&
    forall i :: i in a ==>
      a[i].session == b[i].session && a[i].image == b[i].image && a[i].maxAttempts == b[i].maxAttempts &&
      (LiveJob(a, i) <==> LiveJob(b, i)) && (!LiveJob(a, i) ==> a[i].status == b[i].status)
  }

  lemma OnlyLease(jobs: map<nat, Job>, i: nat, job: Job)
    requires i in jobs && LiveJob(jobs, i) && LiveJob(jobs[i := job], i)
    requires job.session == jobs[i].session && job.image == jobs[i].image && job.maxAttempts == jobs[i].maxAttempts
    ensures SameJobs(jobs, jobs[i := job])
  {
  }

  predicate LeaseExpired(job: Job, seen: Time)
  {
    job.status == Running && (job.leaseUntil == None || job.leaseUntil.value < seen)
  }

  function Requeued(job: Job, at: Time): Job
  {
    job.(status := Retry, availableAt := at, token := None, leaseUntil := None)
  }

  function ReclaimExpired(jobs: map<nat, Job>, seen: Time): map<nat, Job>
  {
    map i | i in jobs ::
      if LeaseExpired(jobs[i], seen) && jobs[i].attempts < jobs[i].maxAttempts then Requeued(jobs[i], seen) else jobs[i]
  }

  predicate Waiting(job: Job, seen: Time)
  {
    (job.status == Queued || job.status == Retry) && job.availableAt <= seen
  }

  predicate Claimable(jobs: map<nat, Job>, i: nat, seen: Time)
  {
    i in jobs && Waiting(jobs[i], seen) && jobs[i].attempts < jobs[i].maxAttempts
  }

  predicate Exhausted(jobs: map<nat, Job>, i: nat, seen: Time)
  {
    i in jobs && jobs[i].attempts >= jobs[i].maxAttempts && (LeaseExpired(jobs[i], seen) || Waiting(jobs[i], seen))
  }

  function Leased(job: Job, attempts: nat, token: nat, until: Time): Job
  {
    job.(status := Running, attempts := attempts, token := Some(token), leaseUntil := Some(until))
  }

  /** Claim job i; rows locked by others are skipped, so any eligible row may be the one.
      With nothing to claim the whole transaction rolls back. */
  function ClaimJob(db: Db, cfg: Config, i: nat, seen: Time): (r: (Db, Option<nat>))
    ensures r.0 == db.(jobs := r.0.jobs, claims := r.0.claims, nextToken := r.0.nextToken) &&
            SameJobs(db.jobs, r.0.jobs)
  {
    var jobs := ReclaimExpired(db.jobs, seen);
    if !Claimable(jobs, i, seen) then (db, None)
    else
      var t := db.nextToken;
      var attempts := jobs[i].attempts + 1;
      (db.(jobs := jobs[i := Leased(jobs[i], attempts, t, seen + cfg.jobLease)],
           claims := db.claims[t := Claim(i, attempts, true, None, None, 0)],
           nextToken := t + 1),
       Some(t))
  }

  /** Fence a job that used up its attempts before its compensation. */
  function ClaimExhausted(db: Db, cfg: Config, i: nat, seen: Time): (r: (Db, Option<nat>))
    ensures r.0 == db.(jobs := r.0.jobs, claims := r.0.claims, nextToken := r.0.nextToken) &&
            SameJobs(db.jobs, r.0.jobs)
  {
    if !Exhausted(db.jobs, i, seen) then (db, None)
    else
      var t := db.nextToken;
      var attempts := db.jobs[i].attempts;
      (db.(jobs := db.jobs[i := Leased(db.jobs[i], attempts, t, seen + cfg.jobLease)],
           claims := db.claims[t := Claim(i, attempts, false, None, None, 0)],
           nextToken := t + 1),
       Some(t))
  }

  /** The row that the claim's worker locked still carries its token. */
  predicate Fenced(jobs: map<nat, Job>, claims: map<nat, Claim>, t: nat)
  {
    t in claims && claims[t].image in jobs &&
    jobs[claims[t].image].status == Running && jobs[claims[t].image].token == Some(t)
  }

  function Extend(db: Db, cfg: Config, t: nat): (r: Db)
    ensures r == db.(jobs := r.jobs) && SameJobs(db.jobs, r.jobs)
  {
    if !Fenced(db.jobs, db.claims, t) then db
    else
      var i := db.claims[t].image;
      db.(jobs := db.jobs[i := db.jobs[i].(leaseUntil := Some(db.clock + cfg.jobLease))])
  }

  function Refund(attempts: nat): nat
  {
    if attempts == 0 then 0 else attempts - 1
  }

  function Released(job: Job, refund: bool, at: Time): Job
  {
    Requeued(job, at).(attempts := if refund then Refund(job.attempts) else job.attempts)
  }

  /** Shutdown refunds the attempt of an executing claim; a panic keeps it. */
  function Release(db: Db, t: nat, panicked: bool): (r: Db)
    ensures r == db.(jobs := r.jobs) && SameJobs(db.jobs, r.jobs)
  {
    if !Fenced(db.jobs, db.claims, t) then db
    else
      var i := db.claims[t].image;
      OnlyLease(db.jobs, i, Released(db.jobs[i], db.claims[t].refundable && !panicked, db.clock));
      db.(jobs := db.jobs[i := Released(db.jobs[i], db.claims[t].refundable && !panicked, db.clock)])
  }

  // ----- Execution -----

  function SourceOf(job: Job): Path
  {
    Staged(job.session, PublishSource)
  }

  /** The watermarked rendering arrives in a file of its own beside the target, which the worker removes when
      it is done with the job, whether it was used or not; a worker that stops leaves it. */
  function Render(db: Db, t: nat, output: Rendering): (r: Db)
    ensures r == db.(renderings := r.renderings)
  {
    if t !in db.claims || db.claims[t].image !in db.jobs || !db.jobs[db.claims[t].image].watermark then db
    else db.(renderings := db.renderings[t := output])
  }

  function RemoveRendering(db: Db, t: nat): (r: Db)
    ensures r == db.(renderings := r.renderings)
  {
    db.(renderings := db.renderings - {t})
  }

  /** Under the storage lock: only the lease holder creates the target, and never twice.  With a watermark
      the rendering moves, without one the part itself. */
  function PromoteTarget(db: Db, t: nat): (r: (Db, bool))
    ensures r.0 == db.(disk := r.0.disk, renderings := r.0.renderings)
  {
    if !Fenced(db.jobs, db.claims, t) then (db, false)
    else
      var i := db.claims[t].image;
      var target := PublishTarget(i);
      var source := SourceOf(db.jobs[i]);
      if target in db.disk then (db, true)
      else if db.jobs[i].watermark then
        if t !in db.renderings then (db, false)
        else (db.(disk := db.disk[target := db.renderings[t]], renderings := db.renderings - {t}), true)
      else if source in db.disk then (db.(disk := (db.disk - {source})[target := db.disk[source]]), true)
      else (db, false)
  }

  /** What the promotion does to the files. */
  lemma PromotedDisk(db: Db, t: nat)
    ensures var disk := PromoteTarget(db, t).0.disk;
            if !Fenced(db.jobs, db.claims, t) || PublishTarget(db.claims[t].image) in db.disk then disk == db.disk
            else
              var target, job := PublishTarget(db.claims[t].image), db.jobs[db.claims[t].image];
              if job.watermark then
                disk == if t in db.renderings then db.disk[target := db.renderings[t]] else db.disk
              else
                disk == if SourceOf(job) in db.disk then (db.disk - {SourceOf(job)})[target := db.disk[SourceOf(job)]]
                        else db.disk
  {
  }

  /** The worker reads the published file; this takes no lock. */
  function Inspect(db: Db, t: nat): (r: Db)
    ensures r == db.(claims := r.claims)
  {
    if t !in db.claims || PublishTarget(db.claims[t].image) !in db.disk then db
    else
      db.(claims := db.claims[t := db.claims[t].(inspected := Some(db.disk[PublishTarget(db.claims[t].image)]))])
  }

  /** The publish source is removed without a fence, once the target was inspected. */
  function RemoveSource(db: Db, t: nat): (r: Db)
    ensures r == db.(disk := r.disk)
  {
    if t !in db.claims || db.claims[t].inspected == None || db.claims[t].image !in db.jobs then db
    else db.(disk := db.disk - {SourceOf(db.jobs[db.claims[t].image])})
  }

  predicate StagingEmpty(disk: Disk, s: nat)
  {
    forall p :: p in disk ==> !(p.Staged? && p.session == s)
  }

  /** Remove the staging directory if it is empty, then read the clock for the transaction. */
  function TrySweepStaging(db: Db, t: nat, clean: bool): (r: Db)
    ensures r == db.(claims := r.claims)
  {
    if t !in db.claims || db.claims[t].inspected == None || db.claims[t].image !in db.jobs ||
       (clean && !StagingEmpty(db.disk, db.jobs[db.claims[t].image].session)) then db
    else db.(claims := db.claims[t := db.claims[t].(stagingClean := Some(clean), seen := db.clock)])
  }

  function PublishedVariants(variants: Variants, i: nat, blob: Blob): Variants
  {
    (variants - {PublishSource})[Publish := Variant(PublishTarget(i), blob.size, true)]
  }

  function PublishedSession(session: Session, clean: bool, at: Time): Session
  {
    var parts := if PublishSource in session.parts
                 then session.parts[PublishSource := session.parts[PublishSource].(status := Cleaned)]
                 else session.parts;
    if clean then session.(status := Completed, completedAt := Some(at), staged := false, parts := parts)
    else session.(status := CleanupPending, completedAt := None, cleanupAfter := Some(at + CLEANUP_DELAY),
                  parts := parts)
  }

  /** The publish transaction. */
  function Commit(db: Db, t: nat): (r: (Db, CommitResult))
    requires t in db.claims && db.claims[t].inspected.Some? && db.claims[t].stagingClean.Some?
    ensures r.0 == db.(images := r.0.images, sessions := r.0.sessions, users := r.0.users, jobs := r.0.jobs)
  {
    var claim := db.claims[t];
    var i := claim.image;
    if !Fenced(db.jobs, db.claims, t) then (db, LeaseLost)
    else if i !in db.images then (db, ImageGone)
    else
      var s := db.jobs[i].session;
      var image := db.images[i];
      var owner := image.owner;
      var variants := PublishedVariants(image.variants, i, claim.inspected.value);
      var actual := ActiveBytes(variants);
      var again := image.status == ImageCompleted;
      if !again && owner !in db.users then (db, UserGone)
      else if !again && db.users[owner].used + ReservedBelow(db.sessions - {s}, db.nextSession, owner, claim.seen)
                        + actual > db.users[owner].quota then (db, OverQuota)
      else (PublishRows(db, i, claim, if again then 0 else 1), Published)
  }

  lemma CommitImages(db: Db, t: nat)
    requires t in db.claims && db.claims[t].inspected.Some? && db.claims[t].stagingClean.Some?
    ensures var db' := Commit(db, t).0;
            var i := db.claims[t].image;
            if Commit(db, t).1 == Published then
              Fenced(db.jobs, db.claims, t) && i in db.images &&
              db'.images == db.images[i := db.images[i].(status := ImageCompleted,
                                                         variants := PublishedVariants(db.images[i].variants, i,
                                                                                       db.claims[t].inspected.value))]
            else db' == db
  {
  }

  // ----- A whole execution -----

  /** The rendering is there before a target that is still missing is promoted. */
  function Prepared(db: Db, t: nat, output: Rendering): (Db, bool)
    requires t in db.claims
  {
    if PublishTarget(db.claims[t].image) in db.disk then (db, true) else PromoteTarget(Render(db, t, output), t)
  }

  /** After the promotion: the target is read, the source goes, and so does the staging directory if nothing
      but its emptiness decides. */
  function Tidied(db: Db, t: nat, clean: bool): Db
    requires t in db.claims && db.claims[t].image in db.jobs
  {
    var read := RemoveSource(Inspect(db, t), t);
    TrySweepStaging(read, t, clean && StagingEmpty(read.disk, db.jobs[db.claims[t].image].session))
  }

  /** executePublishJob when nothing disturbs it: `output` is what rendering yields, and without `clean` the
      staging directory cannot be removed even if it is empty. */
  function Executed(db: Db, t: nat, output: Rendering, clean: bool): (Db, Option<CommitResult>)
    requires t in db.claims && db.claims[t].image in db.jobs
  {
    var (promoted, ok) := Prepared(db, t, output);
    PreparedKeeps(db, t, output);
    if !ok then (Discarded(db, promoted, t), None)
    else
      TidiedReads(promoted, t, clean);
      var (committed, r) := Commit(Tidied(promoted, t, clean), t);
      (Discarded(db, committed, t), Some(r))
  }

  lemma PreparedKeeps(db: Db, t: nat, output: Rendering)
    requires t in db.claims && db.claims[t].image in db.jobs
    ensures var (promoted, ok) := Prepared(db, t, output);
            promoted == db.(disk := promoted.disk, renderings := promoted.renderings) &&
            (ok ==> PublishTarget(db.claims[t].image) in promoted.disk)
  {
    PromotedDisk(Render(db, t, output), t);
  }

  /** What the commit needs is read. */
  lemma TidiedReads(db: Db, t: nat, clean: bool)
    requires t in db.claims && db.claims[t].image in db.jobs && PublishTarget(db.claims[t].image) in db.disk
    ensures var db' := Tidied(db, t, clean);
            db' == db.(disk := db'.disk, claims := db'.claims) && t in db'.claims &&
            db'.claims[t].inspected.Some? && db'.claims[t].stagingClean.Some? && db'.claims[t].seen == db'.clock &&
            db'.claims[t].image == db.claims[t].image
  {
  }

  /** The deferred removal, which only the making of a rendering registers. */
  function Discarded(before: Db, db: Db, t: nat): Db
    requires t in before.claims && before.claims[t].image in before.jobs
  {
    var i := before.claims[t].image;
    if PublishTarget(i) !in before.disk && before.jobs[i].watermark then RemoveRendering(db, t) else db
  }

  /** The rows of a publish; `billed` is 0 for an image that was already completed. */
  function PublishRows(db: Db, i: nat, claim: Claim, billed: nat): Db
    requires i in db.images && i in db.jobs && claim.inspected.Some? && claim.stagingClean.Some?
    requires billed > 0 ==> db.images[i].owner in db.users
  {
    var image := db.images[i];
    var s := db.jobs[i].session;
    var variants := PublishedVariants(image.variants, i, claim.inspected.value);
    db.(images := db.images[i := image.(status := ImageCompleted, variants := variants)],
        sessions := if s in db.sessions
                    then db.sessions[s := PublishedSession(db.sessions[s], claim.stagingClean.value, claim.seen)]
                    else db.sessions,
        users := if billed == 0 then db.users
                 else db.users[image.owner := Billed(db.users[image.owner], ActiveBytes(variants))],
        jobs := db.jobs[i := db.jobs[i].(status := JobCompleted, token := None, leaseUntil := None)])
  }

  function Billed(user: User, bytes: nat): User
  {
    user.(used := user.used + bytes, count := user.count + 1)
  }

  // ----- Failure -----

  function Pow2(n: nat): nat
  {
    if n == 0 then 1 else 2 * Pow2(n - 1)
  }

  function FailedSession(session: Session, at: Time): Session
  {
    session.(status := Failed, failedAt := Some(at), cleanupAfter := Some(at), image := None, errorCode := true)
  }

  /** The paths that the compensation of a dead job hands to the deletion outbox. */
  function DeadPaths(db: Db, i: nat): seq<Path>
  {
    if i !in db.images || db.images[i].status == ImageCompleted then [PublishTarget(i)]
    else
      var h := db.images[i].file;
      var paths := [PublishTarget(i)] + VariantPaths(db.images[i].variants);
      if h in db.files && ReferencesBelow(db.images - {i}, db.nextImage, h) == 0
      then paths + [db.files[h].original, db.files[h].thumbnail] else paths
  }

  function DropImage(db: Db, i: nat): Db
    requires i in db.images
  {
    var h := db.images[i].file;
    db.(jobs := UnlinkJob(db.jobs, i),
        images := db.images - {i},
        files := DropReference(db.files, h, ReferencesBelow(db.images - {i}, db.nextImage, h)),
        sessions := UnlinkSessions(db.sessions, i))
  }

  function BuryRows(db: Db, i: nat): Db
    requires i in db.jobs
  {
    db.(jobs := db.jobs[i := db.jobs[i].(status := Dead, token := None, leaseUntil := None)],
        sessions := var s := db.jobs[i].session;
                    if s in db.sessions then db.sessions[s := FailedSession(db.sessions[s], db.clock)] else db.sessions)
  }

  function Bury(db: Db, i: nat): Db
    requires i in db.jobs
  {
    var dropped := if i in db.images && db.images[i].status == ImageProcessing then DropImage(db, i) else db;
    BuryRows(dropped, i).(events := db.events + [DeleteEvent(DeadPaths(db, i), false)])
  }

  /** failPublishJob: retry with a delay, or bury the job and everything that it was to publish. */
  function Fail(db: Db, t: nat, overQuota: bool): (r: (Db, bool))
    ensures r.0 == db.(jobs := r.0.jobs, images := r.0.images, files := r.0.files, sessions := r.0.sessions,
                       events := r.0.events)
  {
    if !Fenced(db.jobs, db.claims, t) then (db, false)
    else
      var i := db.claims[t].image;
      if db.claims[t].attempts >= db.jobs[i].maxAttempts || overQuota then (Bury(db, i), true)
      else (db.(jobs := db.jobs[i := Requeued(db.jobs[i], db.clock + Pow2(Min(db.claims[t].attempts, 8)))]), true)
  }

  // ----- The worker -----

  class PublishWorker {
    const db: Database
    const cfg: Config

    constructor (db: Database, cfg: Config)
      ensures this.db == db && this.cfg == cfg
    {
      this.db, this.cfg := db, cfg;
    }

    method ClaimNext(i: nat, seen: Time) returns (token: Option<nat>)
      modifies db
      ensures (db.View(), token) == ClaimJob(old(db.View()), cfg, i, seen)
    {
      var jobs := ReclaimExpired(db.jobs, seen);
      if !Claimable(jobs, i, seen) {
        return None;
      }
      db.jobs := jobs;
      var t, attempts := db.nextToken, jobs[i].attempts + 1;
      db.nextToken := t + 1;
      db.jobs := db.jobs[i := db.jobs[i].(status := Running, attempts := attempts, token := Some(t),
                                          leaseUntil := Some(seen + cfg.jobLease))];
      db.claims := db.claims[t := Claim(i, attempts, true, None, None, 0)];
      token := Some(t);
    }

    method ClaimSpent(i: nat, seen: Time) returns (token: Option<nat>)
      modifies db
      ensures (db.View(), token) == ClaimExhausted(old(db.View()), cfg, i, seen)
    {
      if !Exhausted(db.jobs, i, seen) {
        return None;
      }
      var t := db.nextToken;
      db.nextToken := t + 1;
      var job := db.jobs[i];
      db.jobs := db.jobs[i := job.(status := Running, token := Some(t), leaseUntil := Some(seen + cfg.jobLease))];
      db.claims := db.claims[t := Claim(i, job.attempts, false, None, None, 0)];
      token := Some(t);
    }

    /** extendPublishJobLease: a job that is over is no error of the heartbeat, a lost lease is one. */
    method ExtendLease(t: nat) returns (r: Renewal)
      requires t in db.claims && db.claims[t].image in db.jobs
      modifies db`jobs
      ensures r == Renewed <==> old(Fenced(db.jobs, db.claims, t))
      ensures r == AlreadyDone <==> old(db.jobs)[db.claims[t].image].status == JobCompleted
      ensures db.jobs.Keys == old(db.jobs).Keys
      ensures forall i :: i in old(db.jobs) ==>
                db.jobs[i] == if r == Renewed && i == db.claims[t].image
                              then old(db.jobs)[i].(leaseUntil := Some(db.clock + cfg.jobLease)) else old(db.jobs)[i]
    {
      var i := db.claims[t].image;
      if Fenced(db.jobs, db.claims, t) {
        db.jobs := db.jobs[i := db.jobs[i].(leaseUntil := Some(db.clock + cfg.jobLease))];
        return Renewed;
      }
      r := if db.jobs[i].status == JobCompleted then AlreadyDone else Gone;
    }

    method ReleaseLease(t: nat, panicked: bool)
      modifies db`jobs
      ensures db.View() == Release(old(db.View()), t, panicked)
    {
      if !Fenced(db.jobs, db.claims, t) {
        return;
      }
      var i := db.claims[t].image;
      var job := db.jobs[i].(status := Retry, availableAt := db.clock, token := None, leaseUntil := None);
      if db.claims[t].refundable && !panicked {
        job := job.(attempts := if job.attempts > 0 then job.attempts - 1 else 0);
      }
      db.jobs := db.jobs[i := job];
    }

    method Promote(t: nat) returns (ok: bool)
      modifies db`disk, db`renderings
      ensures (db.View(), ok) == PromoteTarget(old(db.View()), t)
    {
      if !Fenced(db.jobs, db.claims, t) {
        return false;
      }
      var i := db.claims[t].image;
      var job, target := db.jobs[i], PublishTarget(i);
      if target in db.disk {
        return true;
      }
      if job.watermark {
        if t !in db.renderings {
          return false;
        }
        db.disk := db.disk[target := db.renderings[t]];
        db.renderings := db.renderings - {t};
        return true;
      }
      var source := Staged(job.session, PublishSource);
      if source !in db.disk {
        return false;
      }
      var content := db.disk[source];
      db.disk := db.disk - {source};
      db.disk := db.disk[target := content];
      ok := true;
    }

    method CommitPublish(t: nat) returns (r: CommitResult)
      requires t in db.claims && db.claims[t].inspected.Some? && db.claims[t].stagingClean.Some?
      modifies db
      ensures (db.View(), r) == Commit(old(db.View()), t)
    {
      if !Fenced(db.jobs, db.claims, t) {
        return LeaseLost;
      }
      var claim := db.claims[t];
      var i := claim.image;
      if i !in db.images {
        return ImageGone;
      }
      var job, image := db.jobs[i], db.images[i];
      var variants := PublishedVariants(image.variants, i, claim.inspected.value);
      if image.status != ImageCompleted {
        if image.owner !in db.users {
          return UserGone;
        }
        var user := db.users[image.owner];
        var otherReserved := ReservedBelow(db.sessions - {job.session}, db.nextSession, image.owner, claim.seen);
        if user.used + otherReserved + ActiveBytes(variants) > user.quota {
          return OverQuota;
        }
        WriteRows(i, claim, 1);
        return Published;
      }
      WriteRows(i, claim, 0);
      r := Published;
    }

    method WriteRows(i: nat, claim: Claim, billed: nat)
      requires i in db.images && i in db.jobs && claim.inspected.Some? && claim.stagingClean.Some?
      requires billed > 0 ==> db.images[i].owner in db.users
      modifies db
      ensures db.View() == PublishRows(old(db.View()), i, claim, billed)
    {
      var image, job := db.images[i], db.jobs[i];
      var variants := PublishedVariants(image.variants, i, claim.inspected.value);
      if billed > 0 {
        Bill(image.owner, ActiveBytes(variants));
      }
      MarkPublished(job.session, claim.stagingClean.value, claim.seen);
      db.images := db.images[i := image.(status := ImageCompleted, variants := variants)];
      db.jobs := db.jobs[i := job.(status := JobCompleted, token := None, leaseUntil := None)];
    }

    method Bill(owner: nat, bytes: nat)
      requires owner in db.users
      modifies db`users
      ensures db.users == old(db.users)[owner := Billed(old(db.users)[owner], bytes)]
      ensures db.View() == old(db.View()).(users := db.users)
    {
      var user := db.users[owner];
      user := user.(used := user.used + bytes);
      db.users := db.users[owner := user.(count := user.count + 1)];
    }

    method MarkPublished(s: nat, clean: bool, at: Time)
      modifies db`sessions
      ensures db.sessions == if s in old(db.sessions)
                             then old(db.sessions)[s := PublishedSession(old(db.sessions)[s], clean, at)]
                             else old(db.sessions)
      ensures db.View() == old(db.View()).(sessions := db.sessions)
    {
      if s !in db.sessions {
        return;
      }
      var session := db.sessions[s];
      if PublishSource in session.parts {
        session := session.(parts := session.parts[PublishSource := session.parts[PublishSource].(status := Cleaned)]);
      }
      if clean {
        session := session.(status := Completed, completedAt := Some(at), staged := false);
      } else {
        session := session.(status := CleanupPending, completedAt := None, cleanupAfter := Some(at + 300));
      }
      db.sessions := db.sessions[s := session];
    }

    method InspectTarget(t: nat)
      modifies db`claims
      ensures db.View() == Inspect(old(db.View()), t)
    {
      if t in db.claims && PublishTarget(db.claims[t].image) in db.disk {
        db.claims := db.claims[t := db.claims[t].(inspected := Some(db.disk[PublishTarget(db.claims[t].image)]))];
      }
    }

    /** executePublishJob */
    method ExecuteJob(t: nat, output: Rendering, clean: bool) returns (r: Option<CommitResult>)
      requires t in db.claims && db.claims[t].image in db.jobs
      modifies db
      ensures (db.View(), r) == Executed(old(db.View()), t, output, clean)
    {
      hide Commit, PromoteTarget, Tidied, Prepared;
      var i := db.claims[t].image;
      var rendering := PublishTarget(i) !in db.disk && db.jobs[i].watermark;
      var ok := Prepare(t, output);
      PreparedKeeps(old(db.View()), t, output);
      if ok {
        Tidy(t, clean);
        var result := CommitPublish(t);
        r := Some(result);
      } else {
        r := None;
      }
      if rendering {
        db.renderings := db.renderings - {t};
      }
    }

    method Prepare(t: nat, output: Rendering) returns (ok: bool)
      requires t in db.claims && db.claims[t].image in db.jobs
      modifies db
      ensures (db.View(), ok) == Prepared(old(db.View()), t, output)
    {
      hide PromoteTarget;
      var i := db.claims[t].image;
      if PublishTarget(i) in db.disk {
        return true;
      }
      if db.jobs[i].watermark {
        db.renderings := db.renderings[t := output];
      }
      ok := Promote(t);
    }

    method Tidy(t: nat, clean: bool)
      requires t in db.claims && db.claims[t].image in db.jobs && PublishTarget(db.claims[t].image) in db.disk
      modifies db`disk, db`claims
      ensures db.View() == Tidied(old(db.View()), t, clean)
      ensures t in db.claims && db.claims[t].inspected.Some? && db.claims[t].stagingClean.Some?
    {
      InspectTarget(t);
      var s := db.jobs[db.claims[t].image].session;
      db.disk := db.disk - {Staged(s, PublishSource)};
      var stagingClean := clean && forall p :: p in db.disk ==> !(p.Staged? && p.session == s);
      db.claims := db.claims[t := db.claims[t].(stagingClean := Some(stagingClean), seen := db.clock)];
    }

    method FailJob(t: nat, overQuota: bool) returns (ok: bool)
      modifies db
      ensures (db.View(), ok) == Fail(old(db.View()), t, overQuota)
    {
      if !Fenced(db.jobs, db.claims, t) {
        return false;
      }
      var claim := db.claims[t];
      var i := claim.image;
      if claim.attempts < db.jobs[i].maxAttempts && !overQuota {
        var availableAt := db.clock + Pow2(Min(claim.attempts, 8));
        db.jobs := db.jobs[i := db.jobs[i].(status := Retry, availableAt := availableAt, token := None,
                                            leaseUntil := None)];
        return true;
      }
      BuryJob(i);
      ok := true;
    }

    method BuryJob(i: nat)
      requires i in db.jobs
      modifies db
      ensures db.View() == Bury(old(db.View()), i)
    {
      var paths := [PublishTarget(i)];
      if i in db.images && db.images[i].status == ImageProcessing {
        var more := DropUnpublished(i);
        paths := paths + more;
      }
      var s := db.jobs[i].session;
      db.jobs := db.jobs[i := db.jobs[i].(status := Dead, token := None, leaseUntil := None)];
      if s in db.sessions {
        db.sessions := db.sessions[s := db.sessions[s].(status := Failed, failedAt := Some(db.clock),
                                                        cleanupAfter := Some(db.clock), image := None,
                                                        errorCode := true)];
      }
      db.events := db.events + [DeleteEvent(paths, false)];
    }

    method DropUnpublished(i: nat) returns (paths: seq<Path>)
      requires i in db.images && db.images[i].status == ImageProcessing
      modifies db
      ensures db.View() == DropImage(old(db.View()), i)
      ensures [PublishTarget(i)] + paths == DeadPaths(old(db.View()), i)
    {
      var image := db.images[i];
      paths := CollectPaths(image.variants);
      db.images := db.images - {i};
      db.sessions := UnlinkSessions(db.sessions, i);
      db.jobs := UnlinkJob(db.jobs, i);
      var more := ReleaseFile(image.file);
      paths := paths + more;
    }

    method ReleaseFile(h: nat) returns (paths: seq<Path>)
      modifies db`files
      ensures var remaining := ReferencesBelow(db.images, db.nextImage, h);
              db.files == DropReference(old(db.files), h, remaining) &&
              paths == if h in old(db.files) && remaining == 0
                       then [old(db.files)[h].original, old(db.files)[h].thumbnail] else []
    {
      paths := [];
      if h in db.files {
        var file, remaining := db.files[h], ReferencesBelow(db.images, db.nextImage, h);
        if remaining == 0 {
          paths := [file.original, file.thumbnail];
          db.files := db.files - {h};
        } else {
          db.files := db.files[h := file.(references := remaining)];
        }
      }
    }

    method CollectPaths(variants: Variants) returns (paths: seq<Path>)
      ensures paths == VariantPaths(variants)
    {
      paths := [];
      var n := 0;
      while n < |ALL_KINDS|
        invariant 0 <= n <= |ALL_KINDS|
        invariant paths == PathsOfFirst(variants, n)
      {
        if ALL_KINDS[n] in variants {
          paths := paths + [variants[ALL_KINDS[n]].path];
        }
        n := n + 1;
      }
    }
  }
}
