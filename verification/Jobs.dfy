/** What each transaction of a publish worker does to the rows: when a job can be claimed and by whom it is
    kept, what a failure costs, and what a publish writes.  Nothing here is said through the functions
    that define the transactions. */
module Jobs {
  import opened Collections
  import opened Rows
  import Fencing
  import Links
  import Publish
  import Upload
  import T = Theorems
  import P = Pipeline

  /** The worker's token is the job's current one. */
  predicate Holder(db: Db, t: nat)
  {
    t in db.claims && db.claims[t].image in db.jobs && db.jobs[db.claims[t].image].token == Some(t)
  }

  lemma HolderIsFenced(db: Db, t: nat)
    requires Fencing.Leased(db)
    ensures Holder(db, t) <==> Publish.Fenced(db.jobs, db.claims, t)
  {
    if t in db.claims && db.claims[t].image in db.jobs {
      assert Fencing.LeaseOk(db, db.claims[t].image);
    }
  }

  // ----- Claims -----

  /** Nobody works on the job: it waits and its time has come, or its lease is over. */
  predicate Idle(job: Job, seen: Time)
  {
    match job.status
    case Queued => job.availableAt <= seen
    case Retry => job.availableAt <= seen
    case Running => job.leaseUntil == None || job.leaseUntil.value < seen
    case _ => false
  }

  /** What a claim does to the other jobs: one whose lease is over and that has attempts left is put back. */
  function PutBack(job: Job, seen: Time): Job
  {
    if job.status == Running && Idle(job, seen) && job.attempts < job.maxAttempts
    then job.(status := Retry, availableAt := seen, token := None, leaseUntil := None) else job
  }

  /** A job can be claimed exactly when it is idle and has attempts left; the claim counts one and gives a
      lease under a token never used before. */
  lemma ClaimLaw(quotas: map<nat, nat>, cfg: Config, steps: seq<P.Step>, i: nat, seen: Time)
    requires seen <= T.Reach(quotas, cfg, steps).clock
    ensures var db := T.Reach(quotas, cfg, steps);
            var db' := P.Apply(db, cfg, P.ClaimJob(i, seen));
            var t := db.nextToken;
            if i in db.jobs && Idle(db.jobs[i], seen) && db.jobs[i].attempts < db.jobs[i].maxAttempts then
              t !in db.claims && t in db'.claims &&
              db' == db.(jobs := db'.jobs, claims := db.claims[t := db'.claims[t]], nextToken := t + 1) &&
              db'.claims[t] == Claim(i, db.jobs[i].attempts + 1, true, None, None, 0) &&
              db'.jobs.Keys == db.jobs.Keys &&
              (forall j :: j in db.jobs && j != i ==> db'.jobs[j] == PutBack(db.jobs[j], seen)) &&
              db'.jobs[i] == db.jobs[i].(status := Running, attempts := db.jobs[i].attempts + 1, token := Some(t),
                                         leaseUntil := Some(seen + cfg.jobLease),
                                         availableAt := db'.jobs[i].availableAt)
            else db' == db
  {
    hide T.Reach, P.Apply, Publish.ClaimJob;
    T.Reachable(quotas, cfg, steps);
    var db := T.Reach(quotas, cfg, steps);
    P.LeaseApplied(db, cfg, P.ClaimJob(i, seen));
    assert db.nextToken in db.claims ==> Fencing.ClaimOk(db, db.nextToken);
    ClaimRows(db, cfg, i, seen);
  }

  lemma PutBackIs(jobs: map<nat, Job>, seen: Time)
    ensures Publish.ReclaimExpired(jobs, seen).Keys == jobs.Keys
    ensures forall j :: j in jobs ==> Publish.ReclaimExpired(jobs, seen)[j] == PutBack(jobs[j], seen)
  {
  }

  lemma ClaimRows(db: Db, cfg: Config, i: nat, seen: Time)
    requires db.nextToken !in db.claims
    ensures var db' := Publish.ClaimJob(db, cfg, i, seen).0;
            var t := db.nextToken;
            if i in db.jobs && Idle(db.jobs[i], seen) && db.jobs[i].attempts < db.jobs[i].maxAttempts then
              t in db'.claims &&
              db' == db.(jobs := db'.jobs, claims := db.claims[t := db'.claims[t]], nextToken := t + 1) &&
              db'.claims[t] == Claim(i, db.jobs[i].attempts + 1, true, None, None, 0) &&
              db'.jobs.Keys == db.jobs.Keys &&
              (forall j :: j in db.jobs && j != i ==> db'.jobs[j] == PutBack(db.jobs[j], seen)) &&
              db'.jobs[i] == db.jobs[i].(status := Running, attempts := db.jobs[i].attempts + 1, token := Some(t),
                                         leaseUntil := Some(seen + cfg.jobLease),
                                         availableAt := db'.jobs[i].availableAt)
            else db' == db
  {
    PutBackIs(db.jobs, seen);
    hide Publish.ReclaimExpired;
  }

  /** Without attempts left it can be claimed once more, only to be failed; no attempt is counted. */
  lemma SpentLaw(quotas: map<nat, nat>, cfg: Config, steps: seq<P.Step>, i: nat, seen: Time)
    requires seen <= T.Reach(quotas, cfg, steps).clock
    ensures var db := T.Reach(quotas, cfg, steps);
            var db' := P.Apply(db, cfg, P.ClaimExhausted(i, seen));
            var t := db.nextToken;
            if i in db.jobs && Idle(db.jobs[i], seen) && db.jobs[i].attempts == db.jobs[i].maxAttempts then
              db' == db.(jobs := db.jobs[i := db.jobs[i].(status := Running, token := Some(t),
                                                          leaseUntil := Some(seen + cfg.jobLease))],
                         claims := db.claims[t := Claim(i, db.jobs[i].attempts, false, None, None, 0)],
                         nextToken := t + 1)
            else db' == db
  {
    hide T.Reach, P.Apply, Publish.ClaimExhausted, T.Inv;
    T.Reachable(quotas, cfg, steps);
    var db := T.Reach(quotas, cfg, steps);
    P.LeaseApplied(db, cfg, P.ClaimExhausted(i, seen));
    AttemptsBounded(db, cfg, i);
    SpentRows(db, cfg, i, seen);
  }

  lemma AttemptsBounded(db: Db, cfg: Config, i: nat)
    requires T.Inv(db, cfg)
    ensures i in db.jobs ==> db.jobs[i].attempts <= db.jobs[i].maxAttempts
  {
    assert i in db.jobs ==> Fencing.LeaseOk(db, i);
  }

  lemma SpentRows(db: Db, cfg: Config, i: nat, seen: Time)
    requires i in db.jobs ==> db.jobs[i].attempts <= db.jobs[i].maxAttempts
    ensures var t := db.nextToken;
            Publish.ClaimExhausted(db, cfg, i, seen).0 ==
            if i in db.jobs && Idle(db.jobs[i], seen) && db.jobs[i].attempts == db.jobs[i].maxAttempts then
              db.(jobs := db.jobs[i := db.jobs[i].(status := Running, token := Some(t),
                                                   leaseUntil := Some(seen + cfg.jobLease))],
                  claims := db.claims[t := Claim(i, db.jobs[i].attempts, false, None, None, 0)],
                  nextToken := t + 1)
            else db
  {
  }

  /** The holder alone can extend its lease or give the job back; giving back returns the attempt unless the
      worker panicked or the claim counted none. */
  lemma LeaseLaw(quotas: map<nat, nat>, cfg: Config, steps: seq<P.Step>, t: nat, panicked: bool)
    ensures var db := T.Reach(quotas, cfg, steps);
            var extended := P.Apply(db, cfg, P.Extend(t));
            var released := P.Apply(db, cfg, P.Release(t, panicked));
            if Holder(db, t) then
              var i := db.claims[t].image;
              var back := db.claims[t].refundable && !panicked;
              extended == db.(jobs := db.jobs[i := db.jobs[i].(leaseUntil := Some(db.clock + cfg.jobLease))]) &&
              (back ==> db.jobs[i].attempts > 0) &&
              released == db.(jobs := db.jobs[i := db.jobs[i].(
                                        status := Retry, availableAt := db.clock, token := None, leaseUntil := None,
                                        attempts := if back then db.jobs[i].attempts - 1 else db.jobs[i].attempts)])
            else extended == db && released == db
  {
    hide T.Reach, P.Apply, Publish.Extend, Publish.Release;
    T.Reachable(quotas, cfg, steps);
    var db := T.Reach(quotas, cfg, steps);
    P.LeaseApplied(db, cfg, P.Extend(t));
    P.LeaseApplied(db, cfg, P.Release(t, panicked));
    assert Fencing.Leased(db);
    hide T.Inv, Fencing.Leased;
    LeaseRows(db, cfg, t, panicked);
  }

  lemma LeaseRows(db: Db, cfg: Config, t: nat, panicked: bool)
    requires Fencing.Leased(db)
    ensures var extended, released := Publish.Extend(db, cfg, t), Publish.Release(db, t, panicked);
            if Holder(db, t) then
              var i := db.claims[t].image;
              var back := db.claims[t].refundable && !panicked;
              extended == db.(jobs := db.jobs[i := db.jobs[i].(leaseUntil := Some(db.clock + cfg.jobLease))]) &&
              (back ==> db.jobs[i].attempts > 0) &&
              released == db.(jobs := db.jobs[i := db.jobs[i].(
                                        status := Retry, availableAt := db.clock, token := None, leaseUntil := None,
                                        attempts := if back then db.jobs[i].attempts - 1 else db.jobs[i].attempts)])
            else extended == db && released == db
  {
    HolderIsFenced(db, t);
    if Holder(db, t) {
      assert Fencing.LeaseOk(db, db.claims[t].image);
    }
    hide Publish.SameJobs;
  }

  // ----- Failure -----

  /** Seconds until the next attempt, by the attempts made; from eight on they are the same. */
  const BACKOFF: seq<nat> := [1, 2, 4, 8, 16, 32, 64, 128, 256]

  lemma {:induction false} Backoff(n: nat)
    requires n <= 8
    ensures Publish.Pow2(n) == BACKOFF[n]
  {
    if n > 0 {
      Backoff(n - 1);
    }
  }

  /** The worker gives up: the owner is over quota, or the last attempt was made. */
  predicate GivesUp(db: Db, t: nat, overQuota: bool)
    requires Holder(db, t)
  {
    overQuota || db.jobs[db.claims[t].image].attempts == db.jobs[db.claims[t].image].maxAttempts
  }

  /** A failure that is not the last puts the job back for later with its attempts counted, and touches
      nothing else. */
  lemma RetryLaw(quotas: map<nat, nat>, cfg: Config, steps: seq<P.Step>, t: nat, overQuota: bool)
    requires Holder(T.Reach(quotas, cfg, steps), t) && !GivesUp(T.Reach(quotas, cfg, steps), t, overQuota)
    ensures var db := T.Reach(quotas, cfg, steps);
            var i := db.claims[t].image;
            P.Apply(db, cfg, P.Fail(t, overQuota)) ==
              db.(jobs := db.jobs[i := db.jobs[i].(
                            status := Retry, token := None, leaseUntil := None,
                            availableAt := db.clock + BACKOFF[if db.jobs[i].attempts < 8 then db.jobs[i].attempts
                                                              else 8])])
  {
    hide T.Reach, P.Apply, Publish.Bury;
    T.Reachable(quotas, cfg, steps);
    var db := T.Reach(quotas, cfg, steps);
    P.EndApplied(db, cfg, P.Fail(t, overQuota));
    assert Fencing.LeaseOk(db, db.claims[t].image);
    Backoff(if db.claims[t].attempts < 8 then db.claims[t].attempts else 8);
  }

  /** Another image has the same master content. */
  predicate Shared(db: Db, i: nat)
    requires i in db.images
  {
    exists j :: j in db.images && j != i && db.images[j].file == db.images[i].file
  }

  /** Image i and, with the last image of its file, the file row are gone; nothing else of images and files
      changes but the count of that file. */
  ghost predicate Dropped(db: Db, db': Db, i: nat)
    requires i in db.images
  {
    var h := db.images[i].file;
    && db'.images == db.images - {i}
    && (h in db'.files <==> h in db.files && Shared(db, i))
    && (forall g :: g != h ==> (g in db'.files <==> g in db.files) && (g in db.files ==> db'.files[g] == db.files[g]))
    && (h in db'.files ==> db'.files[h].original == db.files[h].original &&
                           db'.files[h].thumbnail == db.files[h].thumbnail)
  }

  lemma {:induction false} NobodyRefers(images: map<nat, Image>, n: nat, h: nat)
    ensures ReferencesBelow(images, n, h) == 0 <==> forall j :: j in images && j < n ==> images[j].file != h
  {
    if n > 0 {
      NobodyRefers(images, n - 1, h);
    }
  }

  lemma SharedCounts(db: Db, i: nat)
    requires Links.Linked(db) && i in db.images
    ensures ReferencesBelow(db.images - {i}, db.nextImage, db.images[i].file) == 0 <==> !Shared(db, i)
  {
    var h := db.images[i].file;
    NobodyRefers(db.images - {i}, db.nextImage, h);
    forall j | j in db.images
      ensures j < db.nextImage
    {
      assert Links.ImageOk(db, j);
    }
    if j :| j in db.images && j != i && db.images[j].file == h {
      assert j in db.images - {i} && (db.images - {i})[j].file == h;
    }
  }

  /** A failure for good buries the job: the image goes with its rows, the session fails, and one event asks for
      the deletion of the publish target, of all files that the variants name, and of the stored files with the
      last image that has them. */
  lemma BurialLaw(quotas: map<nat, nat>, cfg: Config, steps: seq<P.Step>, t: nat, overQuota: bool)
    requires Holder(T.Reach(quotas, cfg, steps), t) && GivesUp(T.Reach(quotas, cfg, steps), t, overQuota)
    ensures var db := T.Reach(quotas, cfg, steps);
            var db' := P.Apply(db, cfg, P.Fail(t, overQuota));
            var i := db.claims[t].image;
            i in db.images && db.jobs[i].session in db.sessions && Buried(db, db', i)
  {
    hide T.Reach, P.Apply, Publish.Bury, Links.Linked, Buried;
    T.Reachable(quotas, cfg, steps);
    var db := T.Reach(quotas, cfg, steps);
    P.EndApplied(db, cfg, P.Fail(t, overQuota));
    assert Fencing.LeaseOk(db, db.claims[t].image);
    BuriedRows(db, db.claims[t].image);
  }

  ghost predicate Buried(db: Db, db': Db, i: nat)
    requires i in db.images && i in db.jobs && db.jobs[i].session in db.sessions
  {
    var s := db.jobs[i].session;
    && db' == db.(jobs := db'.jobs, images := db'.images, files := db'.files, sessions := db'.sessions,
                  events := db'.events)
    && db'.jobs == db.jobs[i := db.jobs[i].(status := Dead, token := None, leaseUntil := None, image := None)]
    && db'.sessions == db.sessions[s := db.sessions[s].(status := Failed, failedAt := Some(db.clock),
                                                        cleanupAfter := Some(db.clock), image := None,
                                                        errorCode := true)]
    && Dropped(db, db', i) && Asked(db, db', i)
  }

  /** One more event asks for the deletion of everything that nothing names any more. */
  ghost predicate Asked(db: Db, db': Db, i: nat)
    requires i in db.images
  {
    var h := db.images[i].file;
    && |db'.events| == |db.events| + 1 && db'.events[..|db.events|] == db.events
    && !db'.events[|db.events|].published
    && forall p :: p in db'.events[|db.events|].paths <==>
         p == PublishTarget(i) || NamedBy(db.images[i].variants, p) ||
         (!Shared(db, i) && h in db.files && (p == db.files[h].original || p == db.files[h].thumbnail))
  }

  lemma BuriedRows(db: Db, i: nat)
    requires Links.Linked(db) && LiveJob(db.jobs, i)
    ensures i in db.images && db.jobs[i].session in db.sessions && Buried(db, Publish.Bury(db, i), i)
  {
    var s := db.jobs[i].session;
    assert Links.JobOk(db, i) && Links.SessionOk(db, s);
    Links.JobIsolated(db, i);
    SharedCounts(db, i);
    UnlinkedIs(db, i, s);
    hide Links.Linked, Links.Isolated, UnlinkSessions, ReferencesBelow, VariantPaths, NamedBy, Shared, Asked, Dropped;
    BuriedAsks(db, i);
    BuriedDrops(db, i);
  }

  lemma BuriedAsks(db: Db, i: nat)
    requires i in db.images && i in db.jobs && db.images[i].status == ImageProcessing
    requires ReferencesBelow(db.images - {i}, db.nextImage, db.images[i].file) == 0 <==> !Shared(db, i)
    ensures Asked(db, Publish.Bury(db, i), i)
  {
    VariantPathsAre(db.images[i].variants);
    hide ReferencesBelow, VariantPaths, NamedBy, Shared;
  }

  lemma BuriedDrops(db: Db, i: nat)
    requires i in db.images && i in db.jobs && db.images[i].status == ImageProcessing
    requires ReferencesBelow(db.images - {i}, db.nextImage, db.images[i].file) == 0 <==> !Shared(db, i)
    ensures Dropped(db, Publish.Bury(db, i), i)
  {
    hide ReferencesBelow, Shared;
  }

  /** The image's own session is the only one that refers to it. */
  lemma UnlinkedIs(db: Db, i: nat, s: nat)
    requires s in db.sessions && Links.Isolated(db, s, i)
    ensures forall r :: r in db.sessions && r != s ==> UnlinkSessions(db.sessions, i)[r] == db.sessions[r]
    ensures UnlinkSessions(db.sessions, i).Keys == db.sessions.Keys
  {
  }

  // ----- Publishing -----

  /** The row of image i is completed with its published variant, the owner is billed, the session is done or
      waits for its staging to be cleaned, and the job is over. */
  ghost predicate PublishedRows(db: Db, db': Db, t: nat)
    requires Holder(db, t) && db.claims[t].inspected.Some? && db.claims[t].stagingClean.Some?
  {
    var claim := db.claims[t];
    var i, s := claim.image, db.jobs[claim.image].session;
    i in db.images && s in db.sessions && db.images[i].owner in db.users &&
    var image, session, user := db.images[i], db.sessions[s], db.users[db.images[i].owner];
    Master in image.variants && Gallery in image.variants && Admin in image.variants &&
    PublishSource in session.parts &&
    var (m, g, a) := (image.variants[Master], image.variants[Gallery], image.variants[Admin]);
    var size := claim.inspected.value.size;
    var parts := session.parts[PublishSource := Part(Cleaned, session.parts[PublishSource].blob)];
    db' == db.(
      images := db.images[i := Image(image.owner, image.file, ImageCompleted,
                                     map[Master := m, Gallery := g, Admin := a,
                                         Publish := Variant(PublishTarget(i), size, true)])],
      users := db.users[image.owner := User(user.used + m.size + g.size + a.size + size, user.count + 1, user.quota)],
      sessions := db.sessions[s := if claim.stagingClean == Some(true)
                                   then session.(status := Completed, completedAt := Some(claim.seen), staged := false,
                                                 parts := parts)
                                   else session.(status := CleanupPending, completedAt := None,
                                                 cleanupAfter := Some(claim.seen + 300), parts := parts)],
      jobs := db.jobs[i := db.jobs[i].(status := JobCompleted, token := None, leaseUntil := None)])
  }

  /** The publish transaction writes all of that or nothing; nothing exactly if the token is not the current one
      or the quota refuses, which Theorems.PublishIsCovered characterises. */
  lemma CommitLaw(quotas: map<nat, nat>, cfg: Config, steps: seq<P.Step>, t: nat)
    requires P.Possible(T.Reach(quotas, cfg, steps), P.Commit(t))
    ensures var db := T.Reach(quotas, cfg, steps);
            var db' := P.Apply(db, cfg, P.Commit(t));
            if Holder(db, t) && Publish.Commit(db, t).1 != Publish.OverQuota then PublishedRows(db, db', t)
            else db' == db
  {
    hide T.Reach, P.Apply, Publish.Commit, PublishedRows;
    T.Reachable(quotas, cfg, steps);
    T.PublishIsCovered(quotas, cfg, steps, t);
    var db := T.Reach(quotas, cfg, steps);
    P.EndApplied(db, cfg, P.Commit(t));
    HolderIsFenced(db, t);
    if Holder(db, t) {
      CommitRows(db, t);
    } else {
      CommitRefused(db, t);
    }
  }

  lemma CommitRefused(db: Db, t: nat)
    requires P.Possible(db, P.Commit(t)) && Publish.Commit(db, t).1 != Publish.Published
    ensures Publish.Commit(db, t).0 == db
  {
  }

  lemma CommitRows(db: Db, t: nat)
    requires Links.Linked(db) && P.Possible(db, P.Commit(t)) && Publish.Fenced(db.jobs, db.claims, t)
    ensures Publish.Commit(db, t).1 == Publish.OverQuota ==> Publish.Commit(db, t).0 == db
    ensures Publish.Commit(db, t).1 == Publish.Published ==> PublishedRows(db, Publish.Commit(db, t).0, t)
  {
    var i := db.claims[t].image;
    var s := db.jobs[i].session;
    assert Links.JobOk(db, i) && Links.SessionOk(db, s) && Links.ImageOk(db, i);
    CommitForm(db, t);
    hide Links.Linked, Publish.Commit, Publish.PublishRows, PublishedRows, Upload.ProcessingVariants;
    if Publish.Commit(db, t).1 == Publish.Published {
      assert PublishSource in db.sessions[s].parts by {
        assert PublishSource in UPLOAD_KINDS;
      }
      RowsPublished(db, t);
    }
  }

  lemma RowsPublished(db: Db, t: nat)
    requires P.Possible(db, P.Commit(t)) && Publish.Fenced(db.jobs, db.claims, t) && db.claims[t].image in db.images
    requires db.images[db.claims[t].image].owner in db.users && db.jobs[db.claims[t].image].session in db.sessions
    requires var i, s := db.claims[t].image, db.jobs[db.claims[t].image].session;
             (forall k :: k in UPLOAD_KINDS ==> k in db.sessions[s].parts) &&
             db.images[i].variants == Upload.ProcessingVariants(s, db.sessions[s].parts)
    ensures PublishedRows(db, Publish.PublishRows(db, db.claims[t].image, db.claims[t], 1), t)
  {
    var i := db.claims[t].image;
    var s := db.jobs[i].session;
    VariantsAre(db.sessions[s].parts, s, i, db.claims[t].inspected.value);
    hide Publish.PublishedVariants, ActiveBytes, Upload.ProcessingVariants;
  }

  lemma CommitForm(db: Db, t: nat)
    requires Links.Linked(db) && P.Possible(db, P.Commit(t)) && Publish.Fenced(db.jobs, db.claims, t)
    ensures var i := db.claims[t].image;
            i in db.images && db.images[i].owner in db.users &&
            (Publish.Commit(db, t).1 == Publish.OverQuota ==> Publish.Commit(db, t).0 == db) &&
            (Publish.Commit(db, t).1 == Publish.Published ==>
               Publish.Commit(db, t).0 == Publish.PublishRows(db, i, db.claims[t], 1))
  {
    assert Links.JobOk(db, db.claims[t].image) && Links.ImageOk(db, db.claims[t].image);
    hide Links.Linked, ReservedBelow, Publish.PublishedVariants, ActiveBytes, Publish.PublishRows;
  }

  lemma VariantsAre(parts: Parts, s: nat, i: nat, blob: Blob)
    requires forall k :: k in UPLOAD_KINDS ==> k in parts
    ensures var variants := Upload.ProcessingVariants(s, parts);
            var published := Publish.PublishedVariants(variants, i, blob);
            Master in variants && Gallery in variants && Admin in variants &&
            published == map[Master := variants[Master], Gallery := variants[Gallery], Admin := variants[Admin],
                             Publish := Variant(PublishTarget(i), blob.size, true)] &&
            ActiveBytes(published) ==
              variants[Master].size + variants[Gallery].size + variants[Admin].size + blob.size
  {
  }
}
