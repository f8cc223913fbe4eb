/** How sessions, images and publish jobs hang together in every reachable state: a live job,
    its processing image and its processing session come in threes. */
module Links {
  import opened Collections
  import opened Rows
  import opened Upload
  import opened Publish
  import Deletion
  import Sweeping
  import P = Pipeline

  ghost predicate SessionOk(db: Db, s: nat)
    requires s in db.sessions
  {
    var session := db.sessions[s];
    && s < db.nextSession
    && session.owner in db.users
    && (forall k :: k in session.parts <==> k in UPLOAD_KINDS)
    && session.reserved == OUTPUT_RESERVE + PartBytes(session.parts)
    && (session.status == Processing ==> session.image.Some? && LiveJob(db.jobs, session.image.value))
    && (session.image.Some? ==> session.image.value in db.images && session.image.value in db.jobs &&
                                db.jobs[session.image.value].session == s)
  }

  ghost predicate ImageOk(db: Db, i: nat)
    requires i in db.images
  {
    var image := db.images[i];
    && i < db.nextImage
    && image.owner in db.users
    && i in db.jobs
    && (image.status == ImageProcessing ==> LiveJob(db.jobs, i))
    && (image.status == ImageCompleted ==> db.jobs[i].status == JobCompleted && PublishedShape(i, image.variants))
  }

  /** Master, gallery and admin in their stored places and the publish target, all active. */
  ghost predicate PublishedShape(i: nat, variants: Variants)
  {
    && variants.Keys == {Master, Gallery, Admin, Publish}
    && (forall k :: k in PROMOTED ==> variants[k].path.Stored? && variants[k].path.kind == k)
    && variants[Publish].path == PublishTarget(i)
    && (forall k :: k in variants ==> variants[k].active)
  }

  ghost predicate JobOk(db: Db, i: nat)
    requires i in db.jobs
  {
    var s := db.jobs[i].session;
    && i < db.nextImage
    && s in db.sessions
    && (!LiveJob(db.jobs, i) ==> Ended(db, s))
    && (LiveJob(db.jobs, i) ==>
          && i in db.images
          && db.images[i].status == ImageProcessing
          && db.jobs[i].image == Some(i)
          && db.sessions[s].status == Processing
          && db.sessions[s].image == Some(i)
          && db.sessions[s].owner == db.images[i].owner
          && (forall k :: k in db.sessions[s].parts <==> k in UPLOAD_KINDS)
          && db.images[i].file == db.sessions[s].parts[Master].blob.hash
          && db.images[i].variants == ProcessingVariants(s, db.sessions[s].parts))
  }

  /** A sweep past its claim, and a cancellation that still removes files, own a session that
      left its active states for good. */
  ghost predicate Ended(db: Db, s: nat)
  {
    s in db.sessions && db.sessions[s].status != Initiated && db.sessions[s].status != Uploading &&
    db.sessions[s].status != Processing
  }

  predicate Final(status: SessionStatus)
  {
    status == Completed || status == Failed || status == Cancelled
  }

  ghost predicate SweepOk(db: Db, n: nat)
    requires n in db.sweeps
  {
    var sweep := db.sweeps[n];
    && n < db.nextSweep
    && sweep.session in db.sessions
    && (sweep.stage != Listed ==> Ended(db, sweep.session))
    && (sweep.stage.Decided? ==> Final(sweep.stage.final))
    && (sweep.stage.Removed? ==> Final(sweep.stage.last))
  }

  ghost predicate KeyOk(db: Db, x: (nat, string))
    requires x in db.keys
  {
    db.keys[x] in db.sessions && db.sessions[db.keys[x]].owner == x.0
  }

  ghost predicate CancelOk(db: Db, s: nat)
  {
    Ended(db, s)
  }

  ghost predicate Linked(db: Db)
  {
    && (forall s {:trigger SessionOk(db, s)} :: s in db.sessions ==> SessionOk(db, s))
    && (forall i {:trigger ImageOk(db, i)} :: i in db.images ==> ImageOk(db, i))
    && (forall i {:trigger JobOk(db, i)} :: i in db.jobs ==> JobOk(db, i))
    && (forall n {:trigger SweepOk(db, n)} :: n in db.sweeps ==> SweepOk(db, n))
    && (forall s {:trigger CancelOk(db, s)} :: s in db.cancels ==> CancelOk(db, s))
    && (forall x {:trigger KeyOk(db, x)} :: x in db.keys ==> KeyOk(db, x))
  }

  /** A step that changes at most session s and at most the image and the job i. */
  ghost predicate Local(db: Db, db': Db, s: nat, i: nat)
  {
    && SameKeys(db.users, db'.users)
    && OnlyAt(db.sessions, db'.sessions, s) && OnlyAt(db.images, db'.images, i) && OnlyAt(db.jobs, db'.jobs, i)
    && db.nextSession <= db'.nextSession && db.nextImage <= db'.nextImage
    && (s in db.sessions ==> s in db'.sessions && db'.sessions[s].owner == db.sessions[s].owner)
    && (i in db.jobs ==> i in db'.jobs)
    && (s in db.sessions && Ended(db, s) ==> Ended(db', s))
  }

  /** Nothing else points at what changes. */
  ghost predicate Isolated(db: Db, s: nat, i: nat)
  {
    && (forall j :: j != i && LiveJob(db.jobs, j) ==> db.jobs[j].session != s)
    && (forall r :: r != s && r in db.sessions ==> db.sessions[r].image != Some(i))
  }

  lemma ChangeKeepsSessions(db: Db, db': Db, s: nat, i: nat)
    requires Linked(db) && Local(db, db', s, i) && Isolated(db, s, i)
    requires s in db'.sessions ==> SessionOk(db', s)
    ensures forall r :: r in db'.sessions ==> SessionOk(db', r)
  {
    forall r | r in db'.sessions ensures SessionOk(db', r) { assert r != s ==> SessionOk(db, r); }
  }

  lemma Change(db: Db, db': Db, s: nat, i: nat)
    requires Linked(db) && Local(db, db', s, i) && Isolated(db, s, i)
    requires db'.keys == db.keys || forall x {:trigger KeyOk(db', x)} :: x in db'.keys ==> KeyOk(db', x)
    requires db'.sweeps == db.sweeps && db'.nextSweep == db.nextSweep
    requires db'.cancels == db.cancels || (db'.cancels == db.cancels + {s} && CancelOk(db', s)) ||
             db'.cancels == db.cancels - {s}
    requires s in db'.sessions ==> SessionOk(db', s)
    requires i in db'.images ==> ImageOk(db', i)
    requires i in db'.jobs ==> JobOk(db', i)
    ensures Linked(db')
  {
    ChangeKeepsSessions(db, db', s, i);
    forall j | j in db'.images ensures ImageOk(db', j) { assert j != i ==> ImageOk(db, j); }
    forall j | j in db'.jobs ensures JobOk(db', j) { assert j != i ==> JobOk(db, j); }
    forall n | n in db'.sweeps ensures SweepOk(db', n) { assert SweepOk(db, n); }
    forall r | r in db'.cancels ensures CancelOk(db', r) { assert r in db.cancels ==> CancelOk(db, r); }
    forall x | x in db'.keys ensures KeyOk(db', x) { assert x in db.keys ==> KeyOk(db, x); }
  }

  /** The fields that Linked reads are equal, up to the jobs' leases. */
  ghost predicate SameRows(a: Db, b: Db)
  {
    SameKeys(a.users, b.users) && a.keys == b.keys && a.sessions == b.sessions && a.nextSession == b.nextSession &&
    a.images == b.images && a.nextImage == b.nextImage && a.cancels == b.cancels && SameJobs(a.jobs, b.jobs)
  }

  lemma Frame(db: Db, db': Db)
    requires Linked(db) && SameRows(db, db')
    requires (db'.sweeps == db.sweeps && db'.nextSweep == db.nextSweep) ||
             forall n {:trigger SweepOk(db', n)} :: n in db'.sweeps ==> SweepOk(db', n)
    ensures Linked(db')
  {
    forall s | s in db'.sessions ensures SessionOk(db', s) { assert SessionOk(db, s); }
    forall i | i in db'.images ensures ImageOk(db', i) { assert ImageOk(db, i); }
    forall i | i in db'.jobs ensures JobOk(db', i) { assert JobOk(db, i); }
    forall n | n in db'.sweeps ensures SweepOk(db', n) { assert n in db.sweeps ==> SweepOk(db, n); }
    forall x | x in db'.keys ensures KeyOk(db', x) { assert KeyOk(db, x); }
    forall s | s in db'.cancels ensures CancelOk(db', s) { assert CancelOk(db, s); }
  }

  /** A session that is not processing, and an image id that nothing uses, are isolated. */
  lemma IdleIsolated(db: Db, s: nat)
    requires Linked(db) && (s in db.sessions ==> db.sessions[s].status != Processing)
    ensures Isolated(db, s, db.nextImage) && db.nextImage !in db.images && db.nextImage !in db.jobs
  {
    assert db.nextImage in db.images ==> ImageOk(db, db.nextImage);
    assert db.nextImage in db.jobs ==> JobOk(db, db.nextImage);
    forall j | j != db.nextImage && LiveJob(db.jobs, j)
      ensures db.jobs[j].session != s
    {
      assert JobOk(db, j);
    }
    forall r | r != s && r in db.sessions
      ensures db.sessions[r].image != Some(db.nextImage)
    {
      assert SessionOk(db, r);
    }
  }

  /** So are a job's image and its session. */
  lemma JobIsolated(db: Db, i: nat)
    requires Linked(db) && i in db.jobs
    ensures Isolated(db, db.jobs[i].session, i)
  {
    var s := db.jobs[i].session;
    assert JobOk(db, i);
    forall j | j != i && LiveJob(db.jobs, j)
      ensures db.jobs[j].session != s
    {
      assert JobOk(db, j);
    }
    forall r | r != s && r in db.sessions
      ensures db.sessions[r].image != Some(i)
    {
      assert SessionOk(db, r);
    }
  }

  /** A session that is neither processing before nor after keeps its identity. */
  ghost predicate SameIdentity(a: Session, b: Session)
  {
    && a.status != Processing && b.status != Processing
    && a.owner == b.owner && a.reserved == b.reserved && a.image == b.image
    && SameKeys(a.parts, b.parts) && (forall k :: k in a.parts ==> a.parts[k].blob == b.parts[k].blob)
  }

  lemma SessionStep(db: Db, db': Db, s: nat)
    requires Linked(db) && s in db.sessions && s in db'.sessions
    requires db'.users == db.users && db'.keys == db.keys && db'.images == db.images && db'.jobs == db.jobs
    requires db'.nextSession == db.nextSession && db'.nextImage == db.nextImage
    requires db'.sessions == db.sessions[s := db'.sessions[s]]
    requires db'.sweeps == db.sweeps && db'.nextSweep == db.nextSweep
    requires db'.cancels == db.cancels || (db'.cancels == db.cancels + {s} && CancelOk(db', s)) ||
             db'.cancels == db.cancels - {s}
    requires SameIdentity(db.sessions[s], db'.sessions[s])
    requires Ended(db, s) ==> Ended(db', s)
    ensures Linked(db')
  {
    assert SessionOk(db, s);
    IdleIsolated(db, s);
    SameBlobs(db.sessions[s].parts, db'.sessions[s].parts);
    Change(db, db', s, db.nextImage);
  }

  /** Only the row fields that sums and variants depend on. */
  lemma SameBlobs(a: Parts, b: Parts)
    requires SameKeys(a, b) && forall k :: k in a ==> a[k].blob == b[k].blob
    ensures PartBytes(a) == PartBytes(b)
  {
    assert forall k :: PartSize(a, k) == PartSize(b, k);
  }

  lemma InitKeepsLinks(db: Db, cfg: Config, user: nat, key: string, req: seq<PartManifest>, seen: Time)
    requires Linked(db)
    ensures Linked(Init(db, cfg, user, key, req, seen).0)
  {
    var db' := Init(db, cfg, user, key, req, seen).0;
    if db' != db {
      ManifestCharacterised(req, cfg.maxPartBytes);
      FreshSession(db);
      IdleIsolated(db, db.nextSession);
      NewKey(db, db', user, key);
      assert SessionOk(db', db.nextSession);
      Change(db, db', db.nextSession, db.nextImage);
    }
  }

  lemma FreshSession(db: Db)
    requires Linked(db)
    ensures db.nextSession !in db.sessions
  {
    assert db.nextSession in db.sessions ==> SessionOk(db, db.nextSession);
  }

  lemma NewKey(db: Db, db': Db, user: nat, key: string)
    requires Linked(db) && OnlyAt(db.sessions, db'.sessions, db.nextSession)
    requires db.nextSession in db'.sessions && db'.sessions[db.nextSession].owner == user
    requires db'.keys == db.keys[(user, key) := db.nextSession]
    ensures forall x {:trigger KeyOk(db', x)} :: x in db'.keys ==> KeyOk(db', x)
  {
    FreshSession(db);
    forall x | x in db'.keys
      ensures KeyOk(db', x)
    {
      assert x in db.keys ==> KeyOk(db, x);
    }
  }

  lemma PutPartKeepsLinks(db: Db, user: nat, s: nat, k: Kind, body: Blob)
    requires Linked(db)
    ensures Linked(PutPart(db, user, s, k, body).0)
  {
    var db' := PutPart(db, user, s, k, body).0;
    if db' != db {
      SessionStep(db, db', s);
    }
  }

  lemma EnteredRows(db: Db, s: nat, disk: Disk, watermark: bool)
    requires s in db.sessions && SessionOk(db, s)
    ensures forall k :: k in UPLOAD_KINDS ==> k in db.sessions[s].parts
    ensures var db' := EnterProcessing(db, s, disk, watermark);
            s in db'.sessions && db.nextImage in db'.images && db.nextImage in db'.jobs &&
            SessionOk(db', s) && ImageOk(db', db.nextImage) && JobOk(db', db.nextImage)
  {
    SameBlobs(db.sessions[s].parts, EnterProcessing(db, s, disk, watermark).sessions[s].parts);
  }

  lemma EnterKeepsLinks(db: Db, s: nat, disk: Disk, watermark: bool)
    requires Linked(db) && s in db.sessions &&
             (db.sessions[s].status == Uploading || db.sessions[s].status == Initiated)
    ensures (forall k :: k in UPLOAD_KINDS ==> k in db.sessions[s].parts) &&
            Linked(EnterProcessing(db, s, disk, watermark))
  {
    assert SessionOk(db, s);
    EnteredRows(db, s, disk, watermark);
    IdleIsolated(db, s);
    Change(db, EnterProcessing(db, s, disk, watermark), s, db.nextImage);
  }

  lemma CancelKeepsLinks(db: Db, user: nat, s: nat)
    requires Linked(db)
    ensures Linked(Cancel(db, user, s).0)
  {
    var db' := Cancel(db, user, s).0;
    if db' != db {
      SessionStep(db, db', s);
    }
  }

  lemma CancelSweepKeepsLinks(db: Db, s: nat)
    requires Linked(db)
    ensures Linked(CancelSwept(db, s)) && Linked(CancelSweepFailed(db, s))
  {
    if s in db.cancels {
      assert CancelOk(db, s);
      SessionStep(db, CancelSwept(db, s), s);
      SessionStep(db, CancelSweepFailed(db, s), s);
    }
  }

  lemma CommitKeepsLinks(db: Db, t: nat)
    requires Linked(db) && t in db.claims && db.claims[t].inspected.Some? && db.claims[t].stagingClean.Some?
    ensures Linked(Publish.Commit(db, t).0)
  {
    var db' := Publish.Commit(db, t).0;
    if db' != db {
      var i := db.claims[t].image;
      PublishRowsKeepLinks(db, i, db.claims[t], if db.images[i].status == ImageCompleted then 0 else 1);
    }
  }

  lemma PublishRowsKeepLinks(db: Db, i: nat, claim: Claim, billed: nat)
    requires Linked(db) && LiveJob(db.jobs, i) && i in db.images && claim.inspected.Some? && claim.stagingClean.Some?
    requires billed > 0 ==> db.images[i].owner in db.users
    ensures Linked(Publish.PublishRows(db, i, claim, billed))
  {
    var db' := Publish.PublishRows(db, i, claim, billed);
    var s := db.jobs[i].session;
    assert JobOk(db, i) && SessionOk(db, s) && ImageOk(db, i);
    PublishedVariantsAre(i, s, db.sessions[s].parts, claim.inspected.value);
    PublishedSessionIs(db.sessions[s], claim.stagingClean.value, claim.seen);
    JobIsolated(db, i);
    hide PublishedVariants, PublishedSession;
    Change(db, db', s, i);
  }

  lemma PublishedVariantsAre(i: nat, s: nat, parts: Parts, blob: Blob)
    requires forall k :: k in parts <==> k in UPLOAD_KINDS
    ensures var variants := PublishedVariants(ProcessingVariants(s, parts), i, blob);
            PublishedShape(i, variants) &&
            ActiveBytes(variants) == parts[Master].blob.size + parts[Gallery].blob.size + parts[Admin].blob.size +
              blob.size
  {
  }

  lemma PublishedSessionIs(session: Session, clean: bool, at: Time)
    ensures var after := PublishedSession(session, clean, at);
            PartBytes(after.parts) == PartBytes(session.parts) && SameKeys(session.parts, after.parts)
  {
    SameBlobs(session.parts, PublishedSession(session, clean, at).parts);
  }

  lemma BuryKeepsLinks(db: Db, i: nat)
    requires Linked(db) && LiveJob(db.jobs, i)
    ensures Linked(Publish.Bury(db, i))
  {
    var s := db.jobs[i].session;
    assert JobOk(db, i) && SessionOk(db, s) && ImageOk(db, i);
    JobIsolated(db, i);
    Change(db, Publish.Bury(db, i), s, i);
  }

  lemma DeleteKeepsLinks(db: Db, i: nat)
    requires Linked(db) && i in db.images && db.images[i].file in db.files && db.images[i].status == ImageCompleted
    ensures Linked(Deletion.DeleteRows(db, i))
  {
    assert ImageOk(db, i) && JobOk(db, i);
    var s := db.jobs[i].session;
    assert SessionOk(db, s);
    JobIsolated(db, i);
    Change(db, Deletion.DeleteRows(db, i), s, i);
  }

  lemma ClaimSweepKeepsLinks(db: Db, n: nat, seen: Time)
    requires Linked(db)
    ensures Linked(Sweeping.ClaimSweep(db, n, seen).0)
  {
    var db' := Sweeping.ClaimSweep(db, n, seen).0;
    if db' != db {
      assert SweepOk(db, n);
      var mid := db.(sessions := db'.sessions);
      SessionStep(db, mid, db.sweeps[n].session);
      SweepChange(mid, db', n);
    }
  }

  lemma SweepChange(db: Db, db': Db, n: nat)
    requires Linked(db) && n in db'.sweeps && SweepOk(db', n)
    requires SameRows(db, db') && db'.sweeps == db.sweeps[n := db'.sweeps[n]] && db'.nextSweep >= db.nextSweep
    ensures Linked(db')
  {
    forall m | m in db'.sweeps ensures SweepOk(db', m) { assert m != n ==> SweepOk(db, m); }
    Frame(db, db');
  }

  lemma DecideKeepsLinks(db: Db, n: nat)
    requires Linked(db)
    ensures Linked(Sweeping.Decide(db, n))
  {
    if n in db.sweeps {
      assert SweepOk(db, n);
      SweepChange(db, Sweeping.Decide(db, n), n);
    }
  }

  lemma RemoveKeepsLinks(db: Db, n: nat)
    requires Linked(db)
    ensures Linked(Sweeping.RemoveFiles(db, n))
  {
    if n in db.sweeps {
      assert SweepOk(db, n);
      SweepChange(db, Sweeping.RemoveFiles(db, n), n);
    }
  }

  lemma FinishedRow(db: Db, n: nat, at: Time)
    requires Linked(db) && Sweeping.Finish(db, n, at).1
    ensures n in db.sweeps && Final(db.sweeps[n].stage.last)
    ensures var s := db.sweeps[n].session;
            s in db.sessions && db.sessions[s].status == CleanupPending &&
            Sweeping.Finish(db, n, at).0.sessions ==
              db.sessions[s := Sweeping.FinishedSession(db.sessions[s], db.sweeps[n].stage.last, at)]
  {
    assert SweepOk(db, n);
  }

  lemma FinishKeepsLinks(db: Db, n: nat, at: Time)
    requires Linked(db)
    ensures Linked(Sweeping.Finish(db, n, at).0)
  {
    var r := Sweeping.Finish(db, n, at);
    var mid := db.(sessions := r.0.sessions);
    if r.1 {
      assert SweepOk(db, n);
      FinishedRow(db, n, at);
      hide Sweeping.Finish;
      SessionStep(db, mid, db.sweeps[n].session);
    }
    hide Sweeping.Finish;
    SweepEnd(mid, r.0);
  }

  lemma SweepEnd(db: Db, db': Db)
    requires Linked(db) && SameRows(db, db') && db'.nextSweep == db.nextSweep
    requires forall m :: m in db'.sweeps ==> m in db.sweeps && db'.sweeps[m] == db.sweeps[m]
    ensures Linked(db')
  {
    forall m | m in db'.sweeps ensures SweepOk(db', m) { assert SweepOk(db, m); }
    Frame(db, db');
  }

  lemma ListKeepsLinks(db: Db, s: nat)
    requires Linked(db)
    ensures Linked(Sweeping.List(db, s))
  {
    if s in db.sessions {
      SweepChange(db, Sweeping.List(db, s), db.nextSweep);
    }
  }

  lemma CompleteKeepsLinks(db: Db, user: nat, s: nat, watermark: bool)
    requires Linked(db)
    ensures Linked(Complete(db, user, s, watermark).0)
  {
    if CompleteGuard(db, user, s) == None {
      var promotion := PromoteFirst(db.disk, s, db.sessions[s].parts, |PROMOTED|);
      if promotion.ok {
        EnterKeepsLinks(db, s, promotion.disk, watermark);
      } else {
        Frame(db, Complete(db, user, s, watermark).0);
      }
    }
  }

  lemma FailKeepsLinks(db: Db, t: nat, overQuota: bool)
    requires Linked(db)
    ensures Linked(Publish.Fail(db, t, overQuota).0)
  {
    if Publish.Fenced(db.jobs, db.claims, t) {
      BuryKeepsLinks(db, db.claims[t].image);
      var db' := Publish.Fail(db, t, overQuota).0;
      if db' != Publish.Bury(db, db.claims[t].image) {
        Frame(db, db');
      }
    }
  }

  lemma FileStepRows(db: Db, cfg: Config, step: P.Step)
    requires P.FileStep(step)
    ensures var db' := P.Apply(db, cfg, step);
            db' == db.(clock := db'.clock, disk := db'.disk, renderings := db'.renderings, claims := db'.claims,
                       events := db'.events, restores := db'.restores) &&
            db.clock <= db'.clock && (!step.Tick? ==> db'.clock == db.clock) &&
            (!step.Inspect? && !step.TrySweepStaging? ==> db'.claims == db.claims)
  {
    hide P.Apply;
    if P.Possible(db, step) {
      P.FileApplied(db, cfg, step);
    } else {
      P.Impossible(db, cfg, step);
    }
  }

  lemma SweepStepRows(db: Db, cfg: Config, step: P.Step)
    requires P.SweepStep(step)
    ensures var db' := P.Apply(db, cfg, step);
            db' == db.(disk := db'.disk, sweeps := db'.sweeps, nextSweep := db'.nextSweep)
  {
    hide P.Apply;
    if P.Possible(db, step) {
      P.SweepApplied(db, cfg, step);
    } else {
      P.Impossible(db, cfg, step);
    }
  }

  lemma UploadStepRows(db: Db, cfg: Config, step: P.Step)
    requires P.UploadStep(step)
    ensures var db' := P.Apply(db, cfg, step);
            db' == db.(sessions := db'.sessions, keys := db'.keys, nextSession := db'.nextSession, disk := db'.disk,
                       files := db'.files, images := db'.images, nextImage := db'.nextImage, jobs := db'.jobs,
                       restores := db'.restores, cancels := db'.cancels) &&
            (!step.Init? ==> db'.keys == db.keys && db'.nextSession == db.nextSession) &&
            (!step.Complete? ==> db'.images == db.images && db'.nextImage == db.nextImage && db'.files == db.files)
  {
    hide P.Apply;
    if P.Possible(db, step) {
      P.UploadApplied(db, cfg, step);
    } else {
      P.Impossible(db, cfg, step);
    }
  }

  lemma EndStepRows(db: Db, cfg: Config, step: P.Step)
    requires P.EndStep(step)
    ensures var db' := P.Apply(db, cfg, step);
            db' == db.(sessions := db'.sessions, users := db'.users, files := db'.files, images := db'.images,
                       jobs := db'.jobs, events := db'.events, sweeps := db'.sweeps) &&
            (!step.Commit? && !step.DeleteImage? ==> db'.users == db.users) &&
            (step.ClaimSweep? || step.Finish? ==> db'.images == db.images && db'.files == db.files) &&
            (!step.Fail? && !step.DeleteImage? ==> db'.events == db.events)
  {
    hide P.Apply;
    if P.Possible(db, step) {
      P.EndApplied(db, cfg, step);
    } else {
      P.Impossible(db, cfg, step);
    }
  }

  /** A new claim has read nothing yet; the other claims stay as they are. */
  lemma LeaseStepClaims(db: Db, cfg: Config, step: P.Step)
    requires P.LeaseStep(step)
    ensures forall t :: t in P.Apply(db, cfg, step).claims ==>
              (t in db.claims && P.Apply(db, cfg, step).claims[t] == db.claims[t]) ||
              (P.Apply(db, cfg, step).claims[t].inspected == None && P.Apply(db, cfg, step).claims[t].seen == 0)
  {
    hide P.Apply;
    if P.Possible(db, step) {
      P.LeaseApplied(db, cfg, step);
    } else {
      P.Impossible(db, cfg, step);
    }
  }

  lemma LeaseStepRows(db: Db, cfg: Config, step: P.Step)
    requires P.LeaseStep(step)
    ensures var db' := P.Apply(db, cfg, step);
            db' == db.(jobs := db'.jobs, claims := db'.claims, nextToken := db'.nextToken) &&
            SameJobs(db.jobs, db'.jobs)
  {
    hide P.Apply;
    if P.Possible(db, step) {
      P.LeaseApplied(db, cfg, step);
    } else {
      P.Impossible(db, cfg, step);
    }
  }

  lemma UploadKeepsLinks(db: Db, cfg: Config, step: P.Step)
    requires Linked(db) && P.UploadStep(step) && P.Possible(db, step)
    ensures Linked(P.Apply(db, cfg, step))
  {
    hide P.Apply;
    P.UploadApplied(db, cfg, step);
    match step
    case Init(user, key, req, seen) => InitKeepsLinks(db, cfg, user, key, req, seen);
    case PutPart(user, s, k, body) => PutPartKeepsLinks(db, user, s, k, body);
    case Complete(user, s, watermark) => CompleteKeepsLinks(db, user, s, watermark);
    case Cancel(user, s) => CancelKeepsLinks(db, user, s);
    case CancelSwept(s) => CancelSweepKeepsLinks(db, s);
    case CancelSweepFailed(s) => CancelSweepKeepsLinks(db, s);
  }

  lemma SweepKeepsLinks(db: Db, cfg: Config, step: P.Step)
    requires Linked(db) && P.SweepStep(step) && P.Possible(db, step)
    ensures Linked(P.Apply(db, cfg, step))
  {
    hide P.Apply;
    P.SweepApplied(db, cfg, step);
    match step
    case List(s) => ListKeepsLinks(db, s);
    case Decide(n) => DecideKeepsLinks(db, n);
    case RemoveFiles(n) => RemoveKeepsLinks(db, n);
    case CleanOrphan(s) => Frame(db, Sweeping.CleanOrphan(db, s));
  }

  lemma EndKeepsLinks(db: Db, cfg: Config, step: P.Step)
    requires Linked(db) && P.EndStep(step) && P.Possible(db, step)
    ensures Linked(P.Apply(db, cfg, step))
  {
    hide P.Apply;
    P.EndApplied(db, cfg, step);
    match step
    case Commit(t) => CommitKeepsLinks(db, t);
    case Fail(t, overQuota) => FailKeepsLinks(db, t, overQuota);
    case DeleteImage(user, isAdmin, i) =>
      if Deletion.DeleteImage(db, user, isAdmin, i).0 != db {
        DeleteKeepsLinks(db, i);
      }
    case ClaimSweep(n, seen) => ClaimSweepKeepsLinks(db, n, seen);
    case Finish(n, at) => FinishKeepsLinks(db, n, at);
  }

  lemma StepKeepsLinks(db: Db, cfg: Config, step: P.Step)
    requires Linked(db)
    ensures Linked(P.Apply(db, cfg, step))
  {
    hide P.Apply;
    if !P.Possible(db, step) {
      P.Impossible(db, cfg, step);
    } else if P.FileStep(step) {
      FileStepRows(db, cfg, step);
      Frame(db, P.Apply(db, cfg, step));
    } else if P.LeaseStep(step) {
      LeaseStepRows(db, cfg, step);
      Frame(db, P.Apply(db, cfg, step));
    } else if P.UploadStep(step) {
      UploadKeepsLinks(db, cfg, step);
    } else if P.SweepStep(step) {
      SweepKeepsLinks(db, cfg, step);
    } else {
      EndKeepsLinks(db, cfg, step);
    }
  }
}
