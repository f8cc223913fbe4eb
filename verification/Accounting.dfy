/** Quota and ledger over whole runs: reserved and used bytes never exceed a user's quota, and
    the stored counters equal what the rows add up to. */
module Accounting {
  import opened Collections
  import opened Rows
  import opened Upload
  import opened Publish
  import Deletion
  import Sweeping
  import Links
  import P = Pipeline

  // ----- Sums -----

  lemma {:induction false} SumAgree(f: nat -> nat, g: nat -> nat, n: nat)
    requires forall j: nat :: j < n ==> f(j) == g(j)
    ensures SumBelow(f, n) == SumBelow(g, n)
  {
    if n > 0 {
      SumAgree(f, g, n - 1);
    }
  }

  lemma {:induction false} SumLess(f: nat -> nat, g: nat -> nat, n: nat)
    requires forall j: nat :: j < n ==> f(j) <= g(j)
    ensures SumBelow(f, n) <= SumBelow(g, n)
  {
    if n > 0 {
      SumLess(f, g, n - 1);
    }
  }

  lemma {:induction false} SumChange(f: nat -> nat, g: nat -> nat, n: nat, k: nat)
    requires k < n && forall j: nat :: j < n && j != k ==> f(j) == g(j)
    ensures SumBelow(f, n) + g(k) == SumBelow(g, n) + f(k)
  {
    if k == n - 1 {
      SumAgree(f, g, n - 1);
    } else {
      SumChange(f, g, n - 1, k);
    }
  }

  lemma {:induction false} SumOne(f: nat -> nat, n: nat, k: nat)
    requires k < n
    ensures f(k) <= SumBelow(f, n)
  {
    if k < n - 1 {
      SumOne(f, n - 1, k);
    }
  }

  // ----- What files can hold -----

  /** A publish target is a bounded rendering or the publish source itself. */
  ghost predicate OutputOk(sessions: map<nat, Session>, jobs: map<nat, Job>, i: nat, blob: Blob)
  {
    i in jobs && jobs[i].session in sessions && PublishSource in sessions[jobs[i].session].parts &&
    (blob.size <= OUTPUT_RESERVE || blob == sessions[jobs[i].session].parts[PublishSource].blob)
  }

  ghost predicate ContentOk(sessions: map<nat, Session>, jobs: map<nat, Job>, p: Path, blob: Blob)
  {
    match p
    case Stored(k, h) => blob.hash == h
    case PublishTarget(i) => OutputOk(sessions, jobs, i, blob)
    case Staged(s, k) => s in sessions && k in sessions[s].parts && blob == sessions[s].parts[k].blob
  }

  ghost predicate FileOk(db: Db, p: Path)
    requires p in db.disk
  {
    ContentOk(db.sessions, db.jobs, p, db.disk[p])
  }

  ghost predicate ReadOk(db: Db, t: nat)
    requires t in db.claims
  {
    db.claims[t].inspected.Some? ==> OutputOk(db.sessions, db.jobs, db.claims[t].image, db.claims[t].inspected.value)
  }

  /** Staged files are the manifest's parts, stored files are content-addressed, and nothing that
      was published or read for publishing is larger than what was reserved for it. */
  ghost predicate Contents(db: Db)
  {
    && (forall p {:trigger FileOk(db, p)} :: p in db.disk ==> FileOk(db, p))
    && (forall t {:trigger ReadOk(db, t)} :: t in db.claims ==> ReadOk(db, t))
  }

  /** How far a session got: created, uploading, processing, stopped. */
  function Rank(session: Session): nat
  {
    match session.status
    case Initiated => 0
    case Uploading => 1
    case Processing => 2
    case _ => 3
  }

  predicate Stopped(session: Session)
  {
    Rank(session) == 3
  }

  /** What no step does to a session: it keeps its owner, its reservation and its manifest,
      it only moves forward, and once it stopped reserving it never starts again. */
  ghost predicate SessionNext(a: map<nat, Session>, b: map<nat, Session>, at: Time, s: nat)
  {
    s in a ==>
      && s in b
      && b[s].owner == a[s].owner && b[s].reserved == a[s].reserved
      && SameKeys(a[s].parts, b[s].parts) && (forall k :: k in a[s].parts ==> b[s].parts[k].blob == a[s].parts[k].blob)
      && (Reserving(b[s], at) ==> Reserving(a[s], at))
      && b[s].manifest == a[s].manifest && Rank(a[s]) <= Rank(b[s])
  }

  ghost predicate Lasting(db: Db, db': Db)
  {
    && (forall s {:trigger SessionNext(db.sessions, db'.sessions, db.clock, s)} ::
          SessionNext(db.sessions, db'.sessions, db.clock, s))
    && (forall s :: s in db'.sessions ==> s in db.sessions || s == db.nextSession)
    && (forall i :: i in db.jobs ==> i in db'.jobs && db'.jobs[i].session == db.jobs[i].session)
  }

  lemma LastingAt(db: Db, db': Db, s: nat)
    requires OnlyAt(db.sessions, db'.sessions, s) && SessionNext(db.sessions, db'.sessions, db.clock, s)
    requires s in db'.sessions ==> s in db.sessions || s == db.nextSession
    requires forall i :: i in db.jobs ==> i in db'.jobs && db'.jobs[i].session == db.jobs[i].session
    ensures Lasting(db, db')
  {
  }

  lemma LastingRows(db: Db, db': Db)
    requires db'.sessions == db.sessions
    requires forall i :: i in db.jobs ==> i in db'.jobs && db'.jobs[i].session == db.jobs[i].session
    ensures Lasting(db, db')
  {
  }

  lemma ContentLasts(db: Db, db': Db, p: Path, blob: Blob)
    requires Lasting(db, db') && ContentOk(db.sessions, db.jobs, p, blob)
    ensures ContentOk(db'.sessions, db'.jobs, p, blob)
  {
    match p
    case PublishTarget(i) => assert SessionNext(db.sessions, db'.sessions, db.clock, db.jobs[i].session);
    case Staged(s, _) => assert SessionNext(db.sessions, db'.sessions, db.clock, s);
    case Stored(_, _) =>
  }

  /** Every file and every reading after a step was there before or is as it should be. */
  ghost predicate Supplied(db: Db, db': Db)
  {
    && (forall p :: p in db'.disk ==>
          (p in db.disk && db'.disk[p] == db.disk[p]) || ContentOk(db.sessions, db.jobs, p, db'.disk[p]))
    && SameReadings(db, db')
  }

  ghost predicate SameReadings(db: Db, db': Db)
  {
    forall t :: t in db'.claims ==>
      db'.claims[t].inspected == None ||
      (t in db.claims && db'.claims[t].image == db.claims[t].image &&
       db'.claims[t].inspected == db.claims[t].inspected) ||
      OutputOk(db.sessions, db.jobs, db'.claims[t].image, db'.claims[t].inspected.value)
  }

  lemma ContentsStep(db: Db, db': Db)
    requires Contents(db) && Lasting(db, db') && Supplied(db, db')
    ensures Contents(db')
  {
    forall p | p in db'.disk
      ensures FileOk(db', p)
    {
      if p in db.disk && db'.disk[p] == db.disk[p] {
        assert FileOk(db, p);
      }
      ContentLasts(db, db', p, db'.disk[p]);
    }
    forall t | t in db'.claims
      ensures ReadOk(db', t)
    {
      if t in db.claims && db'.claims[t].inspected.Some? {
        assert ReadOk(db, t);
      }
      if db'.claims[t].inspected.Some? {
        ContentLasts(db, db', PublishTarget(db'.claims[t].image), db'.claims[t].inspected.value);
      }
    }
  }

  ghost predicate Shrinks(a: Disk, b: Disk)
  {
    forall p :: p in b ==> p in a && b[p] == a[p]
  }

  lemma {:induction false} PromotionContents(db: Db, s: nat, parts: Parts, n: nat)
    requires Contents(db) && n <= |PROMOTED| && s in db.sessions && parts == db.sessions[s].parts
    requires forall k :: k in PROMOTED ==> k in parts
    ensures var disk := PromoteFirst(db.disk, s, parts, n).disk;
            forall p :: p in disk ==>
              (p in db.disk && disk[p] == db.disk[p]) || ContentOk(db.sessions, db.jobs, p, disk[p])
  {
    if n > 0 {
      PromotionContents(db, s, parts, n - 1);
      var before := PromoteFirst(db.disk, s, parts, n - 1);
      var k := PROMOTED[n - 1];
      if before.ok && Staged(s, k) in before.disk {
        assert ContentOk(db.sessions, db.jobs, Staged(s, k), before.disk[Staged(s, k)]) by {
          if Staged(s, k) in db.disk && before.disk[Staged(s, k)] == db.disk[Staged(s, k)] {
            assert FileOk(db, Staged(s, k));
          }
        }
      }
    }
  }

  lemma {:induction false} RestoreContents(db: Db, s: nat, parts: Parts, n: nat)
    requires Contents(db) && n <= |PROMOTED| && s in db.sessions && parts == db.sessions[s].parts
    requires forall k :: k in PROMOTED ==> k in parts
    ensures var disk := RestoreFirst(db.disk, s, parts, n).disk;
            forall p :: p in disk ==>
              (p in db.disk && disk[p] == db.disk[p]) || ContentOk(db.sessions, db.jobs, p, disk[p])
  {
    if n > 0 {
      RestoreContents(db, s, parts, n - 1);
    }
  }

  // ----- Every step is lasting -----

  lemma EnterLasts(db: Db, s: nat, disk: Disk, watermark: bool)
    requires s in db.sessions && Reserving(db.sessions[s], db.clock) && db.nextImage !in db.jobs
    requires forall k :: k in UPLOAD_KINDS ==> k in db.sessions[s].parts
    ensures Lasting(db, EnterProcessing(db, s, disk, watermark))
  {
    LastingAt(db, EnterProcessing(db, s, disk, watermark), s);
  }

  lemma CompleteLasts(db: Db, user: nat, s: nat, watermark: bool)
    requires Links.Linked(db)
    ensures Lasting(db, Complete(db, user, s, watermark).0)
  {
    Links.FreshSession(db);
    Links.IdleIsolated(db, db.nextSession);
    if CompleteGuard(db, user, s) == None {
      var promotion := PromoteFirst(db.disk, s, db.sessions[s].parts, |PROMOTED|);
      if promotion.ok {
        EnterLasts(db, s, promotion.disk, watermark);
      } else {
        LastingAt(db, Complete(db, user, s, watermark).0, s);
      }
    }
  }

  lemma CommitLasts(db: Db, t: nat)
    requires Links.Linked(db) && t in db.claims && db.claims[t].inspected.Some? && db.claims[t].stagingClean.Some?
    ensures Lasting(db, Commit(db, t).0)
  {
    var r := Commit(db, t);
    if r.1 == Published {
      var i := db.claims[t].image;
      assert Links.JobOk(db, i);
      PublishedNext(db, t, db.jobs[i].session);
      LastingAt(db, r.0, db.jobs[i].session);
    } else {
      LastingRows(db, r.0);
    }
  }

  lemma PublishedNext(db: Db, t: nat, s: nat)
    requires t in db.claims && db.claims[t].inspected.Some? && db.claims[t].stagingClean.Some? &&
             Commit(db, t).1 == Published
    requires db.claims[t].image in db.jobs && db.jobs[db.claims[t].image].session == s && s in db.sessions
    requires db.sessions[s].status == Processing
    ensures var db' := Commit(db, t).0;
            OnlyAt(db.sessions, db'.sessions, s) && SessionNext(db.sessions, db'.sessions, db.clock, s) &&
            s in db'.sessions &&
            forall i :: i in db.jobs ==> i in db'.jobs && db'.jobs[i].session == db.jobs[i].session
  {
  }

  lemma BuryLasts(db: Db, i: nat)
    requires Links.Linked(db) && LiveJob(db.jobs, i)
    ensures Lasting(db, Bury(db, i))
  {
    assert Links.JobOk(db, i);
    Links.JobIsolated(db, i);
    LastingAt(db, Bury(db, i), db.jobs[i].session);
  }

  lemma FailLasts(db: Db, t: nat, overQuota: bool)
    requires Links.Linked(db)
    ensures Lasting(db, Fail(db, t, overQuota).0)
  {
    if Fenced(db.jobs, db.claims, t) {
      BuryLasts(db, db.claims[t].image);
      if Fail(db, t, overQuota).0 != Bury(db, db.claims[t].image) {
        LastingAt(db, Fail(db, t, overQuota).0, 0);
      }
    }
  }

  lemma DeleteLasts(db: Db, user: nat, isAdmin: bool, i: nat)
    requires Links.Linked(db)
    ensures Lasting(db, Deletion.DeleteImage(db, user, isAdmin, i).0)
  {
    var db' := Deletion.DeleteImage(db, user, isAdmin, i).0;
    if db' != db {
      assert Links.ImageOk(db, i);
      Links.JobIsolated(db, i);
      LastingAt(db, db', db.jobs[i].session);
    }
  }

  lemma FinishLasts(db: Db, n: nat, at: Time)
    requires Links.Linked(db)
    ensures Lasting(db, Sweeping.Finish(db, n, at).0)
  {
    var db' := Sweeping.Finish(db, n, at).0;
    if !Sweeping.Finish(db, n, at).1 {
      LastingRows(db, db');
    } else {
      assert Links.SweepOk(db, n);
      LastingAt(db, db', db.sweeps[n].session);
    }
  }

  lemma SweepLasts(db: Db, n: nat, seen: Time)
    ensures Lasting(db, Sweeping.ClaimSweep(db, n, seen).0)
  {
    var db' := Sweeping.ClaimSweep(db, n, seen).0;
    if db' == db {
      LastingRows(db, db');
    } else {
      LastingAt(db, db', db.sweeps[n].session);
    }
  }

  lemma InitLasts(db: Db, cfg: Config, user: nat, key: string, req: seq<PartManifest>, seen: Time)
    requires Links.Linked(db)
    ensures Lasting(db, Init(db, cfg, user, key, req, seen).0)
  {
    hide Lasting;
    var db' := Init(db, cfg, user, key, req, seen).0;
    if db' == db {
      LastingRows(db, db);
    } else {
      Links.FreshSession(db);
      LastingAt(db, db', db.nextSession);
    }
  }

  lemma PutPartLasts(db: Db, user: nat, s: nat, k: Kind, body: Blob)
    ensures Lasting(db, PutPart(db, user, s, k, body).0)
  {
    var db' := PutPart(db, user, s, k, body).0;
    if db' == db {
      LastingRows(db, db');
    } else {
      LastingAt(db, db', s);
    }
  }

  lemma CancelLasts(db: Db, user: nat, s: nat)
    ensures Lasting(db, Cancel(db, user, s).0)
  {
    var db' := Cancel(db, user, s).0;
    if db' == db {
      LastingRows(db, db');
    } else {
      LastingAt(db, db', s);
    }
  }

  lemma CancelSweepLasts(db: Db, s: nat)
    ensures Lasting(db, CancelSwept(db, s)) && Lasting(db, CancelSweepFailed(db, s))
  {
    LastingRows(db, CancelSwept(db, s));
    var db' := CancelSweepFailed(db, s);
    if db' == db {
      LastingRows(db, db');
    } else {
      LastingAt(db, db', s);
    }
  }

  lemma UploadLasts(db: Db, cfg: Config, step: P.Step)
    requires Links.Linked(db) && P.UploadStep(step) && P.Possible(db, step)
    ensures Lasting(db, P.Apply(db, cfg, step))
  {
    hide P.Apply;
    P.UploadApplied(db, cfg, step);
    match step
    case Init(user, key, req, seen) => InitLasts(db, cfg, user, key, req, seen);
    case PutPart(user, s, k, body) => PutPartLasts(db, user, s, k, body);
    case Complete(user, s, watermark) => CompleteLasts(db, user, s, watermark);
    case Cancel(user, s) => CancelLasts(db, user, s);
    case CancelSwept(s) => CancelSweepLasts(db, s);
    case CancelSweepFailed(s) => CancelSweepLasts(db, s);
  }

  lemma EndLasts(db: Db, cfg: Config, step: P.Step)
    requires Links.Linked(db) && P.EndStep(step) && P.Possible(db, step)
    ensures Lasting(db, P.Apply(db, cfg, step))
  {
    hide P.Apply;
    P.EndApplied(db, cfg, step);
    match step
    case Commit(t) => CommitLasts(db, t);
    case Fail(t, overQuota) => FailLasts(db, t, overQuota);
    case DeleteImage(user, isAdmin, i) => DeleteLasts(db, user, isAdmin, i);
    case ClaimSweep(n, seen) => SweepLasts(db, n, seen);
    case Finish(n, at) => FinishLasts(db, n, at);
  }

  lemma QuietLasts(db: Db, cfg: Config, step: P.Step)
    requires P.FileStep(step) || P.LeaseStep(step) || P.SweepStep(step)
    ensures Lasting(db, P.Apply(db, cfg, step))
  {
    hide P.Apply, Lasting;
    if P.FileStep(step) {
      Links.FileStepRows(db, cfg, step);
    } else if P.LeaseStep(step) {
      Links.LeaseStepRows(db, cfg, step);
    } else {
      Links.SweepStepRows(db, cfg, step);
    }
    LastingRows(db, P.Apply(db, cfg, step));
  }

  lemma StepLasts(db: Db, cfg: Config, step: P.Step)
    requires Links.Linked(db)
    ensures Lasting(db, P.Apply(db, cfg, step))
  {
    hide P.Apply, Lasting;
    if !P.Possible(db, step) {
      P.Impossible(db, cfg, step);
      LastingRows(db, db);
    } else if P.FileStep(step) || P.LeaseStep(step) || P.SweepStep(step) {
      QuietLasts(db, cfg, step);
    } else if P.UploadStep(step) {
      UploadLasts(db, cfg, step);
    } else {
      EndLasts(db, cfg, step);
    }
  }

  // ----- Every step supplies only what may be there -----

  lemma ShrinkSupplies(db: Db, db': Db)
    requires Shrinks(db.disk, db'.disk) && (db'.claims == db.claims || SameReadings(db, db'))
    ensures Supplied(db, db')
  {
  }

  lemma CompleteSupplies(db: Db, user: nat, s: nat, watermark: bool)
    requires Contents(db)
    ensures Supplied(db, Complete(db, user, s, watermark).0)
  {
    hide Contents, Supplied;
    var db' := Complete(db, user, s, watermark).0;
    CompleteFiles(db, user, s, watermark);
    hide Complete;
    if CompleteGuard(db, user, s) == None {
      PromotionContents(db, s, db.sessions[s].parts, |PROMOTED|);
      FilesSupply(db, db', db'.disk);
    } else {
      ShrinkSupplies(db, db');
    }
  }

  lemma CompleteFiles(db: Db, user: nat, s: nat, watermark: bool)
    ensures var db' := Complete(db, user, s, watermark).0;
            db'.claims == db.claims &&
            if CompleteGuard(db, user, s).Some? then db' == db
            else db'.disk == PromoteFirst(db.disk, s, db.sessions[s].parts, |PROMOTED|).disk
  {
    hide PromoteFirst, ListedFirst;
  }

  lemma FilesSupply(db: Db, db': Db, disk: Disk)
    requires db'.disk == disk && db'.claims == db.claims
    requires forall p :: p in disk ==>
               (p in db.disk && disk[p] == db.disk[p]) || ContentOk(db.sessions, db.jobs, p, disk[p])
    ensures Supplied(db, db')
  {
  }

  lemma InterruptedSupplies(db: Db, user: nat, s: nat, n: nat, listed: nat)
    requires Contents(db) && n <= |PROMOTED|
    ensures Supplied(db, CompleteInterrupted(db, user, s, n, listed))
  {
    if CompleteGuard(db, user, s) == None {
      PromotionContents(db, s, db.sessions[s].parts, n);
    }
  }

  lemma RestoreSupplies(db: Db, s: nat, n: nat)
    requires Contents(db) && n <= |PROMOTED|
    ensures Supplied(db, Restore(db, s, n).0)
  {
    if s in db.sessions && forall k :: k in PROMOTED ==> k in db.sessions[s].parts {
      RestoreContents(db, s, db.sessions[s].parts, n);
    }
  }

  lemma PromoteSupplies(db: Db, t: nat)
    requires Links.Linked(db) && Contents(db)
    ensures Supplied(db, PromoteTarget(db, t).0)
  {
    if Fenced(db.jobs, db.claims, t) {
      var i := db.claims[t].image;
      assert Links.JobOk(db, i);
      var source := SourceOf(db.jobs[i]);
      assert source in db.disk ==> FileOk(db, source);
    }
  }

  lemma InspectSupplies(db: Db, t: nat)
    requires Contents(db)
    ensures Supplied(db, Inspect(db, t))
  {
    if t in db.claims && PublishTarget(db.claims[t].image) in db.disk {
      assert FileOk(db, PublishTarget(db.claims[t].image));
    }
  }

  lemma DeletionShrinks(db: Db, paths: seq<Path>, e: nat, n: nat, acknowledged: bool)
    ensures Shrinks(db.disk, Deletion.CleanupFiles(db, paths).disk)
    ensures Shrinks(db.disk, Deletion.Deliver(db, e, n, acknowledged).disk)
  {
    hide RemoveUnreferenced;
    Deletion.Survivors(db.images, db.files, db.disk, paths);
    if e < |db.events| && n <= |db.events[e].paths| {
      Deletion.Survivors(db.images, db.files, db.disk, db.events[e].paths[..n]);
    }
  }

  lemma PutSupplies(db: Db, user: nat, s: nat, k: Kind, body: Blob)
    ensures Supplied(db, PutPart(db, user, s, k, body).0)
  {
    var db' := PutPart(db, user, s, k, body).0;
    if db' != db {
      FilesSupply(db, db', db'.disk);
    }
  }

  lemma RolledBackSupplies(db: Db, user: nat, s: nat, k: Kind, body: Blob)
    ensures Supplied(db, PutPartRolledBack(db, user, s, k, body))
  {
    PutSupplies(db, user, s, k, body);
    FilesSupply(db, PutPartRolledBack(db, user, s, k, body), PutPart(db, user, s, k, body).0.disk);
  }

  lemma CancelSweptSupplies(db: Db, s: nat)
    ensures Supplied(db, CancelSwept(db, s))
  {
    if s in db.cancels {
      ShrinkSupplies(db, CancelSwept(db, s));
    }
  }

  lemma RemoveSourceSupplies(db: Db, t: nat)
    ensures Supplied(db, RemoveSource(db, t))
  {
    ShrinkSupplies(db, RemoveSource(db, t));
  }

  lemma RemoveFilesSupplies(db: Db, n: nat)
    ensures Supplied(db, Sweeping.RemoveFiles(db, n))
  {
    hide Supplied;
    ShrinkSupplies(db, Sweeping.RemoveFiles(db, n));
  }

  lemma CleanOrphanSupplies(db: Db, s: nat)
    ensures Supplied(db, Sweeping.CleanOrphan(db, s))
  {
    hide Supplied;
    ShrinkSupplies(db, Sweeping.CleanOrphan(db, s));
  }

  /** Steps on rows and renderings alone. */
  predicate RowStep(step: P.Step)
  {
    step.Tick? || step.Init? || step.Cancel? || step.CancelSweepFailed? || step.Commit? || step.Fail? ||
    step.DeleteImage? || step.List? || step.ClaimSweep? || step.Decide? || step.Finish? ||
    step.Render? || step.RemoveRendering?
  }

  lemma UploadRowFiles(db: Db, cfg: Config, step: P.Step)
    requires RowStep(step) && P.UploadStep(step) && P.Possible(db, step)
    ensures P.Apply(db, cfg, step).disk == db.disk && P.Apply(db, cfg, step).claims == db.claims
  {
    hide P.Apply, Upload.Init, Upload.Cancel, Upload.CancelSweepFailed;
    P.UploadApplied(db, cfg, step);
  }

  lemma SweepRowFiles(db: Db, cfg: Config, step: P.Step)
    requires RowStep(step) && P.SweepStep(step) && P.Possible(db, step)
    ensures P.Apply(db, cfg, step).disk == db.disk && P.Apply(db, cfg, step).claims == db.claims
  {
    hide P.Apply;
    P.SweepApplied(db, cfg, step);
  }

  lemma EndRowFiles(db: Db, cfg: Config, step: P.Step)
    requires P.EndStep(step)
    ensures P.Apply(db, cfg, step).disk == db.disk && P.Apply(db, cfg, step).claims == db.claims
  {
    hide P.Apply;
    Links.EndStepRows(db, cfg, step);
  }

  lemma TickFiles(db: Db, cfg: Config, step: P.Step)
    requires (step.Tick? || step.Render? || step.RemoveRendering?) && P.Possible(db, step)
    ensures P.Apply(db, cfg, step).disk == db.disk && P.Apply(db, cfg, step).claims == db.claims
  {
    hide P.Apply;
    P.FileApplied(db, cfg, step);
  }

  lemma RowStepFiles(db: Db, cfg: Config, step: P.Step)
    requires RowStep(step)
    ensures P.Apply(db, cfg, step).disk == db.disk && P.Apply(db, cfg, step).claims == db.claims
  {
    hide P.Apply, P.ApplyFile;
    if !P.Possible(db, step) {
      P.Impossible(db, cfg, step);
    } else if P.UploadStep(step) {
      UploadRowFiles(db, cfg, step);
    } else if P.SweepStep(step) {
      SweepRowFiles(db, cfg, step);
    } else if P.EndStep(step) {
      EndRowFiles(db, cfg, step);
    } else {
      TickFiles(db, cfg, step);
    }
  }

  lemma TrySweepReadings(db: Db, t: nat, clean: bool)
    ensures TrySweepStaging(db, t, clean).disk == db.disk && SameReadings(db, TrySweepStaging(db, t, clean))
  {
  }

  lemma LeaseStepReadings(db: Db, cfg: Config, step: P.Step)
    requires P.LeaseStep(step) || step.TrySweepStaging?
    ensures P.Apply(db, cfg, step).disk == db.disk && SameReadings(db, P.Apply(db, cfg, step))
  {
    hide P.Apply;
    if P.LeaseStep(step) {
      Links.LeaseStepClaims(db, cfg, step);
      Links.LeaseStepRows(db, cfg, step);
    } else if P.Possible(db, step) {
      TrySweepReadings(db, step.token, step.clean);
      P.FileApplied(db, cfg, step);
    } else {
      P.Impossible(db, cfg, step);
    }
  }

  lemma UploadSupplies(db: Db, cfg: Config, step: P.Step)
    requires Links.Linked(db) && Contents(db) && P.UploadStep(step) && !RowStep(step) && P.Possible(db, step)
    ensures Supplied(db, P.Apply(db, cfg, step))
  {
    hide P.Apply;
    P.UploadApplied(db, cfg, step);
    match step
    case PutPart(user, s, k, body) => PutSupplies(db, user, s, k, body);
    case Complete(user, s, watermark) => CompleteSupplies(db, user, s, watermark);
    case CancelSwept(s) => CancelSweptSupplies(db, s);
  }

  lemma FileSupplies(db: Db, cfg: Config, step: P.Step)
    requires Links.Linked(db) && Contents(db) && P.FileStep(step) && !step.TrySweepStaging? && !RowStep(step) &&
             P.Possible(db, step)
    ensures Supplied(db, P.Apply(db, cfg, step))
  {
    hide P.Apply;
    P.FileApplied(db, cfg, step);
    match step
    case PutPartRolledBack(user, s, k, body) => RolledBackSupplies(db, user, s, k, body);
    case CompleteInterrupted(user, s, n, listed) => InterruptedSupplies(db, user, s, n, listed);
    case Restore(s, n) => RestoreSupplies(db, s, n);
    case PromoteTarget(t) => PromoteSupplies(db, t);
    case Inspect(t) => InspectSupplies(db, t);
    case RemoveSource(t) => RemoveSourceSupplies(db, t);
    case CleanupFiles(paths) => DeletionShrinks(db, paths, 0, 0, false);
    case Deliver(e, n, acknowledged) => DeletionShrinks(db, [], e, n, acknowledged);
  }

  lemma StepSupplies(db: Db, cfg: Config, step: P.Step)
    requires Links.Linked(db) && Contents(db)
    ensures Supplied(db, P.Apply(db, cfg, step))
  {
    hide P.Apply, Supplied;
    var db' := P.Apply(db, cfg, step);
    if !P.Possible(db, step) {
      P.Impossible(db, cfg, step);
      ShrinkSupplies(db, db');
    } else if RowStep(step) {
      RowStepFiles(db, cfg, step);
      ShrinkSupplies(db, db');
    } else if P.LeaseStep(step) || step.TrySweepStaging? {
      LeaseStepReadings(db, cfg, step);
      ShrinkSupplies(db, db');
    } else if P.UploadStep(step) {
      UploadSupplies(db, cfg, step);
    } else if P.FileStep(step) {
      FileSupplies(db, cfg, step);
    } else {
      P.SweepApplied(db, cfg, step);
      if step.RemoveFiles? {
        RemoveFilesSupplies(db, step.sweep);
      } else {
        CleanOrphanSupplies(db, step.session);
      }
    }
  }

  lemma StepKeepsContents(db: Db, cfg: Config, step: P.Step)
    requires Links.Linked(db) && Contents(db)
    ensures Contents(P.Apply(db, cfg, step))
  {
    hide P.Apply;
    StepLasts(db, cfg, step);
    StepSupplies(db, cfg, step);
    ContentsStep(db, P.Apply(db, cfg, step));
  }

  ghost predicate UsersNext(db: Db, db': Db, step: P.Step)
  {
    (!step.Init? ==> db'.nextSession == db.nextSession) &&
    (!step.Commit? && !step.DeleteImage? ==> db'.users == db.users) &&
    (!step.Tick? ==> db'.clock == db.clock) && db.clock <= db'.clock
  }

  lemma FileKeepsUsers(db: Db, cfg: Config, step: P.Step)
    requires P.FileStep(step)
    ensures UsersNext(db, P.Apply(db, cfg, step), step)
  {
    hide P.Apply;
    Links.FileStepRows(db, cfg, step);
  }

  lemma LeaseKeepsUsers(db: Db, cfg: Config, step: P.Step)
    requires P.LeaseStep(step)
    ensures UsersNext(db, P.Apply(db, cfg, step), step)
  {
    hide P.Apply;
    Links.LeaseStepRows(db, cfg, step);
  }

  lemma SweepKeepsUsers(db: Db, cfg: Config, step: P.Step)
    requires P.SweepStep(step)
    ensures UsersNext(db, P.Apply(db, cfg, step), step)
  {
    hide P.Apply;
    Links.SweepStepRows(db, cfg, step);
  }

  lemma UploadKeepsUsers(db: Db, cfg: Config, step: P.Step)
    requires P.UploadStep(step)
    ensures UsersNext(db, P.Apply(db, cfg, step), step)
  {
    hide P.Apply;
    Links.UploadStepRows(db, cfg, step);
  }

  lemma EndKeepsUsers(db: Db, cfg: Config, step: P.Step)
    requires P.EndStep(step)
    ensures UsersNext(db, P.Apply(db, cfg, step), step)
  {
    hide P.Apply;
    Links.EndStepRows(db, cfg, step);
  }

  lemma OtherStepKeepsUsers(db: Db, cfg: Config, step: P.Step)
    ensures UsersNext(db, P.Apply(db, cfg, step), step)
  {
    hide P.Apply, UsersNext;
    if P.FileStep(step) {
      FileKeepsUsers(db, cfg, step);
    } else if P.LeaseStep(step) {
      LeaseKeepsUsers(db, cfg, step);
    } else if P.SweepStep(step) {
      SweepKeepsUsers(db, cfg, step);
    } else if P.UploadStep(step) {
      UploadKeepsUsers(db, cfg, step);
    } else {
      EndKeepsUsers(db, cfg, step);
    }
  }

  lemma OtherStepKeepsImages(db: Db, cfg: Config, step: P.Step)
    requires !step.Complete? && !step.Commit? && !step.Fail? && !step.DeleteImage?
    ensures var db' := P.Apply(db, cfg, step);
            db'.images == db.images && db'.nextImage == db.nextImage && db'.files == db.files
  {
    hide P.Apply;
    if P.FileStep(step) {
      Links.FileStepRows(db, cfg, step);
    } else if P.LeaseStep(step) {
      Links.LeaseStepRows(db, cfg, step);
    } else if P.SweepStep(step) {
      Links.SweepStepRows(db, cfg, step);
    } else if P.UploadStep(step) {
      Links.UploadStepRows(db, cfg, step);
    } else {
      Links.EndStepRows(db, cfg, step);
    }
  }
}
