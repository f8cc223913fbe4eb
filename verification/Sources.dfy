/** The publish source: as long as its job lives, either the staged part or the published target
    is on disk, and it is the one file that is ever removed while a row still names it. */
module Sources {
  import opened Collections
  import opened Rows
  import opened Upload
  import opened Publish
  import opened Accounting
  import opened Retention
  import opened Files
  import Deletion
  import Lifecycle
  import Links
  import Sweeping
  import P = Pipeline

  predicate HasSource(disk: Disk, s: nat)
  {
    Staged(s, PublishSource) in disk
  }

  predicate HasTarget(session: Session, disk: Disk)
  {
    session.status == Processing && session.image.Some? && PublishTarget(session.image.value) in disk
  }

  predicate SourceReceived(session: Session)
  {
    PublishSource in session.parts && session.parts[PublishSource].status == Received
  }

  ghost predicate SourceOk(db: Db, s: nat)
    requires s in db.sessions
  {
    var session := db.sessions[s];
    && (session.status == Processing ==> SourceReceived(session))
    && (!Stopped(session) && SourceReceived(session) ==> HasSource(db.disk, s) || HasTarget(session, db.disk))
  }

  ghost predicate Sourced(db: Db)
  {
    forall s {:trigger SourceOk(db, s)} :: s in db.sessions ==> SourceOk(db, s)
  }

  /** A session that has not stopped keeps its staged publish source until its target exists. */
  ghost predicate KeepsSources(db: Db, disk: Disk)
  {
    forall s :: s in db.sessions && !Stopped(db.sessions[s]) && HasSource(db.disk, s) ==>
      HasSource(disk, s) || HasTarget(db.sessions[s], disk)
  }

  lemma SourcesStep(db: Db, db': Db)
    requires Links.Linked(db) && Sourced(db) && Retains(db, db'.disk) && KeepsSources(db, db'.disk)
    requires forall s :: s in db'.sessions ==>
               Stopped(db'.sessions[s]) || (s in db.sessions && db'.sessions[s] == db.sessions[s]) || SourceOk(db', s)
    ensures Sourced(db')
  {
    forall s | s in db'.sessions
      ensures SourceOk(db', s)
    {
      if s in db.sessions && db'.sessions[s] == db.sessions[s] {
        assert SourceOk(db, s) && Links.SessionOk(db, s);
      }
    }
  }

  // ----- Files -----

  lemma PromotionKeepsSources(db: Db, s: nat, parts: Parts, n: nat)
    requires n <= |PROMOTED| && forall k :: k in PROMOTED ==> k in parts
    ensures KeepsSources(db, PromoteFirst(db.disk, s, parts, n).disk)
  {
    PromotionRetains(db.disk, s, parts, n);
    assert PublishSource !in PROMOTED[..n];
  }

  lemma CompleteKeepsSources(db: Db, user: nat, s: nat, watermark: bool)
    ensures KeepsSources(db, Complete(db, user, s, watermark).0.disk)
  {
    if CompleteGuard(db, user, s) == None {
      PromotionKeepsSources(db, s, db.sessions[s].parts, |PROMOTED|);
    }
  }

  lemma InterruptedKeepsSources(db: Db, user: nat, s: nat, n: nat, listed: nat)
    requires n <= |PROMOTED|
    ensures KeepsSources(db, CompleteInterrupted(db, user, s, n, listed).disk)
  {
    if CompleteGuard(db, user, s) == None {
      PromotionKeepsSources(db, s, db.sessions[s].parts, n);
    }
  }

  lemma RestoreKeepsSources(db: Db, s: nat, n: nat)
    requires n <= |PROMOTED|
    ensures KeepsSources(db, Restore(db, s, n).0.disk)
  {
    if s in db.sessions && forall k :: k in PROMOTED ==> k in db.sessions[s].parts {
      RestoreRetains(db.disk, s, db.sessions[s].parts, n);
    }
  }

  lemma CancelKeepsSources(db: Db, s: nat)
    requires Links.Linked(db)
    ensures KeepsSources(db, CancelSwept(db, s).disk)
  {
    assert s in db.cancels ==> Links.CancelOk(db, s);
  }

  lemma RemoveFilesKeepsSources(db: Db, n: nat)
    requires Links.Linked(db)
    ensures KeepsSources(db, Sweeping.RemoveFiles(db, n).disk)
  {
    assert n in db.sweeps ==> Links.SweepOk(db, n);
  }

  lemma CleanOrphanKeepsSources(db: Db, s: nat)
    ensures KeepsSources(db, Sweeping.CleanOrphan(db, s).disk)
  {
  }

  lemma PromoteTargetKeepsSources(db: Db, t: nat)
    requires Links.Linked(db)
    ensures KeepsSources(db, PromoteTarget(db, t).0.disk)
  {
    if Fenced(db.jobs, db.claims, t) {
      assert Links.JobOk(db, db.claims[t].image);
    }
  }

  lemma RemoveSourceKeepsSources(db: Db, t: nat)
    requires Links.Linked(db) && Readings(db)
    ensures KeepsSources(db, RemoveSource(db, t).disk)
  {
    if t in db.claims && db.claims[t].image in db.jobs {
      assert Stands(db, t) && Links.JobOk(db, db.claims[t].image);
    }
  }

  lemma RemovalKeepsSources(db: Db, paths: seq<Path>)
    requires forall p :: p in paths ==> Removable(db, p)
    ensures KeepsSources(db, RemoveUnreferenced(db.images, db.files, db.disk, paths))
  {
    Deletion.Survivors(db.images, db.files, db.disk, paths);
  }

  lemma DeliverKeepsSources(db: Db, e: nat, n: nat, acknowledged: bool)
    requires Intents(db)
    ensures KeepsSources(db, Deletion.Deliver(db, e, n, acknowledged).disk)
  {
    if e < |db.events| && !db.events[e].published && n <= |db.events[e].paths| {
      assert EventOk(db, e);
      RemovalKeepsSources(db, db.events[e].paths[..n]);
    }
  }

  lemma PutKeepsSources(db: Db, user: nat, s: nat, k: Kind, body: Blob)
    ensures KeepsSources(db, PutPart(db, user, s, k, body).0.disk)
  {
  }

  lemma UploadKeepsSources(db: Db, cfg: Config, step: P.Step)
    requires Links.Linked(db) && (step.PutPart? || step.Complete? || step.CancelSwept?) && P.Possible(db, step)
    ensures KeepsSources(db, P.Apply(db, cfg, step).disk)
  {
    hide P.Apply, KeepsSources;
    P.UploadApplied(db, cfg, step);
    match step
    case PutPart(user, s, k, body) => PutKeepsSources(db, user, s, k, body);
    case Complete(user, s, watermark) => CompleteKeepsSources(db, user, s, watermark);
    case CancelSwept(s) => CancelKeepsSources(db, s);
  }

  lemma SameDiskKeepsSources(db: Db)
    ensures KeepsSources(db, db.disk)
  {
  }

  lemma FileKeepsSources(db: Db, cfg: Config, step: P.Step)
    requires Links.Linked(db) && Intents(db) && Readings(db)
    requires P.FileStep(step) && !RowStep(step) && !step.TrySweepStaging? && P.Possible(db, step)
    ensures KeepsSources(db, P.Apply(db, cfg, step).disk)
  {
    hide P.Apply, KeepsSources;
    P.FileApplied(db, cfg, step);
    match step
    case PutPartRolledBack(user, s, k, body) => PutKeepsSources(db, user, s, k, body);
    case CompleteInterrupted(user, s, n, listed) => InterruptedKeepsSources(db, user, s, n, listed);
    case Restore(s, n) => RestoreKeepsSources(db, s, n);
    case PromoteTarget(t) => PromoteTargetKeepsSources(db, t);
    case Inspect(_) => SameDiskKeepsSources(db);
    case RemoveSource(t) => RemoveSourceKeepsSources(db, t);
    case CleanupFiles(paths) => CleanupRetains(db, paths); RemovalKeepsSources(db, paths);
    case Deliver(e, n, acknowledged) => DeliverKeepsSources(db, e, n, acknowledged);
  }

  lemma StepKeepsSources(db: Db, cfg: Config, step: P.Step)
    requires Links.Linked(db) && Intents(db) && Readings(db)
    ensures KeepsSources(db, P.Apply(db, cfg, step).disk)
  {
    hide P.Apply, KeepsSources;
    SameDiskKeepsSources(db);
    if !P.Possible(db, step) {
      P.Impossible(db, cfg, step);
    } else if RowStep(step) {
      RowStepFiles(db, cfg, step);
    } else if P.LeaseStep(step) || step.TrySweepStaging? {
      LeaseStepReadings(db, cfg, step);
    } else if P.UploadStep(step) {
      UploadKeepsSources(db, cfg, step);
    } else if P.FileStep(step) {
      FileKeepsSources(db, cfg, step);
    } else {
      P.SweepApplied(db, cfg, step);
      if step.RemoveFiles? {
        RemoveFilesKeepsSources(db, step.sweep);
      } else {
        CleanOrphanKeepsSources(db, step.session);
      }
    }
  }

  // ----- Sessions -----

  /** Sessions after a step stopped, are as before, or have what SourceOk asks. */
  ghost predicate SessionsOk(db: Db, db': Db)
  {
    forall s :: s in db'.sessions ==>
      Stopped(db'.sessions[s]) || (s in db.sessions && db'.sessions[s] == db.sessions[s]) || SourceOk(db', s)
  }

  lemma InitSessions(db: Db, cfg: Config, user: nat, key: string, req: seq<PartManifest>, seen: Time)
    ensures SessionsOk(db, Init(db, cfg, user, key, req, seen).0)
  {
    var db' := Init(db, cfg, user, key, req, seen).0;
    if db' != db {
      ManifestCharacterised(req, cfg.maxPartBytes);
      assert SourceOk(db', db.nextSession);
    }
  }

  lemma PutSessions(db: Db, user: nat, s: nat, k: Kind, body: Blob)
    requires Sourced(db)
    ensures SessionsOk(db, PutPart(db, user, s, k, body).0)
  {
    var db' := PutPart(db, user, s, k, body).0;
    if db' != db {
      assert SourceOk(db, s);
      assert SourceOk(db', s);
    }
  }

  lemma EnterSessions(db: Db, s: nat, disk: Disk, watermark: bool)
    requires s in db.sessions && (forall k :: k in UPLOAD_KINDS ==> k in db.sessions[s].parts)
    requires SourceReceived(db.sessions[s]) && HasSource(disk, s)
    ensures SessionsOk(db, EnterProcessing(db, s, disk, watermark))
  {
  }

  lemma CompleteSessions(db: Db, user: nat, s: nat, watermark: bool)
    requires Sourced(db)
    ensures SessionsOk(db, Complete(db, user, s, watermark).0)
  {
    var db' := Complete(db, user, s, watermark).0;
    if Complete(db, user, s, watermark).1.Entered? {
      assert SourceOk(db, s);
      CompleteKeepsSources(db, user, s, watermark);
      EnterSessions(db, s, db'.disk, watermark);
    }
  }

  lemma CancelSessions(db: Db, user: nat, s: nat)
    ensures SessionsOk(db, Cancel(db, user, s).0)
  {
    var r := Cancel(db, user, s);
    if r.1 {
      assert Stopped(r.0.sessions[s]);
    }
  }

  lemma CancelSweepSessions(db: Db, s: nat)
    ensures SessionsOk(db, CancelSweepFailed(db, s))
  {
    var db' := CancelSweepFailed(db, s);
    if db' != db {
      assert Stopped(db'.sessions[s]);
    }
  }

  lemma CommitSessions(db: Db, t: nat)
    requires t in db.claims && db.claims[t].inspected.Some? && db.claims[t].stagingClean.Some?
    ensures SessionsOk(db, Commit(db, t).0)
  {
  }

  lemma FailSessions(db: Db, t: nat, overQuota: bool)
    requires Links.Linked(db)
    ensures SessionsOk(db, Fail(db, t, overQuota).0)
  {
    if Fenced(db.jobs, db.claims, t) && Fail(db, t, overQuota).0 == Bury(db, db.claims[t].image) {
      Lifecycle.BuriesOnly(db, db.claims[t].image);
    }
  }

  lemma DeleteSessions(db: Db, user: nat, isAdmin: bool, i: nat)
    requires Links.Linked(db)
    ensures SessionsOk(db, Deletion.DeleteImage(db, user, isAdmin, i).0)
  {
    if Deletion.DeleteImage(db, user, isAdmin, i).1.Deleted? {
      assert Links.ImageOk(db, i) && Links.JobOk(db, i);
      Links.JobIsolated(db, i);
    }
  }

  lemma ClaimSessions(db: Db, n: nat, seen: Time)
    ensures SessionsOk(db, Sweeping.ClaimSweep(db, n, seen).0)
  {
  }

  lemma FinishSessions(db: Db, n: nat, at: Time)
    requires Links.Linked(db)
    ensures SessionsOk(db, Sweeping.Finish(db, n, at).0)
  {
    var r := Sweeping.Finish(db, n, at);
    if r.1 {
      assert Links.SweepOk(db, n);
      assert Stopped(r.0.sessions[db.sweeps[n].session]);
    }
  }

  lemma SameSessionsOk(db: Db, db': Db)
    requires db'.sessions == db.sessions
    ensures SessionsOk(db, db')
  {
  }

  lemma UploadSessions(db: Db, cfg: Config, step: P.Step)
    requires Sourced(db) && P.UploadStep(step) && P.Possible(db, step)
    ensures SessionsOk(db, P.Apply(db, cfg, step))
  {
    hide P.Apply, SessionsOk;
    P.UploadApplied(db, cfg, step);
    match step
    case Init(user, key, req, seen) => InitSessions(db, cfg, user, key, req, seen);
    case PutPart(user, s, k, body) => PutSessions(db, user, s, k, body);
    case Complete(user, s, watermark) => CompleteSessions(db, user, s, watermark);
    case Cancel(user, s) => CancelSessions(db, user, s);
    case CancelSwept(s) => SameSessionsOk(db, CancelSwept(db, s));
    case CancelSweepFailed(s) => CancelSweepSessions(db, s);
  }

  lemma EndSessions(db: Db, cfg: Config, step: P.Step)
    requires Links.Linked(db) && P.EndStep(step) && P.Possible(db, step)
    ensures SessionsOk(db, P.Apply(db, cfg, step))
  {
    hide P.Apply, SessionsOk, Links.Linked;
    P.EndApplied(db, cfg, step);
    match step
    case Commit(t) => CommitSessions(db, t);
    case Fail(t, overQuota) => FailSessions(db, t, overQuota);
    case DeleteImage(user, isAdmin, i) => DeleteSessions(db, user, isAdmin, i);
    case ClaimSweep(n, seen) => ClaimSessions(db, n, seen);
    case Finish(n, at) => FinishSessions(db, n, at);
  }

  lemma StepSessions(db: Db, cfg: Config, step: P.Step)
    requires Links.Linked(db) && Sourced(db)
    ensures SessionsOk(db, P.Apply(db, cfg, step))
  {
    hide P.Apply, SessionsOk, Links.Linked, Sourced;
    var db' := P.Apply(db, cfg, step);
    if !P.Possible(db, step) {
      P.Impossible(db, cfg, step);
      SameSessionsOk(db, db');
    } else if P.FileStep(step) {
      Links.FileStepRows(db, cfg, step);
      SameSessionsOk(db, db');
    } else if P.LeaseStep(step) {
      Links.LeaseStepRows(db, cfg, step);
      SameSessionsOk(db, db');
    } else if P.SweepStep(step) {
      Links.SweepStepRows(db, cfg, step);
      SameSessionsOk(db, db');
    } else if P.UploadStep(step) {
      UploadSessions(db, cfg, step);
    } else {
      EndSessions(db, cfg, step);
    }
  }

  lemma StepKeepsSourced(db: Db, cfg: Config, step: P.Step)
    requires Links.Linked(db) && Intents(db) && Readings(db) && Sourced(db)
    ensures Sourced(P.Apply(db, cfg, step))
  {
    hide P.Apply;
    StepRetains(db, cfg, step);
    StepKeepsSources(db, cfg, step);
    StepSessions(db, cfg, step);
    SourcesStep(db, P.Apply(db, cfg, step));
  }

  /** The target is there, or what shall become it does not have to be rendered or is. */
  predicate Rendered(db: Db, t: nat)
  {
    t in db.claims && db.claims[t].image in db.jobs &&
    (PublishTarget(db.claims[t].image) in db.disk || !db.jobs[db.claims[t].image].watermark || t in db.renderings)
  }

  /** A live job always finds its publish source in staging or its target already published, so the promotion
      of its lease holder fails only for want of the rendering that it has to make itself. */
  lemma LiveJobCanPublish(db: Db, t: nat)
    requires Links.Linked(db) && Sourced(db)
    ensures PromoteTarget(db, t).1 <==> Fenced(db.jobs, db.claims, t) && Rendered(db, t)
    ensures forall i :: LiveJob(db.jobs, i) ==> HasSource(db.disk, db.jobs[i].session) || PublishTarget(i) in db.disk
  {
    forall i | LiveJob(db.jobs, i)
      ensures HasSource(db.disk, db.jobs[i].session) || PublishTarget(i) in db.disk
    {
      assert Links.JobOk(db, i) && SourceOk(db, db.jobs[i].session);
    }
  }
}
