/** Which files stay: no step removes a stored file or a publish target that a row names or that
    a live job still needs, and every live job can still be published. */
module Retention {
  import opened Collections
  import opened Rows
  import opened Upload
  import opened Publish
  import opened Accounting
  import opened Storage
  import Deletion
  import Fencing
  import Links
  import Sweeping
  import P = Pipeline

  // ----- What deletion events name -----

  /** Targets of jobs that are over, staging of sessions that stopped, or stored files. */
  ghost predicate Removable(db: Db, p: Path)
  {
    match p
    case Stored(_, _) => true
    case PublishTarget(i) => Fencing.Over(db.jobs, i)
    case Staged(s, _) => s in db.sessions && Stopped(db.sessions[s])
  }

  ghost predicate EventOk(db: Db, e: nat)
    requires e < |db.events|
  {
    forall p :: p in db.events[e].paths ==> Removable(db, p)
  }

  ghost predicate Intents(db: Db)
  {
    forall e: nat {:trigger EventOk(db, e)} :: e < |db.events| ==> EventOk(db, e)
  }

  lemma StaysRemovable(db: Db, db': Db, p: Path)
    requires Lasting(db, db') && Fencing.Progress(db, db') && Removable(db, p)
    ensures Removable(db', p)
  {
    match p
    case Stored(_, _) =>
    case PublishTarget(i) => assert Fencing.JobNext(db.jobs, db'.jobs, db.nextToken, i);
    case Staged(s, _) => assert SessionNext(db.sessions, db'.sessions, db.clock, s);
  }

  lemma IntentsStep(db: Db, db': Db)
    requires Intents(db) && Lasting(db, db') && Fencing.Progress(db, db') && |db.events| <= |db'.events|
    requires forall e: nat :: e < |db.events| ==> db'.events[e].paths == db.events[e].paths
    requires forall e: nat :: |db.events| <= e < |db'.events| ==> forall p :: p in db'.events[e].paths ==>
               Removable(db', p)
    ensures Intents(db')
  {
    forall e: nat | e < |db'.events|
      ensures EventOk(db', e)
    {
      if e < |db.events| {
        assert EventOk(db, e);
        forall p | p in db'.events[e].paths
          ensures Removable(db', p)
        {
          StaysRemovable(db, db', p);
        }
      }
    }
  }

  lemma DeadPathsAre(db: Db, i: nat, p: Path)
    requires i in db.images && p in DeadPaths(db, i)
    ensures p == PublishTarget(i) || NamedBy(db.images[i].variants, p) ||
            (db.images[i].file in db.files &&
             (p == db.files[db.images[i].file].original || p == db.files[db.images[i].file].thumbnail))
  {
    VariantPathsAre(db.images[i].variants);
  }

  /** The intents of a dead job: its target, its variants and perhaps its file. */
  lemma DeadPathsRemovable(db: Db, i: nat)
    requires Links.Linked(db) && Counted(db) && LiveJob(db.jobs, i)
    ensures forall p :: p in DeadPaths(db, i) ==> Removable(Bury(db, i), p)
  {
    hide Bury, DeadPaths;
    assert Links.JobOk(db, i) && HasFile(db, i) && CountOk(db, db.images[i].file);
    BuriedRows(db, i);
    forall p | p in DeadPaths(db, i)
      ensures Removable(Bury(db, i), p)
    {
      DeadPathsAre(db, i, p);
    }
  }

  lemma BuriedRows(db: Db, i: nat)
    requires i in db.jobs && db.jobs[i].session in db.sessions
    ensures Fencing.Over(Bury(db, i).jobs, i)
    ensures db.jobs[i].session in Bury(db, i).sessions && Stopped(Bury(db, i).sessions[db.jobs[i].session])
  {
  }

  lemma DeletePathsRemovable(db: Db, i: nat)
    requires Links.Linked(db) && Counted(db) && i in db.images && db.images[i].status == ImageCompleted
    ensures db.images[i].file in db.files
    ensures forall p :: p in Deletion.DeletePaths(db, i) ==> Removable(Deletion.DeleteRows(db, i), p)
  {
    assert Links.ImageOk(db, i) && HasFile(db, i) && CountOk(db, db.images[i].file);
    VariantPathsAre(db.images[i].variants);
  }

  lemma FailIntents(db: Db, t: nat, overQuota: bool)
    requires Links.Linked(db) && Counted(db) && Intents(db)
    ensures Intents(Fail(db, t, overQuota).0)
  {
    var db' := Fail(db, t, overQuota).0;
    FailLasts(db, t, overQuota);
    Fencing.FailProgress(db, t, overQuota);
    if Fenced(db.jobs, db.claims, t) {
      var i := db.claims[t].image;
      if db' == Bury(db, i) {
        DeadPathsRemovable(db, i);
      }
    }
    IntentsStep(db, db');
  }

  lemma DeleteIntents(db: Db, user: nat, isAdmin: bool, i: nat)
    requires Links.Linked(db) && Counted(db) && Intents(db)
    ensures Intents(Deletion.DeleteImage(db, user, isAdmin, i).0)
  {
    var db' := Deletion.DeleteImage(db, user, isAdmin, i).0;
    DeleteLasts(db, user, isAdmin, i);
    Fencing.DeleteProgress(db, user, isAdmin, i);
    if db' != db {
      DeletePathsRemovable(db, i);
      IntentsStep(db, db');
    }
  }

  lemma OtherStepKeepsEvents(db: Db, cfg: Config, step: P.Step)
    requires !step.Fail? && !step.DeleteImage?
    ensures var db' := P.Apply(db, cfg, step);
            |db'.events| == |db.events| && forall e: nat :: e < |db.events| ==>
              db'.events[e].paths == db.events[e].paths
    ensures !step.Deliver? ==> P.Apply(db, cfg, step).events == db.events
  {
    hide P.Apply;
    if P.SweepStep(step) {
      Links.SweepStepRows(db, cfg, step);
    } else if P.LeaseStep(step) {
      Links.LeaseStepRows(db, cfg, step);
    } else if P.UploadStep(step) {
      Links.UploadStepRows(db, cfg, step);
    } else if P.EndStep(step) {
      Links.EndStepRows(db, cfg, step);
    } else if !P.Possible(db, step) {
      P.Impossible(db, cfg, step);
    } else if step.Deliver? {
      P.FileApplied(db, cfg, step);
      DeliverKeepsPaths(db, step.event, step.count, step.acknowledged);
    } else {
      FileStepKeepsEvents(db, cfg, step);
    }
  }

  lemma FileStepKeepsEvents(db: Db, cfg: Config, step: P.Step)
    requires P.FileStep(step) && !step.Deliver? && P.Possible(db, step)
    ensures P.Apply(db, cfg, step).events == db.events
  {
    hide P.Apply, Upload.PutPartRolledBack, Upload.CompleteInterrupted, Upload.Restore, Publish.PromoteTarget,
         Publish.Inspect, Publish.RemoveSource, Publish.TrySweepStaging, Deletion.CleanupFiles;
    P.FileApplied(db, cfg, step);
  }

  lemma DeliverKeepsPaths(db: Db, e: nat, n: nat, acknowledged: bool)
    ensures var db' := Deletion.Deliver(db, e, n, acknowledged);
            |db'.events| == |db.events| && forall e: nat :: e < |db.events| ==>
              db'.events[e].paths == db.events[e].paths
  {
  }

  lemma OtherStepKeepsIntents(db: Db, cfg: Config, step: P.Step)
    requires Links.Linked(db) && Fencing.Leased(db) && Intents(db) && !step.Fail? && !step.DeleteImage?
    ensures Intents(P.Apply(db, cfg, step))
  {
    hide P.Apply;
    StepLasts(db, cfg, step);
    Fencing.StepProgress(db, cfg, step);
    OtherStepKeepsEvents(db, cfg, step);
    IntentsStep(db, P.Apply(db, cfg, step));
  }

  lemma StepKeepsIntents(db: Db, cfg: Config, step: P.Step)
    requires Links.Linked(db) && Fencing.Leased(db) && Counted(db) && Intents(db)
    ensures Intents(P.Apply(db, cfg, step))
  {
    hide P.Apply, Intents, Links.Linked, Fencing.Leased, Counted;
    if !P.Possible(db, step) {
      P.Impossible(db, cfg, step);
    } else if step.Fail? {
      P.EndApplied(db, cfg, step);
      FailIntents(db, step.token, step.overQuota);
    } else if step.DeleteImage? {
      P.EndApplied(db, cfg, step);
      DeleteIntents(db, step.user, step.isAdmin, step.image);
    } else {
      OtherStepKeepsIntents(db, cfg, step);
    }
  }

  // ----- What stays on disk -----

  predicate Stays(p: Path, a: Disk, b: Disk)
    requires p in a
  {
    p in b && b[p] == a[p]
  }

  /** Stored files and publish targets stay as they are, unless no row and no live job wants them. */
  ghost predicate Retains(db: Db, disk: Disk)
  {
    forall p :: p in db.disk && !p.Staged? ==>
      Stays(p, db.disk, disk) || (!Referenced(db.images, db.files, p) &&
                                  (p.PublishTarget? ==> !LiveJob(db.jobs, p.image)))
  }

  lemma {:induction false} PromotionRetains(disk: Disk, s: nat, parts: Parts, n: nat)
    requires n <= |PROMOTED| && forall k :: k in PROMOTED ==> k in parts
    ensures var after := PromoteFirst(disk, s, parts, n).disk;
            forall p :: p in disk && (p.Staged? ==> p.session != s || p.part !in PROMOTED[..n]) ==>
              Stays(p, disk, after)
  {
    if n > 0 {
      PromotionRetains(disk, s, parts, n - 1);
      assert PROMOTED[..n] == PROMOTED[..n - 1] + [PROMOTED[n - 1]];
    }
  }

  lemma {:induction false} RestoreRetains(disk: Disk, s: nat, parts: Parts, n: nat)
    requires n <= |PROMOTED| && forall k :: k in PROMOTED ==> k in parts
    ensures forall p :: p in disk ==> Stays(p, disk, RestoreFirst(disk, s, parts, n).disk)
  {
    if n > 0 {
      RestoreRetains(disk, s, parts, n - 1);
    }
  }

  lemma RemovalRetains(db: Db, paths: seq<Path>)
    requires forall p :: p in paths ==> Removable(db, p)
    ensures Retains(db, RemoveUnreferenced(db.images, db.files, db.disk, paths))
  {
    Deletion.Survivors(db.images, db.files, db.disk, paths);
  }

  lemma CleanupRetains(db: Db, paths: seq<Path>)
    requires Intents(db) && P.Possible(db, P.CleanupFiles(paths))
    ensures (forall p :: p in paths ==> Removable(db, p)) && Retains(db, Deletion.CleanupFiles(db, paths).disk)
  {
    if exists p :: p in paths && !p.Stored? {
      var e: nat :| e < |db.events| && db.events[e].paths == paths;
      assert EventOk(db, e);
    }
    RemovalRetains(db, paths);
  }

  lemma DeliverRetains(db: Db, e: nat, n: nat, acknowledged: bool)
    requires Intents(db)
    ensures Retains(db, Deletion.Deliver(db, e, n, acknowledged).disk)
  {
    if e < |db.events| && !db.events[e].published && n <= |db.events[e].paths| {
      assert EventOk(db, e);
      RemovalRetains(db, db.events[e].paths[..n]);
    }
  }

  lemma CompleteRetains(db: Db, user: nat, s: nat, watermark: bool)
    ensures Retains(db, Complete(db, user, s, watermark).0.disk)
  {
    if CompleteGuard(db, user, s) == None {
      PromotionRetains(db.disk, s, db.sessions[s].parts, |PROMOTED|);
    }
  }

  lemma InterruptedRetains(db: Db, user: nat, s: nat, n: nat, listed: nat)
    requires n <= |PROMOTED|
    ensures Retains(db, CompleteInterrupted(db, user, s, n, listed).disk)
  {
    if CompleteGuard(db, user, s) == None {
      PromotionRetains(db.disk, s, db.sessions[s].parts, n);
    }
  }

  lemma RestoreStepRetains(db: Db, s: nat, n: nat)
    requires n <= |PROMOTED|
    ensures Retains(db, Restore(db, s, n).0.disk)
  {
    if s in db.sessions && forall k :: k in PROMOTED ==> k in db.sessions[s].parts {
      RestoreRetains(db.disk, s, db.sessions[s].parts, n);
    }
  }

  lemma PutRetains(db: Db, user: nat, s: nat, k: Kind, body: Blob)
    ensures Retains(db, PutPart(db, user, s, k, body).0.disk)
  {
    if PutPart(db, user, s, k, body).0 != db {
      assert PutPart(db, user, s, k, body).0.disk == db.disk[Staged(s, k) := body];
    }
  }

  lemma PromoteTargetRetains(db: Db, t: nat)
    ensures Retains(db, PromoteTarget(db, t).0.disk)
  {
    PromotedDisk(db, t);
    hide PromoteTarget;
  }

  lemma RemoveSourceRetains(db: Db, t: nat)
    ensures Retains(db, RemoveSource(db, t).disk)
  {
  }

  lemma StagingRetains(db: Db, s: nat)
    ensures Retains(db, RemoveStaging(db.disk, s))
  {
  }

  lemma CancelSweptRetains(db: Db, s: nat)
    ensures Retains(db, CancelSwept(db, s).disk)
  {
    hide Retains, RemoveStaging;
    SameDiskRetains(db);
    StagingRetains(db, s);
  }

  lemma SweptRetains(db: Db, step: P.Step)
    requires step.RemoveFiles? || step.CleanOrphan?
    ensures Retains(db, P.ApplySweep(db, step).disk)
  {
    hide Retains, RemoveStaging;
    SameDiskRetains(db);
    if step.CleanOrphan? {
      StagingRetains(db, step.session);
    } else if step.sweep in db.sweeps {
      StagingRetains(db, db.sweeps[step.sweep].session);
    }
  }

  lemma UploadRetains(db: Db, cfg: Config, step: P.Step)
    requires (step.PutPart? || step.Complete? || step.CancelSwept?) && P.Possible(db, step)
    ensures Retains(db, P.Apply(db, cfg, step).disk)
  {
    hide P.Apply, Retains;
    P.UploadApplied(db, cfg, step);
    match step
    case PutPart(user, s, k, body) => PutRetains(db, user, s, k, body);
    case Complete(user, s, watermark) => CompleteRetains(db, user, s, watermark);
    case CancelSwept(s) => CancelSweptRetains(db, s);
  }

  lemma SameDiskRetains(db: Db)
    ensures Retains(db, db.disk)
  {
  }

  lemma FileRetains(db: Db, cfg: Config, step: P.Step)
    requires Intents(db) && P.FileStep(step) && !RowStep(step) && !step.TrySweepStaging? && P.Possible(db, step)
    ensures Retains(db, P.Apply(db, cfg, step).disk)
  {
    hide P.Apply, Retains;
    P.FileApplied(db, cfg, step);
    match step
    case PutPartRolledBack(user, s, k, body) => PutRetains(db, user, s, k, body);
    case CompleteInterrupted(user, s, n, listed) => InterruptedRetains(db, user, s, n, listed);
    case Restore(s, n) => RestoreStepRetains(db, s, n);
    case PromoteTarget(t) => PromoteTargetRetains(db, t);
    case Inspect(_) => SameDiskRetains(db);
    case RemoveSource(t) => RemoveSourceRetains(db, t);
    case CleanupFiles(paths) => CleanupRetains(db, paths);
    case Deliver(e, n, acknowledged) => DeliverRetains(db, e, n, acknowledged);
  }

  lemma StepRetains(db: Db, cfg: Config, step: P.Step)
    requires Intents(db)
    ensures Retains(db, P.Apply(db, cfg, step).disk)
  {
    hide P.Apply, Retains;
    SameDiskRetains(db);
    if !P.Possible(db, step) {
      P.Impossible(db, cfg, step);
    } else if RowStep(step) {
      RowStepFiles(db, cfg, step);
    } else if P.LeaseStep(step) || step.TrySweepStaging? {
      LeaseStepReadings(db, cfg, step);
    } else if P.UploadStep(step) {
      UploadRetains(db, cfg, step);
    } else if P.FileStep(step) {
      FileRetains(db, cfg, step);
    } else {
      P.SweepApplied(db, cfg, step);
      SweptRetains(db, step);
    }
  }
}
