/** Exactly when a step removes a file that a row names. */
module Removal {
  import opened Collections
  import opened Rows
  import opened Upload
  import opened Publish
  import opened Accounting
  import opened Storage
  import opened Retention
  import Exclusion
  import Links
  import P = Pipeline

  /** The publish of job i takes its staged source: by rename, or after the target was inspected. */
  predicate TakesSource(db: Db, step: P.Step, p: Path)
  {
    match step
    case PromoteTarget(t) =>
      P.Possible(db, step) && Fenced(db.jobs, db.claims, t) && !db.jobs[db.claims[t].image].watermark &&
      PublishTarget(db.claims[t].image) !in db.disk && p == SourceOf(db.jobs[db.claims[t].image])
    case RemoveSource(t) =>
      t in db.claims && db.claims[t].inspected.Some? && LiveJob(db.jobs, db.claims[t].image) &&
      p == SourceOf(db.jobs[db.claims[t].image])
    case _ => false
  }

  /** A row that names a staged path is the publish source of a processing image. */
  lemma StagedNames(db: Db, p: Path)
    requires Links.Linked(db) && Counted(db) && p.Staged?
    ensures Referenced(db.images, db.files, p) <==> exists i :: LiveJob(db.jobs, i) && p == SourceOf(db.jobs[i])
  {
    if Referenced(db.images, db.files, p) {
      forall h | h in db.files
        ensures db.files[h].original != p && db.files[h].thumbnail != p
      {
        assert CountOk(db, h);
      }
      var i :| i in db.images && NamedBy(db.images[i].variants, p);
      assert Links.ImageOk(db, i) && Links.JobOk(db, i);
      assert LiveJob(db.jobs, i) && p == SourceOf(db.jobs[i]);
    }
    if i :| LiveJob(db.jobs, i) && p == SourceOf(db.jobs[i]) {
      SourceNamed(db, i);
    }
  }

  lemma SourceNamed(db: Db, i: nat)
    requires Links.Linked(db) && LiveJob(db.jobs, i)
    ensures Referenced(db.images, db.files, SourceOf(db.jobs[i]))
  {
    assert Links.JobOk(db, i);
    var variants := db.images[i].variants;
    assert variants[PublishSource].path == SourceOf(db.jobs[i]);
    assert NamedBy(variants, SourceOf(db.jobs[i]));
  }

  lemma CompleteSparesSource(db: Db, user: nat, s: nat, watermark: bool, r: nat)
    requires Staged(r, PublishSource) in db.disk
    ensures Staged(r, PublishSource) in Complete(db, user, s, watermark).0.disk
  {
    if CompleteGuard(db, user, s) == None {
      PromotionRetains(db.disk, s, db.sessions[s].parts, |PROMOTED|);
      assert PublishSource !in PROMOTED[..|PROMOTED|];
    }
  }

  lemma InterruptedSparesSource(db: Db, user: nat, s: nat, n: nat, listed: nat, r: nat)
    requires Staged(r, PublishSource) in db.disk && n <= |PROMOTED|
    ensures Staged(r, PublishSource) in CompleteInterrupted(db, user, s, n, listed).disk
  {
    if CompleteGuard(db, user, s) == None {
      PromotionRetains(db.disk, s, db.sessions[s].parts, n);
      assert PublishSource !in PROMOTED[..n];
    }
  }

  lemma RestoreSparesSource(db: Db, s: nat, n: nat, r: nat)
    requires Staged(r, PublishSource) in db.disk && n <= |PROMOTED|
    ensures Staged(r, PublishSource) in Restore(db, s, n).0.disk
  {
    if s in db.sessions && forall k :: k in PROMOTED ==> k in db.sessions[s].parts {
      RestoreRetains(db.disk, s, db.sessions[s].parts, n);
    }
  }

  lemma PublishTakes(db: Db, t: nat, p: Path)
    requires p in db.disk && p.Staged?
    ensures p in PromoteTarget(db, t).0.disk <==> !TakesSource(db, P.PromoteTarget(t), p)
  {
    PromotedDisk(db, t);
    hide PromoteTarget;
  }

  lemma RemoveTakes(db: Db, t: nat, s: nat)
    requires Links.Linked(db) && s in db.sessions && !Stopped(db.sessions[s]) && Staged(s, PublishSource) in db.disk
    ensures Staged(s, PublishSource) in RemoveSource(db, t).disk <==>
            !TakesSource(db, P.RemoveSource(t), Staged(s, PublishSource))
  {
    if t in db.claims && db.claims[t].image in db.jobs {
      assert Links.JobOk(db, db.claims[t].image);
    }
  }

  lemma UploadSparesSource(db: Db, cfg: Config, step: P.Step, s: nat)
    requires Staged(s, PublishSource) in db.disk && (step.PutPart? || step.Complete?) && P.Possible(db, step)
    ensures Staged(s, PublishSource) in P.Apply(db, cfg, step).disk
  {
    hide P.Apply;
    P.UploadApplied(db, cfg, step);
    if step.Complete? {
      CompleteSparesSource(db, step.user, step.session, step.watermark, s);
    }
  }

  lemma FileTakes(db: Db, cfg: Config, step: P.Step, s: nat)
    requires Links.Linked(db) && s in db.sessions && !Stopped(db.sessions[s]) && Staged(s, PublishSource) in db.disk
    requires P.FileStep(step) && !RowStep(step) && !step.TrySweepStaging? && !Exclusion.RemovesStaging(step) &&
             P.Possible(db, step)
    ensures Staged(s, PublishSource) !in P.Apply(db, cfg, step).disk <==>
            TakesSource(db, step, Staged(s, PublishSource))
  {
    hide P.Apply;
    P.FileApplied(db, cfg, step);
    match step
    case PutPartRolledBack(_, _, _, _) =>
    case CompleteInterrupted(user, r, n, listed) => InterruptedSparesSource(db, user, r, n, listed, s);
    case Restore(r, n) => RestoreSparesSource(db, r, n, s);
    case PromoteTarget(t) => PublishTakes(db, t, Staged(s, PublishSource));
    case Inspect(_) =>
    case RemoveSource(t) => RemoveTakes(db, t, s);
  }

  lemma RowStepTakesNothing(db: Db, cfg: Config, step: P.Step, s: nat)
    requires Staged(s, PublishSource) in db.disk && (RowStep(step) || P.LeaseStep(step) || step.TrySweepStaging?)
    ensures Staged(s, PublishSource) in P.Apply(db, cfg, step).disk
  {
    hide P.Apply;
    if RowStep(step) {
      RowStepFiles(db, cfg, step);
    } else {
      LeaseStepReadings(db, cfg, step);
    }
  }

  lemma SourceTaken(db: Db, cfg: Config, step: P.Step, s: nat)
    requires Links.Linked(db) && Intents(db) && s in db.sessions && !Stopped(db.sessions[s])
    requires Staged(s, PublishSource) in db.disk
    ensures Staged(s, PublishSource) !in P.Apply(db, cfg, step).disk <==>
            TakesSource(db, step, Staged(s, PublishSource))
  {
    hide P.Apply, Links.Linked, Intents;
    if RowStep(step) || P.LeaseStep(step) || step.TrySweepStaging? {
      RowStepTakesNothing(db, cfg, step, s);
    } else if Exclusion.RemovesStaging(step) {
      Exclusion.CleanupSparesRunning(db, cfg, step, s, PublishSource);
    } else if !P.Possible(db, step) {
      P.Impossible(db, cfg, step);
    } else if P.UploadStep(step) {
      UploadSparesSource(db, cfg, step, s);
    } else {
      FileTakes(db, cfg, step, s);
    }
  }

  lemma UnchangedRows(db: Db, cfg: Config, step: P.Step)
    requires step.CleanupFiles? || step.Deliver? || step.PromoteTarget? || step.RemoveSource?
    ensures var db' := P.Apply(db, cfg, step);
            db'.images == db.images && db'.files == db.files && db'.jobs == db.jobs && db'.sessions == db.sessions
  {
    hide P.Apply;
    Links.FileStepRows(db, cfg, step);
  }

  lemma UploadSparesStored(db: Db, cfg: Config, step: P.Step, p: Path)
    requires p in db.disk && !p.Staged? && (step.PutPart? || step.Complete? || step.CancelSwept?) &&
             P.Possible(db, step)
    ensures p in P.Apply(db, cfg, step).disk
  {
    hide P.Apply;
    P.UploadApplied(db, cfg, step);
    if step.Complete? {
      CompleteSparesStored(db, step.user, step.session, step.watermark, p);
    }
  }

  lemma FileSparesStored(db: Db, cfg: Config, step: P.Step, p: Path)
    requires p in db.disk && !p.Staged? && P.FileStep(step) && !step.CleanupFiles? && !step.Deliver? &&
             P.Possible(db, step)
    ensures p in P.Apply(db, cfg, step).disk
  {
    hide P.Apply, Upload.CompleteInterrupted, Upload.Restore, Publish.PromoteTarget, Publish.TrySweepStaging,
         Publish.Inspect, Deletion.CleanupFiles, Deletion.Deliver;
    P.FileApplied(db, cfg, step);
    match step
    case PromoteTarget(t) => PromotedDisk(db, t);
    case CompleteInterrupted(user, s, n, listed) => InterruptedSparesStored(db, user, s, n, listed, p);
    case Restore(s, n) => RestoreSparesStored(db, s, n, p);
    case _ =>
  }

  lemma SweepSparesStored(db: Db, cfg: Config, step: P.Step, p: Path)
    requires p in db.disk && !p.Staged? && P.SweepStep(step) && P.Possible(db, step)
    ensures p in P.Apply(db, cfg, step).disk
  {
    hide P.Apply;
    P.SweepApplied(db, cfg, step);
  }

  /** Stored files and publish targets only go when no row of the same moment names them. */
  lemma StoredRemoval(db: Db, cfg: Config, step: P.Step, p: Path)
    requires Intents(db) && p in db.disk && p !in P.Apply(db, cfg, step).disk && !p.Staged?
    ensures (step.CleanupFiles? || step.Deliver?) && !Referenced(db.images, db.files, p)
  {
    hide P.Apply;
    StepRetains(db, cfg, step);
    if step.CleanupFiles? || step.Deliver? {
    } else if !P.Possible(db, step) {
      P.Impossible(db, cfg, step);
    } else if RowStep(step) {
      RowStepFiles(db, cfg, step);
    } else if P.LeaseStep(step) {
      LeaseStepReadings(db, cfg, step);
    } else if P.UploadStep(step) {
      UploadSparesStored(db, cfg, step, p);
    } else if P.FileStep(step) {
      FileSparesStored(db, cfg, step, p);
    } else {
      SweepSparesStored(db, cfg, step, p);
    }
  }

  lemma CompleteSparesStored(db: Db, user: nat, s: nat, watermark: bool, p: Path)
    requires p in db.disk && !p.Staged?
    ensures p in Complete(db, user, s, watermark).0.disk
  {
    if CompleteGuard(db, user, s) == None {
      PromotionRetains(db.disk, s, db.sessions[s].parts, |PROMOTED|);
    }
  }

  lemma InterruptedSparesStored(db: Db, user: nat, s: nat, n: nat, listed: nat, p: Path)
    requires p in db.disk && !p.Staged? && n <= |PROMOTED|
    ensures p in CompleteInterrupted(db, user, s, n, listed).disk
  {
    if CompleteGuard(db, user, s) == None {
      PromotionRetains(db.disk, s, db.sessions[s].parts, n);
    }
  }

  lemma RestoreSparesStored(db: Db, s: nat, n: nat, p: Path)
    requires p in db.disk && n <= |PROMOTED|
    ensures p in Restore(db, s, n).0.disk
  {
    if s in db.sessions && forall k :: k in PROMOTED ==> k in db.sessions[s].parts {
      RestoreRetains(db.disk, s, db.sessions[s].parts, n);
    }
  }

  /** A step removes a file that a row still names afterwards exactly when a publish takes its own
      staged source, whose row it replaces when it commits. */
  lemma NamedFileRemoved(db: Db, cfg: Config, step: P.Step, p: Path)
    requires Links.Linked(db) && Contents(db) && Counted(db) && Intents(db) && p in db.disk
    ensures var db' := P.Apply(db, cfg, step);
            p !in db'.disk && Referenced(db'.images, db'.files, p) <==> TakesSource(db, step, p)
  {
    hide P.Apply;
    var db' := P.Apply(db, cfg, step);
    if TakesSource(db, step, p) {
      var i := db.claims[step.token].image;
      assert Links.JobOk(db, i);
      UnchangedRows(db, cfg, step);
      SourceNamed(db, i);
      SourceTaken(db, cfg, step, db.jobs[i].session);
    } else if p !in db'.disk && Referenced(db'.images, db'.files, p) {
      if !p.Staged? {
        StoredRemoval(db, cfg, step, p);
        UnchangedRows(db, cfg, step);
      } else {
        StagedRemoval(db, cfg, step, p);
      }
    }
  }

  /** A staged path that a row names afterwards is the publish source of a session that runs. */
  lemma NamedIsRunning(db: Db, db': Db, p: Path)
    requires Links.Linked(db') && Counted(db') && Contents(db) && Lasting(db, db') && p in db.disk && p.Staged?
    requires Referenced(db'.images, db'.files, p)
    ensures p.part == PublishSource && p.session in db.sessions && !Stopped(db.sessions[p.session])
  {
    StagedNames(db', p);
    var i :| LiveJob(db'.jobs, i) && p == SourceOf(db'.jobs[i]);
    assert Links.JobOk(db', i) && FileOk(db, p);
    assert SessionNext(db.sessions, db'.sessions, db.clock, p.session);
  }

  lemma StagedRemoval(db: Db, cfg: Config, step: P.Step, p: Path)
    requires Links.Linked(db) && Contents(db) && Counted(db) && Intents(db) && p in db.disk &&
             p !in P.Apply(db, cfg, step).disk && p.Staged?
    requires var db' := P.Apply(db, cfg, step); Referenced(db'.images, db'.files, p)
    ensures TakesSource(db, step, p)
  {
    hide P.Apply;
    Links.StepKeepsLinks(db, cfg, step);
    StepCounts(db, cfg, step);
    StepLasts(db, cfg, step);
    NamedIsRunning(db, P.Apply(db, cfg, step), p);
    SourceTaken(db, cfg, step, p.session);
  }
}
