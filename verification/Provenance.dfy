/** Where the content of a published image comes from: from a rendering if its Complete asked for a
    watermark, and else from the publish source that was uploaded. */
module Provenance {
  import opened Collections
  import opened Rows
  import Accounting
  import E = Executions
  import Fencing
  import Files
  import Jobs
  import Links
  import Publish
  import Deletion
  import Sweeping
  import T = Theorems
  import Upload
  import P = Pipeline

  // ----- What the job was asked for -----

  /** A job keeps its session and whether it needs a watermark; a new one is that of a Complete, with the flag
      that the Complete was given. */
  ghost predicate JobsNext(db: Db, db': Db, step: P.Step)
  {
    (forall i :: i in db.jobs ==>
       i in db'.jobs && db'.jobs[i].watermark == db.jobs[i].watermark && db'.jobs[i].session == db.jobs[i].session) &&
    (forall i :: i in db'.jobs && i !in db.jobs ==>
       step.Complete? && i == db.nextImage && db'.jobs[i].watermark == step.watermark &&
       db'.jobs[i].session == step.session)
  }

  lemma SameJobs(db: Db, db': Db, step: P.Step)
    requires db'.jobs == db.jobs
    ensures JobsNext(db, db', step)
  {
  }

  lemma LeaseKeepsFlags(db: Db, cfg: Config, step: P.Step)
    requires P.LeaseStep(step)
    ensures JobsNext(db, P.ApplyLease(db, cfg, step), step)
  {
    hide JobsNext, Publish.ClaimJob;
    match step
    case ClaimJob(i, seen) => ClaimKeepsFlags(db, cfg, i, seen);
    case ClaimExhausted(i, seen) => OneJob(db, P.ApplyLease(db, cfg, step), i, step);
    case Extend(t) => HolderKeepsFlags(db, cfg, t, step);
    case Release(t, _) => HolderKeepsFlags(db, cfg, t, step);
  }

  lemma OneJob(db: Db, db': Db, i: nat, step: P.Step)
    requires db'.jobs == db.jobs || (i in db.jobs && i in db'.jobs && db'.jobs == db.jobs[i := db'.jobs[i]] &&
                                     db'.jobs[i].watermark == db.jobs[i].watermark &&
                                     db'.jobs[i].session == db.jobs[i].session)
    ensures JobsNext(db, db', step)
  {
  }

  lemma HolderKeepsFlags(db: Db, cfg: Config, t: nat, step: P.Step)
    requires (step.Extend? || step.Release?) && step.token == t
    ensures JobsNext(db, P.ApplyLease(db, cfg, step), step)
  {
    hide JobsNext;
    if Publish.Fenced(db.jobs, db.claims, t) {
      OneJob(db, P.ApplyLease(db, cfg, step), db.claims[t].image, step);
    } else {
      SameJobs(db, db, step);
    }
  }

  lemma ClaimKeepsFlags(db: Db, cfg: Config, i: nat, seen: Time)
    ensures JobsNext(db, Publish.ClaimJob(db, cfg, i, seen).0, P.ClaimJob(i, seen))
  {
    Jobs.PutBackIs(db.jobs, seen);
    hide Publish.ReclaimExpired;
    var jobs := Publish.ReclaimExpired(db.jobs, seen);
    assert forall j :: j in db.jobs ==>
        jobs[j].watermark == db.jobs[j].watermark && jobs[j].session == db.jobs[j].session;
    hide Jobs.PutBack, Publish.Claimable;
  }

  lemma CompleteSetsFlag(db: Db, user: nat, s: nat, watermark: bool)
    requires Links.Linked(db)
    ensures JobsNext(db, Upload.Complete(db, user, s, watermark).0, P.Complete(user, s, watermark))
  {
    assert db.nextImage in db.jobs ==> Links.JobOk(db, db.nextImage);
    if Upload.CompleteGuard(db, user, s) == None {
      Upload.GuardOpens(db, user, s);
      EnterSetsFlag(db, user, s, Upload.PromoteFirst(db.disk, s, db.sessions[s].parts, |PROMOTED|).disk, watermark);
      hide JobsNext, Upload.EnterProcessing, Upload.PromoteFirst, Upload.ListedFirst, Links.Linked,
           Upload.CompleteGuard;
      if Upload.Complete(db, user, s, watermark).1 == Upload.PromotionFailed {
        SameJobs(db, Upload.Complete(db, user, s, watermark).0, P.Complete(user, s, watermark));
      }
    } else {
      SameJobs(db, db, P.Complete(user, s, watermark));
    }
  }

  lemma EnterSetsFlag(db: Db, user: nat, s: nat, disk: Disk, watermark: bool)
    requires db.nextImage !in db.jobs && s in db.sessions && forall k :: k in UPLOAD_KINDS ==> k in db.sessions[s].parts
    ensures JobsNext(db, Upload.EnterProcessing(db, s, disk, watermark), P.Complete(user, s, watermark))
  {
  }

  lemma BuryKeepsFlags(db: Db, i: nat, step: P.Step)
    requires i in db.jobs
    ensures JobsNext(db, Publish.Bury(db, i), step)
  {
  }

  lemma FailKeepsFlags(db: Db, t: nat, overQuota: bool)
    ensures JobsNext(db, Publish.Fail(db, t, overQuota).0, P.Fail(t, overQuota))
  {
    if Publish.Fenced(db.jobs, db.claims, t) {
      BuryKeepsFlags(db, db.claims[t].image, P.Fail(t, overQuota));
      hide Publish.Bury;
    }
  }

  lemma CommitKeepsFlags(db: Db, t: nat)
    requires P.Possible(db, P.Commit(t))
    ensures JobsNext(db, Publish.Commit(db, t).0, P.Commit(t))
  {
  }

  lemma DeleteKeepsFlags(db: Db, user: nat, isAdmin: bool, i: nat)
    ensures JobsNext(db, Deletion.DeleteImage(db, user, isAdmin, i).0, P.DeleteImage(user, isAdmin, i))
  {
    hide JobsNext;
    DeletedJobs(db, user, isAdmin, i);
    OneJob(db, Deletion.DeleteImage(db, user, isAdmin, i).0, i, P.DeleteImage(user, isAdmin, i));
  }

  lemma DeletedJobs(db: Db, user: nat, isAdmin: bool, i: nat)
    ensures var jobs := Deletion.DeleteImage(db, user, isAdmin, i).0.jobs;
            jobs == db.jobs || (i in db.jobs && jobs == db.jobs[i := db.jobs[i].(image := None)])
  {
    hide DropReference, UnlinkSessions, ActiveBytes, VariantPaths, ReferencesBelow;
  }

  lemma UploadFlags(db: Db, cfg: Config, step: P.Step)
    requires Links.Linked(db) && P.UploadStep(step) && P.Possible(db, step)
    ensures JobsNext(db, P.Apply(db, cfg, step), step)
  {
    hide P.Apply, JobsNext, Upload.Complete;
    P.UploadApplied(db, cfg, step);
    if step.Complete? {
      CompleteSetsFlag(db, step.user, step.session, step.watermark);
    } else {
      SameJobs(db, P.Apply(db, cfg, step), step);
    }
  }

  lemma EndFlags(db: Db, cfg: Config, step: P.Step)
    requires P.EndStep(step) && P.Possible(db, step)
    ensures JobsNext(db, P.Apply(db, cfg, step), step)
  {
    hide P.Apply, JobsNext, Publish.Commit, Publish.Fail, Deletion.DeleteImage, Sweeping.Finish, Sweeping.ClaimSweep;
    P.EndApplied(db, cfg, step);
    match step
    case Commit(t) => CommitKeepsFlags(db, t);
    case Fail(t, overQuota) => FailKeepsFlags(db, t, overQuota);
    case DeleteImage(user, isAdmin, i) => DeleteKeepsFlags(db, user, isAdmin, i);
    case _ => SameJobs(db, P.Apply(db, cfg, step), step);
  }

  lemma StepFlags(db: Db, cfg: Config, step: P.Step)
    requires Links.Linked(db)
    ensures JobsNext(db, P.Apply(db, cfg, step), step)
  {
    hide P.Apply, JobsNext, P.ApplyLease;
    if !P.Possible(db, step) {
      P.Impossible(db, cfg, step);
      SameJobs(db, db, step);
    } else if P.FileStep(step) {
      Links.FileStepRows(db, cfg, step);
      SameJobs(db, P.Apply(db, cfg, step), step);
    } else if P.SweepStep(step) {
      Links.SweepStepRows(db, cfg, step);
      SameJobs(db, P.Apply(db, cfg, step), step);
    } else if P.LeaseStep(step) {
      P.LeaseApplied(db, cfg, step);
      LeaseKeepsFlags(db, cfg, step);
    } else if P.UploadStep(step) {
      UploadFlags(db, cfg, step);
    } else {
      EndFlags(db, cfg, step);
    }
  }

  /** Step n is the Complete that entered image i, with the given flag. */
  ghost predicate EnteredAt(quotas: map<nat, nat>, cfg: Config, steps: seq<P.Step>, n: nat, i: nat, watermark: bool)
  {
    n < |steps| && steps[n].Complete? && steps[n].watermark == watermark &&
    i !in T.Reach(quotas, cfg, steps[..n]).jobs && i in T.Reach(quotas, cfg, steps[..n + 1]).jobs
  }

  lemma EnteredBefore(quotas: map<nat, nat>, cfg: Config, steps: seq<P.Step>, n: nat, i: nat, watermark: bool)
    requires steps != [] && EnteredAt(quotas, cfg, steps[..|steps| - 1], n, i, watermark)
    ensures EnteredAt(quotas, cfg, steps, n, i, watermark)
  {
    hide T.Reach;
    assert steps[..|steps| - 1][..n] == steps[..n] && steps[..|steps| - 1][..n + 1] == steps[..n + 1];
  }

  /** Every job carries the flag of the Complete that entered its image. */
  lemma {:induction false} JobIsAsAsked(quotas: map<nat, nat>, cfg: Config, steps: seq<P.Step>, i: nat)
    requires i in T.Reach(quotas, cfg, steps).jobs
    ensures exists n: nat :: EnteredAt(quotas, cfg, steps, n, i, T.Reach(quotas, cfg, steps).jobs[i].watermark)
  {
    hide T.Reach, P.Apply, JobsNext;
    if steps == [] {
      T.ReachNothing(quotas, cfg);
    } else {
      var last := |steps| - 1;
      T.ReachStep(quotas, cfg, steps);
      T.Reachable(quotas, cfg, steps[..last]);
      StepFlags(T.Reach(quotas, cfg, steps[..last]), cfg, steps[last]);
      if i in T.Reach(quotas, cfg, steps[..last]).jobs {
        JobIsAsAsked(quotas, cfg, steps[..last], i);
        FlagKept(T.Reach(quotas, cfg, steps[..last]), T.Reach(quotas, cfg, steps), steps[last], i);
        var n: nat :| EnteredAt(quotas, cfg, steps[..last], n, i, T.Reach(quotas, cfg, steps).jobs[i].watermark);
        EnteredBefore(quotas, cfg, steps, n, i, T.Reach(quotas, cfg, steps).jobs[i].watermark);
      } else {
        FlagSet(T.Reach(quotas, cfg, steps[..last]), T.Reach(quotas, cfg, steps), steps[last], i);
        assert steps[..last + 1] == steps;
        assert EnteredAt(quotas, cfg, steps, last, i, T.Reach(quotas, cfg, steps).jobs[i].watermark);
      }
    }
  }

  lemma FlagKept(db: Db, db': Db, step: P.Step, i: nat)
    requires JobsNext(db, db', step) && i in db.jobs
    ensures i in db'.jobs && db'.jobs[i].watermark == db.jobs[i].watermark && db'.jobs[i].session == db.jobs[i].session
  {
  }

  lemma FlagSet(db: Db, db': Db, step: P.Step, i: nat)
    requires JobsNext(db, db', step) && i !in db.jobs && i in db'.jobs
    ensures step.Complete? && db'.jobs[i].watermark == step.watermark
  {
  }

  // ----- What was rendered -----

  /** Step n renders this content for image i, which the token t of the step belongs to. */
  ghost predicate RenderedAt(quotas: map<nat, nat>, cfg: Config, steps: seq<P.Step>, n: nat, t: nat, i: nat, blob: Blob)
  {
    n < |steps| && steps[n].Render? && steps[n].token == t && steps[n].output == blob &&
    t in T.Reach(quotas, cfg, steps[..n]).claims && T.Reach(quotas, cfg, steps[..n]).claims[t].image == i
  }

  lemma RenderedBefore(quotas: map<nat, nat>, cfg: Config, steps: seq<P.Step>, n: nat, t: nat, i: nat, blob: Blob)
    requires steps != [] && RenderedAt(quotas, cfg, steps[..|steps| - 1], n, t, i, blob)
    ensures RenderedAt(quotas, cfg, steps, n, t, i, blob)
  {
    hide T.Reach;
    assert steps[..|steps| - 1][..n] == steps[..n];
  }

  /** A claim stays the claim of its image. */
  lemma ClaimStays(quotas: map<nat, nat>, cfg: Config, steps: seq<P.Step>, t: nat)
    requires steps != [] && t in T.Reach(quotas, cfg, steps[..|steps| - 1]).claims
    ensures t in T.Reach(quotas, cfg, steps).claims &&
            T.Reach(quotas, cfg, steps).claims[t].image == T.Reach(quotas, cfg, steps[..|steps| - 1]).claims[t].image
  {
    hide T.Reach, P.Apply;
    var db := T.Reach(quotas, cfg, steps[..|steps| - 1]);
    T.ReachStep(quotas, cfg, steps);
    T.Reachable(quotas, cfg, steps[..|steps| - 1]);
    Fencing.StepProgress(db, cfg, steps[|steps| - 1]);
    assert Fencing.ClaimNext(db.claims, T.Reach(quotas, cfg, steps).claims, db.nextToken, t);
  }

  /** A rendering holds what a step of its token rendered. */
  lemma {:induction false} RenderingIsRendered(quotas: map<nat, nat>, cfg: Config, steps: seq<P.Step>, t: nat)
    requires t in T.Reach(quotas, cfg, steps).renderings
    ensures var db := T.Reach(quotas, cfg, steps);
            t in db.claims &&
            exists n: nat :: RenderedAt(quotas, cfg, steps, n, t, db.claims[t].image, db.renderings[t])
  {
    hide T.Reach, P.Apply, RenderedAt;
    if steps == [] {
      T.ReachNothing(quotas, cfg);
    } else {
      var last := |steps| - 1;
      var before, db := T.Reach(quotas, cfg, steps[..last]), T.Reach(quotas, cfg, steps);
      T.ReachStep(quotas, cfg, steps);
      E.RenderingChanges(before, cfg, steps[last], t);
      if E.Writes(before, steps[last], t) {
        ClaimStays(quotas, cfg, steps, t);
        WritesOutput(before, cfg, steps[last], t);
        RenderedNow(quotas, cfg, steps, t);
      } else {
        RenderingIsRendered(quotas, cfg, steps[..last], t);
        ClaimStays(quotas, cfg, steps, t);
        var n: nat :| RenderedAt(quotas, cfg, steps[..last], n, t, db.claims[t].image, db.renderings[t]);
        RenderedBefore(quotas, cfg, steps, n, t, db.claims[t].image, db.renderings[t]);
      }
    }
  }

  lemma WritesOutput(db: Db, cfg: Config, step: P.Step, t: nat)
    requires E.Writes(db, step, t)
    ensures t in P.Apply(db, cfg, step).renderings && P.Apply(db, cfg, step).renderings[t] == step.output
  {
    hide P.Apply;
    P.FileApplied(db, cfg, step);
  }

  lemma RenderedNow(quotas: map<nat, nat>, cfg: Config, steps: seq<P.Step>, t: nat)
    requires steps != [] && E.Writes(T.Reach(quotas, cfg, steps[..|steps| - 1]), steps[|steps| - 1], t)
    ensures RenderedAt(quotas, cfg, steps, |steps| - 1, t,
                       T.Reach(quotas, cfg, steps[..|steps| - 1]).claims[t].image, steps[|steps| - 1].output)
  {
  }

  // ----- What the target holds -----

  /** The target of image i holds a rendering made for it if its job needs a watermark, and else the publish source
      of its session's manifest. */
  ghost predicate FromItsSource(quotas: map<nat, nat>, cfg: Config, steps: seq<P.Step>, i: nat)
  {
    var db := T.Reach(quotas, cfg, steps);
    i in db.jobs && PublishTarget(i) in db.disk &&
    if db.jobs[i].watermark
    then exists n: nat, t: nat :: RenderedAt(quotas, cfg, steps, n, t, i, db.disk[PublishTarget(i)])
    else
      var s := db.jobs[i].session;
      s in db.sessions && PublishSource in db.sessions[s].parts &&
      db.disk[PublishTarget(i)] == db.sessions[s].parts[PublishSource].blob
  }

  /** What the promotion puts there. */
  lemma PromotionGives(db: Db, t: nat, i: nat)
    requires Links.Linked(db) && Accounting.Contents(db) && PublishTarget(i) !in db.disk
    requires PublishTarget(i) in Publish.PromoteTarget(db, t).0.disk
    ensures Publish.Fenced(db.jobs, db.claims, t) && db.claims[t].image == i && i in db.jobs &&
            var blob := Publish.PromoteTarget(db, t).0.disk[PublishTarget(i)];
            if db.jobs[i].watermark then t in db.renderings && blob == db.renderings[t]
            else
              var s := db.jobs[i].session;
              s in db.sessions && PublishSource in db.sessions[s].parts &&
              blob == db.sessions[s].parts[PublishSource].blob
  {
    Publish.PromotedDisk(db, t);
    hide Publish.PromoteTarget;
    var source := Publish.SourceOf(db.jobs[i]);
    assert source in db.disk ==> Accounting.FileOk(db, source);
    hide Links.Linked, Accounting.Contents;
  }

  lemma TargetKept(quotas: map<nat, nat>, cfg: Config, steps: seq<P.Step>, i: nat)
    requires steps != [] && FromItsSource(quotas, cfg, steps[..|steps| - 1], i)
    requires var before, db := T.Reach(quotas, cfg, steps[..|steps| - 1]), T.Reach(quotas, cfg, steps);
             PublishTarget(i) in before.disk && PublishTarget(i) in db.disk &&
             db.disk[PublishTarget(i)] == before.disk[PublishTarget(i)]
    ensures FromItsSource(quotas, cfg, steps, i)
  {
    hide T.Reach, P.Apply, RenderedAt, JobsNext;
    var last := |steps| - 1;
    var before, db := T.Reach(quotas, cfg, steps[..last]), T.Reach(quotas, cfg, steps);
    T.ReachStep(quotas, cfg, steps);
    T.Reachable(quotas, cfg, steps[..last]);
    StepFlags(before, cfg, steps[last]);
    FlagKept(before, db, steps[last], i);
    if before.jobs[i].watermark {
      var n: nat, t: nat :| RenderedAt(quotas, cfg, steps[..last], n, t, i, before.disk[PublishTarget(i)]);
      RenderedBefore(quotas, cfg, steps, n, t, i, db.disk[PublishTarget(i)]);
    } else {
      PartKept(before, cfg, steps[last], before.jobs[i].session);
    }
  }

  lemma PartKept(db: Db, cfg: Config, step: P.Step, s: nat)
    requires Links.Linked(db) && s in db.sessions && PublishSource in db.sessions[s].parts
    ensures var db' := P.Apply(db, cfg, step);
            s in db'.sessions && PublishSource in db'.sessions[s].parts &&
            db'.sessions[s].parts[PublishSource].blob == db.sessions[s].parts[PublishSource].blob
  {
    hide P.Apply;
    Accounting.StepLasts(db, cfg, step);
    assert Accounting.SessionNext(db.sessions, P.Apply(db, cfg, step).sessions, db.clock, s);
  }

  lemma TargetMade(quotas: map<nat, nat>, cfg: Config, steps: seq<P.Step>, i: nat)
    requires steps != [] && PublishTarget(i) in T.Reach(quotas, cfg, steps).disk
    requires PublishTarget(i) !in T.Reach(quotas, cfg, steps[..|steps| - 1]).disk
    ensures FromItsSource(quotas, cfg, steps, i)
  {
    hide T.Reach, P.Apply, RenderedAt, Publish.PromoteTarget, Fencing.NoNewTarget;
    var last := |steps| - 1;
    var before, step := T.Reach(quotas, cfg, steps[..last]), steps[last];
    T.ReachStep(quotas, cfg, steps);
    T.Reachable(quotas, cfg, steps[..last]);
    Fencing.TargetCreator(before, cfg, step);
    OnlyByPromotion(before, cfg, step, i);
    PromotionGives(before, step.token, i);
    if before.jobs[i].watermark {
      RenderingIsRendered(quotas, cfg, steps[..last], step.token);
      var n: nat :| RenderedAt(quotas, cfg, steps[..last], n, step.token, i, before.renderings[step.token]);
      RenderedBefore(quotas, cfg, steps, n, step.token, i, before.renderings[step.token]);
    }
  }

  lemma OnlyByPromotion(db: Db, cfg: Config, step: P.Step, i: nat)
    requires PublishTarget(i) !in db.disk && PublishTarget(i) in P.Apply(db, cfg, step).disk
    ensures step.PromoteTarget? && P.Apply(db, cfg, step) == Publish.PromoteTarget(db, step.token).0
  {
    hide P.Apply, Publish.PromoteTarget;
    Fencing.TargetCreator(db, cfg, step);
    P.FileApplied(db, cfg, step);
  }

  lemma {:induction false} TargetsComeFrom(quotas: map<nat, nat>, cfg: Config, steps: seq<P.Step>, i: nat)
    requires PublishTarget(i) in T.Reach(quotas, cfg, steps).disk
    ensures FromItsSource(quotas, cfg, steps, i)
  {
    hide T.Reach, P.Apply, FromItsSource;
    if steps == [] {
      T.ReachNothing(quotas, cfg);
    } else {
      var last := |steps| - 1;
      if PublishTarget(i) in T.Reach(quotas, cfg, steps[..last]).disk {
        TargetsComeFrom(quotas, cfg, steps[..last], i);
        T.ReachStep(quotas, cfg, steps);
        Fencing.TargetContent(T.Reach(quotas, cfg, steps[..last]), cfg, steps[last], i);
        TargetKept(quotas, cfg, steps, i);
      } else {
        TargetMade(quotas, cfg, steps, i);
      }
    }
  }

  /** In every run, the file of a completed image is what its Complete asked for: with a watermark, what a worker
      rendered for this image; without one, the publish source that its session received. */
  lemma PublishedAsAsked(quotas: map<nat, nat>, cfg: Config, steps: seq<P.Step>, i: nat)
    requires var db := T.Reach(quotas, cfg, steps); i in db.images && db.images[i].status == ImageCompleted
    ensures var db := T.Reach(quotas, cfg, steps);
            i in db.jobs && PublishTarget(i) in db.disk && db.jobs[i].session in db.sessions &&
            exists n: nat, asked: bool {:trigger EnteredAt(quotas, cfg, steps, n, i, asked)} ::
              EnteredAt(quotas, cfg, steps, n, i, asked) &&
              if asked
              then exists m: nat, t: nat :: RenderedAt(quotas, cfg, steps, m, t, i, db.disk[PublishTarget(i)])
              else
                PublishSource in db.sessions[db.jobs[i].session].parts &&
                db.disk[PublishTarget(i)] == db.sessions[db.jobs[i].session].parts[PublishSource].blob
  {
    hide T.Reach, RenderedAt, EnteredAt;
    T.Reachable(quotas, cfg, steps);
    var db := T.Reach(quotas, cfg, steps);
    CompletedHasTarget(db, i);
    TargetsComeFrom(quotas, cfg, steps, i);
    JobIsAsAsked(quotas, cfg, steps, i);
  }

  lemma CompletedHasTarget(db: Db, i: nat)
    requires Links.Linked(db) && Files.OnDisk(db) && i in db.images && db.images[i].status == ImageCompleted
    ensures i in db.jobs && PublishTarget(i) in db.disk && db.jobs[i].session in db.sessions
  {
    assert Links.ImageOk(db, i) && Links.JobOk(db, i) && Files.ImageOnDisk(db, i);
  }
}
