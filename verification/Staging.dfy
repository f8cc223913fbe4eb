/** Staging directories are not left behind: a session that gave up its staging path has no file in it, unless the
    compensation of a failed Complete put one back. */
module Staging {
  import opened Collections
  import opened Rows
  import opened Exclusion
  import Accounting
  import Deletion
  import Fencing
  import Leaks
  import Links
  import Publish
  import Sweeping
  import T = Theorems
  import Upload
  import P = Pipeline

  /** No file is staged, or some Complete of the session failed. */
  ghost predicate Clean(db: Db, s: nat)
  {
    (exists n: nat :: (s, n) in db.restores) || forall k :: Staged(s, k) !in db.disk
  }

  ghost predicate Swept(db: Db, s: nat)
  {
    s in db.sessions && Closed(db.sessions[s]) && Clean(db, s)
  }

  ghost predicate SessionOk(db: Db, s: nat)
    requires s in db.sessions
  {
    !db.sessions[s].staged ==> Swept(db, s)
  }

  /** What a worker found out stays true. */
  ghost predicate ClaimOk(db: Db, t: nat)
    requires t in db.claims
  {
    db.claims[t].stagingClean == Some(true) ==>
      db.claims[t].image in db.jobs && Swept(db, db.jobs[db.claims[t].image].session)
  }

  ghost predicate SweepOk(db: Db, n: nat)
    requires n in db.sweeps
  {
    db.sweeps[n].stage.Removed? ==> Swept(db, db.sweeps[n].session)
  }

  ghost predicate AllSwept(db: Db)
  {
    && (forall s {:trigger SessionOk(db, s)} :: s in db.sessions ==> SessionOk(db, s))
    && (forall t {:trigger ClaimOk(db, t)} :: t in db.claims ==> ClaimOk(db, t))
    && (forall n {:trigger SweepOk(db, n)} :: n in db.sweeps ==> SweepOk(db, n))
  }

  lemma SweptStays(db: Db, cfg: Config, step: P.Step, s: nat)
    requires Links.Linked(db) && Swept(db, s)
    ensures Swept(P.Apply(db, cfg, step), s)
  {
    hide P.Apply, Links.Linked, Leaks.FailsToComplete;
    var db' := P.Apply(db, cfg, step);
    Accounting.StepLasts(db, cfg, step);
    assert Accounting.SessionNext(db.sessions, db'.sessions, db.clock, s);
    Leaks.StepHistory(db, cfg, step);
    if n: nat :| (s, n) in db.restores {
      assert (s, n) in db'.restores;
    } else {
      forall k
        ensures Staged(s, k) !in db'.disk || (step.Restore? && (s, step.listed) in db'.restores)
      {
        OnlyRestoreRefills(db, cfg, step, s, k);
      }
    }
  }

  // ----- Giving up the staging path -----

  ghost predicate StagedStay(db: Db, db': Db)
  {
    forall s :: s in db'.sessions && !db'.sessions[s].staged ==> s in db.sessions && !db.sessions[s].staged
  }

  /** The session loses its staging path by the last step of its cleanup, or by the publish of its image after its
      staging was found empty. */
  ghost predicate GivesUp(db: Db, step: P.Step, s: nat)
  {
    match step
    case Finish(n, _) => n in db.sweeps && db.sweeps[n].stage.Removed? && db.sweeps[n].session == s
    case Commit(t) => t in db.claims && db.claims[t].stagingClean == Some(true) && db.claims[t].image in db.jobs &&
                      db.jobs[db.claims[t].image].session == s
    case _ => false
  }

  ghost predicate GivenUp(db: Db, db': Db, step: P.Step)
  {
    forall s :: s in db'.sessions && !db'.sessions[s].staged ==>
      (s in db.sessions && !db.sessions[s].staged) || GivesUp(db, step, s)
  }

  lemma CommitGivesUp(db: Db, t: nat)
    requires P.Possible(db, P.Commit(t))
    ensures GivenUp(db, Publish.Commit(db, t).0, P.Commit(t))
  {
    hide Publish.PublishedVariants, ReservedBelow, ActiveBytes;
  }

  lemma FinishGivesUp(db: Db, n: nat, at: Time)
    ensures GivenUp(db, Sweeping.Finish(db, n, at).0, P.Finish(n, at))
  {
  }

  lemma BuryKeepsStaged(db: Db, i: nat)
    requires i in db.jobs
    ensures StagedStay(db, Publish.Bury(db, i))
  {
  }

  lemma EndKeepsStaged(db: Db, step: P.Step)
    requires P.Possible(db, step) && (step.Fail? || step.DeleteImage? || step.ClaimSweep?)
    ensures StagedStay(db, P.ApplyEnd(db, step))
  {
    hide StagedStay, Deletion.DeleteImage, Sweeping.ClaimSweep, Publish.Bury;
    match step
    case Fail(t, overQuota) =>
      if Publish.Fenced(db.jobs, db.claims, t) {
        BuryKeepsStaged(db, db.claims[t].image);
      }
      if P.ApplyEnd(db, step).sessions == db.sessions {
        SameSessions(db, P.ApplyEnd(db, step));
      }
    case DeleteImage(user, isAdmin, i) => DeleteKeepsStaged(db, user, isAdmin, i);
    case ClaimSweep(n, seen) => ClaimKeepsStaged(db, n, seen);
  }

  lemma DeleteKeepsStaged(db: Db, user: nat, isAdmin: bool, i: nat)
    ensures StagedStay(db, Deletion.DeleteImage(db, user, isAdmin, i).0)
  {
    hide ActiveBytes, DropReference, VariantPaths, ReferencesBelow, Deletion.DeletePaths;
  }

  lemma ClaimKeepsStaged(db: Db, n: nat, seen: Time)
    ensures StagedStay(db, Sweeping.ClaimSweep(db, n, seen).0)
  {
    var db' := Sweeping.ClaimSweep(db, n, seen).0;
    hide Sweeping.Claims, StagedStay;
    if db'.sessions == db.sessions {
      SameSessions(db, db');
    } else {
      OneStaged(db, db', db.sweeps[n].session);
    }
  }

  lemma OneStaged(db: Db, db': Db, s: nat)
    requires s in db.sessions && s in db'.sessions && db'.sessions == db.sessions[s := db'.sessions[s]]
    requires db'.sessions[s].staged == db.sessions[s].staged
    ensures StagedStay(db, db')
  {
  }

  lemma InitKeepsStaged(db: Db, cfg: Config, user: nat, key: string, req: seq<PartManifest>, seen: Time)
    ensures StagedStay(db, Upload.Init(db, cfg, user, key, req, seen).0)
  {
    hide Upload.ValidateManifest, Upload.Refusal, Upload.TotalSize, Upload.PendingParts;
    assert Upload.NewSession(user, req, seen, cfg).staged;
    hide Upload.NewSession;
  }

  lemma CompleteKeepsStaged(db: Db, user: nat, s: nat, watermark: bool)
    ensures StagedStay(db, Upload.Complete(db, user, s, watermark).0)
  {
    hide Upload.PromoteFirst, Upload.EnterProcessing, Upload.CompleteGuard, Upload.ListedFirst, StagedStay;
    var db' := Upload.Complete(db, user, s, watermark).0;
    if Upload.CompleteGuard(db, user, s) == None {
      Upload.GuardOpens(db, user, s);
      EnterKeepsStaged(db, s, Upload.PromoteFirst(db.disk, s, db.sessions[s].parts, |PROMOTED|).disk, watermark);
    }
    if db'.sessions == db.sessions {
      SameSessions(db, db');
    }
  }

  lemma SameSessions(db: Db, db': Db)
    requires db'.sessions == db.sessions
    ensures StagedStay(db, db')
  {
  }

  lemma EnterKeepsStaged(db: Db, s: nat, disk: Disk, watermark: bool)
    requires s in db.sessions && forall k :: k in UPLOAD_KINDS ==> k in db.sessions[s].parts
    ensures StagedStay(db, Upload.EnterProcessing(db, s, disk, watermark))
  {
    hide Upload.AddReference, Upload.ProcessingVariants, Upload.FinalizeParts, StagedStay;
    OneStaged(db, Upload.EnterProcessing(db, s, disk, watermark), s);
  }

  lemma PutKeepsStaged(db: Db, user: nat, s: nat, k: Kind, body: Blob)
    ensures StagedStay(db, Upload.PutPart(db, user, s, k, body).0)
  {
    var db' := Upload.PutPart(db, user, s, k, body).0;
    hide StagedStay;
    if db'.sessions == db.sessions {
      SameSessions(db, db');
    } else {
      OneStaged(db, db', s);
    }
  }

  lemma CancelKeepsStaged(db: Db, user: nat, s: nat)
    ensures StagedStay(db, Upload.Cancel(db, user, s).0)
  {
    var db' := Upload.Cancel(db, user, s).0;
    hide Upload.CleanParts, StagedStay;
    if db'.sessions == db.sessions {
      SameSessions(db, db');
    } else {
      OneStaged(db, db', s);
    }
  }

  lemma CancelEndKeepsStaged(db: Db, s: nat)
    ensures StagedStay(db, Upload.CancelSwept(db, s)) && StagedStay(db, Upload.CancelSweepFailed(db, s))
  {
    hide RemoveStaging, StagedStay;
    SameSessions(db, Upload.CancelSwept(db, s));
    if Upload.CancelSweepFailed(db, s).sessions == db.sessions {
      SameSessions(db, Upload.CancelSweepFailed(db, s));
    } else {
      OneStaged(db, Upload.CancelSweepFailed(db, s), s);
    }
  }

  lemma UploadKeepsStaged(db: Db, cfg: Config, step: P.Step)
    requires P.UploadStep(step)
    ensures StagedStay(db, P.ApplyUpload(db, cfg, step))
  {
    hide Upload.Init, Upload.Complete, Upload.PutPart, Upload.Cancel, RemoveStaging, StagedStay;
    match step
    case Init(user, key, req, seen) => InitKeepsStaged(db, cfg, user, key, req, seen);
    case PutPart(user, s, k, body) => PutKeepsStaged(db, user, s, k, body);
    case Complete(user, s, watermark) => CompleteKeepsStaged(db, user, s, watermark);
    case Cancel(user, s) => CancelKeepsStaged(db, user, s);
    case CancelSwept(s) => CancelEndKeepsStaged(db, s);
    case CancelSweepFailed(s) => CancelEndKeepsStaged(db, s);
  }

  lemma SameStaged(db: Db, db': Db, step: P.Step)
    requires db'.sessions == db.sessions || StagedStay(db, db')
    ensures GivenUp(db, db', step)
  {
    hide GivesUp;
  }

  lemma StepGivesUp(db: Db, cfg: Config, step: P.Step)
    ensures GivenUp(db, P.Apply(db, cfg, step), step)
  {
    hide P.Apply, P.ApplyUpload, P.ApplyEnd, StagedStay, GivenUp;
    if P.Possible(db, step) && P.EndStep(step) {
      P.EndApplied(db, cfg, step);
      EndGivesUp(db, step);
    } else {
      if !P.Possible(db, step) {
        P.Impossible(db, cfg, step);
      } else if P.FileStep(step) {
        Links.FileStepRows(db, cfg, step);
      } else if P.LeaseStep(step) {
        Links.LeaseStepRows(db, cfg, step);
      } else if P.SweepStep(step) {
        Links.SweepStepRows(db, cfg, step);
      } else {
        P.UploadApplied(db, cfg, step);
        UploadKeepsStaged(db, cfg, step);
      }
      SameStaged(db, P.Apply(db, cfg, step), step);
    }
  }

  lemma EndGivesUp(db: Db, step: P.Step)
    requires P.EndStep(step) && P.Possible(db, step)
    ensures GivenUp(db, P.ApplyEnd(db, step), step)
  {
    hide Publish.Commit, Publish.Fail, Deletion.DeleteImage, Sweeping.ClaimSweep, Sweeping.Finish, StagedStay, GivenUp;
    if step.Fail? || step.DeleteImage? || step.ClaimSweep? {
      EndKeepsStaged(db, step);
      SameStaged(db, P.ApplyEnd(db, step), step);
    }
    match step
    case Commit(t) => CommitGivesUp(db, t);
    case Finish(n, at) => FinishGivesUp(db, n, at);
    case _ =>
  }

  lemma SessionsStayOk(db: Db, cfg: Config, step: P.Step)
    requires Links.Linked(db) && AllSwept(db)
    ensures var db' := P.Apply(db, cfg, step); forall s :: s in db'.sessions ==> SessionOk(db', s)
  {
    hide P.Apply, Links.Linked, Swept;
    StepGivesUp(db, cfg, step);
    var db' := P.Apply(db, cfg, step);
    forall s | s in db'.sessions
      ensures SessionOk(db', s)
    {
      if !db'.sessions[s].staged {
        if s in db.sessions && !db.sessions[s].staged {
          assert SessionOk(db, s);
        } else if step.Finish? {
          assert SweepOk(db, step.sweep);
        } else {
          assert ClaimOk(db, step.token);
        }
        SweptStays(db, cfg, step, s);
      }
    }
  }

  // ----- What the workers found out -----

  lemma ClaimsNext(db: Db, cfg: Config, step: P.Step, t: nat)
    requires t in P.Apply(db, cfg, step).claims && P.Apply(db, cfg, step).claims[t].stagingClean == Some(true)
    ensures t in db.claims && P.Apply(db, cfg, step).claims[t].image == db.claims[t].image
    ensures db.claims[t].stagingClean == Some(true) ||
            (db.claims[t].image in db.jobs && forall k :: Staged(db.jobs[db.claims[t].image].session, k) !in db.disk)
  {
    hide P.Apply;
    if !P.Possible(db, step) {
      P.Impossible(db, cfg, step);
    } else if P.FileStep(step) {
      Links.FileStepRows(db, cfg, step);
      if step.Inspect? || step.TrySweepStaging? {
        P.FileApplied(db, cfg, step);
      }
    } else if P.LeaseStep(step) {
      P.LeaseApplied(db, cfg, step);
      LeaseClaims(db, cfg, step, t);
    } else if P.SweepStep(step) {
      Links.SweepStepRows(db, cfg, step);
    } else if P.UploadStep(step) {
      Links.UploadStepRows(db, cfg, step);
    } else {
      Links.EndStepRows(db, cfg, step);
    }
  }

  lemma LeaseClaims(db: Db, cfg: Config, step: P.Step, t: nat)
    requires P.LeaseStep(step) && t in P.ApplyLease(db, cfg, step).claims
    requires P.ApplyLease(db, cfg, step).claims[t].stagingClean == Some(true)
    ensures t in db.claims && P.ApplyLease(db, cfg, step).claims[t] == db.claims[t]
  {
    hide Publish.ReclaimExpired;
  }

  lemma ClaimsStayOk(db: Db, cfg: Config, step: P.Step)
    requires Links.Linked(db) && Fencing.Leased(db) && AllSwept(db)
    ensures var db' := P.Apply(db, cfg, step); forall t :: t in db'.claims ==> ClaimOk(db', t)
  {
    hide P.Apply, Links.Linked, Fencing.Leased;
    var db' := P.Apply(db, cfg, step);
    Accounting.StepLasts(db, cfg, step);
    forall t | t in db'.claims
      ensures ClaimOk(db', t)
    {
      if db'.claims[t].stagingClean == Some(true) {
        ClaimsNext(db, cfg, step, t);
        var i := db.claims[t].image;
        assert ClaimOk(db, t);
        JobClosed(db, i);
        SweptStays(db, cfg, step, db.jobs[i].session);
      }
    }
  }

  lemma JobClosed(db: Db, i: nat)
    requires Links.Linked(db) && i in db.jobs
    ensures db.jobs[i].session in db.sessions && Closed(db.sessions[db.jobs[i].session])
  {
    assert Links.JobOk(db, i);
  }

  lemma SweepsNext(db: Db, cfg: Config, step: P.Step, n: nat)
    requires n in P.Apply(db, cfg, step).sweeps && P.Apply(db, cfg, step).sweeps[n].stage.Removed?
    ensures n in db.sweeps && P.Apply(db, cfg, step).sweeps[n].session == db.sweeps[n].session &&
            db.sweeps[n].stage != Listed
    ensures db.sweeps[n].stage.Removed? ||
            forall k :: Staged(db.sweeps[n].session, k) !in P.Apply(db, cfg, step).disk
  {
    hide P.Apply, P.ApplySweep;
    if !P.Possible(db, step) {
      P.Impossible(db, cfg, step);
    } else if P.FileStep(step) {
      Links.FileStepRows(db, cfg, step);
    } else if P.LeaseStep(step) {
      Links.LeaseStepRows(db, cfg, step);
    } else if P.SweepStep(step) {
      P.SweepApplied(db, cfg, step);
      RemovedSweeps(db, step, n);
    } else if P.UploadStep(step) {
      Links.UploadStepRows(db, cfg, step);
    } else {
      P.EndApplied(db, cfg, step);
      hide P.ApplyEnd;
      EndSweeps(db, step, n);
    }
  }

  lemma RemovedSweeps(db: Db, step: P.Step, n: nat)
    requires P.SweepStep(step) && n in P.ApplySweep(db, step).sweeps && P.ApplySweep(db, step).sweeps[n].stage.Removed?
    ensures n in db.sweeps && P.ApplySweep(db, step).sweeps[n].session == db.sweeps[n].session &&
            db.sweeps[n].stage != Listed
    ensures db.sweeps[n].stage.Removed? || forall k :: Staged(db.sweeps[n].session, k) !in P.ApplySweep(db, step).disk
  {
    hide Sweeping.List, Sweeping.Decide, Sweeping.RemoveFiles, Sweeping.CleanOrphan;
    match step
    case List(s) => ListSweeps(db, s, n);
    case Decide(m) => DecideSweeps(db, m, n);
    case RemoveFiles(m) => FilesSweeps(db, m, n);
    case CleanOrphan(s) => OrphanSweeps(db, s);
  }

  lemma ListSweeps(db: Db, s: nat, n: nat)
    requires n in Sweeping.List(db, s).sweeps && Sweeping.List(db, s).sweeps[n].stage.Removed?
    ensures n in db.sweeps && Sweeping.List(db, s).sweeps[n] == db.sweeps[n]
  {
  }

  lemma DecideSweeps(db: Db, m: nat, n: nat)
    requires n in Sweeping.Decide(db, m).sweeps && Sweeping.Decide(db, m).sweeps[n].stage.Removed?
    ensures n in db.sweeps && Sweeping.Decide(db, m).sweeps[n] == db.sweeps[n]
  {
    hide Sweeping.FinalStatus;
  }

  lemma OrphanSweeps(db: Db, s: nat)
    ensures Sweeping.CleanOrphan(db, s).sweeps == db.sweeps
  {
    hide RemoveStaging;
  }

  lemma FilesSweeps(db: Db, m: nat, n: nat)
    requires n in Sweeping.RemoveFiles(db, m).sweeps && Sweeping.RemoveFiles(db, m).sweeps[n].stage.Removed?
    ensures n in db.sweeps && Sweeping.RemoveFiles(db, m).sweeps[n].session == db.sweeps[n].session &&
            db.sweeps[n].stage != Listed
    ensures db.sweeps[n].stage.Removed? ||
            forall k :: Staged(db.sweeps[n].session, k) !in Sweeping.RemoveFiles(db, m).disk
  {
    hide RemoveStaging;
    if m in db.sweeps {
      NothingStays(db.disk, db.sweeps[m].session);
    }
  }

  lemma NothingStays(disk: Disk, s: nat)
    ensures forall k :: Staged(s, k) !in RemoveStaging(disk, s)
  {
  }

  lemma EndSweeps(db: Db, step: P.Step, n: nat)
    requires P.EndStep(step) && P.Possible(db, step) && n in P.ApplyEnd(db, step).sweeps
    requires P.ApplyEnd(db, step).sweeps[n].stage.Removed?
    ensures n in db.sweeps && P.ApplyEnd(db, step).sweeps[n] == db.sweeps[n]
  {
    hide Publish.Commit, Publish.Fail, Deletion.DeleteImage;
  }

  lemma SweepsStayOk(db: Db, cfg: Config, step: P.Step)
    requires Links.Linked(db) && AllSwept(db)
    ensures var db' := P.Apply(db, cfg, step); forall n :: n in db'.sweeps ==> SweepOk(db', n)
  {
    hide P.Apply, Links.Linked;
    var db' := P.Apply(db, cfg, step);
    Accounting.StepLasts(db, cfg, step);
    forall n | n in db'.sweeps
      ensures SweepOk(db', n)
    {
      if db'.sweeps[n].stage.Removed? {
        SweepsNext(db, cfg, step, n);
        var s := db.sweeps[n].session;
        assert SweepOk(db, n);
        SweepClosed(db, n);
        assert Accounting.SessionNext(db.sessions, db'.sessions, db.clock, s);
        if db.sweeps[n].stage.Removed? {
          SweptStays(db, cfg, step, s);
        }
      }
    }
  }

  lemma SweepClosed(db: Db, n: nat)
    requires Links.Linked(db) && n in db.sweeps && db.sweeps[n].stage != Listed
    ensures db.sweeps[n].session in db.sessions && Closed(db.sessions[db.sweeps[n].session])
  {
    assert Links.SweepOk(db, n);
  }

  lemma {:induction false} SweptAlways(quotas: map<nat, nat>, cfg: Config, steps: seq<P.Step>)
    ensures AllSwept(T.Reach(quotas, cfg, steps))
  {
    hide P.Apply, AllSwept, T.Inv;
    if steps == [] {
      T.ReachNothing(quotas, cfg);
      NothingSwept(quotas);
    } else {
      var before := steps[..|steps| - 1];
      SweptAlways(quotas, cfg, before);
      T.ReachStep(quotas, cfg, steps);
      hide T.Reach;
      T.Reachable(quotas, cfg, before);
      StepSweeps(T.Reach(quotas, cfg, before), cfg, steps[|steps| - 1]);
    }
  }

  lemma NothingSwept(quotas: map<nat, nat>)
    ensures AllSwept(P.Start(quotas))
  {
  }

  lemma StepSweeps(db: Db, cfg: Config, step: P.Step)
    requires T.Inv(db, cfg) && AllSwept(db)
    ensures AllSwept(P.Apply(db, cfg, step))
  {
    hide P.Apply;
    assert Links.Linked(db) && Fencing.Leased(db);
    hide T.Inv, Links.Linked, Fencing.Leased, SessionOk, ClaimOk, SweepOk;
    SessionsStayOk(db, cfg, step);
    ClaimsStayOk(db, cfg, step);
    SweepsStayOk(db, cfg, step);
  }

  /** In every run, a file in the staging of a session without a staging path, which no cleanup would ever find by
      its row, was put back after a Complete of that session that failed. */
  lemma EmptyWhenGivenUp(quotas: map<nat, nat>, cfg: Config, steps: seq<P.Step>, s: nat, k: Kind)
    requires var db := T.Reach(quotas, cfg, steps);
             s in db.sessions && !db.sessions[s].staged && Staged(s, k) in db.disk
    ensures exists n, listed: nat :: 0 <= n < |steps| && T.FailedAt(quotas, cfg, steps, n, s, listed)
  {
    hide T.Reach, T.FailedAt;
    SweptAlways(quotas, cfg, steps);
    assert SessionOk(T.Reach(quotas, cfg, steps), s);
    var listed: nat :| (s, listed) in T.Reach(quotas, cfg, steps).restores;
    T.OwedByFailure(quotas, cfg, steps, s, listed);
  }
}
