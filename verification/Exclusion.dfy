/** Staging and cleanup: removal touches only sessions that stopped, only a restore refills what was
    removed, and when a late cancellation leaves a session that no cleanup can ever claim again. */
module Exclusion {
  import opened Collections
  import opened Rows
  import opened Upload
  import opened Publish
  import opened Accounting
  import opened Retention
  import Deletion
  import Leaks
  import Links
  import Sweeping
  import P = Pipeline

  // ----- Removal of staging -----

  predicate RemovesStaging(step: P.Step)
  {
    step.CancelSwept? || step.RemoveFiles? || step.CleanOrphan? || step.CleanupFiles? || step.Deliver?
  }

  lemma DeliverySpares(db: Db, e: nat, n: nat, acknowledged: bool, p: Path)
    requires Intents(db) && p in db.disk && !Removable(db, p)
    ensures Stays(p, db.disk, Deletion.Deliver(db, e, n, acknowledged).disk)
  {
    if e < |db.events| && !db.events[e].published && n <= |db.events[e].paths| {
      assert EventOk(db, e);
      Deletion.Survivors(db.images, db.files, db.disk, db.events[e].paths[..n]);
    }
  }

  lemma CleanupSpares(db: Db, paths: seq<Path>, p: Path)
    requires Intents(db) && P.Possible(db, P.CleanupFiles(paths)) && p in db.disk && !Removable(db, p)
    ensures Stays(p, db.disk, Deletion.CleanupFiles(db, paths).disk)
  {
    CleanupRetains(db, paths);
    Deletion.Survivors(db.images, db.files, db.disk, paths);
  }

  lemma DeletionSparesRunning(db: Db, cfg: Config, step: P.Step, s: nat, k: Kind)
    requires Intents(db) && s in db.sessions && !Stopped(db.sessions[s])
    requires (step.CleanupFiles? || step.Deliver?) && P.Possible(db, step) && Staged(s, k) in db.disk
    ensures Stays(Staged(s, k), db.disk, P.Apply(db, cfg, step).disk)
  {
    hide P.Apply, Stays;
    P.FileApplied(db, cfg, step);
    match step
    case CleanupFiles(paths) => CleanupSpares(db, paths, Staged(s, k));
    case Deliver(e, n, acknowledged) => DeliverySpares(db, e, n, acknowledged, Staged(s, k));
  }

  lemma StagingSparesRunning(db: Db, cfg: Config, step: P.Step, s: nat, k: Kind)
    requires Links.Linked(db) && s in db.sessions && !Stopped(db.sessions[s]) && Staged(s, k) in db.disk
    requires (step.CancelSwept? || step.RemoveFiles? || step.CleanOrphan?) && P.Possible(db, step)
    ensures Stays(Staged(s, k), db.disk, P.Apply(db, cfg, step).disk)
  {
    hide P.Apply;
    if step.CancelSwept? {
      P.UploadApplied(db, cfg, step);
      CancelSpares(db, step.session, s, k);
    } else {
      P.SweepApplied(db, cfg, step);
      SweepSpares(db, step, s, k);
    }
  }

  lemma CancelSpares(db: Db, r: nat, s: nat, k: Kind)
    requires Links.Linked(db) && s in db.sessions && !Stopped(db.sessions[s]) && Staged(s, k) in db.disk
    ensures Stays(Staged(s, k), db.disk, CancelSwept(db, r).disk)
  {
    assert r in db.cancels ==> Links.CancelOk(db, r);
  }

  lemma SweepSpares(db: Db, step: P.Step, s: nat, k: Kind)
    requires Links.Linked(db) && s in db.sessions && !Stopped(db.sessions[s]) && Staged(s, k) in db.disk
    requires step.RemoveFiles? || step.CleanOrphan?
    ensures Stays(Staged(s, k), db.disk, P.ApplySweep(db, step).disk)
  {
    if step.RemoveFiles? {
      assert step.sweep in db.sweeps ==> Links.SweepOk(db, step.sweep);
      hide Links.Linked;
    } else {
      hide Links.Linked;
    }
  }

  /** No cleanup path removes a staged file of a session that is still uploading or processing. */
  lemma CleanupSparesRunning(db: Db, cfg: Config, step: P.Step, s: nat, k: Kind)
    requires Links.Linked(db) && Intents(db) && s in db.sessions && !Stopped(db.sessions[s])
    requires RemovesStaging(step) && Staged(s, k) in db.disk
    ensures Stays(Staged(s, k), db.disk, P.Apply(db, cfg, step).disk)
  {
    hide P.Apply, Intents;
    if !P.Possible(db, step) {
      P.Impossible(db, cfg, step);
    } else if step.CancelSwept? || P.SweepStep(step) {
      StagingSparesRunning(db, cfg, step, s, k);
    } else {
      DeletionSparesRunning(db, cfg, step, s, k);
    }
  }

  // ----- What can refill it -----

  predicate Restorable(disk: Disk, parts: Parts, n: nat, k: Kind)
    requires n <= |PROMOTED|
  {
    k in PROMOTED[..n] && k in parts && Stored(k, parts[k].blob.hash) in disk &&
    disk[Stored(k, parts[k].blob.hash)] == parts[k].blob
  }

  lemma {:induction false} RestoreRefills(disk: Disk, s: nat, parts: Parts, n: nat, k: Kind)
    requires n <= |PROMOTED| && (forall j :: j in PROMOTED ==> j in parts) && Staged(s, k) !in disk
    ensures Staged(s, k) in RestoreFirst(disk, s, parts, n).disk <==> Restorable(disk, parts, n, k)
    ensures forall p: Path :: !p.Staged? ==> (p in RestoreFirst(disk, s, parts, n).disk <==> p in disk)
  {
    if n > 0 {
      RestoreRefills(disk, s, parts, n - 1, k);
      RestoreRetains(disk, s, parts, n - 1);
      assert PROMOTED[..n] == PROMOTED[..n - 1] + [PROMOTED[n - 1]];
    }
  }

  lemma RestoreStep(db: Db, s: nat, n: nat, r: nat, k: Kind)
    requires Links.Linked(db) && n <= |PROMOTED| && r in db.sessions && Staged(r, k) !in db.disk
    ensures Staged(r, k) in Restore(db, s, n).0.disk <==> s == r && Restorable(db.disk, db.sessions[r].parts, n, k)
  {
    if s in db.sessions {
      assert Links.SessionOk(db, s) && forall j :: j in PROMOTED ==> j in UPLOAD_KINDS;
      assert Restore(db, s, n).0.disk == RestoreFirst(db.disk, s, db.sessions[s].parts, n).disk;
      hide Links.Linked, Restore, RestoreFirst;
      if s == r {
        RestoreRefills(db.disk, s, db.sessions[s].parts, n, k);
      } else {
        RestoreTouches(db.disk, s, db.sessions[s].parts, n);
      }
    }
  }

  lemma {:induction false} RestoreTouches(disk: Disk, s: nat, parts: Parts, n: nat)
    requires n <= |PROMOTED| && forall j :: j in PROMOTED ==> j in parts
    ensures forall p :: p in RestoreFirst(disk, s, parts, n).disk && p !in disk ==> p.Staged? && p.session == s
  {
    if n > 0 {
      RestoreTouches(disk, s, parts, n - 1);
    }
  }

  lemma CompleteAddsNoStaging(db: Db, user: nat, s: nat, watermark: bool)
    ensures forall p :: p in Complete(db, user, s, watermark).0.disk && p !in db.disk ==> !p.Staged?
  {
    if CompleteGuard(db, user, s) == None {
      Leaks.PromotionAdds(db.disk, s, db.sessions[s].parts, |PROMOTED|);
    }
  }

  lemma InterruptedAddsNoStaging(db: Db, user: nat, s: nat, n: nat, listed: nat)
    requires n <= |PROMOTED|
    ensures forall p :: p in CompleteInterrupted(db, user, s, n, listed).disk && p !in db.disk ==> !p.Staged?
  {
    if CompleteGuard(db, user, s) == None {
      Leaks.PromotionAdds(db.disk, s, db.sessions[s].parts, n);
    }
  }

  /** The session takes no more parts. */
  predicate Closed(session: Session)
  {
    session.status != Initiated && session.status != Uploading
  }

  lemma PutAddsOwn(db: Db, user: nat, s: nat, k: Kind, body: Blob)
    ensures forall p :: p in PutPart(db, user, s, k, body).0.disk && p !in db.disk ==>
              p == Staged(s, k) && s in db.sessions && !Closed(db.sessions[s])
  {
    if PutPart(db, user, s, k, body).0 != db {
      assert s in db.sessions && !Closed(db.sessions[s]);
    }
  }

  lemma PromoteAddsNoStaging(db: Db, t: nat)
    ensures forall p :: p in PromoteTarget(db, t).0.disk && p !in db.disk ==> !p.Staged?
  {
    PromotedDisk(db, t);
    hide PromoteTarget;
  }

  lemma UploadAddsOwn(db: Db, cfg: Config, step: P.Step, s: nat, k: Kind)
    requires s in db.sessions && Closed(db.sessions[s]) && Staged(s, k) !in db.disk
    requires (step.PutPart? || step.Complete? || step.CancelSwept?) && P.Possible(db, step)
    ensures Staged(s, k) !in P.Apply(db, cfg, step).disk
  {
    hide P.Apply, Upload.PutPart, Upload.Complete;
    P.UploadApplied(db, cfg, step);
    match step
    case PutPart(user, r, j, body) => PutAddsOwn(db, user, r, j, body);
    case Complete(user, r, watermark) => CompleteAddsNoStaging(db, user, r, watermark);
    case CancelSwept(_) =>
  }

  lemma FileRefills(db: Db, cfg: Config, step: P.Step, s: nat, k: Kind)
    requires Links.Linked(db) && s in db.sessions && Closed(db.sessions[s]) && Staged(s, k) !in db.disk
    requires P.FileStep(step) && !RowStep(step) && !step.TrySweepStaging? && P.Possible(db, step)
    ensures Staged(s, k) in P.Apply(db, cfg, step).disk <==>
            step.Restore? && step.session == s && Restorable(db.disk, db.sessions[s].parts, step.listed, k)
  {
    hide P.Apply, Upload.PutPart, Upload.CompleteInterrupted, Upload.Restore, Publish.PromoteTarget,
         Deletion.CleanupFiles, Deletion.Deliver;
    P.FileApplied(db, cfg, step);
    match step
    case PutPartRolledBack(user, r, j, body) => PutAddsOwn(db, user, r, j, body);
    case CompleteInterrupted(user, r, n, listed) => InterruptedAddsNoStaging(db, user, r, n, listed);
    case Restore(r, n) => RestoreStep(db, r, n, s, k);
    case PromoteTarget(t) => PromoteAddsNoStaging(db, t);
    case Inspect(_) =>
    case RemoveSource(_) =>
    case CleanupFiles(paths) => DeletionShrinks(db, paths, 0, 0, false);
    case Deliver(e, n, acknowledged) => DeletionShrinks(db, [], e, n, acknowledged);
  }

  /** Once a session takes no more parts, one appears in its staging exactly by the compensation of a failed
      Complete whose promoted file is still there; no upload can put one. */
  lemma OnlyRestoreRefills(db: Db, cfg: Config, step: P.Step, s: nat, k: Kind)
    requires Links.Linked(db) && s in db.sessions && Closed(db.sessions[s]) && Staged(s, k) !in db.disk
    ensures Staged(s, k) in P.Apply(db, cfg, step).disk <==>
            step.Restore? && step.session == s && P.Possible(db, step) &&
            Restorable(db.disk, db.sessions[s].parts, step.listed, k)
  {
    hide P.Apply, Links.Linked;
    if !P.Possible(db, step) {
      P.Impossible(db, cfg, step);
    } else if RowStep(step) {
      RowStepFiles(db, cfg, step);
    } else if P.LeaseStep(step) || step.TrySweepStaging? {
      LeaseStepReadings(db, cfg, step);
    } else if P.UploadStep(step) {
      UploadAddsOwn(db, cfg, step, s, k);
    } else if P.FileStep(step) {
      FileRefills(db, cfg, step, s, k);
    } else {
      P.SweepApplied(db, cfg, step);
    }
  }

  /** The restored paths are queued for removal only while their staging copies are in place. */
  lemma {:induction false} CompensationKeepsCopies(disk: Disk, s: nat, parts: Parts, n: nat)
    requires n <= |PROMOTED| && forall k :: k in PROMOTED ==> k in parts
    ensures var r := RestoreFirst(disk, s, parts, n);
            forall p :: p in r.cleanup ==>
              p.Stored? && p.kind in PROMOTED[..n] && p.hash == parts[p.kind].blob.hash &&
              Staged(s, p.kind) in r.disk && r.disk[Staged(s, p.kind)] == parts[p.kind].blob
  {
    if n > 0 {
      CompensationKeepsCopies(disk, s, parts, n - 1);
      RestoreRetains(disk, s, parts, n - 1);
      assert PROMOTED[..n] == PROMOTED[..n - 1] + [PROMOTED[n - 1]];
    }
  }

  // ----- Sessions that no cleanup can claim -----

  /** Pending cleanup without a staging path, and nobody in the middle of cleaning it. */
  ghost predicate Stranded(db: Db, s: nat)
  {
    && s in db.sessions && db.sessions[s].status == CleanupPending && !db.sessions[s].staged
    && s !in db.cancels
    && forall n :: n in db.sweeps && db.sweeps[n].session == s ==> db.sweeps[n].stage == Listed
  }

  ghost predicate KeepsRow(db: Db, db': Db, s: nat)
  {
    s in db.sessions && s in db'.sessions && db'.sessions[s] == db.sessions[s] && s !in db'.cancels
  }

  lemma SameRow(db: Db, s: nat)
    requires Stranded(db, s)
    ensures KeepsRow(db, db, s)
  {
  }

  lemma CancelEndStranded(db: Db, r: nat, s: nat)
    requires Stranded(db, s)
    ensures KeepsRow(db, CancelSweepFailed(db, r), s)
  {
    if r in db.cancels && r in db.sessions {
      assert r != s;
    }
  }

  lemma CancelSweptStranded(db: Db, r: nat, s: nat)
    requires Stranded(db, s)
    ensures KeepsRow(db, CancelSwept(db, r), s)
  {
  }

  lemma InitStranded(db: Db, cfg: Config, user: nat, key: string, req: seq<PartManifest>, seen: Time, s: nat)
    requires Links.Linked(db) && Stranded(db, s)
    ensures KeepsRow(db, Init(db, cfg, user, key, req, seen).0, s)
  {
    Links.FreshSession(db);
  }

  lemma CompleteStranded(db: Db, user: nat, r: nat, watermark: bool, s: nat)
    requires Stranded(db, s)
    ensures KeepsRow(db, Complete(db, user, r, watermark).0, s)
  {
    hide PromoteFirst, ListedFirst, AddReference, ProcessingVariants, Targets;
    if Complete(db, user, r, watermark).1.Entered? {
      assert r != s;
    }
  }

  lemma CancelStranded(db: Db, user: nat, r: nat, s: nat)
    requires Stranded(db, s)
    ensures KeepsRow(db, Cancel(db, user, r).0, s)
  {
    if Cancel(db, user, r).1 {
      assert r != s;
    }
  }

  lemma PutStranded(db: Db, user: nat, r: nat, k: Kind, body: Blob, s: nat)
    requires Stranded(db, s)
    ensures KeepsRow(db, PutPart(db, user, r, k, body).0, s)
  {
    if PutPart(db, user, r, k, body).0 != db {
      assert r != s;
    }
  }

  lemma UploadStranded(db: Db, cfg: Config, step: P.Step, s: nat)
    requires Links.Linked(db) && Stranded(db, s) && P.UploadStep(step)
    ensures KeepsRow(db, P.Apply(db, cfg, step), s)
  {
    hide P.Apply, KeepsRow, Stranded, Links.Linked;
    if !P.Possible(db, step) {
      P.Impossible(db, cfg, step);
      SameRow(db, s);
    } else {
      P.UploadApplied(db, cfg, step);
      match step
      case Init(user, key, req, seen) => InitStranded(db, cfg, user, key, req, seen, s);
      case PutPart(user, r, k, body) => PutStranded(db, user, r, k, body, s);
      case Complete(user, r, watermark) => CompleteStranded(db, user, r, watermark, s);
      case Cancel(user, r) => CancelStranded(db, user, r, s);
      case CancelSwept(r) => CancelSweptStranded(db, r, s);
      case CancelSweepFailed(r) => CancelEndStranded(db, r, s);
    }
  }

  lemma CommitStranded(db: Db, t: nat, s: nat)
    requires Links.Linked(db) && Stranded(db, s)
    requires t in db.claims && db.claims[t].inspected.Some? && db.claims[t].stagingClean.Some?
    ensures Stranded(Commit(db, t).0, s)
  {
    if Fenced(db.jobs, db.claims, t) {
      assert Links.JobOk(db, db.claims[t].image);
    }
  }

  lemma FailStranded(db: Db, t: nat, overQuota: bool, s: nat)
    requires Links.Linked(db) && Stranded(db, s)
    ensures Stranded(Fail(db, t, overQuota).0, s)
  {
    if Fenced(db.jobs, db.claims, t) {
      var i := db.claims[t].image;
      assert Links.JobOk(db, i) && Links.SessionOk(db, s);
      Links.JobIsolated(db, i);
    }
  }

  lemma DeleteStranded(db: Db, user: nat, isAdmin: bool, i: nat, s: nat)
    requires Stranded(db, s)
    ensures Stranded(Deletion.DeleteImage(db, user, isAdmin, i).0, s)
  {
  }

  lemma ClaimStranded(db: Db, n: nat, seen: Time, s: nat)
    requires Stranded(db, s)
    ensures Stranded(Sweeping.ClaimSweep(db, n, seen).0, s)
  {
    var db' := Sweeping.ClaimSweep(db, n, seen).0;
    if db' != db {
      assert db.sweeps[n].session != s;
    }
  }

  lemma FinishStranded(db: Db, n: nat, at: Time, s: nat)
    requires Stranded(db, s)
    ensures Stranded(Sweeping.Finish(db, n, at).0, s)
  {
    if Sweeping.Finish(db, n, at).1 {
      assert db.sweeps[n].session != s;
    }
  }

  lemma EndStranded(db: Db, cfg: Config, step: P.Step, s: nat)
    requires Links.Linked(db) && Stranded(db, s) && P.EndStep(step)
    ensures Stranded(P.Apply(db, cfg, step), s)
  {
    hide P.Apply, Stranded;
    if !P.Possible(db, step) {
      P.Impossible(db, cfg, step);
    } else {
      P.EndApplied(db, cfg, step);
      match step
      case Commit(t) => CommitStranded(db, t, s);
      case Fail(t, overQuota) => FailStranded(db, t, overQuota, s);
      case DeleteImage(user, isAdmin, i) => DeleteStranded(db, user, isAdmin, i, s);
      case ClaimSweep(n, seen) => ClaimStranded(db, n, seen, s);
      case Finish(n, at) => FinishStranded(db, n, at, s);
    }
  }

  lemma SweepStranded(db: Db, cfg: Config, step: P.Step, s: nat)
    requires Links.Linked(db) && Stranded(db, s) && P.SweepStep(step)
    ensures Stranded(P.Apply(db, cfg, step), s)
  {
    hide P.Apply;
    if P.Possible(db, step) {
      P.SweepApplied(db, cfg, step);
    } else {
      P.Impossible(db, cfg, step);
    }
  }

  lemma StepStranded(db: Db, cfg: Config, step: P.Step, s: nat)
    requires Links.Linked(db) && Stranded(db, s)
    ensures Stranded(P.Apply(db, cfg, step), s)
  {
    hide P.Apply;
    if P.FileStep(step) {
      Links.FileStepRows(db, cfg, step);
    } else if P.LeaseStep(step) {
      Links.LeaseStepRows(db, cfg, step);
    } else if P.SweepStep(step) {
      SweepStranded(db, cfg, step, s);
    } else if P.UploadStep(step) {
      UploadStranded(db, cfg, step, s);
      Links.UploadStepRows(db, cfg, step);
    } else {
      EndStranded(db, cfg, step, s);
    }
  }

  /** Such a session keeps its status and its lost staging path whatever happens afterwards. */
  lemma {:induction false} StrandedForever(db: Db, cfg: Config, steps: seq<P.Step>, s: nat)
    requires Links.Linked(db) && Stranded(db, s)
    ensures Links.Linked(P.Run(db, cfg, steps)) && Stranded(P.Run(db, cfg, steps), s)
  {
    if steps != [] {
      var mid := P.Run(db, cfg, steps[..|steps| - 1]);
      StrandedForever(db, cfg, steps[..|steps| - 1], s);
      Links.StepKeepsLinks(mid, cfg, steps[|steps| - 1]);
      StepStranded(mid, cfg, steps[|steps| - 1], s);
    }
  }

  /** Cancel's fallback leaves a session that some later cleanup can claim exactly if no other cleanup
      has finished it in the meantime. */
  lemma LateCancelClaimable(db: Db, s: nat)
    requires Links.Linked(db) && s in db.cancels
    ensures s in db.sessions
    ensures var after := CancelSweepFailed(db, s).sessions[s];
            (exists seen: Time :: Sweeping.Claims(after, after, seen)) <==> db.sessions[s].staged
  {
    assert Links.CancelOk(db, s);
    var after := CancelSweepFailed(db, s).sessions[s];
    if after.staged {
      assert Sweeping.Claims(after, after, if after.cleanupAfter == None then 0 else after.cleanupAfter.value);
    }
  }

  /** The interleaving that strands a session: a cleanup finishes between the cancellation and its
      own failed removal of the staging directory. */
  function LateCancelRun(user: nat, s: nat, n: nat, now: Time): seq<P.Step>
  {
    [P.Cancel(user, s), P.List(s)] + [P.ClaimSweep(n, now), P.Decide(n)] + [P.RemoveFiles(n), P.Finish(n, now)] +
    [P.CancelSweepFailed(s)]
  }

  /** Only the claimed sweep of s is under way. */
  ghost predicate OnlySweep(db: Db, s: nat, n: nat, stage: SweepStage)
  {
    n in db.sweeps && db.sweeps[n].session == s && db.sweeps[n].stage == stage &&
    db.sweeps[n].snapshot.status == Cancelled &&
    forall m :: m in db.sweeps && m != n && db.sweeps[m].session == s ==> db.sweeps[m].stage == Listed
  }

  ghost predicate Uncleaned(db: Db, s: nat)
  {
    s in db.sessions && Rank(db.sessions[s]) < 2 && db.sessions[s].staged && db.sessions[s].cleanupAfter == None &&
    forall m :: m in db.sweeps && db.sweeps[m].session == s ==> db.sweeps[m].stage == Listed
  }

  lemma CancelledAndListed(db: Db, cfg: Config, s: nat)
    requires Links.Linked(db) && Uncleaned(db, s)
    ensures var b := P.Run(db, cfg, [P.Cancel(db.sessions[s].owner, s), P.List(s)]);
            s in b.cancels && s in b.sessions && b.sessions[s].status == Cancelled && b.sessions[s].staged &&
            b.sessions[s].cleanupAfter == None && b.clock == db.clock && OnlySweep(b, s, db.nextSweep, Listed)
  {
    hide P.Apply, P.Run;
    var user := db.sessions[s].owner;
    P.RunTwo(db, cfg, P.Cancel(user, s), P.List(s));
    assert db.nextSweep in db.sweeps ==> Links.SweepOk(db, db.nextSweep);
    var a := P.Apply(db, cfg, P.Cancel(user, s));
    P.UploadApplied(db, cfg, P.Cancel(user, s));
    P.SweepApplied(a, cfg, P.List(s));
    assert a.sessions[s].status == Cancelled && a.sweeps == db.sweeps && a.nextSweep == db.nextSweep;
  }

  lemma ClaimedAndDecided(db: Db, cfg: Config, s: nat, n: nat, seen: Time)
    requires s in db.sessions && db.sessions[s].status == Cancelled && db.sessions[s].staged &&
             db.sessions[s].cleanupAfter == None
    requires s in db.cancels && OnlySweep(db, s, n, Listed) && seen <= db.clock
    ensures var b := P.Run(db, cfg, [P.ClaimSweep(n, seen), P.Decide(n)]);
            s in b.cancels && s in b.sessions && b.sessions[s].status == CleanupPending &&
            OnlySweep(b, s, n, Decided(Cancelled))
  {
    hide P.Apply, P.Run;
    P.RunTwo(db, cfg, P.ClaimSweep(n, seen), P.Decide(n));
    assert Sweeping.Claims(db.sessions[s], db.sweeps[n].snapshot, seen);
    var a := P.Apply(db, cfg, P.ClaimSweep(n, seen));
    P.EndApplied(db, cfg, P.ClaimSweep(n, seen));
    P.SweepApplied(a, cfg, P.Decide(n));
    assert OnlySweep(a, s, n, Claimed) && a.cancels == db.cancels && a.sessions[s].status == CleanupPending;
  }

  lemma RemovedAndFinished(db: Db, cfg: Config, s: nat, n: nat, at: Time)
    requires s in db.cancels && s in db.sessions && db.sessions[s].status == CleanupPending &&
             OnlySweep(db, s, n, Decided(Cancelled))
    ensures var b := P.Run(db, cfg, [P.RemoveFiles(n), P.Finish(n, at)]);
            s in b.cancels && s in b.sessions && !b.sessions[s].staged &&
            forall m :: m in b.sweeps && b.sweeps[m].session == s ==> b.sweeps[m].stage == Listed
  {
    hide P.Apply, P.Run;
    P.RunTwo(db, cfg, P.RemoveFiles(n), P.Finish(n, at));
    var a := P.Apply(db, cfg, P.RemoveFiles(n));
    P.SweepApplied(db, cfg, P.RemoveFiles(n));
    P.EndApplied(a, cfg, P.Finish(n, at));
    assert OnlySweep(a, s, n, Removed(Cancelled)) && a.sessions == db.sessions && a.cancels == db.cancels;
    assert P.Apply(a, cfg, P.Finish(n, at)).sweeps == a.sweeps - {n};
  }

  lemma FailedCancelStrands(db: Db, cfg: Config, s: nat)
    requires s in db.cancels && s in db.sessions && !db.sessions[s].staged
    requires forall m :: m in db.sweeps && db.sweeps[m].session == s ==> db.sweeps[m].stage == Listed
    ensures Stranded(P.Run(db, cfg, [P.CancelSweepFailed(s)]), s)
  {
    hide P.Apply, P.Run;
    P.RunOne(db, cfg, P.CancelSweepFailed(s));
    P.UploadApplied(db, cfg, P.CancelSweepFailed(s));
  }

  /** For every session that can be cancelled and that nobody cleans yet, that interleaving strands it. */
  lemma LateCancelStrands(db: Db, cfg: Config, s: nat)
    requires Links.Linked(db) && Uncleaned(db, s)
    ensures Stranded(P.Run(db, cfg, LateCancelRun(db.sessions[s].owner, s, db.nextSweep, db.clock)), s)
  {
    var n, now, user := db.nextSweep, db.clock, db.sessions[s].owner;
    var first, second := [P.Cancel(user, s), P.List(s)], [P.ClaimSweep(n, now), P.Decide(n)];
    var third, last := [P.RemoveFiles(n), P.Finish(n, now)], [P.CancelSweepFailed(s)];
    CancelledAndListed(db, cfg, s);
    ClaimedAndDecided(P.Run(db, cfg, first), cfg, s, n, now);
    P.RunConcat(db, cfg, first, second);
    RemovedAndFinished(P.Run(db, cfg, first + second), cfg, s, n, now);
    P.RunConcat(db, cfg, first + second, third);
    FailedCancelStrands(P.Run(db, cfg, first + second + third), cfg, s);
    P.RunConcat(db, cfg, first + second + third, last);
  }
}
