/** No stored file is lost: whatever is on disk outside staging is named by a row, wanted by a live
    job, queued for deletion, or listed for compensation by a Complete that failed. */
module Leaks {
  import opened Collections
  import opened Rows
  import opened Upload
  import opened Publish
  import opened Accounting
  import opened Retention
  import Deletion
  import Links
  import Sweeping
  import P = Pipeline

  ghost predicate QueuedIn(event: DeleteEvent, p: Path)
  {
    !event.published && p in event.paths
  }

  /** An unpublished deletion event names the path. */
  ghost predicate Queued(events: seq<DeleteEvent>, p: Path)
  {
    exists e: nat :: e < |events| && QueuedIn(events[e], p)
  }

  ghost predicate Kept(db: Db, p: Path)
  {
    Referenced(db.images, db.files, p) || (p.PublishTarget? && LiveJob(db.jobs, p.image)) || Queued(db.events, p)
  }

  /** The path is the target of one of the first n parts that session s promotes. */
  predicate Lists(sessions: map<nat, Session>, s: nat, n: nat, p: Path)
  {
    p.Stored? && n <= |PROMOTED| && p.kind in PROMOTED[..n] &&
    s in sessions && p.kind in sessions[s].parts && p.hash == sessions[s].parts[p.kind].blob.hash
  }

  /** A Complete that failed listed the path for compensation. */
  ghost predicate Owed(db: Db, p: Path)
  {
    exists x :: x in db.restores && Lists(db.sessions, x.0, x.1, p)
  }

  ghost predicate NothingLeaked(db: Db)
  {
    forall p {:trigger Kept(db, p)} :: p in db.disk && !p.Staged? ==> Kept(db, p) || Owed(db, p)
  }

  // ----- Dropping the last reference queues the path -----

  lemma LastEvent(events: seq<DeleteEvent>, paths: seq<Path>)
    ensures forall p :: p in paths ==> Queued(events + [DeleteEvent(paths, false)], p)
    ensures forall p :: Queued(events, p) ==> Queued(events + [DeleteEvent(paths, false)], p)
  {
    var after := events + [DeleteEvent(paths, false)];
    forall p | p in paths
      ensures Queued(after, p)
    {
      assert QueuedIn(after[|events|], p);
    }
    forall p | Queued(events, p)
      ensures Queued(after, p)
    {
      var e: nat :| e < |events| && QueuedIn(events[e], p);
      assert QueuedIn(after[e], p);
    }
  }

  ghost predicate StillNamed(db: Db, db': Db, p: Path)
  {
    Referenced(db.images, db.files, p) ==> Referenced(db'.images, db'.files, p) || Queued(db'.events, p)
  }

  /** An image is dropped together with a deletion event for its variants and for its file's last reference. */
  lemma DropQueues(db: Db, db': Db, i: nat, paths: seq<Path>)
    requires i in db.images && db'.images == db.images - {i} && db'.events == db.events + [DeleteEvent(paths, false)]
    requires db'.files == DropReference(db.files, db.images[i].file,
                                        ReferencesBelow(db.images - {i}, db.nextImage, db.images[i].file))
    requires forall p :: NamedBy(db.images[i].variants, p) ==> p in paths
    requires db.images[i].file in db.files && ReferencesBelow(db.images - {i}, db.nextImage, db.images[i].file) == 0 ==>
               db.files[db.images[i].file].original in paths && db.files[db.images[i].file].thumbnail in paths
    ensures forall p :: StillNamed(db, db', p)
  {
    LastEvent(db.events, paths);
    forall p | Referenced(db.images, db.files, p)
      ensures StillNamed(db, db', p)
    {
      if j :| j in db.images && NamedBy(db.images[j].variants, p) {
        assert j != i ==> j in db'.images && NamedBy(db'.images[j].variants, p);
      } else {
        var h :| h in db.files && (db.files[h].original == p || db.files[h].thumbnail == p);
        assert h in db'.files ==> Referenced(db'.images, db'.files, p);
      }
    }
  }

  lemma BuryQueues(db: Db, i: nat)
    requires Links.Linked(db) && LiveJob(db.jobs, i)
    ensures forall p :: StillNamed(db, Bury(db, i), p)
    ensures Queued(Bury(db, i).events, PublishTarget(i)) && forall p :: Queued(db.events, p) ==>
            Queued(Bury(db, i).events, p)
  {
    assert Links.JobOk(db, i);
    VariantPathsAre(db.images[i].variants);
    LastEvent(db.events, DeadPaths(db, i));
    DropQueues(db, Bury(db, i), i, DeadPaths(db, i));
  }

  lemma DeleteQueues(db: Db, i: nat)
    requires Links.Linked(db) && i in db.images && db.images[i].status == ImageCompleted &&
             db.images[i].file in db.files
    ensures forall p :: StillNamed(db, Deletion.DeleteRows(db, i), p)
    ensures forall p :: Queued(db.events, p) ==> Queued(Deletion.DeleteRows(db, i).events, p)
  {
    assert Links.ImageOk(db, i);
    var variants := db.images[i].variants;
    VariantPathsAre(variants);
    assert NamedBy(variants, variants[Master].path);
    LastEvent(db.events, Deletion.DeletePaths(db, i));
    DropQueues(db, Deletion.DeleteRows(db, i), i, Deletion.DeletePaths(db, i));
  }

  lemma ExchangeNames(variants: Variants, i: nat, blob: Blob, p: Path)
    requires NamedBy(variants, p) && Publish !in variants
    ensures NamedBy(PublishedVariants(variants, i, blob), p) ||
            (PublishSource in variants && variants[PublishSource].path == p)
  {
    var k :| k in variants && variants[k].path == p;
    if k != PublishSource {
      assert PublishedVariants(variants, i, blob)[k].path == p;
    }
  }

  /** The publish exchanges the row of the staged source for the row of the target. */
  lemma CommitNames(db: Db, t: nat, p: Path)
    requires Links.Linked(db) && t in db.claims && db.claims[t].inspected.Some? && db.claims[t].stagingClean.Some?
    requires Commit(db, t).1 == Published && Referenced(db.images, db.files, p)
    ensures Referenced(Commit(db, t).0.images, db.files, p) || p == SourceOf(db.jobs[db.claims[t].image])
  {
    hide Commit;
    CommitImages(db, t);
    var i := db.claims[t].image;
    assert Links.JobOk(db, i);
    if j :| j in db.images && NamedBy(db.images[j].variants, p) {
      if j == i {
        ExchangeNames(db.images[i].variants, i, db.claims[t].inspected.value, p);
      }
      assert NamedBy(Commit(db, t).0.images[j].variants, p) || p == SourceOf(db.jobs[i]);
    }
  }

  lemma CommitNamesTarget(db: Db, t: nat)
    requires t in db.claims && db.claims[t].inspected.Some? && db.claims[t].stagingClean.Some?
    requires Commit(db, t).1 == Published
    ensures Referenced(Commit(db, t).0.images, db.files, PublishTarget(db.claims[t].image))
  {
    var i := db.claims[t].image;
    var variants := Commit(db, t).0.images[i].variants;
    assert variants[Publish].path == PublishTarget(i);
    assert NamedBy(variants, PublishTarget(i));
  }

  lemma EnterNames(db: Db, s: nat, disk: Disk, watermark: bool, p: Path)
    requires Links.Linked(db) && s in db.sessions && forall k :: k in UPLOAD_KINDS ==> k in db.sessions[s].parts
    requires Referenced(db.images, db.files, p) || p in Targets(db.sessions[s].parts)
    ensures var db' := EnterProcessing(db, s, disk, watermark); Referenced(db'.images, db'.files, p)
  {
    var db' := EnterProcessing(db, s, disk, watermark);
    var i := db.nextImage;
    assert i in db.images ==> Links.ImageOk(db, i);
    if j :| j in db.images && NamedBy(db.images[j].variants, p) {
      assert NamedBy(db'.images[j].variants, p);
    } else if h :| h in db.files && (db.files[h].original == p || db.files[h].thumbnail == p) {
      assert h in db'.files && (db'.files[h].original == p || db'.files[h].thumbnail == p);
    } else {
      NewVariantNames(s, db.sessions[s].parts, p);
      assert NamedBy(db'.images[i].variants, p);
    }
  }

  lemma NewVariantNames(s: nat, parts: Parts, p: Path)
    requires (forall k :: k in UPLOAD_KINDS ==> k in parts) && p in Targets(parts)
    ensures NamedBy(ProcessingVariants(s, parts), p)
  {
    var variants := ProcessingVariants(s, parts);
    assert Master in variants && Gallery in variants && Admin in variants;
  }

  // ----- Every step -----

  /** What was kept is kept, and a file that appears is kept or owed. */
  ghost predicate KeptNext(db: Db, db': Db)
  {
    forall p :: p in db'.disk && !p.Staged? && (p in db.disk ==> Kept(db, p)) ==> Kept(db', p) || Owed(db', p)
  }

  /** What is owed stays owed, because no step changes the content of a part. */
  lemma OwedLasts(db: Db, db': Db, p: Path)
    requires Lasting(db, db') && db.restores <= db'.restores && Owed(db, p)
    ensures Owed(db', p)
  {
    var x :| x in db.restores && Lists(db.sessions, x.0, x.1, p);
    assert SessionNext(db.sessions, db'.sessions, db.clock, x.0);
    assert Lists(db'.sessions, x.0, x.1, p);
  }

  lemma LeakStep(db: Db, db': Db)
    requires NothingLeaked(db) && KeptNext(db, db') && Lasting(db, db') && db.restores <= db'.restores
    ensures NothingLeaked(db')
  {
    forall p | p in db'.disk && !p.Staged?
      ensures Kept(db', p) || Owed(db', p)
    {
      if p in db.disk && !Kept(db, p) {
        OwedLasts(db, db', p);
      }
    }
  }

  ghost predicate SameNames(db: Db, db': Db)
  {
    db'.images == db.images && db'.files == db.files && db'.events == db.events &&
    forall i :: LiveJob(db.jobs, i) ==> LiveJob(db'.jobs, i)
  }

  lemma QuietStep(db: Db, db': Db)
    requires SameNames(db, db')
    requires forall p :: p in db'.disk && !p.Staged? && p !in db.disk ==> Kept(db', p) || Owed(db', p)
    ensures KeptNext(db, db')
  {
  }

  /** Every target that the first n promotions create is one that the loop has listed. */
  lemma {:induction false} PromotionAdds(disk: Disk, s: nat, parts: Parts, n: nat)
    requires n <= |PROMOTED| && forall k :: k in PROMOTED ==> k in parts
    ensures forall p :: p in PromoteFirst(disk, s, parts, n).disk && p !in disk ==>
              p.Stored? && p.kind in PROMOTED[..ListedFirst(disk, s, parts, n)] && p.hash == parts[p.kind].blob.hash
  {
    if n > 0 {
      PromotionAdds(disk, s, parts, n - 1);
      assert PROMOTED[n - 1] in PROMOTED[..n];
      forall k | k in PROMOTED[..n - 1]
        ensures k in PROMOTED[..n]
      {
      }
      if PromoteFirst(disk, s, parts, n - 1).ok {
        assert ListedFirst(disk, s, parts, n) == n;
        forall k | k in PROMOTED[..ListedFirst(disk, s, parts, n - 1)]
          ensures k in PROMOTED[..n]
        {
        }
      }
    }
  }

  lemma {:induction false} RestoreAdds(disk: Disk, s: nat, parts: Parts, n: nat)
    requires n <= |PROMOTED| && forall k :: k in PROMOTED ==> k in parts
    ensures forall p :: p in RestoreFirst(disk, s, parts, n).disk && p !in disk ==> p.Staged?
  {
    if n > 0 {
      RestoreAdds(disk, s, parts, n - 1);
    }
  }

  /** Where the parts that s lists and a failed Complete promoted are the only new files, these are owed. */
  lemma ListedOwed(db: Db, db': Db, s: nat, n: nat, listed: nat)
    requires SameNames(db, db') && s in db.sessions && db'.sessions == db.sessions && n <= listed <= |PROMOTED|
    requires (forall k :: k in PROMOTED ==> k in db.sessions[s].parts) && (s, listed) in db'.restores
    requires forall p :: p in db'.disk && !p.Staged? && p !in db.disk ==> Lists(db.sessions, s, n, p)
    ensures KeptNext(db, db')
  {
    forall p | p in db'.disk && !p.Staged? && p !in db.disk
      ensures Owed(db', p)
    {
      var j :| 0 <= j < n && PROMOTED[j] == p.kind;
      assert PROMOTED[..listed][j] == p.kind;
      assert Lists(db'.sessions, (s, listed).0, (s, listed).1, p);
    }
    QuietStep(db, db');
  }

  lemma InterruptedKeeps(db: Db, user: nat, s: nat, n: nat, listed: nat)
    requires n <= listed <= |PROMOTED|
    ensures KeptNext(db, CompleteInterrupted(db, user, s, n, listed))
  {
    if CompleteGuard(db, user, s) == None {
      var parts := db.sessions[s].parts;
      PromotionAdds(db.disk, s, parts, n);
      ListedOwed(db, CompleteInterrupted(db, user, s, n, listed), s, ListedFirst(db.disk, s, parts, n), listed);
    }
  }

  lemma CompleteKeeps(db: Db, user: nat, s: nat, watermark: bool)
    requires Links.Linked(db)
    ensures KeptNext(db, Complete(db, user, s, watermark).0)
  {
    var db' := Complete(db, user, s, watermark).0;
    if CompleteGuard(db, user, s) == None {
      var promotion := PromoteFirst(db.disk, s, db.sessions[s].parts, |PROMOTED|);
      PromotionAdds(db.disk, s, db.sessions[s].parts, |PROMOTED|);
      if promotion.ok {
        EnterKeeps(db, s, promotion.disk, watermark);
      } else {
        var listed := ListedFirst(db.disk, s, db.sessions[s].parts, |PROMOTED|);
        ListedOwed(db, db', s, listed, listed);
      }
    }
  }

  lemma EnterKeeps(db: Db, s: nat, disk: Disk, watermark: bool)
    requires Links.Linked(db) && s in db.sessions && forall k :: k in UPLOAD_KINDS ==> k in db.sessions[s].parts
    requires forall p :: p in disk && p !in db.disk ==>
               p.Stored? && p.kind in PROMOTED && p.hash == db.sessions[s].parts[p.kind].blob.hash
    ensures KeptNext(db, EnterProcessing(db, s, disk, watermark))
  {
    var db' := EnterProcessing(db, s, disk, watermark);
    assert db.nextImage in db.jobs ==> Links.JobOk(db, db.nextImage);
    forall p | p in db'.disk && !p.Staged? && (p in db.disk ==> Kept(db, p))
      ensures Kept(db', p)
    {
      if Referenced(db.images, db.files, p) || p in Targets(db.sessions[s].parts) {
        EnterNames(db, s, disk, watermark, p);
      }
    }
  }

  lemma RestoreKeeps(db: Db, s: nat, n: nat)
    requires n <= |PROMOTED|
    ensures KeptNext(db, Restore(db, s, n).0)
  {
    if s in db.sessions && forall k :: k in PROMOTED ==> k in db.sessions[s].parts {
      RestoreAdds(db.disk, s, db.sessions[s].parts, n);
      QuietStep(db, Restore(db, s, n).0);
    }
  }

  lemma CommitKeeps(db: Db, t: nat)
    requires Links.Linked(db) && t in db.claims && db.claims[t].inspected.Some? && db.claims[t].stagingClean.Some?
    ensures KeptNext(db, Commit(db, t).0)
  {
    var db' := Commit(db, t).0;
    if Commit(db, t).1 == Published {
      CommitNamesTarget(db, t);
      forall p | p in db'.disk && !p.Staged? && Kept(db, p)
        ensures Kept(db', p)
      {
        if Referenced(db.images, db.files, p) {
          CommitNames(db, t, p);
        }
      }
    }
  }

  lemma BuryKeeps(db: Db, i: nat)
    requires Links.Linked(db) && LiveJob(db.jobs, i)
    ensures KeptNext(db, Bury(db, i))
  {
    var db' := Bury(db, i);
    BuryQueues(db, i);
    forall p | p in db'.disk && !p.Staged? && Kept(db, p)
      ensures Kept(db', p)
    {
      assert StillNamed(db, db', p);
    }
  }

  lemma FailKeeps(db: Db, t: nat, overQuota: bool)
    requires Links.Linked(db)
    ensures KeptNext(db, Fail(db, t, overQuota).0)
  {
    var db' := Fail(db, t, overQuota).0;
    if Fenced(db.jobs, db.claims, t) {
      if db' == Bury(db, db.claims[t].image) {
        BuryKeeps(db, db.claims[t].image);
      } else {
        QuietStep(db, db');
      }
    }
  }

  lemma DeleteKeeps(db: Db, user: nat, isAdmin: bool, i: nat)
    requires Links.Linked(db)
    ensures KeptNext(db, Deletion.DeleteImage(db, user, isAdmin, i).0)
  {
    var db' := Deletion.DeleteImage(db, user, isAdmin, i).0;
    if Deletion.DeleteImage(db, user, isAdmin, i).1.Deleted? {
      DeleteQueues(db, i);
      assert Links.ImageOk(db, i);
      forall p | p in db'.disk && !p.Staged? && Kept(db, p)
        ensures Kept(db', p)
      {
        assert StillNamed(db, db', p);
      }
    }
  }

  /** An event is acknowledged only when everything that it names is gone or named by a row. */
  lemma DeliverKeeps(db: Db, e: nat, n: nat, acknowledged: bool)
    ensures KeptNext(db, Deletion.Deliver(db, e, n, acknowledged))
  {
    var db' := Deletion.Deliver(db, e, n, acknowledged);
    if e < |db.events| && !db.events[e].published && n <= |db.events[e].paths| {
      var paths := db.events[e].paths;
      assert n == |paths| ==> paths[..n] == paths;
      Deletion.Survivors(db.images, db.files, db.disk, paths[..n]);
      forall p | p in db'.disk && !p.Staged? && Kept(db, p)
        ensures Kept(db', p)
      {
        if Queued(db.events, p) {
          var f: nat :| f < |db.events| && QueuedIn(db.events[f], p);
          assert f != e ==> QueuedIn(db'.events[f], p);
          assert n < |paths| || !acknowledged ==> QueuedIn(db'.events[f], p);
        }
      }
    }
  }

  lemma CleanupKeeps(db: Db, paths: seq<Path>)
    ensures KeptNext(db, Deletion.CleanupFiles(db, paths))
  {
    Deletion.Survivors(db.images, db.files, db.disk, paths);
    QuietStep(db, Deletion.CleanupFiles(db, paths));
  }

  lemma PromoteTargetKeeps(db: Db, t: nat)
    ensures KeptNext(db, PromoteTarget(db, t).0)
  {
    QuietStep(db, PromoteTarget(db, t).0);
  }

  lemma RemoveSourceKeeps(db: Db, t: nat)
    ensures KeptNext(db, RemoveSource(db, t))
  {
    QuietStep(db, RemoveSource(db, t));
  }

  lemma PutKeeps(db: Db, user: nat, s: nat, k: Kind, body: Blob)
    ensures KeptNext(db, PutPart(db, user, s, k, body).0)
  {
    QuietStep(db, PutPart(db, user, s, k, body).0);
  }

  lemma RolledBackKeeps(db: Db, user: nat, s: nat, k: Kind, body: Blob)
    ensures KeptNext(db, PutPartRolledBack(db, user, s, k, body))
  {
    QuietStep(db, PutPartRolledBack(db, user, s, k, body));
  }

  lemma SweptKeeps(db: Db, s: nat)
    ensures KeptNext(db, CancelSwept(db, s))
  {
    QuietStep(db, CancelSwept(db, s));
  }

  lemma RemoveFilesKeeps(db: Db, n: nat)
    ensures KeptNext(db, Sweeping.RemoveFiles(db, n))
  {
    QuietStep(db, Sweeping.RemoveFiles(db, n));
  }

  lemma CleanOrphanKeeps(db: Db, s: nat)
    ensures KeptNext(db, Sweeping.CleanOrphan(db, s))
  {
    QuietStep(db, Sweeping.CleanOrphan(db, s));
  }

  predicate SilentStep(step: P.Step)
  {
    step.Tick? || step.Init? || step.Cancel? || step.CancelSweepFailed? || step.List? || step.ClaimSweep? ||
    step.Decide? || step.Finish? || step.TrySweepStaging? || step.Inspect? || step.Render? || step.RemoveRendering? ||
    P.LeaseStep(step)
  }

  lemma SweepNames(db: Db, cfg: Config, step: P.Step)
    requires (step.List? || step.Decide?) && P.Possible(db, step)
    ensures SameNames(db, P.Apply(db, cfg, step)) && P.Apply(db, cfg, step).disk == db.disk
  {
    hide P.Apply;
    P.SweepApplied(db, cfg, step);
  }

  lemma UploadNames(db: Db, cfg: Config, step: P.Step)
    requires (step.Init? || step.Cancel? || step.CancelSweepFailed?) && P.Possible(db, step)
    ensures SameNames(db, P.Apply(db, cfg, step)) && P.Apply(db, cfg, step).disk == db.disk
  {
    hide P.Apply, Upload.Init, Upload.Cancel, Upload.CancelSweepFailed;
    P.UploadApplied(db, cfg, step);
  }

  lemma FileNames(db: Db, cfg: Config, step: P.Step)
    requires P.FileStep(step) && SilentStep(step) && P.Possible(db, step)
    ensures SameNames(db, P.Apply(db, cfg, step)) && P.Apply(db, cfg, step).disk == db.disk
  {
    hide P.Apply, Publish.TrySweepStaging, Publish.Inspect;
    P.FileApplied(db, cfg, step);
  }

  lemma SilentStepNames(db: Db, cfg: Config, step: P.Step)
    requires SilentStep(step)
    ensures SameNames(db, P.Apply(db, cfg, step)) && P.Apply(db, cfg, step).disk == db.disk
  {
    hide P.Apply;
    if !P.Possible(db, step) {
      P.Impossible(db, cfg, step);
    } else if P.LeaseStep(step) {
      Links.LeaseStepRows(db, cfg, step);
    } else if P.SweepStep(step) {
      SweepNames(db, cfg, step);
    } else if P.UploadStep(step) {
      UploadNames(db, cfg, step);
    } else if P.EndStep(step) {
      Links.EndStepRows(db, cfg, step);
      Fencing.EndKeepsJobs(db, cfg, step);
    } else {
      FileNames(db, cfg, step);
    }
  }

  lemma UploadKeeps(db: Db, cfg: Config, step: P.Step)
    requires Links.Linked(db) && (step.PutPart? || step.Complete? || step.CancelSwept?) && P.Possible(db, step)
    ensures KeptNext(db, P.Apply(db, cfg, step))
  {
    hide P.Apply, KeptNext;
    P.UploadApplied(db, cfg, step);
    match step
    case PutPart(user, s, k, body) => PutKeeps(db, user, s, k, body);
    case Complete(user, s, watermark) => CompleteKeeps(db, user, s, watermark);
    case CancelSwept(s) => SweptKeeps(db, s);
  }

  lemma FileKeeps(db: Db, cfg: Config, step: P.Step)
    requires P.FileStep(step) && !SilentStep(step) && P.Possible(db, step)
    ensures KeptNext(db, P.Apply(db, cfg, step))
  {
    hide P.Apply, KeptNext;
    P.FileApplied(db, cfg, step);
    match step
    case PutPartRolledBack(user, s, k, body) => RolledBackKeeps(db, user, s, k, body);
    case CompleteInterrupted(user, s, n, listed) => InterruptedKeeps(db, user, s, n, listed);
    case Restore(s, n) => RestoreKeeps(db, s, n);
    case PromoteTarget(t) => PromoteTargetKeeps(db, t);
    case RemoveSource(t) => RemoveSourceKeeps(db, t);
    case CleanupFiles(paths) => CleanupKeeps(db, paths);
    case Deliver(e, n, acknowledged) => DeliverKeeps(db, e, n, acknowledged);
  }

  lemma EndKeeps(db: Db, cfg: Config, step: P.Step)
    requires Links.Linked(db) && (step.Commit? || step.Fail? || step.DeleteImage?) && P.Possible(db, step)
    ensures KeptNext(db, P.Apply(db, cfg, step))
  {
    hide P.Apply, KeptNext;
    P.EndApplied(db, cfg, step);
    match step
    case Commit(t) => CommitKeeps(db, t);
    case Fail(t, overQuota) => FailKeeps(db, t, overQuota);
    case DeleteImage(user, isAdmin, i) => DeleteKeeps(db, user, isAdmin, i);
  }

  // ----- Who lists -----

  /** Complete failed or stopped after it may have promoted parts. */
  predicate FailsToComplete(db: Db, step: P.Step)
  {
    (step.CompleteInterrupted? || step.Complete?) && P.Possible(db, step) &&
    CompleteGuard(db, step.user, step.session) == None &&
    (step.Complete? ==> Complete(db, step.user, step.session, step.watermark).1 == PromotionFailed)
  }

  /** How many parts it listed for compensation then. */
  function Listed(db: Db, step: P.Step): nat
    requires FailsToComplete(db, step)
  {
    if step.CompleteInterrupted? then step.listed
    else ListedFirst(db.disk, step.session, db.sessions[step.session].parts, |PROMOTED|)
  }

  /** Only a Complete that fails adds to the history, and only what it listed. */
  ghost predicate HistoryNext(db: Db, db': Db, step: P.Step)
  {
    db.restores <= db'.restores &&
    forall x :: x in db'.restores - db.restores ==> FailsToComplete(db, step) && x == (step.session, Listed(db, step))
  }

  lemma SameHistory(db: Db, db': Db, step: P.Step)
    requires db'.restores == db.restores
    ensures HistoryNext(db, db', step)
  {
  }

  lemma CompleteHistory(db: Db, user: nat, s: nat, watermark: bool)
    ensures HistoryNext(db, Complete(db, user, s, watermark).0, P.Complete(user, s, watermark))
  {
  }

  lemma InterruptedHistory(db: Db, user: nat, s: nat, n: nat, listed: nat)
    requires P.Possible(db, P.CompleteInterrupted(user, s, n, listed))
    ensures HistoryNext(db, CompleteInterrupted(db, user, s, n, listed), P.CompleteInterrupted(user, s, n, listed))
  {
  }

  lemma UploadHistory(db: Db, cfg: Config, step: P.Step)
    requires P.UploadStep(step) && P.Possible(db, step)
    ensures HistoryNext(db, P.Apply(db, cfg, step), step)
  {
    hide P.Apply, HistoryNext, Upload.Complete, Upload.Init, Upload.PutPart, Upload.Cancel, Upload.CancelSwept,
         Upload.CancelSweepFailed;
    P.UploadApplied(db, cfg, step);
    if step.Complete? {
      CompleteHistory(db, step.user, step.session, step.watermark);
    } else {
      SameHistory(db, P.Apply(db, cfg, step), step);
    }
  }

  lemma FileHistory(db: Db, cfg: Config, step: P.Step)
    requires P.FileStep(step) && P.Possible(db, step)
    ensures HistoryNext(db, P.Apply(db, cfg, step), step)
  {
    hide P.Apply, HistoryNext, Upload.PutPartRolledBack, Upload.CompleteInterrupted, Upload.Restore,
         Publish.PromoteTarget, Publish.Render, Publish.RemoveRendering, Publish.Inspect, Publish.RemoveSource,
         Publish.TrySweepStaging, Deletion.CleanupFiles, Deletion.Deliver;
    P.FileApplied(db, cfg, step);
    if step.CompleteInterrupted? {
      InterruptedHistory(db, step.user, step.session, step.promoted, step.listed);
    } else {
      SameHistory(db, P.Apply(db, cfg, step), step);
    }
  }

  lemma StepHistory(db: Db, cfg: Config, step: P.Step)
    ensures HistoryNext(db, P.Apply(db, cfg, step), step)
  {
    hide P.Apply, HistoryNext;
    if !P.Possible(db, step) {
      P.Impossible(db, cfg, step);
      SameHistory(db, db, step);
    } else if P.LeaseStep(step) {
      Links.LeaseStepRows(db, cfg, step);
      SameHistory(db, P.Apply(db, cfg, step), step);
    } else if P.SweepStep(step) {
      Links.SweepStepRows(db, cfg, step);
      SameHistory(db, P.Apply(db, cfg, step), step);
    } else if P.EndStep(step) {
      Links.EndStepRows(db, cfg, step);
      SameHistory(db, P.Apply(db, cfg, step), step);
    } else if P.UploadStep(step) {
      UploadHistory(db, cfg, step);
    } else {
      FileHistory(db, cfg, step);
    }
  }

  lemma StepKept(db: Db, cfg: Config, step: P.Step)
    requires Links.Linked(db) && P.Possible(db, step)
    ensures KeptNext(db, P.Apply(db, cfg, step))
  {
    hide P.Apply, KeptNext;
    if SilentStep(step) {
      SilentStepNames(db, cfg, step);
      QuietStep(db, P.Apply(db, cfg, step));
    } else if P.UploadStep(step) {
      UploadKeeps(db, cfg, step);
    } else if P.FileStep(step) {
      FileKeeps(db, cfg, step);
    } else if P.EndStep(step) {
      EndKeeps(db, cfg, step);
    } else {
      P.SweepApplied(db, cfg, step);
      if step.RemoveFiles? {
        RemoveFilesKeeps(db, step.sweep);
      } else {
        CleanOrphanKeeps(db, step.session);
      }
    }
  }

  lemma StepLeaks(db: Db, cfg: Config, step: P.Step)
    requires Links.Linked(db) && NothingLeaked(db)
    ensures NothingLeaked(P.Apply(db, cfg, step))
  {
    hide P.Apply, Links.Linked;
    if P.Possible(db, step) {
      StepKept(db, cfg, step);
      StepLasts(db, cfg, step);
      StepHistory(db, cfg, step);
      LeakStep(db, P.Apply(db, cfg, step));
    } else {
      P.Impossible(db, cfg, step);
    }
  }
}
