/** What each filesystem action of the pipeline does, said on the files and rows before and after it: the
    promotions and their compensation, the execution of a job, the removal of staging, and the two ways in
    which a file leaves the storage.  Nothing here is said through the functions that define the actions. */
module FileLaws {
  import opened Collections
  import opened Rows
  import opened Requests
  import Accounting
  import Cleanups
  import Deletion
  import Fencing
  import Jobs
  import Links
  import Publish
  import Sweeping
  import Upload
  import T = Theorems
  import P = Pipeline

  // ----- Compensation -----

  /** The part left staging for its place in the storage, where it still is. */
  predicate Recoverable(db: Db, s: nat, k: Kind)
  {
    s in db.sessions && k in db.sessions[s].parts && Staged(s, k) !in db.disk &&
    Stored(k, db.sessions[s].parts[k].blob.hash) in db.disk &&
    db.disk[Stored(k, db.sessions[s].parts[k].blob.hash)] == db.sessions[s].parts[k].blob
  }

  /** Exactly these of the first n parts come back, and nothing else changes. */
  ghost predicate Restored(db: Db, disk: Disk, s: nat, n: nat)
  {
    forall p: Path :: if p.Staged? && p.session == s && AmongFirst(p.part, n) && Recoverable(db, s, p.part)
                then p in disk && disk[p] == db.sessions[s].parts[p.part].blob
                else (p in disk <==> p in db.disk) && (p in disk ==> disk[p] == db.disk[p])
  }

  /** The listed paths are the places of the first n parts that have their copy in staging now. */
  ghost predicate Listed(db: Db, disk: Disk, listed: seq<Path>, s: nat, n: nat)
  {
    forall p :: p in listed <==>
      s in db.sessions && p.Stored? && AmongFirst(p.kind, n) && p.kind in db.sessions[s].parts &&
      p.hash == db.sessions[s].parts[p.kind].blob.hash &&
      Staged(s, p.kind) in disk && disk[Staged(s, p.kind)] == db.sessions[s].parts[p.kind].blob
  }

  lemma {:induction false} RestoredFirst(db: Db, s: nat, n: nat)
    requires n <= |PROMOTED| && s in db.sessions && forall k :: k in PROMOTED ==> k in db.sessions[s].parts
    ensures var r := Upload.RestoreFirst(db.disk, s, db.sessions[s].parts, n);
            Restored(db, r.disk, s, n) && Listed(db, r.disk, r.cleanup, s, n)
  {
    if n > 0 {
      RestoredFirst(db, s, n - 1);
      NextRestored(db, s, n - 1);
    }
  }

  lemma PartRestored(before: Upload.Restoration, s: nat, k: Kind, blob: Blob)
    ensures var r := Upload.RestorePart(before, s, k, blob);
            r.disk == (if Staged(s, k) !in before.disk && Stored(k, blob.hash) in before.disk &&
                          before.disk[Stored(k, blob.hash)] == blob
                       then before.disk[Staged(s, k) := blob] else before.disk) &&
            r.cleanup == before.cleanup + if Staged(s, k) in r.disk && r.disk[Staged(s, k)] == blob
                                          then [Stored(k, blob.hash)] else []
  {
  }

  lemma NextRestored(db: Db, s: nat, n: nat)
    requires n < |PROMOTED| && s in db.sessions && forall k :: k in PROMOTED ==> k in db.sessions[s].parts
    requires var r := Upload.RestoreFirst(db.disk, s, db.sessions[s].parts, n);
             Restored(db, r.disk, s, n) && Listed(db, r.disk, r.cleanup, s, n)
    ensures var r := Upload.RestoreFirst(db.disk, s, db.sessions[s].parts, n + 1);
            Restored(db, r.disk, s, n + 1) && Listed(db, r.disk, r.cleanup, s, n + 1)
  {
    var k := PROMOTED[n];
    var before := Upload.RestoreFirst(db.disk, s, db.sessions[s].parts, n);
    var r := Upload.RestorePart(before, s, k, db.sessions[s].parts[k].blob);
    assert Upload.RestoreFirst(db.disk, s, db.sessions[s].parts, n + 1) == r;
    PartRestored(before, s, k, db.sessions[s].parts[k].blob);
    OneMore(n);
    hide Upload.RestoreFirst, Upload.RestorePart, AmongFirst, Restored, Listed, Recoverable;
    RestoredNext(db, before.disk, r.disk, s, n);
    ListedNext(db, before, r, s, n);
  }

  lemma RestoredNext(db: Db, before: Disk, disk: Disk, s: nat, n: nat)
    requires n < |PROMOTED| && s in db.sessions && PROMOTED[n] in db.sessions[s].parts && Restored(db, before, s, n)
    requires var k, blob := PROMOTED[n], db.sessions[s].parts[PROMOTED[n]].blob;
             var target := Stored(k, blob.hash);
             disk == if Staged(s, k) !in before && target in before && before[target] == blob
                     then before[Staged(s, k) := blob] else before
    ensures Restored(db, disk, s, n + 1)
  {
    OneMore(n);
    hide AmongFirst;
  }

  lemma ListedNext(db: Db, before: Upload.Restoration, r: Upload.Restoration, s: nat, n: nat)
    requires n < |PROMOTED| && s in db.sessions && PROMOTED[n] in db.sessions[s].parts
    requires Listed(db, before.disk, before.cleanup, s, n)
    requires var k, blob := PROMOTED[n], db.sessions[s].parts[PROMOTED[n]].blob;
             (r.disk == before.disk || r.disk == before.disk[Staged(s, k) := blob]) &&
             r.cleanup == before.cleanup + if Staged(s, k) in r.disk && r.disk[Staged(s, k)] == blob
                                           then [Stored(k, blob.hash)] else []
    ensures Listed(db, r.disk, r.cleanup, s, n + 1)
  {
    OneMore(n);
    hide AmongFirst;
  }

  /** The compensation that a failed Complete owes: staging gets its copies back, the storage keeps its files, and
      what may be deleted of these is told. */
  lemma RestoreLaw(quotas: map<nat, nat>, cfg: Config, steps: seq<P.Step>, s: nat, n: nat)
    requires n <= |PROMOTED| && (s, n) in T.Reach(quotas, cfg, steps).restores
    ensures var db := T.Reach(quotas, cfg, steps);
            var db' := P.Apply(db, cfg, P.Restore(s, n));
            db' == db.(disk := db'.disk) && Restored(db, db'.disk, s, n) &&
            Listed(db, db'.disk, Upload.Restore(db, s, n).1, s, n)
  {
    hide T.Reach, P.Apply, Restored, Listed;
    T.Reachable(quotas, cfg, steps);
    var db := T.Reach(quotas, cfg, steps);
    P.FileApplied(db, cfg, P.Restore(s, n));
    RestoreRows(db, s, n);
  }

  lemma RestoreRows(db: Db, s: nat, n: nat)
    requires n <= |PROMOTED| && Links.Linked(db)
    ensures var (db', listed) := Upload.Restore(db, s, n);
            db' == db.(disk := db'.disk) && Restored(db, db'.disk, s, n) && Listed(db, db'.disk, listed, s, n)
  {
    if s in db.sessions {
      assert Links.SessionOk(db, s);
      assert forall k :: k in PROMOTED ==> k in UPLOAD_KINDS;
      RestoredFirst(db, s, n);
      hide Upload.RestoreFirst, Restored, Listed;
    }
  }

  /** A Complete that stops after n promotions, before its commit, leaves the parts moved as far as it came, and the
      compensation of what it listed. */
  lemma InterruptedLaw(quotas: map<nat, nat>, cfg: Config, steps: seq<P.Step>, user: nat, s: nat, n: nat, listed: nat)
    requires P.Possible(T.Reach(quotas, cfg, steps), P.CompleteInterrupted(user, s, n, listed))
    ensures var db := T.Reach(quotas, cfg, steps);
            var db' := P.Apply(db, cfg, P.CompleteInterrupted(user, s, n, listed));
            if Open(db, user, s) && AllArrived(db.sessions[s]) then
              db' == db.(disk := db'.disk, restores := db.restores + {(s, listed)}) &&
              MovedUpTo(db.disk, db'.disk, s, db.sessions[s], n)
            else db' == db
  {
    hide T.Reach, P.Apply, MovedUpTo, Upload.PromoteFirst;
    T.Reachable(quotas, cfg, steps);
    var db := T.Reach(quotas, cfg, steps);
    P.FileApplied(db, cfg, P.CompleteInterrupted(user, s, n, listed));
    GuardIs(db, user, s);
    if Open(db, user, s) && AllArrived(db.sessions[s]) {
      Upload.GuardOpens(db, user, s);
      PromotedUpTo(db, s, n);
    }
  }

  // ----- The end of a cancellation -----

  /** A cancellation removes the staging of its session; if that fails, the session waits for a cleanup. */
  lemma CancelEndLaw(db: Db, cfg: Config, s: nat)
    requires s in db.cancels ==> s in db.sessions
    ensures var swept := P.Apply(db, cfg, P.CancelSwept(s));
            var failed := P.Apply(db, cfg, P.CancelSweepFailed(s));
            if s in db.cancels then
              swept == db.(disk := swept.disk, cancels := db.cancels - {s}) &&
              Cleanups.Emptied(db.disk, swept.disk, s) &&
              failed == db.(sessions := db.sessions[s := db.sessions[s].(status := CleanupPending)],
                            cancels := db.cancels - {s})
            else swept == db && failed == db
  {
    hide P.Apply;
    P.UploadApplied(db, cfg, P.CancelSwept(s));
    P.UploadApplied(db, cfg, P.CancelSweepFailed(s));
    Cleanups.StagingEmptied(db.disk, s);
  }

  /** The orphan scan removes the directory of a session that has no row, and no other. */
  lemma OrphanLaw(db: Db, cfg: Config, s: nat)
    ensures var db' := P.Apply(db, cfg, P.CleanOrphan(s));
            if s in db.sessions then db' == db
            else db' == db.(disk := db'.disk) && Cleanups.Emptied(db.disk, db'.disk, s)
  {
    hide P.Apply;
    P.SweepApplied(db, cfg, P.CleanOrphan(s));
    Cleanups.StagingEmptied(db.disk, s);
  }

  // ----- The execution of a job -----

  /** The rendering of a job that needs one is there under its token until it is moved or removed. */
  lemma RenderLaw(db: Db, cfg: Config, t: nat, output: Rendering)
    ensures var rendered := P.Apply(db, cfg, P.Render(t, output));
            P.Apply(db, cfg, P.RemoveRendering(t)) == db.(renderings := db.renderings - {t}) &&
            if t in db.claims && db.claims[t].image in db.jobs && db.jobs[db.claims[t].image].watermark
            then rendered == db.(renderings := db.renderings[t := output])
            else rendered == db
  {
    hide P.Apply;
    P.FileApplied(db, cfg, P.Render(t, output));
    P.FileApplied(db, cfg, P.RemoveRendering(t));
  }

  /** The holder of the job finds its target or creates it, from its rendering if the job needs one and from the
      publish source if not; the file that it takes is no longer where it was. */
  lemma PromoteLaw(quotas: map<nat, nat>, cfg: Config, steps: seq<P.Step>, t: nat)
    ensures var db := T.Reach(quotas, cfg, steps);
            var db', ok := P.Apply(db, cfg, P.PromoteTarget(t)), Publish.PromoteTarget(db, t).1;
            if !Jobs.Holder(db, t) then db' == db && !ok
            else
              var target := PublishTarget(db.claims[t].image);
              var source := Staged(db.jobs[db.claims[t].image].session, PublishSource);
              if target in db.disk then db' == db && ok
              else if db.jobs[db.claims[t].image].watermark then
                if t in db.renderings then
                  ok && db' == db.(disk := db.disk[target := db.renderings[t]], renderings := db.renderings - {t})
                else db' == db && !ok
              else if source in db.disk then ok && db' == db.(disk := (db.disk - {source})[target := db.disk[source]])
              else db' == db && !ok
  {
    hide T.Reach, P.Apply;
    T.Reachable(quotas, cfg, steps);
    var db := T.Reach(quotas, cfg, steps);
    P.FileApplied(db, cfg, P.PromoteTarget(t));
    Jobs.HolderIsFenced(db, t);
  }

  /** A worker reads the target as it is, then removes the publish source, then looks whether the staging is empty;
      it can find it clean only if it is, and reads the clock for its transaction then. */
  lemma TidyLaw(db: Db, cfg: Config, t: nat, clean: bool)
    requires t in db.claims && db.claims[t].image in db.jobs
    ensures var claim, s := db.claims[t], db.jobs[db.claims[t].image].session;
            P.Apply(db, cfg, P.Inspect(t)) ==
              (if PublishTarget(claim.image) in db.disk
               then db.(claims := db.claims[t := claim.(inspected := Some(db.disk[PublishTarget(claim.image)]))])
               else db) &&
            P.Apply(db, cfg, P.RemoveSource(t)) ==
              (if claim.inspected.Some? then db.(disk := db.disk - {Staged(s, PublishSource)}) else db) &&
            P.Apply(db, cfg, P.TrySweepStaging(t, clean)) ==
              if claim.inspected.Some? && (clean ==> forall k :: Staged(s, k) !in db.disk)
              then db.(claims := db.claims[t := claim.(stagingClean := Some(clean), seen := db.clock)])
              else db
  {
    hide P.Apply, Publish.StagingEmpty;
    P.FileApplied(db, cfg, P.Inspect(t));
    P.FileApplied(db, cfg, P.RemoveSource(t));
    P.FileApplied(db, cfg, P.TrySweepStaging(t, clean));
    EmptyIs(db.disk, db.jobs[db.claims[t].image].session);
  }

  lemma EmptyIs(disk: Disk, s: nat)
    ensures Publish.StagingEmpty(disk, s) <==> forall k :: Staged(s, k) !in disk
  {
    forall p | p in disk && p.Staged? && p.session == s
      ensures exists k :: Staged(s, k) in disk
    {
      assert Staged(s, p.part) == p;
    }
  }

  // ----- Files that leave the storage -----

  /** A variant of an image or a file row has the path. */
  ghost predicate HasRow(db: Db, p: Path)
  {
    (exists i, k :: i in db.images && k in db.images[i].variants && db.images[i].variants[k].path == p) ||
    (exists h :: h in db.files && (db.files[h].original == p || db.files[h].thumbnail == p))
  }

  lemma HasRowIs(db: Db, p: Path)
    ensures HasRow(db, p) <==> Referenced(db.images, db.files, p)
  {
    if i :| i in db.images && NamedBy(db.images[i].variants, p) {
      var k :| k in db.images[i].variants && db.images[i].variants[k].path == p;
    }
    if i, k :| i in db.images && k in db.images[i].variants && db.images[i].variants[k].path == p {
      assert NamedBy(db.images[i].variants, p);
    }
  }

  /** The listed files that no row has are gone, and no other file is touched. */
  ghost predicate Removed(db: Db, disk: Disk, paths: seq<Path>)
  {
    forall p :: (p in disk <==> p in db.disk && (p !in paths || HasRow(db, p))) && (p in disk ==> disk[p] == db.disk[p])
  }

  lemma SurvivorsAre(db: Db, paths: seq<Path>)
    ensures Removed(db, RemoveUnreferenced(db.images, db.files, db.disk, paths), paths)
  {
    Deletion.Survivors(db.images, db.files, db.disk, paths);
    forall p
      ensures HasRow(db, p) <==> Referenced(db.images, db.files, p)
    {
      HasRowIs(db, p);
    }
    hide HasRow, Referenced;
  }

  /** The immediate cleanup removes exactly the listed files that no row has. */
  lemma CleanupLaw(db: Db, cfg: Config, paths: seq<Path>)
    requires P.Possible(db, P.CleanupFiles(paths))
    ensures var db' := P.Apply(db, cfg, P.CleanupFiles(paths));
            db' == db.(disk := db'.disk) && Removed(db, db'.disk, paths)
  {
    hide P.Apply, Removed;
    P.FileApplied(db, cfg, P.CleanupFiles(paths));
    SurvivorsAre(db, paths);
  }

  /** So does the delivery of an unpublished event, as far as it comes; the event is published exactly after all
      of its paths. */
  lemma DeliverLaw(db: Db, cfg: Config, e: nat, n: nat, acknowledged: bool)
    ensures var db' := P.Apply(db, cfg, P.Deliver(e, n, acknowledged));
            if e < |db.events| && !db.events[e].published && n <= |db.events[e].paths| then
              db' == db.(disk := db'.disk,
                         events := if n == |db.events[e].paths| && acknowledged
                                   then db.events[e := DeleteEvent(db.events[e].paths, true)] else db.events) &&
              Removed(db, db'.disk, db.events[e].paths[..n])
            else db' == db
  {
    hide P.Apply, Removed;
    P.FileApplied(db, cfg, P.Deliver(e, n, acknowledged));
    if e < |db.events| && n <= |db.events[e].paths| {
      SurvivorsAre(db, db.events[e].paths[..n]);
    }
  }
}
