/** The pipeline's promises, for every interleaving of requests, workers, cleanups, crashes, lease
    expiries and rollbacks from accounts with fixed quotas. */
module Theorems {
  import opened Collections
  import opened Rows
  import opened Accounting
  import Upload
  import Publish
  import Deletion
  import Exclusion
  import Fencing
  import Files
  import Leaks
  import Ledger
  import Lifecycle
  import Links
  import Removal
  import Retention
  import Sources
  import Storage
  import Sweeping
  import P = Pipeline

  ghost predicate Inv(db: Db, cfg: Config)
  {
    && Links.Linked(db) && Fencing.Leased(db) && Contents(db)
    && Ledger.Balanced(db) && Ledger.Bounded(db, cfg)
    && Storage.Counted(db) && Retention.Intents(db) && Files.OnDisk(db) && Files.Readings(db)
    && Sources.Sourced(db) && Leaks.NothingLeaked(db)
  }

  lemma StartInv(quotas: map<nat, nat>, cfg: Config)
    ensures Inv(P.Start(quotas), cfg)
  {
  }

  lemma StepKeepsInv(db: Db, cfg: Config, step: P.Step)
    requires Inv(db, cfg)
    ensures Inv(P.Apply(db, cfg, step), cfg)
  {
    Links.StepKeepsLinks(db, cfg, step);
    Fencing.StepKeepsLeases(db, cfg, step);
    StepKeepsContents(db, cfg, step);
    Ledger.StepBalances(db, cfg, step);
    Ledger.StepBounds(db, cfg, step);
    Storage.StepCounts(db, cfg, step);
    Retention.StepKeepsIntents(db, cfg, step);
    Files.StepKeepsFiles(db, cfg, step);
    Files.StepKeepsReadings(db, cfg, step);
    Sources.StepKeepsSourced(db, cfg, step);
    Leaks.StepLeaks(db, cfg, step);
  }

  lemma {:induction false} RunKeepsInv(db: Db, cfg: Config, steps: seq<P.Step>)
    requires Inv(db, cfg)
    ensures Inv(P.Run(db, cfg, steps), cfg)
  {
    if steps != [] {
      RunKeepsInv(db, cfg, steps[..|steps| - 1]);
      StepKeepsInv(P.Run(db, cfg, steps[..|steps| - 1]), cfg, steps[|steps| - 1]);
    }
  }

  function Reach(quotas: map<nat, nat>, cfg: Config, steps: seq<P.Step>): Db
  {
    P.Run(P.Start(quotas), cfg, steps)
  }

  lemma ReachNothing(quotas: map<nat, nat>, cfg: Config)
    ensures Reach(quotas, cfg, []) == P.Start(quotas)
  {
  }

  lemma ReachStep(quotas: map<nat, nat>, cfg: Config, steps: seq<P.Step>)
    requires steps != []
    ensures Reach(quotas, cfg, steps) == P.Apply(Reach(quotas, cfg, steps[..|steps| - 1]), cfg, steps[|steps| - 1])
  {
    hide P.Apply;
  }

  lemma ReachConcat(quotas: map<nat, nat>, cfg: Config, before: seq<P.Step>, after: seq<P.Step>)
    ensures Reach(quotas, cfg, before + after) == P.Run(Reach(quotas, cfg, before), cfg, after)
  {
    hide P.Run;
    P.RunConcat(P.Start(quotas), cfg, before, after);
  }

  lemma Reachable(quotas: map<nat, nat>, cfg: Config, steps: seq<P.Step>)
    ensures Inv(Reach(quotas, cfg, steps), cfg)
  {
    StartInv(quotas, cfg);
    RunKeepsInv(P.Start(quotas), cfg, steps);
  }

  // ----- Quota, ledger and session limit -----

  ghost predicate QuotasFixed(db: Db, quotas: map<nat, nat>)
  {
    db.users.Keys == quotas.Keys && forall u :: u in quotas ==> db.users[u].quota == quotas[u]
  }

  lemma StepKeepsQuotas(db: Db, cfg: Config, step: P.Step, quotas: map<nat, nat>)
    requires QuotasFixed(db, quotas)
    ensures QuotasFixed(P.Apply(db, cfg, step), quotas)
  {
    hide P.Apply;
    if !P.Possible(db, step) {
      P.Impossible(db, cfg, step);
    } else if step.Commit? || step.DeleteImage? {
      P.EndApplied(db, cfg, step);
    } else {
      OtherStepKeepsUsers(db, cfg, step);
    }
  }

  lemma {:induction false} RunKeepsQuotas(quotas: map<nat, nat>, cfg: Config, steps: seq<P.Step>)
    ensures QuotasFixed(Reach(quotas, cfg, steps), quotas)
  {
    if steps != [] {
      RunKeepsQuotas(quotas, cfg, steps[..|steps| - 1]);
      StepKeepsQuotas(Reach(quotas, cfg, steps[..|steps| - 1]), cfg, steps[|steps| - 1], quotas);
    }
  }

  /** Used bytes plus live reservations never exceed the quota; used bytes and image count are exactly
      the active bytes and the number of the user's completed images; no user has too many sessions. */
  lemma QuotaAndLedger(quotas: map<nat, nat>, cfg: Config, steps: seq<P.Step>, u: nat)
    requires u in quotas
    ensures var db := Reach(quotas, cfg, steps);
            u in db.users &&
            db.users[u].used + ReservedBelow(db.sessions, db.nextSession, u, db.clock) <= quotas[u] &&
            db.users[u].used == SumBelow(Ledger.BytesBy(db.images, u), db.nextImage) &&
            db.users[u].count == SumBelow(Ledger.ImagesBy(db.images, u), db.nextImage) &&
            ActiveBelow(db.sessions, db.nextSession, u, db.clock) <= cfg.maxActiveSessions
  {
    Reachable(quotas, cfg, steps);
    RunKeepsQuotas(quotas, cfg, steps);
    var db := Reach(quotas, cfg, steps);
    assert Ledger.UserOk(db, u) && Ledger.QuotaOk(db, u) && Ledger.LimitOk(db, cfg, u);
  }

  /** What a publish bills was reserved by its session, and its quota check refuses if and only if the
      other sessions of the owner that expired since the transaction read its clock held more than the
      quota has room for; there is room unless some session expired. */
  lemma PublishIsCovered(quotas: map<nat, nat>, cfg: Config, steps: seq<P.Step>, t: nat)
    requires P.Possible(Reach(quotas, cfg, steps), P.Commit(t))
    ensures var db := Reach(quotas, cfg, steps);
            var r := Publish.Commit(db, t).1;
            var i := db.claims[t].image;
            (r == Publish.LeaseLost <==> !Publish.Fenced(db.jobs, db.claims, t)) &&
            (r != Publish.LeaseLost ==>
               i in db.images && db.images[i].owner in db.users && db.jobs[i].session in db.sessions &&
               ActiveBytes(Publish.PublishedVariants(db.images[i].variants, i, db.claims[t].inspected.value))
                 <= db.sessions[db.jobs[i].session].reserved &&
               Ledger.Room(db, i, db.claims[t].inspected.value) >= 0 &&
               (r == Publish.OverQuota <==>
                  Ledger.ExpiredBelow(db.sessions - {db.jobs[i].session}, db.nextSession, db.images[i].owner,
                                      db.claims[t].seen, db.clock)
                    > Ledger.Room(db, i, db.claims[t].inspected.value))) &&
            (r == Publish.OverQuota ==>
               exists s :: s in db.sessions && s != db.jobs[i].session &&
                           Ledger.ExpiredSince(db.sessions[s], db.images[i].owner, db.claims[t].seen, db.clock)) &&
            r != Publish.UserGone && r != Publish.ImageGone
  {
    Reachable(quotas, cfg, steps);
    var db := Reach(quotas, cfg, steps);
    if Publish.Fenced(db.jobs, db.claims, t) {
      assert Links.JobOk(db, db.claims[t].image) && Links.ImageOk(db, db.claims[t].image);
      Ledger.PublishedFitsReservation(db, t);
      Ledger.RefusedExactly(db, cfg, t);
      if Publish.Commit(db, t).1 == Publish.OverQuota {
        Ledger.RefusalNeedsExpiry(db, cfg, t);
      }
    }
  }

  // ----- Files -----

  /** Every master, gallery, admin and publish row of a committed image and both paths of every file
      row name a file of the recorded size, and a file row counts exactly its images. */
  lemma RowsHaveFiles(quotas: map<nat, nat>, cfg: Config, steps: seq<P.Step>)
    ensures var db := Reach(quotas, cfg, steps);
            (forall i, k :: i in db.images && k in db.images[i].variants && k != PublishSource ==>
               var variant := db.images[i].variants[k];
               variant.path in db.disk && db.disk[variant.path].size == variant.size) &&
            (forall h :: h in db.files ==>
               db.files[h].original in db.disk && db.files[h].thumbnail in db.disk &&
               db.disk[db.files[h].original].hash == h &&
               db.files[h].references == ReferencesBelow(db.images, db.nextImage, h) > 0) &&
            (forall i :: i in db.images ==> db.images[i].file in db.files)
  {
    Reachable(quotas, cfg, steps);
    var db := Reach(quotas, cfg, steps);
    forall i, k | i in db.images && k in db.images[i].variants && k != PublishSource
      ensures db.images[i].variants[k].path in db.disk
      ensures db.disk[db.images[i].variants[k].path].size == db.images[i].variants[k].size
    {
      assert Links.ImageOk(db, i) && Files.ImageOnDisk(db, i) && Links.JobOk(db, i);
    }
    forall h | h in db.files
      ensures db.files[h].original in db.disk && db.files[h].thumbnail in db.disk &&
              db.disk[db.files[h].original].hash == h
      ensures db.files[h].references == ReferencesBelow(db.images, db.nextImage, h) > 0
    {
      assert Files.FileOnDisk(db, h) && Storage.CountOk(db, h);
      assert FileOk(db, db.files[h].original);
    }
    forall i | i in db.images
      ensures db.images[i].file in db.files
    {
      assert Storage.HasFile(db, i);
    }
  }

  /** A step removes a file that a committed row names exactly when a publish takes its own source. */
  lemma NamedFilesStay(quotas: map<nat, nat>, cfg: Config, steps: seq<P.Step>, step: P.Step, p: Path)
    requires p in Reach(quotas, cfg, steps).disk
    ensures var db := Reach(quotas, cfg, steps);
            var db' := P.Apply(db, cfg, step);
            p !in db'.disk && Referenced(db'.images, db'.files, p) <==> Removal.TakesSource(db, step, p)
  {
    Reachable(quotas, cfg, steps);
    Removal.NamedFileRemoved(Reach(quotas, cfg, steps), cfg, step, p);
  }

  /** A step after which no row names a path any more leaves an unpublished deletion event that does,
      but for the publish, which leaves its staged source to the cleanup of its session. */
  lemma DroppedPathsAreQueued(quotas: map<nat, nat>, cfg: Config, steps: seq<P.Step>, step: P.Step, p: Path)
    ensures var db := Reach(quotas, cfg, steps);
            var db' := P.Apply(db, cfg, step);
            Referenced(db.images, db.files, p) && !Referenced(db'.images, db'.files, p) ==>
              Leaks.Queued(db'.events, p) ||
              (step.Commit? && P.Possible(db, step) && db.claims[step.token].image in db.jobs &&
               p == Publish.SourceOf(db.jobs[db.claims[step.token].image]))
  {
    Reachable(quotas, cfg, steps);
    if Referenced(Reach(quotas, cfg, steps).images, Reach(quotas, cfg, steps).files, p) {
      Dropped(Reach(quotas, cfg, steps), cfg, step, p);
    }
  }

  lemma Dropped(db: Db, cfg: Config, step: P.Step, p: Path)
    requires Links.Linked(db) && Referenced(db.images, db.files, p)
    ensures var db' := P.Apply(db, cfg, step);
            Referenced(db'.images, db'.files, p) || Leaks.Queued(db'.events, p) ||
            (step.Commit? && P.Possible(db, step) && db.claims[step.token].image in db.jobs &&
             p == Publish.SourceOf(db.jobs[db.claims[step.token].image]))
  {
    hide P.Apply, Links.Linked;
    if !P.Possible(db, step) {
      P.Impossible(db, cfg, step);
    } else if step.Complete? {
      P.UploadApplied(db, cfg, step);
      CompleteDropsNothing(db, step.user, step.session, step.watermark, p);
    } else if step.Commit? {
      P.EndApplied(db, cfg, step);
      CommitDrops(db, step.token, p);
    } else if step.Fail? || step.DeleteImage? {
      RemovalDrops(db, cfg, step, p);
    } else {
      OtherStepKeepsImages(db, cfg, step);
    }
  }

  lemma RemovalDrops(db: Db, cfg: Config, step: P.Step, p: Path)
    requires Links.Linked(db) && Referenced(db.images, db.files, p) && (step.Fail? || step.DeleteImage?) &&
             P.Possible(db, step)
    ensures var db' := P.Apply(db, cfg, step); Referenced(db'.images, db'.files, p) || Leaks.Queued(db'.events, p)
  {
    hide P.Apply, Links.Linked, Publish.Fail, Deletion.DeleteImage;
    P.EndApplied(db, cfg, step);
    match step
    case Fail(t, overQuota) => FailDrops(db, t, overQuota, p);
    case DeleteImage(user, isAdmin, i) => DeleteDrops(db, user, isAdmin, i, p);
  }

  lemma CompleteDropsNothing(db: Db, user: nat, s: nat, watermark: bool, p: Path)
    requires Links.Linked(db) && Referenced(db.images, db.files, p)
    ensures var db' := Upload.Complete(db, user, s, watermark).0; Referenced(db'.images, db'.files, p)
  {
    if Upload.Complete(db, user, s, watermark).1.Entered? {
      Leaks.EnterNames(db, s, Upload.Complete(db, user, s, watermark).0.disk, watermark, p);
    }
  }

  lemma CommitDrops(db: Db, t: nat, p: Path)
    requires Links.Linked(db) && P.Possible(db, P.Commit(t)) && Referenced(db.images, db.files, p)
    ensures var db' := Publish.Commit(db, t).0;
            Referenced(db'.images, db'.files, p) ||
            (db.claims[t].image in db.jobs && p == Publish.SourceOf(db.jobs[db.claims[t].image]))
  {
    if Publish.Commit(db, t).1 == Publish.Published {
      Leaks.CommitNames(db, t, p);
    }
  }

  lemma FailDrops(db: Db, t: nat, overQuota: bool, p: Path)
    requires Links.Linked(db) && Referenced(db.images, db.files, p)
    ensures var db' := Publish.Fail(db, t, overQuota).0;
            Referenced(db'.images, db'.files, p) || Leaks.Queued(db'.events, p)
  {
    if Publish.Fenced(db.jobs, db.claims, t) &&
      Publish.Fail(db, t, overQuota).0 == Publish.Bury(db, db.claims[t].image) {
      Leaks.BuryQueues(db, db.claims[t].image);
      assert Leaks.StillNamed(db, Publish.Bury(db, db.claims[t].image), p);
    }
  }

  lemma DeleteDrops(db: Db, user: nat, isAdmin: bool, i: nat, p: Path)
    requires Links.Linked(db) && Referenced(db.images, db.files, p)
    ensures var db' := Deletion.DeleteImage(db, user, isAdmin, i).0;
            Referenced(db'.images, db'.files, p) || Leaks.Queued(db'.events, p)
  {
    if Deletion.DeleteImage(db, user, isAdmin, i).1.Deleted? {
      Leaks.DeleteQueues(db, i);
      assert Leaks.StillNamed(db, Deletion.DeleteRows(db, i), p);
    }
  }

  /** Every compensation is owed by a Complete that failed and listed as many parts. */
  lemma {:induction false} OwedByFailure(quotas: map<nat, nat>, cfg: Config, steps: seq<P.Step>, s: nat, listed: nat)
    requires (s, listed) in Reach(quotas, cfg, steps).restores
    ensures exists n :: 0 <= n < |steps| && FailedAt(quotas, cfg, steps, n, s, listed)
  {
    hide FailedAt, P.Apply, Leaks.HistoryNext;
    if steps != [] {
      var last := |steps| - 1;
      var before := steps[..last];
      Leaks.StepHistory(Reach(quotas, cfg, before), cfg, steps[last]);
      if (s, listed) in Reach(quotas, cfg, before).restores {
        OwedByFailure(quotas, cfg, before, s, listed);
        var n :| 0 <= n < last && FailedAt(quotas, cfg, before, n, s, listed);
        FailedBefore(quotas, cfg, steps, n, s, listed);
      } else {
        FailsNow(quotas, cfg, steps, s, listed);
      }
    }
  }

  lemma FailedBefore(quotas: map<nat, nat>, cfg: Config, steps: seq<P.Step>, n: nat, s: nat, listed: nat)
    requires n < |steps| - 1 && FailedAt(quotas, cfg, steps[..|steps| - 1], n, s, listed)
    ensures FailedAt(quotas, cfg, steps, n, s, listed)
  {
    hide Reach, Leaks.FailsToComplete, Leaks.Listed;
    assert steps[..|steps| - 1][..n] == steps[..n];
  }

  lemma FailsNow(quotas: map<nat, nat>, cfg: Config, steps: seq<P.Step>, s: nat, listed: nat)
    requires steps != [] && (s, listed) in Reach(quotas, cfg, steps).restores
    requires var db := Reach(quotas, cfg, steps[..|steps| - 1]);
             (s, listed) !in db.restores && Leaks.HistoryNext(db, Reach(quotas, cfg, steps), steps[|steps| - 1])
    ensures FailedAt(quotas, cfg, steps, |steps| - 1, s, listed)
  {
    hide Reach, Leaks.FailsToComplete, Leaks.Listed;
    var db := Reach(quotas, cfg, steps[..|steps| - 1]);
    assert (s, listed) in Reach(quotas, cfg, steps).restores - db.restores;
  }

  /** Step n is a Complete of session s that fails with the first `listed` parts listed for compensation. */
  predicate FailedAt(quotas: map<nat, nat>, cfg: Config, steps: seq<P.Step>, n: nat, s: nat, listed: nat)
    requires n < |steps|
  {
    var db := Reach(quotas, cfg, steps[..n]);
    Leaks.FailsToComplete(db, steps[n]) && steps[n].session == s && Leaks.Listed(db, steps[n]) == listed
  }

  /** Outside staging every stored file and publish target is named by a row, wanted by a live job, queued for
      deletion, or listed for compensation by a Complete that passed its checks and then failed. */
  lemma NothingLeaks(quotas: map<nat, nat>, cfg: Config, steps: seq<P.Step>, p: Path)
    requires p in Reach(quotas, cfg, steps).disk && !p.Staged?
    ensures var db := Reach(quotas, cfg, steps);
            Referenced(db.images, db.files, p) || (p.PublishTarget? && LiveJob(db.jobs, p.image)) ||
            Leaks.Queued(db.events, p) ||
            exists n, listed {:trigger ListedAt(quotas, cfg, steps, n, listed, p)} ::
              0 <= n < |steps| && ListedAt(quotas, cfg, steps, n, listed, p)
  {
    Reachable(quotas, cfg, steps);
    var db := Reach(quotas, cfg, steps);
    assert Leaks.Kept(db, p) || Leaks.Owed(db, p);
    if !Leaks.Kept(db, p) {
      var x :| x in db.restores && Leaks.Lists(db.sessions, x.0, x.1, p);
      OwedByFailure(quotas, cfg, steps, x.0, x.1);
      var n :| 0 <= n < |steps| && FailedAt(quotas, cfg, steps, n, x.0, x.1);
      assert ListedAt(quotas, cfg, steps, n, x.1, p);
    }
  }

  /** Step n is a failing Complete that listed the part with the path p. */
  predicate ListedAt(quotas: map<nat, nat>, cfg: Config, steps: seq<P.Step>, n: nat, listed: nat, p: Path)
    requires n < |steps|
  {
    (steps[n].Complete? || steps[n].CompleteInterrupted?) &&
    FailedAt(quotas, cfg, steps, n, steps[n].session, listed) &&
    Leaks.Lists(Reach(quotas, cfg, steps).sessions, steps[n].session, listed, p)
  }

  /** In runs without such a failure nothing else is on disk. */
  lemma OnlyFailuresOrphan(quotas: map<nat, nat>, cfg: Config, steps: seq<P.Step>, p: Path)
    requires forall n :: 0 <= n < |steps| ==> !Leaks.FailsToComplete(Reach(quotas, cfg, steps[..n]), steps[n])
    requires p in Reach(quotas, cfg, steps).disk && !p.Staged?
    ensures var db := Reach(quotas, cfg, steps);
            Referenced(db.images, db.files, p) || (p.PublishTarget? && LiveJob(db.jobs, p.image)) ||
            Leaks.Queued(db.events, p)
  {
    NothingLeaks(quotas, cfg, steps, p);
  }

  // ----- Publishing -----

  lemma {:induction false} LostForever(db: Db, cfg: Config, steps: seq<P.Step>, t: nat)
    requires Inv(db, cfg) && t < db.nextToken && !Publish.Fenced(db.jobs, db.claims, t)
    ensures var db' := P.Run(db, cfg, steps); t < db'.nextToken && !Publish.Fenced(db'.jobs, db'.claims, t)
  {
    if steps != [] {
      var before := steps[..|steps| - 1];
      LostForever(db, cfg, before, t);
      RunKeepsInv(db, cfg, before);
      Fencing.LostTokenStaysLost(P.Run(db, cfg, before), cfg, steps[|steps| - 1], t);
      Fencing.TokensGrow(P.Run(db, cfg, before), cfg, steps[|steps| - 1]);
    }
  }

  /** A worker that lost its lease once never again changes a row or a publish target. */
  lemma StaleWorkersAreFenced(quotas: map<nat, nat>, cfg: Config, before: seq<P.Step>, after: seq<P.Step>, t: nat,
                              step: P.Step)
    requires var db := Reach(quotas, cfg, before); t < db.nextToken && !Publish.Fenced(db.jobs, db.claims, t)
    requires Fencing.TokenStep(step, t)
    ensures var db := Reach(quotas, cfg, before + after);
            Fencing.RowsAndTargetsUnchanged(db, P.Apply(db, cfg, step))
  {
    Reachable(quotas, cfg, before);
    P.RunConcat(P.Start(quotas), cfg, before, after);
    LostForever(Reach(quotas, cfg, before), cfg, after, t);
    Fencing.StaleWorkerChangesNothing(Reach(quotas, cfg, before + after), cfg, step, t);
  }

  lemma {:induction false} OverForever(db: Db, cfg: Config, steps: seq<P.Step>, i: nat)
    requires Inv(db, cfg) && Fencing.Over(db.jobs, i)
    ensures var db' := P.Run(db, cfg, steps);
            i in db'.jobs && db'.jobs[i].status == db.jobs[i].status &&
            (PublishTarget(i) !in db.disk ==> PublishTarget(i) !in db'.disk)
  {
    if steps != [] {
      var mid := P.Run(db, cfg, steps[..|steps| - 1]);
      var step := steps[|steps| - 1];
      OverForever(db, cfg, steps[..|steps| - 1], i);
      RunKeepsInv(db, cfg, steps[..|steps| - 1]);
      Fencing.StepProgress(mid, cfg, step);
      assert Fencing.JobNext(mid.jobs, P.Apply(mid, cfg, step).jobs, mid.nextToken, i);
      Fencing.TargetCreator(mid, cfg, step);
    }
  }

  /** A dead job stays dead and its target, once gone, is never created again. */
  lemma DeadTargetsStayGone(quotas: map<nat, nat>, cfg: Config, before: seq<P.Step>, after: seq<P.Step>, i: nat)
    requires var db := Reach(quotas, cfg, before);
             i in db.jobs && db.jobs[i].status == Dead && PublishTarget(i) !in db.disk
    ensures var db := Reach(quotas, cfg, before + after);
            i in db.jobs && db.jobs[i].status == Dead && PublishTarget(i) !in db.disk
  {
    Reachable(quotas, cfg, before);
    P.RunConcat(P.Start(quotas), cfg, before, after);
    OverForever(Reach(quotas, cfg, before), cfg, after, i);
  }

  function Publications(quotas: map<nat, nat>, cfg: Config, steps: seq<P.Step>, i: nat): nat
  {
    if steps == [] then 0
    else
      var before := steps[..|steps| - 1];
      Publications(quotas, cfg, before, i) +
      if Fencing.Publishes(Reach(quotas, cfg, before), steps[|steps| - 1], i) then 1 else 0
  }

  /** The publish transactions that commit an image: one if its job completed, else none. */
  lemma {:induction false} PublishedOnce(quotas: map<nat, nat>, cfg: Config, steps: seq<P.Step>, i: nat)
    ensures Publications(quotas, cfg, steps, i) == if Fencing.Done(Reach(quotas, cfg, steps).jobs, i) then 1 else 0
  {
    if steps != [] {
      var before := steps[..|steps| - 1];
      PublishedOnce(quotas, cfg, before, i);
      Reachable(quotas, cfg, before);
      Fencing.DoneByPublishing(Reach(quotas, cfg, before), cfg, steps[|steps| - 1], i);
    }
  }

  /** Attempts stay within their limit, a refund takes back one that was counted, and the holder of a live
      lease, and nobody else, promotes its target, once it rendered what has to be rendered. */
  lemma AttemptsAndSources(quotas: map<nat, nat>, cfg: Config, steps: seq<P.Step>, t: nat)
    ensures var db := Reach(quotas, cfg, steps);
            (forall i :: i in db.jobs ==> db.jobs[i].attempts <= db.jobs[i].maxAttempts) &&
            (Publish.Fenced(db.jobs, db.claims, t) && db.claims[t].refundable ==>
               Publish.Release(db, t, false).jobs[db.claims[t].image].attempts ==
                 db.jobs[db.claims[t].image].attempts - 1) &&
            (Publish.PromoteTarget(db, t).1 <==> Publish.Fenced(db.jobs, db.claims, t) && Sources.Rendered(db, t)) &&
            (forall i :: LiveJob(db.jobs, i) ==>
               Staged(db.jobs[i].session, PublishSource) in db.disk || PublishTarget(i) in db.disk)
  {
    Reachable(quotas, cfg, steps);
    var db := Reach(quotas, cfg, steps);
    forall i | i in db.jobs
      ensures db.jobs[i].attempts <= db.jobs[i].maxAttempts
    {
      assert Fencing.LeaseOk(db, i);
    }
    if Publish.Fenced(db.jobs, db.claims, t) && db.claims[t].refundable {
      Fencing.RefundIsReal(db, t);
    }
    Sources.LiveJobCanPublish(db, t);
  }

  // ----- Sessions -----

  lemma {:induction false} SessionsMoveForward(db: Db, cfg: Config, steps: seq<P.Step>, s: nat)
    requires Inv(db, cfg) && s in db.sessions
    ensures var db' := P.Run(db, cfg, steps);
            s in db'.sessions && Rank(db.sessions[s]) <= Rank(db'.sessions[s]) &&
            db'.sessions[s].manifest == db.sessions[s].manifest
  {
    if steps != [] {
      var mid := P.Run(db, cfg, steps[..|steps| - 1]);
      SessionsMoveForward(db, cfg, steps[..|steps| - 1], s);
      RunKeepsInv(db, cfg, steps[..|steps| - 1]);
      StepLasts(mid, cfg, steps[|steps| - 1]);
      assert SessionNext(mid.sessions, P.Apply(mid, cfg, steps[|steps| - 1]).sessions, mid.clock, s);
    }
  }

  /** A session claimed for cleanup is never processing again, so one that processes was never claimed. */
  lemma ClaimExcludesProcessing(quotas: map<nat, nat>, cfg: Config, before: seq<P.Step>, after: seq<P.Step>, n: nat)
    requires var db := Reach(quotas, cfg, before); n in db.sweeps && db.sweeps[n].stage != Listed
    ensures var s := Reach(quotas, cfg, before).sweeps[n].session;
            var db := Reach(quotas, cfg, before + after);
            s in db.sessions && Stopped(db.sessions[s])
  {
    Reachable(quotas, cfg, before);
    P.RunConcat(P.Start(quotas), cfg, before, after);
    assert Links.SweepOk(Reach(quotas, cfg, before), n);
    SessionsMoveForward(Reach(quotas, cfg, before), cfg, after, Reach(quotas, cfg, before).sweeps[n].session);
  }

  /** No cleanup removes a staged file of a running session, and once a session takes no more parts a file
      comes back exactly by the compensation of a Complete of that session that failed earlier in the run, while
      the promoted file is still there. */
  lemma StagingIsSafe(quotas: map<nat, nat>, cfg: Config, steps: seq<P.Step>, step: P.Step, s: nat, k: Kind)
    requires s in Reach(quotas, cfg, steps).sessions
    ensures var db := Reach(quotas, cfg, steps);
            var db' := P.Apply(db, cfg, step);
            (!Stopped(db.sessions[s]) && Exclusion.RemovesStaging(step) && Staged(s, k) in db.disk ==>
             Staged(s, k) in db'.disk) &&
            (Exclusion.Closed(db.sessions[s]) && Staged(s, k) !in db.disk ==>
               (Staged(s, k) in db'.disk <==>
                  step.Restore? && step.session == s && step.listed <= |PROMOTED| && (s, step.listed) in db.restores &&
                  Exclusion.Restorable(db.disk, db.sessions[s].parts, step.listed, k)) &&
               (Staged(s, k) in db'.disk ==>
                  exists n :: 0 <= n < |steps| && FailedAt(quotas, cfg, steps, n, s, step.listed)))
  {
    Reachable(quotas, cfg, steps);
    var db := Reach(quotas, cfg, steps);
    if !Stopped(db.sessions[s]) && Exclusion.RemovesStaging(step) && Staged(s, k) in db.disk {
      Exclusion.CleanupSparesRunning(db, cfg, step, s, k);
    }
    if Exclusion.Closed(db.sessions[s]) && Staged(s, k) !in db.disk {
      Exclusion.OnlyRestoreRefills(db, cfg, step, s, k);
      if Staged(s, k) in P.Apply(db, cfg, step).disk {
        OwedByFailure(quotas, cfg, steps, s, step.listed);
      }
    }
  }

  /** The first terminal status of every session, recorded along the run. */
  function EndingsOf(quotas: map<nat, nat>, cfg: Config, steps: seq<P.Step>): Lifecycle.Endings
  {
    if steps == [] then map[]
    else
      var before := steps[..|steps| - 1];
      Lifecycle.NextEndings(EndingsOf(quotas, cfg, before), Reach(quotas, cfg, steps).sessions, steps[|steps| - 1])
  }

  lemma {:induction false} RunKeepsEnds(quotas: map<nat, nat>, cfg: Config, steps: seq<P.Step>)
    ensures Lifecycle.Ends(Reach(quotas, cfg, steps), EndingsOf(quotas, cfg, steps))
  {
    if steps != [] {
      var before := steps[..|steps| - 1];
      RunKeepsEnds(quotas, cfg, before);
      Reachable(quotas, cfg, before);
      Lifecycle.StepEnds(Reach(quotas, cfg, before), EndingsOf(quotas, cfg, before), cfg, steps[|steps| - 1]);
    }
  }

  /** However often its cleanup is interrupted, a session ends in the status it first reached: failed
      stays failed, cancelled and expired end cancelled, and published ends completed as long as its
      image row exists; only without the image can a published session end cancelled. */
  lemma SessionsEndAsTheyStopped(quotas: map<nat, nat>, cfg: Config, steps: seq<P.Step>, s: nat)
    requires s in Reach(quotas, cfg, steps).sessions && Stopped(Reach(quotas, cfg, steps).sessions[s])
    ensures var session := Reach(quotas, cfg, steps).sessions[s];
            var endings := EndingsOf(quotas, cfg, steps);
            s in endings && Links.Final(endings[s]) &&
            (session.status == endings[s] || session.status == CleanupPending ||
             (endings[s] == Completed && session.status == Cancelled && session.image == None && !session.staged))
  {
    RunKeepsEnds(quotas, cfg, steps);
    assert Lifecycle.SessionEnds(Reach(quotas, cfg, steps), EndingsOf(quotas, cfg, steps), s);
  }

  /** A claimed cleanup decides another status than the session first reached if and only if the session
      was published with staging left over and its image is not completed any more. */
  lemma CleanupDecides(quotas: map<nat, nat>, cfg: Config, steps: seq<P.Step>, n: nat)
    requires n in Reach(quotas, cfg, steps).sweeps && Reach(quotas, cfg, steps).sweeps[n].stage == Claimed
    ensures var db := Reach(quotas, cfg, steps);
            var snapshot := db.sweeps[n].snapshot;
            var endings := EndingsOf(quotas, cfg, steps);
            db.sweeps[n].session in endings &&
            (Sweeping.FinalStatus(snapshot, db.images) != endings[db.sweeps[n].session] <==>
               endings[db.sweeps[n].session] == Completed && snapshot.status == CleanupPending &&
               snapshot.completedAt == None && !Sweeping.ImageDone(db.images, snapshot.image))
  {
    Reachable(quotas, cfg, steps);
    RunKeepsEnds(quotas, cfg, steps);
    Lifecycle.FinalDeviates(Reach(quotas, cfg, steps), EndingsOf(quotas, cfg, steps), n);
  }

  // ----- Idempotence -----

  lemma StepKeepsKeys(db: Db, cfg: Config, step: P.Step)
    ensures forall x :: x in db.keys ==>
              x in P.Apply(db, cfg, step).keys && P.Apply(db, cfg, step).keys[x] == db.keys[x]
  {
    hide P.Apply;
    if P.LeaseStep(step) {
      Links.LeaseStepRows(db, cfg, step);
    } else if P.SweepStep(step) {
      Links.SweepStepRows(db, cfg, step);
    } else if P.EndStep(step) {
      Links.EndStepRows(db, cfg, step);
    } else if P.FileStep(step) {
      Links.FileStepRows(db, cfg, step);
    } else if !step.Init? {
      Links.UploadStepRows(db, cfg, step);
    } else if P.Possible(db, step) {
      P.UploadApplied(db, cfg, step);
    } else {
      P.Impossible(db, cfg, step);
    }
  }

  lemma {:induction false} RunKeepsKeys(db: Db, cfg: Config, steps: seq<P.Step>, x: (nat, string))
    requires x in db.keys
    ensures x in P.Run(db, cfg, steps).keys && P.Run(db, cfg, steps).keys[x] == db.keys[x]
  {
    if steps != [] {
      RunKeepsKeys(db, cfg, steps[..|steps| - 1], x);
      StepKeepsKeys(P.Run(db, cfg, steps[..|steps| - 1]), cfg, steps[|steps| - 1]);
    }
  }

  lemma InitCreates(db: Db, cfg: Config, user: nat, key: string, req: seq<PartManifest>, seen: Time)
    requires seen <= db.clock && Upload.Init(db, cfg, user, key, req, seen).1.Created?
    ensures var (created, r) := Upload.Init(db, cfg, user, key, req, seen);
            P.Apply(db, cfg, P.Init(user, key, req, seen)) == created && r.id == db.nextSession &&
            db.nextSession in created.sessions && created.sessions[db.nextSession].manifest == req &&
            (user, key) in created.keys && created.keys[(user, key)] == db.nextSession
  {
    hide P.Apply;
    P.UploadApplied(db, cfg, P.Init(user, key, req, seen));
  }

  lemma InitReplays(db: Db, cfg: Config, user: nat, key: string, req: seq<PartManifest>, other: seq<PartManifest>,
                    later: Time, id: nat)
    requires Upload.ValidateManifest(other, cfg.maxPartBytes) == None
    requires (user, key) in db.keys && db.keys[(user, key)] == id && id in db.sessions &&
             db.sessions[id].manifest == req
    ensures Upload.Init(db, cfg, user, key, other, later) ==
            (db, if other == req then Upload.Existing(id) else Upload.Conflict)
  {
  }

  /** An Init repeated under its key, at any later moment, changes nothing and returns the same session
      for the same manifest and a conflict for any other valid one. */
  lemma InitIsIdempotent(quotas: map<nat, nat>, cfg: Config, before: seq<P.Step>, after: seq<P.Step>, user: nat,
                         key: string, req: seq<PartManifest>, other: seq<PartManifest>, seen: Time, later: Time)
    requires seen <= Reach(quotas, cfg, before).clock
    requires Upload.Init(Reach(quotas, cfg, before), cfg, user, key, req, seen).1.Created?
    requires Upload.ValidateManifest(other, cfg.maxPartBytes) == None
    ensures var id := Upload.Init(Reach(quotas, cfg, before), cfg, user, key, req, seen).1.id;
            var db := P.Run(Upload.Init(Reach(quotas, cfg, before), cfg, user, key, req, seen).0, cfg, after);
            Upload.Init(db, cfg, user, key, other, later) ==
              (db, if other == req then Upload.Existing(id) else Upload.Conflict)
  {
    var db := Reach(quotas, cfg, before);
    var created := Upload.Init(db, cfg, user, key, req, seen).0;
    InitCreates(db, cfg, user, key, req, seen);
    Reachable(quotas, cfg, before);
    StepKeepsInv(db, cfg, P.Init(user, key, req, seen));
    hide Inv, P.Apply, P.Run, Reach;
    RunKeepsKeys(created, cfg, after, (user, key));
    SessionsMoveForward(created, cfg, after, db.nextSession);
    hide *;
    InitReplays(P.Run(created, cfg, after), cfg, user, key, req, other, later, db.nextSession);
  }
}
