/** Runs in which the code does less than its purpose asks: that the exceptions which the theorems
    allow do occur, from an empty database and from every state of their kind. */
module Witnesses {
  import opened Collections
  import opened Rows
  import opened Accounting
  import Upload
  import Publish
  import Deletion
  import Exclusion
  import Fencing
  import Ledger
  import Lifecycle
  import Links
  import Removal
  import Storage
  import Sweeping
  import P = Pipeline
  import T = Theorems

  // ----- An uninterrupted cleanup -----

  function SweepRun(s: nat, n: nat, now: Time): seq<P.Step>
  {
    [P.List(s), P.ClaimSweep(n, now)] + [P.Decide(n), P.RemoveFiles(n)] + [P.Finish(n, now)]
  }

  lemma ListedAndClaimed(db: Db, cfg: Config, s: nat, now: Time)
    requires s in db.sessions && Sweeping.Claims(db.sessions[s], db.sessions[s], now) && now <= db.clock
    ensures var b := P.Run(db, cfg, [P.List(s), P.ClaimSweep(db.nextSweep, now)]);
            b.images == db.images && s in b.sessions && b.sessions[s].status == CleanupPending &&
            db.nextSweep in b.sweeps && b.sweeps[db.nextSweep] == Sweep(s, db.sessions[s], Claimed)
  {
    hide P.Apply, P.Run;
    var n := db.nextSweep;
    P.RunTwo(db, cfg, P.List(s), P.ClaimSweep(n, now));
    var a := P.Apply(db, cfg, P.List(s));
    P.SweepApplied(db, cfg, P.List(s));
    P.EndApplied(a, cfg, P.ClaimSweep(n, now));
    assert a.sweeps[n] == Sweep(s, db.sessions[s], Listed) && a.sessions == db.sessions && a.clock == db.clock;
  }

  lemma DecidedAndRemoved(db: Db, cfg: Config, s: nat, n: nat, snapshot: Session)
    requires s in db.sessions && db.sessions[s].status == CleanupPending
    requires n in db.sweeps && db.sweeps[n] == Sweep(s, snapshot, Claimed)
    ensures var b := P.Run(db, cfg, [P.Decide(n), P.RemoveFiles(n)]);
            s in b.sessions && b.sessions[s].status == CleanupPending &&
            n in b.sweeps && b.sweeps[n] == Sweep(s, snapshot, Removed(Sweeping.FinalStatus(snapshot, db.images)))
  {
    hide P.Apply, P.Run;
    P.RunTwo(db, cfg, P.Decide(n), P.RemoveFiles(n));
    P.SweepApplied(db, cfg, P.Decide(n));
    P.SweepApplied(P.Apply(db, cfg, P.Decide(n)), cfg, P.RemoveFiles(n));
  }

  /** It ends every session that it can claim in the status that it decides for the row. */
  lemma SweepEnds(db: Db, cfg: Config, s: nat, now: Time)
    requires s in db.sessions && Sweeping.Claims(db.sessions[s], db.sessions[s], now) && now <= db.clock
    ensures var b := P.Run(db, cfg, SweepRun(s, db.nextSweep, now));
            s in b.sessions && b.sessions[s].status == Sweeping.FinalStatus(db.sessions[s], db.images)
  {
    hide P.Apply, P.Run;
    var n := db.nextSweep;
    var first, second, last := [P.List(s), P.ClaimSweep(n, now)], [P.Decide(n), P.RemoveFiles(n)], [P.Finish(n, now)];
    ListedAndClaimed(db, cfg, s, now);
    DecidedAndRemoved(P.Run(db, cfg, first), cfg, s, n, db.sessions[s]);
    P.RunConcat(db, cfg, first, second);
    P.RunConcat(db, cfg, first + second, last);
    var before := P.Run(db, cfg, first + second);
    P.RunOne(before, cfg, P.Finish(n, now));
    P.EndApplied(before, cfg, P.Finish(n, now));
  }

  // ----- A published session that ends cancelled -----

  lemma ReachNext(quotas: map<nat, nat>, cfg: Config, before: seq<P.Step>, step: P.Step)
    ensures var after := T.Reach(quotas, cfg, before + [step]);
            after == P.Apply(T.Reach(quotas, cfg, before), cfg, step) &&
            T.EndingsOf(quotas, cfg, before + [step]) ==
              Lifecycle.NextEndings(T.EndingsOf(quotas, cfg, before), after.sessions, step)
  {
    hide P.Apply, P.Run, T.Reach, Lifecycle.NextEndings;
    var all := before + [step];
    assert all[..|all| - 1] == before && all[|all| - 1] == step;
    T.ReachConcat(quotas, cfg, before, [step]);
    P.RunOne(T.Reach(quotas, cfg, before), cfg, step);
  }

  lemma {:induction false} EndingStays(quotas: map<nat, nat>, cfg: Config, before: seq<P.Step>, after: seq<P.Step>,
                                       s: nat)
    requires s in T.EndingsOf(quotas, cfg, before)
    ensures var endings := T.EndingsOf(quotas, cfg, before + after);
            s in endings && endings[s] == T.EndingsOf(quotas, cfg, before)[s]
  {
    hide T.EndingsOf;
    if after == [] {
      assert before + after == before;
    } else {
      var last := |after| - 1;
      EndingStays(quotas, cfg, before, after[..last], s);
      EndingNext(quotas, cfg, before + after[..last], after[last], s);
      assert before + after[..last] + [after[last]] == before + after;
    }
  }

  lemma EndingNext(quotas: map<nat, nat>, cfg: Config, before: seq<P.Step>, step: P.Step, s: nat)
    requires s in T.EndingsOf(quotas, cfg, before)
    ensures var endings := T.EndingsOf(quotas, cfg, before + [step]);
            s in endings && endings[s] == T.EndingsOf(quotas, cfg, before)[s]
  {
    hide T.EndingsOf, T.Reach, P.Apply, P.Run, T.Inv;
    var db := T.Reach(quotas, cfg, before);
    T.Reachable(quotas, cfg, before);
    T.RunKeepsEnds(quotas, cfg, before);
    assert Lifecycle.SessionEnds(db, T.EndingsOf(quotas, cfg, before), s);
    T.SessionsMoveForward(db, cfg, [step], s);
    P.RunOne(db, cfg, step);
    ReachNext(quotas, cfg, before, step);
  }

  /** The rows after a publish that left staging behind. */
  ghost predicate LeftStaging(db: Db, s: nat, i: nat, owner: nat)
  {
    && i in db.images && db.images[i].owner == owner && db.images[i].status == ImageCompleted &&
       db.images[i].file in db.files
    && s in db.sessions && Unfinished(db.sessions[s], db.clock) && db.sessions[s].image == Some(i)
  }

  /** Pending cleanup with staging left, no sign of a failure, and due at most a cleanup delay from now. */
  ghost predicate Unfinished(session: Session, now: Time)
  {
    && session.status == CleanupPending && session.staged && session.completedAt == None
    && session.failedAt == None && !session.errorCode
    && (session.cleanupAfter == None || session.cleanupAfter.value <= now + Publish.CLEANUP_DELAY)
  }

  lemma ProcessingRow(db: Db, endings: Lifecycle.Endings, i: nat)
    requires Links.Linked(db) && Storage.Counted(db) && Lifecycle.Ends(db, endings) && LiveJob(db.jobs, i)
    ensures var s := db.jobs[i].session;
            i in db.images && db.images[i].file in db.files &&
            s in db.sessions && db.sessions[s].image == Some(i) && Lifecycle.RunningOk(db.sessions[s])
  {
    assert Links.JobOk(db, i) && Storage.HasFile(db, i) && Lifecycle.SessionEnds(db, endings, db.jobs[i].session);
  }

  lemma CommitLeavesStaging(db: Db, endings: Lifecycle.Endings, cfg: Config, t: nat)
    requires Links.Linked(db) && Storage.Counted(db) && Ledger.Bounded(db, cfg) && Lifecycle.Ends(db, endings)
    requires LeavesStaging(db, t)
    ensures var i := db.claims[t].image;
            LeftStaging(Publish.Commit(db, t).0, db.jobs[i].session, i, db.images[i].owner)
  {
    hide Publish.Commit, Lifecycle.Ends, Storage.Counted, Links.Linked;
    Publish.CommitImages(db, t);
    Lifecycle.PublishesOnly(db, t);
    ProcessingRow(db, endings, db.claims[t].image);
  }

  lemma DeleteThenWait(db: Db, cfg: Config, s: nat, i: nat, owner: nat)
    requires LeftStaging(db, s, i, owner)
    ensures var b := P.Run(db, cfg, [P.DeleteImage(owner, false, i), P.Tick(Publish.CLEANUP_DELAY)]);
            s in b.sessions && b.sessions[s].image == None && i !in b.images &&
            b.clock == db.clock + Publish.CLEANUP_DELAY &&
            Unfinished(b.sessions[s], db.clock) && Sweeping.Claims(b.sessions[s], b.sessions[s], b.clock)
  {
    hide P.Apply, P.Run;
    P.RunTwo(db, cfg, P.DeleteImage(owner, false, i), P.Tick(Publish.CLEANUP_DELAY));
    var a := P.Apply(db, cfg, P.DeleteImage(owner, false, i));
    P.EndApplied(db, cfg, P.DeleteImage(owner, false, i));
    P.FileApplied(a, cfg, P.Tick(Publish.CLEANUP_DELAY));
    assert a == Deletion.DeleteRows(db, i) && a.sessions[s] == db.sessions[s].(image := None);
  }

  /** The owner deletes the image; the cleanup comes when it is due. */
  function AfterCommit(db: Db, i: nat): seq<P.Step>
    requires i in db.jobs && i in db.images
  {
    [P.DeleteImage(db.images[i].owner, false, i), P.Tick(Publish.CLEANUP_DELAY)] +
    SweepRun(db.jobs[i].session, db.nextSweep, db.clock + Publish.CLEANUP_DELAY)
  }

  function LostEndingRun(db: Db, t: nat): seq<P.Step>
    requires t in db.claims && db.claims[t].image in db.jobs && db.claims[t].image in db.images
  {
    [P.Commit(t)] + AfterCommit(db, db.claims[t].image)
  }

  lemma RunOfEnding(db: Db, t: nat)
    requires t in db.claims && db.claims[t].image in db.jobs && db.claims[t].image in db.images
    ensures LostEndingRun(db, t) == [P.Commit(t)] + AfterCommit(db, db.claims[t].image)
  {
  }

  lemma NextSweepStays(db: Db, cfg: Config, step: P.Step)
    requires !P.SweepStep(step)
    ensures P.Apply(db, cfg, step).nextSweep == db.nextSweep &&
            (!step.Tick? ==> P.Apply(db, cfg, step).clock == db.clock)
  {
    hide P.Apply;
    if P.FileStep(step) {
      Links.FileStepRows(db, cfg, step);
    } else if P.LeaseStep(step) {
      Links.LeaseStepRows(db, cfg, step);
    } else if P.UploadStep(step) {
      Links.UploadStepRows(db, cfg, step);
    } else {
      Links.EndStepRows(db, cfg, step);
    }
  }

  /** The publish of the claim commits now and leaves staging behind. */
  ghost predicate LeavesStaging(db: Db, t: nat)
  {
    && P.Possible(db, P.Commit(t)) && Publish.Commit(db, t).1 == Publish.Published &&
       db.claims[t].stagingClean == Some(false)
    && db.claims[t].image in db.jobs && db.claims[t].image in db.images
    && db.jobs[db.claims[t].image].session in db.sessions && db.sessions[db.jobs[db.claims[t].image].session].staged
  }

  /** Wherever a publish commits with staging left over, deleting the image before the cleanup makes the
      published session end cancelled. */
  lemma PublishedEndsCancelled(quotas: map<nat, nat>, cfg: Config, steps: seq<P.Step>, t: nat)
    requires LeavesStaging(T.Reach(quotas, cfg, steps), t)
    ensures var db := T.Reach(quotas, cfg, steps);
            var s := db.jobs[db.claims[t].image].session;
            var all := steps + LostEndingRun(db, t);
            var after := T.Reach(quotas, cfg, all);
            s in after.sessions && after.sessions[s].status == Cancelled &&
            s in T.EndingsOf(quotas, cfg, all) && T.EndingsOf(quotas, cfg, all)[s] == Completed
  {
    hide Publish.Commit, LeftStaging, LostEndingRun, P.Run, T.Reach, T.EndingsOf;
    var db := T.Reach(quotas, cfg, steps);
    LeftBehind(quotas, cfg, steps, t);
    CommitRecordsEnding(quotas, cfg, steps, t);
    LostEnding(db, cfg, t);
    T.ReachConcat(quotas, cfg, steps, LostEndingRun(db, t));
    var i := db.claims[t].image;
    RunOfEnding(db, t);
    EndingStays(quotas, cfg, steps + [P.Commit(t)], AfterCommit(db, i), db.jobs[i].session);
    assert steps + [P.Commit(t)] + AfterCommit(db, i) == steps + ([P.Commit(t)] + AfterCommit(db, i));
  }

  lemma LeftBehind(quotas: map<nat, nat>, cfg: Config, steps: seq<P.Step>, t: nat)
    requires LeavesStaging(T.Reach(quotas, cfg, steps), t)
    ensures var db := T.Reach(quotas, cfg, steps);
            var i := db.claims[t].image;
            LeftStaging(Publish.Commit(db, t).0, db.jobs[i].session, i, db.images[i].owner)
  {
    T.Reachable(quotas, cfg, steps);
    T.RunKeepsEnds(quotas, cfg, steps);
    CommitLeavesStaging(T.Reach(quotas, cfg, steps), T.EndingsOf(quotas, cfg, steps), cfg, t);
  }

  lemma RecordedEnding(db: Db, endings: Lifecycle.Endings, cfg: Config, t: nat)
    requires Links.Linked(db) && Lifecycle.Ends(db, endings) && LeavesStaging(db, t)
    ensures var s := db.jobs[db.claims[t].image].session;
            var endings' := Lifecycle.NextEndings(endings, Publish.Commit(db, t).0.sessions, P.Commit(t));
            s in endings' && endings'[s] == Completed
  {
    hide Publish.Commit;
    Lifecycle.PublishesOnly(db, t);
    assert Lifecycle.SessionEnds(db, endings, db.jobs[db.claims[t].image].session);
  }

  lemma CommitRecordsEnding(quotas: map<nat, nat>, cfg: Config, steps: seq<P.Step>, t: nat)
    requires LeavesStaging(T.Reach(quotas, cfg, steps), t)
    ensures var db := T.Reach(quotas, cfg, steps);
            var s := db.jobs[db.claims[t].image].session;
            var endings := T.EndingsOf(quotas, cfg, steps + [P.Commit(t)]);
            s in endings && endings[s] == Completed
  {
    hide T.Reach, T.EndingsOf, P.Apply, P.Run, T.Inv;
    var db := T.Reach(quotas, cfg, steps);
    T.Reachable(quotas, cfg, steps);
    T.RunKeepsEnds(quotas, cfg, steps);
    RecordedEnding(db, T.EndingsOf(quotas, cfg, steps), cfg, t);
    ReachNext(quotas, cfg, steps, P.Commit(t));
    P.EndApplied(db, cfg, P.Commit(t));
  }

  lemma LostEnding(db: Db, cfg: Config, t: nat)
    requires LeavesStaging(db, t)
    requires LeftStaging(Publish.Commit(db, t).0, db.jobs[db.claims[t].image].session, db.claims[t].image,
                         db.images[db.claims[t].image].owner)
    ensures var s := db.jobs[db.claims[t].image].session;
            var after := P.Run(db, cfg, LostEndingRun(db, t));
            s in after.sessions && after.sessions[s].status == Cancelled
  {
    hide P.Apply, P.Run;
    var i := db.claims[t].image;
    var s, owner := db.jobs[i].session, db.images[i].owner;
    var one, two := [P.Commit(t)], [P.DeleteImage(owner, false, i), P.Tick(Publish.CLEANUP_DELAY)];
    P.RunOne(db, cfg, P.Commit(t));
    P.EndApplied(db, cfg, P.Commit(t));
    var a := P.Run(db, cfg, one);
    NextSweepStays(db, cfg, P.Commit(t));
    DeleteThenWait(a, cfg, s, i, owner);
    P.RunTwo(a, cfg, P.DeleteImage(owner, false, i), P.Tick(Publish.CLEANUP_DELAY));
    NextSweepStays(a, cfg, P.DeleteImage(owner, false, i));
    NextSweepStays(P.Apply(a, cfg, P.DeleteImage(owner, false, i)), cfg, P.Tick(Publish.CLEANUP_DELAY));
    var b := P.Run(a, cfg, two);
    SweepEnds(b, cfg, s, b.clock);
    P.RunConcat(a, cfg, two, SweepRun(s, b.nextSweep, b.clock));
    P.RunConcat(db, cfg, one, two + SweepRun(s, b.nextSweep, b.clock));
  }

  // ----- Staging that comes back -----

  /** A Complete that could promote its first part now. */
  ghost predicate CanPromote(db: Db, user: nat, s: nat)
  {
    Upload.CompleteGuard(db, user, s) == None &&
    Upload.PromotePart(db.disk, s, Master, db.sessions[s].parts[Master].blob).ok
  }

  function RefillRun(user: nat, s: nat): seq<P.Step>
  {
    [P.CompleteInterrupted(user, s, 1, 1), P.Cancel(user, s)] + [P.CancelSwept(s), P.Restore(s, 1)]
  }

  lemma InterruptedThenCancelled(db: Db, cfg: Config, user: nat, s: nat)
    requires CanPromote(db, user, s)
    requires Staged(s, Master) in db.disk ==> db.disk[Staged(s, Master)] == db.sessions[s].parts[Master].blob
    ensures var b := P.Run(db, cfg, [P.CompleteInterrupted(user, s, 1, 1), P.Cancel(user, s)]);
            PromotedAndCancelled(b, s) && s in b.cancels
  {
    hide P.Apply, P.Run;
    P.RunTwo(db, cfg, P.CompleteInterrupted(user, s, 1, 1), P.Cancel(user, s));
    var a := P.Apply(db, cfg, P.CompleteInterrupted(user, s, 1, 1));
    P.FileApplied(db, cfg, P.CompleteInterrupted(user, s, 1, 1));
    InterruptedOnce(db, user, s);
    hide Upload.CompleteInterrupted, Upload.PromoteFirst, CanPromote;
    P.UploadApplied(a, cfg, P.Cancel(user, s));
  }

  /** The session is cancelled, its first part is in its stored place, and the compensation is owed. */
  ghost predicate PromotedAndCancelled(db: Db, s: nat)
  {
    && s in db.sessions && db.sessions[s].status == Cancelled &&
       (forall k :: k in PROMOTED ==> k in db.sessions[s].parts)
    && Stored(Master, db.sessions[s].parts[Master].blob.hash) in db.disk
    && db.disk[Stored(Master, db.sessions[s].parts[Master].blob.hash)] == db.sessions[s].parts[Master].blob
    && (s, 1) in db.restores
  }

  lemma InterruptedOnce(db: Db, user: nat, s: nat)
    requires CanPromote(db, user, s)
    requires Staged(s, Master) in db.disk ==> db.disk[Staged(s, Master)] == db.sessions[s].parts[Master].blob
    ensures var a := Upload.CompleteInterrupted(db, user, s, 1, 1);
            a.sessions == db.sessions && s in db.sessions && Upload.Owned(db, user, s) && Rank(db.sessions[s]) < 2 &&
            (forall k :: k in PROMOTED ==> k in db.sessions[s].parts) && (s, 1) in a.restores &&
            Stored(Master, db.sessions[s].parts[Master].blob.hash) in a.disk &&
            a.disk[Stored(Master, db.sessions[s].parts[Master].blob.hash)] == db.sessions[s].parts[Master].blob
  {
    assert Upload.PromoteFirst(db.disk, s, db.sessions[s].parts, 0).disk == db.disk;
  }

  lemma SweptThenRestored(db: Db, cfg: Config, s: nat)
    requires PromotedAndCancelled(db, s) && s in db.cancels
    ensures var b := P.Run(db, cfg, [P.CancelSwept(s), P.Restore(s, 1)]);
            s in b.sessions && b.sessions[s].status == Cancelled && Staged(s, Master) in b.disk
  {
    hide P.Apply, P.Run;
    P.RunTwo(db, cfg, P.CancelSwept(s), P.Restore(s, 1));
    var a := P.Apply(db, cfg, P.CancelSwept(s));
    P.UploadApplied(db, cfg, P.CancelSwept(s));
    P.FileApplied(a, cfg, P.Restore(s, 1));
    assert Upload.RestoreFirst(a.disk, s, a.sessions[s].parts, 0).disk == a.disk;
  }

  /** Wherever a Complete can promote its first part, a failed or lost transaction of that Complete, a
      cancellation that removes the staging and the late compensation leave a part in the staging of a
      cancelled session. */
  lemma CancelledRefills(quotas: map<nat, nat>, cfg: Config, steps: seq<P.Step>, user: nat, s: nat)
    requires CanPromote(T.Reach(quotas, cfg, steps), user, s)
    ensures var after := T.Reach(quotas, cfg, steps + RefillRun(user, s));
            s in after.sessions && after.sessions[s].status == Cancelled && Staged(s, Master) in after.disk
  {
    hide P.Apply, P.Run, T.Reach;
    var db := T.Reach(quotas, cfg, steps);
    T.Reachable(quotas, cfg, steps);
    StagedMaster(db, cfg, s);
    InterruptedThenCancelled(db, cfg, user, s);
    var first, second := [P.CompleteInterrupted(user, s, 1, 1), P.Cancel(user, s)], [P.CancelSwept(s), P.Restore(s, 1)];
    SweptThenRestored(P.Run(db, cfg, first), cfg, s);
    P.RunConcat(db, cfg, first, second);
    T.ReachConcat(quotas, cfg, steps, RefillRun(user, s));
  }

  lemma StagedMaster(db: Db, cfg: Config, s: nat)
    requires T.Inv(db, cfg) && s in db.sessions
    ensures Staged(s, Master) in db.disk ==>
              Master in db.sessions[s].parts && db.disk[Staged(s, Master)] == db.sessions[s].parts[Master].blob
  {
    if Staged(s, Master) in db.disk {
      assert FileOk(db, Staged(s, Master));
    }
  }

  // ----- A run from an empty database -----

  const QUOTAS: map<nat, nat> := map[0 := 100_000_000]
  const CONFIG: Config := Config(1000, 1, 1000, 100)

  function PartBlob(k: Kind): Blob
  {
    Blob(KindIndex(k), 64)
  }

  const MANIFEST: seq<PartManifest> :=
    [PartManifest(Master, PartBlob(Master)), PartManifest(Gallery, PartBlob(Gallery)),
     PartManifest(Admin, PartBlob(Admin)), PartManifest(PublishSource, PartBlob(PublishSource))]

  function Put(k: Kind): P.Step
  {
    P.PutPart(0, 0, k, PartBlob(k))
  }

  /** Everything is uploaded. */
  const UPLOADS: seq<P.Step> :=
    [P.Init(0, "", MANIFEST, 0), Put(Master)] + [Put(Gallery), Put(Admin)] + [Put(PublishSource)]

  /** The publish job is claimed. */
  const CLAIMED: seq<P.Step> := UPLOADS + [P.Complete(0, 0, false), P.ClaimJob(0, 0)]

  /** It is about to commit, and its staging directory could not be removed. */
  const ABOUT_TO_COMMIT: seq<P.Step> :=
    CLAIMED + [P.PromoteTarget(0), P.Inspect(0)] + [P.TrySweepStaging(0, false)]

  /** The only session is uploading, the parts in ks have arrived, and nothing else has happened. */
  ghost predicate Uploaded(db: Db, ks: set<Kind>)
  {
    && db.clock == 0 && db.nextSession == 1 && db.nextImage == 0 && db.nextToken == 0
    && db.images == map[] && db.jobs == map[] && db.claims == map[]
    && 0 in db.sessions && Receiving(db.sessions[0], ks)
    && (forall k :: k in ks ==> Staged(0, k) in db.disk && db.disk[Staged(0, k)] == PartBlob(k))
    && (forall p :: p in db.disk ==> p.Staged?)
  }

  ghost predicate Receiving(session: Session, ks: set<Kind>)
  {
    && session.owner == 0 && (session.status == Initiated || session.status == Uploading)
    && session.expiresAt > 0 && session.staged
    && (forall k :: k in session.parts <==> k in UPLOAD_KINDS)
    && (forall k :: k in UPLOAD_KINDS ==> session.parts[k] == Part(if k in ks then Received else Pending, PartBlob(k)))
  }

  lemma ManifestParts()
    ensures Upload.ValidateManifest(MANIFEST, 1000) == None && Upload.TotalSize(MANIFEST) == 256
    ensures forall k :: k in Upload.PendingParts(MANIFEST) <==> k in UPLOAD_KINDS
    ensures forall k :: k in UPLOAD_KINDS ==> Upload.PendingParts(MANIFEST)[k] == Part(Pending, PartBlob(k))
  {
    var one, two, three := MANIFEST[..1], MANIFEST[..2], MANIFEST[..3];
    assert one[..0] == [] && two[..1] == one && three[..2] == two && MANIFEST[..|MANIFEST| - 1] == three;
    assert Upload.TotalSize(one[..0]) == 0 && Upload.PendingParts(one[..0]) == map[] && one[0] == MANIFEST[0];
    assert Upload.PendingParts(one) == Upload.PendingParts(one[..0])[Master := Part(Pending, PartBlob(Master))];
    assert Upload.TotalSize(one) == 64 && Upload.PendingParts(one) == map[Master := Part(Pending, PartBlob(Master))];
    assert Upload.TotalSize(two) == 128 &&
           Upload.PendingParts(two) == Upload.PendingParts(one)[Gallery := Part(Pending, PartBlob(Gallery))];
    assert Upload.TotalSize(three) == 192 &&
           Upload.PendingParts(three) == Upload.PendingParts(two)[Admin := Part(Pending, PartBlob(Admin))];
    assert Upload.PendingParts(MANIFEST) ==
           Upload.PendingParts(three)[PublishSource := Part(Pending, PartBlob(PublishSource))];
    assert Upload.KindsOf(MANIFEST) == UPLOAD_KINDS by {
      assert MANIFEST[0].kind in Upload.KindsOf(MANIFEST) && MANIFEST[1].kind in Upload.KindsOf(MANIFEST);
      assert MANIFEST[2].kind in Upload.KindsOf(MANIFEST) && MANIFEST[3].kind in Upload.KindsOf(MANIFEST);
    }
    Upload.ManifestCharacterised(MANIFEST, 1000);
  }

  lemma InitUploads()
    ensures Uploaded(P.Run(P.Start(QUOTAS), CONFIG, [P.Init(0, "", MANIFEST, 0)]), {})
  {
    hide P.Apply, P.Run;
    P.RunOne(P.Start(QUOTAS), CONFIG, P.Init(0, "", MANIFEST, 0));
    P.UploadApplied(P.Start(QUOTAS), CONFIG, P.Init(0, "", MANIFEST, 0));
    ManifestParts();
    assert Upload.Refusal(P.Start(QUOTAS), CONFIG, 0, OUTPUT_RESERVE + 256, 0) == None;
    hide Upload.ValidateManifest, Upload.TotalSize, Upload.PendingParts, Upload.Refusal;
  }

  lemma PutReceives(db: Db, k: Kind, ks: set<Kind>)
    requires Uploaded(db, ks) && k in UPLOAD_KINDS && k !in ks
    ensures var after := Upload.ReceivePart(db.sessions[0], k);
            Receiving(after, ks + {k}) &&
            Upload.PutPart(db, 0, 0, k, PartBlob(k)).0 ==
              db.(sessions := db.sessions[0 := after], disk := db.disk[Staged(0, k) := PartBlob(k)])
  {
    assert db.sessions[0].parts[k] == Part(Pending, PartBlob(k));
  }

  lemma PutUploads(db: Db, k: Kind, ks: set<Kind>)
    requires Uploaded(db, ks) && k in UPLOAD_KINDS && k !in ks
    ensures Uploaded(P.Apply(db, CONFIG, Put(k)), ks + {k})
  {
    hide P.Apply, Upload.PutPart;
    P.UploadApplied(db, CONFIG, Put(k));
    PutReceives(db, k, ks);
    hide Upload.ReceivePart;
  }

  /** All four parts arrive. */
  lemma AllUploaded()
    ensures Uploaded(T.Reach(QUOTAS, CONFIG, UPLOADS), UPLOAD_KINDS)
  {
    hide P.Apply, P.Run, Uploaded;
    assert {} + {Master} == {Master} && {Master} + {Gallery} == {Master, Gallery};
    assert {Master, Gallery} + {Admin} == {Master, Gallery, Admin};
    assert {Master, Gallery, Admin} + {PublishSource} == UPLOAD_KINDS;
    var start, first := P.Start(QUOTAS), [P.Init(0, "", MANIFEST, 0)];
    InitUploads();
    var a := P.Run(start, CONFIG, first);
    PutUploads(a, Master, {});
    var b := P.Apply(a, CONFIG, Put(Master));
    PutUploads(b, Gallery, {Master});
    var c := P.Apply(b, CONFIG, Put(Gallery));
    PutUploads(c, Admin, {Master, Gallery});
    var d := P.Apply(c, CONFIG, Put(Admin));
    PutUploads(d, PublishSource, {Master, Gallery, Admin});
    P.RunOne(start, CONFIG, P.Init(0, "", MANIFEST, 0));
    P.RunTwo(start, CONFIG, P.Init(0, "", MANIFEST, 0), Put(Master));
    P.RunTwo(b, CONFIG, Put(Gallery), Put(Admin));
    P.RunOne(d, CONFIG, Put(PublishSource));
    P.RunConcat(start, CONFIG, [P.Init(0, "", MANIFEST, 0), Put(Master)], [Put(Gallery), Put(Admin)]);
    P.RunConcat(start, CONFIG, [P.Init(0, "", MANIFEST, 0), Put(Master)] + [Put(Gallery), Put(Admin)],
                [Put(PublishSource)]);
  }

  /** So the exception of the staging theorem occurs. */
  lemma RefillOccurs()
    ensures CanPromote(T.Reach(QUOTAS, CONFIG, UPLOADS), 0, 0)
    ensures var after := T.Reach(QUOTAS, CONFIG, UPLOADS + RefillRun(0, 0));
            0 in after.sessions && after.sessions[0].status == Cancelled && Staged(0, Master) in after.disk
  {
    hide T.Reach;
    AllUploaded();
    CancelledRefills(QUOTAS, CONFIG, UPLOADS, 0, 0);
  }

  /** The rows of a published upload as far as its worker got: the lease holder is token 0. */
  ghost predicate Publishing(db: Db)
  {
    && db.clock == 0 && db.nextSession == 1
    && 0 in db.sessions && db.sessions[0].staged && 0 in db.images
    && 0 in db.jobs && db.jobs[0].session == 0 && !db.jobs[0].watermark
    && Publish.Fenced(db.jobs, db.claims, 0) && db.claims[0].image == 0
  }

  lemma CompletedUpload(db: Db)
    requires Uploaded(db, UPLOAD_KINDS)
    ensures var b := Upload.Complete(db, 0, 0, false).0;
            b.clock == 0 && b.nextSession == 1 && b.nextToken == 0 && b.claims == map[] &&
            0 in b.sessions && b.sessions[0].staged && 0 in b.images &&
            b.jobs == map[0 := Job(0, Some(0), Queued, 0, JOB_MAX_ATTEMPTS, 0, None, None, false)] &&
            Staged(0, PublishSource) in b.disk && PublishTarget(0) !in b.disk
  {
    PromotesAll(db);
    hide Upload.PromoteFirst;
  }

  lemma PromotesAll(db: Db)
    requires Uploaded(db, UPLOAD_KINDS)
    ensures forall k :: k in PROMOTED ==> k in db.sessions[0].parts
    ensures var r := Upload.PromoteFirst(db.disk, 0, db.sessions[0].parts, |PROMOTED|);
            r.ok && Staged(0, PublishSource) in r.disk && PublishTarget(0) !in r.disk
  {
    var parts := db.sessions[0].parts;
    var zero, one := Upload.PromoteFirst(db.disk, 0, parts, 0), Upload.PromoteFirst(db.disk, 0, parts, 1);
    var two := Upload.PromoteFirst(db.disk, 0, parts, 2);
    assert zero.ok && zero.disk == db.disk;
    assert one.ok && Staged(0, Gallery) in one.disk && Staged(0, Admin) in one.disk &&
           Staged(0, PublishSource) in one.disk;
    assert one.disk.Keys == db.disk.Keys - {Staged(0, Master)} + {Stored(Master, 0)};
    assert two.ok && Staged(0, Admin) in two.disk && Staged(0, PublishSource) in two.disk;
    assert two.disk.Keys == one.disk.Keys - {Staged(0, Gallery)} + {Stored(Gallery, 1)};
  }

  lemma CompleteAndClaim()
    ensures var db := T.Reach(QUOTAS, CONFIG, CLAIMED);
            Publishing(db) && Staged(0, PublishSource) in db.disk && PublishTarget(0) !in db.disk
  {
    hide P.Apply, P.Run, T.Reach, Uploaded;
    var db := T.Reach(QUOTAS, CONFIG, UPLOADS);
    AllUploaded();
    CompletedUpload(db);
    P.RunTwo(db, CONFIG, P.Complete(0, 0, false), P.ClaimJob(0, 0));
    P.UploadApplied(db, CONFIG, P.Complete(0, 0, false));
    hide Upload.Complete;
    var a := P.Apply(db, CONFIG, P.Complete(0, 0, false));
    P.LeaseApplied(a, CONFIG, P.ClaimJob(0, 0));
    T.ReachConcat(QUOTAS, CONFIG, UPLOADS, [P.Complete(0, 0, false), P.ClaimJob(0, 0)]);
  }

  /** So the exception of the theorem on named files occurs: the step removes a file that a row names. */
  lemma TakingOccurs()
    ensures var db := T.Reach(QUOTAS, CONFIG, CLAIMED);
            var db' := P.Apply(db, CONFIG, P.PromoteTarget(0));
            var source := Staged(0, PublishSource);
            source in db.disk && source !in db'.disk && Referenced(db'.images, db'.files, source)
  {
    hide P.Apply, T.Reach;
    CompleteAndClaim();
    T.NamedFilesStay(QUOTAS, CONFIG, CLAIMED, P.PromoteTarget(0), Staged(0, PublishSource));
  }

  lemma PromotedAndInspected(db: Db)
    requires Publishing(db) && Staged(0, PublishSource) in db.disk && PublishTarget(0) !in db.disk
    ensures var b := P.Run(db, CONFIG, [P.PromoteTarget(0), P.Inspect(0)]);
            Publishing(b) && b.claims[0].inspected.Some?
  {
    hide P.Apply, P.Run;
    P.RunTwo(db, CONFIG, P.PromoteTarget(0), P.Inspect(0));
    var a := P.Apply(db, CONFIG, P.PromoteTarget(0));
    P.FileApplied(db, CONFIG, P.PromoteTarget(0));
    P.FileApplied(a, CONFIG, P.Inspect(0));
  }

  lemma StagingKept(db: Db)
    requires Publishing(db) && db.claims[0].inspected.Some?
    ensures var b := P.Run(db, CONFIG, [P.TrySweepStaging(0, false)]);
            Publishing(b) && b.claims[0].inspected.Some? && b.claims[0].stagingClean == Some(false)
  {
    hide P.Apply, P.Run;
    P.RunOne(db, CONFIG, P.TrySweepStaging(0, false));
    P.FileApplied(db, CONFIG, P.TrySweepStaging(0, false));
  }

  /** So a published session that ends cancelled occurs. */
  lemma LostEndingOccurs()
    ensures LeavesStaging(T.Reach(QUOTAS, CONFIG, ABOUT_TO_COMMIT), 0)
    ensures var all := ABOUT_TO_COMMIT + LostEndingRun(T.Reach(QUOTAS, CONFIG, ABOUT_TO_COMMIT), 0);
            var after := T.Reach(QUOTAS, CONFIG, all);
            0 in after.sessions && after.sessions[0].status == Cancelled &&
            0 in T.EndingsOf(QUOTAS, CONFIG, all) && T.EndingsOf(QUOTAS, CONFIG, all)[0] == Completed
  {
    hide P.Apply, P.Run, T.Reach, T.EndingsOf;
    var db, first := T.Reach(QUOTAS, CONFIG, CLAIMED), [P.PromoteTarget(0), P.Inspect(0)];
    CompleteAndClaim();
    PromotedAndInspected(db);
    StagingKept(P.Run(db, CONFIG, first));
    T.ReachConcat(QUOTAS, CONFIG, CLAIMED, first);
    T.ReachConcat(QUOTAS, CONFIG, CLAIMED + first, [P.TrySweepStaging(0, false)]);
    CommitsNow();
    PublishedEndsCancelled(QUOTAS, CONFIG, ABOUT_TO_COMMIT, 0);
  }

  lemma CommitsNow()
    requires var db := T.Reach(QUOTAS, CONFIG, ABOUT_TO_COMMIT);
             Publishing(db) && db.claims[0].inspected.Some? && db.claims[0].stagingClean == Some(false)
    ensures LeavesStaging(T.Reach(QUOTAS, CONFIG, ABOUT_TO_COMMIT), 0)
  {
    hide T.Reach, Publish.Commit;
    var db := T.Reach(QUOTAS, CONFIG, ABOUT_TO_COMMIT);
    T.PublishIsCovered(QUOTAS, CONFIG, ABOUT_TO_COMMIT, 0);
    var f := Ledger.ExpiredBy(db.sessions - {0}, db.images[0].owner, db.claims[0].seen, db.clock);
    assert f(0) == 0 && SumBelow(f, 0) == 0 && SumBelow(f, 1) == 0;
  }
}
