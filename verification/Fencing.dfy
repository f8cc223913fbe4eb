/** The lease protocol of the publish jobs over whole runs: tokens fence out every worker but the
    current one, attempts stay within their limit, and a job ends once. */
module Fencing {
  import opened Collections
  import opened Rows
  import opened Publish
  import Upload
  import Deletion
  import Links
  import P = Pipeline

  /** A job is running exactly while it carries a token, and the claim that holds the token
      remembers its attempts. */
  ghost predicate LeaseOk(db: Db, i: nat)
    requires i in db.jobs
  {
    var job := db.jobs[i];
    && job.attempts <= job.maxAttempts
    && (job.status == Running <==> job.token.Some?)
    && (job.token.Some? ==>
          var t := job.token.value;
          && t in db.claims
          && db.claims[t].image == i
          && db.claims[t].attempts == job.attempts
          && (db.claims[t].refundable ==> job.attempts > 0)
          && (!db.claims[t].refundable ==> job.attempts == job.maxAttempts))
  }

  ghost predicate ClaimOk(db: Db, t: nat)
    requires t in db.claims
  {
    t < db.nextToken && db.claims[t].image in db.jobs
  }

  ghost predicate Leased(db: Db)
  {
    && (forall i {:trigger LeaseOk(db, i)} :: i in db.jobs ==> LeaseOk(db, i))
    && (forall t {:trigger ClaimOk(db, t)} :: t in db.claims ==> ClaimOk(db, t))
  }

  /** The claims agree up to what they read from the disk. */
  ghost predicate SameClaims(a: map<nat, Claim>, b: map<nat, Claim>)
  {
    SameKeys(a, b) &&
    forall t :: t in a ==>
      a[t].image == b[t].image && a[t].attempts == b[t].attempts && a[t].refundable == b[t].refundable
  }

  /** A step that changes at most the job i, and claims only in what they read. */
  lemma JobStep(db: Db, db': Db, i: nat)
    requires Leased(db) && OnlyAt(db.jobs, db'.jobs, i) && SameClaims(db.claims, db'.claims)
    requires db'.nextToken == db.nextToken && (i in db.jobs ==> i in db'.jobs)
    requires i in db'.jobs ==> LeaseOk(db', i)
    ensures Leased(db')
  {
    forall j | j in db'.jobs ensures LeaseOk(db', j) { assert j != i ==> LeaseOk(db, j); }
    forall t | t in db'.claims ensures ClaimOk(db', t) { assert ClaimOk(db, t); }
  }

  lemma ReclaimKeepsLeases(db: Db, seen: Time)
    requires Leased(db)
    ensures Leased(db.(jobs := ReclaimExpired(db.jobs, seen)))
  {
    var db' := db.(jobs := ReclaimExpired(db.jobs, seen));
    forall j | j in db'.jobs ensures LeaseOk(db', j) { assert LeaseOk(db, j); }
    forall t | t in db'.claims ensures ClaimOk(db', t) { assert ClaimOk(db, t); }
  }

  /** A new token goes to a job whose earlier token, if any, no claim can use again. */
  lemma GrantKeepsLeases(db: Db, i: nat, attempts: nat, refundable: bool, until: Time)
    requires Leased(db) && i in db.jobs && attempts <= db.jobs[i].maxAttempts
    requires if refundable then attempts > 0 else attempts == db.jobs[i].maxAttempts
    ensures Leased(db.(jobs := db.jobs[i := Publish.Leased(db.jobs[i], attempts, db.nextToken, until)],
                       claims := db.claims[db.nextToken := Claim(i, attempts, refundable, None, None, 0)],
                       nextToken := db.nextToken + 1))
  {
    var n := db.nextToken;
    var db' := db.(jobs := db.jobs[i := Publish.Leased(db.jobs[i], attempts, n, until)],
                   claims := db.claims[n := Claim(i, attempts, refundable, None, None, 0)],
                   nextToken := n + 1);
    assert n in db.claims ==> ClaimOk(db, n);
    forall j | j in db'.jobs ensures LeaseOk(db', j) { assert LeaseOk(db, j); }
    forall t | t in db'.claims ensures ClaimOk(db', t) { assert t in db.claims ==> ClaimOk(db, t); }
  }

  lemma ClaimJobKeepsLeases(db: Db, cfg: Config, i: nat, seen: Time)
    requires Leased(db)
    ensures Leased(ClaimJob(db, cfg, i, seen).0)
  {
    var jobs := ReclaimExpired(db.jobs, seen);
    if Claimable(jobs, i, seen) {
      ReclaimKeepsLeases(db, seen);
      hide ReclaimExpired;
      GrantKeepsLeases(db.(jobs := jobs), i, jobs[i].attempts + 1, true, seen + cfg.jobLease);
    }
  }

  lemma ClaimKeepsLeases(db: Db, cfg: Config, i: nat, seen: Time)
    requires Leased(db)
    ensures Leased(ClaimJob(db, cfg, i, seen).0) && Leased(ClaimExhausted(db, cfg, i, seen).0)
  {
    ClaimJobKeepsLeases(db, cfg, i, seen);
    hide ClaimJob;
    if Exhausted(db.jobs, i, seen) {
      assert LeaseOk(db, i);
      GrantKeepsLeases(db, i, db.jobs[i].attempts, false, seen + cfg.jobLease);
    }
  }

  lemma ExtendKeepsLeases(db: Db, cfg: Config, t: nat)
    requires Leased(db)
    ensures Leased(Extend(db, cfg, t))
  {
    if Fenced(db.jobs, db.claims, t) {
      assert LeaseOk(db, db.claims[t].image);
      JobStep(db, Extend(db, cfg, t), db.claims[t].image);
    }
  }

  lemma ReleaseKeepsLeases(db: Db, t: nat, panicked: bool)
    requires Leased(db)
    ensures Leased(Release(db, t, panicked))
  {
    if Fenced(db.jobs, db.claims, t) {
      assert LeaseOk(db, db.claims[t].image);
      JobStep(db, Release(db, t, panicked), db.claims[t].image);
    }
  }

  lemma FailKeepsLeases(db: Db, t: nat, overQuota: bool)
    requires Leased(db)
    ensures Leased(Fail(db, t, overQuota).0)
  {
    if Fenced(db.jobs, db.claims, t) {
      var i := db.claims[t].image;
      assert LeaseOk(db, i);
      JobStep(db, Fail(db, t, overQuota).0, i);
    }
  }

  lemma CommitKeepsLeases(db: Db, t: nat)
    requires Leased(db) && t in db.claims && db.claims[t].inspected.Some? && db.claims[t].stagingClean.Some?
    ensures Leased(Commit(db, t).0)
  {
    if Commit(db, t).0 != db {
      var i := db.claims[t].image;
      assert LeaseOk(db, i);
      JobStep(db, Commit(db, t).0, i);
    }
  }

  lemma CompleteKeepsLeases(db: Db, user: nat, s: nat, watermark: bool)
    requires Leased(db) && Links.Linked(db)
    ensures Leased(Upload.Complete(db, user, s, watermark).0)
  {
    Links.FreshSession(db);
    Links.IdleIsolated(db, db.nextSession);
    if Upload.CompleteGuard(db, user, s) == None {
      var promotion := Upload.PromoteFirst(db.disk, s, db.sessions[s].parts, |PROMOTED|);
      if promotion.ok {
        EnterKeepsLeases(db, s, promotion.disk, watermark);
      } else {
        JobStep(db, Upload.Complete(db, user, s, watermark).0, db.nextImage);
      }
    }
  }

  lemma EnterKeepsLeases(db: Db, s: nat, disk: Disk, watermark: bool)
    requires Leased(db) && db.nextImage !in db.jobs
    requires s in db.sessions && forall k :: k in UPLOAD_KINDS ==> k in db.sessions[s].parts
    ensures Leased(Upload.EnterProcessing(db, s, disk, watermark))
    ensures Progress(db, Upload.EnterProcessing(db, s, disk, watermark))
  {
    JobStep(db, Upload.EnterProcessing(db, s, disk, watermark), db.nextImage);
    LocalProgress(db, Upload.EnterProcessing(db, s, disk, watermark), db.nextImage);
  }

  lemma DeleteKeepsLeases(db: Db, user: nat, isAdmin: bool, i: nat)
    requires Leased(db)
    ensures Leased(Deletion.DeleteImage(db, user, isAdmin, i).0)
  {
    assert i in db.jobs ==> LeaseOk(db, i);
    JobStep(db, Deletion.DeleteImage(db, user, isAdmin, i).0, i);
  }

  lemma LeaseStepsKeepLeases(db: Db, cfg: Config, step: P.Step)
    requires Leased(db) && P.LeaseStep(step) && P.Possible(db, step)
    ensures Leased(P.Apply(db, cfg, step))
  {
    hide P.Apply, Leased;
    P.LeaseApplied(db, cfg, step);
    match step
    case ClaimJob(i, seen) => ClaimKeepsLeases(db, cfg, i, seen);
    case ClaimExhausted(i, seen) => ClaimKeepsLeases(db, cfg, i, seen);
    case Extend(t) => ExtendKeepsLeases(db, cfg, t);
    case Release(t, panicked) => ReleaseKeepsLeases(db, t, panicked);
  }

  lemma OtherStepKeepsLeases(db: Db, cfg: Config, step: P.Step)
    requires Leased(db) && Links.Linked(db) && !TouchesJobs(step)
    ensures Leased(P.Apply(db, cfg, step))
  {
    hide P.Apply;
    OtherStepKeepsJobs(db, cfg, step);
    Links.FreshSession(db);
    Links.IdleIsolated(db, db.nextSession);
    JobStep(db, P.Apply(db, cfg, step), db.nextImage);
  }

  lemma EndKeepsLeases(db: Db, cfg: Config, step: P.Step)
    requires Leased(db) && Links.Linked(db) && (step.Commit? || step.Fail? || step.DeleteImage?) && P.Possible(db, step)
    ensures Leased(P.Apply(db, cfg, step))
  {
    hide P.Apply, Leased, Links.Linked;
    P.EndApplied(db, cfg, step);
    match step
    case Commit(t) => CommitKeepsLeases(db, t);
    case Fail(t, overQuota) => FailKeepsLeases(db, t, overQuota);
    case DeleteImage(user, isAdmin, i) => DeleteKeepsLeases(db, user, isAdmin, i);
  }

  lemma StepKeepsLeases(db: Db, cfg: Config, step: P.Step)
    requires Leased(db) && Links.Linked(db)
    ensures Leased(P.Apply(db, cfg, step))
  {
    hide P.Apply, Leased, Links.Linked;
    if !P.Possible(db, step) {
      P.Impossible(db, cfg, step);
    } else if !TouchesJobs(step) {
      OtherStepKeepsLeases(db, cfg, step);
    } else if P.LeaseStep(step) {
      LeaseStepsKeepLeases(db, cfg, step);
    } else if step.Complete? {
      P.UploadApplied(db, cfg, step);
      CompleteKeepsLeases(db, step.user, step.session, step.watermark);
    } else {
      EndKeepsLeases(db, cfg, step);
    }
  }

  predicate TouchesJobs(step: P.Step)
  {
    step.ClaimJob? || step.ClaimExhausted? || step.Extend? || step.Release? || step.Commit? || step.Fail? ||
    step.Complete? || step.DeleteImage?
  }

  lemma EqualClaims(claims: map<nat, Claim>)
    ensures SameClaims(claims, claims)
  {
  }

  lemma InspectKeepsClaims(db: Db, t: nat)
    ensures SameClaims(db.claims, Inspect(db, t).claims)
  {
    if Inspect(db, t) != db {
      assert Inspect(db, t).claims == db.claims[t := Inspect(db, t).claims[t]];
    }
  }

  lemma TrySweepKeepsClaims(db: Db, t: nat, clean: bool)
    ensures SameClaims(db.claims, TrySweepStaging(db, t, clean).claims)
  {
    if TrySweepStaging(db, t, clean) != db {
      assert TrySweepStaging(db, t, clean).claims == db.claims[t := TrySweepStaging(db, t, clean).claims[t]];
    }
  }

  lemma FileKeepsClaims(db: Db, cfg: Config, step: P.Step)
    requires P.FileStep(step)
    ensures SameClaims(db.claims, P.Apply(db, cfg, step).claims)
  {
    hide P.Apply, Publish.Inspect, Publish.TrySweepStaging, SameClaims;
    EqualClaims(db.claims);
    if !P.Possible(db, step) {
      P.Impossible(db, cfg, step);
    } else if !step.Inspect? && !step.TrySweepStaging? {
      Links.FileStepRows(db, cfg, step);
    } else {
      P.FileApplied(db, cfg, step);
      match step
      case Inspect(t) => InspectKeepsClaims(db, t);
      case TrySweepStaging(t, clean) => TrySweepKeepsClaims(db, t, clean);
    }
  }

  lemma UploadKeepsJobs(db: Db, cfg: Config, step: P.Step)
    requires P.UploadStep(step) && !step.Complete?
    ensures P.Apply(db, cfg, step).jobs == db.jobs
  {
    hide P.Apply;
    if P.Possible(db, step) {
      P.UploadApplied(db, cfg, step);
    } else {
      P.Impossible(db, cfg, step);
    }
  }

  lemma EndKeepsJobs(db: Db, cfg: Config, step: P.Step)
    requires step.ClaimSweep? || step.Finish?
    ensures P.Apply(db, cfg, step).jobs == db.jobs
  {
    hide P.Apply;
    if P.Possible(db, step) {
      P.EndApplied(db, cfg, step);
    } else {
      P.Impossible(db, cfg, step);
    }
  }

  lemma OtherStepKeepsJobs(db: Db, cfg: Config, step: P.Step)
    requires !TouchesJobs(step)
    ensures var db' := P.Apply(db, cfg, step);
            db'.jobs == db.jobs && db'.nextToken == db.nextToken && SameClaims(db.claims, db'.claims)
  {
    hide P.Apply;
    if P.FileStep(step) {
      Links.FileStepRows(db, cfg, step);
      FileKeepsClaims(db, cfg, step);
    } else if P.UploadStep(step) {
      Links.UploadStepRows(db, cfg, step);
      UploadKeepsJobs(db, cfg, step);
    } else if P.SweepStep(step) {
      Links.SweepStepRows(db, cfg, step);
    } else {
      Links.EndStepRows(db, cfg, step);
      EndKeepsJobs(db, cfg, step);
    }
  }

  // ----- A stale worker -----

  predicate TokenStep(step: P.Step, t: nat)
  {
    match step
    case Extend(token) => token == t
    case Release(token, _) => token == t
    case Render(token, _) => token == t
    case PromoteTarget(token) => token == t
    case RemoveRendering(token) => token == t
    case Inspect(token) => token == t
    case RemoveSource(token) => token == t
    case TrySweepStaging(token, _) => token == t
    case Commit(token) => token == t
    case Fail(token, _) => token == t
    case _ => false
  }

  /** Every row and every publish target is as before. */
  ghost predicate RowsAndTargetsUnchanged(db: Db, db': Db)
  {
    && db'.users == db.users && db'.sessions == db.sessions && db'.images == db.images && db'.files == db.files
    && db'.jobs == db.jobs && db'.events == db.events && db'.keys == db.keys
    && forall i :: (PublishTarget(i) in db'.disk <==> PublishTarget(i) in db.disk) &&
                   (PublishTarget(i) in db.disk ==> db'.disk[PublishTarget(i)] == db.disk[PublishTarget(i)])
  }

  /** No step of a worker whose token is not the row's current token changes a row or a target; of the files
      only the staged publish source can go, and no rendering but its own comes or goes. */
  lemma StaleWorkerChangesNothing(db: Db, cfg: Config, step: P.Step, t: nat)
    requires TokenStep(step, t) && !Fenced(db.jobs, db.claims, t)
    ensures RowsAndTargetsUnchanged(db, P.Apply(db, cfg, step))
    ensures forall p :: p in db.disk && p !in P.Apply(db, cfg, step).disk ==>
              step.RemoveSource? && p.Staged? && p.part == PublishSource
    ensures P.Apply(db, cfg, step).disk.Keys <= db.disk.Keys
    ensures P.Apply(db, cfg, step).renderings - {t} == db.renderings - {t}
  {
  }

  // ----- What any step does to the jobs -----

  predicate Over(jobs: map<nat, Job>, i: nat)
  {
    i in jobs && (jobs[i].status == JobCompleted || jobs[i].status == Dead)
  }

  /** Rows stay, an ended job keeps its end, and a token that appears was never given before. */
  ghost predicate JobNext(a: map<nat, Job>, b: map<nat, Job>, unused: nat, i: nat)
  {
    && (i in a ==> i in b && (Over(a, i) ==> b[i].status == a[i].status) &&
                   (b[i].token.Some? ==> b[i].token == a[i].token || b[i].token.value >= unused))
    && (i !in a && i in b ==> b[i].token == None)
  }

  ghost predicate ClaimNext(a: map<nat, Claim>, b: map<nat, Claim>, unused: nat, t: nat)
  {
    && (t in a ==> t in b && b[t].image == a[t].image)
    && (t !in a && t in b ==> t >= unused)
  }

  ghost predicate Progress(db: Db, db': Db)
  {
    && (forall i {:trigger JobNext(db.jobs, db'.jobs, db.nextToken, i)} :: JobNext(db.jobs, db'.jobs, db.nextToken, i))
    && (forall t {:trigger ClaimNext(db.claims, db'.claims, db.nextToken, t)} ::
          ClaimNext(db.claims, db'.claims, db.nextToken, t))
  }

  lemma LocalProgress(db: Db, db': Db, i: nat)
    requires OnlyAt(db.jobs, db'.jobs, i) && SameClaims(db.claims, db'.claims)
    requires JobNext(db.jobs, db'.jobs, db.nextToken, i)
    ensures Progress(db, db')
  {
  }

  /** Granting the next token of a row that may just have been reclaimed. */
  lemma GrantProgress(db: Db, db': Db, i: nat)
    requires Leased(db) && i in db.jobs && !Over(db.jobs, i) && SameKeys(db.jobs, db'.jobs)
    requires forall j :: j in db.jobs && j != i ==>
               db'.jobs[j] == db.jobs[j] || (!Over(db.jobs, j) && db'.jobs[j].token == None)
    requires db'.jobs[i].token == Some(db.nextToken)
    requires db.nextToken in db'.claims && db'.claims == db.claims[db.nextToken := db'.claims[db.nextToken]]
    ensures Progress(db, db')
  {
    assert db.nextToken in db.claims ==> ClaimOk(db, db.nextToken);
  }

  lemma ClaimProgress(db: Db, cfg: Config, i: nat, seen: Time)
    requires Leased(db)
    ensures Progress(db, ClaimJob(db, cfg, i, seen).0) && Progress(db, ClaimExhausted(db, cfg, i, seen).0)
  {
    var jobs := ReclaimExpired(db.jobs, seen);
    if Claimable(jobs, i, seen) {
      GrantProgress(db, ClaimJob(db, cfg, i, seen).0, i);
    }
    if Exhausted(db.jobs, i, seen) {
      GrantProgress(db, ClaimExhausted(db, cfg, i, seen).0, i);
    }
  }

  lemma LeaseProgress(db: Db, cfg: Config, t: nat, panicked: bool)
    ensures Progress(db, Extend(db, cfg, t)) && Progress(db, Release(db, t, panicked))
  {
    if Fenced(db.jobs, db.claims, t) {
      LocalProgress(db, Extend(db, cfg, t), db.claims[t].image);
      LocalProgress(db, Release(db, t, panicked), db.claims[t].image);
    }
  }

  lemma FailProgress(db: Db, t: nat, overQuota: bool)
    ensures Progress(db, Fail(db, t, overQuota).0)
  {
    if Fenced(db.jobs, db.claims, t) {
      var i := db.claims[t].image;
      BuryProgress(db, i);
      if Fail(db, t, overQuota).0 != Bury(db, i) {
        LocalProgress(db, Fail(db, t, overQuota).0, i);
      }
    }
  }

  lemma BuryProgress(db: Db, i: nat)
    requires i in db.jobs && !Over(db.jobs, i)
    ensures Progress(db, Bury(db, i))
  {
    LocalProgress(db, Bury(db, i), i);
  }

  lemma CommitProgress(db: Db, t: nat)
    requires t in db.claims && db.claims[t].inspected.Some? && db.claims[t].stagingClean.Some?
    ensures Progress(db, Commit(db, t).0)
  {
    LocalProgress(db, Commit(db, t).0, db.claims[t].image);
  }

  lemma CompleteProgress(db: Db, user: nat, s: nat, watermark: bool)
    requires Leased(db) && Links.Linked(db)
    ensures Progress(db, Upload.Complete(db, user, s, watermark).0)
  {
    Links.FreshSession(db);
    Links.IdleIsolated(db, db.nextSession);
    if Upload.CompleteGuard(db, user, s) == None {
      var promotion := Upload.PromoteFirst(db.disk, s, db.sessions[s].parts, |PROMOTED|);
      if promotion.ok {
        EnterKeepsLeases(db, s, promotion.disk, watermark);
      } else {
        LocalProgress(db, Upload.Complete(db, user, s, watermark).0, db.nextImage);
      }
    }
  }

  lemma DeleteProgress(db: Db, user: nat, isAdmin: bool, i: nat)
    ensures Progress(db, Deletion.DeleteImage(db, user, isAdmin, i).0)
  {
    LocalProgress(db, Deletion.DeleteImage(db, user, isAdmin, i).0, i);
  }

  lemma LeaseStepsProgress(db: Db, cfg: Config, step: P.Step)
    requires Leased(db) && P.LeaseStep(step) && P.Possible(db, step)
    ensures Progress(db, P.Apply(db, cfg, step))
  {
    hide P.Apply, Progress;
    P.LeaseApplied(db, cfg, step);
    match step
    case ClaimJob(i, seen) => ClaimProgress(db, cfg, i, seen);
    case ClaimExhausted(i, seen) => ClaimProgress(db, cfg, i, seen);
    case Extend(t) => LeaseProgress(db, cfg, t, false);
    case Release(t, panicked) => LeaseProgress(db, cfg, t, panicked);
  }

  lemma OtherStepProgress(db: Db, cfg: Config, step: P.Step)
    requires !TouchesJobs(step)
    ensures Progress(db, P.Apply(db, cfg, step))
  {
    hide P.Apply;
    OtherStepKeepsJobs(db, cfg, step);
    LocalProgress(db, P.Apply(db, cfg, step), 0);
  }

  lemma EndProgress(db: Db, cfg: Config, step: P.Step)
    requires Leased(db) && Links.Linked(db) && (step.Commit? || step.Fail? || step.DeleteImage?) && P.Possible(db, step)
    ensures Progress(db, P.Apply(db, cfg, step))
  {
    hide P.Apply, Progress, Links.Linked;
    P.EndApplied(db, cfg, step);
    match step
    case Commit(t) => CommitProgress(db, t);
    case Fail(t, overQuota) => FailProgress(db, t, overQuota);
    case DeleteImage(user, isAdmin, i) => DeleteProgress(db, user, isAdmin, i);
  }

  lemma StepProgress(db: Db, cfg: Config, step: P.Step)
    requires Leased(db) && Links.Linked(db)
    ensures Progress(db, P.Apply(db, cfg, step))
  {
    hide P.Apply, Progress, Leased, Links.Linked;
    if !TouchesJobs(step) {
      OtherStepProgress(db, cfg, step);
    } else if !P.Possible(db, step) {
      P.Impossible(db, cfg, step);
      LocalProgress(db, db, 0);
    } else if P.LeaseStep(step) {
      LeaseStepsProgress(db, cfg, step);
    } else if step.Complete? {
      P.UploadApplied(db, cfg, step);
      CompleteProgress(db, step.user, step.session, step.watermark);
    } else {
      EndProgress(db, cfg, step);
    }
  }

  /** Once a worker lost its token it never gets it back. */
  lemma LostTokenStaysLost(db: Db, cfg: Config, step: P.Step, t: nat)
    requires Leased(db) && Links.Linked(db) && t < db.nextToken && !Fenced(db.jobs, db.claims, t)
    ensures !Fenced(P.Apply(db, cfg, step).jobs, P.Apply(db, cfg, step).claims, t)
  {
    hide P.Apply;
    StepProgress(db, cfg, step);
    var db' := P.Apply(db, cfg, step);
    assert ClaimNext(db.claims, db'.claims, db.nextToken, t);
    if t in db.claims {
      assert ClaimOk(db, t);
      assert LeaseOk(db, db.claims[t].image);
      assert JobNext(db.jobs, db'.jobs, db.nextToken, db.claims[t].image);
    }
  }

  lemma LeaseTokens(db: Db, cfg: Config, step: P.Step)
    requires P.LeaseStep(step)
    ensures db.nextToken <= P.Apply(db, cfg, step).nextToken
  {
    hide P.Apply;
    if P.Possible(db, step) {
      P.LeaseApplied(db, cfg, step);
    } else {
      P.Impossible(db, cfg, step);
    }
  }

  lemma TokensGrow(db: Db, cfg: Config, step: P.Step)
    ensures db.nextToken <= P.Apply(db, cfg, step).nextToken
  {
    hide P.Apply;
    if P.FileStep(step) {
      Links.FileStepRows(db, cfg, step);
    } else if P.SweepStep(step) {
      Links.SweepStepRows(db, cfg, step);
    } else if P.UploadStep(step) {
      Links.UploadStepRows(db, cfg, step);
    } else if P.EndStep(step) {
      Links.EndStepRows(db, cfg, step);
    } else {
      LeaseTokens(db, cfg, step);
    }
  }

  // ----- Publishing happens once -----

  /** The step is the publish transaction that commits image i. */
  predicate Publishes(db: Db, step: P.Step, i: nat)
  {
    step.Commit? && P.Possible(db, step) && Commit(db, step.token).1 == Published && db.claims[step.token].image == i
  }

  predicate Done(jobs: map<nat, Job>, i: nat)
  {
    i in jobs && jobs[i].status == JobCompleted
  }

  lemma CommitCompletes(db: Db, t: nat, i: nat)
    requires P.Possible(db, P.Commit(t))
    ensures Done(Commit(db, t).0.jobs, i) <==> Done(db.jobs, i) || Publishes(db, P.Commit(t), i)
    ensures Publishes(db, P.Commit(t), i) ==> !Done(db.jobs, i)
  {
  }

  lemma BuryCompletesNothing(db: Db, j: nat, i: nat)
    requires j in db.jobs && db.jobs[j].status == Running
    ensures Done(Bury(db, j).jobs, i) <==> Done(db.jobs, i)
  {
  }

  lemma FailCompletesNothing(db: Db, t: nat, overQuota: bool, i: nat)
    ensures Done(Fail(db, t, overQuota).0.jobs, i) <==> Done(db.jobs, i)
  {
    if Fenced(db.jobs, db.claims, t) {
      BuryCompletesNothing(db, db.claims[t].image, i);
    }
  }

  lemma DeleteCompletesNothing(db: Db, user: nat, isAdmin: bool, j: nat, i: nat)
    ensures Done(Deletion.DeleteImage(db, user, isAdmin, j).0.jobs, i) <==> Done(db.jobs, i)
  {
  }

  lemma CompleteQueues(db: Db, user: nat, s: nat, watermark: bool)
    ensures var db' := Upload.Complete(db, user, s, watermark).0;
            if Upload.Complete(db, user, s, watermark).1.Entered? then
              db.nextImage in db'.jobs && db'.jobs == db.jobs[db.nextImage := db'.jobs[db.nextImage]] &&
              db'.jobs[db.nextImage].status == Queued
            else db'.jobs == db.jobs
  {
  }

  lemma CompleteCompletesNothing(db: Db, user: nat, s: nat, watermark: bool, i: nat)
    requires Links.Linked(db)
    ensures Done(Upload.Complete(db, user, s, watermark).0.jobs, i) <==> Done(db.jobs, i)
  {
    hide Upload.Complete;
    CompleteQueues(db, user, s, watermark);
    if Upload.Complete(db, user, s, watermark).1.Entered? {
      assert db.nextImage in db.jobs ==> Links.JobOk(db, db.nextImage);
    }
  }

  lemma QuietCompletesNothing(db: Db, cfg: Config, step: P.Step, i: nat)
    requires !TouchesJobs(step) || P.LeaseStep(step)
    ensures Done(P.Apply(db, cfg, step).jobs, i) <==> Done(db.jobs, i)
  {
    hide P.Apply;
    if !TouchesJobs(step) {
      OtherStepKeepsJobs(db, cfg, step);
    } else {
      Links.LeaseStepRows(db, cfg, step);
    }
  }

  lemma EndCompletes(db: Db, cfg: Config, step: P.Step, i: nat)
    requires (step.Commit? || step.Fail? || step.DeleteImage?) && P.Possible(db, step)
    ensures Done(P.Apply(db, cfg, step).jobs, i) <==> Done(db.jobs, i) || Publishes(db, step, i)
    ensures Publishes(db, step, i) ==> !Done(db.jobs, i)
  {
    hide P.Apply, Done;
    P.EndApplied(db, cfg, step);
    match step
    case Commit(t) => CommitCompletes(db, t, i);
    case Fail(t, overQuota) => FailCompletesNothing(db, t, overQuota, i);
    case DeleteImage(user, isAdmin, j) => DeleteCompletesNothing(db, user, isAdmin, j, i);
  }

  lemma DoneByPublishing(db: Db, cfg: Config, step: P.Step, i: nat)
    requires Links.Linked(db)
    ensures Done(P.Apply(db, cfg, step).jobs, i) <==> Done(db.jobs, i) || Publishes(db, step, i)
    ensures Publishes(db, step, i) ==> !Done(db.jobs, i)
  {
    hide P.Apply, Done, Links.Linked;
    if !P.Possible(db, step) {
      P.Impossible(db, cfg, step);
    } else if !TouchesJobs(step) || P.LeaseStep(step) {
      QuietCompletesNothing(db, cfg, step, i);
    } else if step.Complete? {
      P.UploadApplied(db, cfg, step);
      CompleteCompletesNothing(db, step.user, step.session, step.watermark, i);
    } else {
      EndCompletes(db, cfg, step, i);
    }
  }

  /** An attempt is only refunded where one was counted. */
  lemma RefundIsReal(db: Db, t: nat)
    requires Leased(db) && Fenced(db.jobs, db.claims, t) && db.claims[t].refundable
    ensures db.jobs[db.claims[t].image].attempts > 0
    ensures var i := db.claims[t].image;
            Release(db, t, false).jobs[i].attempts == db.jobs[i].attempts - 1 &&
            Release(db, t, true).jobs[i].attempts == db.jobs[i].attempts
  {
    assert LeaseOk(db, db.claims[t].image);
  }

  // ----- Who creates a publish target -----

  /** No publish target appears, and none changes its content. */
  ghost predicate NoNewTarget(disk: Disk, disk': Disk)
  {
    forall i :: PublishTarget(i) in disk' ==>
      PublishTarget(i) in disk && disk'[PublishTarget(i)] == disk[PublishTarget(i)]
  }

  lemma CompleteTargets(db: Db, user: nat, s: nat, watermark: bool)
    ensures NoNewTarget(db.disk, Upload.Complete(db, user, s, watermark).0.disk)
  {
    if Upload.CompleteGuard(db, user, s) == None {
      PromotionCreates(db.disk, s, db.sessions[s].parts, |PROMOTED|);
    }
  }

  lemma InterruptedTargets(db: Db, user: nat, s: nat, n: nat, listed: nat)
    requires n <= |PROMOTED|
    ensures NoNewTarget(db.disk, Upload.CompleteInterrupted(db, user, s, n, listed).disk)
  {
    if Upload.CompleteGuard(db, user, s) == None {
      PromotionCreates(db.disk, s, db.sessions[s].parts, n);
    }
  }

  lemma PutTargets(db: Db, user: nat, s: nat, k: Kind, body: Blob)
    ensures NoNewTarget(db.disk, Upload.PutPart(db, user, s, k, body).0.disk)
  {
  }

  lemma EndStepTargets(db: Db, cfg: Config, step: P.Step)
    requires P.EndStep(step) || P.LeaseStep(step)
    ensures P.Apply(db, cfg, step).disk == db.disk
  {
    hide P.Apply;
    if P.EndStep(step) {
      Links.EndStepRows(db, cfg, step);
    } else {
      Links.LeaseStepRows(db, cfg, step);
    }
  }

  lemma RestoreTargets(db: Db, s: nat, n: nat)
    requires n <= |PROMOTED|
    ensures NoNewTarget(db.disk, Upload.Restore(db, s, n).0.disk)
  {
    if s in db.sessions && forall k :: k in PROMOTED ==> k in db.sessions[s].parts {
      RestoreCreates(db.disk, s, db.sessions[s].parts, n);
    }
  }

  lemma CleanupTargets(db: Db, paths: seq<Path>)
    ensures NoNewTarget(db.disk, Deletion.CleanupFiles(db, paths).disk)
  {
    Deletion.Survivors(db.images, db.files, db.disk, paths);
  }

  lemma DeliverTargets(db: Db, e: nat, n: nat, acknowledged: bool)
    ensures NoNewTarget(db.disk, Deletion.Deliver(db, e, n, acknowledged).disk)
  {
    if e < |db.events| && n <= |db.events[e].paths| {
      Deletion.Survivors(db.images, db.files, db.disk, db.events[e].paths[..n]);
    }
  }

  lemma PromoteTargets(db: Db, t: nat)
    ensures !Fenced(db.jobs, db.claims, t) ==> PromoteTarget(db, t).0 == db
    ensures Fenced(db.jobs, db.claims, t) ==>
              forall i :: i != db.claims[t].image && PublishTarget(i) in PromoteTarget(db, t).0.disk ==>
                PublishTarget(i) in db.disk &&
                PromoteTarget(db, t).0.disk[PublishTarget(i)] == db.disk[PublishTarget(i)]
  {
  }

  lemma UploadTargets(db: Db, cfg: Config, step: P.Step)
    requires P.UploadStep(step) && P.Possible(db, step)
    ensures NoNewTarget(db.disk, P.Apply(db, cfg, step).disk)
  {
    hide P.Apply, Upload.Init, Upload.PutPart, Upload.Complete, Upload.Cancel, Upload.CancelSweepFailed,
         Upload.CancelSwept, NoNewTarget;
    P.UploadApplied(db, cfg, step);
    match step
    case PutPart(user, s, k, body) => PutTargets(db, user, s, k, body);
    case Complete(user, s, watermark) => CompleteTargets(db, user, s, watermark);
    case CancelSwept(s) => CancelTargets(db, s);
    case _ => SameTargets(db.disk);
  }

  lemma SameTargets(disk: Disk)
    ensures NoNewTarget(disk, disk)
  {
  }

  lemma CancelTargets(db: Db, s: nat)
    ensures NoNewTarget(db.disk, Upload.CancelSwept(db, s).disk)
  {
  }

  lemma FileTargets(db: Db, cfg: Config, step: P.Step)
    requires P.FileStep(step) && !step.PromoteTarget? && P.Possible(db, step)
    ensures NoNewTarget(db.disk, P.Apply(db, cfg, step).disk)
  {
    hide P.Apply, Upload.PutPart, Upload.CompleteInterrupted, Upload.Restore, Deletion.CleanupFiles, Deletion.Deliver;
    P.FileApplied(db, cfg, step);
    match step
    case PutPartRolledBack(user, s, k, body) => PutTargets(db, user, s, k, body);
    case CompleteInterrupted(user, s, n, listed) => InterruptedTargets(db, user, s, n, listed);
    case Restore(s, n) => RestoreTargets(db, s, n);
    case CleanupFiles(paths) => CleanupTargets(db, paths);
    case Deliver(e, n, acknowledged) => DeliverTargets(db, e, n, acknowledged);
    case _ =>
  }

  lemma SweepTargets(db: Db, cfg: Config, step: P.Step)
    requires P.SweepStep(step) && P.Possible(db, step)
    ensures NoNewTarget(db.disk, P.Apply(db, cfg, step).disk)
  {
    hide P.Apply;
    P.SweepApplied(db, cfg, step);
  }

  lemma OtherStepTargets(db: Db, cfg: Config, step: P.Step)
    requires !step.PromoteTarget?
    ensures NoNewTarget(db.disk, P.Apply(db, cfg, step).disk)
  {
    hide P.Apply, NoNewTarget;
    if !P.Possible(db, step) {
      P.Impossible(db, cfg, step);
      SameTargets(db.disk);
    } else if P.EndStep(step) || P.LeaseStep(step) {
      EndStepTargets(db, cfg, step);
      SameTargets(db.disk);
    } else if P.UploadStep(step) {
      UploadTargets(db, cfg, step);
    } else if P.FileStep(step) {
      FileTargets(db, cfg, step);
    } else {
      SweepTargets(db, cfg, step);
    }
  }

  /** Only the lease holder of a live job creates a publish target. */
  lemma TargetCreator(db: Db, cfg: Config, step: P.Step)
    ensures NoNewTarget(db.disk, P.Apply(db, cfg, step).disk) ||
            (step.PromoteTarget? && Fenced(db.jobs, db.claims, step.token) &&
             forall i :: i != db.claims[step.token].image && PublishTarget(i) in P.Apply(db, cfg, step).disk ==>
               PublishTarget(i) in db.disk &&
               P.Apply(db, cfg, step).disk[PublishTarget(i)] == db.disk[PublishTarget(i)])
  {
    hide P.Apply;
    if !step.PromoteTarget? {
      OtherStepTargets(db, cfg, step);
    } else if P.Possible(db, step) {
      P.FileApplied(db, cfg, step);
      PromoteTargets(db, step.token);
    } else {
      P.Impossible(db, cfg, step);
    }
  }

  /** A publish target never changes its content. */
  lemma TargetContent(db: Db, cfg: Config, step: P.Step, i: nat)
    requires PublishTarget(i) in db.disk && PublishTarget(i) in P.Apply(db, cfg, step).disk
    ensures P.Apply(db, cfg, step).disk[PublishTarget(i)] == db.disk[PublishTarget(i)]
  {
    hide P.Apply;
    if !step.PromoteTarget? {
      OtherStepTargets(db, cfg, step);
    } else {
      P.FileApplied(db, cfg, step);
      PromotedDisk(db, step.token);
      hide PromoteTarget;
    }
  }

  lemma {:induction false} PromotionCreates(disk: Disk, s: nat, parts: Parts, n: nat)
    requires n <= |PROMOTED| && forall k :: k in PROMOTED ==> k in parts
    ensures NoNewTarget(disk, Upload.PromoteFirst(disk, s, parts, n).disk)
  {
    if n > 0 {
      PromotionCreates(disk, s, parts, n - 1);
    }
  }

  lemma {:induction false} RestoreCreates(disk: Disk, s: nat, parts: Parts, n: nat)
    requires n <= |PROMOTED| && forall k :: k in PROMOTED ==> k in parts
    ensures NoNewTarget(disk, Upload.RestoreFirst(disk, s, parts, n).disk)
  {
    if n > 0 {
      RestoreCreates(disk, s, parts, n - 1);
    }
  }
}
