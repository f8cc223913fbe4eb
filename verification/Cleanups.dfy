/** What each transaction of the cleanup worker does to the rows, and what can stop a running session at all.
    Nothing here is said through the functions that define the transactions. */
module Cleanups {
  import opened Collections
  import opened Rows
  import Deletion
  import Jobs
  import Links
  import Publish
  import Requests
  import Sweeping
  import Upload
  import T = Theorems
  import P = Pipeline

  // ----- One cleanup -----

  /** A session that still accepts parts is due when it has expired, one that ended when its delay is over, and
      one that is being published never. */
  predicate Due(session: Session, seen: Time)
  {
    match session.status
    case Initiated => session.expiresAt <= seen
    case Uploading => session.expiresAt <= seen
    case Processing => false
    case _ => session.cleanupAfter == None || session.cleanupAfter.value <= seen
  }

  /** The claim takes a listed session exactly if its status is still the listed one, it has a staging path and is
      due; it then waits a minute before anybody tries again. */
  lemma SweepClaimLaw(quotas: map<nat, nat>, cfg: Config, steps: seq<P.Step>, n: nat, seen: Time)
    requires seen <= T.Reach(quotas, cfg, steps).clock
    ensures var db := T.Reach(quotas, cfg, steps);
            var db' := P.Apply(db, cfg, P.ClaimSweep(n, seen));
            (n in db.sweeps ==> db.sweeps[n].session in db.sessions) &&
            if n in db.sweeps && db.sweeps[n].stage == Listed &&
               db.sessions[db.sweeps[n].session].status == db.sweeps[n].snapshot.status &&
               db.sessions[db.sweeps[n].session].staged && Due(db.sessions[db.sweeps[n].session], seen)
            then
              var s := db.sweeps[n].session;
              db' == db.(sessions := db.sessions[s := db.sessions[s].(status := CleanupPending,
                                                                      cleanupAfter := Some(seen + 60))],
                         sweeps := db.sweeps[n := db.sweeps[n].(stage := Claimed)])
            else db' == db
  {
    hide T.Reach, P.Apply;
    T.Reachable(quotas, cfg, steps);
    var db := T.Reach(quotas, cfg, steps);
    P.EndApplied(db, cfg, P.ClaimSweep(n, seen));
    assert n in db.sweeps ==> Links.SweepOk(db, n);
  }

  /** Listing remembers the row as it is. */
  lemma ListLaw(quotas: map<nat, nat>, cfg: Config, steps: seq<P.Step>, s: nat)
    ensures var db := T.Reach(quotas, cfg, steps);
            P.Apply(db, cfg, P.List(s)) ==
              if s in db.sessions
              then db.(sweeps := db.sweeps[db.nextSweep := Sweep(s, db.sessions[s], Listed)],
                       nextSweep := db.nextSweep + 1)
              else db
  {
    hide T.Reach, P.Apply;
    P.SweepApplied(T.Reach(quotas, cfg, steps), cfg, P.List(s));
  }

  /** The files of the session's staging are gone, and no other file is touched. */
  ghost predicate Emptied(disk: Disk, disk': Disk, s: nat)
  {
    forall p :: (p in disk' <==> p in disk && !(p.Staged? && p.session == s)) && (p in disk' ==> disk'[p] == disk[p])
  }

  /** Removing empties the staging of the session that was decided. */
  lemma RemoveLaw(quotas: map<nat, nat>, cfg: Config, steps: seq<P.Step>, n: nat)
    ensures var db := T.Reach(quotas, cfg, steps);
            var db' := P.Apply(db, cfg, P.RemoveFiles(n));
            if n in db.sweeps && db.sweeps[n].stage.Decided? then
              db' == db.(disk := db'.disk,
                         sweeps := db.sweeps[n := db.sweeps[n].(stage := Removed(db.sweeps[n].stage.final))]) &&
              Emptied(db.disk, db'.disk, db.sweeps[n].session)
            else db' == db
  {
    hide T.Reach, P.Apply, Emptied, RemoveStaging;
    var db := T.Reach(quotas, cfg, steps);
    P.SweepApplied(db, cfg, P.RemoveFiles(n));
    if n in db.sweeps {
      StagingEmptied(db.disk, db.sweeps[n].session);
    }
  }

  lemma StagingEmptied(disk: Disk, s: nat)
    ensures Emptied(disk, RemoveStaging(disk, s), s)
  {
  }

  /** The status that the cleanup decides: the one that the session ended with, read off its row, where an expired
      session ends cancelled. */
  lemma DecideLaw(quotas: map<nat, nat>, cfg: Config, steps: seq<P.Step>, n: nat)
    ensures var db := T.Reach(quotas, cfg, steps);
            var db' := P.Apply(db, cfg, P.Decide(n));
            if n in db.sweeps && db.sweeps[n].stage == Claimed then
              var row := db.sweeps[n].snapshot;
              n in db'.sweeps && db' == db.(sweeps := db.sweeps[n := db'.sweeps[n]]) &&
              db'.sweeps[n] == db.sweeps[n].(stage := db'.sweeps[n].stage) && db'.sweeps[n].stage.Decided? &&
              match row.status
              case Completed => db'.sweeps[n].stage.final == Completed
              case Failed => db'.sweeps[n].stage.final == Failed
              case CleanupPending =>
                db'.sweeps[n].stage.final ==
                  if row.completedAt.Some? || (row.image.Some? && row.image.value in db.images &&
                                               db.images[row.image.value].status == ImageCompleted) then Completed
                  else if row.failedAt.Some? || row.errorCode then Failed
                  else Cancelled
              case _ => db'.sweeps[n].stage.final == Cancelled
            else db' == db
  {
    hide T.Reach, P.Apply;
    var db := T.Reach(quotas, cfg, steps);
    P.SweepApplied(db, cfg, P.Decide(n));
  }

  /** The last step writes the decided status over a row that is still claimed, and forgets the session. */
  lemma FinishLaw(quotas: map<nat, nat>, cfg: Config, steps: seq<P.Step>, n: nat, at: Time)
    ensures var db := T.Reach(quotas, cfg, steps);
            var db' := P.Apply(db, cfg, P.Finish(n, at));
            if n in db.sweeps && db.sweeps[n].stage.Removed? then
              var s, last := db.sweeps[n].session, db.sweeps[n].stage.last;
              s in db.sessions && s in db'.sessions &&
              db' == db.(sweeps := db.sweeps - {n}, sessions := db.sessions[s := db'.sessions[s]]) &&
              if db.sessions[s].status == CleanupPending then FinishedRow(db.sessions[s], db'.sessions[s], last, at)
              else db'.sessions[s] == db.sessions[s]
            else db' == db
  {
    hide T.Reach, P.Apply, Sweeping.Finish, FinishedRow;
    T.Reachable(quotas, cfg, steps);
    var db := T.Reach(quotas, cfg, steps);
    P.EndApplied(db, cfg, P.Finish(n, at));
    assert n in db.sweeps ==> Links.SweepOk(db, n);
    hide Links.Linked, T.Inv;
    FinishRows(db, n, at);
  }

  lemma FinishRows(db: Db, n: nat, at: Time)
    requires n in db.sweeps ==> db.sweeps[n].session in db.sessions
    ensures var db' := Sweeping.Finish(db, n, at).0;
            if n in db.sweeps && db.sweeps[n].stage.Removed? then
              var s, last := db.sweeps[n].session, db.sweeps[n].stage.last;
              s in db'.sessions &&
              db' == db.(sweeps := db.sweeps - {n}, sessions := db.sessions[s := db'.sessions[s]]) &&
              if db.sessions[s].status == CleanupPending then FinishedRow(db.sessions[s], db'.sessions[s], last, at)
              else db'.sessions[s] == db.sessions[s]
            else db' == db
  {
    hide Sweeping.FinishedSession, FinishedRow;
    if n in db.sweeps && db.sweeps[n].stage.Removed? {
      RowFinishes(db.sessions[db.sweeps[n].session], db.sweeps[n].stage.last, at);
    }
  }

  lemma RowFinishes(session: Session, last: SessionStatus, at: Time)
    ensures FinishedRow(session, Sweeping.FinishedSession(session, last, at), last, at)
  {
  }

  ghost predicate FinishedRow(a: Session, b: Session, last: SessionStatus, at: Time)
  {
    && b == a.(status := last, staged := false, cleanupAfter := None, parts := b.parts,
               completedAt := if last == Completed then Some(at) else a.completedAt,
               failedAt := if last == Failed then Some(at) else a.failedAt)
    && b.parts.Keys == a.parts.Keys
    && forall k :: k in a.parts ==> b.parts[k] == Part(Cleaned, a.parts[k].blob)
  }

  // ----- What stops a session -----

  predicate Runs(db: Db, s: nat)
  {
    s in db.sessions &&
    (db.sessions[s].status == Initiated || db.sessions[s].status == Uploading || db.sessions[s].status == Processing)
  }

  /** Only its owner's cancellation, a cleanup once it has expired, the publication of its image, and the last
      failure of its job. */
  predicate Stops(db: Db, step: P.Step, s: nat)
    requires s in db.sessions
  {
    match step
    case Cancel(user, r) => r == s && db.sessions[s].owner == user && db.sessions[s].status != Processing
    case ClaimSweep(n, seen) =>
      seen <= db.clock && n in db.sweeps && db.sweeps[n].session == s && db.sweeps[n].stage == Listed &&
      db.sweeps[n].snapshot.status == db.sessions[s].status && db.sessions[s].staged &&
      db.sessions[s].status != Processing && db.sessions[s].expiresAt <= seen
    case Commit(t) =>
      P.Possible(db, step) && Jobs.Holder(db, t) && db.jobs[db.claims[t].image].session == s &&
      Publish.Commit(db, t).1 != Publish.OverQuota
    case Fail(t, overQuota) =>
      Jobs.Holder(db, t) && db.jobs[db.claims[t].image].session == s && Jobs.GivesUp(db, t, overQuota)
    case _ => false
  }

  ghost predicate StopsAsSaid(db: Db, db': Db, step: P.Step, s: nat)
    requires s in db.sessions
  {
    Runs(db', s) <==> !Stops(db, step, s)
  }

  /** In every reachable state, a running session is running after a step exactly unless one of these stops it. */
  lemma StopsExactly(quotas: map<nat, nat>, cfg: Config, steps: seq<P.Step>, step: P.Step, s: nat)
    requires Runs(T.Reach(quotas, cfg, steps), s)
    ensures Runs(P.Apply(T.Reach(quotas, cfg, steps), cfg, step), s) <==> !Stops(T.Reach(quotas, cfg, steps), step, s)
  {
    var db := T.Reach(quotas, cfg, steps);
    assert StopsAsSaid(db, P.Apply(db, cfg, step), step, s) by {
      hide T.Reach, P.Apply, Runs, Stops, StopsAsSaid;
      assert s in db.sessions by { RunsIs(db, s); }
      if !P.Possible(db, step) {
        P.Impossible(db, cfg, step);
        ImpossibleStops(db, step, s);
      } else if P.UploadStep(step) {
        RequestStops(quotas, cfg, steps, step, s);
      } else if P.EndStep(step) {
        EndStops(quotas, cfg, steps, step, s);
      } else {
        QuietStops(db, cfg, step, s);
      }
    }
  }

  lemma RunsIs(db: Db, s: nat)
    requires Runs(db, s)
    ensures s in db.sessions
  {
  }

  lemma ImpossibleStops(db: Db, step: P.Step, s: nat)
    requires Runs(db, s) && !P.Possible(db, step)
    ensures StopsAsSaid(db, db, step, s)
  {
  }

  lemma SameSessionRuns(db: Db, db': Db, step: P.Step, s: nat)
    requires Runs(db, s) && db'.sessions == db.sessions
    requires !step.Cancel? && !step.ClaimSweep? && !step.Commit? && !step.Fail?
    ensures StopsAsSaid(db, db', step, s)
  {
  }

  lemma QuietStops(db: Db, cfg: Config, step: P.Step, s: nat)
    requires Runs(db, s) && !P.UploadStep(step) && !P.EndStep(step)
    ensures s in db.sessions && StopsAsSaid(db, P.Apply(db, cfg, step), step, s)
  {
    hide P.Apply, StopsAsSaid;
    if P.FileStep(step) {
      Links.FileStepRows(db, cfg, step);
    } else if P.LeaseStep(step) {
      Links.LeaseStepRows(db, cfg, step);
    } else {
      Links.SweepStepRows(db, cfg, step);
    }
    SameSessionRuns(db, P.Apply(db, cfg, step), step, s);
  }

  lemma RequestStops(quotas: map<nat, nat>, cfg: Config, steps: seq<P.Step>, step: P.Step, s: nat)
    requires Runs(T.Reach(quotas, cfg, steps), s) && P.UploadStep(step) && P.Possible(T.Reach(quotas, cfg, steps), step)
    ensures StopsAsSaid(T.Reach(quotas, cfg, steps), P.Apply(T.Reach(quotas, cfg, steps), cfg, step), step, s)
  {
    hide T.Reach, P.Apply, StopsAsSaid;
    match step {
      case Init(user, key, req, seen) => InitStops(quotas, cfg, steps, step, s);
      case PutPart(user, r, k, body) => PutStops(quotas, cfg, steps, step, s);
      case Complete(user, r, watermark) => CompleteStops(quotas, cfg, steps, step, s);
      case Cancel(user, r) => CancelStops(quotas, cfg, steps, step, s);
      case CancelSwept(_) | CancelSweepFailed(_) =>
        T.Reachable(quotas, cfg, steps);
        CancelEndStops(T.Reach(quotas, cfg, steps), cfg, step, s);
    }
  }

  lemma InitStops(quotas: map<nat, nat>, cfg: Config, steps: seq<P.Step>, step: P.Step, s: nat)
    requires Runs(T.Reach(quotas, cfg, steps), s) && step.Init? && P.Possible(T.Reach(quotas, cfg, steps), step)
    ensures StopsAsSaid(T.Reach(quotas, cfg, steps), P.Apply(T.Reach(quotas, cfg, steps), cfg, step), step, s)
  {
    hide T.Reach, P.Apply, Requests.GoodManifest, Requests.Admitted, Requests.NewRow;
    Requests.InitLaw(quotas, cfg, steps, step.user, step.key, step.req, step.seen);
  }

  lemma PutStops(quotas: map<nat, nat>, cfg: Config, steps: seq<P.Step>, step: P.Step, s: nat)
    requires Runs(T.Reach(quotas, cfg, steps), s) && step.PutPart?
    ensures StopsAsSaid(T.Reach(quotas, cfg, steps), P.Apply(T.Reach(quotas, cfg, steps), cfg, step), step, s)
  {
    hide T.Reach, P.Apply;
    Requests.PutLaw(quotas, cfg, steps, step.user, step.session, step.kind, step.body);
  }

  lemma CompleteStops(quotas: map<nat, nat>, cfg: Config, steps: seq<P.Step>, step: P.Step, s: nat)
    requires Runs(T.Reach(quotas, cfg, steps), s) && step.Complete?
    ensures StopsAsSaid(T.Reach(quotas, cfg, steps), P.Apply(T.Reach(quotas, cfg, steps), cfg, step), step, s)
  {
    hide T.Reach, P.Apply, Requests.AllMovable, Requests.Moved, Requests.AllArrived, Requests.Open;
    Requests.CompleteLaw(quotas, cfg, steps, step.user, step.session, step.watermark);
  }

  lemma CancelStops(quotas: map<nat, nat>, cfg: Config, steps: seq<P.Step>, step: P.Step, s: nat)
    requires Runs(T.Reach(quotas, cfg, steps), s) && step.Cancel?
    ensures StopsAsSaid(T.Reach(quotas, cfg, steps), P.Apply(T.Reach(quotas, cfg, steps), cfg, step), step, s)
  {
    hide T.Reach, P.Apply;
    Requests.CancelLaw(quotas, cfg, steps, step.user, step.session);
  }

  lemma CancelEndStops(db: Db, cfg: Config, step: P.Step, s: nat)
    requires Links.Linked(db) && Runs(db, s) && (step.CancelSwept? || step.CancelSweepFailed?)
    ensures StopsAsSaid(db, P.Apply(db, cfg, step), step, s)
  {
    hide P.Apply;
    P.UploadApplied(db, cfg, step);
    assert step.session in db.cancels ==> Links.CancelOk(db, step.session);
    hide Links.Linked;
  }

  lemma EndStops(quotas: map<nat, nat>, cfg: Config, steps: seq<P.Step>, step: P.Step, s: nat)
    requires Runs(T.Reach(quotas, cfg, steps), s) && P.EndStep(step) && P.Possible(T.Reach(quotas, cfg, steps), step)
    ensures StopsAsSaid(T.Reach(quotas, cfg, steps), P.Apply(T.Reach(quotas, cfg, steps), cfg, step), step, s)
  {
    hide T.Reach, P.Apply, StopsAsSaid;
    match step {
      case Commit(t) => CommitStops(quotas, cfg, steps, t, s);
      case Fail(t, overQuota) => FailStops(quotas, cfg, steps, t, overQuota, s);
      case DeleteImage(user, isAdmin, i) => DeleteStops(T.Reach(quotas, cfg, steps), cfg, user, isAdmin, i, s);
      case ClaimSweep(n, seen) => ClaimStops(quotas, cfg, steps, n, seen, s);
      case Finish(n, at) => FinishStops(quotas, cfg, steps, n, at, s);
    }
  }

  lemma CommitStops(quotas: map<nat, nat>, cfg: Config, steps: seq<P.Step>, t: nat, s: nat)
    requires var db := T.Reach(quotas, cfg, steps); Runs(db, s) && P.Possible(db, P.Commit(t))
    ensures var db := T.Reach(quotas, cfg, steps); StopsAsSaid(db, P.Apply(db, cfg, P.Commit(t)), P.Commit(t), s)
  {
    hide T.Reach, P.Apply, Publish.Commit;
    Jobs.CommitLaw(quotas, cfg, steps, t);
  }

  lemma ClaimStops(quotas: map<nat, nat>, cfg: Config, steps: seq<P.Step>, n: nat, seen: Time, s: nat)
    requires var db := T.Reach(quotas, cfg, steps); Runs(db, s) && seen <= db.clock
    ensures var db := T.Reach(quotas, cfg, steps);
            StopsAsSaid(db, P.Apply(db, cfg, P.ClaimSweep(n, seen)), P.ClaimSweep(n, seen), s)
  {
    hide T.Reach, P.Apply;
    SweepClaimLaw(quotas, cfg, steps, n, seen);
  }

  lemma FinishStops(quotas: map<nat, nat>, cfg: Config, steps: seq<P.Step>, n: nat, at: Time, s: nat)
    requires Runs(T.Reach(quotas, cfg, steps), s)
    ensures var db := T.Reach(quotas, cfg, steps);
            StopsAsSaid(db, P.Apply(db, cfg, P.Finish(n, at)), P.Finish(n, at), s)
  {
    hide T.Reach, P.Apply, FinishedRow;
    FinishLaw(quotas, cfg, steps, n, at);
  }

  lemma FailStops(quotas: map<nat, nat>, cfg: Config, steps: seq<P.Step>, t: nat, overQuota: bool, s: nat)
    requires Runs(T.Reach(quotas, cfg, steps), s)
    ensures var db := T.Reach(quotas, cfg, steps);
            StopsAsSaid(db, P.Apply(db, cfg, P.Fail(t, overQuota)), P.Fail(t, overQuota), s)
  {
    hide T.Reach, P.Apply, Publish.Fail, Jobs.Asked, Jobs.Dropped;
    var db := T.Reach(quotas, cfg, steps);
    if !Jobs.Holder(db, t) {
      T.Reachable(quotas, cfg, steps);
      Jobs.HolderIsFenced(db, t);
      P.EndApplied(db, cfg, P.Fail(t, overQuota));
      StaleFails(db, t, overQuota);
    } else if Jobs.GivesUp(db, t, overQuota) {
      Jobs.BurialLaw(quotas, cfg, steps, t, overQuota);
    } else {
      Jobs.RetryLaw(quotas, cfg, steps, t, overQuota);
    }
  }

  lemma StaleFails(db: Db, t: nat, overQuota: bool)
    requires !Publish.Fenced(db.jobs, db.claims, t)
    ensures Publish.Fail(db, t, overQuota).0 == db
  {
  }

  lemma DeleteStops(db: Db, cfg: Config, user: nat, isAdmin: bool, i: nat, s: nat)
    requires Runs(db, s)
    ensures StopsAsSaid(db, P.Apply(db, cfg, P.DeleteImage(user, isAdmin, i)), P.DeleteImage(user, isAdmin, i), s)
  {
    hide P.Apply, DropReference, UnlinkJob, ActiveBytes, VariantPaths, ReferencesBelow;
    P.EndApplied(db, cfg, P.DeleteImage(user, isAdmin, i));
  }
}
