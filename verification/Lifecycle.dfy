/** How upload sessions end: cleanup and cancellation exclude processing, only a restore refills the
    staging of a session that stopped, and interrupted cleanups end in the original terminal status. */
module Lifecycle {
  import opened Collections
  import opened Rows
  import opened Upload
  import opened Publish
  import opened Accounting
  import Deletion
  import Links
  import Sweeping
  import P = Pipeline

  // ----- The terminal status a session first reached -----

  type Endings = map<nat, SessionStatus>

  /** A publish completes the session, a dead job fails it, cancellation and expiry cancel it. */
  function EndingBy(step: P.Step): SessionStatus
  {
    match step
    case Commit(_) => Completed
    case Fail(_, _) => Failed
    case _ => Cancelled
  }

  /** The history of endings: recorded once, by the step that stops the session. */
  function NextEndings(endings: Endings, sessions: map<nat, Session>, step: P.Step): Endings
  {
    map s | s in sessions && Stopped(sessions[s]) :: if s in endings then endings[s] else EndingBy(step)
  }

  /** What a row that stopped records of its ending.  A published session may end cancelled, when its
      image was deleted before cleanup got to it; that row is finished. */
  ghost predicate RowOk(ending: SessionStatus, session: Session)
  {
    match ending
    case Failed =>
      (session.status == Failed || session.status == CleanupPending) &&
      session.failedAt.Some? && session.completedAt == None && session.image == None
    case Cancelled =>
      (session.status == Cancelled || session.status == CleanupPending) &&
      session.failedAt == None && !session.errorCode && session.completedAt == None && session.image == None
    case Completed =>
      session.failedAt == None && !session.errorCode &&
      (session.status == Completed || session.status == CleanupPending ||
       (session.status == Cancelled && session.image == None && !session.staged)) &&
      (session.status == Completed ==> session.completedAt.Some?)
    case _ => false
  }

  ghost predicate RunningOk(session: Session)
  {
    session.failedAt == None && !session.errorCode && session.completedAt == None &&
    (session.status != Processing ==> session.image == None)
  }

  ghost predicate SessionEnds(db: Db, endings: Endings, s: nat)
    requires s in db.sessions
  {
    if Stopped(db.sessions[s]) then s in endings && RowOk(endings[s], db.sessions[s])
    else s !in endings && RunningOk(db.sessions[s])
  }

  ghost predicate Decided(session: Session, ending: SessionStatus, final: SessionStatus)
  {
    final == ending || (ending == Completed && final == Cancelled && session.image == None)
  }

  ghost predicate SweepEnds(db: Db, endings: Endings, n: nat)
    requires n in db.sweeps
  {
    var sweep := db.sweeps[n];
    sweep.session in db.sessions &&
    var session := db.sessions[sweep.session];
    && (Stopped(sweep.snapshot) ==>
          Stopped(session) && sweep.session in endings && RowOk(endings[sweep.session], sweep.snapshot) &&
          (session.image.Some? ==> sweep.snapshot.image == session.image))
    && (sweep.stage != Listed && !Stopped(sweep.snapshot) ==>
          sweep.snapshot.status != Processing && sweep.session in endings && endings[sweep.session] == Cancelled)
    && (sweep.stage != Listed && sweep.snapshot.status == Cancelled ==>
          sweep.session in endings && endings[sweep.session] != Completed)
    && (sweep.stage.Decided? ==>
          sweep.session in endings && Decided(session, endings[sweep.session], sweep.stage.final))
    && (sweep.stage.Removed? ==> sweep.session in endings && Decided(session, endings[sweep.session], sweep.stage.last))
  }

  ghost predicate Ends(db: Db, endings: Endings)
  {
    && (forall s {:trigger SessionEnds(db, endings, s)} :: s in db.sessions ==> SessionEnds(db, endings, s))
    && (forall n {:trigger SweepEnds(db, endings, n)} :: n in db.sweeps ==> SweepEnds(db, endings, n))
    && endings.Keys <= db.sessions.Keys
  }

  /** A step of the sessions alone: it keeps the endings, forgets at most the image, and leaves
      every row as its ending asks. */
  lemma EndsStep(db: Db, db': Db, endings: Endings, endings': Endings)
    requires Ends(db, endings) && Lasting(db, db')
    requires db'.sweeps == db.sweeps
    requires forall s :: s in endings ==> s in endings' && endings'[s] == endings[s]
    requires endings'.Keys <= db'.sessions.Keys
    requires forall s :: s in db'.sessions ==>
               (s in db.sessions && db'.sessions[s] == db.sessions[s] && (s in endings <==> s in endings')) ||
                                               SessionEnds(db', endings', s)
    requires forall s :: s in db.sessions && s in db'.sessions && Stopped(db.sessions[s]) ==>
               db'.sessions[s].image.Some? ==> db'.sessions[s].image == db.sessions[s].image
    ensures Ends(db', endings')
  {
    forall s | s in db'.sessions
      ensures SessionEnds(db', endings', s)
    {
      assert s in db.sessions ==> SessionEnds(db, endings, s);
    }
    forall n | n in db'.sweeps
      ensures SweepEnds(db', endings', n)
    {
      assert SweepEnds(db, endings, n);
      assert SessionNext(db.sessions, db'.sessions, db.clock, db.sweeps[n].session);
    }
  }

  /** A step that changes at most one sweep and no session but its own. */
  lemma SweepEndsStep(db: Db, db': Db, endings: Endings, n: nat)
    requires Ends(db, endings) && db'.sessions == db.sessions
    requires n in db'.sweeps && db'.sweeps == db.sweeps[n := db'.sweeps[n]] && SweepEnds(db', endings, n)
    ensures Ends(db', endings)
  {
    forall s | s in db'.sessions ensures SessionEnds(db', endings, s) { assert SessionEnds(db, endings, s); }
    forall m | m in db'.sweeps ensures SweepEnds(db', endings, m) { assert m != n ==> SweepEnds(db, endings, m); }
  }

  /** The endings only change at the sessions that stop. */
  lemma EndingsKept(db: Db, endings: Endings, sessions: map<nat, Session>, step: P.Step)
    requires Ends(db, endings)
    requires forall s :: s in db.sessions ==> s in sessions && (Stopped(db.sessions[s]) ==> Stopped(sessions[s]))
    ensures var endings' := NextEndings(endings, sessions, step);
            (forall s :: s in endings ==> s in endings' && endings'[s] == endings[s]) &&
            (forall s :: s in db.sessions && sessions[s] == db.sessions[s] ==> (s in endings <==> s in endings')) &&
            (forall s :: s in endings' <==> s in sessions && Stopped(sessions[s]))
  {
    forall s | s in endings
      ensures s in sessions && Stopped(sessions[s])
    {
      assert SessionEnds(db, endings, s);
    }
    forall s | s in db.sessions && sessions[s] == db.sessions[s]
      ensures s in endings <==> Stopped(sessions[s])
    {
      assert SessionEnds(db, endings, s);
    }
  }

  lemma SameSessions(db: Db, db': Db, endings: Endings, step: P.Step)
    requires Ends(db, endings) && db'.sessions == db.sessions && db'.sweeps == db.sweeps
    ensures Ends(db', NextEndings(endings, db'.sessions, step)) && NextEndings(endings, db'.sessions, step) == endings
  {
    EndingsKept(db, endings, db'.sessions, step);
    forall s | s in db'.sessions ensures SessionEnds(db', endings, s) { assert SessionEnds(db, endings, s); }
    forall n | n in db'.sweeps ensures SweepEnds(db', endings, n) { assert SweepEnds(db, endings, n); }
  }

  /** Only session s changes. */
  lemma EndsAt(db: Db, db': Db, endings: Endings, step: P.Step, s: nat)
    requires Ends(db, endings) && Lasting(db, db') && db'.sweeps == db.sweeps && OnlyAt(db.sessions, db'.sessions, s)
    requires s in db'.sessions ==> SessionEnds(db', NextEndings(endings, db'.sessions, step), s)
    requires s in db.sessions && s in db'.sessions && Stopped(db.sessions[s]) && db'.sessions[s].image.Some? ==>
               db'.sessions[s].image == db.sessions[s].image
    ensures Ends(db', NextEndings(endings, db'.sessions, step))
  {
    forall r | r in db.sessions
      ensures r in db'.sessions && (Stopped(db.sessions[r]) ==> Stopped(db'.sessions[r]))
    {
      assert SessionNext(db.sessions, db'.sessions, db.clock, r);
    }
    EndingsKept(db, endings, db'.sessions, step);
    EndsStep(db, db', endings, NextEndings(endings, db'.sessions, step));
  }

  lemma InitEnds(db: Db, endings: Endings, cfg: Config, step: P.Step)
    requires Links.Linked(db) && Ends(db, endings) && step.Init? && P.Possible(db, step)
    ensures var db' := P.Apply(db, cfg, step); Ends(db', NextEndings(endings, db'.sessions, step))
  {
    hide P.Apply;
    P.UploadApplied(db, cfg, step);
    var r := Init(db, cfg, step.user, step.key, step.req, step.seen);
    if r.1.Created? {
      InitLasts(db, cfg, step.user, step.key, step.req, step.seen);
      Links.FreshSession(db);
      NewSessionRuns(db, cfg, step.user, step.key, step.req, step.seen);
      EndsAt(db, r.0, endings, step, db.nextSession);
    } else {
      SameSessions(db, r.0, endings, step);
    }
  }

  lemma NewSessionRuns(db: Db, cfg: Config, user: nat, key: string, req: seq<PartManifest>, seen: Time)
    requires Init(db, cfg, user, key, req, seen).1.Created?
    ensures var db' := Init(db, cfg, user, key, req, seen).0;
            db.nextSession in db'.sessions &&
            db'.sessions == db.sessions[db.nextSession := db'.sessions[db.nextSession]] &&
            !Stopped(db'.sessions[db.nextSession]) && RunningOk(db'.sessions[db.nextSession])
  {
  }

  lemma PutEnds(db: Db, endings: Endings, cfg: Config, step: P.Step)
    requires Ends(db, endings) && step.PutPart?
    ensures var db' := P.Apply(db, cfg, step); Ends(db', NextEndings(endings, db'.sessions, step))
  {
    hide P.Apply;
    P.UploadApplied(db, cfg, step);
    var db' := PutPart(db, step.user, step.session, step.kind, step.body).0;
    PutPartLasts(db, step.user, step.session, step.kind, step.body);
    if db' == db {
      SameSessions(db, db', endings, step);
    } else {
      assert SessionEnds(db, endings, step.session);
      EndsAt(db, db', endings, step, step.session);
    }
  }

  lemma CompleteEnds(db: Db, endings: Endings, cfg: Config, step: P.Step)
    requires Links.Linked(db) && Ends(db, endings) && step.Complete?
    ensures var db' := P.Apply(db, cfg, step); Ends(db', NextEndings(endings, db'.sessions, step))
  {
    hide P.Apply;
    P.UploadApplied(db, cfg, step);
    var r := Complete(db, step.user, step.session, step.watermark);
    if r.1.Entered? {
      assert SessionEnds(db, endings, step.session);
      CompleteLasts(db, step.user, step.session, step.watermark);
      EntersOnly(db, step.user, step.session, step.watermark);
      EndsAt(db, r.0, endings, step, step.session);
    } else {
      SameSessions(db, r.0, endings, step);
    }
  }

  lemma EntersOnly(db: Db, user: nat, s: nat, watermark: bool)
    requires Complete(db, user, s, watermark).1.Entered?
    ensures var db' := Complete(db, user, s, watermark).0;
            s in db.sessions && s in db'.sessions && db'.sessions == db.sessions[s := db'.sessions[s]] &&
            db'.sweeps == db.sweeps &&
            Rank(db.sessions[s]) < 2 && db'.sessions[s].status == Processing &&
            db'.sessions[s].failedAt == db.sessions[s].failedAt &&
            db'.sessions[s].errorCode == db.sessions[s].errorCode &&
            db'.sessions[s].completedAt == db.sessions[s].completedAt
  {
  }

  lemma CancelEnds(db: Db, endings: Endings, cfg: Config, step: P.Step)
    requires Ends(db, endings) && step.Cancel?
    ensures var db' := P.Apply(db, cfg, step); Ends(db', NextEndings(endings, db'.sessions, step))
  {
    hide P.Apply;
    P.UploadApplied(db, cfg, step);
    var db' := Cancel(db, step.user, step.session).0;
    CancelLasts(db, step.user, step.session);
    if db' == db {
      SameSessions(db, db', endings, step);
    } else {
      assert SessionEnds(db, endings, step.session);
      EndsAt(db, db', endings, step, step.session);
    }
  }

  lemma CancelSweepEnds(db: Db, endings: Endings, cfg: Config, step: P.Step)
    requires Links.Linked(db) && Ends(db, endings) && step.CancelSweepFailed?
    ensures var db' := P.Apply(db, cfg, step); Ends(db', NextEndings(endings, db'.sessions, step))
  {
    hide P.Apply;
    P.UploadApplied(db, cfg, step);
    var db' := CancelSweepFailed(db, step.session);
    CancelSweepLasts(db, step.session);
    if db' == db {
      SameSessions(db, db', endings, step);
    } else {
      assert SessionEnds(db, endings, step.session) && Links.CancelOk(db, step.session);
      EndsAt(db, db', endings, step, step.session);
    }
  }

  lemma PublishesOnly(db: Db, t: nat)
    requires Links.Linked(db) && t in db.claims && db.claims[t].inspected.Some? && db.claims[t].stagingClean.Some?
    requires Commit(db, t).1 == Published
    ensures var db' := Commit(db, t).0;
            var i := db.claims[t].image;
            i in db.jobs && db.jobs[i].session in db.sessions && db'.sweeps == db.sweeps &&
            var s := db.jobs[i].session;
            db.sessions[s].status == Processing &&
            db'.sessions == db.sessions[s := PublishedSession(db.sessions[s], db.claims[t].stagingClean.value,
                                                              db.claims[t].seen)]
  {
    assert Links.JobOk(db, db.claims[t].image);
  }

  lemma PublishedRowOk(session: Session, clean: bool, at: Time)
    requires RunningOk(session)
    ensures RowOk(Completed, PublishedSession(session, clean, at))
  {
  }

  lemma CommitEnds(db: Db, endings: Endings, cfg: Config, step: P.Step)
    requires Links.Linked(db) && Ends(db, endings) && step.Commit? && P.Possible(db, step)
    ensures var db' := P.Apply(db, cfg, step); Ends(db', NextEndings(endings, db'.sessions, step))
  {
    hide P.Apply, Commit;
    P.EndApplied(db, cfg, step);
    var t := step.token;
    var r := Commit(db, t);
    CommitImages(db, t);
    if r.1 == Published {
      PublishesOnly(db, t);
      var s := db.jobs[db.claims[t].image].session;
      assert SessionEnds(db, endings, s);
      PublishedRowOk(db.sessions[s], db.claims[t].stagingClean.value, db.claims[t].seen);
      CommitLasts(db, t);
      EndsAt(db, r.0, endings, step, s);
    } else {
      SameSessions(db, r.0, endings, step);
    }
  }

  lemma BuriesOnly(db: Db, i: nat)
    requires Links.Linked(db) && LiveJob(db.jobs, i)
    ensures var db' := Bury(db, i);
            var s := db.jobs[i].session;
            s in db.sessions && s in db'.sessions && db.sessions[s].status == Processing && db'.sweeps == db.sweeps &&
            OnlyAt(db.sessions, db'.sessions, s) &&
            db'.sessions[s].status == Failed && db'.sessions[s].failedAt.Some? && db'.sessions[s].image == None &&
            db'.sessions[s].completedAt == db.sessions[s].completedAt
  {
    assert Links.JobOk(db, i);
    Links.JobIsolated(db, i);
  }

  lemma FailEnds(db: Db, endings: Endings, cfg: Config, step: P.Step)
    requires Links.Linked(db) && Ends(db, endings) && step.Fail?
    ensures var db' := P.Apply(db, cfg, step); Ends(db', NextEndings(endings, db'.sessions, step))
  {
    hide P.Apply;
    P.EndApplied(db, cfg, step);
    var db' := Fail(db, step.token, step.overQuota).0;
    if Fenced(db.jobs, db.claims, step.token) && db' == Bury(db, db.claims[step.token].image) {
      BuryEnds(db, endings, step, db.claims[step.token].image);
    } else {
      SameSessions(db, db', endings, step);
    }
  }

  lemma BuryEnds(db: Db, endings: Endings, step: P.Step, i: nat)
    requires Links.Linked(db) && Ends(db, endings) && step.Fail? && LiveJob(db.jobs, i)
    ensures Ends(Bury(db, i), NextEndings(endings, Bury(db, i).sessions, step))
  {
    hide Bury;
    BuriesOnly(db, i);
    BuryLasts(db, i);
    assert SessionEnds(db, endings, db.jobs[i].session);
    EndsAt(db, Bury(db, i), endings, step, db.jobs[i].session);
  }

  lemma DeletesOnly(db: Db, user: nat, isAdmin: bool, i: nat)
    requires Links.Linked(db) && Deletion.DeleteImage(db, user, isAdmin, i).1.Deleted?
    ensures var db' := Deletion.DeleteImage(db, user, isAdmin, i).0;
            i in db.jobs &&
            var s := db.jobs[i].session;
            s in db.sessions && s in db'.sessions && Stopped(db.sessions[s]) && db'.sweeps == db.sweeps &&
            OnlyAt(db.sessions, db'.sessions, s) &&
            (db'.sessions[s] == db.sessions[s] || db'.sessions[s] == db.sessions[s].(image := None))
  {
    assert Links.ImageOk(db, i) && Links.JobOk(db, i);
    Links.JobIsolated(db, i);
  }

  lemma DeleteEnds(db: Db, endings: Endings, cfg: Config, step: P.Step)
    requires Links.Linked(db) && Ends(db, endings) && step.DeleteImage?
    ensures var db' := P.Apply(db, cfg, step); Ends(db', NextEndings(endings, db'.sessions, step))
  {
    hide P.Apply;
    P.EndApplied(db, cfg, step);
    var r := Deletion.DeleteImage(db, step.user, step.isAdmin, step.image);
    if r.1.Deleted? {
      DeletesOnly(db, step.user, step.isAdmin, step.image);
      DeleteLasts(db, step.user, step.isAdmin, step.image);
      assert SessionEnds(db, endings, db.jobs[step.image].session);
      EndsAt(db, r.0, endings, step, db.jobs[step.image].session);
    } else {
      SameSessions(db, r.0, endings, step);
    }
  }

  // ----- Sweeps -----

  lemma ListEnds(db: Db, endings: Endings, s: nat)
    requires Ends(db, endings)
    ensures Ends(Sweeping.List(db, s), endings)
  {
    if s in db.sessions {
      assert SessionEnds(db, endings, s);
      SweepEndsStep(db, Sweeping.List(db, s), endings, db.nextSweep);
    }
  }

  lemma ClaimsOnly(db: Db, n: nat, seen: Time)
    requires Sweeping.ClaimSweep(db, n, seen).1
    ensures var db' := Sweeping.ClaimSweep(db, n, seen).0;
            n in db.sweeps && db.sweeps[n].session in db.sessions &&
            var s := db.sweeps[n].session;
            var pending := db.sessions[s].(status := CleanupPending,
                                           cleanupAfter := Some(seen + Sweeping.RETRY_INTERVAL));
            Sweeping.Claims(db.sessions[s], db.sweeps[n].snapshot, seen) &&
            db' == db.(sessions := db.sessions[s := pending], sweeps := db.sweeps[n := db.sweeps[n].(stage := Claimed)])
  {
  }

  lemma ClaimedEnds(db: Db, endings: Endings, step: P.Step)
    requires Ends(db, endings) && step.ClaimSweep? && Sweeping.ClaimSweep(db, step.sweep, step.seen).1
    ensures var db' := Sweeping.ClaimSweep(db, step.sweep, step.seen).0;
            Ends(db', NextEndings(endings, db'.sessions, step))
  {
    hide Sweeping.ClaimSweep;
    ClaimsOnly(db, step.sweep, step.seen);
    var db' := Sweeping.ClaimSweep(db, step.sweep, step.seen).0;
    var s := db.sweeps[step.sweep].session;
    var mid := db.(sessions := db'.sessions);
    assert SessionEnds(db, endings, s) && SweepEnds(db, endings, step.sweep);
    LastingAt(db, mid, s);
    EndsAt(db, mid, endings, step, s);
    assert SweepEnds(mid, NextEndings(endings, mid.sessions, step), step.sweep);
    SweepEndsStep(mid, db', NextEndings(endings, mid.sessions, step), step.sweep);
  }

  lemma ClaimEnds(db: Db, endings: Endings, cfg: Config, step: P.Step)
    requires Ends(db, endings) && step.ClaimSweep? && P.Possible(db, step)
    ensures var db' := P.Apply(db, cfg, step); Ends(db', NextEndings(endings, db'.sessions, step))
  {
    hide P.Apply;
    P.EndApplied(db, cfg, step);
    var r := Sweeping.ClaimSweep(db, step.sweep, step.seen);
    if r.1 {
      ClaimsOnly(db, step.sweep, step.seen);
      ClaimedEnds(db, endings, step);
    } else {
      SameSessions(db, r.0, endings, step);
    }
  }

  /** The decided status is the original one, unless the image of a published session is gone. */
  lemma FinalIsOriginal(db: Db, endings: Endings, n: nat)
    requires Links.Linked(db) && Ends(db, endings) && n in db.sweeps && db.sweeps[n].stage == Claimed
    ensures var s := db.sweeps[n].session;
            s in db.sessions && s in endings &&
            Decided(db.sessions[s], endings[s], Sweeping.FinalStatus(db.sweeps[n].snapshot, db.images))
  {
    var sweep := db.sweeps[n];
    var s := sweep.session;
    assert SweepEnds(db, endings, n) && Links.SweepOk(db, n) && SessionEnds(db, endings, s) && Links.SessionOk(db, s);
    if db.sessions[s].image.Some? {
      var i := db.sessions[s].image.value;
      assert Links.JobOk(db, i) && Links.ImageOk(db, i);
    }
  }

  /** When the image row is gone: a cleanup decides another status than the original one if and only if the
      session was published with staging left over, which leaves completed_at empty, and its image is
      not completed any more. */
  lemma FinalDeviates(db: Db, endings: Endings, n: nat)
    requires Links.Linked(db) && Ends(db, endings) && n in db.sweeps && db.sweeps[n].stage == Claimed
    ensures var snapshot := db.sweeps[n].snapshot;
            db.sweeps[n].session in endings &&
            (Sweeping.FinalStatus(snapshot, db.images) != endings[db.sweeps[n].session] <==>
               endings[db.sweeps[n].session] == Completed && snapshot.status == CleanupPending &&
               snapshot.completedAt == None && !Sweeping.ImageDone(db.images, snapshot.image))
  {
    FinalIsOriginal(db, endings, n);
    assert SweepEnds(db, endings, n);
  }

  lemma DecideEnds(db: Db, endings: Endings, n: nat)
    requires Links.Linked(db) && Ends(db, endings)
    ensures Ends(Sweeping.Decide(db, n), endings)
  {
    if n in db.sweeps && db.sweeps[n].stage == Claimed {
      FinalIsOriginal(db, endings, n);
      assert SweepEnds(db, endings, n);
      SweepEndsStep(db, Sweeping.Decide(db, n), endings, n);
    }
  }

  lemma RemoveEnds(db: Db, endings: Endings, n: nat)
    requires Ends(db, endings)
    ensures Ends(Sweeping.RemoveFiles(db, n), endings)
  {
    if n in db.sweeps && db.sweeps[n].stage.Decided? {
      assert SweepEnds(db, endings, n);
      SweepEndsStep(db, Sweeping.RemoveFiles(db, n), endings, n);
    }
  }

  lemma DropSweep(db: Db, db': Db, endings: Endings)
    requires Ends(db, endings) && db'.sessions == db.sessions
    requires forall n :: n in db'.sweeps ==> n in db.sweeps && db'.sweeps[n] == db.sweeps[n]
    ensures Ends(db', endings)
  {
    forall s | s in db'.sessions ensures SessionEnds(db', endings, s) { assert SessionEnds(db, endings, s); }
    forall n | n in db'.sweeps ensures SweepEnds(db', endings, n) { assert SweepEnds(db, endings, n); }
  }

  lemma FinishEnds(db: Db, endings: Endings, cfg: Config, step: P.Step)
    requires Links.Linked(db) && Ends(db, endings) && step.Finish?
    ensures var db' := P.Apply(db, cfg, step); Ends(db', NextEndings(endings, db'.sessions, step))
  {
    hide P.Apply;
    P.EndApplied(db, cfg, step);
    var db' := Sweeping.Finish(db, step.sweep, step.at).0;
    FinishLasts(db, step.sweep, step.at);
    if !Sweeping.Finish(db, step.sweep, step.at).1 {
      SameSessions(db, db, endings, step);
      DropSweep(db, db', endings);
    } else {
      var s := db.sweeps[step.sweep].session;
      assert SessionEnds(db, endings, s) && SweepEnds(db, endings, step.sweep);
      var mid := db.(sessions := db'.sessions);
      LastingAt(db, mid, s);
      EndsAt(db, mid, endings, step, s);
      DropSweep(mid, db', NextEndings(endings, mid.sessions, step));
    }
  }

  lemma UploadEnds(db: Db, endings: Endings, cfg: Config, step: P.Step)
    requires Links.Linked(db) && Ends(db, endings) && P.UploadStep(step) && P.Possible(db, step)
    ensures var db' := P.Apply(db, cfg, step); Ends(db', NextEndings(endings, db'.sessions, step))
  {
    hide P.Apply, Ends, Links.Linked;
    match step
    case Init(_, _, _, _) => InitEnds(db, endings, cfg, step);
    case PutPart(_, _, _, _) => PutEnds(db, endings, cfg, step);
    case Complete(_, _, _) => CompleteEnds(db, endings, cfg, step);
    case Cancel(_, _) => CancelEnds(db, endings, cfg, step);
    case CancelSwept(_) =>
      P.UploadApplied(db, cfg, step);
      SameSessions(db, P.Apply(db, cfg, step), endings, step);
    case CancelSweepFailed(_) => CancelSweepEnds(db, endings, cfg, step);
  }

  lemma EndEnds(db: Db, endings: Endings, cfg: Config, step: P.Step)
    requires Links.Linked(db) && Ends(db, endings) && P.EndStep(step) && P.Possible(db, step)
    ensures var db' := P.Apply(db, cfg, step); Ends(db', NextEndings(endings, db'.sessions, step))
  {
    hide P.Apply, Ends, Links.Linked;
    match step
    case Commit(_) => CommitEnds(db, endings, cfg, step);
    case Fail(_, _) => FailEnds(db, endings, cfg, step);
    case DeleteImage(_, _, _) => DeleteEnds(db, endings, cfg, step);
    case ClaimSweep(_, _) => ClaimEnds(db, endings, cfg, step);
    case Finish(_, _) => FinishEnds(db, endings, cfg, step);
  }

  lemma StepEnds(db: Db, endings: Endings, cfg: Config, step: P.Step)
    requires Links.Linked(db) && Ends(db, endings)
    ensures var db' := P.Apply(db, cfg, step); Ends(db', NextEndings(endings, db'.sessions, step))
  {
    hide P.Apply, Ends, Links.Linked;
    var db' := P.Apply(db, cfg, step);
    if !P.Possible(db, step) {
      P.Impossible(db, cfg, step);
      SameSessions(db, db', endings, step);
    } else if P.FileStep(step) {
      Links.FileStepRows(db, cfg, step);
      SameSessions(db, db', endings, step);
    } else if P.LeaseStep(step) {
      Links.LeaseStepRows(db, cfg, step);
      SameSessions(db, db', endings, step);
    } else if P.SweepStep(step) {
      SweepStepEnds(db, endings, cfg, step);
    } else if P.UploadStep(step) {
      UploadEnds(db, endings, cfg, step);
    } else {
      EndEnds(db, endings, cfg, step);
    }
  }

  lemma SweepStepEnds(db: Db, endings: Endings, cfg: Config, step: P.Step)
    requires Links.Linked(db) && Ends(db, endings) && P.SweepStep(step) && P.Possible(db, step)
    ensures var db' := P.Apply(db, cfg, step); Ends(db', NextEndings(endings, db'.sessions, step))
  {
    hide P.Apply, Ends, Links.Linked;
    var db' := P.Apply(db, cfg, step);
    P.SweepApplied(db, cfg, step);
    Links.SweepStepRows(db, cfg, step);
    SameSessions(db, db, endings, step);
    match step
    case List(s) => ListEnds(db, endings, s);
    case Decide(n) => DecideEnds(db, endings, n);
    case RemoveFiles(n) => RemoveEnds(db, endings, n);
    case CleanOrphan(s) => SameSessions(db, Sweeping.CleanOrphan(db, s), endings, step);
  }
}
