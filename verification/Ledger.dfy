/** The counters of a user against the rows: used bytes and image count are exactly what the
    completed images add up to, and used bytes with all live reservations stay within the quota. */
module Ledger {
  import opened Collections
  import opened Rows
  import opened Upload
  import opened Publish
  import opened Accounting
  import Deletion
  import Links
  import P = Pipeline

  predicate BilledTo(images: map<nat, Image>, i: nat, user: nat)
  {
    i in images && images[i].owner == user && images[i].status == ImageCompleted
  }

  function BilledBytes(images: map<nat, Image>, i: nat, user: nat): nat
  {
    if BilledTo(images, i, user) then ActiveBytes(images[i].variants) else 0
  }

  function BytesBy(images: map<nat, Image>, user: nat): nat -> nat
  {
    (i: nat) => BilledBytes(images, i, user)
  }

  function BilledImage(images: map<nat, Image>, i: nat, user: nat): nat
  {
    if BilledTo(images, i, user) then 1 else 0
  }

  function ImagesBy(images: map<nat, Image>, user: nat): nat -> nat
  {
    (i: nat) => BilledImage(images, i, user)
  }

  ghost predicate UserOk(db: Db, u: nat)
    requires u in db.users
  {
    db.users[u].used == SumBelow(BytesBy(db.images, u), db.nextImage) &&
    db.users[u].count == SumBelow(ImagesBy(db.images, u), db.nextImage)
  }

  ghost predicate Balanced(db: Db)
  {
    forall u {:trigger UserOk(db, u)} :: u in db.users ==> UserOk(db, u)
  }

  // ----- Ledger -----

  /** Only image i changes, and the user is charged exactly the difference. */
  lemma BalanceChange(db: Db, db': Db, i: nat, u: nat)
    requires u in db.users && u in db'.users && UserOk(db, u)
    requires OnlyAt(db.images, db'.images, i) && i < db'.nextImage
    requires db'.nextImage == db.nextImage || (i == db.nextImage && i !in db.images && db'.nextImage == i + 1)
    requires db'.users[u].used + BilledBytes(db.images, i, u) == db.users[u].used + BilledBytes(db'.images, i, u)
    requires db'.users[u].count + BilledImage(db.images, i, u) == db.users[u].count + BilledImage(db'.images, i, u)
    ensures UserOk(db', u)
  {
    SumChange(BytesBy(db.images, u), BytesBy(db'.images, u), db'.nextImage, i);
    SumChange(ImagesBy(db.images, u), ImagesBy(db'.images, u), db'.nextImage, i);
  }

  lemma BalanceStep(db: Db, db': Db, i: nat)
    requires Links.Linked(db) && Balanced(db) && db'.users == db.users
    requires OnlyAt(db.images, db'.images, i) && i < db'.nextImage
    requires db'.nextImage == db.nextImage || (i == db.nextImage && db'.nextImage == i + 1)
    requires i in db.images ==> db.images[i].status == ImageProcessing
    requires i in db'.images ==> db'.images[i].status == ImageProcessing
    ensures Balanced(db')
  {
    forall u | u in db'.users
      ensures UserOk(db', u)
    {
      assert UserOk(db, u);
      assert i in db.images ==> Links.ImageOk(db, i);
      BalanceChange(db, db', i, u);
    }
  }

  lemma CompleteBalances(db: Db, user: nat, s: nat, watermark: bool)
    requires Links.Linked(db) && Balanced(db)
    ensures Balanced(Complete(db, user, s, watermark).0)
  {
    if CompleteGuard(db, user, s) == None {
      var promotion := PromoteFirst(db.disk, s, db.sessions[s].parts, |PROMOTED|);
      if promotion.ok {
        EnterBalances(db, s, promotion.disk, watermark);
      } else {
        SameBalance(db, Complete(db, user, s, watermark).0);
      }
    }
  }

  lemma EnterBalances(db: Db, s: nat, disk: Disk, watermark: bool)
    requires Links.Linked(db) && Balanced(db)
    requires s in db.sessions && forall k :: k in UPLOAD_KINDS ==> k in db.sessions[s].parts
    ensures Balanced(EnterProcessing(db, s, disk, watermark))
  {
    assert db.nextImage in db.images ==> Links.ImageOk(db, db.nextImage);
    BalanceStep(db, EnterProcessing(db, s, disk, watermark), db.nextImage);
  }

  lemma SameBalance(db: Db, db': Db)
    requires Balanced(db) && db'.users == db.users && db'.images == db.images && db'.nextImage == db.nextImage
    ensures Balanced(db')
  {
    forall u | u in db'.users ensures UserOk(db', u) { assert UserOk(db, u); }
  }

  lemma FailBalances(db: Db, t: nat, overQuota: bool)
    requires Links.Linked(db) && Balanced(db)
    ensures Balanced(Fail(db, t, overQuota).0)
  {
    if Fenced(db.jobs, db.claims, t) {
      var db' := Fail(db, t, overQuota).0;
      var i := db.claims[t].image;
      assert Links.JobOk(db, i);
      if db' != Bury(db, i) {
        SameBalance(db, db');
      } else {
        BalanceStep(db, db', i);
      }
    }
  }

  lemma CommitBalances(db: Db, t: nat)
    requires Links.Linked(db) && Balanced(db)
    requires t in db.claims && db.claims[t].inspected.Some? && db.claims[t].stagingClean.Some?
    ensures Balanced(Commit(db, t).0)
  {
    var db' := Commit(db, t).0;
    if db' != db {
      var i := db.claims[t].image;
      assert Links.JobOk(db, i) && Links.ImageOk(db, i);
      forall u | u in db'.users
        ensures UserOk(db', u)
      {
        assert UserOk(db, u);
        BalanceChange(db, db', i, u);
      }
    }
  }

  /** Deleting an image gives back exactly what it was billed: the subtraction never clips at zero. */
  lemma CreditIsExact(db: Db, i: nat)
    requires Links.Linked(db) && Balanced(db) && i in db.images && db.images[i].status == ImageCompleted
    ensures db.images[i].owner in db.users
    ensures var user := db.users[db.images[i].owner];
            Deletion.Less(user.used, ActiveBytes(db.images[i].variants)) ==
              user.used - ActiveBytes(db.images[i].variants) &&
            Deletion.Less(user.count, 1) == user.count - 1
  {
    assert Links.ImageOk(db, i);
    var u := db.images[i].owner;
    assert UserOk(db, u);
    SumOne(BytesBy(db.images, u), db.nextImage, i);
    SumOne(ImagesBy(db.images, u), db.nextImage, i);
    assert BytesBy(db.images, u)(i) == ActiveBytes(db.images[i].variants) && ImagesBy(db.images, u)(i) == 1;
  }

  lemma DeleteBalances(db: Db, i: nat)
    requires Links.Linked(db) && Balanced(db) && i in db.images && db.images[i].status == ImageCompleted
    requires db.images[i].file in db.files
    ensures Balanced(Deletion.DeleteRows(db, i))
  {
    var db' := Deletion.DeleteRows(db, i);
    CreditIsExact(db, i);
    assert Links.ImageOk(db, i);
    forall u | u in db'.users
      ensures UserOk(db', u)
    {
      assert UserOk(db, u);
      BalanceChange(db, db', i, u);
    }
  }

  lemma EndBalances(db: Db, cfg: Config, step: P.Step)
    requires Links.Linked(db) && Balanced(db) && (step.Commit? || step.Fail? || step.DeleteImage?) &&
             P.Possible(db, step)
    ensures Balanced(P.Apply(db, cfg, step))
  {
    hide P.Apply, Balanced, Links.Linked;
    P.EndApplied(db, cfg, step);
    match step
    case Commit(t) => CommitBalances(db, t);
    case Fail(t, overQuota) => FailBalances(db, t, overQuota);
    case DeleteImage(user, isAdmin, i) =>
      if Deletion.DeleteImage(db, user, isAdmin, i).0 != db {
        DeleteBalances(db, i);
      }
  }

  lemma StepBalances(db: Db, cfg: Config, step: P.Step)
    requires Links.Linked(db) && Balanced(db)
    ensures Balanced(P.Apply(db, cfg, step))
  {
    hide P.Apply, Balanced, Links.Linked;
    if !P.Possible(db, step) {
      P.Impossible(db, cfg, step);
    } else if step.Complete? {
      P.UploadApplied(db, cfg, step);
      CompleteBalances(db, step.user, step.session, step.watermark);
    } else if step.Commit? || step.Fail? || step.DeleteImage? {
      EndBalances(db, cfg, step);
    } else {
      OtherStepKeepsUsers(db, cfg, step);
      OtherStepKeepsImages(db, cfg, step);
      SameBalance(db, P.Apply(db, cfg, step));
    }
  }

  // ----- Quota -----

  ghost predicate QuotaOk(db: Db, u: nat)
    requires u in db.users
  {
    db.users[u].used + ReservedBelow(db.sessions, db.nextSession, u, db.clock) <= db.users[u].quota
  }

  ghost predicate LimitOk(db: Db, cfg: Config, u: nat)
  {
    ActiveBelow(db.sessions, db.nextSession, u, db.clock) <= cfg.maxActiveSessions
  }

  ghost predicate Bounded(db: Db, cfg: Config)
  {
    && (forall u {:trigger QuotaOk(db, u)} :: u in db.users ==> QuotaOk(db, u))
    && (forall u {:trigger LimitOk(db, cfg, u)} :: LimitOk(db, cfg, u))
    && (forall t :: t in db.claims ==> db.claims[t].seen <= db.clock)
  }

  /** Whatever a step and the passing of time do to the existing sessions, they hold no more. */
  lemma HoldingsShrink(db: Db, db': Db, u: nat)
    requires Lasting(db, db') && db.clock <= db'.clock
    ensures ReservedBelow(db'.sessions, db.nextSession, u, db'.clock) <=
            ReservedBelow(db.sessions, db.nextSession, u, db.clock)
    ensures ActiveBelow(db'.sessions, db.nextSession, u, db'.clock) <=
            ActiveBelow(db.sessions, db.nextSession, u, db.clock)
  {
    forall s: nat | s < db.nextSession
      ensures ReservedOf(db'.sessions, s, u, db'.clock) <= ReservedOf(db.sessions, s, u, db.clock)
      ensures ActiveOf(db'.sessions, s, u, db'.clock) <= ActiveOf(db.sessions, s, u, db.clock)
    {
      assert SessionNext(db.sessions, db'.sessions, db.clock, s);
    }
    SumLess(ReservedBy(db'.sessions, u, db'.clock), ReservedBy(db.sessions, u, db.clock), db.nextSession);
    SumLess(ActiveBy(db'.sessions, u, db'.clock), ActiveBy(db.sessions, u, db.clock), db.nextSession);
  }

  /** A clock that was read earlier sees at least the reservations that are live now. */
  lemma EarlierSeesMore(sessions: map<nat, Session>, n: nat, u: nat, seen: Time, now: Time)
    requires seen <= now
    ensures ReservedBelow(sessions, n, u, now) <= ReservedBelow(sessions, n, u, seen)
    ensures ActiveBelow(sessions, n, u, now) <= ActiveBelow(sessions, n, u, seen)
  {
    SumLess(ReservedBy(sessions, u, now), ReservedBy(sessions, u, seen), n);
    SumLess(ActiveBy(sessions, u, now), ActiveBy(sessions, u, seen), n);
  }

  ghost predicate UsersShrink(db: Db, db': Db)
  {
    SameKeys(db.users, db'.users) &&
    forall u :: u in db.users ==> db'.users[u].used <= db.users[u].used && db'.users[u].quota == db.users[u].quota
  }

  lemma BoundsShrink(db: Db, db': Db, cfg: Config)
    requires Bounded(db, cfg) && Lasting(db, db') && db.clock <= db'.clock && db'.nextSession == db.nextSession
    requires UsersShrink(db, db')
    requires forall t :: t in db'.claims ==> db'.claims[t].seen <= db'.clock
    ensures Bounded(db', cfg)
  {
    forall u | u in db'.users
      ensures QuotaOk(db', u)
    {
      assert QuotaOk(db, u);
      HoldingsShrink(db, db', u);
    }
    forall u: nat
      ensures LimitOk(db', cfg, u)
    {
      assert LimitOk(db, cfg, u);
      HoldingsShrink(db, db', u);
    }
  }

  /** A new session at the next id, which its owner's quota and session limit had room for. */
  lemma AddedBounds(db: Db, db': Db, cfg: Config, user: nat, session: Session)
    requires Bounded(db, cfg) && Lasting(db, db') && db'.clock == db.clock && db'.users == db.users &&
             db'.claims == db.claims
    requires db'.nextSession == db.nextSession + 1
    requires db.nextSession in db'.sessions && db'.sessions[db.nextSession] == session && session.owner == user
    requires ActiveBelow(db.sessions, db.nextSession, user, db.clock) < cfg.maxActiveSessions
    requires user in db.users &&
             db.users[user].used + ReservedBelow(db.sessions, db.nextSession, user, db.clock) + session.reserved <=
               db.users[user].quota
    ensures Bounded(db', cfg)
  {
    forall u: nat
      ensures LimitOk(db', cfg, u) && (u in db'.users ==> QuotaOk(db', u))
    {
      assert LimitOk(db, cfg, u) && (u in db.users ==> QuotaOk(db, u));
      HoldingsShrink(db, db', u);
      assert ReservedOf(db'.sessions, db.nextSession, u, db'.clock) <= if u == user then session.reserved else 0;
      assert ActiveOf(db'.sessions, db.nextSession, u, db'.clock) <= if u == user then 1 else 0;
    }
  }

  lemma Admitted(db: Db, cfg: Config, user: nat, key: string, req: seq<PartManifest>, seen: Time)
    requires Init(db, cfg, user, key, req, seen).1.Created?
    ensures var db' := Init(db, cfg, user, key, req, seen).0;
            user in db.users && ActiveBelow(db.sessions, db.nextSession, user, seen) < cfg.maxActiveSessions &&
            db.users[user].used + ReservedBelow(db.sessions, db.nextSession, user, seen) + OUTPUT_RESERVE
              + TotalSize(req) <= db.users[user].quota &&
            db'.nextSession == db.nextSession + 1 && db.nextSession in db'.sessions &&
            db'.sessions[db.nextSession] == NewSession(user, req, seen, cfg)
  {
  }

  lemma InitBounds(db: Db, cfg: Config, user: nat, key: string, req: seq<PartManifest>, seen: Time)
    requires Links.Linked(db) && Bounded(db, cfg) && seen <= db.clock
    ensures Bounded(Init(db, cfg, user, key, req, seen).0, cfg)
  {
    var r := Init(db, cfg, user, key, req, seen);
    if r.1.Created? {
      InitLasts(db, cfg, user, key, req, seen);
      Admitted(db, cfg, user, key, req, seen);
      EarlierSeesMore(db.sessions, db.nextSession, user, seen, db.clock);
      AddedBounds(db, r.0, cfg, user, NewSession(user, req, seen, cfg));
    }
  }

  /** The reservations that remain once session s published. */
  lemma PublishedHoldsNothing(db: Db, db': Db, s: nat, u: nat, seen: Time)
    requires seen <= db.clock && db'.clock == db.clock
    requires OnlyAt(db.sessions, db'.sessions, s) && (s in db'.sessions ==> !Reserving(db'.sessions[s], db'.clock))
    ensures ReservedBelow(db'.sessions, db.nextSession, u, db'.clock) <=
            ReservedBelow(db.sessions - {s}, db.nextSession, u, seen)
  {
    SumLess(ReservedBy(db'.sessions, u, db'.clock), ReservedBy(db.sessions - {s}, u, seen), db.nextSession);
  }

  /** What a successful publish did to the user and to the session. */
  lemma Committed(db: Db, t: nat)
    requires Links.Linked(db) && t in db.claims && db.claims[t].inspected.Some? && db.claims[t].stagingClean.Some?
    requires Commit(db, t).1 == Published
    ensures var db' := Commit(db, t).0;
            var i := db.claims[t].image;
            i in db.jobs && i in db.images && db.images[i].owner in db.users &&
            var s := db.jobs[i].session;
            var owner := db.images[i].owner;
            var actual := ActiveBytes(PublishedVariants(db.images[i].variants, i, db.claims[t].inspected.value));
            db'.users == db.users[owner := Billed(db.users[owner], actual)] && db'.clock == db.clock &&
            OnlyAt(db.sessions, db'.sessions, s) && (s in db'.sessions ==> !Reserving(db'.sessions[s], db.clock)) &&
            db.users[owner].used + ReservedBelow(db.sessions - {s}, db.nextSession, owner, db.claims[t].seen) + actual
              <= db.users[owner].quota
  {
    assert Links.JobOk(db, db.claims[t].image);
  }

  lemma RefusedCommit(db: Db, t: nat)
    requires t in db.claims && db.claims[t].inspected.Some? && db.claims[t].stagingClean.Some?
    requires Commit(db, t).1 != Published
    ensures Commit(db, t).0 == db
  {
  }

  lemma CommitBounds(db: Db, cfg: Config, t: nat)
    requires Links.Linked(db) && Bounded(db, cfg)
    requires t in db.claims && db.claims[t].inspected.Some? && db.claims[t].stagingClean.Some?
    ensures Bounded(Commit(db, t).0, cfg)
  {
    if Commit(db, t).1 != Published {
      RefusedCommit(db, t);
    } else {
      Committed(db, t);
      CommitLasts(db, t);
      CommittedBounds(db, Commit(db, t).0, cfg, t);
    }
  }

  lemma CommittedBounds(db: Db, db': Db, cfg: Config, t: nat)
    requires Bounded(db, cfg) && Lasting(db, db') && db'.clock == db.clock && db'.nextSession == db.nextSession
    requires t in db.claims && db'.claims == db.claims
    requires var i := db.claims[t].image;
             i in db.jobs && i in db.images && db.images[i].owner in db.users &&
             var s := db.jobs[i].session;
             var owner := db.images[i].owner;
             OnlyAt(db.sessions, db'.sessions, s) && (s in db'.sessions ==> !Reserving(db'.sessions[s], db.clock)) &&
             owner in db'.users && db'.users == db.users[owner := db'.users[owner]] &&
             db'.users[owner].quota == db.users[owner].quota &&
             db'.users[owner].used + ReservedBelow(db.sessions - {s}, db.nextSession, owner, db.claims[t].seen)
               <= db.users[owner].quota
    ensures Bounded(db', cfg)
  {
    var i := db.claims[t].image;
    forall u: nat
      ensures LimitOk(db', cfg, u) && (u in db'.users ==> QuotaOk(db', u))
    {
      assert LimitOk(db, cfg, u) && (u in db.users ==> QuotaOk(db, u));
      HoldingsShrink(db, db', u);
      PublishedHoldsNothing(db, db', db.jobs[i].session, u, db.claims[t].seen);
    }
  }

  lemma DeleteShrinks(db: Db, user: nat, isAdmin: bool, i: nat)
    requires Links.Linked(db) && Balanced(db)
    ensures UsersShrink(db, Deletion.DeleteImage(db, user, isAdmin, i).0)
  {
    if Deletion.DeleteImage(db, user, isAdmin, i).0 != db {
      CreditIsExact(db, i);
    }
  }

  lemma ReadKeepsSeen(db: Db, cfg: Config, step: P.Step)
    requires (forall t :: t in db.claims ==> db.claims[t].seen <= db.clock) && (step.Inspect? || step.TrySweepStaging?)
    ensures var db' := P.Apply(db, cfg, step);
            forall t :: t in db'.claims ==> db'.claims[t].seen <= db'.clock
  {
    hide P.Apply;
    if P.Possible(db, step) {
      P.FileApplied(db, cfg, step);
    } else {
      P.Impossible(db, cfg, step);
    }
  }

  lemma StepKeepsSeen(db: Db, cfg: Config, step: P.Step)
    requires forall t :: t in db.claims ==> db.claims[t].seen <= db.clock
    ensures var db' := P.Apply(db, cfg, step);
            forall t :: t in db'.claims ==> db'.claims[t].seen <= db'.clock
  {
    hide P.Apply;
    if P.SweepStep(step) {
      Links.SweepStepRows(db, cfg, step);
    } else if P.UploadStep(step) {
      Links.UploadStepRows(db, cfg, step);
    } else if P.EndStep(step) {
      Links.EndStepRows(db, cfg, step);
    } else if P.LeaseStep(step) {
      Links.LeaseStepClaims(db, cfg, step);
      Links.LeaseStepRows(db, cfg, step);
    } else if !step.Inspect? && !step.TrySweepStaging? {
      Links.FileStepRows(db, cfg, step);
    } else {
      ReadKeepsSeen(db, cfg, step);
    }
  }

  lemma StepBounds(db: Db, cfg: Config, step: P.Step)
    requires Links.Linked(db) && Balanced(db) && Bounded(db, cfg)
    ensures Bounded(P.Apply(db, cfg, step), cfg)
  {
    hide P.Apply;
    if step.Init? && P.Possible(db, step) {
      P.UploadApplied(db, cfg, step);
      InitBounds(db, cfg, step.user, step.key, step.req, step.seen);
    } else if step.Commit? && P.Possible(db, step) {
      P.EndApplied(db, cfg, step);
      CommitBounds(db, cfg, step.token);
    } else {
      OtherStepShrinks(db, cfg, step);
      StepKeepsSeen(db, cfg, step);
      StepLasts(db, cfg, step);
      BoundsShrink(db, P.Apply(db, cfg, step), cfg);
    }
  }

  lemma OtherStepShrinks(db: Db, cfg: Config, step: P.Step)
    requires Links.Linked(db) && Balanced(db)
    requires (step.Init? || step.Commit?) ==> !P.Possible(db, step)
    ensures var db' := P.Apply(db, cfg, step);
            UsersShrink(db, db') && db.clock <= db'.clock && db'.nextSession == db.nextSession
  {
    hide P.Apply;
    OtherStepKeepsUsers(db, cfg, step);
    if step.DeleteImage? && P.Possible(db, step) {
      P.EndApplied(db, cfg, step);
      DeleteShrinks(db, step.user, step.isAdmin, step.image);
    } else if step.DeleteImage? {
      P.Impossible(db, cfg, step);
    } else if !P.Possible(db, step) {
      P.Impossible(db, cfg, step);
    }
  }

  // ----- Why the publish never needs more than was reserved -----

  /** What a publish bills is within the reservation of its session. */
  lemma PublishedFitsReservation(db: Db, t: nat)
    requires Links.Linked(db) && Contents(db) && Fenced(db.jobs, db.claims, t) && db.claims[t].inspected.Some?
    ensures var i := db.claims[t].image;
            i in db.images && db.jobs[i].session in db.sessions &&
            ActiveBytes(PublishedVariants(db.images[i].variants, i, db.claims[t].inspected.value))
              <= db.sessions[db.jobs[i].session].reserved
  {
    var i := db.claims[t].image;
    var s := db.jobs[i].session;
    assert Links.JobOk(db, i) && Links.SessionOk(db, s) && ReadOk(db, t);
    Links.PublishedVariantsAre(i, s, db.sessions[s].parts, db.claims[t].inspected.value);
  }

  /** Session r of the user expired since the publish read its clock. */
  predicate ExpiredSince(session: Session, u: nat, seen: Time, now: Time)
  {
    session.owner == u && (session.status == Initiated || session.status == Uploading) &&
    seen < session.expiresAt <= now
  }

  function ExpiredOf(sessions: map<nat, Session>, s: nat, u: nat, seen: Time, now: Time): nat
  {
    if s in sessions && ExpiredSince(sessions[s], u, seen, now) then sessions[s].reserved else 0
  }

  function ExpiredBy(sessions: map<nat, Session>, u: nat, seen: Time, now: Time): nat -> nat
  {
    (s: nat) => ExpiredOf(sessions, s, u, seen, now)
  }

  /** What the user's sessions held that expired since a clock was read. */
  function ExpiredBelow(sessions: map<nat, Session>, n: nat, u: nat, seen: Time, now: Time): nat
  {
    SumBelow(ExpiredBy(sessions, u, seen, now), n)
  }

  /** Nothing expires in no time. */
  lemma {:induction false} NothingExpires(sessions: map<nat, Session>, n: nat, u: nat, at: Time)
    ensures ExpiredBelow(sessions, n, u, at, at) == 0
  {
    if n > 0 {
      NothingExpires(sessions, n - 1, u, at);
    }
  }

  lemma {:induction false} SumPlus(f: nat -> nat, g: nat -> nat, h: nat -> nat, n: nat)
    requires forall j: nat :: j < n ==> f(j) == g(j) + h(j)
    ensures SumBelow(f, n) == SumBelow(g, n) + SumBelow(h, n)
  {
    if n > 0 {
      SumPlus(f, g, h, n - 1);
    }
  }

  lemma ReservedSplit(sessions: map<nat, Session>, n: nat, u: nat, seen: Time, now: Time)
    requires seen <= now
    ensures ReservedBelow(sessions, n, u, seen) ==
            ReservedBelow(sessions, n, u, now) + ExpiredBelow(sessions, n, u, seen, now)
  {
    SumPlus(ReservedBy(sessions, u, seen), ReservedBy(sessions, u, now), ExpiredBy(sessions, u, seen, now), n);
  }

  /** What the quota still has room for after this publish and everything that is live beside it. */
  function Room(db: Db, i: nat, blob: Blob): int
    requires i in db.jobs && i in db.images && db.images[i].owner in db.users
  {
    var user := db.users[db.images[i].owner];
    user.quota - user.used - ReservedBelow(db.sessions - {db.jobs[i].session}, db.nextSession, db.images[i].owner,
                                           db.clock)
      - ActiveBytes(PublishedVariants(db.images[i].variants, i, blob))
  }

  lemma RoomIsLeft(db: Db, cfg: Config, t: nat)
    requires Links.Linked(db) && Contents(db) && Bounded(db, cfg)
    requires Fenced(db.jobs, db.claims, t) && db.claims[t].inspected.Some?
    ensures var i := db.claims[t].image;
            i in db.images && db.images[i].owner in db.users && db.images[i].status == ImageProcessing &&
            Room(db, i, db.claims[t].inspected.value) >= 0
  {
    var i := db.claims[t].image;
    var s := db.jobs[i].session;
    assert Links.JobOk(db, i) && Links.SessionOk(db, s);
    var u := db.images[i].owner;
    assert QuotaOk(db, u);
    PublishedFitsReservation(db, t);
    SumChange(ReservedBy(db.sessions, u, db.clock), ReservedBy(db.sessions - {s}, u, db.clock), db.nextSession, s);
  }

  /** The exact condition: the sessions of the owner that expired since the clock was read held more
      than the quota has room for. */
  lemma RefusedExactly(db: Db, cfg: Config, t: nat)
    requires Links.Linked(db) && Contents(db) && Bounded(db, cfg)
    requires Fenced(db.jobs, db.claims, t) && db.claims[t].inspected.Some? && db.claims[t].stagingClean.Some?
    ensures var i := db.claims[t].image;
            i in db.images && db.images[i].owner in db.users && Room(db, i, db.claims[t].inspected.value) >= 0 &&
            (Commit(db, t).1 == OverQuota <==>
               ExpiredBelow(db.sessions - {db.jobs[i].session}, db.nextSession, db.images[i].owner, db.claims[t].seen,
                            db.clock)
                 > Room(db, i, db.claims[t].inspected.value))
  {
    var i := db.claims[t].image;
    RoomIsLeft(db, cfg, t);
    ReservedSplit(db.sessions - {db.jobs[i].session}, db.nextSession, db.images[i].owner, db.claims[t].seen, db.clock);
  }

  lemma {:induction false} SumPositive(f: nat -> nat, n: nat)
    requires SumBelow(f, n) > 0
    ensures exists j: nat :: j < n && f(j) > 0
  {
    if f(n - 1) == 0 {
      SumPositive(f, n - 1);
    }
  }

  /** So a refusal means that another session of the owner expired between the clock that the transaction
      uses and its own moment. */
  lemma RefusalNeedsExpiry(db: Db, cfg: Config, t: nat)
    requires Links.Linked(db) && Contents(db) && Bounded(db, cfg)
    requires t in db.claims && db.claims[t].inspected.Some? && db.claims[t].stagingClean.Some?
    requires Commit(db, t).1 == OverQuota
    ensures exists r :: r in db.sessions && r != db.jobs[db.claims[t].image].session &&
                        ExpiredSince(db.sessions[r], db.images[db.claims[t].image].owner, db.claims[t].seen, db.clock)
  {
    RefusedExactly(db, cfg, t);
    hide Commit;
    var i := db.claims[t].image;
    var f := ExpiredBy(db.sessions - {db.jobs[i].session}, db.images[i].owner, db.claims[t].seen, db.clock);
    SumPositive(f, db.nextSession);
    var r: nat :| r < db.nextSession && f(r) > 0;
  }
}
