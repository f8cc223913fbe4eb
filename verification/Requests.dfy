/** What each request does, said on the rows and files before and after it and on its reply: who may
    do it, when it is refused and how, and everything that it changes.  Nothing here is said through
    the functions that define the requests. */
module Requests {
  import opened Collections
  import opened Rows
  import Accounting
  import Fencing
  import Jobs
  import Ledger
  import Links
  import Publish
  import Storage
  import Upload
  import Deletion
  import T = Theorems
  import P = Pipeline

  // ----- Init -----

  /** The session holds a reservation: it still accepts parts or its image is being published. */
  predicate Holds(session: Session, at: Time)
  {
    match session.status
    case Initiated => at < session.expiresAt
    case Uploading => at < session.expiresAt
    case Processing => true
    case _ => false
  }

  function LiveSessions(sessions: map<nat, Session>, user: nat, at: Time): set<nat>
  {
    set s | s in sessions && sessions[s].owner == user && Holds(sessions[s], at)
  }

  function BytesHeld(sessions: map<nat, Session>, user: nat, at: Time): nat -> nat
  {
    (s: nat) => if s in LiveSessions(sessions, user, at) then sessions[s].reserved else 0
  }

  lemma {:induction false} SumCounts(f: nat -> nat, ids: set<nat>, n: nat)
    requires forall s: nat :: s < n ==> f(s) == if s in ids then 1 else 0
    ensures SumBelow(f, n) == |set s | s in ids && s < n|
  {
    if n == 0 {
      assert (set s | s in ids && s < 0) == {};
    } else {
      SumCounts(f, ids, n - 1);
      var before, after := set s | s in ids && s < n - 1, set s | s in ids && s < n;
      assert after == if n - 1 in ids then before + {n - 1} else before;
    }
  }

  /** The counting queries of the quota count exactly these sessions and their reservations. */
  lemma LiveCounts(db: Db, user: nat, at: Time)
    requires Links.Linked(db)
    ensures ActiveBelow(db.sessions, db.nextSession, user, at) == |LiveSessions(db.sessions, user, at)|
    ensures ReservedBelow(db.sessions, db.nextSession, user, at) ==
            SumBelow(BytesHeld(db.sessions, user, at), db.nextSession)
  {
    var live := LiveSessions(db.sessions, user, at);
    SumCounts(ActiveBy(db.sessions, user, at), live, db.nextSession);
    forall s | s in live
      ensures s < db.nextSession
    {
      assert Links.SessionOk(db, s);
    }
    assert (set s | s in live && s < db.nextSession) == live;
    Accounting.SumAgree(ReservedBy(db.sessions, user, at), BytesHeld(db.sessions, user, at), db.nextSession);
  }

  /** The manifest names master, gallery, admin and publish source once each, with sizes in range. */
  ghost predicate GoodManifest(req: seq<PartManifest>, cfg: Config)
  {
    && |req| == 4
    && (set j | 0 <= j < |req| :: req[j].kind) == {Master, Gallery, Admin, PublishSource}
    && (forall j :: 0 <= j < |req| ==> 64 <= req[j].blob.size <= cfg.maxPartBytes)
  }

  lemma GoodManifests(req: seq<PartManifest>, cfg: Config)
    ensures GoodManifest(req, cfg) <==> Upload.ValidateManifest(req, cfg.maxPartBytes) == None
  {
    Upload.ManifestCharacterised(req, cfg.maxPartBytes);
    assert Upload.KindsOf(req) == set j | 0 <= j < |req| :: req[j].kind;
    if GoodManifest(req, cfg) {
      FourKindsDiffer(req);
    }
  }

  lemma FourDiffer(a: Kind, b: Kind, c: Kind, d: Kind)
    requires {Master, Gallery, Admin, PublishSource} <= {a, b, c, d}
    ensures a != b && a != c && a != d && b != c && b != d && c != d
  {
    var all := {Master, Gallery, Admin, PublishSource};
    assert Master in all && Gallery in all && Admin in all && PublishSource in all;
  }

  /** Four entries with four kinds have different kinds. */
  lemma FourKindsDiffer(req: seq<PartManifest>)
    requires |req| == 4 && (set j | 0 <= j < |req| :: req[j].kind) == {Master, Gallery, Admin, PublishSource}
    ensures Upload.DistinctKinds(req)
  {
    var kinds := set j | 0 <= j < |req| :: req[j].kind;
    assert kinds == {req[0].kind, req[1].kind, req[2].kind, req[3].kind};
    FourDiffer(req[0].kind, req[1].kind, req[2].kind, req[3].kind);
  }

  /** The new session's row. */
  ghost predicate NewRow(session: Session, user: nat, req: seq<PartManifest>, seen: Time, cfg: Config)
  {
    && session.owner == user && session.manifest == req && session.status == Initiated
    && session.expiresAt == seen + cfg.sessionTTL && session.staged && session.image == None
    && session.completedAt == None && session.failedAt == None && session.cleanupAfter == None && !session.errorCode
    && session.parts.Keys == {Master, Gallery, Admin, PublishSource}
    && (forall j :: 0 <= j < |req| ==>
          req[j].kind in session.parts && session.parts[req[j].kind] == Part(Pending, req[j].blob))
    && session.reserved == 33_554_432 + session.parts[Master].blob.size + session.parts[Gallery].blob.size +
                           session.parts[Admin].blob.size + session.parts[PublishSource].blob.size
  }

  function Bytes(req: seq<PartManifest>): nat
    requires |req| == 4
  {
    req[0].blob.size + req[1].blob.size + req[2].blob.size + req[3].blob.size
  }

  /** Whether Init finds a user, a free session and room for what it would reserve. */
  ghost predicate Admitted(db: Db, cfg: Config, user: nat, req: seq<PartManifest>, seen: Time)
    requires |req| == 4
  {
    user in db.users &&
    |LiveSessions(db.sessions, user, seen)| < cfg.maxActiveSessions &&
    db.users[user].used + SumBelow(BytesHeld(db.sessions, user, seen), db.nextSession) + 33_554_432 + Bytes(req)
      <= db.users[user].quota
  }

  lemma {:induction false} PendingBlobs(req: seq<PartManifest>)
    requires Upload.DistinctKinds(req)
    ensures forall j :: 0 <= j < |req| ==>
              req[j].kind in Upload.PendingParts(req) &&
              Upload.PendingParts(req)[req[j].kind] == Part(Pending, req[j].blob)
  {
    if req != [] {
      var last := |req| - 1;
      var before := req[..last];
      Upload.KindsOfLast(req);
      PendingBlobs(before);
      forall j | 0 <= j < |req|
        ensures req[j].kind in Upload.PendingParts(req) &&
                Upload.PendingParts(req)[req[j].kind] == Part(Pending, req[j].blob)
      {
        if j < last {
          assert before[j] == req[j] && req[j].kind != req[last].kind;
        }
      }
    }
  }

  lemma FourBytes(req: seq<PartManifest>)
    requires |req| == 4
    ensures Upload.TotalSize(req) == Bytes(req)
  {
    assert req[..3][..2] == req[..2] && req[..2][..1] == req[..1] && req[..1][..0] == [];
    assert Upload.TotalSize(req[..0]) == 0 && Upload.TotalSize(req[..1]) == req[0].blob.size;
    assert Upload.TotalSize(req[..2]) == Upload.TotalSize(req[..1]) + req[1].blob.size;
    assert Upload.TotalSize(req[..3]) == Upload.TotalSize(req[..2]) + req[2].blob.size;
  }

  lemma NewSessionRow(user: nat, req: seq<PartManifest>, seen: Time, cfg: Config)
    requires GoodManifest(req, cfg)
    ensures NewRow(Upload.NewSession(user, req, seen, cfg), user, req, seen, cfg)
  {
    GoodManifests(req, cfg);
    Upload.ManifestCharacterised(req, cfg.maxPartBytes);
    PendingBlobs(req);
  }

  /** Init creates a session exactly for a good manifest under a new key that finds a user, a free session
      and room, and changes nothing otherwise. */
  lemma InitLaw(quotas: map<nat, nat>, cfg: Config, steps: seq<P.Step>, user: nat, key: string,
                req: seq<PartManifest>, seen: Time)
    requires seen <= T.Reach(quotas, cfg, steps).clock
    ensures var db := T.Reach(quotas, cfg, steps);
            var db' := P.Apply(db, cfg, P.Init(user, key, req, seen));
            var n := db.nextSession;
            if GoodManifest(req, cfg) && (user, key) !in db.keys && Admitted(db, cfg, user, req, seen) then
              n !in db.sessions && n in db'.sessions && NewRow(db'.sessions[n], user, req, seen, cfg) &&
              db' == db.(sessions := db.sessions[n := db'.sessions[n]], keys := db.keys[(user, key) := n],
                         nextSession := n + 1)
            else db' == db
  {
    hide T.Reach, P.Apply;
    T.Reachable(quotas, cfg, steps);
    var db := T.Reach(quotas, cfg, steps);
    P.UploadApplied(db, cfg, P.Init(user, key, req, seen));
    InitRows(db, cfg, user, key, req, seen);
  }

  lemma InitRows(db: Db, cfg: Config, user: nat, key: string, req: seq<PartManifest>, seen: Time)
    requires Links.Linked(db)
    ensures var db' := Upload.Init(db, cfg, user, key, req, seen).0;
            var n := db.nextSession;
            if GoodManifest(req, cfg) && (user, key) !in db.keys && Admitted(db, cfg, user, req, seen) then
              n !in db.sessions && n in db'.sessions && NewRow(db'.sessions[n], user, req, seen, cfg) &&
              db' == db.(sessions := db.sessions[n := db'.sessions[n]], keys := db.keys[(user, key) := n],
                         nextSession := n + 1)
            else db' == db
  {
    GoodManifests(req, cfg);
    Links.FreshSession(db);
    InitForm(db, cfg, user, key, req, seen);
    hide Upload.Init, Upload.ValidateManifest, Upload.NewSession, Upload.Refusal, Links.Linked, NewRow, Admitted;
    if GoodManifest(req, cfg) {
      RefusalIs(db, cfg, user, req, seen);
      NewSessionRow(user, req, seen, cfg);
    }
  }

  lemma InitForm(db: Db, cfg: Config, user: nat, key: string, req: seq<PartManifest>, seen: Time)
    ensures Upload.Init(db, cfg, user, key, req, seen).0 ==
            if Upload.ValidateManifest(req, cfg.maxPartBytes) == None && (user, key) !in db.keys &&
               Upload.Refusal(db, cfg, user, OUTPUT_RESERVE + Upload.TotalSize(req), seen) == None
            then
              db.(sessions := db.sessions[db.nextSession := Upload.NewSession(user, req, seen, cfg)],
                  keys := db.keys[(user, key) := db.nextSession], nextSession := db.nextSession + 1)
            else db
  {
    hide Upload.ValidateManifest, Upload.NewSession, Upload.Refusal;
  }

  lemma RefusalIs(db: Db, cfg: Config, user: nat, req: seq<PartManifest>, seen: Time)
    requires Links.Linked(db) && GoodManifest(req, cfg)
    ensures Upload.Refusal(db, cfg, user, OUTPUT_RESERVE + Upload.TotalSize(req), seen) == None <==>
            Admitted(db, cfg, user, req, seen)
  {
    hide Links.Linked, LiveSessions, BytesHeld, ActiveBelow, ReservedBelow, SumBelow, Upload.TotalSize;
    LiveCounts(db, user, seen);
    FourBytes(req);
  }

  /** The replies, in the order of the checks. */
  lemma InitReplies(quotas: map<nat, nat>, cfg: Config, steps: seq<P.Step>, user: nat, key: string,
                    req: seq<PartManifest>, seen: Time)
    ensures var db := T.Reach(quotas, cfg, steps);
            var r := Upload.Init(db, cfg, user, key, req, seen).1;
            if !GoodManifest(req, cfg) then r == Upload.BadManifest || r == Upload.PartTooLarge
            else if (user, key) in db.keys then
              db.keys[(user, key)] in db.sessions &&
              r == if db.sessions[db.keys[(user, key)]].manifest == req then Upload.Existing(db.keys[(user, key)])
                   else Upload.Conflict
            else if user !in db.users then r == Upload.NoUser
            else if |LiveSessions(db.sessions, user, seen)| >= cfg.maxActiveSessions then r == Upload.SessionLimit
            else if !Admitted(db, cfg, user, req, seen) then r == Upload.QuotaFull
            else r == Upload.Created(db.nextSession)
  {
    hide T.Reach, Upload.ValidateManifest, Upload.NewSession;
    T.Reachable(quotas, cfg, steps);
    var db := T.Reach(quotas, cfg, steps);
    GoodManifests(req, cfg);
    LiveCounts(db, user, seen);
    if GoodManifest(req, cfg) {
      FourBytes(req);
      assert (user, key) in db.keys ==> Links.KeyOk(db, (user, key));
    }
  }

  // ----- PutPart -----

  /** The session is the user's and still accepts parts. */
  predicate Open(db: Db, user: nat, s: nat)
  {
    s in db.sessions && db.sessions[s].owner == user && db.clock < db.sessions[s].expiresAt &&
    (db.sessions[s].status == Initiated || db.sessions[s].status == Uploading)
  }

  /** The part is one of the manifest's, has not arrived yet, and the body is the announced one. */
  predicate Awaits(session: Session, k: Kind, body: Blob)
  {
    k in {Master, Gallery, Admin, PublishSource} && k in session.parts && session.parts[k] == Part(Pending, body)
  }

  /** PutPart receives a part exactly for the owner of an open session that awaits it, and changes nothing
      otherwise; if its transaction is lost, the file alone stays. */
  lemma PutLaw(quotas: map<nat, nat>, cfg: Config, steps: seq<P.Step>, user: nat, s: nat, k: Kind, body: Blob)
    ensures var db := T.Reach(quotas, cfg, steps);
            var db' := P.Apply(db, cfg, P.PutPart(user, s, k, body));
            var lost := P.Apply(db, cfg, P.PutPartRolledBack(user, s, k, body));
            if Open(db, user, s) && Awaits(db.sessions[s], k, body) then
              lost == db.(disk := db.disk[Staged(s, k) := body]) &&
              db' == lost.(sessions := db.sessions[s := db.sessions[s].(
                             status := Uploading, parts := db.sessions[s].parts[k := Part(Received, body)])])
            else db' == db && lost == db
  {
    hide T.Reach, P.Apply, Upload.PutPart, Upload.PutPartRolledBack;
    T.Reachable(quotas, cfg, steps);
    var db := T.Reach(quotas, cfg, steps);
    P.UploadApplied(db, cfg, P.PutPart(user, s, k, body));
    P.FileApplied(db, cfg, P.PutPartRolledBack(user, s, k, body));
    PutRows(db, user, s, k, body);
  }

  lemma PutRows(db: Db, user: nat, s: nat, k: Kind, body: Blob)
    requires Links.Linked(db)
    ensures var db' := Upload.PutPart(db, user, s, k, body).0;
            var lost := Upload.PutPartRolledBack(db, user, s, k, body);
            if Open(db, user, s) && Awaits(db.sessions[s], k, body) then
              lost == db.(disk := db.disk[Staged(s, k) := body]) &&
              db' == lost.(sessions := db.sessions[s := db.sessions[s].(
                             status := Uploading, parts := db.sessions[s].parts[k := Part(Received, body)])])
            else db' == db && lost == db
  {
    assert s in db.sessions ==> Links.SessionOk(db, s);
    hide Links.Linked;
  }

  /** The replies, in the order of the checks; a part that arrived before is accepted again. */
  lemma PutReplies(quotas: map<nat, nat>, cfg: Config, steps: seq<P.Step>, user: nat, s: nat, k: Kind, body: Blob)
    ensures var db := T.Reach(quotas, cfg, steps);
            var r := Upload.PutPart(db, user, s, k, body).1;
            if s !in db.sessions || db.sessions[s].owner != user then r == Upload.PartMissing
            else if db.sessions[s].expiresAt <= db.clock then r == Upload.PartExpired
            else if !Open(db, user, s) then r == Upload.PartConflict
            else if k == Publish then r == Upload.PartUnknown
            else
              k in db.sessions[s].parts &&
              match db.sessions[s].parts[k].status
              case Received => r == Upload.PartAccepted
              case Finalized => r == Upload.PartAccepted
              case Pending => r == if body == db.sessions[s].parts[k].blob then Upload.PartAccepted
                                   else Upload.PartRejected
              case Cleaned => r == if body == db.sessions[s].parts[k].blob then Upload.PartConflict
                                   else Upload.PartRejected
  {
    hide T.Reach;
    T.Reachable(quotas, cfg, steps);
    var db := T.Reach(quotas, cfg, steps);
    assert s in db.sessions ==> Links.SessionOk(db, s);
  }

  // ----- Complete -----

  predicate AllArrived(session: Session)
  {
    forall k :: k in {Master, Gallery, Admin, PublishSource} ==>
      k in session.parts && session.parts[k].status == Received
  }

  /** The content has its place in the storage already, or is in staging to be moved there. */
  predicate Movable(disk: Disk, s: nat, k: Kind, blob: Blob)
  {
    if Stored(k, blob.hash) in disk then disk[Stored(k, blob.hash)] == blob else Staged(s, k) in disk
  }

  predicate AllMovable(disk: Disk, s: nat, session: Session)
    requires AllArrived(session)
  {
    Movable(disk, s, Master, session.parts[Master].blob) && Movable(disk, s, Gallery, session.parts[Gallery].blob) &&
    Movable(disk, s, Admin, session.parts[Admin].blob)
  }

  function Arrived(session: Session, k: Kind): Variant
    requires k in session.parts
  {
    Variant(Stored(k, session.parts[k].blob.hash), session.parts[k].blob.size, true)
  }

  /** The rows of a Complete that enters image i. */
  ghost predicate Entered(db: Db, db': Db, s: nat, i: nat, watermark: bool)
    requires s in db.sessions && AllArrived(db.sessions[s])
  {
    var session, h := db.sessions[s], db.sessions[s].parts[Master].blob.hash;
    && db' == db.(disk := db'.disk, files := db'.files, images := db'.images, nextImage := i + 1, jobs := db'.jobs,
                  sessions := db'.sessions)
    && db'.images == db.images[i := Image(session.owner, h, ImageProcessing,
                                          map[Master := Arrived(session, Master), Gallery := Arrived(session, Gallery),
                                              Admin := Arrived(session, Admin),
                                              PublishSource := Variant(Staged(s, PublishSource),
                                                                       session.parts[PublishSource].blob.size, false)])]
    && db'.jobs == db.jobs[i := Job(s, Some(i), Queued, 0, 5, db.clock, None, None, watermark)]
    && db'.files == db.files[h := if h in db.files then db.files[h].(references := db.files[h].references + 1)
                                  else ImageFile(Stored(Master, h),
                                                 Stored(Gallery, session.parts[Gallery].blob.hash), 1)]
    && s in db'.sessions && db'.sessions == db.sessions[s := db'.sessions[s]]
    && db'.sessions[s] == session.(status := Processing, image := Some(i), parts := db'.sessions[s].parts)
    && db'.sessions[s].parts.Keys == session.parts.Keys
    && forall k :: k in session.parts ==>
         db'.sessions[s].parts[k] == if k in {Master, Gallery, Admin} then Part(Finalized, session.parts[k].blob)
                                     else session.parts[k]
  }

  /** The files of such a Complete: the three parts are in the storage and no longer in staging. */
  ghost predicate Moved(disk: Disk, disk': Disk, s: nat, session: Session)
    requires AllArrived(session)
  {
    && (forall k :: k in {Master, Gallery, Admin} ==>
          Staged(s, k) !in disk' && Stored(k, session.parts[k].blob.hash) in disk' &&
          disk'[Stored(k, session.parts[k].blob.hash)] == session.parts[k].blob)
    && (forall p :: (forall k :: k in {Master, Gallery, Admin} ==>
                       p != Staged(s, k) && p != Stored(k, session.parts[k].blob.hash)) ==>
          (p in disk' <==> p in disk) && (p in disk' ==> disk'[p] == disk[p]))
  }

  /** One part's move touches its own two paths only. */
  ghost predicate PartMoved(disk: Disk, disk': Disk, s: nat, k: Kind, blob: Blob)
  {
    && Staged(s, k) !in disk' && Stored(k, blob.hash) in disk' && disk'[Stored(k, blob.hash)] == blob
    && forall p :: p != Staged(s, k) && p != Stored(k, blob.hash) ==>
         (p in disk' <==> p in disk) && (p in disk' ==> disk'[p] == disk[p])
  }

  lemma PartMoves(disk: Disk, s: nat, k: Kind, blob: Blob)
    requires Staged(s, k) in disk ==> disk[Staged(s, k)] == blob
    ensures var promotion := Upload.PromotePart(disk, s, k, blob);
            (promotion.ok <==> Movable(disk, s, k, blob)) &&
            if promotion.ok then PartMoved(disk, promotion.disk, s, k, blob) else promotion.disk == disk
  {
  }

  /** So it leaves the other parts as they were. */
  lemma OthersWait(disk: Disk, disk': Disk, s: nat, k: Kind, blob: Blob, j: Kind, other: Blob)
    requires PartMoved(disk, disk', s, k, blob) && j != k
    ensures Movable(disk', s, j, other) <==> Movable(disk, s, j, other)
    ensures Staged(s, j) in disk' <==> Staged(s, j) in disk
    ensures Staged(s, j) in disk ==> disk'[Staged(s, j)] == disk[Staged(s, j)]
  {
  }

  lemma ThreeMoved(a: Disk, b: Disk, c: Disk, d: Disk, s: nat, session: Session)
    requires AllArrived(session)
    requires PartMoved(a, b, s, Master, session.parts[Master].blob)
    requires PartMoved(b, c, s, Gallery, session.parts[Gallery].blob)
    requires PartMoved(c, d, s, Admin, session.parts[Admin].blob)
    ensures Moved(a, d, s, session)
  {
  }

  lemma FirstPromotions(disk: Disk, s: nat, parts: Parts)
    requires forall k :: k in PROMOTED ==> k in parts
    ensures var one := Upload.PromotePart(disk, s, Master, parts[Master].blob);
            var two := Upload.PromotePart(one.disk, s, Gallery, parts[Gallery].blob);
            Upload.PromoteFirst(disk, s, parts, |PROMOTED|) ==
              if !one.ok then one
              else if !two.ok then two else Upload.PromotePart(two.disk, s, Admin, parts[Admin].blob)
  {
    hide Upload.PromotePart;
    assert PROMOTED[0] == Master && PROMOTED[1] == Gallery && PROMOTED[2] == Admin;
    assert Upload.PromoteFirst(disk, s, parts, 0) == Upload.Promotion(true, disk);
    assert Upload.PromoteFirst(disk, s, parts, 1) == Upload.PromotePart(disk, s, Master, parts[Master].blob);
    assert Upload.PromoteFirst(disk, s, parts, 2) ==
           if !Upload.PromoteFirst(disk, s, parts, 1).ok then Upload.PromoteFirst(disk, s, parts, 1)
           else Upload.PromotePart(Upload.PromoteFirst(disk, s, parts, 1).disk, s, Gallery, parts[Gallery].blob);
  }

  lemma PartsMove(db: Db, s: nat)
    requires Links.Linked(db) && Accounting.Contents(db) && s in db.sessions && AllArrived(db.sessions[s])
    requires forall k :: k in PROMOTED ==> k in db.sessions[s].parts
    ensures var promotion := Upload.PromoteFirst(db.disk, s, db.sessions[s].parts, |PROMOTED|);
            (promotion.ok <==> AllMovable(db.disk, s, db.sessions[s])) &&
            (promotion.ok ==> Moved(db.disk, promotion.disk, s, db.sessions[s]))
  {
    var session := db.sessions[s];
    var parts := session.parts;
    forall k | Staged(s, k) in db.disk && k in parts
      ensures db.disk[Staged(s, k)] == parts[k].blob
    {
      assert Accounting.FileOk(db, Staged(s, k));
    }
    FirstPromotions(db.disk, s, parts);
    var m, g, a := parts[Master].blob, parts[Gallery].blob, parts[Admin].blob;
    var one := Upload.PromotePart(db.disk, s, Master, m);
    var two := Upload.PromotePart(one.disk, s, Gallery, g);
    var three := Upload.PromotePart(two.disk, s, Admin, a);
    hide Upload.PromotePart, Upload.PromoteFirst, Accounting.Contents, Links.Linked, PartMoved, Movable, Moved;
    PartMoves(db.disk, s, Master, m);
    if one.ok {
      OthersWait(db.disk, one.disk, s, Master, m, Gallery, g);
      OthersWait(db.disk, one.disk, s, Master, m, Admin, a);
      PartMoves(one.disk, s, Gallery, g);
      if two.ok {
        OthersWait(one.disk, two.disk, s, Gallery, g, Admin, a);
        PartMoves(two.disk, s, Admin, a);
        if three.ok {
          ThreeMoved(db.disk, one.disk, two.disk, three.disk, s, session);
        }
      }
    }
  }

  // ----- A Complete that fails -----

  /** The part is among the first n of those that Complete moves. */
  predicate AmongFirst(k: Kind, n: nat)
  {
    (k == Master && n > 0) || (k == Gallery && n > 1) || (k == Admin && n > 2)
  }

  lemma OneMore(n: nat)
    requires n < |PROMOTED|
    ensures !AmongFirst(PROMOTED[n], n) && forall j :: AmongFirst(j, n + 1) <==> AmongFirst(j, n) || j == PROMOTED[n]
  {
  }

  /** Complete comes to the part, and past it: it and the ones before it can be moved. */
  predicate Passes(disk: Disk, s: nat, session: Session, k: Kind)
    requires AllArrived(session)
  {
    match k
    case Master => Movable(disk, s, Master, session.parts[Master].blob)
    case Gallery => Movable(disk, s, Master, session.parts[Master].blob) &&
                    Movable(disk, s, Gallery, session.parts[Gallery].blob)
    case Admin => AllMovable(disk, s, session)
    case _ => false
  }

  /** Of the first n parts those that Complete comes past are in their place and out of staging, and no other file
      is touched. */
  ghost predicate MovedUpTo(disk: Disk, disk': Disk, s: nat, session: Session, n: nat)
    requires AllArrived(session)
  {
    forall p: Path ::
      if p.Staged? && p.session == s && AmongFirst(p.part, n) && Passes(disk, s, session, p.part) then p !in disk'
      else if p.Stored? && AmongFirst(p.kind, n) && Passes(disk, s, session, p.kind) &&
              p.hash == session.parts[p.kind].blob.hash then p in disk' && disk'[p] == session.parts[p.kind].blob
      else (p in disk' <==> p in disk) && (p in disk' ==> disk'[p] == disk[p])
  }

  /** The parts up to the first that cannot be moved. */
  function ListedParts(disk: Disk, s: nat, session: Session): nat
    requires AllArrived(session)
  {
    if !Passes(disk, s, session, Master) then 1 else if !Passes(disk, s, session, Gallery) then 2 else 3
  }

  lemma ListedIs(db: Db, s: nat)
    requires Accounting.Contents(db) && s in db.sessions && AllArrived(db.sessions[s])
    requires forall k :: k in PROMOTED ==> k in db.sessions[s].parts
    ensures Upload.ListedFirst(db.disk, s, db.sessions[s].parts, |PROMOTED|) ==
            ListedParts(db.disk, s, db.sessions[s])
  {
    var parts := db.sessions[s].parts;
    assert Upload.PromoteFirst(db.disk, s, parts, 0).ok;
    PromotedUpTo(db, s, 1);
    PromotedUpTo(db, s, 2);
    assert AmongFirst(Master, 1) && AmongFirst(Master, 2) && AmongFirst(Gallery, 2);
    hide Upload.PromoteFirst, Passes, MovedUpTo, Accounting.Contents;
    assert Upload.ListedFirst(db.disk, s, parts, 1) == 1;
    assert Upload.ListedFirst(db.disk, s, parts, 2) ==
           if !Upload.PromoteFirst(db.disk, s, parts, 1).ok then 1 else 2;
  }

  lemma {:induction false} PromotedUpTo(db: Db, s: nat, n: nat)
    requires Accounting.Contents(db) && s in db.sessions && AllArrived(db.sessions[s]) && n <= |PROMOTED|
    requires forall k :: k in PROMOTED ==> k in db.sessions[s].parts
    ensures var promotion := Upload.PromoteFirst(db.disk, s, db.sessions[s].parts, n);
            MovedUpTo(db.disk, promotion.disk, s, db.sessions[s], n) &&
            (promotion.ok <==> forall k :: AmongFirst(k, n) ==> Passes(db.disk, s, db.sessions[s], k))
  {
    var session := db.sessions[s];
    if n > 0 {
      assert AllArrived(session);
      PromotedUpTo(db, s, n - 1);
      var k, before := PROMOTED[n - 1], Upload.PromoteFirst(db.disk, s, session.parts, n - 1);
      PassesNext(db.disk, s, session, n - 1);
      OneMore(n - 1);
      if Staged(s, k) in db.disk {
        assert Accounting.FileOk(db, Staged(s, k));
      }
      NotYetMoved(db.disk, before.disk, s, session, n - 1);
      PartMoves(before.disk, s, k, session.parts[k].blob);
      hide Upload.PromotePart, Upload.PromoteFirst, Accounting.Contents, Movable, Passes, AmongFirst, PartMoved,
           MovedUpTo, AllArrived;
      MovedFurther(db.disk, before.disk, Upload.PromoteFirst(db.disk, s, session.parts, n).disk, s, session, n - 1);
    }
  }

  lemma MovedFurther(disk: Disk, before: Disk, after: Disk, s: nat, session: Session, n: nat)
    requires AllArrived(session) && n < |PROMOTED| && MovedUpTo(disk, before, s, session, n)
    requires PROMOTED[n] in session.parts &&
             if Passes(disk, s, session, PROMOTED[n])
             then PartMoved(before, after, s, PROMOTED[n], session.parts[PROMOTED[n]].blob) else after == before
    ensures MovedUpTo(disk, after, s, session, n + 1)
  {
    OneMore(n);
    hide AmongFirst, Passes, AllArrived;
  }

  lemma PassesNext(disk: Disk, s: nat, session: Session, n: nat)
    requires AllArrived(session) && n < |PROMOTED|
    ensures PROMOTED[n] in session.parts
    ensures Passes(disk, s, session, PROMOTED[n]) <==>
            Movable(disk, s, PROMOTED[n], session.parts[PROMOTED[n]].blob) &&
            forall k :: AmongFirst(k, n) ==> Passes(disk, s, session, k)
  {
    assert AmongFirst(Master, n) <==> n > 0;
    assert AmongFirst(Gallery, n) <==> n > 1;
  }

  lemma NotYetMoved(disk: Disk, disk': Disk, s: nat, session: Session, n: nat)
    requires AllArrived(session) && n < |PROMOTED| && MovedUpTo(disk, disk', s, session, n)
    requires PROMOTED[n] in session.parts
    ensures var k, blob := PROMOTED[n], session.parts[PROMOTED[n]].blob;
            (Movable(disk', s, k, blob) <==> Movable(disk, s, k, blob)) &&
            (Staged(s, k) in disk' <==> Staged(s, k) in disk) && (Staged(s, k) in disk ==>
              disk'[Staged(s, k)] == disk[Staged(s, k)])
  {
    OneMore(n);
    hide AmongFirst, Passes;
  }

  /** Complete enters a new image exactly for the owner of an open session whose parts have all arrived and
      can be moved; with a part that cannot be moved it touches no row and owes the compensation of the parts up
      to that one, and otherwise it changes nothing. */
  lemma CompleteLaw(quotas: map<nat, nat>, cfg: Config, steps: seq<P.Step>, user: nat, s: nat, watermark: bool)
    ensures var db := T.Reach(quotas, cfg, steps);
            var db' := P.Apply(db, cfg, P.Complete(user, s, watermark));
            if !Open(db, user, s) || !AllArrived(db.sessions[s]) then db' == db
            else if AllMovable(db.disk, s, db.sessions[s]) then
              Entered(db, db', s, db.nextImage, watermark) && Moved(db.disk, db'.disk, s, db.sessions[s])
            else
              db' == db.(disk := db'.disk, restores := db.restores + {(s, ListedParts(db.disk, s, db.sessions[s]))}) &&
              MovedUpTo(db.disk, db'.disk, s, db.sessions[s], 3)
  {
    hide T.Reach, P.Apply;
    T.Reachable(quotas, cfg, steps);
    var db := T.Reach(quotas, cfg, steps);
    P.UploadApplied(db, cfg, P.Complete(user, s, watermark));
    CompleteRows(db, user, s, watermark);
  }

  lemma GuardIs(db: Db, user: nat, s: nat)
    ensures Upload.CompleteGuard(db, user, s) == None <==> Open(db, user, s) && AllArrived(db.sessions[s])
  {
  }

  lemma EnteredRows(db: Db, s: nat, disk: Disk, watermark: bool)
    requires Links.Linked(db) && s in db.sessions && AllArrived(db.sessions[s])
    requires forall k :: k in UPLOAD_KINDS ==> k in db.sessions[s].parts
    ensures var db' := Upload.EnterProcessing(db, s, disk, watermark);
            Entered(db, db', s, db.nextImage, watermark) && db'.disk == disk
  {
  }

  lemma CompleteRows(db: Db, user: nat, s: nat, watermark: bool)
    requires Links.Linked(db) && Accounting.Contents(db)
    ensures var db' := Upload.Complete(db, user, s, watermark).0;
            if !Open(db, user, s) || !AllArrived(db.sessions[s]) then db' == db
            else if AllMovable(db.disk, s, db.sessions[s]) then
              Entered(db, db', s, db.nextImage, watermark) && Moved(db.disk, db'.disk, s, db.sessions[s])
            else
              db' == db.(disk := db'.disk, restores := db.restores + {(s, ListedParts(db.disk, s, db.sessions[s]))}) &&
              MovedUpTo(db.disk, db'.disk, s, db.sessions[s], 3)
  {
    GuardIs(db, user, s);
    if Upload.CompleteGuard(db, user, s) == None {
      Upload.GuardOpens(db, user, s);
      PartsMove(db, s);
      PromotedUpTo(db, s, 3);
      ListedIs(db, s);
      var promotion := Upload.PromoteFirst(db.disk, s, db.sessions[s].parts, |PROMOTED|);
      hide Upload.CompleteGuard, Upload.PromoteFirst, Upload.ListedFirst, Moved, MovedUpTo, AllMovable, ListedParts;
      if promotion.ok {
        EnteredRows(db, s, promotion.disk, watermark);
        hide Entered, Upload.EnterProcessing;
      }
    }
  }

  /** The replies, in the order of the checks. */
  lemma CompleteReplies(quotas: map<nat, nat>, cfg: Config, steps: seq<P.Step>, user: nat, s: nat, watermark: bool)
    ensures var db := T.Reach(quotas, cfg, steps);
            var r := Upload.Complete(db, user, s, watermark).1;
            if s !in db.sessions || db.sessions[s].owner != user then r == Upload.CompleteMissing
            else
              var session := db.sessions[s];
              if session.status == Processing || session.status == Completed ||
                 (session.status == CleanupPending && session.image.Some?) then r == Upload.Already
              else if session.status != Initiated && session.status != Uploading then r == Upload.CompleteConflict
              else if session.expiresAt <= db.clock then r == Upload.CompleteExpired
              else if !AllArrived(session) then r == Upload.Incomplete
              else r == if AllMovable(db.disk, s, session) then Upload.Entered(db.nextImage)
                        else Upload.PromotionFailed
  {
    hide T.Reach, Upload.PromoteFirst, Upload.EnterProcessing, AllMovable;
    T.Reachable(quotas, cfg, steps);
    var db := T.Reach(quotas, cfg, steps);
    GuardIs(db, user, s);
    if Upload.CompleteGuard(db, user, s) == None {
      Upload.GuardOpens(db, user, s);
      PartsMove(db, s);
    }
  }

  // ----- Cancel -----

  /** Cancel ends exactly the owner's sessions that are not being processed, expired ones included. */
  lemma CancelLaw(quotas: map<nat, nat>, cfg: Config, steps: seq<P.Step>, user: nat, s: nat)
    ensures var db := T.Reach(quotas, cfg, steps);
            var db' := P.Apply(db, cfg, P.Cancel(user, s));
            var cancels := s in db.sessions && db.sessions[s].owner == user &&
                           (db.sessions[s].status == Initiated || db.sessions[s].status == Uploading);
            Upload.Cancel(db, user, s).1 == cancels &&
            if cancels then
              db' == db.(sessions := db'.sessions, cancels := db.cancels + {s}) &&
              s in db'.sessions && db'.sessions == db.sessions[s := db'.sessions[s]] &&
              db'.sessions[s] == db.sessions[s].(status := Cancelled, parts := db'.sessions[s].parts) &&
              db'.sessions[s].parts.Keys == db.sessions[s].parts.Keys &&
              forall k :: k in db.sessions[s].parts ==>
                db'.sessions[s].parts[k] == Part(Cleaned, db.sessions[s].parts[k].blob)
            else db' == db
  {
    hide T.Reach, P.Apply;
    var db := T.Reach(quotas, cfg, steps);
    P.UploadApplied(db, cfg, P.Cancel(user, s));
  }

  // ----- Who may change what -----

  /** A request on somebody else's session, or on none, changes nothing. */
  lemma StrangersChangeNothing(quotas: map<nat, nat>, cfg: Config, steps: seq<P.Step>, step: P.Step)
    requires step.PutPart? || step.PutPartRolledBack? || step.Complete? || step.CompleteInterrupted? || step.Cancel?
    requires var db := T.Reach(quotas, cfg, steps);
             step.session !in db.sessions || db.sessions[step.session].owner != step.user
    ensures P.Apply(T.Reach(quotas, cfg, steps), cfg, step) == T.Reach(quotas, cfg, steps)
  {
    hide T.Reach, P.Apply;
    var db := T.Reach(quotas, cfg, steps);
    if !P.Possible(db, step) {
      P.Impossible(db, cfg, step);
    } else if P.UploadStep(step) {
      P.UploadApplied(db, cfg, step);
    } else {
      P.FileApplied(db, cfg, step);
    }
  }

  /** The row of an image goes exactly when its owner or an administrator deletes it once it is completed, or
      when the worker that holds its job fails for good. */
  predicate Removes(db: Db, step: P.Step, i: nat)
    requires i in db.images
  {
    match step
    case DeleteImage(user, isAdmin, image) =>
      image == i && db.images[i].status == ImageCompleted && (db.images[i].owner == user || isAdmin)
    case Fail(t, overQuota) =>
      t in db.claims && db.claims[t].image == i && i in db.jobs && db.jobs[i].token == Some(t) &&
      (overQuota || db.jobs[i].attempts == db.jobs[i].maxAttempts)
    case _ => false
  }

  lemma FailRemoves(db: Db, t: nat, overQuota: bool, i: nat)
    requires Links.Linked(db) && Fencing.Leased(db) && i in db.images
    ensures i in Publish.Fail(db, t, overQuota).0.images <==> !Removes(db, P.Fail(t, overQuota), i)
  {
    Jobs.HolderIsFenced(db, t);
    if Jobs.Holder(db, t) {
      assert Fencing.LeaseOk(db, db.claims[t].image) && Links.JobOk(db, db.claims[t].image);
      BurialRemoves(db, db.claims[t].image);
      hide Publish.Bury, Links.Linked, Fencing.Leased;
    }
  }

  lemma BurialRemoves(db: Db, i: nat)
    requires i in db.images && i in db.jobs && db.images[i].status == ImageProcessing
    ensures Publish.Bury(db, i).images == db.images - {i}
  {
  }

  lemma DeleteRemoves(db: Db, user: nat, isAdmin: bool, j: nat, i: nat)
    requires Links.Linked(db) && Storage.Counted(db) && i in db.images
    ensures i in Deletion.DeleteImage(db, user, isAdmin, j).0.images <==>
            !Removes(db, P.DeleteImage(user, isAdmin, j), i)
  {
    if j in db.images {
      assert Storage.HasFile(db, j);
    }
  }

  lemma ImageGoesOnlyBy(quotas: map<nat, nat>, cfg: Config, steps: seq<P.Step>, step: P.Step, i: nat)
    requires i in T.Reach(quotas, cfg, steps).images
    ensures i !in P.Apply(T.Reach(quotas, cfg, steps), cfg, step).images <==>
            Removes(T.Reach(quotas, cfg, steps), step, i)
  {
    hide T.Reach, P.Apply, Publish.Fail, Deletion.DeleteImage;
    T.Reachable(quotas, cfg, steps);
    var db := T.Reach(quotas, cfg, steps);
    if step.Fail? {
      P.EndApplied(db, cfg, step);
      FailRemoves(db, step.token, step.overQuota, i);
    } else if step.DeleteImage? {
      P.EndApplied(db, cfg, step);
      DeleteRemoves(db, step.user, step.isAdmin, step.image, i);
    } else {
      OthersKeepImages(db, cfg, step, i);
    }
  }

  lemma OthersKeepImages(db: Db, cfg: Config, step: P.Step, i: nat)
    requires Links.Linked(db) && i in db.images && !step.Fail? && !step.DeleteImage?
    ensures i in P.Apply(db, cfg, step).images
  {
    hide P.Apply, Publish.Commit, Upload.Complete;
    if step.Complete? {
      P.UploadApplied(db, cfg, step);
      CompleteKeepsImages(db, step.user, step.session, step.watermark, i);
    } else if step.Commit? && P.Possible(db, step) {
      P.EndApplied(db, cfg, step);
      Publish.CommitImages(db, step.token);
    } else if step.Commit? {
      P.Impossible(db, cfg, step);
    } else {
      Accounting.OtherStepKeepsImages(db, cfg, step);
    }
  }

  lemma CompleteKeepsImages(db: Db, user: nat, s: nat, watermark: bool, i: nat)
    requires i in db.images
    ensures i in Upload.Complete(db, user, s, watermark).0.images
  {
  }

  /** The replies to a deletion, in the order of the checks: nothing else refuses it. */
  lemma DeleteReplies(quotas: map<nat, nat>, cfg: Config, steps: seq<P.Step>, user: nat, isAdmin: bool, i: nat)
    ensures var db := T.Reach(quotas, cfg, steps);
            var r := Deletion.DeleteImage(db, user, isAdmin, i).1;
            if i !in db.images then r == Deletion.NotFound
            else if db.images[i].owner != user && !isAdmin then r == Deletion.Forbidden
            else if db.images[i].status != ImageCompleted then r == Deletion.StillProcessing
            else r == Deletion.Deleted(ActiveBytes(db.images[i].variants))
  {
    hide T.Reach;
    T.Reachable(quotas, cfg, steps);
    var db := T.Reach(quotas, cfg, steps);
    if i in db.images {
      assert Storage.HasFile(db, i);
    }
  }

  /** The rows of a deletion: the image goes, with the last image of its content the file row too; its owner gets
      back the bytes of its four variants and one image; its job and its session forget it; and one event asks for
      the deletion of every file that it was the last to name. */
  ghost predicate DeletedRows(db: Db, db': Db, i: nat)
    requires i in db.images && i in db.jobs && db.images[i].owner in db.users
    requires forall k :: k in {Master, Gallery, Admin, Publish} ==> k in db.images[i].variants
  {
    var v, owner, user := db.images[i].variants, db.images[i].owner, db.users[db.images[i].owner];
    var bytes := v[Master].size + v[Gallery].size + v[Admin].size + v[Publish].size;
    && db' == db.(images := db.images - {i}, files := db'.files, sessions := db'.sessions, events := db'.events,
                  jobs := db.jobs[i := db.jobs[i].(image := None)],
                  users := db.users[owner := User(user.used - bytes, user.count - 1, user.quota)])
    && bytes <= user.used && 1 <= user.count
    && db'.sessions.Keys == db.sessions.Keys
    && (forall s :: s in db.sessions ==>
          db'.sessions[s] == if db.sessions[s].image == Some(i) then db.sessions[s].(image := None)
                             else db.sessions[s])
    && Jobs.Dropped(db, db', i) && Jobs.Asked(db, db', i)
  }

  /** The owner of a completed image, or an administrator, deletes it; nobody and nothing else happens. */
  lemma DeleteLaw(quotas: map<nat, nat>, cfg: Config, steps: seq<P.Step>, user: nat, isAdmin: bool, i: nat)
    ensures var db := T.Reach(quotas, cfg, steps);
            var db' := P.Apply(db, cfg, P.DeleteImage(user, isAdmin, i));
            if i in db.images && db.images[i].status == ImageCompleted && (db.images[i].owner == user || isAdmin) then
              i in db.jobs && db.images[i].owner in db.users &&
              db.images[i].variants.Keys == {Master, Gallery, Admin, Publish} && DeletedRows(db, db', i)
            else db' == db
  {
    hide T.Reach, P.Apply, Deletion.DeleteImage, DeletedRows;
    T.Reachable(quotas, cfg, steps);
    var db := T.Reach(quotas, cfg, steps);
    P.EndApplied(db, cfg, P.DeleteImage(user, isAdmin, i));
    DeleteEffect(db, cfg, user, isAdmin, i);
  }

  lemma DeleteEffect(db: Db, cfg: Config, user: nat, isAdmin: bool, i: nat)
    requires T.Inv(db, cfg)
    ensures var db' := Deletion.DeleteImage(db, user, isAdmin, i).0;
            if i in db.images && db.images[i].status == ImageCompleted && (db.images[i].owner == user || isAdmin) then
              i in db.jobs && db.images[i].owner in db.users &&
              db.images[i].variants.Keys == {Master, Gallery, Admin, Publish} && DeletedRows(db, db', i)
            else db' == db
  {
    if i in db.images {
      assert Storage.HasFile(db, i);
      if db.images[i].status == ImageCompleted {
        DeletedIs(db, cfg, i);
      }
    }
    hide T.Inv, DeletedRows, Deletion.DeleteRows;
  }

  lemma DeletedIs(db: Db, cfg: Config, i: nat)
    requires T.Inv(db, cfg) && i in db.images && db.images[i].status == ImageCompleted && db.images[i].file in db.files
    ensures i in db.jobs && db.images[i].owner in db.users &&
            db.images[i].variants.Keys == {Master, Gallery, Admin, Publish}
    ensures DeletedRows(db, Deletion.DeleteRows(db, i), i)
  {
    assert Links.ImageOk(db, i);
    Ledger.CreditIsExact(db, i);
    Jobs.SharedCounts(db, i);
    VariantPathsAre(db.images[i].variants);
    hide T.Inv, Links.Linked, ReferencesBelow, VariantPaths, Jobs.Shared;
    FourActive(db.images[i].variants);
    DeletedFiles(db, i);
    DeletedAsks(db, i);
    hide Jobs.Asked, Jobs.Dropped, ActiveBytes, Links.PublishedShape, Links.ImageOk;
  }

  lemma FourActive(v: Variants)
    requires v.Keys == {Master, Gallery, Admin, Publish} && forall k :: k in v ==> v[k].active
    ensures ActiveBytes(v) == v[Master].size + v[Gallery].size + v[Admin].size + v[Publish].size
  {
  }

  lemma DeletedFiles(db: Db, i: nat)
    requires i in db.images && db.images[i].file in db.files
    requires ReferencesBelow(db.images - {i}, db.nextImage, db.images[i].file) == 0 <==> !Jobs.Shared(db, i)
    ensures Jobs.Dropped(db, Deletion.DeleteRows(db, i), i)
  {
    hide ReferencesBelow, Jobs.Shared;
  }

  lemma DeletedAsks(db: Db, i: nat)
    requires i in db.images && db.images[i].file in db.files
    requires ReferencesBelow(db.images - {i}, db.nextImage, db.images[i].file) == 0 <==> !Jobs.Shared(db, i)
    requires (forall p :: p in VariantPaths(db.images[i].variants) <==> NamedBy(db.images[i].variants, p)) &&
             NamedBy(db.images[i].variants, PublishTarget(i))
    ensures Jobs.Asked(db, Deletion.DeleteRows(db, i), i)
  {
    hide ReferencesBelow, VariantPaths, NamedBy, Jobs.Shared;
    assert PublishTarget(i) in Deletion.DeletePaths(db, i);
  }
}
