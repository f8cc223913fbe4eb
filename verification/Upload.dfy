/** Upload sessions: Init, PutPart, Complete with its rollback compensation, and Cancel.
    Each function is one transaction on the state as a value; the methods of `UploadService`
    below are proved to perform it on the database. */
module Upload {
  import opened Collections
  import opened Rows

  datatype InitResult =
    | Created(id: nat)
    | Existing(id: nat)
    | Conflict
    | BadManifest
    | PartTooLarge
    | NoUser
    | SessionLimit
    | QuotaFull

  datatype PartResult = PartAccepted | PartMissing | PartExpired | PartConflict | PartUnknown | PartRejected

  datatype CompleteResult =
    | Entered(image: nat)
    | Already
    | CompleteMissing
    | CompleteExpired
    | CompleteConflict
    | Incomplete
    | PromotionFailed

  // ----- Init -----

  predicate DistinctKinds(req: seq<PartManifest>)
  {
    forall i, j :: 0 <= i < j < |req| ==> req[i].kind != req[j].kind
  }

  /** The checks of validateV2Manifest on the parts, in its order: number of parts, then per part
      a new required kind, the minimum size and the recipe's maximum. */
  function ValidateParts(req: seq<PartManifest>, n: nat, maxPartBytes: nat): (r: Option<InitResult>)
    requires n <= |req|
    ensures r.Some? ==> r.value == BadManifest || r.value == PartTooLarge
  {
    if n == 0 then None
    else
      var earlier := ValidateParts(req, n - 1, maxPartBytes);
      if earlier.Some? then earlier
      else if (exists j :: 0 <= j < n - 1 && req[j].kind == req[n - 1].kind) || req[n - 1].kind !in UPLOAD_KINDS then
        Some(BadManifest)
      else if req[n - 1].blob.size < MINIMUM_PART_BYTES then Some(BadManifest)
      else if req[n - 1].blob.size > maxPartBytes then Some(PartTooLarge)
      else None
  }

  function ValidateManifest(req: seq<PartManifest>, maxPartBytes: nat): (r: Option<InitResult>)
    ensures r.Some? ==> r.value == BadManifest || r.value == PartTooLarge
  {
    if |req| != |PROMOTED| + 1 then Some(BadManifest) else ValidateParts(req, |req|, maxPartBytes)
  }

  function TotalSize(req: seq<PartManifest>): nat
  {
    if req == [] then 0 else TotalSize(req[..|req| - 1]) + req[|req| - 1].blob.size
  }

  function PendingParts(req: seq<PartManifest>): Parts
  {
    if req == [] then map[]
    else PendingParts(req[..|req| - 1])[req[|req| - 1].kind := Part(Pending, req[|req| - 1].blob)]
  }

  function NewSession(user: nat, req: seq<PartManifest>, seen: Time, cfg: Config): Session
  {
    Session(user, req, Initiated, seen + cfg.sessionTTL, OUTPUT_RESERVE + TotalSize(req), true,
            None, None, None, false, None, PendingParts(req))
  }

  /** Why the transaction refuses a new session: no user, too many sessions, or no room for what it
      would reserve. */
  function Refusal(db: Db, cfg: Config, user: nat, reserved: nat, seen: Time): (r: Option<InitResult>)
    ensures r == None ==> user in db.users
    ensures r.Some? ==> r.value == NoUser || r.value == SessionLimit || r.value == QuotaFull
  {
    if user !in db.users then Some(NoUser)
    else if ActiveBelow(db.sessions, db.nextSession, user, seen) >= cfg.maxActiveSessions then Some(SessionLimit)
    else if db.users[user].used + ReservedBelow(db.sessions, db.nextSession, user, seen) + reserved
            > db.users[user].quota
    then Some(QuotaFull)
    else None
  }

  /** `seen` is the clock that Init read before it took the storage lock. */
  function Init(db: Db, cfg: Config, user: nat, key: string, req: seq<PartManifest>, seen: Time): (r: (Db, InitResult))
    ensures r.0 == db.(sessions := r.0.sessions, keys := r.0.keys, nextSession := r.0.nextSession)
    ensures !r.1.Created? ==> r.0 == db
  {
    var invalid := ValidateManifest(req, cfg.maxPartBytes);
    if invalid.Some? then (db, invalid.value)
    else if (user, key) in db.keys then
      var id := db.keys[(user, key)];
      (db, if id in db.sessions && db.sessions[id].manifest == req then Existing(id) else Conflict)
    else
      var refused := Refusal(db, cfg, user, OUTPUT_RESERVE + TotalSize(req), seen);
      if refused.Some? then (db, refused.value)
      else
        (db.(sessions := db.sessions[db.nextSession := NewSession(user, req, seen, cfg)],
             keys := db.keys[(user, key) := db.nextSession],
             nextSession := db.nextSession + 1),
         Created(db.nextSession))
  }

  // ----- PutPart -----

  function ReceivePart(session: Session, k: Kind): Session
    requires k in session.parts
  {
    session.(status := Uploading, parts := session.parts[k := session.parts[k].(status := Received)])
  }

  function Owned(db: Db, user: nat, s: nat): bool
  {
    s in db.sessions && db.sessions[s].owner == user
  }

  /** `body` is the content that was streamed to the temporary file. */
  function PutPart(db: Db, user: nat, s: nat, k: Kind, body: Blob): (r: (Db, PartResult))
    ensures r.0 == db.(sessions := r.0.sessions, disk := r.0.disk)
  {
    if !Owned(db, user, s) then (db, PartMissing)
    else
      var session := db.sessions[s];
      if session.expiresAt <= db.clock then (db, PartExpired)
      else if session.status != Initiated && session.status != Uploading then (db, PartConflict)
      else if k !in session.parts then (db, PartUnknown)
      else if session.parts[k].status == Received || session.parts[k].status == Finalized then (db, PartAccepted)
      else if body != session.parts[k].blob then (db, PartRejected)
      else if session.parts[k].status != Pending then (db, PartConflict)
      else
        (db.(sessions := db.sessions[s := ReceivePart(session, k)], disk := db.disk[Staged(s, k) := body]),
         PartAccepted)
  }

  /** The transaction fails after its rename: the rows roll back, the renamed file stays. */
  function PutPartRolledBack(db: Db, user: nat, s: nat, k: Kind, body: Blob): (r: Db)
    ensures r == db.(disk := r.disk)
  {
    db.(disk := PutPart(db, user, s, k, body).0.disk)
  }

  // ----- Complete -----

  datatype Promotion = Promotion(ok: bool, disk: Disk)

  /** promoteImmutablePart: an identical target absorbs the source, a different one is an error,
      and an absent one receives the source by rename. */
  function PromotePart(disk: Disk, s: nat, k: Kind, blob: Blob): Promotion
  {
    var target := Stored(k, blob.hash);
    var source := Staged(s, k);
    if target in disk then
      if disk[target] == blob then Promotion(true, disk - {source}) else Promotion(false, disk)
    else if source in disk then Promotion(true, (disk - {source})[target := disk[source]])
    else Promotion(false, disk)
  }

  /** The first n promotions, stopping at the first failure. */
  function PromoteFirst(disk: Disk, s: nat, parts: Parts, n: nat): Promotion
    requires n <= |PROMOTED|
    requires forall k :: k in PROMOTED ==> k in parts
  {
    if n == 0 then Promotion(true, disk)
    else
      var before := PromoteFirst(disk, s, parts, n - 1);
      if !before.ok then before
      else PromotePart(before.disk, s, PROMOTED[n - 1], parts[PROMOTED[n - 1]].blob)
  }

  /** How many parts the loop has listed for compensation when it stops: a part is listed before its
      promotion. */
  function ListedFirst(disk: Disk, s: nat, parts: Parts, n: nat): (m: nat)
    requires n <= |PROMOTED|
    requires forall k :: k in PROMOTED ==> k in parts
    ensures m <= n && (n > 0 ==> m > 0)
  {
    if n == 0 then 0
    else if !PromoteFirst(disk, s, parts, n - 1).ok then ListedFirst(disk, s, parts, n - 1)
    else n
  }

  function Targets(parts: Parts): set<Path>
    requires forall k :: k in PROMOTED ==> k in parts
  {
    {Stored(Master, parts[Master].blob.hash), Stored(Gallery, parts[Gallery].blob.hash),
     Stored(Admin, parts[Admin].blob.hash)}
  }

  predicate AllReceived(parts: Parts)
  {
    forall k :: k in UPLOAD_KINDS ==> k in parts && parts[k].status == Received
  }

  function StoredVariant(parts: Parts, k: Kind): Variant
    requires k in parts
  {
    Variant(Stored(k, parts[k].blob.hash), parts[k].blob.size, true)
  }

  /** The variant rows that Complete creates; the publish source stays inactive in staging. */
  function ProcessingVariants(s: nat, parts: Parts): Variants
    requires forall k :: k in UPLOAD_KINDS ==> k in parts
  {
    map[Master := StoredVariant(parts, Master),
        Gallery := StoredVariant(parts, Gallery),
        Admin := StoredVariant(parts, Admin),
        PublishSource := Variant(Staged(s, PublishSource), parts[PublishSource].blob.size, false)]
  }

  function FinalizeParts(parts: Parts): Parts
  {
    map k | k in parts :: if k in PROMOTED then parts[k].(status := Finalized) else parts[k]
  }

  function AddReference(files: map<nat, ImageFile>, parts: Parts): map<nat, ImageFile>
    requires forall k :: k in PROMOTED ==> k in parts
  {
    var h := parts[Master].blob.hash;
    if h in files then files[h := files[h].(references := files[h].references + 1)]
    else files[h := ImageFile(Stored(Master, h), Stored(Gallery, parts[Gallery].blob.hash), 1)]
  }

  /** The rows that a successful Complete commits. */
  function EnterProcessing(db: Db, s: nat, disk: Disk, watermark: bool): Db
    requires s in db.sessions && forall k :: k in UPLOAD_KINDS ==> k in db.sessions[s].parts
  {
    var session := db.sessions[s];
    var i := db.nextImage;
    db.(disk := disk,
        files := AddReference(db.files, session.parts),
        images := db.images[i := Image(session.owner, session.parts[Master].blob.hash, ImageProcessing,
                                       ProcessingVariants(s, session.parts))],
        nextImage := i + 1,
        jobs := db.jobs[i := Job(s, Some(i), Queued, 0, JOB_MAX_ATTEMPTS, db.clock, None, None, watermark)],
        sessions := db.sessions[s := session.(status := Processing, image := Some(i),
                                              parts := FinalizeParts(session.parts))])
  }

  /** The checks of Complete up to its first promotion. */
  function CompleteGuard(db: Db, user: nat, s: nat): Option<CompleteResult>
  {
    if !Owned(db, user, s) then Some(CompleteMissing)
    else
      var session := db.sessions[s];
      if session.status == Processing || session.status == Completed ||
         (session.status == CleanupPending && session.image.Some?) then Some(Already)
      else if session.status != Uploading && session.status != Initiated then Some(CompleteConflict)
      else if session.expiresAt <= db.clock then Some(CompleteExpired)
      else if !AllReceived(session.parts) then Some(Incomplete)
      else None
  }

  lemma GuardOpens(db: Db, user: nat, s: nat)
    requires CompleteGuard(db, user, s) == None
    ensures s in db.sessions && forall k :: k in UPLOAD_KINDS ==> k in db.sessions[s].parts
  {
  }

  function Complete(db: Db, user: nat, s: nat, watermark: bool): (r: (Db, CompleteResult))
    ensures r.0 == db.(disk := r.0.disk, files := r.0.files, images := r.0.images, nextImage := r.0.nextImage,
                       jobs := r.0.jobs, sessions := r.0.sessions, restores := r.0.restores)
  {
    var refused := CompleteGuard(db, user, s);
    if refused.Some? then (db, refused.value)
    else
      var parts := db.sessions[s].parts;
      var promotion := PromoteFirst(db.disk, s, parts, |PROMOTED|);
      if promotion.ok then (EnterProcessing(db, s, promotion.disk, watermark), Entered(db.nextImage))
      else
        (db.(disk := promotion.disk,
             restores := db.restores + {(s, ListedFirst(db.disk, s, parts, |PROMOTED|))}),
         PromotionFailed)
  }

  /** Complete stops after n promotions without committing: crash, lost connection or error.  The parts
      it listed for compensation may include one whose promotion had no effect. */
  function CompleteInterrupted(db: Db, user: nat, s: nat, n: nat, listed: nat): (r: Db)
    requires n <= |PROMOTED|
    ensures r == db.(disk := r.disk, restores := r.restores)
  {
    if CompleteGuard(db, user, s).Some? then db
    else
      var parts := db.sessions[s].parts;
      db.(disk := PromoteFirst(db.disk, s, parts, n).disk,
          restores := db.restores + {(s, listed)})
  }

  // ----- Compensation of a failed Complete -----

  datatype Restoration = Restoration(disk: Disk, cleanup: seq<Path>)

  /** One iteration of restorePromotedV2Parts. */
  function RestorePart(before: Restoration, s: nat, k: Kind, blob: Blob): Restoration
  {
    var target := Stored(k, blob.hash);
    var source := Staged(s, k);
    if source in before.disk then
      if before.disk[source] == blob then before.(cleanup := before.cleanup + [target]) else before
    else if target in before.disk && before.disk[target] == blob then
      Restoration(before.disk[source := before.disk[target]], before.cleanup + [target])
    else before
  }

  function RestoreFirst(disk: Disk, s: nat, parts: Parts, n: nat): Restoration
    requires n <= |PROMOTED|
    requires forall k :: k in PROMOTED ==> k in parts
  {
    if n == 0 then Restoration(disk, [])
    else RestorePart(RestoreFirst(disk, s, parts, n - 1), s, PROMOTED[n - 1], parts[PROMOTED[n - 1]].blob)
  }

  /** The compensation that a failed Complete of a session owes for its first n parts. */
  function Restore(db: Db, s: nat, n: nat): (r: (Db, seq<Path>))
    requires n <= |PROMOTED|
    ensures r.0 == db.(disk := r.0.disk)
  {
    if s !in db.sessions || !(forall k :: k in PROMOTED ==> k in db.sessions[s].parts) then (db, [])
    else
      var r := RestoreFirst(db.disk, s, db.sessions[s].parts, n);
      (db.(disk := r.disk), r.cleanup)
  }

  // ----- Cancel -----

  function CleanParts(parts: Parts): Parts
  {
    map k | k in parts :: parts[k].(status := Cleaned)
  }

  /** The cancellation transaction; its staging removal follows as CancelSwept or CancelSweepFailed. */
  function Cancel(db: Db, user: nat, s: nat): (r: (Db, bool))
    ensures r.0 == db.(sessions := r.0.sessions, cancels := r.0.cancels)
  {
    if !Owned(db, user, s) then (db, false)
    else
      var session := db.sessions[s];
      if session.status != Initiated && session.status != Uploading then (db, false)
      else
        (db.(sessions := db.sessions[s := session.(status := Cancelled, parts := CleanParts(session.parts))],
             cancels := db.cancels + {s}),
         true)
  }

  function CancelSwept(db: Db, s: nat): (r: Db)
    ensures r == db.(disk := r.disk, cancels := r.cancels)
  {
    if s !in db.cancels then db
    else db.(disk := RemoveStaging(db.disk, s), cancels := db.cancels - {s})
  }

  /** RemoveAll failed: the row is set to cleanup_pending by id alone, whatever its status is now. */
  function CancelSweepFailed(db: Db, s: nat): (r: Db)
    ensures r == db.(sessions := r.sessions, cancels := r.cancels)
  {
    if s !in db.cancels || s !in db.sessions then db
    else
      db.(sessions := db.sessions[s := db.sessions[s].(status := CleanupPending)], cancels := db.cancels - {s})
  }

  // ----- The service -----

  class UploadService {
    const db: Database
    const cfg: Config

    constructor (db: Database, cfg: Config)
      ensures this.db == db && this.cfg == cfg
    {
      this.db, this.cfg := db, cfg;
    }

    method CheckManifest(req: seq<PartManifest>) returns (invalid: Option<InitResult>)
      ensures invalid == ValidateManifest(req, cfg.maxPartBytes)
    {
      if |req| != 4 {
        return Some(BadManifest);
      }
      var seen: set<Kind> := {};
      var n := 0;
      while n < |req|
        invariant 0 <= n <= |req|
        invariant ValidateParts(req, n, cfg.maxPartBytes) == None
        invariant forall k :: k in seen <==> exists j :: 0 <= j < n && req[j].kind == k
      {
        var part := req[n];
        if part.kind in seen || part.kind !in UPLOAD_KINDS {
          FirstInvalid(req, n + 1, cfg.maxPartBytes);
          return Some(BadManifest);
        }
        seen := seen + {part.kind};
        if part.blob.size < MINIMUM_PART_BYTES {
          FirstInvalid(req, n + 1, cfg.maxPartBytes);
          return Some(BadManifest);
        }
        if part.blob.size > cfg.maxPartBytes {
          FirstInvalid(req, n + 1, cfg.maxPartBytes);
          return Some(PartTooLarge);
        }
        n := n + 1;
      }
      return None;
    }

    method BuildParts(req: seq<PartManifest>) returns (reserved: nat, parts: Parts)
      ensures reserved == OUTPUT_RESERVE + TotalSize(req)
      ensures parts == PendingParts(req)
    {
      reserved, parts := OUTPUT_RESERVE, map[];
      var n := 0;
      while n < |req|
        invariant 0 <= n <= |req|
        invariant reserved == OUTPUT_RESERVE + TotalSize(req[..n])
        invariant parts == PendingParts(req[..n])
      {
        assert req[..n + 1][..n] == req[..n];
        reserved := reserved + req[n].blob.size;
        parts := parts[req[n].kind := Part(Pending, req[n].blob)];
        n := n + 1;
      }
      assert req[..n] == req;
    }

    /** The checks inside the transaction. */
    method Admit(user: nat, reserved: nat, seen: Time) returns (refused: Option<InitResult>)
      ensures refused == Refusal(db.View(), cfg, user, reserved, seen)
    {
      if user !in db.users {
        return Some(NoUser);
      }
      if ActiveBelow(db.sessions, db.nextSession, user, seen) >= cfg.maxActiveSessions {
        return Some(SessionLimit);
      }
      var activeReserved := ReservedBelow(db.sessions, db.nextSession, user, seen);
      if db.users[user].used + activeReserved + reserved > db.users[user].quota {
        return Some(QuotaFull);
      }
      refused := None;
    }

    method InitUpload(user: nat, key: string, req: seq<PartManifest>, seen: Time) returns (r: InitResult)
      modifies db
      ensures (db.View(), r) == Init(old(db.View()), cfg, user, key, req, seen)
    {
      hide Refusal;
      var invalid := CheckManifest(req);
      if invalid.Some? {
        return invalid.value;
      }
      if (user, key) in db.keys {
        var id := db.keys[(user, key)];
        if id in db.sessions && db.sessions[id].manifest == req {
          return Existing(id);
        }
        return Conflict;
      }
      var reserved, parts := BuildParts(req);
      var refused := Admit(user, reserved, seen);
      if refused.Some? {
        return refused.value;
      }
      var id := InsertSession(key, Session(user, req, Initiated, seen + cfg.sessionTTL, reserved, true,
                                           None, None, None, false, None, parts));
      r := Created(id);
    }

    method InsertSession(key: string, session: Session) returns (id: nat)
      modifies db
      ensures id == old(db.nextSession)
      ensures db.View() == old(db.View()).(sessions := old(db.sessions)[id := session],
                                           keys := old(db.keys)[(session.owner, key) := id], nextSession := id + 1)
    {
      id := db.nextSession;
      db.sessions := db.sessions[id := session];
      db.keys := db.keys[(session.owner, key) := id];
      db.nextSession := id + 1;
    }

    method Put(user: nat, s: nat, k: Kind, body: Blob) returns (r: PartResult)
      modifies db
      ensures (db.View(), r) == PutPart(old(db.View()), user, s, k, body)
    {
      if s !in db.sessions || db.sessions[s].owner != user {
        return PartMissing;
      }
      var session := db.sessions[s];
      if !(session.expiresAt > db.clock) {
        return PartExpired;
      }
      if session.status != Initiated && session.status != Uploading {
        return PartConflict;
      }
      if k !in session.parts {
        return PartUnknown;
      }
      var part := session.parts[k];
      if part.status == Received || part.status == Finalized {
        return PartAccepted;
      }
      if body != part.blob {
        return PartRejected;
      }
      if part.status != Pending {
        return PartConflict;
      }
      db.disk := db.disk[Staged(s, k) := body];
      session := session.(parts := session.parts[k := part.(status := Received)]);
      db.sessions := db.sessions[s := session.(status := Uploading)];
      r := PartAccepted;
    }

    method Promote(s: nat, k: Kind, blob: Blob) returns (ok: bool)
      modifies db`disk
      ensures Promotion(ok, db.disk) == PromotePart(old(db.disk), s, k, blob)
    {
      var target, source := Stored(k, blob.hash), Staged(s, k);
      if target in db.disk {
        if db.disk[target] != blob {
          return false;
        }
        db.disk := db.disk - {source};
        return true;
      }
      if source !in db.disk {
        return false;
      }
      var content := db.disk[source];
      db.disk := db.disk - {source};
      db.disk := db.disk[target := content];
      ok := true;
    }

    /** The checks of Complete up to its first promotion. */
    method CheckComplete(user: nat, s: nat) returns (refused: Option<CompleteResult>)
      ensures refused == CompleteGuard(db.View(), user, s)
    {
      if s !in db.sessions || db.sessions[s].owner != user {
        return Some(CompleteMissing);
      }
      var session := db.sessions[s];
      match session.status {
        case Processing | Completed => return Some(Already);
        case CleanupPending =>
          if session.image.Some? {
            return Some(Already);
          }
          return Some(CompleteConflict);
        case Failed | Cancelled => return Some(CompleteConflict);
        case Initiated | Uploading =>
      }
      if !(session.expiresAt > db.clock) {
        return Some(CompleteExpired);
      }
      if exists k :: k in UPLOAD_KINDS && (k !in session.parts || session.parts[k].status != Received) {
        return Some(Incomplete);
      }
      refused := None;
    }

    method CompleteUpload(user: nat, s: nat, watermark: bool) returns (r: CompleteResult)
      modifies db
      ensures (db.View(), r) == Complete(old(db.View()), user, s, watermark)
    {
      var refused := CheckComplete(user, s);
      if refused.Some? {
        return refused.value;
      }
      hide CompleteGuard, EnterProcessing;
      GuardOpens(db.View(), user, s);
      var parts := db.sessions[s].parts;
      var ok, listed := PromoteParts(s, parts);
      if !ok {
        db.restores := db.restores + {(s, listed)};
        return PromotionFailed;
      }
      var i := CreateRows(s, watermark);
      r := Entered(i);
    }

    method PromoteParts(s: nat, parts: Parts) returns (ok: bool, listed: nat)
      requires forall k :: k in PROMOTED ==> k in parts
      modifies db`disk
      ensures Promotion(ok, db.disk) == PromoteFirst(old(db.disk), s, parts, |PROMOTED|)
      ensures listed == ListedFirst(old(db.disk), s, parts, |PROMOTED|)
    {
      ok, listed := true, 0;
      while listed < |PROMOTED|
        invariant 0 <= listed <= |PROMOTED| && listed == ListedFirst(old(db.disk), s, parts, listed)
        invariant ok && Promotion(ok, db.disk) == PromoteFirst(old(db.disk), s, parts, listed)
      {
        listed := listed + 1;
        ok := Promote(s, PROMOTED[listed - 1], parts[PROMOTED[listed - 1]].blob);
        if !ok {
          FailureStops(old(db.disk), s, parts, listed, |PROMOTED|);
          return;
        }
      }
    }

    method CreateRows(s: nat, watermark: bool) returns (i: nat)
      requires s in db.sessions && forall k :: k in UPLOAD_KINDS ==> k in db.sessions[s].parts
      modifies db
      ensures i == old(db.nextImage) && db.View() == EnterProcessing(old(db.View()), s, old(db.disk), watermark)
    {
      var session := db.sessions[s];
      i := db.nextImage;
      CountFileReference(session.parts);
      var variants := CreateVariants(s, session.parts);
      db.images := db.images[i := Image(session.owner, session.parts[Master].blob.hash, ImageProcessing, variants)];
      db.nextImage := i + 1;
      db.jobs := db.jobs[i := Job(s, Some(i), Queued, 0, 5, db.clock, None, None, watermark)];
      db.sessions := db.sessions[s := session.(status := Processing, image := Some(i),
                                               parts := FinalizeParts(session.parts))];
    }

    method CountFileReference(parts: Parts)
      requires forall k :: k in PROMOTED ==> k in parts
      modifies db`files
      ensures db.files == AddReference(old(db.files), parts)
    {
      var h := parts[Master].blob.hash;
      if h !in db.files {
        db.files := db.files[h := ImageFile(Stored(Master, h), Stored(Gallery, parts[Gallery].blob.hash), 1)];
      } else {
        db.files := db.files[h := db.files[h].(references := db.files[h].references + 1)];
      }
    }

    method CreateVariants(s: nat, parts: Parts) returns (variants: Variants)
      requires forall k :: k in UPLOAD_KINDS ==> k in parts
      ensures variants == ProcessingVariants(s, parts)
    {
      variants := map[];
      var n := 0;
      while n < |PROMOTED|
        invariant 0 <= n <= |PROMOTED|
        invariant variants == map k | k in PROMOTED[..n] :: StoredVariant(parts, k)
      {
        var part := parts[PROMOTED[n]];
        variants := variants[PROMOTED[n] := Variant(Stored(PROMOTED[n], part.blob.hash), part.blob.size, true)];
        n := n + 1;
      }
      assert PROMOTED[..n] == PROMOTED == [Master, Gallery, Admin];
      variants := variants[PublishSource := Variant(Staged(s, PublishSource), parts[PublishSource].blob.size, false)];
    }

    method RestorePromoted(s: nat, n: nat) returns (cleanup: seq<Path>)
      requires n <= |PROMOTED|
      modifies db`disk
      ensures (db.View(), cleanup) == Restore(old(db.View()), s, n)
    {
      cleanup := [];
      if s !in db.sessions || !(forall k :: k in PROMOTED ==> k in db.sessions[s].parts) {
        return;
      }
      var parts := db.sessions[s].parts;
      var j := 0;
      while j < n
        invariant 0 <= j <= n
        invariant Restoration(db.disk, cleanup) == RestoreFirst(old(db.disk), s, parts, j)
      {
        var blob := parts[PROMOTED[j]].blob;
        var target, source := Stored(PROMOTED[j], blob.hash), Staged(s, PROMOTED[j]);
        if source in db.disk {
          if db.disk[source] == blob {
            cleanup := cleanup + [target];
          }
        } else if target in db.disk && db.disk[target] == blob {
          db.disk := db.disk[source := db.disk[target]];
          cleanup := cleanup + [target];
        }
        j := j + 1;
      }
    }

    method CancelUpload(user: nat, s: nat) returns (ok: bool)
      modifies db
      ensures (db.View(), ok) == Cancel(old(db.View()), user, s)
    {
      if s !in db.sessions || db.sessions[s].owner != user {
        return false;
      }
      var session := db.sessions[s];
      if session.status != Initiated && session.status != Uploading {
        return false;
      }
      session := session.(status := Cancelled);
      session := session.(parts := CleanParts(session.parts));
      db.sessions := db.sessions[s := session];
      db.cancels := db.cancels + {s};
      ok := true;
    }

    /** The end of Cancel, once RemoveAll has returned. */
    method FinishCancel(s: nat, removed: bool)
      requires s in db.cancels && s in db.sessions
      modifies db
      ensures db.View() == if removed then CancelSwept(old(db.View()), s) else CancelSweepFailed(old(db.View()), s)
    {
      if removed {
        db.disk := RemoveStaging(db.disk, s);
      } else {
        db.sessions := db.sessions[s := db.sessions[s].(status := CleanupPending)];
      }
      db.cancels := db.cancels - {s};
    }
  }

  lemma {:induction false} FirstInvalid(req: seq<PartManifest>, n: nat, maxPartBytes: nat)
    requires n <= |req| && ValidateParts(req, n, maxPartBytes).Some?
    ensures ValidateParts(req, |req|, maxPartBytes) == ValidateParts(req, n, maxPartBytes)
    decreases |req| - n
  {
    if n < |req| {
      FirstInvalid(req, n + 1, maxPartBytes);
    }
  }

  lemma {:induction false} FailureStops(disk: Disk, s: nat, parts: Parts, n: nat, m: nat)
    requires n <= m <= |PROMOTED| && forall k :: k in PROMOTED ==> k in parts
    requires !PromoteFirst(disk, s, parts, n).ok
    ensures PromoteFirst(disk, s, parts, m) == PromoteFirst(disk, s, parts, n)
    ensures ListedFirst(disk, s, parts, m) == ListedFirst(disk, s, parts, n)
    decreases m
  {
    if n < m {
      FailureStops(disk, s, parts, n, m - 1);
    }
  }

  // ----- What a valid manifest guarantees -----

  function PartSize(parts: Parts, k: Kind): nat
  {
    if k in parts then parts[k].blob.size else 0
  }

  function PartBytes(parts: Parts): nat
  {
    PartSize(parts, Master) + PartSize(parts, Gallery) + PartSize(parts, Admin) + PartSize(parts, PublishSource) +
    PartSize(parts, Publish)
  }

  lemma {:induction false} ValidPartsAre(req: seq<PartManifest>, n: nat, maxPartBytes: nat)
    requires n <= |req|
    ensures ValidateParts(req, n, maxPartBytes) == None <==>
            (forall j :: 0 <= j < n ==>
               req[j].kind in UPLOAD_KINDS && MINIMUM_PART_BYTES <= req[j].blob.size <= maxPartBytes)
            && DistinctKinds(req[..n])
  {
    if n > 0 {
      ValidPartsAre(req, n - 1, maxPartBytes);
      assert forall j :: 0 <= j < n ==> req[..n][j] == req[j];
      assert forall j :: 0 <= j < n - 1 ==> req[..n - 1][j] == req[j];
    }
  }

  function KindsOf(req: seq<PartManifest>): set<Kind>
  {
    set j | 0 <= j < |req| :: req[j].kind
  }

  lemma KindsOfLast(req: seq<PartManifest>)
    requires |req| > 0
    ensures KindsOf(req) == KindsOf(req[..|req| - 1]) + {req[|req| - 1].kind}
    ensures DistinctKinds(req) ==> DistinctKinds(req[..|req| - 1]) && req[|req| - 1].kind !in KindsOf(req[..|req| - 1])
  {
    var before := req[..|req| - 1];
    forall j | 0 <= j < |req|
      ensures req[j].kind in KindsOf(before) + {req[|req| - 1].kind}
    {
      if j < |before| {
        assert before[j].kind in KindsOf(before);
      }
    }
    forall j | 0 <= j < |before|
      ensures before[j].kind in KindsOf(req)
    {
      assert before[j] == req[j];
    }
  }

  lemma {:induction false} PendingPartsAre(req: seq<PartManifest>)
    requires DistinctKinds(req)
    ensures PendingParts(req).Keys == KindsOf(req) && |KindsOf(req)| == |req|
    ensures forall k :: k in PendingParts(req) ==> PendingParts(req)[k].status == Pending
    ensures PartBytes(PendingParts(req)) == TotalSize(req)
  {
    if |req| > 0 {
      KindsOfLast(req);
      PendingPartsAre(req[..|req| - 1]);
      AddPart(PendingParts(req[..|req| - 1]), req[|req| - 1]);
    }
  }

  lemma AddPart(parts: Parts, last: PartManifest)
    requires last.kind !in parts
    ensures PartBytes(parts[last.kind := Part(Pending, last.blob)]) == PartBytes(parts) + last.blob.size
  {
    var after := parts[last.kind := Part(Pending, last.blob)];
    assert forall k :: k != last.kind ==> PartSize(after, k) == PartSize(parts, k);
  }

  /** validateV2Manifest accepts exactly the manifests that name the four kinds once each with
      sizes in range; Init then reserves the publish output besides exactly their bytes. */
  lemma {:induction false} ManifestCharacterised(req: seq<PartManifest>, maxPartBytes: nat)
    ensures ValidateManifest(req, maxPartBytes) == None <==>
            |req| == 4 && DistinctKinds(req) && KindsOf(req) == UPLOAD_KINDS &&
            forall j :: 0 <= j < |req| ==> MINIMUM_PART_BYTES <= req[j].blob.size <= maxPartBytes
    ensures ValidateManifest(req, maxPartBytes) == None ==>
              PendingParts(req).Keys == UPLOAD_KINDS && TotalSize(req) == PartBytes(PendingParts(req)) &&
              (forall k :: k in UPLOAD_KINDS ==> PendingParts(req)[k].status == Pending)
  {
    ValidPartsAre(req, |req|, maxPartBytes);
    assert req[..|req|] == req;
    forall j | 0 <= j < |req|
      ensures req[j].kind in KindsOf(req)
    {
    }
    if DistinctKinds(req) {
      PendingPartsAre(req);
      if |req| == 4 && KindsOf(req) <= UPLOAD_KINDS {
        SameSize(KindsOf(req), UPLOAD_KINDS);
      }
    }
  }

}
