/** The cleanup worker: it lists a session, claims it by a conditional update, decides the status
    that the session shall end in, removes its staging and finishes.  A worker can stop after any
    of these steps and another one starts over from the row. */
module Sweeping {
  import opened Collections
  import opened Rows

  const RETRY_INTERVAL: nat := 60

  function List(db: Db, s: nat): (r: Db)
    ensures r == db.(sweeps := r.sweeps, nextSweep := r.nextSweep)
  {
    if s !in db.sessions then db
    else db.(sweeps := db.sweeps[db.nextSweep := Sweep(s, db.sessions[s], Listed)], nextSweep := db.nextSweep + 1)
  }

  /** The condition under which ClaimCleanup's update matches the row. */
  predicate Claims(session: Session, snapshot: Session, seen: Time)
  {
    session.status == snapshot.status && session.staged &&
    match session.status
    case Initiated => session.expiresAt <= seen
    case Uploading => session.expiresAt <= seen
    case Processing => false
    case Completed => session.cleanupAfter == None || session.cleanupAfter.value <= seen
    case Failed => session.cleanupAfter == None || session.cleanupAfter.value <= seen
    case Cancelled => session.cleanupAfter == None || session.cleanupAfter.value <= seen
    case CleanupPending => session.cleanupAfter == None || session.cleanupAfter.value <= seen
  }

  function ClaimSweep(db: Db, n: nat, seen: Time): (r: (Db, bool))
    ensures r.0 == db.(sessions := r.0.sessions, sweeps := r.0.sweeps)
  {
    if n !in db.sweeps || db.sweeps[n].stage != Listed || db.sweeps[n].session !in db.sessions then (db, false)
    else
      var s := db.sweeps[n].session;
      if !Claims(db.sessions[s], db.sweeps[n].snapshot, seen) then (db, false)
      else
        (db.(sessions := db.sessions[s := db.sessions[s].(status := CleanupPending,
                                                          cleanupAfter := Some(seen + RETRY_INTERVAL))],
             sweeps := db.sweeps[n := db.sweeps[n].(stage := Claimed)]),
         true)
  }

  predicate ImageDone(images: map<nat, Image>, image: Option<nat>)
  {
    image.Some? && image.value in images && images[image.value].status == ImageCompleted
  }

  /** cleanupV2FinalStatus */
  function FinalStatus(snapshot: Session, images: map<nat, Image>): SessionStatus
  {
    match snapshot.status
    case Failed => Failed
    case Completed => Completed
    case Cancelled => Cancelled
    case CleanupPending =>
      if ImageDone(images, snapshot.image) then Completed
      else if snapshot.completedAt.Some? then Completed
      else if snapshot.failedAt.Some? || snapshot.errorCode then Failed
      else Cancelled
    case Initiated => Cancelled
    case Uploading => Cancelled
    case Processing => Cancelled
  }

  function Decide(db: Db, n: nat): (r: Db)
    ensures r == db.(sweeps := r.sweeps)
  {
    if n !in db.sweeps || db.sweeps[n].stage != Claimed then db
    else db.(sweeps := db.sweeps[n := db.sweeps[n].(stage := Decided(FinalStatus(db.sweeps[n].snapshot, db.images)))])
  }

  function RemoveFiles(db: Db, n: nat): (r: Db)
    ensures r == db.(disk := r.disk, sweeps := r.sweeps)
  {
    if n !in db.sweeps || !db.sweeps[n].stage.Decided? then db
    else
      db.(disk := RemoveStaging(db.disk, db.sweeps[n].session),
          sweeps := db.sweeps[n := db.sweeps[n].(stage := Removed(db.sweeps[n].stage.final))])
  }

  /** The directory of a session that has no row, which the orphan scan finds by its age; a session row is
      older than its directory, so the row is looked up when the directory is there. */
  function CleanOrphan(db: Db, s: nat): (r: Db)
    ensures r == db.(disk := r.disk)
  {
    if s in db.sessions then db else db.(disk := RemoveStaging(db.disk, s))
  }

  function FinishedSession(session: Session, final: SessionStatus, at: Time): Session
  {
    var parts := map k | k in session.parts :: session.parts[k].(status := Cleaned);
    var done := session.(status := final, cleanupAfter := None, staged := false, parts := parts);
    match final
    case Completed => done.(completedAt := Some(at))
    case Failed => done.(failedAt := Some(at))
    case _ => done
  }

  /** FinishCleanup only touches a row that is still cleanup_pending; the worker is done either way. */
  function Finish(db: Db, n: nat, at: Time): (r: (Db, bool))
    ensures r.0 == db.(sessions := r.0.sessions, sweeps := r.0.sweeps)
    ensures !r.1 ==> r.0.sessions == db.sessions
    ensures r.0.sweeps == db.sweeps || r.0.sweeps == db.sweeps - {n}
  {
    if n !in db.sweeps || !db.sweeps[n].stage.Removed? || db.sweeps[n].session !in db.sessions then (db, false)
    else
      var s := db.sweeps[n].session;
      var rest := db.sweeps - {n};
      if db.sessions[s].status != CleanupPending then (db.(sweeps := rest), false)
      else (db.(sessions := db.sessions[s := FinishedSession(db.sessions[s], db.sweeps[n].stage.last, at)],
                sweeps := rest), true)
  }

  /** cleanupV2Session over a session as it was listed, when nothing interrupts it. */
  function SessionCleaned(db: Db, s: nat, now: Time): (Db, bool)
  {
    var n := db.nextSweep;
    var (claimed, ok) := ClaimSweep(List(db, s), n, now);
    if !ok then (claimed, false) else Finish(RemoveFiles(Decide(claimed, n), n), n, now)
  }

  class Sweeper {
    const db: Database

    constructor (db: Database)
      ensures this.db == db
    {
      this.db := db;
    }

    method ListSession(s: nat)
      modifies db
      ensures db.View() == List(old(db.View()), s)
    {
      if s in db.sessions {
        db.sweeps := db.sweeps[db.nextSweep := Sweep(s, db.sessions[s], Listed)];
        db.nextSweep := db.nextSweep + 1;
      }
    }

    method ClaimCleanup(n: nat, seen: Time) returns (claimed: bool)
      modifies db
      ensures (db.View(), claimed) == ClaimSweep(old(db.View()), n, seen)
    {
      if n !in db.sweeps || db.sweeps[n].stage != Listed || db.sweeps[n].session !in db.sessions {
        return false;
      }
      var sweep := db.sweeps[n];
      var session := db.sessions[sweep.session];
      if session.status != sweep.snapshot.status || !session.staged {
        return false;
      }
      match sweep.snapshot.status {
        case Initiated | Uploading =>
          if session.expiresAt > seen {
            return false;
          }
        case Completed | Failed | Cancelled | CleanupPending =>
          if session.cleanupAfter.Some? && session.cleanupAfter.value > seen {
            return false;
          }
        case Processing => return false;
      }
      session := session.(status := CleanupPending, cleanupAfter := Some(seen + 60));
      db.sessions := db.sessions[sweep.session := session];
      db.sweeps := db.sweeps[n := sweep.(stage := Claimed)];
      claimed := true;
    }

    /** One session of a pass: what the pass listed is claimed and cleaned. */
    method CleanSession(s: nat, now: Time) returns (cleaned: bool)
      requires db.nextSweep !in db.sweeps
      modifies db
      ensures (db.View(), cleaned) == SessionCleaned(old(db.View()), s, now)
    {
      var n := db.nextSweep;
      ListSession(s);
      var claimed := ClaimCleanup(n, now);
      if claimed {
        cleaned := CleanClaimed(n, now);
      } else {
        cleaned := false;
      }
    }

    /** The orphans of a pass: directories without a session row. */
    method CleanOrphans(candidates: seq<nat>)
      modifies db`disk
      ensures forall p :: p in db.disk <==>
                p in old(db.disk) && !(p.Staged? && p.session in candidates && p.session !in db.sessions)
      ensures forall p :: p in db.disk ==> db.disk[p] == old(db.disk)[p]
    {
      var n := 0;
      while n < |candidates|
        invariant 0 <= n <= |candidates|
        invariant forall p :: p in db.disk <==>
                    p in old(db.disk) && !(p.Staged? && p.session in candidates[..n] && p.session !in db.sessions)
        invariant forall p :: p in db.disk ==> db.disk[p] == old(db.disk)[p]
      {
        if candidates[n] !in db.sessions {
          db.disk := RemoveStaging(db.disk, candidates[n]);
        }
        assert candidates[..n + 1] == candidates[..n] + [candidates[n]];
        n := n + 1;
      }
      assert candidates[..n] == candidates;
    }

    /** The rest of cleanupV2Session when nothing interrupts it. */
    method CleanClaimed(n: nat, at: Time) returns (cleaned: bool)
      requires n in db.sweeps && db.sweeps[n].stage == Claimed && db.sweeps[n].session in db.sessions
      modifies db
      ensures (db.View(), cleaned) == Finish(RemoveFiles(Decide(old(db.View()), n), n), n, at)
    {
      var sweep := db.sweeps[n];
      var final := FinalStatus(sweep.snapshot, db.images);
      db.disk := RemoveStaging(db.disk, sweep.session);
      db.sweeps := db.sweeps - {n};
      assert db.sweeps
          == old(db.sweeps)[n := sweep.(stage := Decided(final))][n := sweep.(stage := Removed(final))] - {n};
      var session := db.sessions[sweep.session];
      if session.status != CleanupPending {
        return false;
      }
      db.sessions := db.sessions[sweep.session := FinishedSession(session, final, at)];
      cleaned := true;
    }
  }
}
