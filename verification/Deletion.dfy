/** Image deletion and the two ways in which a file leaves the disk: the immediate cleanup after
    a failed Complete or a dead job, and the outbox worker.  Both take the storage lock and ask
    the rows again before every removal. */
module Deletion {
  import opened Rows

  datatype DeleteResult = Deleted(freed: nat) | NotFound | Forbidden | StillProcessing | FileRowMissing

  function FilePaths(files: map<nat, ImageFile>, h: nat): seq<Path>
    requires h in files
  {
    [files[h].original, files[h].thumbnail]
  }

  function RemainingReferences(db: Db, i: nat): nat
    requires i in db.images
  {
    ReferencesBelow(db.images - {i}, db.nextImage, db.images[i].file)
  }

  /** The deletion intents of one image: its variants' paths, and its file's with the last reference. */
  function DeletePaths(db: Db, i: nat): seq<Path>
    requires i in db.images && db.images[i].file in db.files
  {
    VariantPaths(db.images[i].variants) +
    if RemainingReferences(db, i) == 0 then FilePaths(db.files, db.images[i].file) else []
  }

  function Less(value: int, amount: nat): int
  {
    if value - amount > 0 then value - amount else 0
  }

  function Credited(users: map<nat, User>, owner: nat, bytes: nat): map<nat, User>
  {
    if owner !in users then users
    else users[owner := users[owner].(used := Less(users[owner].used, bytes), count := Less(users[owner].count, 1))]
  }

  function Enqueue(events: seq<DeleteEvent>, paths: seq<Path>): seq<DeleteEvent>
  {
    if paths == [] then events else events + [DeleteEvent(paths, false)]
  }

  function DeleteRows(db: Db, i: nat): Db
    requires i in db.images && db.images[i].file in db.files
  {
    var image := db.images[i];
    db.(images := db.images - {i},
        files := DropReference(db.files, image.file, RemainingReferences(db, i)),
        sessions := UnlinkSessions(db.sessions, i),
        jobs := UnlinkJob(db.jobs, i),
        users := Credited(db.users, image.owner, ActiveBytes(image.variants)),
        events := Enqueue(db.events, DeletePaths(db, i)))
  }

  function DeleteImage(db: Db, user: nat, isAdmin: bool, i: nat): (r: (Db, DeleteResult))
    ensures r.0 == db.(images := r.0.images, files := r.0.files, sessions := r.0.sessions, jobs := r.0.jobs,
                       users := r.0.users, events := r.0.events)
  {
    if i !in db.images then (db, NotFound)
    else if db.images[i].owner != user && !isAdmin then (db, Forbidden)
    else if db.images[i].status != ImageCompleted then (db, StillProcessing)
    else if db.images[i].file !in db.files then (db, FileRowMissing)
    else (DeleteRows(db, i), Deleted(ActiveBytes(db.images[i].variants)))
  }

  /** cleanupUnreferencedV2Files */
  function CleanupFiles(db: Db, paths: seq<Path>): (r: Db)
    ensures r == db.(disk := r.disk)
  {
    db.(disk := RemoveUnreferenced(db.images, db.files, db.disk, paths))
  }

  /** One delivery of deletion event e: it removes the first n of its paths, stops there on an
      error or a crash, and the row is published only after a complete run that is acknowledged. */
  function Deliver(db: Db, e: nat, n: nat, acknowledged: bool): (r: Db)
    ensures r == db.(disk := r.disk, events := r.events)
  {
    if e >= |db.events| || db.events[e].published || n > |db.events[e].paths| then db
    else
      var paths := db.events[e].paths;
      var disk := RemoveUnreferenced(db.images, db.files, db.disk, paths[..n]);
      var events := if n == |paths| && acknowledged then Acknowledged(db.events, e) else db.events;
      db.(disk := disk, events := events)
  }

  function Acknowledged(events: seq<DeleteEvent>, e: nat): seq<DeleteEvent>
    requires e < |events|
  {
    events[e := events[e].(published := true)]
  }

  class ImageService {
    const db: Database

    constructor (db: Database)
      ensures this.db == db
    {
      this.db := db;
    }

    method Delete(user: nat, isAdmin: bool, i: nat) returns (r: DeleteResult)
      modifies db
      ensures (db.View(), r) == DeleteImage(old(db.View()), user, isAdmin, i)
    {
      if i !in db.images {
        return NotFound;
      }
      var image := db.images[i];
      if image.owner != user && !isAdmin {
        return Forbidden;
      }
      if image.status != ImageCompleted {
        return StillProcessing;
      }
      if image.file !in db.files {
        return FileRowMissing;
      }
      var freed := DeleteWithRows(i);
      r := Deleted(freed);
    }

    method DeleteWithRows(i: nat) returns (freed: nat)
      requires i in db.images && db.images[i].file in db.files
      modifies db
      ensures db.View() == DeleteRows(old(db.View()), i) && freed == ActiveBytes(old(db.images)[i].variants)
    {
      ghost var was := db.View();
      var image := db.images[i];
      var paths;
      freed, paths := SumVariants(image.variants);
      UnlinkImage(i);
      var more := ReleaseFile(image.file);
      Credit(image.owner, freed);
      assert paths + more == DeletePaths(was, i);
      EnqueuePaths(paths + more);
    }

    method UnlinkImage(i: nat)
      modifies db`images, db`sessions, db`jobs
      ensures db.images == old(db.images) - {i}
      ensures db.sessions == UnlinkSessions(old(db.sessions), i) && db.jobs == UnlinkJob(old(db.jobs), i)
      ensures db.View() == old(db.View()).(images := db.images, sessions := db.sessions, jobs := db.jobs)
    {
      db.images := db.images - {i};
      db.sessions := UnlinkSessions(db.sessions, i);
      db.jobs := UnlinkJob(db.jobs, i);
    }

    method EnqueuePaths(paths: seq<Path>)
      modifies db`events
      ensures db.events == Enqueue(old(db.events), paths) && db.View() == old(db.View()).(events := db.events)
    {
      if paths != [] {
        db.events := db.events + [DeleteEvent(paths, false)];
      }
    }

    method SumVariants(variants: Variants) returns (bytes: nat, paths: seq<Path>)
      ensures bytes == ActiveBytes(variants) && paths == VariantPaths(variants)
    {
      bytes, paths := 0, [];
      var n := 0;
      while n < |ALL_KINDS|
        invariant 0 <= n <= |ALL_KINDS|
        invariant bytes == BytesOfFirst(variants, n) && paths == PathsOfFirst(variants, n)
      {
        var k := ALL_KINDS[n];
        if k in variants {
          if variants[k].active {
            bytes := bytes + variants[k].size;
          }
          paths := paths + [variants[k].path];
        }
        n := n + 1;
      }
      BytesOfAll(variants);
    }

    method ReleaseFile(h: nat) returns (paths: seq<Path>)
      requires h in db.files
      modifies db`files
      ensures db.files == DropReference(old(db.files), h, ReferencesBelow(db.images, db.nextImage, h))
      ensures db.View() == old(db.View()).(files := db.files)
      ensures paths == if ReferencesBelow(db.images, db.nextImage, h) == 0 then FilePaths(old(db.files), h) else []
    {
      var remaining := ReferencesBelow(db.images, db.nextImage, h);
      if remaining == 0 {
        paths := [db.files[h].original, db.files[h].thumbnail];
        db.files := db.files - {h};
      } else {
        paths := [];
        db.files := db.files[h := db.files[h].(references := remaining)];
      }
    }

    method Credit(owner: nat, bytes: nat)
      modifies db`users
      ensures db.users == Credited(old(db.users), owner, bytes) && db.View() == old(db.View()).(users := db.users)
    {
      if owner in db.users {
        var user := db.users[owner];
        user := user.(used := if user.used - bytes > 0 then user.used - bytes else 0);
        user := user.(count := if user.count - 1 > 0 then user.count - 1 else 0);
        db.users := db.users[owner := user];
      }
    }

    /** The loop of both deletion paths; a repeated path is skipped. */
    method RemovePaths(paths: seq<Path>)
      modifies db`disk
      ensures db.disk == RemoveUnreferenced(db.images, db.files, old(db.disk), paths)
    {
      var seen: set<Path> := {};
      var n := 0;
      while n < |paths|
        invariant 0 <= n <= |paths|
        invariant db.disk == RemoveUnreferenced(db.images, db.files, old(db.disk), paths[..n])
        invariant forall p :: p in seen <==> p in paths[..n]
      {
        assert paths[..n + 1][..n] == paths[..n];
        var p := paths[n];
        if p in seen {
          Survivors(db.images, db.files, old(db.disk), paths[..n]);
        } else {
          seen := seen + {p};
          if !Referenced(db.images, db.files, p) {
            db.disk := db.disk - {p};
          }
        }
        n := n + 1;
      }
      assert paths[..n] == paths;
    }

    method DeliverDeletion(e: nat, n: nat, acknowledged: bool)
      modifies db
      ensures db.View() == Deliver(old(db.View()), e, n, acknowledged)
    {
      if e >= |db.events| || db.events[e].published || n > |db.events[e].paths| {
        return;
      }
      var paths := db.events[e].paths;
      RemovePaths(paths[..n]);
      if n == |paths| && acknowledged {
        db.events := db.events[e := db.events[e].(published := true)];
      }
    }
  }

  /** What both deletion paths leave: exactly the files they were not told about or some row names. */
  lemma {:induction false} Survivors(images: map<nat, Image>, files: map<nat, ImageFile>, disk: Disk, paths: seq<Path>)
    ensures forall p :: p in RemoveUnreferenced(images, files, disk, paths) <==>
              p in disk && (p !in paths || Referenced(images, files, p))
    ensures forall p :: p in RemoveUnreferenced(images, files, disk, paths) ==>
              RemoveUnreferenced(images, files, disk, paths)[p] == disk[p]
  {
    if paths != [] {
      Survivors(images, files, disk, paths[..|paths| - 1]);
      assert paths == paths[..|paths| - 1] + [paths[|paths| - 1]];
    }
  }
}
