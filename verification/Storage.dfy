/** Rows against files: every committed master, gallery, admin and publish row has its file, a
    file row counts exactly the images that reference it, and no step removes a stored file or a
    publish target that a row names. */
module Storage {
  import opened Collections
  import opened Rows
  import opened Upload
  import opened Publish
  import opened Accounting
  import Deletion
  import Links
  import P = Pipeline

  // ----- The reference count of a file row -----

  ghost predicate CountOk(db: Db, h: nat)
    requires h in db.files
  {
    && db.files[h].references == ReferencesBelow(db.images, db.nextImage, h) > 0
    && db.files[h].original == Stored(Master, h) && db.files[h].thumbnail.Stored?
  }

  ghost predicate HasFile(db: Db, i: nat)
    requires i in db.images
  {
    db.images[i].file in db.files
  }

  ghost predicate Counted(db: Db)
  {
    && (forall h {:trigger CountOk(db, h)} :: h in db.files ==> CountOk(db, h))
    && (forall i {:trigger HasFile(db, i)} :: i in db.images ==> HasFile(db, i))
  }

  /** Only image i changes. */
  lemma CountChange(a: map<nat, Image>, b: map<nat, Image>, n: nat, m: nat, i: nat, h: nat)
    requires OnlyAt(a, b, i) && i < m && (m == n || (i == n && m == n + 1 && i !in a))
    ensures ReferencesBelow(b, m, h) + ReferenceOf(a, i, h) == ReferencesBelow(a, n, h) + ReferenceOf(b, i, h)
  {
    SumChange(ReferencesTo(a, h), ReferencesTo(b, h), m, i);
  }

  lemma {:induction false} NoReferences(images: map<nat, Image>, n: nat, h: nat)
    requires forall i :: i in images ==> images[i].file != h
    ensures ReferencesBelow(images, n, h) == 0
  {
    if n > 0 {
      NoReferences(images, n - 1, h);
    }
  }

  lemma EnterCounts(db: Db, s: nat, disk: Disk, watermark: bool)
    requires Links.Linked(db) && Counted(db)
    requires s in db.sessions && forall k :: k in UPLOAD_KINDS ==> k in db.sessions[s].parts
    ensures Counted(EnterProcessing(db, s, disk, watermark))
  {
    var db' := EnterProcessing(db, s, disk, watermark);
    var n := db.nextImage;
    assert n in db.images ==> Links.ImageOk(db, n);
    AddCounts(db, db', db.sessions[s].parts[Master].blob.hash);
  }

  lemma AddCounts(db: Db, db': Db, h: nat)
    requires Counted(db) && db.nextImage !in db.images && db'.nextImage == db.nextImage + 1
    requires db.nextImage in db'.images && db'.images == db.images[db.nextImage := db'.images[db.nextImage]]
    requires db'.images[db.nextImage].file == h && h in db'.files && db'.files == db.files[h := db'.files[h]]
    requires db'.files[h].references == (if h in db.files then db.files[h].references + 1 else 1)
    requires h in db.files ==>
               db'.files[h].original == db.files[h].original && db'.files[h].thumbnail == db.files[h].thumbnail
    requires h !in db.files ==> db'.files[h].original == Stored(Master, h) && db'.files[h].thumbnail.Stored?
    ensures Counted(db')
  {
    forall j | j in db'.images ensures HasFile(db', j) { assert j in db.images ==> HasFile(db, j); }
    if h !in db.files {
      forall i | i in db.images
        ensures db.images[i].file != h
      {
        assert HasFile(db, i);
      }
      NoReferences(db.images, db.nextImage, h);
    }
    forall g | g in db'.files
      ensures CountOk(db', g)
    {
      assert g in db.files ==> CountOk(db, g);
      CountChange(db.images, db'.images, db.nextImage, db'.nextImage, db.nextImage, g);
    }
  }

  /** The rows after an image row is dropped, with its file row when that was the last reference. */
  lemma DropCounts(db: Db, db': Db, i: nat)
    requires Links.Linked(db) && Counted(db) && i in db.images
    requires db'.images == db.images - {i} && db'.nextImage == db.nextImage
    requires db'.files == DropReference(db.files, db.images[i].file,
                                        ReferencesBelow(db.images - {i}, db.nextImage, db.images[i].file))
    ensures Counted(db')
  {
    var h := db.images[i].file;
    assert Links.ImageOk(db, i) && HasFile(db, i);
    forall g | g in db'.files
      ensures CountOk(db', g)
    {
      assert CountOk(db, g);
      CountChange(db.images, db'.images, db.nextImage, db.nextImage, i, g);
    }
    forall j | j in db'.images
      ensures HasFile(db', j)
    {
      assert HasFile(db, j) && Links.ImageOk(db, j);
      SumOne(ReferencesTo(db'.images, h), db.nextImage, j);
    }
  }

  lemma SameCounts(db: Db, db': Db)
    requires Counted(db) && db'.nextImage == db.nextImage && db'.files == db.files
    requires SameKeys(db.images, db'.images) && forall i :: i in db.images ==> db'.images[i].file == db.images[i].file
    ensures Counted(db')
  {
    forall h | h in db'.files
      ensures CountOk(db', h)
    {
      assert CountOk(db, h);
      SumAgree(ReferencesTo(db'.images, h), ReferencesTo(db.images, h), db.nextImage);
    }
    forall i | i in db'.images ensures HasFile(db', i) { assert HasFile(db, i); }
  }

  lemma CompleteCounts(db: Db, user: nat, s: nat, watermark: bool)
    requires Links.Linked(db) && Counted(db)
    ensures Counted(Complete(db, user, s, watermark).0)
  {
    if CompleteGuard(db, user, s) == None {
      var promotion := PromoteFirst(db.disk, s, db.sessions[s].parts, |PROMOTED|);
      if promotion.ok {
        EnterCounts(db, s, promotion.disk, watermark);
      } else {
        SameCounts(db, Complete(db, user, s, watermark).0);
      }
    }
  }

  lemma FailCounts(db: Db, t: nat, overQuota: bool)
    requires Links.Linked(db) && Counted(db)
    ensures Counted(Fail(db, t, overQuota).0)
  {
    if Fenced(db.jobs, db.claims, t) {
      var db' := Fail(db, t, overQuota).0;
      var i := db.claims[t].image;
      assert Links.JobOk(db, i);
      if db' != Bury(db, i) {
        SameCounts(db, db');
      } else {
        DropCounts(db, db', i);
      }
    }
  }

  lemma CommitCounts(db: Db, t: nat)
    requires Counted(db) && t in db.claims && db.claims[t].inspected.Some? && db.claims[t].stagingClean.Some?
    ensures Counted(Commit(db, t).0)
  {
    SameCounts(db, Commit(db, t).0);
  }

  lemma DeleteCounts(db: Db, user: nat, isAdmin: bool, i: nat)
    requires Links.Linked(db) && Counted(db)
    ensures Counted(Deletion.DeleteImage(db, user, isAdmin, i).0)
  {
    var db' := Deletion.DeleteImage(db, user, isAdmin, i).0;
    if db' != db {
      DropCounts(db, db', i);
    }
  }

  lemma OtherStepCounts(db: Db, cfg: Config, step: P.Step)
    requires Counted(db) && !step.Complete? && !step.Commit? && !step.Fail? && !step.DeleteImage?
    ensures Counted(P.Apply(db, cfg, step))
  {
    hide P.Apply;
    OtherStepKeepsImages(db, cfg, step);
    SameCounts(db, P.Apply(db, cfg, step));
  }

  lemma EndCounts(db: Db, cfg: Config, step: P.Step)
    requires Links.Linked(db) && Counted(db) && (step.Commit? || step.Fail? || step.DeleteImage?) &&
             P.Possible(db, step)
    ensures Counted(P.Apply(db, cfg, step))
  {
    hide P.Apply, Counted, Links.Linked;
    P.EndApplied(db, cfg, step);
    match step
    case Commit(t) => CommitCounts(db, t);
    case Fail(t, overQuota) => FailCounts(db, t, overQuota);
    case DeleteImage(user, isAdmin, i) => DeleteCounts(db, user, isAdmin, i);
  }

  lemma StepCounts(db: Db, cfg: Config, step: P.Step)
    requires Links.Linked(db) && Counted(db)
    ensures Counted(P.Apply(db, cfg, step))
  {
    hide P.Apply, Counted, Links.Linked;
    if !P.Possible(db, step) {
      P.Impossible(db, cfg, step);
    } else if step.Complete? {
      P.UploadApplied(db, cfg, step);
      CompleteCounts(db, step.user, step.session, step.watermark);
    } else if step.Commit? || step.Fail? || step.DeleteImage? {
      EndCounts(db, cfg, step);
    } else {
      OtherStepCounts(db, cfg, step);
    }
  }
}
