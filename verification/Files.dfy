/** Every committed row but the publish source's has its file, and every live job has its publish
    source or its target. */
module Files {
  import opened Collections
  import opened Rows
  import opened Upload
  import opened Publish
  import opened Accounting
  import opened Storage
  import opened Retention
  import Deletion
  import Fencing
  import Links
  import P = Pipeline

  // ----- Rows have their files -----

  ghost predicate ImageOnDisk(db: Db, i: nat)
    requires i in db.images
  {
    var variants := db.images[i].variants;
    forall k :: k in variants && !variants[k].path.Staged? ==>
      variants[k].path in db.disk && db.disk[variants[k].path].size == variants[k].size
  }

  ghost predicate FileOnDisk(db: Db, h: nat)
    requires h in db.files
  {
    db.files[h].original in db.disk && db.files[h].thumbnail in db.disk
  }

  ghost predicate OnDisk(db: Db)
  {
    && (forall i {:trigger ImageOnDisk(db, i)} :: i in db.images ==> ImageOnDisk(db, i))
    && (forall h {:trigger FileOnDisk(db, h)} :: h in db.files ==> FileOnDisk(db, h))
  }

  /** The rows that a step leaves alone keep their files. */
  lemma ImageStaysOnDisk(db: Db, db': Db, i: nat)
    requires Retains(db, db'.disk) && i in db.images && i in db'.images &&
             db'.images[i].variants == db.images[i].variants
    requires ImageOnDisk(db, i)
    ensures ImageOnDisk(db', i)
  {
    var variants := db.images[i].variants;
    forall k | k in variants && !variants[k].path.Staged?
      ensures variants[k].path in db'.disk && db'.disk[variants[k].path].size == variants[k].size
    {
      assert NamedBy(variants, variants[k].path);
    }
  }

  lemma FileStaysOnDisk(db: Db, db': Db, h: nat)
    requires Retains(db, db'.disk) && h in db.files && CountOk(db, h) && FileOnDisk(db, h)
    requires h in db'.files && db'.files[h].original == db.files[h].original &&
             db'.files[h].thumbnail == db.files[h].thumbnail
    ensures FileOnDisk(db', h)
  {
    assert Referenced(db.images, db.files, db.files[h].original) &&
           Referenced(db.images, db.files, db.files[h].thumbnail);
  }

  lemma OnDiskStep(db: Db, db': Db)
    requires OnDisk(db) && Counted(db) && Retains(db, db'.disk)
    requires forall i :: i in db'.images ==>
               (i in db.images && db'.images[i].variants == db.images[i].variants) || ImageOnDisk(db', i)
    requires forall h :: h in db'.files ==>
               (h in db.files && db'.files[h].original == db.files[h].original &&
                db'.files[h].thumbnail == db.files[h].thumbnail) ||
               FileOnDisk(db', h)
    ensures OnDisk(db')
  {
    forall i | i in db'.images
      ensures ImageOnDisk(db', i)
    {
      if i in db.images && db'.images[i].variants == db.images[i].variants {
        assert ImageOnDisk(db, i);
        ImageStaysOnDisk(db, db', i);
      }
    }
    forall h | h in db'.files
      ensures FileOnDisk(db', h)
    {
      if h in db.files && db'.files[h].original == db.files[h].original &&
        db'.files[h].thumbnail == db.files[h].thumbnail {
        assert FileOnDisk(db, h) && CountOk(db, h);
        FileStaysOnDisk(db, db', h);
      }
    }
  }

  /** A successful promotion puts every part in its place. */
  lemma {:induction false} PromotionPlaces(db: Db, s: nat, parts: Parts, n: nat)
    requires Contents(db) && n <= |PROMOTED| && s in db.sessions && parts == db.sessions[s].parts
    requires forall k :: k in PROMOTED ==> k in parts
    requires PromoteFirst(db.disk, s, parts, n).ok
    ensures var disk := PromoteFirst(db.disk, s, parts, n).disk;
            forall j: nat :: j < n ==> var target := Stored(PROMOTED[j], parts[PROMOTED[j]].blob.hash);
              target in disk && disk[target] == parts[PROMOTED[j]].blob
  {
    if n > 0 {
      PromotionPlaces(db, s, parts, n - 1);
      PromotionContents(db, s, parts, n - 1);
      var before := PromoteFirst(db.disk, s, parts, n - 1);
      var source := Staged(s, PROMOTED[n - 1]);
      if source in before.disk && source in db.disk && before.disk[source] == db.disk[source] {
        assert FileOk(db, source);
      }
    }
  }

  /** The promoted parts in their places. */
  ghost predicate Placed(disk: Disk, parts: Parts)
    requires forall k :: k in UPLOAD_KINDS ==> k in parts
  {
    forall k :: k in PROMOTED ==>
      Stored(k, parts[k].blob.hash) in disk && disk[Stored(k, parts[k].blob.hash)] == parts[k].blob
  }

  lemma EnterOnDisk(db: Db, s: nat, disk: Disk, watermark: bool)
    requires Links.Linked(db) && OnDisk(db) && Counted(db) && Retains(db, disk) && s in db.sessions
    requires (forall k :: k in UPLOAD_KINDS ==> k in db.sessions[s].parts) && Placed(disk, db.sessions[s].parts)
    ensures OnDisk(EnterProcessing(db, s, disk, watermark))
  {
    var db' := EnterProcessing(db, s, disk, watermark);
    NewImageOnDisk(db', db.nextImage, s, db.sessions[s].parts);
    NewFileOnDisk(db, db', db.sessions[s].parts);
    OnDiskStep(db, db');
  }

  lemma NewImageOnDisk(db: Db, i: nat, s: nat, parts: Parts)
    requires forall k :: k in UPLOAD_KINDS ==> k in parts
    requires Placed(db.disk, parts) && i in db.images && db.images[i].variants == ProcessingVariants(s, parts)
    ensures ImageOnDisk(db, i)
  {
    var variants := db.images[i].variants;
    forall k | k in variants && !variants[k].path.Staged?
      ensures variants[k].path in db.disk && db.disk[variants[k].path].size == variants[k].size
    {
      assert k in PROMOTED;
    }
  }

  lemma NewFileOnDisk(db: Db, db': Db, parts: Parts)
    requires forall k :: k in UPLOAD_KINDS ==> k in parts
    requires OnDisk(db) && Counted(db) && Retains(db, db'.disk) && Placed(db'.disk, parts) &&
             db'.files == AddReference(db.files, parts)
    ensures FileOnDisk(db', parts[Master].blob.hash)
  {
    var h := parts[Master].blob.hash;
    if h in db.files {
      assert FileOnDisk(db, h) && CountOk(db, h);
      FileStaysOnDisk(db, db', h);
    } else {
      assert Master in PROMOTED && Gallery in PROMOTED;
    }
  }

  lemma CompleteOnDisk(db: Db, user: nat, s: nat, watermark: bool)
    requires Links.Linked(db) && Contents(db) && OnDisk(db) && Counted(db)
    ensures OnDisk(Complete(db, user, s, watermark).0)
  {
    hide Retains, OnDisk, Counted, Links.Linked, Contents, Complete;
    var r := Complete(db, user, s, watermark);
    CompleteRetains(db, user, s, watermark);
    RefusedRows(db, user, s, watermark);
    if r.1.Entered? {
      EnteredPlaced(db, user, s, watermark);
      EnterOnDisk(db, s, r.0.disk, watermark);
    } else {
      RefusedOnDisk(db, r.0);
    }
  }

  lemma EnteredPlaced(db: Db, user: nat, s: nat, watermark: bool)
    requires Links.Linked(db) && Contents(db) && Complete(db, user, s, watermark).1.Entered?
    ensures s in db.sessions && (forall k :: k in UPLOAD_KINDS ==> k in db.sessions[s].parts) &&
            var r := Complete(db, user, s, watermark).0;
            r == EnterProcessing(db, s, r.disk, watermark) && Placed(r.disk, db.sessions[s].parts)
  {
    assert Links.SessionOk(db, s);
    PromotedPlaced(db, s);
  }

  lemma RefusedRows(db: Db, user: nat, s: nat, watermark: bool)
    ensures var r := Complete(db, user, s, watermark);
            !r.1.Entered? ==> r.0.images == db.images && r.0.files == db.files
  {
    hide PromoteFirst, ListedFirst;
  }

  lemma RefusedOnDisk(db: Db, db': Db)
    requires OnDisk(db) && Counted(db) && Retains(db, db'.disk) && db'.images == db.images && db'.files == db.files
    ensures OnDisk(db')
  {
    OnDiskStep(db, db');
  }

  lemma PromotedPlaced(db: Db, s: nat)
    requires Contents(db) && s in db.sessions
    requires forall k :: k in UPLOAD_KINDS ==> k in db.sessions[s].parts
    requires PromoteFirst(db.disk, s, db.sessions[s].parts, |PROMOTED|).ok
    ensures Placed(PromoteFirst(db.disk, s, db.sessions[s].parts, |PROMOTED|).disk, db.sessions[s].parts)
  {
    PromotionPlaces(db, s, db.sessions[s].parts, |PROMOTED|);
    assert PROMOTED[0] == Master && PROMOTED[1] == Gallery && PROMOTED[2] == Admin;
  }

  // ----- What a worker read still stands -----

  ghost predicate Stands(db: Db, t: nat)
    requires t in db.claims
  {
    var claim := db.claims[t];
    claim.inspected.Some? && LiveJob(db.jobs, claim.image) ==>
      PublishTarget(claim.image) in db.disk && db.disk[PublishTarget(claim.image)] == claim.inspected.value
  }

  ghost predicate Readings(db: Db)
  {
    forall t {:trigger Stands(db, t)} :: t in db.claims ==> Stands(db, t)
  }

  lemma ReadingsStep(db: Db, db': Db)
    requires Readings(db) && Fencing.Leased(db) && Fencing.Progress(db, db') && Retains(db, db'.disk)
    requires forall t :: t in db'.claims && db'.claims[t].inspected.Some? ==>
               (t in db.claims && db'.claims[t].image == db.claims[t].image &&
                db'.claims[t].inspected == db.claims[t].inspected) ||
               Stands(db', t)
    ensures Readings(db')
  {
    forall t | t in db'.claims
      ensures Stands(db', t)
    {
      if t in db.claims && db'.claims[t].image == db.claims[t].image &&
        db'.claims[t].inspected == db.claims[t].inspected {
        assert Stands(db, t) && Fencing.ClaimOk(db, t);
        assert Fencing.JobNext(db.jobs, db'.jobs, db.nextToken, db.claims[t].image);
      }
    }
  }

  lemma OtherStepKeepsReadings(db: Db, cfg: Config, step: P.Step)
    requires !step.Inspect?
    ensures var db' := P.Apply(db, cfg, step);
            forall t :: t in db'.claims && db'.claims[t].inspected.Some? ==>
              t in db.claims && db'.claims[t].image == db.claims[t].image &&
              db'.claims[t].inspected == db.claims[t].inspected
  {
    hide P.Apply;
    if P.SweepStep(step) {
      Links.SweepStepRows(db, cfg, step);
    } else if P.UploadStep(step) {
      Links.UploadStepRows(db, cfg, step);
    } else if P.EndStep(step) {
      Links.EndStepRows(db, cfg, step);
    } else if P.LeaseStep(step) {
      Links.LeaseStepClaims(db, cfg, step);
    } else if !step.TrySweepStaging? {
      Links.FileStepRows(db, cfg, step);
    } else if P.Possible(db, step) {
      P.FileApplied(db, cfg, step);
    } else {
      P.Impossible(db, cfg, step);
    }
  }

  lemma InspectStands(db: Db, t: nat)
    ensures var db' := Inspect(db, t);
            forall u :: u in db'.claims && db'.claims[u].inspected.Some? ==>
              (u in db.claims && db'.claims[u].image == db.claims[u].image &&
               db'.claims[u].inspected == db.claims[u].inspected) ||
              Stands(db', u)
  {
  }

  lemma StepKeepsReadings(db: Db, cfg: Config, step: P.Step)
    requires Links.Linked(db) && Fencing.Leased(db) && Intents(db) && Readings(db)
    ensures Readings(P.Apply(db, cfg, step))
  {
    hide P.Apply, Readings;
    StepRetains(db, cfg, step);
    Fencing.StepProgress(db, cfg, step);
    if !step.Inspect? {
      OtherStepKeepsReadings(db, cfg, step);
      ReadingsStep(db, P.Apply(db, cfg, step));
    } else if P.Possible(db, step) {
      P.FileApplied(db, cfg, step);
      InspectStands(db, step.token);
      ReadingsStep(db, P.Apply(db, cfg, step));
    } else {
      P.Impossible(db, cfg, step);
    }
  }

  lemma PublishedOnDisk(db: Db, db': Db, i: nat, blob: Blob)
    requires i in db.images && ImageOnDisk(db, i) && db'.disk == db.disk
    requires PublishTarget(i) in db.disk && db.disk[PublishTarget(i)] == blob
    requires i in db'.images && db'.images[i].variants == PublishedVariants(db.images[i].variants, i, blob)
    ensures ImageOnDisk(db', i)
  {
  }

  lemma CommitOnDisk(db: Db, t: nat)
    requires Links.Linked(db) && OnDisk(db) && Counted(db) && Readings(db)
    requires t in db.claims && db.claims[t].inspected.Some? && db.claims[t].stagingClean.Some?
    ensures OnDisk(Commit(db, t).0)
  {
    hide Commit;
    CommitImages(db, t);
    var db' := Commit(db, t).0;
    if Commit(db, t).1 == Published {
      var i := db.claims[t].image;
      assert ImageOnDisk(db, i) && Stands(db, t) && Links.JobOk(db, i);
      PublishedOnDisk(db, db', i, db.claims[t].inspected.value);
      OnDiskStep(db, db');
    }
  }

  lemma DropOnDisk(db: Db, db': Db, i: nat)
    requires OnDisk(db) && Counted(db) && i in db.images && db'.disk == db.disk && db'.images == db.images - {i}
    requires db'.files == DropReference(db.files, db.images[i].file,
                                        ReferencesBelow(db.images - {i}, db.nextImage, db.images[i].file))
    ensures OnDisk(db')
  {
    OnDiskStep(db, db');
  }

  lemma FailOnDisk(db: Db, t: nat, overQuota: bool)
    requires Links.Linked(db) && OnDisk(db) && Counted(db)
    ensures OnDisk(Fail(db, t, overQuota).0)
  {
    if Fenced(db.jobs, db.claims, t) {
      var i := db.claims[t].image;
      assert Links.JobOk(db, i);
      if Fail(db, t, overQuota).0 == Bury(db, i) {
        DropOnDisk(db, Bury(db, i), i);
      } else {
        OnDiskStep(db, Fail(db, t, overQuota).0);
      }
    }
  }

  lemma DeleteOnDisk(db: Db, user: nat, isAdmin: bool, i: nat)
    requires OnDisk(db) && Counted(db)
    ensures OnDisk(Deletion.DeleteImage(db, user, isAdmin, i).0)
  {
    var db' := Deletion.DeleteImage(db, user, isAdmin, i).0;
    if db' != db {
      DropOnDisk(db, db', i);
    }
  }

  lemma OtherStepOnDisk(db: Db, cfg: Config, step: P.Step)
    requires OnDisk(db) && Counted(db) && Intents(db)
    requires !step.Complete? && !step.Commit? && !step.Fail? && !step.DeleteImage?
    ensures OnDisk(P.Apply(db, cfg, step))
  {
    hide P.Apply;
    OtherStepKeepsImages(db, cfg, step);
    StepRetains(db, cfg, step);
    OnDiskStep(db, P.Apply(db, cfg, step));
  }

  lemma EndOnDisk(db: Db, cfg: Config, step: P.Step)
    requires Links.Linked(db) && OnDisk(db) && Counted(db) && Readings(db)
    requires (step.Commit? || step.Fail? || step.DeleteImage?) && P.Possible(db, step)
    ensures OnDisk(P.Apply(db, cfg, step))
  {
    hide P.Apply, OnDisk, Links.Linked, Counted, Readings;
    P.EndApplied(db, cfg, step);
    match step
    case Commit(t) => CommitOnDisk(db, t);
    case Fail(t, overQuota) => FailOnDisk(db, t, overQuota);
    case DeleteImage(user, isAdmin, i) => DeleteOnDisk(db, user, isAdmin, i);
  }

  lemma StepKeepsFiles(db: Db, cfg: Config, step: P.Step)
    requires Links.Linked(db) && Contents(db) && OnDisk(db) && Counted(db) && Intents(db) && Readings(db)
    ensures OnDisk(P.Apply(db, cfg, step))
  {
    hide P.Apply, OnDisk, Links.Linked, Contents, Counted, Intents, Readings;
    if !P.Possible(db, step) {
      P.Impossible(db, cfg, step);
    } else if step.Complete? {
      P.UploadApplied(db, cfg, step);
      CompleteOnDisk(db, step.user, step.session, step.watermark);
    } else if step.Commit? || step.Fail? || step.DeleteImage? {
      EndOnDisk(db, cfg, step);
    } else {
      OtherStepOnDisk(db, cfg, step);
    }
  }
}
