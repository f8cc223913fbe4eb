/** Every interleaving of the pipeline: a step is one transaction, one filesystem action of a
    request or worker, or the passing of time, and a run is any sequence of steps.  A crash is
    the absence of the steps that would have followed. */
module Pipeline {
  import opened Collections
  import opened Rows
  import Upload
  import Publish
  import Deletion
  import Sweeping

  datatype Step =
    | Tick(elapsed: nat)
    | Init(user: nat, key: string, req: seq<PartManifest>, seen: Time)
    | PutPart(user: nat, session: nat, kind: Kind, body: Blob)
    | PutPartRolledBack(user: nat, session: nat, kind: Kind, body: Blob)
    | Complete(user: nat, session: nat, watermark: bool)
    | CompleteInterrupted(user: nat, session: nat, promoted: nat, listed: nat)
    | Restore(session: nat, listed: nat)
    | Cancel(user: nat, session: nat)
    | CancelSwept(session: nat)
    | CancelSweepFailed(session: nat)
    | ClaimJob(image: nat, seen: Time)
    | ClaimExhausted(image: nat, seen: Time)
    | Extend(token: nat)
    | Release(token: nat, panicked: bool)
    | Render(token: nat, output: Rendering)
    | PromoteTarget(token: nat)
    | RemoveRendering(token: nat)
    | Inspect(token: nat)
    | RemoveSource(token: nat)
    | TrySweepStaging(token: nat, clean: bool)
    | Commit(token: nat)
    | Fail(token: nat, overQuota: bool)
    | DeleteImage(user: nat, isAdmin: bool, image: nat)
    | CleanupFiles(paths: seq<Path>)
    | Deliver(event: nat, count: nat, acknowledged: bool)
    | List(session: nat)
    | ClaimSweep(sweep: nat, seen: Time)
    | Decide(sweep: nat)
    | RemoveFiles(sweep: nat)
    | Finish(sweep: nat, at: Time)
    | CleanOrphan(session: nat)

  /** What the surroundings guarantee: a clock that was read is not ahead of the clock, and the
      immediate cleanup is given stored paths by a failed Complete, or the paths that a dead job just queued. */
  predicate Possible(db: Db, step: Step)
  {
    match step
    case Init(_, _, _, seen) => seen <= db.clock
    case CompleteInterrupted(_, _, promoted, listed) => promoted <= listed <= promoted + 1 && listed <= |PROMOTED|
    case Restore(s, listed) => listed <= |PROMOTED| && (s, listed) in db.restores
    case ClaimJob(_, seen) => seen <= db.clock
    case ClaimExhausted(_, seen) => seen <= db.clock
    case Commit(t) => t in db.claims && db.claims[t].inspected.Some? && db.claims[t].stagingClean.Some?
    case CleanupFiles(paths) => (forall p :: p in paths ==> p.Stored?) ||
      (exists e :: 0 <= e < |db.events| && db.events[e].paths == paths)
    case ClaimSweep(_, seen) => seen <= db.clock
    case _ => true
  }

  // ----- The steps by what they touch -----

  /** The filesystem, what a worker remembers, and the outbox. */
  predicate FileStep(step: Step)
  {
    step.Tick? || step.PutPartRolledBack? || step.CompleteInterrupted? || step.Restore? || step.Render? ||
    step.PromoteTarget? || step.RemoveRendering? || step.Inspect? || step.RemoveSource? || step.TrySweepStaging? ||
    step.CleanupFiles? || step.Deliver?
  }

  function ApplyFile(db: Db, step: Step): Db
    requires FileStep(step) && Possible(db, step)
  {
    match step
    case Tick(elapsed) => db.(clock := db.clock + elapsed)
    case PutPartRolledBack(user, s, k, body) => Upload.PutPartRolledBack(db, user, s, k, body)
    case CompleteInterrupted(user, s, promoted, listed) => Upload.CompleteInterrupted(db, user, s, promoted, listed)
    case Restore(s, listed) => Upload.Restore(db, s, listed).0
    case Render(t, output) => Publish.Render(db, t, output)
    case PromoteTarget(t) => Publish.PromoteTarget(db, t).0
    case RemoveRendering(t) => Publish.RemoveRendering(db, t)
    case Inspect(t) => Publish.Inspect(db, t)
    case RemoveSource(t) => Publish.RemoveSource(db, t)
    case TrySweepStaging(t, clean) => Publish.TrySweepStaging(db, t, clean)
    case CleanupFiles(paths) => Deletion.CleanupFiles(db, paths)
    case Deliver(e, n, acknowledged) => Deletion.Deliver(db, e, n, acknowledged)
  }

  /** The leases of the publish jobs. */
  predicate LeaseStep(step: Step)
  {
    step.ClaimJob? || step.ClaimExhausted? || step.Extend? || step.Release?
  }

  function ApplyLease(db: Db, cfg: Config, step: Step): Db
    requires LeaseStep(step)
  {
    match step
    case ClaimJob(i, seen) => Publish.ClaimJob(db, cfg, i, seen).0
    case ClaimExhausted(i, seen) => Publish.ClaimExhausted(db, cfg, i, seen).0
    case Extend(t) => Publish.Extend(db, cfg, t)
    case Release(t, panicked) => Publish.Release(db, t, panicked)
  }

  /** The requests of a client. */
  predicate UploadStep(step: Step)
  {
    step.Init? || step.PutPart? || step.Complete? || step.Cancel? || step.CancelSwept? || step.CancelSweepFailed?
  }

  function ApplyUpload(db: Db, cfg: Config, step: Step): Db
    requires UploadStep(step)
  {
    match step
    case Init(user, key, req, seen) => Upload.Init(db, cfg, user, key, req, seen).0
    case PutPart(user, s, k, body) => Upload.PutPart(db, user, s, k, body).0
    case Complete(user, s, watermark) => Upload.Complete(db, user, s, watermark).0
    case Cancel(user, s) => Upload.Cancel(db, user, s).0
    case CancelSwept(s) => Upload.CancelSwept(db, s)
    case CancelSweepFailed(s) => Upload.CancelSweepFailed(db, s)
  }

  /** What a cleanup worker does without touching a row. */
  predicate SweepStep(step: Step)
  {
    step.List? || step.Decide? || step.RemoveFiles? || step.CleanOrphan?
  }

  function ApplySweep(db: Db, step: Step): Db
    requires SweepStep(step)
  {
    match step
    case List(s) => Sweeping.List(db, s)
    case Decide(n) => Sweeping.Decide(db, n)
    case RemoveFiles(n) => Sweeping.RemoveFiles(db, n)
    case CleanOrphan(s) => Sweeping.CleanOrphan(db, s)
  }

  /** The transactions that end jobs, images and cleanups. */
  predicate EndStep(step: Step)
  {
    step.Commit? || step.Fail? || step.DeleteImage? || step.ClaimSweep? || step.Finish?
  }

  function ApplyEnd(db: Db, step: Step): Db
    requires EndStep(step) && Possible(db, step)
  {
    match step
    case Commit(t) => Publish.Commit(db, t).0
    case Fail(t, overQuota) => Publish.Fail(db, t, overQuota).0
    case DeleteImage(user, isAdmin, i) => Deletion.DeleteImage(db, user, isAdmin, i).0
    case ClaimSweep(n, seen) => Sweeping.ClaimSweep(db, n, seen).0
    case Finish(n, at) => Sweeping.Finish(db, n, at).0
  }

  function Apply(db: Db, cfg: Config, step: Step): Db
  {
    if !Possible(db, step) then db
    else if FileStep(step) then ApplyFile(db, step)
    else if LeaseStep(step) then ApplyLease(db, cfg, step)
    else if UploadStep(step) then ApplyUpload(db, cfg, step)
    else if SweepStep(step) then ApplySweep(db, step)
    else ApplyEnd(db, step)
  }

  lemma Impossible(db: Db, cfg: Config, step: Step)
    requires !Possible(db, step)
    ensures Apply(db, cfg, step) == db
  {
    hide ApplyFile, ApplyLease, ApplyUpload, ApplySweep, ApplyEnd;
  }

  lemma FileApplied(db: Db, cfg: Config, step: Step)
    requires FileStep(step) && Possible(db, step)
    ensures Apply(db, cfg, step) == ApplyFile(db, step)
  {
    hide ApplyFile, ApplyLease, ApplyUpload, ApplySweep, ApplyEnd;
  }

  lemma LeaseApplied(db: Db, cfg: Config, step: Step)
    requires LeaseStep(step) && Possible(db, step)
    ensures Apply(db, cfg, step) == ApplyLease(db, cfg, step)
  {
    hide ApplyFile, ApplyLease, ApplyUpload, ApplySweep, ApplyEnd;
  }

  lemma UploadApplied(db: Db, cfg: Config, step: Step)
    requires UploadStep(step) && Possible(db, step)
    ensures Apply(db, cfg, step) == ApplyUpload(db, cfg, step)
  {
    hide ApplyFile, ApplyLease, ApplyUpload, ApplySweep, ApplyEnd;
  }

  lemma SweepApplied(db: Db, cfg: Config, step: Step)
    requires SweepStep(step) && Possible(db, step)
    ensures Apply(db, cfg, step) == ApplySweep(db, step)
  {
    hide ApplyFile, ApplyLease, ApplyUpload, ApplySweep, ApplyEnd;
  }

  lemma EndApplied(db: Db, cfg: Config, step: Step)
    requires EndStep(step) && Possible(db, step)
    ensures Apply(db, cfg, step) == ApplyEnd(db, step)
  {
    hide ApplyFile, ApplyLease, ApplyUpload, ApplySweep, ApplyEnd;
  }

  function Run(db: Db, cfg: Config, steps: seq<Step>): Db
  {
    if steps == [] then db else Apply(Run(db, cfg, steps[..|steps| - 1]), cfg, steps[|steps| - 1])
  }

  /** Runs compose. */
  lemma {:induction false} RunConcat(db: Db, cfg: Config, a: seq<Step>, b: seq<Step>)
    ensures Run(db, cfg, a + b) == Run(Run(db, cfg, a), cfg, b)
  {
    if b == [] {
      assert a + b == a;
    } else {
      var last := |b| - 1;
      assert (a + b)[..|a + b| - 1] == a + b[..last];
      RunConcat(db, cfg, a, b[..last]);
    }
  }

  lemma RunNone(db: Db, cfg: Config)
    ensures Run(db, cfg, []) == db
  {
  }

  lemma RunOne(db: Db, cfg: Config, step: Step)
    ensures Run(db, cfg, [step]) == Apply(db, cfg, step)
  {
    assert [step][..0] == [];
  }

  lemma RunTwo(db: Db, cfg: Config, a: Step, b: Step)
    ensures Run(db, cfg, [a, b]) == Apply(Apply(db, cfg, a), cfg, b)
  {
    assert [a, b][..1] == [a];
    RunOne(db, cfg, a);
  }

  /** Accounts with a quota and no uploads yet. */
  function Start(quotas: map<nat, nat>): Db
  {
    Db(0, map u | u in quotas :: User(0, 0, quotas[u]), map[], map[], 0, map[], 0, map[], map[], [],
       map[], map[], map[], 0, map[], 0, {}, {})
  }
}
