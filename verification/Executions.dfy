/** What one worker achieves: an execution that nothing disturbs publishes, and a rendering file stays
    exactly when its worker never comes to move or remove it. */
module Executions {
  import opened Collections
  import opened Rows
  import Deletion
  import Fencing
  import Ledger
  import Links
  import Publish
  import Upload
  import T = Theorems
  import P = Pipeline

  // ----- The execution as a run -----

  function PrepareRun(db: Db, t: nat, output: Rendering): seq<P.Step>
    requires t in db.claims && db.claims[t].image in db.jobs
  {
    if PublishTarget(db.claims[t].image) in db.disk then []
    else if db.jobs[db.claims[t].image].watermark then [P.Render(t, output), P.PromoteTarget(t)]
    else [P.PromoteTarget(t)]
  }

  /** Whether the staging directory can go once the source went. */
  predicate Clean(db: Db, t: nat, clean: bool)
    requires t in db.claims && db.claims[t].image in db.jobs
  {
    var read := Publish.RemoveSource(Publish.Inspect(db, t), t);
    clean && Publish.StagingEmpty(read.disk, db.jobs[db.claims[t].image].session)
  }

  function TidyRun(db: Db, t: nat, clean: bool): seq<P.Step>
    requires t in db.claims && db.claims[t].image in db.jobs
  {
    [P.Inspect(t), P.RemoveSource(t)] + [P.TrySweepStaging(t, Clean(db, t, clean))]
  }

  function DiscardRun(db: Db, t: nat): seq<P.Step>
    requires t in db.claims && db.claims[t].image in db.jobs
  {
    if PublishTarget(db.claims[t].image) !in db.disk && db.jobs[db.claims[t].image].watermark
    then [P.RemoveRendering(t)] else []
  }

  lemma PrepareRuns(db: Db, cfg: Config, t: nat, output: Rendering)
    requires t in db.claims && db.claims[t].image in db.jobs
    ensures P.Run(db, cfg, PrepareRun(db, t, output)) == Publish.Prepared(db, t, output).0
  {
    hide P.Apply, P.Run, Publish.PromoteTarget;
    var rendered := Publish.Render(db, t, output);
    if PublishTarget(db.claims[t].image) in db.disk {
      P.RunNone(db, cfg);
    } else if db.jobs[db.claims[t].image].watermark {
      P.RunTwo(db, cfg, P.Render(t, output), P.PromoteTarget(t));
      P.FileApplied(db, cfg, P.Render(t, output));
      P.FileApplied(rendered, cfg, P.PromoteTarget(t));
    } else {
      P.RunOne(db, cfg, P.PromoteTarget(t));
      P.FileApplied(db, cfg, P.PromoteTarget(t));
    }
  }

  lemma TidyRuns(db: Db, cfg: Config, t: nat, clean: bool)
    requires t in db.claims && db.claims[t].image in db.jobs
    ensures P.Run(db, cfg, TidyRun(db, t, clean)) == Publish.Tidied(db, t, clean)
  {
    hide P.Apply, P.Run;
    var read := Publish.Inspect(db, t);
    var freed := Publish.RemoveSource(read, t);
    var last := P.TrySweepStaging(t, Clean(db, t, clean));
    P.RunConcat(db, cfg, [P.Inspect(t), P.RemoveSource(t)], [last]);
    P.RunTwo(db, cfg, P.Inspect(t), P.RemoveSource(t));
    P.FileApplied(db, cfg, P.Inspect(t));
    P.FileApplied(read, cfg, P.RemoveSource(t));
    P.RunOne(freed, cfg, last);
    P.FileApplied(freed, cfg, last);
  }

  lemma DiscardRuns(before: Db, db: Db, cfg: Config, t: nat)
    requires t in before.claims && before.claims[t].image in before.jobs
    ensures P.Run(db, cfg, DiscardRun(before, t)) == Publish.Discarded(before, db, t)
  {
    hide P.Apply, P.Run;
    if DiscardRun(before, t) == [] {
      P.RunNone(db, cfg);
    } else {
      P.RunOne(db, cfg, P.RemoveRendering(t));
      P.FileApplied(db, cfg, P.RemoveRendering(t));
    }
  }

  lemma CommitRuns(db: Db, cfg: Config, t: nat)
    requires t in db.claims && db.claims[t].inspected.Some? && db.claims[t].stagingClean.Some?
    ensures P.Run(db, cfg, [P.Commit(t)]) == Publish.Commit(db, t).0
  {
    hide P.Apply, P.Run, Publish.Commit;
    P.RunOne(db, cfg, P.Commit(t));
    P.EndApplied(db, cfg, P.Commit(t));
  }

  function ExecutionRun(db: Db, t: nat, output: Rendering, clean: bool): seq<P.Step>
    requires t in db.claims && db.claims[t].image in db.jobs
  {
    Publish.PreparedKeeps(db, t, output);
    PrepareRun(db, t, output) + TidyRun(Publish.Prepared(db, t, output).0, t, clean) + [P.Commit(t)] +
    DiscardRun(db, t)
  }

  // ----- It publishes -----

  /** The promotion of a lease holder that renders first does not fail. */
  lemma PreparedWorks(quotas: map<nat, nat>, cfg: Config, steps: seq<P.Step>, t: nat, output: Rendering)
    requires var db := T.Reach(quotas, cfg, steps); Publish.Fenced(db.jobs, db.claims, t)
    ensures var db := T.Reach(quotas, cfg, steps);
            Publish.Prepared(db, t, output).1 &&
            T.Reach(quotas, cfg, steps + PrepareRun(db, t, output)) == Publish.Prepared(db, t, output).0
  {
    hide T.Reach, P.Apply, P.Run, Publish.PromoteTarget;
    var db := T.Reach(quotas, cfg, steps);
    PrepareRuns(db, cfg, t, output);
    T.ReachConcat(quotas, cfg, steps, PrepareRun(db, t, output));
    if PublishTarget(db.claims[t].image) !in db.disk {
      if db.jobs[db.claims[t].image].watermark {
        var rendered := Publish.Render(db, t, output);
        P.RunOne(db, cfg, P.Render(t, output));
        P.FileApplied(db, cfg, P.Render(t, output));
        T.ReachConcat(quotas, cfg, steps, [P.Render(t, output)]);
        T.AttemptsAndSources(quotas, cfg, steps + [P.Render(t, output)], t);
      } else {
        T.AttemptsAndSources(quotas, cfg, steps, t);
      }
    }
  }

  /** With the clock that it has just read, the publish transaction of a lease holder is not refused. */
  lemma CommitWorks(quotas: map<nat, nat>, cfg: Config, steps: seq<P.Step>, t: nat)
    requires var db := T.Reach(quotas, cfg, steps);
             P.Possible(db, P.Commit(t)) && Publish.Fenced(db.jobs, db.claims, t) && db.claims[t].seen == db.clock
    ensures Publish.Commit(T.Reach(quotas, cfg, steps), t).1 == Publish.Published
  {
    hide T.Reach, Publish.Commit;
    var db := T.Reach(quotas, cfg, steps);
    T.PublishIsCovered(quotas, cfg, steps, t);
    var i := db.claims[t].image;
    Ledger.NothingExpires(db.sessions - {db.jobs[i].session}, db.nextSession, db.images[i].owner, db.clock);
  }

  /** From every reachable state, a worker that holds the lease of a job and that nothing disturbs publishes
      its image, whatever the rendering holds and whether or not the staging directory goes, and leaves no
      rendering of its own that it made. */
  lemma UndisturbedPublishes(quotas: map<nat, nat>, cfg: Config, steps: seq<P.Step>, t: nat, output: Rendering,
                             clean: bool)
    requires var db := T.Reach(quotas, cfg, steps); Publish.Fenced(db.jobs, db.claims, t)
    ensures var db := T.Reach(quotas, cfg, steps);
            var (after, r) := Publish.Executed(db, t, output, clean);
            var i := db.claims[t].image;
            after == T.Reach(quotas, cfg, steps + ExecutionRun(db, t, output, clean)) &&
            r == Some(Publish.Published) && Fencing.Done(after.jobs, i) &&
            i in after.images && after.images[i].status == ImageCompleted &&
            (DiscardRun(db, t) != [] ==> t !in after.renderings)
  {
    hide T.Reach, P.Run, Publish.Prepared, Publish.Tidied, Publish.Commit, PrepareRun, TidyRun;
    var db := T.Reach(quotas, cfg, steps);
    var promoted := Publish.Prepared(db, t, output).0;
    Publish.PreparedKeeps(db, t, output);
    var first, second := PrepareRun(db, t, output), TidyRun(promoted, t, clean);
    PreparedWorks(quotas, cfg, steps, t, output);
    TidyRuns(promoted, cfg, t, clean);
    T.ReachConcat(quotas, cfg, steps + first, second);
    Publish.TidiedReads(promoted, t, clean);
    CommitWorks(quotas, cfg, steps + first + second, t);
    Finishes(quotas, cfg, steps + first + second, db, t);
    assert steps + ExecutionRun(db, t, output, clean) ==
           steps + first + second + [P.Commit(t)] + DiscardRun(db, t);
  }

  lemma Finishes(quotas: map<nat, nat>, cfg: Config, steps: seq<P.Step>, before: Db, t: nat)
    requires P.Possible(T.Reach(quotas, cfg, steps), P.Commit(t))
    requires Publish.Commit(T.Reach(quotas, cfg, steps), t).1 == Publish.Published
    requires t in before.claims && before.claims[t].image in before.jobs
    ensures var db := T.Reach(quotas, cfg, steps);
            var i := db.claims[t].image;
            var after := Publish.Discarded(before, Publish.Commit(db, t).0, t);
            after == T.Reach(quotas, cfg, steps + [P.Commit(t)] + DiscardRun(before, t)) &&
            Fencing.Done(after.jobs, i) && i in after.images && after.images[i].status == ImageCompleted &&
            (DiscardRun(before, t) != [] ==> t !in after.renderings)
  {
    hide T.Reach, P.Run, P.Apply, Publish.Commit;
    var db := T.Reach(quotas, cfg, steps);
    CommitRuns(db, cfg, t);
    T.ReachConcat(quotas, cfg, steps, [P.Commit(t)]);
    DiscardRuns(before, Publish.Commit(db, t).0, cfg, t);
    T.ReachConcat(quotas, cfg, steps + [P.Commit(t)], DiscardRun(before, t));
    Publish.CommitImages(db, t);
    Fencing.CommitCompletes(db, t, db.claims[t].image);
  }

  // ----- Renderings left behind -----

  /** The step writes the rendering of token t. */
  predicate Writes(db: Db, step: P.Step, t: nat)
  {
    step.Render? && step.token == t && t in db.claims && db.claims[t].image in db.jobs &&
    db.jobs[db.claims[t].image].watermark
  }

  /** The step removes the rendering of token t or moves it to the target. */
  predicate Takes(db: Db, step: P.Step, t: nat)
  {
    (step.RemoveRendering? && step.token == t) ||
    (step.PromoteTarget? && step.token == t && Publish.Fenced(db.jobs, db.claims, t) &&
     PublishTarget(db.claims[t].image) !in db.disk && db.jobs[db.claims[t].image].watermark)
  }

  ghost predicate RenderingNext(db: Db, db': Db, step: P.Step, t: nat)
  {
    (t in db'.renderings <==> Writes(db, step, t) || (t in db.renderings && !Takes(db, step, t))) &&
    (t in db.renderings && t in db'.renderings && !Writes(db, step, t) ==> db'.renderings[t] == db.renderings[t])
  }

  predicate RenderingStep(step: P.Step)
  {
    step.Render? || step.PromoteTarget? || step.RemoveRendering?
  }

  lemma SameRenderings(db: Db, db': Db, step: P.Step, t: nat)
    requires !RenderingStep(step) && db'.renderings == db.renderings
    ensures RenderingNext(db, db', step, t)
  {
  }

  lemma OtherFileRendering(db: Db, cfg: Config, step: P.Step)
    requires P.FileStep(step) && !RenderingStep(step) && P.Possible(db, step)
    ensures P.Apply(db, cfg, step).renderings == db.renderings
  {
    hide P.Apply, Upload.PutPartRolledBack, Upload.CompleteInterrupted, Upload.Restore, Publish.Inspect,
         Publish.RemoveSource, Publish.TrySweepStaging, Deletion.CleanupFiles, Deletion.Deliver;
    P.FileApplied(db, cfg, step);
  }

  lemma OtherRendering(db: Db, cfg: Config, step: P.Step)
    requires !RenderingStep(step)
    ensures P.Apply(db, cfg, step).renderings == db.renderings
  {
    hide P.Apply;
    if !P.Possible(db, step) {
      P.Impossible(db, cfg, step);
    } else if P.LeaseStep(step) {
      Links.LeaseStepRows(db, cfg, step);
    } else if P.SweepStep(step) {
      Links.SweepStepRows(db, cfg, step);
    } else if P.EndStep(step) {
      Links.EndStepRows(db, cfg, step);
    } else if P.UploadStep(step) {
      Links.UploadStepRows(db, cfg, step);
    } else {
      OtherFileRendering(db, cfg, step);
    }
  }

  lemma PromotionTakes(db: Db, r: nat, t: nat)
    ensures RenderingNext(db, Publish.PromoteTarget(db, r).0, P.PromoteTarget(r), t)
  {
  }

  lemma RenderWrites(db: Db, step: P.Step, t: nat)
    requires step.Render? || step.RemoveRendering?
    ensures RenderingNext(db, P.ApplyFile(db, step), step, t)
  {
  }

  /** No other step makes, removes or changes a rendering. */
  lemma RenderingChanges(db: Db, cfg: Config, step: P.Step, t: nat)
    ensures RenderingNext(db, P.Apply(db, cfg, step), step, t)
  {
    hide P.Apply, RenderingNext;
    if !RenderingStep(step) {
      OtherRendering(db, cfg, step);
      SameRenderings(db, P.Apply(db, cfg, step), step, t);
    } else {
      P.FileApplied(db, cfg, step);
      if step.PromoteTarget? {
        PromotionTakes(db, step.token, t);
      } else {
        RenderWrites(db, step, t);
      }
    }
  }

  /** Step n wrote the rendering of token t, and no step since then took it. */
  ghost predicate LeftSince(quotas: map<nat, nat>, cfg: Config, steps: seq<P.Step>, t: nat, n: nat)
  {
    n < |steps| && Writes(T.Reach(quotas, cfg, steps[..n]), steps[n], t) &&
    forall m :: n < m < |steps| ==> !Takes(T.Reach(quotas, cfg, steps[..m]), steps[m], t)
  }

  lemma LeftStill(quotas: map<nat, nat>, cfg: Config, steps: seq<P.Step>, t: nat, n: nat)
    requires steps != [] && n < |steps| - 1
    ensures var before := steps[..|steps| - 1];
            LeftSince(quotas, cfg, steps, t, n) <==>
            LeftSince(quotas, cfg, before, t, n) && !Takes(T.Reach(quotas, cfg, before), steps[|steps| - 1], t)
  {
    hide T.Reach, Takes, Writes;
    var before := steps[..|steps| - 1];
    assert forall m {:trigger before[m]} :: 0 <= m < |before| ==> before[..m] == steps[..m] && before[m] == steps[m];
    if LeftSince(quotas, cfg, steps, t, n) {
      assert before[n] == steps[n];
      forall m | n < m < |before|
        ensures !Takes(T.Reach(quotas, cfg, before[..m]), before[m], t)
      {
        assert !Takes(T.Reach(quotas, cfg, steps[..m]), steps[m], t);
      }
    } else if LeftSince(quotas, cfg, before, t, n) && !Takes(T.Reach(quotas, cfg, before), steps[|steps| - 1], t) {
      assert before[n] == steps[n];
      forall m | n < m < |steps|
        ensures !Takes(T.Reach(quotas, cfg, steps[..m]), steps[m], t)
      {
        if m < |before| {
          assert before[m] == steps[m] && !Takes(T.Reach(quotas, cfg, before[..m]), before[m], t);
        }
      }
    }
  }

  /** In every run a rendering file is left if and only if its worker wrote it and has not moved or removed it
      since, as when it stopped in between; nothing else removes it. */
  lemma {:induction false} RenderingLeft(quotas: map<nat, nat>, cfg: Config, steps: seq<P.Step>, t: nat)
    ensures t in T.Reach(quotas, cfg, steps).renderings <==> exists n: nat :: LeftSince(quotas, cfg, steps, t, n)
  {
    hide T.Reach, P.Apply, Takes, Writes;
    if steps == [] {
      T.ReachNothing(quotas, cfg);
    } else {
      var last := |steps| - 1;
      var before := steps[..last];
      var db := T.Reach(quotas, cfg, before);
      RenderingLeft(quotas, cfg, before, t);
      T.ReachStep(quotas, cfg, steps);
      RenderingChanges(db, cfg, steps[last], t);
      if t in T.Reach(quotas, cfg, steps).renderings {
        if Writes(db, steps[last], t) {
          assert LeftSince(quotas, cfg, steps, t, last);
        } else {
          var n: nat :| LeftSince(quotas, cfg, before, t, n);
          LeftStill(quotas, cfg, steps, t, n);
        }
      }
      if n: nat :| LeftSince(quotas, cfg, steps, t, n) {
        if n < last {
          LeftStill(quotas, cfg, steps, t, n);
        }
      }
    }
  }

  /** So a worker that stops after it rendered leaves its file for ever, whatever happens to the job. */
  lemma AbandonedStays(quotas: map<nat, nat>, cfg: Config, before: seq<P.Step>, after: seq<P.Step>, t: nat)
    requires t in T.Reach(quotas, cfg, before).renderings
    requires forall m :: 0 <= m < |after| ==>
               !Takes(T.Reach(quotas, cfg, before + after[..m]), after[m], t)
    ensures t in T.Reach(quotas, cfg, before + after).renderings
  {
    hide T.Reach, P.Apply, Takes, Writes;
    RenderingLeft(quotas, cfg, before, t);
    var n: nat :| LeftSince(quotas, cfg, before, t, n);
    var steps := before + after;
    assert steps[..n] == before[..n];
    forall m | n < m < |steps|
      ensures !Takes(T.Reach(quotas, cfg, steps[..m]), steps[m], t)
    {
      if m < |before| {
        assert steps[..m] == before[..m];
      } else {
        assert steps[..m] == before + after[..m - |before|] && steps[m] == after[m - |before|];
      }
    }
    assert LeftSince(quotas, cfg, steps, t, n);
    RenderingLeft(quotas, cfg, steps, t);
  }
}
