/** What each step of the remote store does to the rows, said without the functions that define the steps, and
    what undisturbed uploads and deletions achieve. */
module RemoteLaws {
  import opened Collections
  import opened Text
  import R = R2
  import P = R2Protocol

  /** Endpoint without surrounding white space and trailing slashes, bucket without white space. */
  function Place(endpoint: string, bucket: string): R.Target
  {
    R.Target(Endpoint(endpoint), TrimSpace(bucket))
  }

  predicate Waiting(st: R.State)
  {
    exists e :: e in st.events && (st.events[e].status == R.Pending || st.events[e].status == R.Publishing)
  }

  // ----- The configuration -----

  /** Without rows, unpublished events and unclassified rows every proposal becomes the configuration. */
  lemma FirstConfiguration(st: R.State, proposed: R.Config)
    requires st.files == map[] && !Waiting(st)
    ensures P.Apply(st, P.Update(proposed, 0)) == st.(config := proposed)
  {
  }

  /** A proposal that keeps the target is always taken; one that moves it exactly if nothing is unpublished or
      unclassified and every row's target normalises to the new one; and a refusal changes nothing. */
  lemma UpdateLaw(st: R.State, proposed: R.Config, unclassified: nat)
    ensures var st' := P.Apply(st, P.Update(proposed, unclassified));
            var to := Place(proposed.endpoint, proposed.bucket);
            if to == Place(st.config.endpoint, st.config.bucket) then st' == st.(config := proposed)
            else if !Waiting(st) && unclassified == 0 &&
                    forall f :: f in st.files ==> Place(st.files[f].target.endpoint, st.files[f].target.bucket) == to
            then st' == st.(config := proposed)
            else st' == st
  {
  }

  // ----- Uploads -----

  /** An upload is staged exactly while the store is enabled and the target of the request is still the configured
      one: three new objects, and an intent that it holds for five minutes. */
  lemma StageLaw(st: R.State, target: R.Target, seen: nat)
    requires seen <= st.clock
    ensures var st' := P.Apply(st, P.Stage(target, seen));
            var n, paths := st.next, {st.next, st.next + 1, st.next + 2};
            if st.config.enabled && target == Place(st.config.endpoint, st.config.bucket) then
              st' == st.(events := st.events[n := R.Event(target, paths, R.Publishing, Some(n), seen + 300)],
                         uploads := st.uploads[n := R.Upload(n, target, paths, seen + 300, None)], next := n + 3)
            else st' == st
  {
  }

  /** A request that is over gives up its intent, which a worker can then claim, unless it lost it before. */
  predicate GivenUp(st: R.State, st': R.State, e: nat)
    requires e in st.uploads
  {
    st' == st.(uploads := st.uploads - {e}, events := st'.events) &&
    if e in st.events && st.events[e].status == R.Publishing && st.events[e].token == Some(st.uploads[e].token)
    then st'.events == st.events[e := st.events[e].(status := R.Pending, token := None)] else st'.events == st.events
  }

  /** The uploads may last two minutes and must end ten seconds before the lease; with no time left they never
      start. */
  lemma BeginLaw(st: R.State, e: nat)
    ensures var st' := P.Apply(st, P.Begin(e));
            if e !in st.uploads || st.uploads[e].deadline.Some? then st' == st
            else if st.uploads[e].lease <= st.clock + 10 then GivenUp(st, st', e)
            else
              var end := if st.clock + 130 <= st.uploads[e].lease then st.clock + 120 else st.uploads[e].lease - 10;
              st' == st.(uploads := st.uploads[e := st.uploads[e].(deadline := Some(end))])
  {
  }

  /** An object arrives exactly until the deadline. */
  lemma PutLaw(st: R.State, e: nat, p: nat)
    ensures var st' := P.Apply(st, P.Put(e, p));
            if e in st.uploads && p in st.uploads[e].paths && st.uploads[e].deadline.Some? &&
               st.clock <= st.uploads[e].deadline.value
            then st' == st.(objects := st.objects + {(st.uploads[e].target, p)})
            else st' == st
  {
  }

  /** The file row is written exactly if the request still holds its intent within the lease, the store is enabled
      and its target still the configured one; else the intent is given up. */
  lemma FinalizeLaw(st: R.State, e: nat, seen: nat, stored: bool)
    requires seen <= st.clock
    ensures var st' := P.Apply(st, P.Finalize(e, seen, stored));
            if e !in st.uploads || st.uploads[e].deadline == None then st' == st
            else if stored && e in st.events && st.events[e].status == R.Publishing &&
                    st.events[e].token == Some(st.uploads[e].token) && seen < st.events[e].lease &&
                    st.config.enabled && st.uploads[e].target == Place(st.config.endpoint, st.config.bucket)
            then
              st' == st.(files := st.files[st.next := R.RemoteFile(st.uploads[e].target, st.uploads[e].paths)],
                         events := st.events[e := st.events[e].(status := R.Published, token := None)],
                         uploads := st.uploads - {e}, next := st.next + 1)
            else GivenUp(st, st', e)
  {
  }

  // ----- Deletions -----

  /** Dropping a row asks for the deletion of its objects at the normal form of its target. */
  lemma DropLaw(st: R.State, f: nat)
    ensures var st' := P.Apply(st, P.DropFile(f));
            if f in st.files then
              st' == st.(files := st.files - {f}, next := st.next + 1,
                         events := st.events[st.next := R.Event(Place(st.files[f].target.endpoint,
                                                                      st.files[f].target.bucket),
                                                                st.files[f].paths, R.Pending, None, 0)])
            else st' == st
  {
  }

  /** A worker can claim what is pending, or what nobody holds any more. */
  lemma ClaimLaw(st: R.State, e: nat, seen: nat, lease: nat)
    requires seen <= st.clock
    ensures var st' := P.Apply(st, P.Claim(e, seen, lease));
            if e in st.events && (st.events[e].status == R.Pending ||
                                  (st.events[e].status == R.Publishing && st.events[e].lease <= seen))
            then
              st' == st.(events := st.events[e := st.events[e].(status := R.Publishing, token := Some(st.next),
                                                                lease := seen + lease)],
                         deliveries := st.deliveries[st.next := R.Delivery(e, st.next, None)], next := st.next + 1)
            else st' == st
  {
  }

  /** It looks up once which of the paths no row names, and those alone are to be removed. */
  lemma CheckLaw(st: R.State, d: nat)
    ensures var st' := P.Apply(st, P.Check(d));
            if d in st.deliveries && st.deliveries[d].doomed == None && st.deliveries[d].event in st.events then
              d in st'.deliveries && st'.deliveries[d].doomed.Some? &&
              st' == st.(deliveries := st.deliveries[d := st.deliveries[d].(doomed := st'.deliveries[d].doomed)]) &&
              forall p :: p in st'.deliveries[d].doomed.value <==>
                p in st.events[st.deliveries[d].event].paths && forall f :: f in st.files ==> p !in st.files[f].paths
            else st' == st
  {
  }

  /** It removes such an object only where the event's target is the configured one. */
  lemma RemoveLaw(st: R.State, d: nat, p: nat)
    ensures var st' := P.Apply(st, P.Remove(d, p));
            if d in st.deliveries && st.deliveries[d].doomed.Some? && p in st.deliveries[d].doomed.value &&
               st.deliveries[d].event in st.events &&
               Place(st.events[st.deliveries[d].event].target.endpoint, st.events[st.deliveries[d].event].target.bucket)
                 == Place(st.config.endpoint, st.config.bucket)
            then
              st' == st.(objects := st.objects - {(Place(st.config.endpoint, st.config.bucket), p)},
                         deliveries := st.deliveries[d := st.deliveries[d].(
                                                            doomed := Some(st.deliveries[d].doomed.value - {p}))])
            else st' == st
  {
  }

  /** With nothing left to remove the event is published, after an error it is pending again; both only under the
      token of the delivery. */
  lemma EndLaw(st: R.State, d: nat)
    requires d in st.deliveries
    ensures var e, token := st.deliveries[d].event, st.deliveries[d].token;
            var held := e in st.events && st.events[e].status == R.Publishing && st.events[e].token == Some(token);
            var done, failed := P.Apply(st, P.Acknowledge(d)), P.Apply(st, P.Postpone(d));
            var rest := st.(deliveries := st.deliveries - {d});
            (failed == if held then rest.(events := st.events[e := st.events[e].(status := R.Pending, token := None)])
                       else rest) &&
            done == if st.deliveries[d].doomed != Some({}) then st
                    else if held then
                      rest.(events := st.events[e := st.events[e].(status := R.Published, token := None)])
                    else rest
  {
  }

  // ----- What uploads and deletions achieve -----

  lemma RunNext(st: R.State, steps: seq<P.Step>, step: P.Step)
    ensures P.Run(st, steps + [step]) == P.Apply(P.Run(st, steps), step)
  {
    assert (steps + [step])[..|steps|] == steps;
  }

  function UploadRun(st: R.State): seq<P.Step>
  {
    var n := st.next;
    [P.Stage(Place(st.config.endpoint, st.config.bucket), st.clock)] + [P.Begin(n)] + [P.Put(n, n)] +
    [P.Put(n, n + 1)] + [P.Put(n, n + 2)] + [P.Finalize(n, st.clock, true)]
  }

  /** While the store is enabled, an upload that nothing disturbs ends with a file row for three objects on the
      configured target, and all three are there. */
  lemma UploadSucceeds(st: R.State)
    requires st.config.enabled
    ensures var st' := P.Run(st, UploadRun(st));
            var target := Place(st.config.endpoint, st.config.bucket);
            var n, paths := st.next, {st.next, st.next + 1, st.next + 2};
            n + 3 in st'.files && st'.files == st.files[n + 3 := R.RemoteFile(target, paths)] &&
            n in st'.events && st'.events[n].status == R.Published && n !in st'.uploads &&
            st'.objects == st.objects + {(target, n), (target, n + 1), (target, n + 2)}
  {
    hide P.Run, P.Apply;
    var target := Place(st.config.endpoint, st.config.bucket);
    var n, now := st.next, st.clock;
    P.RunOne(st, P.Stage(target, now));
    StageLaw(st, target, now);
    var s1 := P.Run(st, [P.Stage(target, now)]);
    RunNext(st, [P.Stage(target, now)], P.Begin(n));
    BeginLaw(s1, n);
    var s2 := P.Run(st, [P.Stage(target, now)] + [P.Begin(n)]);
    RunNext(st, [P.Stage(target, now)] + [P.Begin(n)], P.Put(n, n));
    PutLaw(s2, n, n);
    var s3 := P.Apply(s2, P.Put(n, n));
    RunNext(st, [P.Stage(target, now)] + [P.Begin(n)] + [P.Put(n, n)], P.Put(n, n + 1));
    PutLaw(s3, n, n + 1);
    var s4 := P.Apply(s3, P.Put(n, n + 1));
    RunNext(st, [P.Stage(target, now)] + [P.Begin(n)] + [P.Put(n, n)] + [P.Put(n, n + 1)], P.Put(n, n + 2));
    PutLaw(s4, n, n + 2);
    var s5 := P.Apply(s4, P.Put(n, n + 2));
    RunNext(st, [P.Stage(target, now)] + [P.Begin(n)] + [P.Put(n, n)] + [P.Put(n, n + 1)] + [P.Put(n, n + 2)],
            P.Finalize(n, now, true));
    FinalizeLaw(s5, n, now, true);
  }

  /** The removals of a delivery, one by one. */
  function Removals(d: nat, order: seq<nat>): seq<P.Step>
  {
    if order == [] then [] else Removals(d, order[..|order| - 1]) + [P.Remove(d, order[|order| - 1])]
  }

  lemma {:induction false} RemovalsWork(st: R.State, d: nat, order: seq<nat>)
    requires d in st.deliveries && st.deliveries[d].doomed.Some? && st.deliveries[d].event in st.events
    requires Distinct(order) && forall p :: p in order ==> p in st.deliveries[d].doomed.value
    requires Place(st.events[st.deliveries[d].event].target.endpoint, st.events[st.deliveries[d].event].target.bucket)
             == Place(st.config.endpoint, st.config.bucket)
    ensures var st' := P.Run(st, Removals(d, order));
            d in st'.deliveries && st'.deliveries[d].doomed.Some? &&
            st' == st.(objects := st'.objects, deliveries := st.deliveries[d := st'.deliveries[d]]) &&
            st'.deliveries[d] == st.deliveries[d].(doomed := st'.deliveries[d].doomed) &&
            (forall p :: p in st'.deliveries[d].doomed.value <==>
               p in st.deliveries[d].doomed.value && p !in order) &&
            forall x :: x in st'.objects <==>
              x in st.objects && !(x.0 == Place(st.config.endpoint, st.config.bucket) && x.1 in order)
  {
    hide P.Apply;
    if order != [] {
      var last := |order| - 1;
      var before := order[..last];
      assert order == before + [order[last]];
      RemovalsWork(st, d, before);
      RunNext(st, Removals(d, before), P.Remove(d, order[last]));
      assert order[last] !in before;
      RemoveLaw(P.Run(st, Removals(d, before)), d, order[last]);
    }
  }

  function DeletionRun(st: R.State, f: nat, order: seq<nat>): seq<P.Step>
  {
    var e, d := st.next, st.next + 1;
    [P.DropFile(f)] + [P.Claim(e, st.clock, 60)] + [P.Check(d)] + Removals(d, order) + [P.Acknowledge(d)]
  }

  /** In every run with a settled endpoint, a deletion that nothing disturbs removes the row and all its objects,
      in whatever order, and its event is published. */
  lemma DeletionSucceeds(config: R.Config, steps: seq<P.Step>, f: nat, order: seq<nat>)
    requires P.AllSettled(config, steps)
    requires var st := P.Run(P.Start(config), steps);
             f in st.files && Distinct(order) && forall p :: p in order <==> p in st.files[f].paths
    ensures var st := P.Run(P.Start(config), steps);
            var st' := P.Run(st, DeletionRun(st, f, order));
            f !in st'.files && st.next in st'.events && st'.events[st.next].status == R.Published &&
            forall p :: p in st.files[f].paths ==> (st.files[f].target, p) !in st'.objects
  {
    hide P.Run, P.Apply;
    var st := P.Run(P.Start(config), steps);
    var e, d := st.next, st.next + 1;
    OnTarget(config, steps, f);
    P.RunOne(st, P.DropFile(f));
    DropLaw(st, f);
    var s1 := P.Apply(st, P.DropFile(f));
    RunNext(st, [P.DropFile(f)], P.Claim(e, st.clock, 60));
    ClaimLaw(s1, e, st.clock, 60);
    var s2 := P.Apply(s1, P.Claim(e, st.clock, 60));
    RunNext(st, [P.DropFile(f)] + [P.Claim(e, st.clock, 60)], P.Check(d));
    CheckLaw(s2, d);
    var s3 := P.Apply(s2, P.Check(d));
    Removable(config, steps, f);
    RemovalsWork(s3, d, order);
    P.RunConcat(st, [P.DropFile(f)] + [P.Claim(e, st.clock, 60)] + [P.Check(d)], Removals(d, order));
    var s4 := P.Run(s3, Removals(d, order));
    RunNext(st, [P.DropFile(f)] + [P.Claim(e, st.clock, 60)] + [P.Check(d)] + Removals(d, order), P.Acknowledge(d));
    assert s4.deliveries[d].doomed.value == {};
    EndLaw(s4, d);
  }

  lemma OnTarget(config: R.Config, steps: seq<P.Step>, f: nat)
    requires P.AllSettled(config, steps) && f in P.Run(P.Start(config), steps).files
    ensures var st := P.Run(P.Start(config), steps);
            var target := st.files[f].target;
            target == Place(st.config.endpoint, st.config.bucket) && Place(target.endpoint, target.bucket) == target
  {
    P.TargetsMatch(config, steps);
    P.SettledTarget(P.Run(P.Start(config), steps).config);
  }

  /** No other row names the paths of a row. */
  lemma Removable(config: R.Config, steps: seq<P.Step>, f: nat)
    requires f in P.Run(P.Start(config), steps).files
    ensures var st := P.Run(P.Start(config), steps);
            forall g, p :: g in st.files && g != f && p in st.files[f].paths ==> p !in st.files[g].paths
  {
    P.Reachable(config, steps);
    var st := P.Run(P.Start(config), steps);
    assert P.FileOk(st, f);
  }
}
