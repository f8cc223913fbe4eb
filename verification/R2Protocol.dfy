/** Every interleaving of uploads, deletion workers and configuration updates on the remote store. */
module R2Protocol {
  import opened Collections
  import opened Text
  import opened R2

  // ----- Runs -----

  datatype Step =
    | Tick(elapsed: nat)
    | Stage(target: Target, seen: nat)
    | Begin(upload: nat)
    | Put(upload: nat, path: nat)
    | Finalize(upload: nat, seen: nat, stored: bool)
    | Activate(upload: nat)
    | Abandon(upload: nat)
    | DropFile(file: nat)
    | Claim(event: nat, seen: nat, lease: nat)
    | Check(delivery: nat)
    | Remove(delivery: nat, path: nat)
    | Acknowledge(delivery: nat)
    | Postpone(delivery: nat)
    | Desert(delivery: nat)
    | Update(proposed: Config, unclassified: nat)

  /** A clock that was read is not ahead. */
  predicate Possible(st: State, step: Step)
  {
    match step
    case Stage(_, seen) => seen <= st.clock
    case Finalize(_, seen, _) => seen <= st.clock
    case Claim(_, seen, _) => seen <= st.clock
    case _ => true
  }

  function Apply(st: State, step: Step): State
  {
    if !Possible(st, step) then st
    else
      match step
      case Tick(elapsed) => st.(clock := st.clock + elapsed)
      case Stage(target, seen) => R2.Stage(st, target, seen)
      case Begin(e) => R2.Begin(st, e)
      case Put(e, p) => R2.Put(st, e, p)
      case Finalize(e, seen, stored) => R2.Finalize(st, e, seen, stored)
      case Activate(e) => R2.Activate(st, e)
      case Abandon(e) => st.(uploads := st.uploads - {e})
      case DropFile(f) => R2.DropFile(st, f)
      case Claim(e, seen, lease) => R2.Claim(st, e, seen, lease)
      case Check(d) => R2.Check(st, d)
      case Remove(d, p) => R2.Remove(st, d, p)
      case Acknowledge(d) => R2.Acknowledge(st, d)
      case Postpone(d) => R2.Postpone(st, d)
      case Desert(d) => st.(deliveries := st.deliveries - {d})
      case Update(proposed, unclassified) => R2.Update(st, proposed, unclassified)
  }

  function Run(st: State, steps: seq<Step>): State
  {
    if steps == [] then st else Apply(Run(st, steps[..|steps| - 1]), steps[|steps| - 1])
  }

  lemma RunOne(st: State, step: Step)
    ensures Run(st, [step]) == Apply(st, step)
  {
    assert [step][..0] == [];
  }

  lemma {:induction false} RunConcat(st: State, a: seq<Step>, b: seq<Step>)
    ensures Run(st, a + b) == Run(Run(st, a), b)
  {
    if b == [] {
      assert a + b == a;
    } else {
      var last := |b| - 1;
      assert (a + b)[..|a + b| - 1] == a + b[..last];
      RunConcat(st, a, b[..last]);
    }
  }

  function Start(config: Config): State
  {
    State(0, config, {}, map[], map[], map[], map[], 0)
  }

  // ----- The invariant -----

  /** The upload request of intent e still holds its lease. */
  predicate Held(st: State, e: nat)
  {
    e in st.uploads && e in st.events && Holds(st.events[e], st.uploads[e].token)
  }

  /** A request that lost its lease is past it; its uploads end before that. */
  ghost predicate UploadOk(st: State, e: nat)
    requires e in st.uploads
  {
    var upload := st.uploads[e];
    && e in st.events && st.events[e].target == upload.target && st.events[e].paths == upload.paths &&
       upload.token < st.next
    && (if Held(st, e) then st.events[e].lease == upload.lease else upload.lease <= st.clock)
    && (upload.deadline.Some? ==> upload.deadline.value + LEASE_SAFETY <= upload.lease)
  }

  ghost predicate Disjoint(a: set<nat>, b: set<nat>)
  {
    forall p :: p in a ==> p !in b
  }

  /** What normalising can make of a target: the target itself, or one with a shorter endpoint. */
  predicate Below(target: Target, top: Target)
  {
    target.bucket == top.bucket && (target.endpoint == top.endpoint || |target.endpoint| < |top.endpoint|)
  }

  /** An unpublished event is alone in naming its paths, and on the configured target or below it. */
  ghost predicate EventOk(st: State, e: nat)
    requires e in st.events
  {
    && e < st.next && (forall p :: p in st.events[e].paths ==> p < st.next)
    && (st.events[e].token.Some? ==> st.events[e].token.value < st.next)
    && (st.events[e].status != Published ==>
          && Below(st.events[e].target, Configured(st.config))
          && (forall f :: f in st.files ==> Disjoint(st.events[e].paths, st.files[f].paths))
          && (forall d :: d in st.events && d != e && (Held(st, e) || st.events[d].status != Published) ==>
                Disjoint(st.events[e].paths, st.events[d].paths)))
  }

  /** A file row is alone in naming its paths, and the configured target is its own or the normal form of it. */
  ghost predicate FileOk(st: State, f: nat)
    requires f in st.files
  {
    && f < st.next && (st.files[f].target == Configured(st.config) ||
                       Normalised(st.files[f].target) == Configured(st.config))
    && Trimmed(st.files[f].target.bucket)
    && (forall p :: p in st.files[f].paths ==> p < st.next)
    && forall g :: g in st.files && g != f ==> Disjoint(st.files[f].paths, st.files[g].paths)
  }

  /** No row will ever name the event's paths again; what the worker no longer has to remove is gone. */
  ghost predicate DeliveryOk(st: State, d: nat)
    requires d in st.deliveries
  {
    var delivery := st.deliveries[d];
    && d < st.next && delivery.token < st.next && delivery.event in st.events && !Held(st, delivery.event)
    && (forall f :: f in st.files ==> Disjoint(st.events[delivery.event].paths, st.files[f].paths))
    && (delivery.doomed.Some? ==> delivery.doomed.value <= st.events[delivery.event].paths)
    && (delivery.doomed.Some? && Holds(st.events[delivery.event], delivery.token) ==>
          forall p :: p in st.events[delivery.event].paths && p !in delivery.doomed.value ==>
            (st.events[delivery.event].target, p) !in st.objects)
  }

  ghost predicate Inv(st: State)
  {
    && (forall e {:trigger UploadOk(st, e)} :: e in st.uploads ==> UploadOk(st, e))
    && (forall e {:trigger EventOk(st, e)} :: e in st.events ==> EventOk(st, e))
    && (forall f {:trigger FileOk(st, f)} :: f in st.files ==> FileOk(st, f))
    && (forall d {:trigger DeliveryOk(st, d)} :: d in st.deliveries ==> DeliveryOk(st, d))
  }

  // ----- Every step keeps it -----

  /** The rows of a step that changes at most the event and the upload e and the delivery d. */
  ghost predicate Local(st: State, st': State, e: nat, d: nat)
  {
    && OnlyAt(st.events, st'.events, e) && OnlyAt(st.uploads, st'.uploads, e) &&
       OnlyAt(st.deliveries, st'.deliveries, d)
    && st'.files == st.files && st'.config == st.config && st'.clock >= st.clock && st'.next >= st.next
    && (e in st.events ==>
          e in st'.events && st'.events[e].paths == st.events[e].paths && st'.events[e].target == st.events[e].target)
    && (e in st'.events && e in st.events ==>
          && (st.events[e].status == Published ==> st'.events[e].status == Published)
          && (Held(st', e) ==> Held(st, e))
          && (st'.events[e].status == Publishing ==>
                (st.events[e].status == Publishing && st'.events[e].token == st.events[e].token) ||
                (st'.events[e].token.Some? && st'.events[e].token.value >= st.next)))
    && (e in st'.events && e !in st.events ==> st'.events[e].status != Published)
  }

  lemma OtherEvent(st: State, st': State, e: nat, d: nat, x: nat)
    requires Local(st, st', e, d) && x in st.events && x != e && EventOk(st, x)
    requires e in st'.events ==> EventOk(st', e)
    ensures EventOk(st', x)
  {
    assert Held(st', x) <==> Held(st, x);
  }

  lemma OtherDelivery(st: State, st': State, e: nat, d: nat, y: nat)
    requires Local(st, st', e, d) && st'.objects <= st.objects && y in st.deliveries && y != d && DeliveryOk(st, y)
    ensures DeliveryOk(st', y)
  {
    var x := st.deliveries[y].event;
    assert x != e ==> (Held(st', x) <==> Held(st, x));
  }

  lemma Change(st: State, st': State, e: nat, d: nat)
    requires Inv(st) && Local(st, st', e, d) && st'.objects <= st.objects
    requires e in st'.uploads ==> UploadOk(st', e)
    requires e in st'.events ==> EventOk(st', e)
    requires d in st'.deliveries ==> DeliveryOk(st', d)
    ensures Inv(st')
  {
    forall u | u in st'.uploads ensures UploadOk(st', u) {
      if u != e { assert UploadOk(st, u); }
    }
    forall x | x in st'.events ensures EventOk(st', x) {
      if x != e { assert EventOk(st, x); OtherEvent(st, st', e, d, x); }
    }
    forall f | f in st'.files ensures FileOk(st', f) { assert FileOk(st, f); }
    forall y | y in st'.deliveries ensures DeliveryOk(st', y) {
      if y != d { assert DeliveryOk(st, y); OtherDelivery(st, st', e, d, y); }
    }
  }

  /** A request ends, with or without activating its intent. */
  lemma EndUpload(st: State, st': State, e: nat)
    requires Inv(st) && st' == st.(events := st'.events, uploads := st.uploads - {e})
    requires st'.events == st.events || (e in st.uploads && st'.events == Activated(st.events, e, st.uploads[e].token))
    ensures Inv(st')
  {
    if e in st.events {
      assert EventOk(st, e);
    }
    assert e in st.deliveries ==> DeliveryOk(st, e);
    forall d | d in st.deliveries ensures DeliveryOk(st', d) {
      assert DeliveryOk(st, d);
      if d == e { OtherDelivery(st, st', e, e + 1, d); }
    }
    Change(st, st', e, e);
  }

  lemma ActivateKeeps(st: State, e: nat)
    requires Inv(st)
    ensures Inv(R2.Activate(st, e))
  {
    if e in st.uploads {
      EndUpload(st, R2.Activate(st, e), e);
    }
  }

  lemma BeginKeeps(st: State, e: nat)
    requires Inv(st)
    ensures Inv(R2.Begin(st, e))
  {
    if e in st.uploads {
      var st' := R2.Begin(st, e);
      assert UploadOk(st, e) && EventOk(st, e);
      if e in st'.uploads {
        assert EventOk(st', e) by { assert Held(st', e) <==> Held(st, e); }
        SameDelivery(st, st', e);
        Change(st, st', e, e);
      } else {
        ActivateKeeps(st, e);
      }
    }
  }

  lemma SameDelivery(st: State, st': State, e: nat)
    requires Inv(st) && Local(st, st', e, e + 1) && st'.deliveries == st.deliveries && st'.objects <= st.objects
    ensures e in st'.deliveries ==> DeliveryOk(st', e)
  {
    if e in st.deliveries {
      assert DeliveryOk(st, e);
      OtherDelivery(st, st', e, e + 1, e);
    }
  }

  lemma StageKeeps(st: State, target: Target, seen: nat)
    requires Inv(st)
    ensures Inv(R2.Stage(st, target, seen))
  {
    var st' := R2.Stage(st, target, seen);
    if st' != st {
      var e := st.next;
      assert e in st.events ==> EventOk(st, e);
      assert e in st.uploads ==> UploadOk(st, e);
      FreshPaths(st, st'.events[e].paths);
      assert EventOk(st', e);
      SameDelivery(st, st', e);
      Change(st, st', e, e);
    }
  }

  lemma FreshPaths(st: State, paths: set<nat>)
    requires Inv(st) && forall p :: p in paths ==> p >= st.next
    ensures forall f :: f in st.files ==> Disjoint(paths, st.files[f].paths)
    ensures forall e :: e in st.events ==> Disjoint(paths, st.events[e].paths)
  {
    forall f | f in st.files ensures Disjoint(paths, st.files[f].paths) { assert FileOk(st, f); }
    forall e | e in st.events ensures Disjoint(paths, st.events[e].paths) { assert EventOk(st, e); }
  }

  lemma PutKeeps(st: State, e: nat, p: nat)
    requires Inv(st)
    ensures Inv(R2.Put(st, e, p))
  {
    var st' := R2.Put(st, e, p);
    if st' != st {
      assert UploadOk(st, e) && EventOk(st, e);
      forall u | u in st'.uploads ensures UploadOk(st', u) { assert UploadOk(st, u); }
      forall x | x in st'.events ensures EventOk(st', x) { assert EventOk(st, x); }
      forall f | f in st'.files ensures FileOk(st', f) { assert FileOk(st, f); }
      forall d | d in st'.deliveries ensures DeliveryOk(st', d) { assert DeliveryOk(st, d); }
    }
  }

  lemma InsertKeeps(st: State, e: nat)
    requires Inv(st) && Held(st, e) && st.uploads[e].target == Configured(st.config)
    ensures Inv(R2.Insert(st, e))
  {
    var st' := R2.Insert(st, e);
    assert UploadOk(st, e) && EventOk(st, e);
    assert st.next in st.files ==> FileOk(st, st.next);
    forall u | u in st'.uploads ensures UploadOk(st', u) { assert UploadOk(st, u); }
    forall x | x in st'.events ensures EventOk(st', x) {
      assert EventOk(st, x);
      assert x != e ==> (Held(st', x) <==> Held(st, x));
    }
    forall f | f in st'.files ensures FileOk(st', f) { assert f in st.files ==> FileOk(st, f); }
    forall d | d in st'.deliveries ensures DeliveryOk(st', d) { assert DeliveryOk(st, d); }
  }

  lemma FinalizeKeeps(st: State, e: nat, seen: nat, stored: bool)
    requires Inv(st)
    ensures Inv(R2.Finalize(st, e, seen, stored))
  {
    if R2.Finalizable(st, e, seen, stored) {
      InsertKeeps(st, e);
    } else {
      ActivateKeeps(st, e);
    }
  }

  lemma DroppedBelow(st: State, f: nat)
    requires f in st.files && FileOk(st, f)
    ensures Below(Normalised(st.files[f].target), Configured(st.config))
  {
    TrimSpaceFixes(st.files[f].target.bucket);
    EndpointShrinks(st.files[f].target.endpoint);
  }

  lemma DropKeeps(st: State, f: nat)
    requires Inv(st)
    ensures Inv(R2.DropFile(st, f))
  {
    if f in st.files {
      var st', e := R2.DropFile(st, f), st.next;
      assert FileOk(st, f);
      DroppedBelow(st, f);
      assert e in st.events ==> EventOk(st, e);
      assert e in st.uploads ==> UploadOk(st, e);
      forall u | u in st'.uploads ensures UploadOk(st', u) { assert UploadOk(st, u); }
      forall x | x in st'.events ensures EventOk(st', x) {
        if x != e { assert EventOk(st, x); DroppedEvent(st, f, x); } else { DropEventOk(st, f); }
      }
      forall g | g in st'.files ensures FileOk(st', g) { assert FileOk(st, g); }
      forall d | d in st'.deliveries ensures DeliveryOk(st', d) { assert DeliveryOk(st, d); }
    }
  }

  lemma DroppedEvent(st: State, f: nat, x: nat)
    requires Inv(st) && f in st.files && x in st.events && x != st.next && EventOk(st, x)
    ensures EventOk(R2.DropFile(st, f), x)
  {
    assert Held(R2.DropFile(st, f), x) <==> Held(st, x);
  }

  lemma DropEventOk(st: State, f: nat)
    requires Inv(st) && f in st.files && FileOk(st, f) && st.next !in st.uploads
    requires Below(Normalised(st.files[f].target), Configured(st.config))
    ensures EventOk(R2.DropFile(st, f), st.next)
  {
    var st' := R2.DropFile(st, f);
    forall d | d in st'.events && d != st.next && st'.events[d].status != Published
      ensures Disjoint(st.files[f].paths, st'.events[d].paths)
    {
      assert EventOk(st, d);
    }
  }

  lemma ClaimKeeps(st: State, e: nat, seen: nat, lease: nat)
    requires Inv(st) && seen <= st.clock
    ensures Inv(R2.Claim(st, e, seen, lease))
  {
    var st' := R2.Claim(st, e, seen, lease);
    if st' != st {
      assert EventOk(st, e) && (e in st.uploads ==> UploadOk(st, e));
      assert !Held(st', e);
      assert EventOk(st', e);
      Change(st, st', e, st.next);
    }
  }

  lemma CheckKeeps(st: State, d: nat)
    requires Inv(st)
    ensures Inv(R2.Check(st, d))
  {
    var st' := R2.Check(st, d);
    if st' != st {
      assert DeliveryOk(st, d);
      DeliveryOnly(st, st', d);
    }
  }

  /** Only the delivery d changes, or goes, and perhaps an object goes with it. */
  lemma DeliveryOnly(st: State, st': State, d: nat)
    requires Inv(st) && OnlyAt(st.deliveries, st'.deliveries, d) && st'.objects <= st.objects && st'.clock >= st.clock
    requires st' == st.(deliveries := st'.deliveries, objects := st'.objects, clock := st'.clock)
    requires d in st'.deliveries ==> DeliveryOk(st', d)
    ensures Inv(st')
  {
    var e := st.next;
    assert e in st.events ==> EventOk(st, e);
    assert e in st.uploads ==> UploadOk(st, e);
    Change(st, st', e, d);
  }

  /** What CanDelete lets a worker delete for an unpublished event is on the event's own target. */
  lemma DeletesOwn(st: State, e: nat)
    requires e in st.events && EventOk(st, e) && st.events[e].status != Published
    requires Normalised(st.events[e].target) == Configured(st.config)
    ensures st.events[e].target == Configured(st.config)
  {
    EndpointShrinks(st.events[e].target.endpoint);
  }

  lemma RemoveKeeps(st: State, d: nat, p: nat)
    requires Inv(st)
    ensures Inv(R2.Remove(st, d, p))
  {
    var st' := R2.Remove(st, d, p);
    if st' != st {
      assert DeliveryOk(st, d) && EventOk(st, st.deliveries[d].event);
      if st.events[st.deliveries[d].event].status != Published {
        DeletesOwn(st, st.deliveries[d].event);
      }
      assert Held(st', st.deliveries[d].event) <==> Held(st, st.deliveries[d].event);
      DeliveryOnly(st, st', d);
    }
  }

  lemma AcknowledgeKeeps(st: State, d: nat)
    requires Inv(st)
    ensures Inv(R2.Acknowledge(st, d))
  {
    var st' := R2.Acknowledge(st, d);
    if st' != st {
      assert DeliveryOk(st, d);
      var e := st.deliveries[d].event;
      assert EventOk(st, e);
      if st'.events == st.events {
        DeliveryOnly(st, st', d);
      } else {
        assert e in st.uploads ==> UploadOk(st, e);
        hide R2.Acknowledge;
        Change(st, st', e, d);
      }
    }
  }

  lemma PostponeKeeps(st: State, d: nat)
    requires Inv(st)
    ensures Inv(R2.Postpone(st, d))
  {
    if d in st.deliveries {
      var st', e := R2.Postpone(st, d), st.deliveries[d].event;
      assert DeliveryOk(st, d);
      assert EventOk(st, e) && (e in st.uploads ==> UploadOk(st, e));
      assert !Held(st', e);
      assert EventOk(st', e);
      Change(st, st', e, d);
    }
  }

  lemma UpdateKeeps(st: State, proposed: Config, unclassified: nat)
    requires Inv(st)
    ensures Inv(R2.Update(st, proposed, unclassified))
  {
    if Accepts(st, proposed, unclassified) {
      var st' := st.(config := proposed);
      forall u | u in st'.uploads ensures UploadOk(st', u) {
        assert UploadOk(st, u);
        assert Held(st', u) <==> Held(st, u);
      }
      forall x | x in st'.events ensures EventOk(st', x) { assert EventOk(st, x); }
      forall f | f in st'.files ensures FileOk(st', f) { assert FileOk(st, f); }
      forall d | d in st'.deliveries ensures DeliveryOk(st', d) { assert DeliveryOk(st, d); }
    }
  }

  lemma TickKeeps(st: State, elapsed: nat)
    requires Inv(st)
    ensures Inv(st.(clock := st.clock + elapsed))
  {
    var st' := st.(clock := st.clock + elapsed);
    assert st.next in st.deliveries ==> DeliveryOk(st, st.next);
    DeliveryOnly(st, st', st.next);
  }

  lemma StepKeepsInv(st: State, step: Step)
    requires Inv(st)
    ensures Inv(Apply(st, step))
  {
    if Possible(st, step) {
      match step
      case Tick(elapsed) => TickKeeps(st, elapsed);
      case Stage(target, seen) => StageKeeps(st, target, seen);
      case Begin(e) => BeginKeeps(st, e);
      case Put(e, p) => PutKeeps(st, e, p);
      case Finalize(e, seen, stored) => FinalizeKeeps(st, e, seen, stored);
      case Activate(e) => ActivateKeeps(st, e);
      case Abandon(e) => EndUpload(st, st.(uploads := st.uploads - {e}), e);
      case DropFile(f) => DropKeeps(st, f);
      case Claim(e, seen, lease) => ClaimKeeps(st, e, seen, lease);
      case Check(d) => CheckKeeps(st, d);
      case Remove(d, p) => RemoveKeeps(st, d, p);
      case Acknowledge(d) => AcknowledgeKeeps(st, d);
      case Postpone(d) => PostponeKeeps(st, d);
      case Desert(d) => DeliveryOnly(st, st.(deliveries := st.deliveries - {d}), d);
      case Update(proposed, unclassified) => UpdateKeeps(st, proposed, unclassified);
    }
  }

  lemma {:induction false} Reachable(config: Config, steps: seq<Step>)
    ensures Inv(Run(Start(config), steps))
  {
    if steps != [] {
      Reachable(config, steps[..|steps| - 1]);
      StepKeepsInv(Run(Start(config), steps[..|steps| - 1]), steps[|steps| - 1]);
    }
  }

  // ----- The promises -----

  /** An upload that may still deliver objects holds its intent: its deadline passes before any worker
      can claim the intent. */
  lemma UploadsEndFirst(config: Config, steps: seq<Step>, e: nat)
    requires e in Run(Start(config), steps).uploads
    ensures var st := Run(Start(config), steps);
            st.uploads[e].deadline.Some? && st.clock <= st.uploads[e].deadline.value ==>
              Held(st, e) && forall seen: nat :: seen <= st.clock ==> !Claimable(st.events[e], seen)
  {
    Reachable(config, steps);
    assert UploadOk(Run(Start(config), steps), e);
  }

  lemma FinalizePublishes(st: State, e: nat, d: nat, seen: nat, stored: bool)
    requires Inv(st) && e in st.events && st.events[e].status != Published
    ensures var st' := R2.Finalize(st, d, seen, stored);
            e in st'.events &&
            (st'.events[e].status == Published ==>
               d == e && st.next in st'.files &&
               st'.files[st.next] == RemoteFile(st.events[e].target, st.events[e].paths))
  {
    if d in st.uploads {
      assert UploadOk(st, d);
    }
  }

  lemma AcknowledgePublishes(st: State, e: nat, d: nat)
    requires Inv(st) && e in st.events && st.events[e].status != Published
    ensures var st' := R2.Acknowledge(st, d);
            e in st'.events &&
            (st'.events[e].status == Published ==>
               d in st.deliveries && Holds(st.events[e], st.deliveries[d].token) &&
               forall p :: p in st.events[e].paths ==> (st.events[e].target, p) !in st.objects)
  {
    if d in st.deliveries {
      assert DeliveryOk(st, d);
    }
  }

  lemma OtherStepPublishesNothing(st: State, step: Step, e: nat)
    requires Inv(st) && e in st.events && st.events[e].status != Published && !step.Finalize? && !step.Acknowledge?
    ensures e in Apply(st, step).events && Apply(st, step).events[e].status != Published
  {
    assert EventOk(st, e);
    hide Inv, EventOk, Configured, Normalised;
  }

  /** An event becomes published only together with a file row for its objects, or by the worker that
      holds it once none of its objects is left. */
  lemma PublishedBy(config: Config, steps: seq<Step>, step: Step, e: nat)
    requires e in Run(Start(config), steps).events && Run(Start(config), steps).events[e].status != Published
    ensures var st := Run(Start(config), steps);
            var st' := Apply(st, step);
            e in st'.events &&
            (st'.events[e].status == Published ==>
               (step.Finalize? && step.upload == e && st.next in st'.files &&
                st'.files[st.next] == RemoteFile(st.events[e].target, st.events[e].paths)) ||
               (step.Acknowledge? && step.delivery in st.deliveries &&
                Holds(st.events[e], st.deliveries[step.delivery].token) &&
                forall p :: p in st.events[e].paths ==> (st.events[e].target, p) !in st.objects))
  {
    var st := Run(Start(config), steps);
    Reachable(config, steps);
    match step
    case Finalize(d, seen, stored) => FinalizePublishes(st, e, d, seen, stored);
    case Acknowledge(d) => AcknowledgePublishes(st, e, d);
    case _ => OtherStepPublishesNothing(st, step, e);
  }

  lemma RemovedObject(st: State, d: nat, p: nat, x: (Target, nat))
    requires Inv(st) && x in st.objects && x !in R2.Remove(st, d, p).objects
    ensures x.1 == p && forall f :: f in st.files ==> x.1 !in st.files[f].paths
  {
    assert DeliveryOk(st, d);
  }

  lemma OtherStepKeepsObjects(st: State, step: Step)
    requires !step.Remove?
    ensures st.objects <= Apply(st, step).objects
  {
  }

  /** No worker removes an object that a file row names. */
  lemma NamedObjectsStay(config: Config, steps: seq<Step>, step: Step, x: (Target, nat))
    requires x in Run(Start(config), steps).objects && x !in Apply(Run(Start(config), steps), step).objects
    ensures var st := Run(Start(config), steps);
            step.Remove? && x.1 == step.path && forall f :: f in st.files ==> x.1 !in st.files[f].paths
  {
    var st := Run(Start(config), steps);
    Reachable(config, steps);
    if step.Remove? {
      RemovedObject(st, step.delivery, step.path, x);
    } else {
      OtherStepKeepsObjects(st, step);
    }
  }

  // ----- Who owns an object -----

  predicate NamesObject(target: Target, paths: set<nat>, x: (Target, nat))
  {
    target == x.0 && x.1 in paths
  }

  /** A file row names the object, or an event that is still unpublished does. */
  ghost predicate Owned(st: State, x: (Target, nat))
  {
    (exists f :: f in st.files && NamesObject(st.files[f].target, st.files[f].paths, x)) ||
    (exists e :: e in st.events && st.events[e].status != Published &&
       NamesObject(st.events[e].target, st.events[e].paths, x))
  }

  /** The step drops the file row that names the object while normalising changes the row's target again. */
  ghost predicate LosesOwner(st: State, step: Step, x: (Target, nat))
  {
    step.DropFile? && step.file in st.files && NamesObject(st.files[step.file].target, st.files[step.file].paths, x) &&
    Normalised(st.files[step.file].target) != st.files[step.file].target
  }

  /** Every file row stays, and every unpublished event stays one for the same objects. */
  ghost predicate KeepsOwners(st: State, st': State)
  {
    (forall f :: f in st.files ==> f in st'.files && st'.files[f] == st.files[f]) &&
    forall e :: e in st.events ==>
      e in st'.events && st'.events[e].target == st.events[e].target && st'.events[e].paths == st.events[e].paths &&
      (st.events[e].status != Published ==> st'.events[e].status != Published)
  }

  lemma OwnedStays(st: State, st': State, x: (Target, nat))
    requires Owned(st, x) && KeepsOwners(st, st')
    ensures Owned(st', x)
  {
    if f :| f in st.files && NamesObject(st.files[f].target, st.files[f].paths, x) {
      assert f in st'.files;
    } else {
      var e :| e in st.events && st.events[e].status != Published &&
        NamesObject(st.events[e].target, st.events[e].paths, x);
      assert e in st'.events;
    }
  }

  /** Every owner but event e stays. */
  lemma OwnedBeside(st: State, st': State, x: (Target, nat), e: nat)
    requires Owned(st, x) && e in st.events && !NamesObject(st.events[e].target, st.events[e].paths, x)
    requires forall f :: f in st.files ==> f in st'.files && st'.files[f] == st.files[f]
    requires forall d :: d in st.events && d != e ==> d in st'.events && st'.events[d] == st.events[d]
    ensures Owned(st', x)
  {
    if f :| f in st.files && NamesObject(st.files[f].target, st.files[f].paths, x) {
      assert f in st'.files;
    } else {
      var d :| d in st.events && st.events[d].status != Published &&
        NamesObject(st.events[d].target, st.events[d].paths, x);
      assert d in st'.events;
    }
  }

  lemma InsertedOwned(st: State, e: nat, x: (Target, nat))
    requires Inv(st) && Held(st, e) && x in st.objects && Owned(st, x) && st.next !in st.files && UploadOk(st, e)
    ensures Owned(R2.Insert(st, e), x)
  {
    var st' := R2.Insert(st, e);
    assert Owned(st, x);
    if NamesObject(st.events[e].target, st.events[e].paths, x) {
      assert st.next in st'.files && NamesObject(st'.files[st.next].target, st'.files[st.next].paths, x);
    } else {
      OwnedBeside(st, st', x, e);
    }
  }

  lemma PutOwned(st: State, e: nat, p: nat, x: (Target, nat))
    requires Inv(st) && x in R2.Put(st, e, p).objects && x !in st.objects
    ensures Owned(R2.Put(st, e, p), x)
  {
    assert UploadOk(st, e);
    assert NamesObject(st.events[e].target, st.events[e].paths, x);
  }

  lemma AcknowledgedOwned(st: State, d: nat, x: (Target, nat))
    requires Inv(st) && x in st.objects && Owned(st, x)
    ensures Owned(R2.Acknowledge(st, d), x)
  {
    var st' := R2.Acknowledge(st, d);
    if st'.events == st.events {
      OwnedStays(st, st', x);
    } else {
      assert DeliveryOk(st, d);
      OwnedBeside(st, st', x, st.deliveries[d].event);
    }
  }

  /** Dropping a row: its objects pass to the event exactly when normalising does not change the target. */
  lemma DroppedOwned(st: State, f: nat, x: (Target, nat))
    requires Inv(st) && f in st.files && Owned(st, x)
    ensures Owned(R2.DropFile(st, f), x) <==> !LosesOwner(st, DropFile(f), x)
  {
    var st' := R2.DropFile(st, f);
    assert FileOk(st, f) && (st.next in st.events ==> EventOk(st, st.next));
    if NamesObject(st.files[f].target, st.files[f].paths, x) {
      forall e | e in st.events && st.events[e].status != Published
        ensures x.1 !in st.events[e].paths
      {
        assert EventOk(st, e);
      }
      assert NamesObject(st'.events[st.next].target, st'.events[st.next].paths, x) <==> !LosesOwner(st, DropFile(f), x);
      assert st.next in st'.events && st'.events[st.next].status != Published;
    } else if g :| g in st.files && NamesObject(st.files[g].target, st.files[g].paths, x) {
      assert g in st'.files;
    } else {
      var e :| e in st.events && st.events[e].status != Published &&
        NamesObject(st.events[e].target, st.events[e].paths, x);
      assert e in st'.events;
    }
  }

  lemma FinalizedOwned(st: State, e: nat, seen: nat, stored: bool, x: (Target, nat))
    requires Inv(st) && x in st.objects && Owned(st, x)
    ensures Owned(R2.Finalize(st, e, seen, stored), x)
  {
    if R2.Finalizable(st, e, seen, stored) && st.uploads[e].deadline.Some? {
      assert UploadOk(st, e) && (st.next in st.files ==> FileOk(st, st.next));
      InsertedOwned(st, e, x);
    } else {
      OwnedStays(st, R2.Finalize(st, e, seen, stored), x);
    }
  }

  /** The steps that change who owns an object. */
  predicate Hands(step: Step)
  {
    step.DropFile? || step.Finalize? || step.Acknowledge?
  }

  lemma UploadKeepsOwners(st: State, e: nat, p: nat)
    ensures KeepsOwners(st, R2.Activate(st, e)) && KeepsOwners(st, R2.Begin(st, e)) && KeepsOwners(st, R2.Put(st, e, p))
  {
  }

  lemma StageKeepsOwners(st: State, target: Target, seen: nat)
    requires Inv(st)
    ensures KeepsOwners(st, R2.Stage(st, target, seen))
  {
    assert st.next in st.events ==> EventOk(st, st.next);
  }

  lemma DeliveryKeepsOwners(st: State, d: nat, p: nat)
    ensures KeepsOwners(st, R2.Check(st, d)) && KeepsOwners(st, R2.Remove(st, d, p)) &&
            KeepsOwners(st, R2.Postpone(st, d))
  {
    hide Configured, Normalised, KeepsOwners;
    SameRowsKeepOwners(st, R2.Check(st, d));
    SameRowsKeepOwners(st, R2.Remove(st, d, p));
    PostponeKeepsOwners(st, d);
  }

  lemma PostponeKeepsOwners(st: State, d: nat)
    ensures KeepsOwners(st, R2.Postpone(st, d))
  {
  }

  lemma ClaimKeepsOwners(st: State, e: nat, seen: nat, lease: nat)
    ensures KeepsOwners(st, R2.Claim(st, e, seen, lease))
  {
  }

  lemma SameRowsKeepOwners(st: State, st': State)
    requires st'.files == st.files && st'.events == st.events
    ensures KeepsOwners(st, st')
  {
  }

  lemma QuietOwned(st: State, step: Step, x: (Target, nat))
    requires Inv(st) && Owned(st, x) && !Hands(step)
    ensures Owned(Apply(st, step), x)
  {
    hide KeepsOwners, Owned, Inv, R2.Stage, R2.Begin, R2.Put, R2.Activate, R2.Claim, R2.Check, R2.Remove, R2.Postpone,
         R2.Update;
    SameRowsKeepOwners(st, st);
    match step {
      case Stage(target, seen) => StageKeepsOwners(st, target, seen);
      case Begin(e) => UploadKeepsOwners(st, e, 0);
      case Put(e, p) => UploadKeepsOwners(st, e, p);
      case Activate(e) => UploadKeepsOwners(st, e, 0);
      case Claim(e, seen, lease) => ClaimKeepsOwners(st, e, seen, lease);
      case Check(d) => DeliveryKeepsOwners(st, d, 0);
      case Remove(d, p) => DeliveryKeepsOwners(st, d, p);
      case Postpone(d) => DeliveryKeepsOwners(st, d, 0);
      case Update(proposed, unclassified) => UpdateKeepsOwners(st, proposed, unclassified);
      case _ => SameRowsKeepOwners(st, Apply(st, step));
    }
    OwnedStays(st, Apply(st, step), x);
  }

  lemma UpdateKeepsOwners(st: State, proposed: Config, unclassified: nat)
    ensures KeepsOwners(st, R2.Update(st, proposed, unclassified))
  {
  }

  /** An object that exists before and after a step loses its owner if and only if the step drops the row that
      names it and normalising the row's target changes it; a new object always has an owner. */
  lemma OwnershipStep(st: State, step: Step, x: (Target, nat))
    requires Inv(st) && x in Apply(st, step).objects && (x in st.objects ==> Owned(st, x))
    ensures Owned(Apply(st, step), x) <==> !LosesOwner(st, step, x)
  {
    if x !in st.objects {
      if step.Put? {
        PutOwned(st, step.upload, step.path, x);
      } else {
        NewObjects(st, step);
      }
    } else if Hands(step) {
      match step
      case DropFile(f) =>
        if f in st.files {
          DroppedOwned(st, f, x);
        }
      case Finalize(e, seen, stored) =>
        if Possible(st, step) {
          FinalizedOwned(st, e, seen, stored, x);
        }
      case Acknowledge(d) => AcknowledgedOwned(st, d, x);
    } else {
      QuietOwned(st, step, x);
    }
  }

  lemma NewObjects(st: State, step: Step)
    requires !step.Put?
    ensures Apply(st, step).objects <= st.objects
  {
  }

  /** In every run an uploaded object is named by a file row or by an unpublished event on its target, unless
      an earlier step dropped its row while normalising changed the row's target again. */
  lemma {:induction false} EveryObjectIsOwned(config: Config, steps: seq<Step>, x: (Target, nat))
    requires x in Run(Start(config), steps).objects
    ensures Owned(Run(Start(config), steps), x) ||
            exists n :: 0 <= n < |steps| && LosesOwner(Run(Start(config), steps[..n]), steps[n], x)
  {
    if steps != [] {
      var last := |steps| - 1;
      var before := steps[..last];
      var st := Run(Start(config), before);
      Reachable(config, before);
      if x in st.objects {
        EveryObjectIsOwned(config, before, x);
        if !Owned(st, x) {
          var n :| 0 <= n < last && LosesOwner(Run(Start(config), before[..n]), before[n], x);
          assert before[..n] == steps[..n] && before[n] == steps[n];
        } else {
          OwnershipStep(st, steps[last], x);
        }
      } else {
        OwnershipStep(st, steps[last], x);
      }
    }
  }

  /** The exact moment at which an object is lost, in terms of the configuration: the row is on the configured
      target, nothing else names the object, and normalising does not settle the endpoint. */
  lemma DropLosesExactly(config: Config, steps: seq<Step>, f: nat, p: nat)
    requires var st := Run(Start(config), steps);
             f in st.files && p in st.files[f].paths && st.files[f].target == Configured(st.config)
    ensures var st := Run(Start(config), steps);
            Owned(R2.DropFile(st, f), (st.files[f].target, p)) <==> Settled(st.config.endpoint)
  {
    var st := Run(Start(config), steps);
    Reachable(config, steps);
    assert FileOk(st, f);
    assert NamesObject(st.files[f].target, st.files[f].paths, (st.files[f].target, p));
    TrimSpaceFixes(st.files[f].target.bucket);
    DroppedOwned(st, f, (st.files[f].target, p));
  }

  // ----- Configurations that normalising settles -----

  /** Every endpoint that the run is configured with. */
  predicate AllSettled(config: Config, steps: seq<Step>)
  {
    Settled(config.endpoint) && forall n :: 0 <= n < |steps| && steps[n].Update? ==> Settled(steps[n].proposed.endpoint)
  }

  ghost predicate Matched(st: State)
  {
    && Settled(st.config.endpoint)
    && (forall f :: f in st.files ==> st.files[f].target == Configured(st.config))
    && (forall e :: e in st.events && st.events[e].status != Published ==> st.events[e].target == Configured(st.config))
  }

  /** On a settled configuration the enqueued target is the row's own. */
  lemma SettledTarget(config: Config)
    requires Settled(config.endpoint)
    ensures Normalised(Configured(config)) == Configured(config)
  {
    TrimSpaceTrims(config.bucket);
    TrimSpaceFixes(TrimSpace(config.bucket));
  }

  /** An accepted update that moves the target finds neither rows nor unpublished events. */
  lemma MovesFreely(st: State, proposed: Config, unclassified: nat)
    requires Matched(st) && Accepts(st, proposed, unclassified) && Configured(proposed) != Configured(st.config)
    ensures st.files == map[] && !PendingDeletes(st)
  {
    SettledTarget(st.config);
  }

  lemma StepKeepsMatched(st: State, step: Step)
    requires Matched(st) && (step.Update? ==> Settled(step.proposed.endpoint))
    ensures Matched(Apply(st, step))
  {
    if step.DropFile? {
      SettledTarget(st.config);
      DropKeepsMatched(st, step.file);
    } else if step.Update? {
      UpdateKeepsMatched(st, step.proposed, step.unclassified);
    } else {
      hide Apply, Configured;
      TargetsStay(st, step);
    }
  }

  lemma DropKeepsMatched(st: State, f: nat)
    requires Matched(st) && Normalised(Configured(st.config)) == Configured(st.config)
    ensures Matched(R2.DropFile(st, f))
  {
    hide Configured, Normalised, Settled;
  }

  lemma UpdateKeepsMatched(st: State, proposed: Config, unclassified: nat)
    requires Matched(st) && Settled(proposed.endpoint)
    ensures Matched(R2.Update(st, proposed, unclassified))
  {
    hide Configured, Normalised, Settled;
    if Accepts(st, proposed, unclassified) && Configured(proposed) != Configured(st.config) {
      MovesFreely(st, proposed, unclassified);
    }
  }

  /** New file rows and new or reopened events are on the configured target. */
  ghost predicate TargetsNext(st: State, st': State)
  {
    st'.config == st.config &&
    (forall f :: f in st'.files ==>
       (f in st.files && st'.files[f] == st.files[f]) || st'.files[f].target == Configured(st.config)) &&
    (forall e :: e in st'.events && st'.events[e].status != Published ==>
       (e in st.events && st.events[e].status != Published && st'.events[e].target == st.events[e].target) ||
       st'.events[e].target == Configured(st.config))
  }

  lemma UploadTargets(st: State, e: nat, p: nat)
    ensures TargetsNext(st, R2.Activate(st, e)) && TargetsNext(st, R2.Begin(st, e)) && TargetsNext(st, R2.Put(st, e, p))
  {
    hide Configured;
  }

  lemma StageTargets(st: State, target: Target, seen: nat)
    ensures TargetsNext(st, R2.Stage(st, target, seen))
  {
    hide Configured;
  }

  lemma FinalizeTargets(st: State, e: nat, seen: nat, stored: bool)
    ensures TargetsNext(st, R2.Finalize(st, e, seen, stored))
  {
    hide Configured;
  }

  lemma DeliveryTargets(st: State, d: nat, p: nat)
    ensures TargetsNext(st, R2.Check(st, d)) && TargetsNext(st, R2.Remove(st, d, p)) &&
            TargetsNext(st, R2.Postpone(st, d))
    ensures TargetsNext(st, R2.Acknowledge(st, d))
  {
    hide Configured, Normalised;
  }

  lemma ClaimTargets(st: State, e: nat, seen: nat, lease: nat)
    ensures TargetsNext(st, R2.Claim(st, e, seen, lease))
  {
    hide Configured;
  }

  lemma SameTargets(st: State, st': State)
    requires st'.config == st.config && st'.files == st.files && st'.events == st.events
    ensures TargetsNext(st, st')
  {
  }

  lemma TargetsStay(st: State, step: Step)
    requires !step.DropFile? && !step.Update?
    ensures TargetsNext(st, Apply(st, step))
  {
    hide TargetsNext, R2.Stage, R2.Begin, R2.Put, R2.Activate, R2.Finalize, R2.Claim, R2.Check, R2.Remove, R2.Postpone,
         R2.Acknowledge;
    SameTargets(st, st);
    match step
    case Stage(target, seen) => StageTargets(st, target, seen);
    case Begin(e) => UploadTargets(st, e, 0);
    case Put(e, p) => UploadTargets(st, e, p);
    case Activate(e) => UploadTargets(st, e, 0);
    case Finalize(e, seen, stored) => FinalizeTargets(st, e, seen, stored);
    case Claim(e, seen, lease) => ClaimTargets(st, e, seen, lease);
    case Check(d) => DeliveryTargets(st, d, 0);
    case Remove(d, p) => DeliveryTargets(st, d, p);
    case Postpone(d) => DeliveryTargets(st, d, 0);
    case Acknowledge(d) => DeliveryTargets(st, d, 0);
    case _ => SameTargets(st, Apply(st, step));
  }

  /** Every R2 row and every unpublished event is on exactly the configured target, in every run whose
      configured endpoints normalising settles. */
  lemma {:induction false} TargetsMatch(config: Config, steps: seq<Step>)
    requires AllSettled(config, steps)
    ensures Matched(Run(Start(config), steps))
  {
    if steps != [] {
      var before := steps[..|steps| - 1];
      TargetsMatch(config, before);
      StepKeepsMatched(Run(Start(config), before), steps[|steps| - 1]);
    }
  }

  /** In such a run no object is ever lost. */
  lemma SettledRunsLoseNothing(config: Config, steps: seq<Step>, x: (Target, nat))
    requires AllSettled(config, steps) && x in Run(Start(config), steps).objects
    ensures Owned(Run(Start(config), steps), x)
  {
    EveryObjectIsOwned(config, steps, x);
    forall n | 0 <= n < |steps|
      ensures !LosesOwner(Run(Start(config), steps[..n]), steps[n], x)
    {
      TargetsMatch(config, steps[..n]);
      SettledTarget(Run(Start(config), steps[..n]).config);
    }
  }

  /** What the guard depends on, for all rows on the configured target: an update that moves the target is
      accepted for some proposal exactly when normalising does not settle the configured endpoint and neither
      an unpublished event nor a row without lineage stands in the way. */
  lemma GuardNeedsSettled(st: State, unclassified: nat)
    requires st.files != map[] && forall f :: f in st.files ==> st.files[f].target == Configured(st.config)
    ensures (exists proposed :: Accepts(st, proposed, unclassified) &&
               Configured(proposed) != Configured(st.config)) <==>
            !Settled(st.config.endpoint) && !PendingDeletes(st) && unclassified == 0
  {
    var row := Configured(st.config);
    var f :| f in st.files;
    TrimSpaceTrims(st.config.bucket);
    TrimSpaceFixes(TrimSpace(st.config.bucket));
    if !Settled(st.config.endpoint) && !PendingDeletes(st) && unclassified == 0 {
      var moved := Config(true, row.endpoint, st.config.bucket);
      assert Configured(moved) == Normalised(row);
      assert Accepts(st, moved, unclassified) && Configured(moved) != row;
    }
  }

  // ----- A run that loses an object -----

  const SPACED: Config := Config(true, "https://h/ /", "b")

  /** An upload whose file row is inserted and dropped again; the row gets the id 3. */
  const LOSING: seq<Step> :=
    [Stage(Target("https://h/ ", "b"), 0), Begin(0), Put(0, 0), Finalize(0, 0, true), DropFile(3)]

  lemma SpacedTargets()
    ensures var target := Target("https://h/ ", "b");
            Configured(SPACED) == target && Normalised(target) == Target("https://h", "b")
  {
    Unsettled();
    TrimSpaceFixes("b");
  }

  lemma LosingStates()
    ensures var target := Target("https://h/ ", "b");
            var d := R2.Finalize(R2.Put(R2.Begin(R2.Stage(Start(SPACED), target, 0), 0), 0, 0), 0, 0, true);
            3 in d.files && d.files[3] == RemoteFile(target, {0, 1, 2}) && (target, 0) in d.objects
  {
    SpacedTargets();
    hide Endpoint, TrimSpace, Configured, Normalised;
    var target := Target("https://h/ ", "b");
    var a := R2.Stage(Start(SPACED), target, 0);
    assert a.uploads[0] == Upload(0, target, {0, 1, 2}, 300, None) && a.next == 3;
    var b := R2.Begin(a, 0);
    assert b.uploads[0].deadline == Some(120);
  }

  lemma LosingRun()
    ensures var target := Target("https://h/ ", "b");
            Run(Start(SPACED), LOSING[..4]) ==
              R2.Finalize(R2.Put(R2.Begin(R2.Stage(Start(SPACED), target, 0), 0), 0, 0), 0, 0, true)
  {
    hide R2.Stage, R2.Begin, R2.Put, R2.Finalize, R2.DropFile;
    var st, target := Start(SPACED), Target("https://h/ ", "b");
    assert LOSING[..1][..0] == [] && LOSING[..2][..1] == LOSING[..1];
    assert LOSING[..3][..2] == LOSING[..2] && LOSING[..4][..3] == LOSING[..3];
    var a := Run(st, LOSING[..1]);
    assert LOSING[..1][|LOSING[..1]| - 1] == Stage(target, 0) && Run(st, LOSING[..1][..0]) == st;
    assert a == Apply(st, Stage(target, 0)) == R2.Stage(st, target, 0);
    var b := Run(st, LOSING[..2]);
    assert b == R2.Begin(a, 0);
    var c := Run(st, LOSING[..3]);
    assert c == R2.Put(b, 0, 0);
  }

  lemma LastStep(d: State)
    requires d == Run(Start(SPACED), LOSING[..4])
    ensures Run(Start(SPACED), LOSING) == R2.DropFile(d, 3)
  {
    hide R2.DropFile;
    assert LOSING[..|LOSING| - 1] == LOSING[..4];
  }

  lemma ObjectLost()
    ensures var x := (Target("https://h/ ", "b"), 0);
            x in Run(Start(SPACED), LOSING).objects && !Owned(Run(Start(SPACED), LOSING), x)
  {
    var target := Target("https://h/ ", "b");
    LosingStates();
    LosingRun();
    SpacedTargets();
    var d, x := Run(Start(SPACED), LOSING[..4]), (target, 0);
    Reachable(SPACED, LOSING[..4]);
    LastStep(d);
    hide Run, R2.Stage, R2.Begin, R2.Put, R2.Finalize, Configured, Normalised, LOSING;
    assert NamesObject(d.files[3].target, d.files[3].paths, x);
    DroppedOwned(d, 3, x);
  }
}
