/** Remote objects: the upload intent that owns an object until its file row exists, the workers that
    delete what nobody owns, and the guard that keeps rows and intents on the configured target.

    Every transaction under the storage lock is one step; uploads, remote deletions, crashes, lease
    expiry and the passing of time are separate ones. */
module R2 {
  import opened Collections
  import opened Text

  const UPLOAD_TIMEOUT: nat := 120
  const INTENT_LEASE: nat := 300
  const LEASE_SAFETY: nat := 10

  datatype Target = Target(endpoint: string, bucket: string)

  datatype Config = Config(enabled: bool, endpoint: string, bucket: string)

  datatype EventStatus = Pending | Publishing | Published

  /** A storage-delete event with remote objects: an upload intent or a deletion. */
  datatype Event = Event(target: Target, paths: set<nat>, status: EventStatus, token: Option<nat>, lease: nat)

  /** What an upload request holds in memory; its key is the id of its intent. */
  datatype Upload = Upload(token: nat, target: Target, paths: set<nat>, lease: nat, deadline: Option<nat>)

  datatype RemoteFile = RemoteFile(target: Target, paths: set<nat>)

  /** What a deletion worker holds in memory; `doomed` are the paths it found unreferenced and has not removed yet. */
  datatype Delivery = Delivery(event: nat, token: nat, doomed: Option<set<nat>>)

  datatype State = State(
    clock: nat,
    config: Config,
    objects: set<(Target, nat)>,
    files: map<nat, RemoteFile>,
    events: map<nat, Event>,
    uploads: map<nat, Upload>,
    deliveries: map<nat, Delivery>,
    next: nat)

  function Configured(config: Config): Target
  {
    Target(Endpoint(config.endpoint), TrimSpace(config.bucket))
  }

  function Normalised(target: Target): Target
  {
    Target(Endpoint(target.endpoint), TrimSpace(target.bucket))
  }

  predicate Holds(event: Event, token: nat)
  {
    event.status == Publishing && event.token == Some(token)
  }

  predicate Named(files: map<nat, RemoteFile>, p: nat)
  {
    exists f :: f in files && p in files[f].paths
  }

  // ----- Uploads -----

  /** stageR2UploadCleanupIntent for the snapshot `target`, with three fresh object names. */
  function Stage(st: State, target: Target, seen: nat): State
  {
    if !st.config.enabled || Configured(st.config) != target then st
    else
      var e, t, lease := st.next, st.next, seen + INTENT_LEASE;
      var paths := {st.next, st.next + 1, st.next + 2};
      st.(events := st.events[e := Event(target, paths, Publishing, Some(t), lease)],
          uploads := st.uploads[e := Upload(t, target, paths, lease, None)],
          next := st.next + 3)
  }

  function Activated(events: map<nat, Event>, e: nat, token: nat): map<nat, Event>
  {
    if e in events && Holds(events[e], token) then events[e := events[e].(status := Pending, token := None)] else events
  }

  /** activateR2UploadCleanupIntent, with which a failed request ends. */
  function Activate(st: State, e: nat): State
  {
    if e !in st.uploads then st
    else st.(events := Activated(st.events, e, st.uploads[e].token), uploads := st.uploads - {e})
  }

  function Deadline(upload: Upload, now: nat): int
  {
    Min(now + UPLOAD_TIMEOUT, upload.lease - LEASE_SAFETY)
  }

  function Begin(st: State, e: nat): State
  {
    if e !in st.uploads || st.uploads[e].deadline.Some? then st
    else
      var deadline := Deadline(st.uploads[e], st.clock);
      if deadline <= st.clock then Activate(st, e)
      else st.(uploads := st.uploads[e := st.uploads[e].(deadline := Some(deadline))])
  }

  /** An object arrives, which its context allows until the deadline. */
  function Put(st: State, e: nat, p: nat): State
  {
    if e !in st.uploads || st.uploads[e].deadline == None || st.uploads[e].deadline.value < st.clock ||
      p !in st.uploads[e].paths then st
    else st.(objects := st.objects + {(st.uploads[e].target, p)})
  }

  /** The checks of finalizeR2UploadedImageFile; `stored` says whether the row could be inserted. */
  predicate Finalizable(st: State, e: nat, seen: nat, stored: bool)
  {
    e in st.uploads && e in st.events && Holds(st.events[e], st.uploads[e].token) && st.config.enabled &&
    Configured(st.config) == st.uploads[e].target && st.events[e].lease > seen && stored
  }

  function Finalize(st: State, e: nat, seen: nat, stored: bool): State
  {
    if e !in st.uploads || st.uploads[e].deadline == None then st
    else if Finalizable(st, e, seen, stored) then Insert(st, e)
    else Activate(st, e)
  }

  /** The file row takes over the objects in the transaction that publishes the intent. */
  function Insert(st: State, e: nat): State
    requires e in st.uploads && e in st.events
  {
    st.(files := st.files[st.next := RemoteFile(st.uploads[e].target, st.uploads[e].paths)],
        events := st.events[e := st.events[e].(status := Published, token := None)],
        uploads := st.uploads - {e},
        next := st.next + 1)
  }

  // ----- Deletions -----

  /** The transaction of an image delete or of a failed create that drops the last reference. */
  function DropFile(st: State, f: nat): State
  {
    if f !in st.files then st
    else
      st.(files := st.files - {f},
          events := st.events[st.next := Event(Normalised(st.files[f].target), st.files[f].paths, Pending, None, 0)],
          next := st.next + 1)
  }

  predicate Claimable(event: Event, seen: nat)
  {
    event.status == Pending || (event.status == Publishing && event.lease <= seen)
  }

  function Claim(st: State, e: nat, seen: nat, lease: nat): State
  {
    if e !in st.events || !Claimable(st.events[e], seen) then st
    else
      st.(events := st.events[e := st.events[e].(status := Publishing, token := Some(st.next), lease := seen + lease)],
          deliveries := st.deliveries[st.next := Delivery(e, st.next, None)],
          next := st.next + 1)
  }

  /** The reference check under the storage lock. */
  function Check(st: State, d: nat): State
  {
    if d !in st.deliveries || st.deliveries[d].doomed.Some? || st.deliveries[d].event !in st.events then st
    else
      var doomed := set p | p in st.events[st.deliveries[d].event].paths && !Named(st.files, p);
      st.(deliveries := st.deliveries[d := st.deliveries[d].(doomed := Some(doomed))])
  }

  /** One remote deletion on the configured target, which CanDelete allows if the event's target, normalised
      once more, is that. */
  function Remove(st: State, d: nat, p: nat): State
  {
    if d !in st.deliveries || st.deliveries[d].doomed == None || p !in st.deliveries[d].doomed.value ||
       st.deliveries[d].event !in st.events ||
       Normalised(st.events[st.deliveries[d].event].target) != Configured(st.config) then st
    else
      var delivery := st.deliveries[d];
      st.(objects := st.objects - {(Configured(st.config), p)},
          deliveries := st.deliveries[d := delivery.(doomed := Some(delivery.doomed.value - {p}))])
  }

  /** MarkPublished, after a delivery without error. */
  function Acknowledge(st: State, d: nat): State
  {
    if d !in st.deliveries || st.deliveries[d].doomed != Some({}) then st
    else
      var e := st.deliveries[d].event;
      var rest := st.(deliveries := st.deliveries - {d});
      if e !in st.events || !Holds(st.events[e], st.deliveries[d].token) then rest
      else rest.(events := st.events[e := st.events[e].(status := Published, token := None)])
  }

  /** DeferUnconfigured, after any error of a delivery. */
  function Postpone(st: State, d: nat): State
  {
    if d !in st.deliveries then st
    else st.(events := Activated(st.events, st.deliveries[d].event, st.deliveries[d].token),
             deliveries := st.deliveries - {d})
  }

  // ----- Configuration -----

  predicate PendingDeletes(st: State)
  {
    exists e :: e in st.events && st.events[e].status != Published
  }

  /** validateR2ConfigUpdate on the target; `unclassified` counts historical rows without a lineage. */
  predicate Accepts(st: State, proposed: Config, unclassified: nat)
  {
    Configured(st.config) == Configured(proposed) ||
    (!PendingDeletes(st) && unclassified == 0 && forall f :: f in st.files ==>
     Normalised(st.files[f].target) == Configured(proposed))
  }

  function Update(st: State, proposed: Config, unclassified: nat): State
  {
    if Accepts(st, proposed, unclassified) then st.(config := proposed) else st
  }

  // ----- The service -----

  class RemoteStore {
    var clock: nat
    var config: Config
    var objects: set<(Target, nat)>
    var files: map<nat, RemoteFile>
    var events: map<nat, Event>
    var uploads: map<nat, Upload>
    var deliveries: map<nat, Delivery>
    var next: nat

    ghost function View(): State
      reads this
    {
      State(clock, config, objects, files, events, uploads, deliveries, next)
    }

    method StageIntent(target: Target, seen: nat) returns (e: Option<nat>)
      modifies this
      ensures View() == Stage(old(View()), target, seen)
      ensures e == if old(View()).config.enabled && Configured(old(View()).config) == target then Some(old(View()).next)
              else None
    {
      if !config.enabled || Configured(config) != target {
        return None;
      }
      var paths, lease := {next, next + 1, next + 2}, seen + 300;
      events := events[next := Event(target, paths, Publishing, Some(next), lease)];
      uploads := uploads[next := Upload(next, target, paths, lease, None)];
      e := Some(next);
      next := next + 3;
    }

    method ActivateIntent(e: nat)
      modifies this`events, this`uploads
      ensures View() == Activate(old(View()), e)
    {
      if e !in uploads {
        return;
      }
      var token := uploads[e].token;
      if e in events && Holds(events[e], token) {
        events := events[e := events[e].(status := Pending, token := None)];
      }
      uploads := uploads - {e};
    }

    /** The deadline of the uploads that follow, or the end of the request. */
    method BeginUploads(e: nat)
      modifies this`events, this`uploads
      ensures View() == Begin(old(View()), e)
    {
      if e !in uploads || uploads[e].deadline.Some? {
        return;
      }
      var deadline: int := clock + 120;
      var leaseDeadline := uploads[e].lease - 10;
      if leaseDeadline < deadline {
        deadline := leaseDeadline;
      }
      if deadline <= clock {
        ActivateIntent(e);
      } else {
        uploads := uploads[e := uploads[e].(deadline := Some(deadline))];
      }
    }

    method FinalizeFile(e: nat, seen: nat, stored: bool)
      modifies this
      ensures View() == Finalize(old(View()), e, seen, stored)
    {
      if e !in uploads || uploads[e].deadline == None {
        return;
      }
      if e !in events || !Holds(events[e], uploads[e].token) {
        ActivateIntent(e);
        return;
      }
      if !config.enabled || Configured(config) != uploads[e].target || events[e].lease <= seen || !stored {
        ActivateIntent(e);
        return;
      }
      files := files[next := RemoteFile(uploads[e].target, uploads[e].paths)];
      events := events[e := events[e].(status := Published, token := None)];
      uploads := uploads - {e};
      next := next + 1;
    }

    method UpdateTarget(proposed: Config, unclassified: nat) returns (accepted: bool)
      modifies this`config
      ensures View() == Update(old(View()), proposed, unclassified)
      ensures accepted <==> Accepts(old(View()), proposed, unclassified)
    {
      if Configured(config) == Configured(proposed) {
        config := proposed;
        return true;
      }
      if (exists e :: e in events && events[e].status != Published) || unclassified > 0 {
        return false;
      }
      accepted := forall f :: f in files ==> Normalised(files[f].target) == Configured(proposed);
      if accepted {
        config := proposed;
      }
    }
  }
}
