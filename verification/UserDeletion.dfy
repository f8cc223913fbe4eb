/** Deleting an account in small transactions: which ones may run, that they lose nothing before the
    point of no return, and that they come to an end. */
module UserDeletion {
  import opened Collections

  type Time = nat

  const ROW_BATCH: nat := 100
  const IMAGE_BATCH: nat := 25
  const DELETION_LOCK: nat := 86_400

  datatype Status = Active | Suspended | PendingDeletion | Deleting

  datatype Account = Account(status: Status, scheduledAt: Option<Time>)

  /** The child rows of an account, by the phase that deletes them; the logins of an identity
      session belong to the same account, so they are gone when its phase comes. */
  datatype Table =
    | ProcessingJobs
    | AccessTokens
    | Variants
    | Images
    | CsrfTokens
    | UploadParts
    | UploadSessions
    | Logins
    | Identities
    | Notifications
    | AuditLogs
    | UploadQueues

  const PHASES: seq<Table> := [ProcessingJobs, AccessTokens, Variants, Images, CsrfTokens, UploadParts, UploadSessions,
                               Logins, Identities, Notifications, AuditLogs, UploadQueues]

  datatype SessionStatus = Completed | Failed | Cancelled | Unfinished

  datatype Upload = Upload(status: SessionStatus, staged: bool)

  type Tables = map<Table, set<nat>>

  /** What goes with the sessions of an account: CSRF tokens refer to theirs with ON DELETE CASCADE. */
  const SESSION_TABLES: set<Table> := {Logins, Identities, CsrfTokens}

  /** `ending` counts the deletion requests that have still to end the sessions of the account; `live` are the
      account's jobs that neither completed nor died; `files` holds for each file row the paths that are deleted
      with it, the AVIF beside the processed file among them; `foreign` counts other users' images of a file. */
  datatype State = State(
    clock: Time,
    user: Option<Account>,
    ending: nat,
    tables: Tables,
    live: set<nat>,
    uploads: map<nat, Upload>,
    variantPath: map<nat, nat>,
    imageFile: map<nat, nat>,
    files: map<nat, set<nat>>,
    foreign: map<nat, nat>,
    events: seq<set<nat>>)

  function Rows(tables: Tables, t: Table): set<nat>
  {
    if t in tables then tables[t] else {}
  }

  // ----- The administrator -----

  function Request(st: State): State
  {
    if st.user == None || st.user.value.status != Active then st
    else st.(user := Some(Account(PendingDeletion, Some(st.clock + DELETION_LOCK))), ending := st.ending + 1)
  }

  /** The request then ends the sessions by a statement of its own, whose error it ignores; in between the
      deletion can be cancelled. */
  function EndSessions(st: State, works: bool): State
  {
    if st.ending == 0 then st
    else
      var rest := st.(ending := st.ending - 1);
      if works then rest.(tables := st.tables[Logins := {}][Identities := {}][CsrfTokens := {}]) else rest
  }

  function Cancel(st: State): State
  {
    if st.user == None || st.user.value.status != PendingDeletion then st else st.(user := Some(Account(Active, None)))
  }

  function SetStatus(st: State, status: Status): State
  {
    if st.user == None || !((status == Active && st.user.value.status == Suspended) ||
                            (status == Suspended && st.user.value.status == Active))
    then st
    else st.(user := Some(st.user.value.(status := status)))
  }

  // ----- The worker -----

  predicate Eligible(user: Option<Account>, now: Time)
  {
    user.Some? &&
    (user.value.status == Deleting ||
     (user.value.status == PendingDeletion && user.value.scheduledAt.Some? && user.value.scheduledAt.value <= now))
  }

  predicate Blocks(upload: Upload)
  {
    upload.status == Unfinished || upload.staged
  }

  predicate Busy(st: State)
  {
    st.live != {} || exists s :: s in Rows(st.tables, UploadSessions) && s in st.uploads && Blocks(st.uploads[s])
  }

  /** The first phase with rows left, from phase n on. */
  function PhaseFrom(tables: Tables, n: nat): (r: Option<Table>)
    requires n <= |PHASES|
    ensures r.Some? ==> Rows(tables, r.value) != {}
    decreases |PHASES| - n
  {
    if n == |PHASES| then None else if Rows(tables, PHASES[n]) != {} then Some(PHASES[n]) else PhaseFrom(tables, n + 1)
  }

  function Limit(t: Table): nat
  {
    if t == Images then IMAGE_BATCH else ROW_BATCH
  }

  /** ORDER BY id LIMIT n */
  predicate BatchOf(picked: set<nat>, rows: set<nat>, limit: nat)
  {
    picked <= rows && |picked| == (if |rows| <= limit then |rows| else limit) &&
    forall p, q :: p in picked && q in rows && q !in picked ==> p < q
  }

  /** The files of the picked images that nobody references any more. */
  function Unreferenced(st: State, picked: set<nat>): set<nat>
  {
    set i | i in picked && i in st.imageFile && st.imageFile[i] in st.files &&
      !StillReferenced(st, picked, st.imageFile[i]) ::
      st.imageFile[i]
  }

  predicate StillReferenced(st: State, picked: set<nat>, f: nat)
  {
    (f in st.foreign && st.foreign[f] > 0) ||
    exists i :: i in Rows(st.tables, Images) && i !in picked && i in st.imageFile && st.imageFile[i] == f
  }

  function FilePaths(files: map<nat, set<nat>>, dropped: set<nat>): set<nat>
  {
    set f, p | f in dropped && f in files && p in files[f] :: p
  }

  function VariantPaths(st: State, picked: set<nat>): set<nat>
  {
    set v | v in picked && v in st.variantPath :: st.variantPath[v]
  }

  /** One phase's batch, which moves the account past the point of no return first. */
  function DeleteBatch(st: State, t: Table, picked: set<nat>): State
    requires st.user.Some?
  {
    var begun := st.(user := Some(st.user.value.(status := Deleting)),
                     tables := st.tables[t := Rows(st.tables, t) - picked]);
    match t
    case Variants => begun.(events := st.events + [VariantPaths(st, picked)])
    case Images =>
      var dropped := Unreferenced(st, picked);
      begun.(files := st.files - dropped, events := st.events + [FilePaths(st.files, dropped)])
    case _ => begun
  }

  datatype Outcome = NotEligible | StillBusy | Progress(phase: Table, rows: nat) | Done

  /** deleteUserRecords, with the batch that it finds. */
  function DeleteRecords(st: State, now: Time, picked: set<nat>): (State, Outcome)
  {
    if !Eligible(st.user, now) then (st, NotEligible)
    else if Busy(st) then (st, StillBusy)
    else
      var phase := PhaseFrom(st.tables, 0);
      if phase == None then (st.(user := None), Done)
      else (DeleteBatch(st, phase.value, picked), Progress(phase.value, |picked|))
  }

  class UserDeletionWorker {
    var clock: Time
    var user: Option<Account>
    var ending: nat
    var tables: Tables
    var live: set<nat>
    var uploads: map<nat, Upload>
    var variantPath: map<nat, nat>
    var imageFile: map<nat, nat>
    var files: map<nat, set<nat>>
    var foreign: map<nat, nat>
    var events: seq<set<nat>>

    ghost function View(): State
      reads this
    {
      State(clock, user, ending, tables, live, uploads, variantPath, imageFile, files, foreign, events)
    }

    method DeleteUserRecords(now: Time, picked: set<nat>) returns (outcome: Outcome)
      modifies this`user, this`tables, this`files, this`events
      ensures (View(), outcome) == DeleteRecords(old(View()), now, picked)
    {
      if user == None {
        return NotEligible;
      }
      if user.value.status != Deleting &&
         (user.value.status != PendingDeletion || user.value.scheduledAt == None ||
          user.value.scheduledAt.value > now) {
        return NotEligible;
      }
      if exists s :: s in Rows(tables, UploadSessions) && s in uploads && Blocks(uploads[s]) {
        return StillBusy;
      }
      if live != {} {
        return StillBusy;
      }
      var n := 0;
      while n < |PHASES| && Rows(tables, PHASES[n]) == {}
        invariant 0 <= n <= |PHASES| && PhaseFrom(tables, 0) == PhaseFrom(tables, n)
      {
        n := n + 1;
      }
      if n == |PHASES| {
        user := None;
        return Done;
      }
      DeletePhase(PHASES[n], picked);
      outcome := Progress(PHASES[n], |picked|);
    }

    method DeletePhase(t: Table, picked: set<nat>)
      requires user.Some?
      modifies this`user, this`tables, this`files, this`events
      ensures View() == DeleteBatch(old(View()), t, picked)
    {
      BeginDeletion();
      if t == Variants {
        var paths := set v | v in picked && v in variantPath :: variantPath[v];
        events := events + [paths];
      } else if t == Images {
        SameUnreferenced(old(View()), View(), picked);
        DropFiles(picked);
      }
      DeleteRows(t, picked);
    }

    method DeleteRows(t: Table, picked: set<nat>)
      modifies this`tables
      ensures View() == old(View()).(tables := old(tables)[t := Rows(old(tables), t) - picked])
    {
      tables := tables[t := Rows(tables, t) - picked];
    }

    /** beginUserDeletion */
    method BeginDeletion()
      requires user.Some?
      modifies this`user
      ensures user == Some(old(user).value.(status := Deleting)) && View() == old(View()).(user := user)
    {
      if user.value.status != Deleting {
        user := Some(user.value.(status := Deleting));
      }
    }

    /** The file rows that the picked images were the last to reference. */
    method DropFiles(picked: set<nat>)
      modifies this`files, this`events
      ensures files == old(files) - Unreferenced(old(View()), picked)
      ensures events == old(events) + [FilePaths(old(files), Unreferenced(old(View()), picked))]
      ensures View() == old(View()).(files := files, events := events)
    {
      ghost var was := View();
      var touched := set i | i in picked && i in imageFile && imageFile[i] in files :: imageFile[i];
      var kept := set i | i in Rows(tables, Images) && i !in picked && i in imageFile :: imageFile[i];
      var dropped := set f | f in touched && !(f in foreign && foreign[f] > 0) && f !in kept;
      assert dropped == Unreferenced(was, picked) by {
        forall f
          ensures f in dropped <==> f in Unreferenced(was, picked)
        {
          assert f in touched ==> (StillReferenced(was, picked, f) <==> (f in foreign && foreign[f] > 0) || f in kept);
        }
      }
      events := events + [FilePaths(files, dropped)];
      files := files - dropped;
    }
  }

  lemma SameUnreferenced(a: State, b: State, picked: set<nat>)
    requires b == a.(user := b.user)
    ensures Unreferenced(b, picked) == Unreferenced(a, picked)
  {
    forall f
      ensures StillReferenced(b, picked, f) <==> StillReferenced(a, picked, f)
    {
    }
  }

  // ----- Runs -----

  datatype Step =
    | Tick(elapsed: nat)
    | Requests
    | EndsSessions(works: bool)
    | Cancels
    | SetsStatus(status: Status)
    | Works(now: Time, picked: set<nat>)
    | Adds(table: Table, row: nat)
    | Ends(session: nat, upload: Upload)
    | Jobs(live: set<nat>)

  function Apply(st: State, step: Step): State
  {
    match step
    case Tick(elapsed) => st.(clock := st.clock + elapsed)
    case Requests => Request(st)
    case EndsSessions(works) => EndSessions(st, works)
    case Cancels => Cancel(st)
    case SetsStatus(status) => SetStatus(st, status)
    case Works(now, picked) =>
      if now <= st.clock && (PhaseFrom(st.tables, 0).Some? ==>
          BatchOf(picked, Rows(st.tables, PhaseFrom(st.tables, 0).value), Limit(PhaseFrom(st.tables, 0).value)))
      then DeleteRecords(st, now, picked).0 else st
    case Adds(t, row) => st.(tables := st.tables[t := Rows(st.tables, t) + {row}])
    case Ends(s, upload) => st.(uploads := st.uploads[s := upload])
    case Jobs(live) => st.(live := live)
  }

  function Run(st: State, steps: seq<Step>): State
  {
    if steps == [] then st else Apply(Run(st, steps[..|steps| - 1]), steps[|steps| - 1])
  }

  // ----- The promises -----

  predicate CanStillCancel(st: State)
  {
    st.user.Some? && st.user.value.status != Deleting
  }

  /** No row went but those of the sessions, which a deletion request ends at once; no file row changed and
      no path was queued for deletion. */
  ghost predicate KeptAll(a: State, b: State)
  {
    && (forall t: Table :: t !in SESSION_TABLES ==> Rows(a.tables, t) <= Rows(b.tables, t))
    && b.files == a.files && b.events == a.events && b.imageFile == a.imageFile && b.variantPath == a.variantPath
  }

  lemma SameRowsKept(a: State, b: State)
    requires b.tables == a.tables && b.files == a.files && b.events == a.events
    requires b.imageFile == a.imageFile && b.variantPath == a.variantPath
    ensures KeptAll(a, b)
  {
  }

  lemma EndingKeepsAll(st: State, works: bool)
    ensures KeptAll(st, EndSessions(st, works))
  {
    var after := EndSessions(st, works);
    forall t: Table | t !in SESSION_TABLES
      ensures Rows(st.tables, t) <= Rows(after.tables, t)
    {
      assert t in after.tables <==> t in st.tables;
    }
  }

  lemma AddKeepsAll(st: State, t: Table, row: nat)
    ensures KeptAll(st, Apply(st, Adds(t, row)))
  {
    forall u: Table
      ensures Rows(st.tables, u) <= Rows(Apply(st, Adds(t, row)).tables, u)
    {
    }
  }

  lemma WorkKeepsAll(st: State, step: Step)
    requires step.Works? && CanStillCancel(Apply(st, step))
    ensures Apply(st, step) == st
  {
    if Apply(st, step) != st {
      WorkEnds(st, step.now, step.picked);
    }
  }

  lemma StepKeepsAll(st: State, step: Step)
    requires CanStillCancel(Apply(st, step))
    ensures CanStillCancel(st) && KeptAll(st, Apply(st, step))
  {
    hide KeptAll;
    match step {
      case Works(now, picked) =>
        WorkKeepsAll(st, step);
        SameRowsKept(st, st);
      case EndsSessions(works) => EndingKeepsAll(st, works);
      case Adds(t, row) => AddKeepsAll(st, t, row);
      case _ => SameRowsKept(st, Apply(st, step));
    }
  }

  /** Whatever the worker removes, the account is past cancelling then. */
  lemma WorkEnds(st: State, now: Time, picked: set<nat>)
    requires CanStillCancel(DeleteRecords(st, now, picked).0)
    ensures DeleteRecords(st, now, picked).0 == st
  {
  }

  predicate Lost(a: State, b: State, t: Table, row: nat)
  {
    row in Rows(a.tables, t) && row !in Rows(b.tables, t)
  }

  /** The step ends the sessions for a deletion request. */
  predicate SessionsEnd(st: State, step: Step)
  {
    step.EndsSessions? && step.works && st.ending > 0
  }

  /** A step after which the account can still be cancelled loses exactly the login sessions, the identity
      sessions and the CSRF tokens if it ends the sessions for a request, and nothing otherwise. */
  lemma LostExactly(st: State, step: Step, t: Table, row: nat)
    requires CanStillCancel(Apply(st, step)) && row in Rows(st.tables, t)
    ensures Lost(st, Apply(st, step), t, row) <==> SessionsEnd(st, step) && t in SESSION_TABLES
  {
    if step.Works? {
      WorkKeepsAll(st, step);
    } else if step.EndsSessions? {
      var after := Apply(st, step);
      assert st.ending > 0 && step.works ==>
          after.tables == st.tables[Logins := {}][Identities := {}][CsrfTokens := {}];
    }
  }

  ghost predicate EndedAt(st: State, steps: seq<Step>, n: nat)
  {
    n < |steps| && SessionsEnd(Run(st, steps[..n]), steps[n])
  }

  lemma EndedBefore(st: State, steps: seq<Step>, n: nat)
    requires steps != [] && EndedAt(st, steps[..|steps| - 1], n)
    ensures EndedAt(st, steps, n)
  {
    assert steps[..|steps| - 1][..n] == steps[..n];
  }

  /** Through any run that ends with the account present and not in the deleting state, every table but the
      three of the sessions keeps all its rows, and these lose theirs only where a request ends the sessions;
      every file row stays and no event is queued.  So a deletion that can still be cancelled, and one that
      was cancelled, has lost nothing else. */
  lemma {:induction false} NothingLostBeforeDeleting(st: State, steps: seq<Step>)
    requires CanStillCancel(Run(st, steps))
    ensures KeptAll(st, Run(st, steps)) && KeptAll(st, Cancel(Run(st, steps)))
    ensures forall t, row :: Lost(st, Run(st, steps), t, row) ==>
              t in SESSION_TABLES && exists n: nat :: EndedAt(st, steps, n)
  {
    if steps != [] {
      var before, last := Run(st, steps[..|steps| - 1]), |steps| - 1;
      StepKeepsAll(before, steps[last]);
      NothingLostBeforeDeleting(st, steps[..last]);
      KeptFurther(st, before, Run(st, steps));
      forall t, row | Lost(st, Run(st, steps), t, row)
        ensures t in SESSION_TABLES && exists n: nat :: EndedAt(st, steps, n)
      {
        if row in Rows(before.tables, t) {
          LostExactly(before, steps[last], t, row);
          assert EndedAt(st, steps, last);
        } else {
          assert Lost(st, before, t, row);
          var n: nat :| EndedAt(st, steps[..last], n);
          EndedBefore(st, steps, n);
        }
      }
    }
  }

  lemma KeptFurther(a: State, b: State, c: State)
    requires KeptAll(a, b) && KeptAll(b, c)
    ensures KeptAll(a, c)
  {
    forall t: Table | t !in SESSION_TABLES
      ensures Rows(a.tables, t) <= Rows(c.tables, t)
    {
      assert Rows(a.tables, t) <= Rows(b.tables, t) && Rows(b.tables, t) <= Rows(c.tables, t);
    }
  }

  /** The deleting state is left only by the removal of the user row, which leaves no child row behind. */
  lemma DeletingIsFinal(st: State, step: Step)
    requires st.user.Some? && st.user.value.status == Deleting
    ensures var after := Apply(st, step);
            (after.user.Some? && after.user.value.status == Deleting) ||
            (after.user == None && step.Works? && forall t :: Rows(st.tables, t) == {})
  {
    if step.Works? && PhaseFrom(st.tables, 0) == None {
      NoPhase(st.tables, 0);
      forall t
        ensures Rows(st.tables, t) == {}
      {
        var n := PhaseOf(t);
      }
    }
  }

  function PhaseOf(t: Table): (n: nat)
    ensures n < |PHASES| && PHASES[n] == t
  {
    match t
    case ProcessingJobs => 0
    case AccessTokens => 1
    case Variants => 2
    case Images => 3
    case CsrfTokens => 4
    case UploadParts => 5
    case UploadSessions => 6
    case Logins => 7
    case Identities => 8
    case Notifications => 9
    case AuditLogs => 10
    case UploadQueues => 11
  }

  lemma {:induction false} NoPhase(tables: Tables, n: nat)
    requires n <= |PHASES| && PhaseFrom(tables, n) == None
    ensures forall m :: n <= m < |PHASES| ==> Rows(tables, PHASES[m]) == {}
    decreases |PHASES| - n
  {
    if n < |PHASES| {
      NoPhase(tables, n + 1);
    }
  }

  /** Step n is a worker's, on an eligible account none of whose sessions is unfinished or has a staging path
      and none of whose jobs is live, when session s is there. */
  ghost predicate QuietAt(st: State, steps: seq<Step>, n: nat, s: nat)
  {
    n < |steps| && steps[n].Works? &&
    var at := Run(st, steps[..n]);
    Eligible(at.user, steps[n].now) && at.live == {} && s in Rows(at.tables, UploadSessions) &&
    forall r :: r in Rows(at.tables, UploadSessions) && r in at.uploads ==>
      !at.uploads[r].staged && at.uploads[r].status != Unfinished
  }

  lemma SessionRemoved(st: State, step: Step, s: nat)
    requires s in Rows(st.tables, UploadSessions) && s !in Rows(Apply(st, step).tables, UploadSessions)
    ensures step.Works? && Eligible(st.user, step.now) && !Busy(st)
  {
    EndingKeepsAll(st, true);
    EndingKeepsAll(st, false);
  }

  /** Through any run an upload session goes only by a worker, and only when none of the account's sessions is
      unfinished or has a staging path and none of its jobs is live. */
  lemma {:induction false} StagedSessionsStay(st: State, steps: seq<Step>, s: nat)
    requires s in Rows(st.tables, UploadSessions) && s !in Rows(Run(st, steps).tables, UploadSessions)
    ensures exists n: nat :: QuietAt(st, steps, n, s)
  {
    if steps != [] {
      var last := |steps| - 1;
      var before := Run(st, steps[..last]);
      if s in Rows(before.tables, UploadSessions) {
        SessionRemoved(before, steps[last], s);
        assert QuietAt(st, steps, last, s);
      } else {
        StagedSessionsStay(st, steps[..last], s);
        var n: nat :| QuietAt(st, steps[..last], n, s);
        assert steps[..last][..n] == steps[..n];
        assert QuietAt(st, steps, n, s);
      }
    }
  }

  function CountFrom(tables: Tables, n: nat): nat
    requires n <= |PHASES|
    decreases |PHASES| - n
  {
    if n == |PHASES| then 0 else |Rows(tables, PHASES[n])| + CountFrom(tables, n + 1)
  }

  /** All child rows of the account. */
  function RowCount(tables: Tables): nat
  {
    CountFrom(tables, 0)
  }

  lemma {:induction false} CountChange(a: Tables, b: Tables, t: Table, n: nat)
    requires n <= |PHASES| && forall u :: u != t ==> Rows(b, u) == Rows(a, u)
    ensures CountFrom(b, n) + (if n <= PhaseOf(t) then |Rows(a, t)| else 0) ==
            CountFrom(a, n) + (if n <= PhaseOf(t) then |Rows(b, t)| else 0)
    decreases |PHASES| - n
  {
    if n < |PHASES| {
      CountChange(a, b, t, n + 1);
      SamePhase(t, n);
    }
  }

  lemma SamePhase(t: Table, n: nat)
    requires n < |PHASES|
    ensures PHASES[n] == t <==> n == PhaseOf(t)
  {
    var m := PhaseOf(PHASES[n]);
  }

  lemma BatchRows(st: State, t: Table, picked: set<nat>)
    requires st.user.Some?
    ensures var after := DeleteBatch(st, t, picked).tables;
            Rows(after, t) == Rows(st.tables, t) - picked && forall u :: u != t ==> Rows(after, u) == Rows(st.tables, u)
  {
    assert DeleteBatch(st, t, picked).tables == st.tables[t := Rows(st.tables, t) - picked];
  }

  lemma BatchCounts(st: State, t: Table, picked: set<nat>)
    requires st.user.Some? && BatchOf(picked, Rows(st.tables, t), Limit(t)) && Rows(st.tables, t) != {}
    ensures |picked| > 0 && RowCount(DeleteBatch(st, t, picked).tables) + |picked| == RowCount(st.tables)
  {
    var rows, after := Rows(st.tables, t), DeleteBatch(st, t, picked);
    NotEmpty(rows);
    Taken(rows, picked);
    BatchRows(st, t, picked);
    hide CountFrom, DeleteBatch, Rows;
    CountChange(st.tables, after.tables, t, 0);
  }

  lemma NotEmpty(rows: set<nat>)
    requires rows != {}
    ensures |rows| > 0
  {
    var x :| x in rows;
    assert rows == (rows - {x}) + {x};
  }

  lemma Taken(rows: set<nat>, picked: set<nat>)
    requires picked <= rows
    ensures |rows - picked| + |picked| == |rows|
  {
    assert rows == (rows - picked) + picked;
  }

  /** Every step of the worker on an eligible account that is not busy removes rows, as many as it
      reports, until there is none left and the user row goes. */
  lemma StepsProgress(st: State, now: Time, picked: set<nat>)
    requires Eligible(st.user, now) && !Busy(st)
    requires PhaseFrom(st.tables, 0).Some? ==>
               BatchOf(picked, Rows(st.tables, PhaseFrom(st.tables, 0).value), Limit(PhaseFrom(st.tables, 0).value))
    ensures var (after, outcome) := DeleteRecords(st, now, picked);
            if outcome == Done then after.user == None && RowCount(st.tables) == 0
            else outcome.Progress? && outcome.rows > 0 && RowCount(after.tables) + outcome.rows == RowCount(st.tables)
  {
    var phase := PhaseFrom(st.tables, 0);
    if phase == None {
      NoPhase(st.tables, 0);
      NoRows(st.tables, 0);
    } else {
      BatchCounts(st, phase.value, picked);
    }
  }

  // ----- How many batches it takes -----

  function BatchesOf(rows: nat, limit: nat): nat
    requires limit > 0
  {
    if rows == 0 then 0 else if rows <= limit then 1 else 1 + BatchesOf(rows - limit, limit)
  }

  function BatchesFrom(tables: Tables, n: nat): nat
    requires n <= |PHASES|
    decreases |PHASES| - n
  {
    if n == |PHASES| then 0
    else BatchesOf(|Rows(tables, PHASES[n])|, Limit(PHASES[n])) + BatchesFrom(tables, n + 1)
  }

  /** The batches of all phases. */
  function Batches(tables: Tables): nat
  {
    BatchesFrom(tables, 0)
  }

  lemma {:induction false} BatchesChange(a: Tables, b: Tables, t: Table, n: nat)
    requires n <= |PHASES| && forall u :: u != t ==> Rows(b, u) == Rows(a, u)
    ensures BatchesFrom(b, n) + (if n <= PhaseOf(t) then BatchesOf(|Rows(a, t)|, Limit(t)) else 0) ==
            BatchesFrom(a, n) + (if n <= PhaseOf(t) then BatchesOf(|Rows(b, t)|, Limit(t)) else 0)
    decreases |PHASES| - n
  {
    if n < |PHASES| {
      BatchesChange(a, b, t, n + 1);
      SamePhase(t, n);
    }
  }

  lemma {:induction false} NoBatches(tables: Tables, n: nat)
    requires n <= |PHASES| && forall m :: n <= m < |PHASES| ==> Rows(tables, PHASES[m]) == {}
    ensures BatchesFrom(tables, n) == 0
    decreases |PHASES| - n
  {
    if n < |PHASES| {
      NoBatches(tables, n + 1);
    }
  }

  lemma OneLess(rows: nat, picked: nat, limit: nat)
    requires limit > 0 && rows > 0 && picked == if rows <= limit then rows else limit
    ensures BatchesOf(rows - picked, limit) + 1 == BatchesOf(rows, limit)
  {
  }

  /** A batch of the limit's size is one batch less. */
  lemma OneBatchLess(st: State, t: Table, picked: set<nat>)
    requires st.user.Some? && BatchOf(picked, Rows(st.tables, t), Limit(t)) && Rows(st.tables, t) != {}
    ensures Batches(DeleteBatch(st, t, picked).tables) + 1 == Batches(st.tables)
  {
    var rows, after := Rows(st.tables, t), DeleteBatch(st, t, picked);
    NotEmpty(rows);
    Taken(rows, picked);
    BatchRows(st, t, picked);
    hide BatchesFrom, BatchesOf, DeleteBatch, Rows;
    BatchesChange(st.tables, after.tables, t, 0);
    OneLess(|rows|, |picked|, Limit(t));
  }

  /** The step is a worker's with the batch that it finds. */
  predicate Selected(st: State, step: Step)
  {
    step.Works? && step.now <= st.clock && (st.user.Some? ==> Eligible(st.user, step.now)) &&
    (PhaseFrom(st.tables, 0).Some? ==>
       BatchOf(step.picked, Rows(st.tables, PhaseFrom(st.tables, 0).value), Limit(PhaseFrom(st.tables, 0).value)))
  }

  lemma WorkStep(st: State, step: Step)
    requires st.user.Some? && !Busy(st) && Selected(st, step)
    ensures var after := Apply(st, step);
            if Batches(st.tables) == 0 then after.user == None
            else after.user.Some? && !Busy(after) && Batches(after.tables) + 1 == Batches(st.tables)
  {
    var phase := PhaseFrom(st.tables, 0);
    if phase == None {
      NoPhase(st.tables, 0);
      NoBatches(st.tables, 0);
    } else {
      hide Eligible, Batches, BatchOf;
      assert Apply(st, step) == DeleteBatch(st, phase.value, step.picked);
      OneBatchLess(st, phase.value, step.picked);
      BatchStaysQuiet(st, phase.value, step.picked);
    }
  }

  lemma BatchStaysQuiet(st: State, t: Table, picked: set<nat>)
    requires st.user.Some? && !Busy(st)
    ensures !Busy(DeleteBatch(st, t, picked)) && DeleteBatch(st, t, picked).user.Some?
  {
    var after := DeleteBatch(st, t, picked);
    assert Rows(after.tables, UploadSessions) <= Rows(st.tables, UploadSessions);
    assert after.uploads == st.uploads && after.live == st.live;
  }

  ghost predicate WorkersRun(st: State, steps: seq<Step>)
  {
    forall n :: 0 <= n < |steps| ==> Selected(Run(st, steps[..n]), steps[n])
  }

  /** On an eligible account that is not busy, a run of worker steps removes the user exactly when it has more
      steps than there are batches of rows, which are no more than the rows. */
  lemma {:induction false} WorkersFinish(st: State, steps: seq<Step>)
    requires st.user.Some? && !Busy(st) && WorkersRun(st, steps)
    ensures Run(st, steps).user == None <==> |steps| > Batches(st.tables)
    ensures Batches(st.tables) <= RowCount(st.tables)
    ensures |steps| <= Batches(st.tables) ==>
              !Busy(Run(st, steps)) && Batches(Run(st, steps).tables) + |steps| == Batches(st.tables)
  {
    BatchesWithin(st.tables, 0);
    if steps != [] {
      var last := |steps| - 1;
      WorkersRan(st, steps);
      hide Apply, Busy, Batches, Selected, WorkersRun;
      WorkersFinish(st, steps[..last]);
      if Run(st, steps[..last]).user == None {
        GoneStays(Run(st, steps[..last]), steps[last]);
      } else {
        WorkStep(Run(st, steps[..last]), steps[last]);
      }
    }
  }

  lemma WorkersRan(st: State, steps: seq<Step>)
    requires steps != [] && WorkersRun(st, steps)
    ensures var last := |steps| - 1;
            WorkersRun(st, steps[..last]) && Selected(Run(st, steps[..last]), steps[last])
  {
    hide Selected, Run;
    var last := |steps| - 1;
    forall n | 0 <= n < last
      ensures Selected(Run(st, steps[..last][..n]), steps[..last][n])
    {
      assert steps[..last][..n] == steps[..n];
    }
  }

  lemma GoneStays(st: State, step: Step)
    requires st.user == None && Selected(st, step)
    ensures Apply(st, step).user == None
  {
  }

  lemma {:induction false} BatchesBound(rows: nat, limit: nat)
    requires limit > 0
    ensures BatchesOf(rows, limit) <= rows
  {
    if rows > limit {
      BatchesBound(rows - limit, limit);
    }
  }

  lemma {:induction false} BatchesWithin(tables: Tables, n: nat)
    requires n <= |PHASES|
    ensures BatchesFrom(tables, n) <= CountFrom(tables, n)
    decreases |PHASES| - n
  {
    if n < |PHASES| {
      BatchesBound(|Rows(tables, PHASES[n])|, Limit(PHASES[n]));
      BatchesWithin(tables, n + 1);
    }
  }

  lemma {:induction false} NoRows(tables: Tables, n: nat)
    requires n <= |PHASES| && forall m :: n <= m < |PHASES| ==> Rows(tables, PHASES[m]) == {}
    ensures CountFrom(tables, n) == 0
    decreases |PHASES| - n
  {
    if n < |PHASES| {
      NoRows(tables, n + 1);
    }
  }

  predicate VariantNames(st: State, v: nat, p: nat)
  {
    v in Rows(st.tables, Variants) && v in st.variantPath && st.variantPath[v] == p
  }

  predicate FileNames(st: State, f: nat, p: nat)
  {
    f in st.files && p in st.files[f]
  }

  /** Some variant row of the account or some file row names the path. */
  ghost predicate Named(st: State, p: nat)
  {
    (exists v :: VariantNames(st, v, p)) || exists f :: FileNames(st, f, p)
  }

  ghost predicate Queued(st: State, after: State, p: nat)
  {
    after.events != [] && after.events[..|after.events| - 1] == st.events && p in after.events[|after.events| - 1]
  }

  lemma VariantDropped(st: State, t: Table, picked: set<nat>, v: nat, p: nat)
    requires st.user.Some? && VariantNames(st, v, p) && !VariantNames(DeleteBatch(st, t, picked), v, p)
    ensures Queued(st, DeleteBatch(st, t, picked), p)
  {
    assert t == Variants && v in picked;
    assert p in VariantPaths(st, picked);
  }

  lemma FileDropped(st: State, t: Table, picked: set<nat>, f: nat, p: nat)
    requires st.user.Some? && FileNames(st, f, p) && !FileNames(DeleteBatch(st, t, picked), f, p)
    ensures Queued(st, DeleteBatch(st, t, picked), p)
  {
    assert t == Images && f in Unreferenced(st, picked);
    assert p in FilePaths(st.files, Unreferenced(st, picked));
  }

  /** A batch after which no row names a path any more queues a deletion that does. */
  lemma DroppedPathsAreQueued(st: State, now: Time, picked: set<nat>, p: nat)
    requires Named(st, p) && !Named(DeleteRecords(st, now, picked).0, p)
    ensures Queued(st, DeleteRecords(st, now, picked).0, p)
  {
    var after := DeleteRecords(st, now, picked).0;
    if PhaseFrom(st.tables, 0) == None || !Eligible(st.user, now) || Busy(st) {
      assert forall v :: VariantNames(after, v, p) <==> VariantNames(st, v, p);
      assert forall f :: FileNames(after, f, p) <==> FileNames(st, f, p);
    } else if v :| VariantNames(st, v, p) {
      VariantDropped(st, PhaseFrom(st.tables, 0).value, picked, v, p);
    } else {
      var f :| FileNames(st, f, p);
      FileDropped(st, PhaseFrom(st.tables, 0).value, picked, f, p);
    }
  }

  /** Some image of this account or of another one references the file. */
  predicate HasImage(st: State, f: nat)
  {
    (f in st.foreign && st.foreign[f] > 0) || exists i ::
      i in Rows(st.tables, Images) && i in st.imageFile && st.imageFile[i] == f
  }

  ghost predicate FilesHaveImages(st: State)
  {
    forall f :: f in st.files ==> HasImage(st, f)
  }

  /** A batch of any phase keeps every file row that some image of any account still references and no other:
      a file row goes exactly with its last image. */
  lemma FilesGoWithLastImage(st: State, t: Table, picked: set<nat>)
    requires st.user.Some? && picked <= Rows(st.tables, t) && FilesHaveImages(st)
    ensures var after := DeleteBatch(st, t, picked);
            FilesHaveImages(after) && forall f :: f in st.files ==> (f in after.files <==> HasImage(after, f))
  {
    var after := DeleteBatch(st, t, picked);
    forall f | f in st.files
      ensures f in after.files <==> HasImage(after, f)
    {
      if t == Images {
        LastImage(st, picked, f);
      } else {
        assert Rows(after.tables, Images) == Rows(st.tables, Images);
        assert HasImage(st, f);
        if i :| i in Rows(st.tables, Images) && i in st.imageFile && st.imageFile[i] == f {
          assert i in Rows(after.tables, Images);
        }
      }
    }
  }

  lemma LastImage(st: State, picked: set<nat>, f: nat)
    requires st.user.Some? && f in st.files && HasImage(st, f)
    ensures var after := DeleteBatch(st, Images, picked);
            f in after.files <==> HasImage(after, f)
  {
    var after := DeleteBatch(st, Images, picked);
    assert Rows(after.tables, Images) == Rows(st.tables, Images) - picked;
    assert HasImage(after, f) <==> StillReferenced(st, picked, f);
    if !HasImage(after, f) {
      var i :| i in Rows(st.tables, Images) && i in st.imageFile && st.imageFile[i] == f;
      assert i in picked && f in Unreferenced(st, picked);
    }
  }

  // ----- The waiting time -----

  /** The account is not in the deleting state, and no deletion of it is due before `until`. */
  predicate SpareUntil(st: State, until: Time)
  {
    st.user.Some? && st.user.value.status != Deleting &&
    (st.user.value.status == PendingDeletion ==> st.user.value.scheduledAt.Some? &&
                                                 st.user.value.scheduledAt.value >= until)
  }

  lemma WorkTakesNoTime(st: State, now: Time, picked: set<nat>)
    ensures DeleteRecords(st, now, picked).0.clock == st.clock
  {
    hide PhaseFrom, Busy, Rows, Eligible, Unreferenced, FilePaths, VariantPaths;
  }

  lemma ClockGrows(st: State, step: Step)
    ensures Apply(st, step).clock >= st.clock
  {
    hide PhaseFrom, BatchOf, Limit, Rows, DeleteRecords;
    if step.Works? {
      WorkTakesNoTime(st, step.now, step.picked);
    }
  }

  lemma SpareStep(st: State, step: Step, until: Time)
    requires SpareUntil(st, until) && until <= st.clock + 86_400 && Apply(st, step).clock < until
    ensures SpareUntil(Apply(st, step), until) && Apply(st, step).clock >= st.clock
    ensures step.Works? ==> Apply(st, step) == st
  {
    ClockGrows(st, step);
    hide PhaseFrom, BatchOf, Busy, Limit, Rows, DeleteBatch;
  }

  lemma {:induction false} SpareRun(st: State, steps: seq<Step>, until: Time)
    requires SpareUntil(st, until) && until <= st.clock + 86_400 && Run(st, steps).clock < until
    ensures SpareUntil(Run(st, steps), until) && Run(st, steps).clock >= st.clock
  {
    if steps != [] {
      var last := |steps| - 1;
      ClockGrows(Run(st, steps[..last]), steps[last]);
      SpareRun(st, steps[..last], until);
      SpareStep(Run(st, steps[..last]), steps[last], until);
    }
  }

  /** For 24 hours after the request for its deletion an account stays, whatever else happens to it, cancellations
      and further requests among it: no step of the worker changes anything. */
  lemma LeftAloneForADay(st: State, steps: seq<Step>, work: Step)
    requires st.user.Some? && st.user.value.status == Active && work.Works?
    requires Run(Apply(st, Requests), steps).clock < st.clock + 86_400
    ensures var at := Run(Apply(st, Requests), steps);
            at.user.Some? && at.user.value.status != Deleting && Apply(at, work) == at
  {
    var asked, until := Apply(st, Requests), st.clock + 86_400;
    SpareRun(asked, steps, until);
    SpareStep(Run(asked, steps), work, until);
  }

  /** Nothing but the worker and the cancellation ends the waiting. */
  ghost predicate Waiting(steps: seq<Step>)
  {
    forall n :: 0 <= n < |steps| ==> !steps[n].Works? && !steps[n].Cancels?
  }

  lemma WaitStep(st: State, step: Step)
    requires st.user.Some? && st.user.value.status == PendingDeletion && !step.Works? && !step.Cancels?
    ensures Apply(st, step).user == st.user
  {
    hide DeleteRecords;
  }

  lemma {:induction false} WaitsOn(st: State, steps: seq<Step>)
    requires st.user.Some? && st.user.value.status == PendingDeletion && Waiting(steps)
    ensures Run(st, steps).user == st.user
  {
    if steps != [] {
      WaitsOn(st, steps[..|steps| - 1]);
      WaitStep(Run(st, steps[..|steps| - 1]), steps[|steps| - 1]);
    }
  }

  /** A request that nobody cancels is taken up from 24 hours after it on, and not before: the worker finds the
      account not eligible if and only if its time is earlier. */
  lemma TakenAfterADay(st: State, steps: seq<Step>, now: Time, picked: set<nat>)
    requires st.user.Some? && st.user.value.status == Active && Waiting(steps)
    ensures var at := Run(Apply(st, Requests), steps);
            at.user.Some? && at.user.value.status == PendingDeletion &&
            (DeleteRecords(at, now, picked).1 == NotEligible <==> now < st.clock + 86_400)
  {
    WaitsOn(Apply(st, Requests), steps);
  }

  /** Only an account that waits can be cancelled, which makes it active again; only an active one can be asked
      to go or be suspended, and only a suspended one be activated. */
  lemma AdministratorLaw(st: State, step: Step)
    requires st.user.Some? && (step.Requests? || step.Cancels? || step.SetsStatus?)
    ensures var was, after := st.user.value, Apply(st, step);
            after.user.Some? && after == st.(user := after.user, ending := after.ending) &&
            (after.ending == st.ending + 1 <==> step.Requests? && was.status == Active) &&
            (after.ending != st.ending + 1 ==> after.ending == st.ending) &&
            after.user.value.status ==
              (if step.Requests? && was.status == Active then PendingDeletion
               else if step.Cancels? && was.status == PendingDeletion then Active
               else if step == SetsStatus(Suspended) && was.status == Active then Suspended
               else if step == SetsStatus(Active) && was.status == Suspended then Active
               else was.status)
  {
  }

  // ----- One step of the worker -----

  lemma {:induction false} FirstPhase(tables: Tables, n: nat)
    requires n <= |PHASES|
    ensures var phase := PhaseFrom(tables, n);
            if phase == None then forall m :: n <= m < |PHASES| ==> Rows(tables, PHASES[m]) == {}
            else n <= PhaseOf(phase.value) && Rows(tables, phase.value) != {} &&
                 forall m :: n <= m < PhaseOf(phase.value) ==> Rows(tables, PHASES[m]) == {}
    decreases |PHASES| - n
  {
    if n < |PHASES| {
      SamePhase(PHASES[n], n);
      FirstPhase(tables, n + 1);
    }
  }

  lemma EmptyExactly(tables: Tables)
    ensures PhaseFrom(tables, 0) == None <==> forall t :: Rows(tables, t) == {}
  {
    FirstPhase(tables, 0);
    if PhaseFrom(tables, 0) == None {
      forall t
        ensures Rows(tables, t) == {}
      {
        var n := PhaseOf(t);
      }
    }
  }

  lemma BatchTakes(st: State, t: Table, picked: set<nat>)
    requires st.user.Some?
    ensures var after := DeleteBatch(st, t, picked);
            after.user == Some(Account(Deleting, st.user.value.scheduledAt)) &&
            (forall u :: Rows(after.tables, u) == if u == t then Rows(st.tables, t) - picked else Rows(st.tables, u)) &&
            (t != Images ==> after.files == st.files) &&
            (t != Images && t != Variants ==> after.events == st.events)
  {
    BatchRows(st, t, picked);
  }

  /** The worker passes over an account that is not due, waits for unfinished or staged sessions and live jobs,
      removes the user once no row is left, and else takes its batch from one table. */
  lemma WorkerLaw(st: State, now: Time, picked: set<nat>)
    ensures var (after, outcome) := DeleteRecords(st, now, picked);
            var due := st.user.Some? &&
                       (st.user.value.status == Deleting ||
                        (st.user.value.status == PendingDeletion && st.user.value.scheduledAt.Some? &&
                         st.user.value.scheduledAt.value <= now));
            var busy := st.live != {} ||
                        exists s :: s in Rows(st.tables, UploadSessions) && s in st.uploads &&
                                    (st.uploads[s].status == Unfinished || st.uploads[s].staged);
            var empty := forall t :: Rows(st.tables, t) == {};
            (outcome == NotEligible <==> !due) && (outcome == StillBusy <==> due && busy) &&
            (outcome == Done <==> due && !busy && empty) && (outcome.Progress? <==> due && !busy && !empty) &&
            (outcome == NotEligible || outcome == StillBusy ==> after == st) &&
            (outcome == Done ==> after == st.(user := None)) &&
            (outcome.Progress? ==>
               var t := outcome.phase;
               Rows(st.tables, t) != {} && outcome.rows == |picked| &&
               after.user == Some(Account(Deleting, st.user.value.scheduledAt)) &&
               (forall u :: Rows(after.tables, u) == if u == t then Rows(st.tables, t) - picked
                                                      else Rows(st.tables, u)) &&
               (t != Images ==> after.files == st.files) &&
               (t != Images && t != Variants ==> after.events == st.events))
  {
    EmptyExactly(st.tables);
    assert Busy(st) <==> st.live != {} || exists s :: s in Rows(st.tables, UploadSessions) && s in st.uploads &&
                                                    Blocks(st.uploads[s]);
    var phase := PhaseFrom(st.tables, 0);
    if st.user.Some? && phase.Some? {
      BatchTakes(st, phase.value, picked);
    }
    hide Busy, PhaseFrom, DeleteBatch, Rows;
  }

  /** A batch is as many as 25 images or 100 other rows, those with the smallest ids, and all of them if there are
      fewer. */
  lemma BatchLaw(st: State, step: Step)
    requires Selected(st, step) && DeleteRecords(st, step.now, step.picked).1.Progress?
    ensures var t := DeleteRecords(st, step.now, step.picked).1.phase;
            var most := if t == Images then 25 else 100;
            var rows := Rows(st.tables, t);
            step.picked <= rows && |step.picked| <= most && (|step.picked| < most ==> step.picked == rows) &&
            forall p, q :: p in step.picked && q in rows && q !in step.picked ==> p < q
  {
    var rows := Rows(st.tables, DeleteRecords(st, step.now, step.picked).1.phase);
    if |rows| == |step.picked| {
      SameSize(step.picked, rows);
    }
  }

  /** Rows go before the rows that they refer to: the jobs and the variants before the images, the jobs and the
      parts before the upload sessions, the logins before the identities. */
  lemma ChildrenGoFirst(st: State, now: Time, picked: set<nat>)
    requires DeleteRecords(st, now, picked).1.Progress?
    ensures var t := DeleteRecords(st, now, picked).1.phase;
            (t == Images ==> Rows(st.tables, ProcessingJobs) == {} && Rows(st.tables, Variants) == {}) &&
            (t == UploadSessions ==> Rows(st.tables, ProcessingJobs) == {} && Rows(st.tables, UploadParts) == {}) &&
            (t == Identities ==> Rows(st.tables, Logins) == {})
  {
    FirstPhase(st.tables, 0);
    assert PHASES[0] == ProcessingJobs && PHASES[2] == Variants && PHASES[5] == UploadParts && PHASES[7] == Logins;
  }
}
