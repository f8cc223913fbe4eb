/** The shared watermark file and the journal behind which a publish job swaps it for its own.

    Actors of any number of processes run the same three programs under one file lock; an actor can
    crash between any two of its file operations, and each operation can fail before or after it took
    effect.  A crash frees the lock. */
module Watermark {
  import opened Collections

  type Svg = string

  /** The content of watermark.svg, if it exists. */
  type File = Option<Svg>

  /** Regenerate installs a configured watermark; Current runs a callback that reads the shared file;
      Job runs one that must read the watermark of its own upload, if that has any text. */
  datatype Task = Regenerate(target: Option<Svg>) | Current | Job(expected: Option<Svg>)

  datatype Phase =
    | AwaitShared
    | CheckShared
    | SharedCallback
    | AwaitExclusive
    | Recovering
    | Clearing
    | Working
    | Swapping(previous: File)
    | Callback(previous: File)
    | Restoring(previous: File)
    | Removing(previous: File)

  datatype Actor = Actor(task: Task, phase: Phase)

  datatype State = State(file: File, journal: Option<File>, actors: map<nat, Actor>)

  /** A file operation succeeds, takes effect and then reports an error, or fails without effect. */
  datatype Outcome = Done | Late | Failed

  datatype Step = Spawn(id: nat, task: Task) | Run(id: nat, outcome: Outcome) | Crash(id: nat)

  predicate Exclusive(phase: Phase)
  {
    phase.Recovering? || phase.Clearing? || phase.Working? || phase.Swapping? || phase.Callback? || phase.Restoring? ||
    phase.Removing?
  }

  predicate Shared(phase: Phase)
  {
    phase.CheckShared? || phase.SharedCallback?
  }

  predicate MayLock(st: State, id: nat, exclusive: bool)
  {
    forall j :: j in st.actors && j != id ==>
      !Exclusive(st.actors[j].phase) && (exclusive ==> !Shared(st.actors[j].phase))
  }

  function Begin(task: Task): Phase
  {
    if task.Current? || (task.Job? && task.expected.Some?) then AwaitShared else AwaitExclusive
  }

  function Goto(st: State, id: nat, phase: Phase): State
    requires id in st.actors
  {
    st.(actors := st.actors[id := st.actors[id].(phase := phase)])
  }

  function Exit(st: State, id: nat): State
  {
    st.(actors := st.actors - {id})
  }

  /** Continue in a phase, unless the operation reported an error. */
  function Then(st: State, id: nat, outcome: Outcome, phase: Phase): State
    requires id in st.actors
  {
    if outcome == Done then Goto(st, id, phase) else Exit(st, id)
  }

  function Write(st: State, outcome: Outcome, file: File): State
  {
    if outcome == Failed then st else st.(file := file)
  }

  function Log(st: State, outcome: Outcome, journal: Option<File>): State
  {
    if outcome == Failed then st else st.(journal := journal)
  }

  /** The next action of an actor; one that waits for the lock stays as it is until it may have it. */
  function Act(st: State, id: nat, outcome: Outcome): State
    requires id in st.actors
  {
    var task := st.actors[id].task;
    match st.actors[id].phase
    case AwaitShared => if MayLock(st, id, false) then Goto(st, id, CheckShared) else st
    case CheckShared =>
      if outcome != Done then Exit(st, id)
      else if st.journal == None && (task.Job? ==> task.expected.Some? && st.file == task.expected)
        then Goto(st, id, SharedCallback)
      else Goto(st, id, AwaitExclusive)
    case SharedCallback => Exit(st, id)
    case AwaitExclusive => if MayLock(st, id, true) then Goto(st, id, Recovering) else st
    case Recovering =>
      if st.journal == None then Goto(st, id, Working)
      else Then(Write(st, outcome, st.journal.value), id, outcome, Clearing)
    case Clearing => Then(Log(st, outcome, None), id, outcome, Working)
    case Working =>
      match task {
        case Current => Goto(st, id, AwaitShared)
        case Regenerate(target) =>
          if target == None || st.file == target then Exit(st, id) else Exit(Write(st, outcome, target), id)
        case Job(_) => Then(Log(st, outcome, Some(st.file)), id, outcome, Swapping(st.file))
      }
    case Swapping(previous) =>
      if task.Job? && task.expected.Some? && st.file != task.expected then
        Goto(Write(st, outcome, task.expected), id, if outcome == Done then Callback(previous) else Restoring(previous))
      else Goto(st, id, Callback(previous))
    case Callback(previous) => Goto(st, id, Restoring(previous))
    case Restoring(previous) => Then(Write(st, outcome, previous), id, outcome, Removing(previous))
    case Removing(previous) => Exit(Log(st, outcome, None), id)
  }

  function Apply(st: State, step: Step): State
  {
    match step
    case Spawn(id, task) => if id in st.actors then st else st.(actors := st.actors[id := Actor(task, Begin(task))])
    case Run(id, outcome) => if id in st.actors then Act(st, id, outcome) else st
    case Crash(id) => Exit(st, id)
  }

  function RunAll(st: State, steps: seq<Step>): State
  {
    if steps == [] then st else Apply(RunAll(st, steps[..|steps| - 1]), steps[|steps| - 1])
  }

  /** The watermark that the system stands for: the journal's content while there is a journal. */
  function Logical(st: State): File
  {
    if st.journal.Some? then st.journal.value else st.file
  }

  // ----- The invariant -----

  predicate ActorOk(st: State, id: nat)
    requires id in st.actors
  {
    var task := st.actors[id].task;
    match st.actors[id].phase
    case SharedCallback => st.journal == None && !task.Regenerate? &&
      (task.Job? ==> task.expected.Some? && st.file == task.expected)
    case CheckShared => !task.Regenerate?
    case AwaitShared => !task.Regenerate?
    case Clearing => st.journal == Some(st.file)
    case Working => st.journal == None
    case Swapping(previous) => task.Job? && st.journal == Some(previous) && st.file == previous
    case Callback(previous) =>
      task.Job? && st.journal == Some(previous) && st.file == if task.expected.Some? then task.expected else previous
    case Restoring(previous) => task.Job? && st.journal == Some(previous)
    case Removing(previous) => task.Job? && st.journal == Some(previous) && st.file == previous
    case _ => true
  }

  ghost predicate Locked(st: State, i: nat, j: nat)
    requires i in st.actors && j in st.actors
  {
    Exclusive(st.actors[i].phase) ==> !Exclusive(st.actors[j].phase) && !Shared(st.actors[j].phase)
  }

  ghost predicate Inv(st: State)
  {
    && (forall i {:trigger ActorOk(st, i)} :: i in st.actors ==> ActorOk(st, i))
    && (forall i, j {:trigger Locked(st, i, j)} :: i in st.actors && j in st.actors && i != j ==> Locked(st, i, j))
  }

  /** Only actor id changes, and it holds the lock exclusively when it changes a file. */
  lemma ActorStep(st: State, st': State, id: nat)
    requires Inv(st) && id in st.actors
    requires st'.actors == st.actors - {id} || (id in st'.actors && st'.actors == st.actors[id := st'.actors[id]])
    requires (st'.file == st.file && st'.journal == st.journal) || Exclusive(st.actors[id].phase)
    requires id in st'.actors ==> ActorOk(st', id)
    requires id in st'.actors && Exclusive(st'.actors[id].phase) ==>
             Exclusive(st.actors[id].phase) || MayLock(st, id, true)
    requires id in st'.actors && Shared(st'.actors[id].phase) ==> Shared(st.actors[id].phase) || MayLock(st, id, false)
    ensures Inv(st')
  {
    forall i | i in st'.actors
      ensures ActorOk(st', i)
    {
      if i != id {
        assert ActorOk(st, i) && Locked(st, id, i);
      }
    }
    forall i, j | i in st'.actors && j in st'.actors && i != j
      ensures Locked(st', i, j)
    {
      assert Locked(st, i, j) && Locked(st, j, i);
    }
  }

  lemma StepKeepsInv(st: State, step: Step)
    requires Inv(st)
    ensures Inv(Apply(st, step))
  {
    var st' := Apply(st, step);
    match step
    case Spawn(id, task) =>
      forall i | i in st'.actors ensures ActorOk(st', i) { assert i in st.actors ==> ActorOk(st, i); }
      forall i, j | i in st'.actors && j in st'.actors && i != j
        ensures Locked(st', i, j)
      {
        assert i in st.actors && j in st.actors ==> Locked(st, i, j);
      }
    case Run(id, outcome) =>
      if id in st.actors {
        assert ActorOk(st, id);
        ActorStep(st, st', id);
      }
    case Crash(id) =>
      if id in st.actors {
        ActorStep(st, st', id);
      } else {
        assert st'.actors == st.actors;
        assert st' == st;
      }
  }

  lemma {:induction false} Reachable(file: File, steps: seq<Step>)
    ensures Inv(RunAll(State(file, None, map[]), steps))
  {
    if steps != [] {
      Reachable(file, steps[..|steps| - 1]);
      StepKeepsInv(RunAll(State(file, None, map[]), steps[..|steps| - 1]), steps[|steps| - 1]);
    }
  }

  // ----- The promises -----

  /** The actor installs the configured watermark. */
  predicate Installs(st: State, step: Step)
  {
    step.Run? && step.id in st.actors && st.actors[step.id].phase == Working && st.actors[step.id].task.Regenerate? &&
    st.actors[step.id].task.target.Some? && step.outcome != Failed
  }

  /** Through any interleaving, crash and failed operation the logical watermark changes exactly when
      RegenerateWatermark writes a configured one that differs. */
  lemma OnlyRegenerateChanges(file: File, steps: seq<Step>, step: Step)
    ensures var st := RunAll(State(file, None, map[]), steps);
            Logical(Apply(st, step)) ==
              if Installs(st, step) then st.actors[step.id].task.target else Logical(st)
  {
    var st := RunAll(State(file, None, map[]), steps);
    Reachable(file, steps);
    if step.Run? && step.id in st.actors {
      assert ActorOk(st, step.id);
    }
  }

  /** Every WithCurrentWatermark callback sees the logical watermark, every job with text sees its own
      watermark, and a job without text the logical one. */
  lemma CallbacksSee(file: File, steps: seq<Step>, id: nat)
    requires id in RunAll(State(file, None, map[]), steps).actors
    ensures var st := RunAll(State(file, None, map[]), steps);
            var actor := st.actors[id];
            (actor.phase.SharedCallback? || actor.phase.Callback? ==>
               st.file == if actor.task.Job? && actor.task.expected.Some? then actor.task.expected else Logical(st)) &&
            (actor.phase.SharedCallback? ==> st.journal == None)
  {
    Reachable(file, steps);
    assert ActorOk(RunAll(State(file, None, map[]), steps), id);
  }

  /** A journal that an actor sees under the shared lock belongs to nobody. */
  lemma SharedJournalIsStale(file: File, steps: seq<Step>, id: nat, other: nat)
    requires var st := RunAll(State(file, None, map[]), steps);
             id in st.actors && Shared(st.actors[id].phase) && other in st.actors && other != id
    ensures !Exclusive(RunAll(State(file, None, map[]), steps).actors[other].phase)
  {
    var st := RunAll(State(file, None, map[]), steps);
    Reachable(file, steps);
    assert Locked(st, other, id);
  }

  /** While an actor runs its callback, no step of another actor changes the file under it. */
  lemma CallbackIsUndisturbed(file: File, steps: seq<Step>, step: Step, id: nat)
    requires var st := RunAll(State(file, None, map[]), steps);
             id in st.actors && (st.actors[id].phase.SharedCallback? || st.actors[id].phase.Callback?)
    requires step.Spawn? || step.id != id
    ensures var st := RunAll(State(file, None, map[]), steps); Apply(st, step).file == st.file
  {
    var st := RunAll(State(file, None, map[]), steps);
    Reachable(file, steps);
    if step.Run? && step.id in st.actors {
      assert Locked(st, step.id, id) && Locked(st, id, step.id);
    }
  }

  // ----- What an undisturbed actor achieves -----

  /** n operations of an actor, none of which fails. */
  function Walk(st: State, id: nat, n: nat): State
  {
    if n == 0 then st else Apply(Walk(st, id, n - 1), Run(id, Done))
  }

  lemma WalkOn(st: State, id: nat, n: nat)
    ensures Walk(st, id, n + 1) == Apply(Walk(st, id, n), Run(id, Done))
  {
  }

  function Sole(file: File, journal: Option<File>, id: nat, task: Task, phase: Phase): State
  {
    State(file, journal, map[id := Actor(task, phase)])
  }

  /** With nobody else at work an actor gets the lock and recovers what a crash left behind. */
  lemma GetsToWork(file: File, journal: Option<File>, id: nat, task: Task) returns (n: nat)
    ensures var st := Sole(file, journal, id, task, AwaitExclusive);
            Walk(st, id, n) == Sole(Logical(st), None, id, task, Working)
  {
    var st := Sole(file, journal, id, task, AwaitExclusive);
    WalkOn(st, id, 0);
    assert Walk(st, id, 1) == Sole(file, journal, id, task, Recovering);
    WalkOn(st, id, 1);
    if journal == None {
      n := 2;
      assert Walk(st, id, 2) == Sole(file, None, id, task, Working);
    } else {
      n := 3;
      assert Walk(st, id, 2) == Sole(journal.value, journal, id, task, Clearing);
      WalkOn(st, id, 2);
      assert Walk(st, id, 3) == Sole(journal.value, None, id, task, Working);
    }
  }

  lemma SoleExits(file: File, journal: Option<File>, id: nat, task: Task, phase: Phase)
    ensures Exit(Sole(file, journal, id, task, phase), id) == State(file, journal, map[])
  {
    assert map[id := Actor(task, phase)] - {id} == map[];
  }

  lemma {:induction false} WalkFurther(st: State, id: nat, n: nat, m: nat)
    ensures Walk(st, id, n + m) == Walk(Walk(st, id, n), id, m)
  {
    if m > 0 {
      WalkFurther(st, id, n, m - 1);
      WalkOn(st, id, n + m - 1);
      WalkOn(Walk(st, id, n), id, m - 1);
    }
  }

  /** Whatever crashes left behind, an undisturbed regeneration installs a configured watermark, and without one
      leaves the logical one; no journal remains. */
  lemma RegenerateSucceeds(st: State, id: nat, target: Option<Svg>)
    requires st.actors == map[]
    ensures exists n :: Walk(Apply(st, Spawn(id, Regenerate(target))), id, n) ==
                        State(if target.Some? then target else Logical(st), None, map[])
  {
    var task := Regenerate(target);
    var spawned := Apply(st, Spawn(id, task));
    assert spawned == Sole(st.file, st.journal, id, task, AwaitExclusive);
    var n := GetsToWork(st.file, st.journal, id, task);
    WalkOn(spawned, id, n);
    var file := if target.Some? then target else Logical(st);
    SoleExits(file, None, id, task, Working);
    SoleExits(Logical(st), None, id, task, Working);
    assert Write(Sole(Logical(st), None, id, task, Working), Done, target) == Sole(target, None, id, task, Working);
    assert Walk(spawned, id, n + 1) == State(if target.Some? then target else Logical(st), None, map[]);
  }

  /** The actor runs its callback while the file is this. */
  ghost predicate CalledBack(st: State, id: nat, n: nat, file: File)
  {
    var at := Walk(st, id, n);
    id in at.actors && (at.actors[id].phase.SharedCallback? || at.actors[id].phase.Callback?) && at.file == file
  }

  /** An undisturbed publish job gets to its callback with its own watermark in the file, if it has any text, and
      the logical one is back in the file afterwards, with no journal. */
  lemma JobSucceeds(st: State, id: nat, expected: Option<Svg>)
    requires st.actors == map[]
    ensures var spawned := Apply(st, Spawn(id, Job(expected)));
            var shown := if expected.Some? then expected else Logical(st);
            (exists n :: CalledBack(spawned, id, n, shown)) &&
            exists n :: Walk(spawned, id, n) == State(Logical(st), None, map[])
  {
    var task := Job(expected);
    var spawned := Apply(st, Spawn(id, task));
    if expected == None {
      assert spawned == Sole(st.file, st.journal, id, task, AwaitExclusive);
      var at := SwapSucceeds(spawned, id, 0, st.file, st.journal, expected);
    } else {
      assert spawned == Sole(st.file, st.journal, id, task, AwaitShared);
      WalkOn(spawned, id, 0);
      assert Walk(spawned, id, 1) == Sole(st.file, st.journal, id, task, CheckShared);
      WalkOn(spawned, id, 1);
      if st.journal == None && st.file == expected {
        assert Walk(spawned, id, 2) == Sole(st.file, None, id, task, SharedCallback);
        assert CalledBack(spawned, id, 2, expected);
        WalkOn(spawned, id, 2);
        SoleExits(st.file, None, id, task, SharedCallback);
        assert Walk(spawned, id, 3) == State(Logical(st), None, map[]);
      } else {
        assert Walk(spawned, id, 2) == Sole(st.file, st.journal, id, task, AwaitExclusive);
        var at := SwapSucceeds(spawned, id, 2, st.file, st.journal, expected);
      }
    }
  }

  lemma SwapSucceeds(st: State, id: nat, n: nat, file: File, journal: Option<File>, expected: Option<Svg>)
      returns (at: nat)
    requires Walk(st, id, n) == Sole(file, journal, id, Job(expected), AwaitExclusive)
    ensures var logical := if journal.Some? then journal.value else file;
            var shown := if expected.Some? then expected else logical;
            CalledBack(st, id, at, shown) && Walk(st, id, at + 3) == State(logical, None, map[])
  {
    var task, logical := Job(expected), if journal.Some? then journal.value else file;
    var shown := if expected.Some? then expected else logical;
    hide Walk, Act, Apply, Sole, CalledBack, Logical;
    SoleMeans(file, journal, id, task, AwaitExclusive);
    var m := GetsToWork(file, journal, id, task);
    WalkFurther(st, id, n, m);
    Shows(st, id, n + m, logical, expected);
    at := n + m + 2;
    CallsBack(st, id, at, logical, shown, expected);
    PutsBack(st, id, at, logical, shown, expected);
  }

  lemma SoleMeans(file: File, journal: Option<File>, id: nat, task: Task, phase: Phase)
    ensures Logical(Sole(file, journal, id, task, phase)) == if journal.Some? then journal.value else file
  {
  }

  lemma CallsBack(st: State, id: nat, at: nat, logical: File, shown: File, expected: Option<Svg>)
    requires Walk(st, id, at) == Sole(shown, Some(logical), id, Job(expected), Callback(logical))
    ensures CalledBack(st, id, at, shown)
  {
    hide Walk;
  }

  lemma Shows(st: State, id: nat, at: nat, logical: File, expected: Option<Svg>)
    requires Walk(st, id, at) == Sole(logical, None, id, Job(expected), Working)
    ensures Walk(st, id, at + 2) == Sole(if expected.Some? then expected else logical, Some(logical), id, Job(expected),
                                         Callback(logical))
  {
    var task := Job(expected);
    WalkOn(st, id, at);
    assert Walk(st, id, at + 1) == Sole(logical, Some(logical), id, task, Swapping(logical));
    WalkOn(st, id, at + 1);
  }

  lemma PutsBack(st: State, id: nat, at: nat, logical: File, shown: File, expected: Option<Svg>)
    requires Walk(st, id, at) == Sole(shown, Some(logical), id, Job(expected), Callback(logical))
    ensures Walk(st, id, at + 3) == State(logical, None, map[])
  {
    var task := Job(expected);
    WalkOn(st, id, at);
    assert Walk(st, id, at + 1) == Sole(shown, Some(logical), id, task, Restoring(logical));
    WalkOn(st, id, at + 1);
    assert Walk(st, id, at + 2) == Sole(logical, Some(logical), id, task, Removing(logical));
    WalkOn(st, id, at + 2);
    SoleExits(logical, None, id, task, Removing(logical));
    assert Log(Walk(st, id, at + 2), Done, None) == Sole(logical, None, id, task, Removing(logical));
  }

  /** An undisturbed reader gets to its callback with the logical watermark in the file, having recovered it where
      that was necessary. */
  lemma CurrentSucceeds(st: State, id: nat)
    requires st.actors == map[]
    ensures exists n :: CalledBack(Apply(st, Spawn(id, Current)), id, n, Logical(st))
  {
    var spawned := Apply(st, Spawn(id, Current));
    assert spawned == Sole(st.file, st.journal, id, Current, AwaitShared);
    WalkOn(spawned, id, 0);
    assert Walk(spawned, id, 1) == Sole(st.file, st.journal, id, Current, CheckShared);
    WalkOn(spawned, id, 1);
    if st.journal == None {
      assert CalledBack(spawned, id, 2, Logical(st));
    } else {
      assert Walk(spawned, id, 2) == Sole(st.file, st.journal, id, Current, AwaitExclusive);
      var m := GetsToWork(st.file, st.journal, id, Current);
      WalkFurther(spawned, id, 2, m);
      var at := 2 + m;
      WalkOn(spawned, id, at);
      assert Walk(spawned, id, at + 1) == Sole(Logical(st), None, id, Current, AwaitShared);
      WalkOn(spawned, id, at + 1);
      assert Walk(spawned, id, at + 2) == Sole(Logical(st), None, id, Current, CheckShared);
      WalkOn(spawned, id, at + 2);
      assert CalledBack(spawned, id, at + 3, Logical(st));
    }
  }

  // ----- The programs without interference -----

  /** The two files, as the holder of the exclusive lock works on them. */
  class Files {
    var file: File
    var journal: Option<File>

    function Meaning(): File
      reads this
    {
      if journal.Some? then journal.value else file
    }

    /** restoreAndClearWatermarkRecovery */
    method Restore(previous: File)
      modifies this
      ensures file == previous && journal == None
    {
      file := previous;
      journal := None;
    }

    method Recover()
      modifies this
      ensures file == old(Meaning()) && journal == None
    {
      if journal.Some? {
        Restore(journal.value);
      }
    }

    method Install(target: Option<Svg>) returns (changed: bool)
      modifies this`file
      ensures file == if target.Some? then target else old(file)
      ensures changed <==> file != old(file)
    {
      if target == None || file == target {
        return false;
      }
      file := target;
      changed := true;
    }

    method RegenerateWatermark(target: Option<Svg>) returns (changed: bool)
      modifies this
      ensures journal == None && file == if target.Some? then target else old(Meaning())
      ensures changed <==> file != old(Meaning())
    {
      Recover();
      changed := Install(target);
    }

    /** The exclusive swap: the callback sees the job's own watermark, and afterwards everything is as
        it stood before, stale journal included. */
    method WithSnapshot(expected: Option<Svg>) returns (seen: File)
      modifies this
      ensures seen == if expected.Some? then expected else old(Meaning())
      ensures journal == None && file == old(Meaning())
    {
      Recover();
      var previous := file;
      journal := Some(previous);
      var changed := Install(expected);
      seen := file;
      Restore(previous);
    }
  }
}
