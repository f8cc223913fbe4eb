/** The single-flight group of generated images: requests for the same transformation share one call,
    its temporary file and its capacity slot, and the last one out cleans up.

    Each section under the group's mutex is one step; removing the file and freeing the slot come
    after it, outside the mutex, and are steps of their own. */
module SingleFlight {
  import opened Collections

  /** Starting until the leader got a slot or gave up, then generating, then complete. */
  datatype Phase = Starting | Generating | Complete

  /** What the request or the generation that found the call done and unreferenced still has to do. */
  datatype Cleanup = Idle | RemovingFile | FreeingSlot | Clean

  /** `file` is the call's temporary file, which the result names once the call completed with it. */
  datatype Call = Call(
    key: string,
    references: nat,
    phase: Phase,
    file: bool,
    slot: bool,
    cleanup: Cleanup,
    removals: nat,
    releases: nat)

  /** `readers` are the requests between acquire and release with the call that they share; `files` are
      the calls whose temporary file exists. */
  datatype State = State(calls: map<nat, Call>, group: map<string, nat>, readers: map<nat, nat>, files: set<nat>,
                         next: nat)

  predicate HoldsSlot(calls: map<nat, Call>, c: nat)
  {
    c in calls && calls[c].slot && calls[c].releases == 0
  }

  function Holders(calls: map<nat, Call>): set<nat>
  {
    set c | c in calls && HoldsSlot(calls, c)
  }

  function NewCall(key: string): Call
  {
    Call(key, 1, Starting, false, false, Idle, 0, 0)
  }

  /** acquire: join the call of the key or lead a new one. */
  function Acquire(st: State, r: nat, key: string): State
  {
    if r in st.readers then st
    else if key in st.group && st.group[key] in st.calls then
      var c := st.group[key];
      st.(calls := st.calls[c := st.calls[c].(references := st.calls[c].references + 1)], readers := st.readers[r := c])
    else
      st.(calls := st.calls[st.next := NewCall(key)], group := st.group[key := st.next],
          readers := st.readers[r := st.next], next := st.next + 1)
  }

  /** finish: the last section of the generation, or of a leader without a slot. */
  function Finish(st: State, c: nat): State
    requires c in st.calls
  {
    var call := st.calls[c];
    st.(calls := st.calls[c := call.(phase := Complete, cleanup := if call.references == 0 then RemovingFile
                                     else call.cleanup)])
  }

  /** The leader takes a slot if there is one, else finishes the call with an error. */
  function Start(st: State, c: nat, capacity: nat): State
  {
    if c !in st.calls || st.calls[c].phase != Starting then st
    else if |Holders(st.calls)| < capacity
      then st.(calls := st.calls[c := st.calls[c].(phase := Generating, slot := true)])
    else Finish(st, c)
  }

  function Create(st: State, c: nat): State
  {
    if c !in st.calls || st.calls[c].phase != Generating || st.calls[c].file then st
    else st.(calls := st.calls[c := st.calls[c].(file := true)], files := st.files + {c})
  }

  /** A failing generation removes its file itself. */
  function Discard(st: State, c: nat): State
  {
    if c !in st.calls || st.calls[c].phase != Generating || !st.calls[c].file then st
    else st.(calls := st.calls[c := st.calls[c].(file := false)], files := st.files - {c})
  }

  function End(st: State, c: nat): State
  {
    if c !in st.calls || st.calls[c].phase != Generating then st else Finish(st, c)
  }

  /** release: the last reader takes the call out of the group and cleans up if it is complete.  The
      leader still holds its reference while the call is starting. */
  function Release(st: State, r: nat): State
  {
    if r !in st.readers || st.readers[r] !in st.calls || st.calls[st.readers[r]].references == 0 ||
       (st.calls[st.readers[r]].phase == Starting && st.calls[st.readers[r]].references == 1) then st
    else
      var c := st.readers[r];
      var call := st.calls[c].(references := st.calls[c].references - 1);
      var last := call.references == 0;
      st.(calls := st.calls[c := call.(cleanup := if last && call.phase == Complete then RemovingFile
                                       else call.cleanup)],
          group := if last && call.key in st.group && st.group[call.key] == c then st.group - {call.key} else st.group,
          readers := st.readers - {r})
  }

  function RemoveFile(st: State, c: nat): State
  {
    if c !in st.calls || st.calls[c].cleanup != RemovingFile then st
    else
      var call := st.calls[c].(cleanup := FreeingSlot);
      st.(calls := st.calls[c := if call.file then call.(removals := call.removals + 1) else call],
          files := st.files - {c})
  }

  /** The slot is freed through a sync.Once. */
  function FreeSlot(st: State, c: nat): State
  {
    if c !in st.calls || st.calls[c].cleanup != FreeingSlot then st
    else
      var call := st.calls[c].(cleanup := Clean);
      st.(calls := st.calls[c := if call.slot && call.releases == 0 then call.(releases := 1) else call])
  }

  datatype Step =
    | Acquires(reader: nat, key: string)
    | Starts(call: nat)
    | Creates(call: nat)
    | Discards(call: nat)
    | Ends(call: nat)
    | Releases(reader: nat)
    | RemovesFile(call: nat)
    | FreesSlot(call: nat)

  function Apply(st: State, capacity: nat, step: Step): State
  {
    match step
    case Acquires(r, key) => Acquire(st, r, key)
    case Starts(c) => Start(st, c, capacity)
    case Creates(c) => Create(st, c)
    case Discards(c) => Discard(st, c)
    case Ends(c) => End(st, c)
    case Releases(r) => Release(st, r)
    case RemovesFile(c) => RemoveFile(st, c)
    case FreesSlot(c) => FreeSlot(st, c)
  }

  function Run(capacity: nat, steps: seq<Step>): State
  {
    if steps == [] then State(map[], map[], map[], {}, 0)
    else Apply(Run(capacity, steps[..|steps| - 1]), capacity, steps[|steps| - 1])
  }

  // ----- The invariant -----

  function ReadersOf(readers: map<nat, nat>, c: nat): set<nat>
  {
    set r | r in readers && readers[r] == c
  }

  ghost predicate CallOk(st: State, c: nat)
    requires c in st.calls
  {
    var call := st.calls[c];
    && c < st.next
    && call.references == |ReadersOf(st.readers, c)|
    && (call.references > 0 <==> call.key in st.group && st.group[call.key] == c)
    && (call.phase == Starting ==> call.references > 0 && !call.file && !call.slot)
    && (call.phase == Generating ==> call.slot)
    && (call.file ==> call.slot)
    && (call.cleanup != Idle <==> call.phase == Complete && call.references == 0)
    && call.removals == (if call.file && (call.cleanup == FreeingSlot || call.cleanup == Clean) then 1 else 0)
    && call.releases == (if call.slot && call.cleanup == Clean then 1 else 0)
    && (c in st.files <==> call.file && call.removals == 0)
  }

  ghost predicate Inv(st: State, capacity: nat)
  {
    && (forall c {:trigger CallOk(st, c)} :: c in st.calls ==> CallOk(st, c))
    && (forall key :: key in st.group ==> st.group[key] in st.calls && st.calls[st.group[key]].key == key)
    && (forall r :: r in st.readers ==> st.readers[r] in st.calls)
    && (forall c :: c in st.files ==> c in st.calls)
    && |Holders(st.calls)| <= capacity
  }

  /** Only call c changes, and nothing of the others. */
  lemma CallStep(st: State, st': State, c: nat, capacity: nat)
    requires Inv(st, capacity) && c in st'.calls && st'.calls == st.calls[c := st'.calls[c]] && st'.next >= st.next
    requires c in st.calls || c == st.next
    requires CallOk(st', c) && |Holders(st'.calls)| <= capacity
    requires forall d :: d in st.calls && d != c ==>
               ReadersOf(st'.readers, d) == ReadersOf(st.readers, d) && (d in st'.files <==> d in st.files)
    requires forall key :: key in st'.group ==>
               (key in st.group && st'.group[key] == st.group[key]) || (st'.group[key] == c && st'.calls[c].key == key)
    requires forall key :: key in st.group && st.group[key] != c ==> key in st'.group && st'.group[key] == st.group[key]
    requires c in st.calls ==> st'.calls[c].key == st.calls[c].key
    requires forall r :: r in st'.readers ==>
               st'.readers[r] == c || (r in st.readers && st'.readers[r] == st.readers[r])
    requires forall d :: d in st'.files ==> d == c || d in st.files
    ensures Inv(st', capacity)
  {
    forall d | d in st'.calls
      ensures CallOk(st', d)
    {
      if d != c {
        assert CallOk(st, d);
      }
    }
  }

  lemma SameHolders(st: State, st': State, c: nat)
    requires c in st.calls && c in st'.calls && st'.calls == st.calls[c := st'.calls[c]]
    requires HoldsSlot(st'.calls, c) ==> HoldsSlot(st.calls, c)
    ensures |Holders(st'.calls)| <= |Holders(st.calls)|
  {
    assert Holders(st'.calls) <= Holders(st.calls);
    SubsetSize(Holders(st'.calls), Holders(st.calls));
  }

  lemma AcquireKeeps(st: State, r: nat, key: string, capacity: nat)
    requires Inv(st, capacity)
    ensures Inv(Acquire(st, r, key), capacity)
  {
    var st' := Acquire(st, r, key);
    if st' != st {
      var c := st'.readers[r];
      if c in st.calls {
        assert CallOk(st, c);
        assert ReadersOf(st'.readers, c) == ReadersOf(st.readers, c) + {r};
        SameHolders(st, st', c);
      } else {
        assert c == st.next && ReadersOf(st'.readers, c) == {r};
        assert Holders(st'.calls) == Holders(st.calls);
      }
      assert CallOk(st', c);
      CallStep(st, st', c, capacity);
    }
  }

  lemma LocalKeeps(st: State, st': State, c: nat, capacity: nat)
    requires Inv(st, capacity) && c in st.calls && c in st'.calls
    requires st' == st.(calls := st.calls[c := st'.calls[c]], files := st'.files)
    requires st'.calls[c].key == st.calls[c].key && st'.calls[c].references == st.calls[c].references
    requires forall d :: d != c ==> (d in st'.files <==> d in st.files)
    requires HoldsSlot(st'.calls, c) ==> HoldsSlot(st.calls, c) || |Holders(st.calls)| < capacity
    requires CallOk(st', c)
    ensures Inv(st', capacity)
  {
    if HoldsSlot(st'.calls, c) && !HoldsSlot(st.calls, c) {
      assert Holders(st'.calls) == Holders(st.calls) + {c};
    } else {
      SameHolders(st, st', c);
    }
    CallStep(st, st', c, capacity);
  }

  lemma ReleaseKeeps(st: State, r: nat, capacity: nat)
    requires Inv(st, capacity)
    ensures Inv(Release(st, r), capacity)
  {
    var st' := Release(st, r);
    if st' != st {
      var c := st.readers[r];
      assert CallOk(st, c);
      assert ReadersOf(st'.readers, c) == ReadersOf(st.readers, c) - {r};
      SameHolders(st, st', c);
      CallStep(st, st', c, capacity);
    }
  }

  lemma StepKeepsInv(st: State, capacity: nat, step: Step)
    requires Inv(st, capacity)
    ensures Inv(Apply(st, capacity, step), capacity)
  {
    var st' := Apply(st, capacity, step);
    match step {
      case Acquires(r, key) => AcquireKeeps(st, r, key, capacity);
      case Releases(r) => ReleaseKeeps(st, r, capacity);
      case _ =>
        if st' != st {
          assert CallOk(st, step.call);
          LocalKeeps(st, st', step.call, capacity);
        }
    }
  }

  lemma {:induction false} Reachable(capacity: nat, steps: seq<Step>)
    ensures Inv(Run(capacity, steps), capacity)
  {
    if steps == [] {
      assert Holders(Run(capacity, steps).calls) == {};
    } else {
      Reachable(capacity, steps[..|steps| - 1]);
      StepKeepsInv(Run(capacity, steps[..|steps| - 1]), capacity, steps[|steps| - 1]);
    }
  }

  // ----- The promises -----

  /** A call is in the group exactly while requests hold it, and its count is their number. */
  lemma InGroupWhileReferenced(capacity: nat, steps: seq<Step>, c: nat)
    requires c in Run(capacity, steps).calls
    ensures var st := Run(capacity, steps);
            (st.calls[c].key in st.group && st.group[st.calls[c].key] == c <==>
             exists r :: r in st.readers && st.readers[r] == c) &&
            st.calls[c].references == |ReadersOf(st.readers, c)|
  {
    var st := Run(capacity, steps);
    Reachable(capacity, steps);
    assert CallOk(st, c);
    if r :| r in st.readers && st.readers[r] == c {
      assert r in ReadersOf(st.readers, c);
    }
    if st.calls[c].references > 0 {
      var r :| r in ReadersOf(st.readers, c);
    }
  }

  /** A completed file exists as long as a request holds its call; it is removed at most once, the slot
      is freed at most once and only after that, and both have happened once the cleanup is over. */
  lemma CleanedOnce(capacity: nat, steps: seq<Step>, c: nat)
    requires c in Run(capacity, steps).calls
    ensures var st := Run(capacity, steps);
            var call := st.calls[c];
            call.removals <= 1 && call.releases <= 1 &&
            (call.references > 0 ==> call.removals == 0 && call.releases == 0 && (call.file ==> c in st.files)) &&
            (call.releases > 0 ==> c !in st.files && call.phase == Complete && call.references == 0) &&
            (call.cleanup == Clean ==>
               call.removals == (if call.file then 1 else 0) && call.releases == (if call.slot then 1 else 0))
  {
    Reachable(capacity, steps);
    assert CallOk(Run(capacity, steps), c);
  }

  /** The temporary files that exist never outnumber the capacity. */
  lemma FilesWithinCapacity(capacity: nat, steps: seq<Step>)
    ensures |Run(capacity, steps).files| <= |Holders(Run(capacity, steps).calls)| <= capacity
  {
    var st := Run(capacity, steps);
    Reachable(capacity, steps);
    forall c | c in st.files
      ensures c in Holders(st.calls)
    {
      assert CallOk(st, c);
    }
    SubsetSize(st.files, Holders(st.calls));
  }

  /** Nothing is left behind: an unreferenced complete call that is not clean has a step to take. */
  lemma CleanupProgresses(capacity: nat, steps: seq<Step>, c: nat)
    requires c in Run(capacity, steps).calls && Run(capacity, steps).calls[c].phase == Complete
    requires Run(capacity, steps).calls[c].references == 0 && Run(capacity, steps).calls[c].cleanup != Clean
    ensures var st := Run(capacity, steps);
            var a := Apply(st, capacity, RemovesFile(c));
            var b := Apply(a, capacity, FreesSlot(c));
            c in b.calls && b.calls[c].cleanup == Clean && c !in b.files && !HoldsSlot(b.calls, c)
  {
    Reachable(capacity, steps);
    assert CallOk(Run(capacity, steps), c);
  }

  /** A starting call generates, in a slot, if and only if fewer calls than the capacity hold one; else it is
      complete without a slot at once. */
  lemma StartLaw(st: State, capacity: nat, c: nat)
    requires c in st.calls && st.calls[c].phase == Starting
    ensures var after := Apply(st, capacity, Starts(c));
            var taken := set d | d in st.calls && st.calls[d].slot && st.calls[d].releases == 0;
            (after.calls[c].phase == Generating <==> |taken| < capacity) &&
            (after.calls[c].phase == Generating ==>
               after.calls[c] == st.calls[c].(phase := Generating, slot := true)) &&
            (after.calls[c].phase != Generating ==>
               after.calls[c].phase == Complete && after.calls[c].slot == st.calls[c].slot &&
               (st.calls[c].references > 0 ==> after.calls[c].cleanup == st.calls[c].cleanup)) &&
            after == st.(calls := st.calls[c := after.calls[c]])
  {
    assert Holders(st.calls) == set d | d in st.calls && st.calls[d].slot && st.calls[d].releases == 0;
  }

  /** A request gets the call that the group has for its key, with one more reference, or else a new one. */
  lemma AcquireLaw(st: State, capacity: nat, steps: seq<Step>, r: nat, key: string)
    requires st == Run(capacity, steps) && r !in st.readers
    ensures var after := Apply(st, capacity, Acquires(r, key));
            r in after.readers && after.readers == st.readers[r := after.readers[r]] &&
            var c := after.readers[r];
            c in after.calls && after.calls[c].key == key && after.calls == st.calls[c := after.calls[c]] &&
            after.files == st.files &&
            if exists s :: s in st.readers && st.readers[s] in st.calls && st.calls[st.readers[s]].key == key
            then c in st.calls && after.calls[c] == st.calls[c].(references := st.calls[c].references + 1)
            else c !in st.calls && after.calls[c].references == 1 && after.calls[c].phase == Starting &&
                 !after.calls[c].slot && !after.calls[c].file
  {
    Reachable(capacity, steps);
    forall c | c in st.calls
      ensures c < st.next
    {
      assert CallOk(st, c);
    }
    if key in st.group {
      GroupIsHeld(st, capacity, key);
    }
    if s :| s in st.readers && st.readers[s] in st.calls && st.calls[st.readers[s]].key == key {
      HeldInGroup(st, capacity, s);
    }
  }

  lemma GroupIsHeld(st: State, capacity: nat, key: string)
    requires Inv(st, capacity) && key in st.group
    ensures exists s :: s in st.readers && st.readers[s] in st.calls && st.calls[st.readers[s]].key == key
  {
    var c := st.group[key];
    assert CallOk(st, c);
    assert ReadersOf(st.readers, c) != {};
    var s :| s in ReadersOf(st.readers, c);
  }

  lemma HeldInGroup(st: State, capacity: nat, r: nat)
    requires Inv(st, capacity) && r in st.readers
    ensures var key := st.calls[st.readers[r]].key; key in st.group && st.group[key] == st.readers[r]
  {
    assert CallOk(st, st.readers[r]);
    assert r in ReadersOf(st.readers, st.readers[r]);
  }

  /** Two requests in progress for the same key share one call, so one generation and one file. */
  lemma OneCallPerKey(capacity: nat, steps: seq<Step>, r: nat, s: nat)
    requires r in Run(capacity, steps).readers && s in Run(capacity, steps).readers
    ensures var st := Run(capacity, steps);
            st.readers[r] in st.calls && st.readers[s] in st.calls &&
            (st.calls[st.readers[r]].key == st.calls[st.readers[s]].key <==> st.readers[r] == st.readers[s])
  {
    Reachable(capacity, steps);
    HeldInGroup(Run(capacity, steps), capacity, r);
    HeldInGroup(Run(capacity, steps), capacity, s);
  }

  /** A generation that ends completes its call, and has the cleanup to do exactly if nobody holds the call. */
  lemma EndLaw(st: State, capacity: nat, c: nat)
    requires c in st.calls && st.calls[c].phase == Generating && st.calls[c].cleanup == Idle
    ensures var after := Apply(st, capacity, Ends(c));
            after == st.(calls := st.calls[c := after.calls[c]]) &&
            after.calls[c] == st.calls[c].(phase := Complete, cleanup := after.calls[c].cleanup) &&
            after.calls[c].cleanup == if st.calls[c].references > 0 then Idle else RemovingFile
  {
  }

  /** A request that leaves gives its reference back; the last one takes the call out of the group, and has the
      cleanup to do exactly if the call is complete.  A call keeps its leader until it has started. */
  lemma ReleaseLaw(st: State, capacity: nat, steps: seq<Step>, r: nat)
    requires st == Run(capacity, steps) && r in st.readers
    ensures var after := Apply(st, capacity, Releases(r));
            var c := st.readers[r];
            c in st.calls && st.calls[c].references > 0 &&
            var call := st.calls[c];
            if call.phase == Starting && call.references == 1 then after == st
            else
              r !in after.readers && after.calls == st.calls[c := after.calls[c]] && after.files == st.files &&
              after.calls[c] == call.(references := call.references - 1, cleanup := after.calls[c].cleanup) &&
              (after.calls[c].cleanup == RemovingFile <==> call.references == 1 && call.phase == Complete) &&
              (call.key in after.group && after.group[call.key] == c <==> call.references > 1)
  {
    Reachable(capacity, steps);
    HeldInGroup(st, capacity, r);
    assert CallOk(st, st.readers[r]);
    assert r in ReadersOf(st.readers, st.readers[r]);
  }

  // ----- The group -----

  class DynamicImageGroup {
    var calls: map<nat, Call>
    var group: map<string, nat>
    var readers: map<nat, nat>
    var files: set<nat>
    var next: nat

    ghost function View(): State
      reads this
    {
      State(calls, group, readers, files, next)
    }

    method AcquireCall(r: nat, key: string) returns (c: nat, leader: bool)
      requires r !in readers && forall k :: k in group ==> group[k] in calls
      modifies this`calls, this`group, this`readers, this`next
      ensures View() == Acquire(old(View()), r, key)
      ensures r in readers && c == readers[r] && (leader <==> key !in old(group))
    {
      leader := key !in group;
      if !leader {
        c := group[key];
        calls := calls[c := calls[c].(references := calls[c].references + 1)];
      } else {
        c := next;
        calls := calls[c := NewCall(key)];
        group := group[key := c];
        next := next + 1;
      }
      readers := readers[r := c];
    }

    method FinishCall(c: nat) returns (remove: bool)
      requires c in calls
      modifies this`calls
      ensures View() == Finish(old(View()), c) && (remove <==> old(calls)[c].references == 0)
    {
      var call := calls[c].(phase := Complete);
      remove := call.references == 0;
      calls := calls[c := if remove then call.(cleanup := RemovingFile) else call];
    }

    method ReleaseCall(r: nat) returns (remove: bool)
      requires r in readers && readers[r] in calls && calls[readers[r]].references > 0
      requires calls[readers[r]].phase == Starting ==> calls[readers[r]].references > 1
      modifies this`calls, this`group, this`readers
      ensures View() == Release(old(View()), r)
      ensures remove <==> old(calls)[old(readers)[r]].references == 1
    {
      var c := readers[r];
      var call := calls[c].(references := calls[c].references - 1);
      remove := call.references == 0;
      if remove && call.key in group && group[call.key] == c {
        group := group - {call.key};
      }
      if remove && call.phase == Complete {
        call := call.(cleanup := RemovingFile);
      }
      calls := calls[c := call];
      readers := readers - {r};
    }
  }
}
