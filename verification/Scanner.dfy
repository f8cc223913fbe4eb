/** The resumable scanner of persistent files: a depth-first walk with an explicit stack that can stop
    after any entry, and the queue of unreferenced files that it feeds. */
module Scanner {
  import opened Collections

  const MAXIMUM_DEPTH: nat := 64
  const SCAN_SIZE: nat := 500
  const QUEUE_BATCH: nat := 100

  type Path = seq<string>

  /** A directory entry; `stale` files were last changed before the cutoff.  Other stands for symbolic
      links and everything else that is neither a directory nor a regular file. */
  datatype Entry = File(name: string, stale: bool) | Dir(name: string, entries: seq<Entry>) | Other(name: string)

  // ----- The recursive listing -----

  /** The old regular files below a directory at the given depth, the root being at depth 1. */
  function Listing(entries: seq<Entry>, prefix: Path, depth: nat): seq<Path>
    decreases entries
  {
    if entries == [] then []
    else ListEntry(entries[0], prefix, depth) + Listing(entries[1..], prefix, depth)
  }

  function ListEntry(entry: Entry, prefix: Path, depth: nat): seq<Path>
    decreases entry
  {
    match entry
    case File(name, stale) => if stale then [prefix + [name]] else []
    case Dir(name, entries) => if depth >= MAXIMUM_DEPTH then [] else Listing(entries, prefix + [name], depth + 1)
    case Other(_) => []
  }

  /** What is listed: there is an old regular file at the path below the entries. */
  predicate OldFileAt(entries: seq<Entry>, path: Path)
    decreases path
  {
    path != [] && exists i :: 0 <= i < |entries| && EntryAt(entries[i], path)
  }

  predicate EntryAt(entry: Entry, path: Path)
    requires path != []
    decreases path, 0
  {
    entry.name == path[0] && if |path| == 1 then entry.File? && entry.stale
    else entry.Dir? && OldFileAt(entry.entries, path[1..])
  }

  /** Siblings have different names, all the way down. */
  predicate Named(entries: seq<Entry>)
    decreases entries
  {
    (forall i, j :: 0 <= i < j < |entries| ==> entries[i].name != entries[j].name) &&
    forall i :: 0 <= i < |entries| && entries[i].Dir? ==> Named(entries[i].entries)
  }

  // ----- The scanner's state -----

  datatype Frame = Frame(relative: Path, rest: seq<Entry>)

  datatype Page = Page(paths: seq<Path>, complete: bool)

  datatype State = State(stack: seq<Frame>, pending: Option<Page>)

  function Left(stack: seq<Frame>): seq<Path>
  {
    if stack == [] then []
    else
      var top := |stack| - 1;
      Listing(stack[top].rest, stack[top].relative, |stack|) + Left(stack[..top])
  }

  datatype Walk = Walk(stack: seq<Frame>, paths: seq<Path>, visited: nat)

  /** One iteration of NextPage's loop on a stack that is not empty. */
  function Advance(w: Walk): Walk
    requires w.stack != []
  {
    var top := |w.stack| - 1;
    var frame := w.stack[top];
    if frame.rest == [] then w.(stack := w.stack[..top])
    else
      var entry := frame.rest[0];
      var path := frame.relative + [entry.name];
      var stack := w.stack[..top] + [Frame(frame.relative, frame.rest[1..])];
      var next := w.(stack := stack, visited := w.visited + 1);
      match entry
      case File(_, stale) => if stale then next.(paths := w.paths + [path]) else next
      case Dir(_, entries) => if |w.stack| >= MAXIMUM_DEPTH then next
        else next.(stack := stack + [Frame(path, entries)])
      case Other(_) => next
  }

  /** The loop until its budget of entries or of iterations is used up, or the walk is over. */
  function Scan(w: Walk, budget: nat): (Walk, bool)
    decreases budget
  {
    if budget == 0 || w.visited >= SCAN_SIZE then (w, false)
    else if w.stack == [] then (w, true)
    else Scan(Advance(w), budget - 1)
  }

  /** NextPage; `budget` iterations fit before the deadline. */
  function NextPage(st: State, root: seq<Entry>, budget: nat): State
  {
    if st.pending.Some? then st
    else
      var stack := if st.stack == [] then [Frame([], root)] else st.stack;
      var (w, complete) := Scan(Walk(stack, [], 0), budget);
      State(w.stack, Some(Page(w.paths, complete)))
  }

  function Unreferenced(paths: seq<Path>, referenced: set<Path>): seq<Path>
  {
    if paths == [] then []
    else if paths[0] in referenced then Unreferenced(paths[1..], referenced)
    else [paths[0]] + Unreferenced(paths[1..], referenced)
  }

  function First(paths: seq<Path>): seq<Path>
  {
    if |paths| <= QUEUE_BATCH then paths else paths[..QUEUE_BATCH]
  }

  function Others(paths: seq<Path>): seq<Path>
  {
    if |paths| <= QUEUE_BATCH then [] else paths[QUEUE_BATCH..]
  }

  /** queuePersistentV2Orphans: what it queues, and whether it reports the end of the pass. */
  datatype Queued = Queued(state: State, paths: seq<Path>, done: bool)

  function Queue(st: State, root: seq<Entry>, referenced: set<Path>, budget: nat): Queued
  {
    var next := NextPage(st, root, budget);
    var page := next.pending.value;
    var orphans := Unreferenced(page.paths, referenced);
    if Others(orphans) == [] then Queued(next.(pending := None), First(orphans), page.complete)
    else Queued(next.(pending := Some(page.(paths := Others(orphans)))), First(orphans), false)
  }

  // ----- The scanner -----

  class PersistentScanner {
    var stack: seq<Frame>
    var pending: Option<Page>
    const root: seq<Entry>

    constructor (root: seq<Entry>)
      ensures View() == State([], None) && this.root == root
    {
      this.root := root;
      stack, pending := [], None;
    }

    ghost function View(): State
      reads this
    {
      State(stack, pending)
    }

    method Next(budget: nat) returns (page: Page)
      modifies this
      ensures View() == NextPage(old(View()), root, budget) && pending == Some(page)
    {
      if pending.Some? {
        return pending.value;
      }
      if stack == [] {
        stack := [Frame([], root)];
      }
      ghost var start := Walk(stack, [], 0);
      page := Page([], false);
      var visited, left := 0, budget;
      while visited < SCAN_SIZE && left > 0
        invariant Scan(start, budget) == Scan(Walk(stack, page.paths, visited), left)
        invariant !page.complete && pending == None
        decreases left
      {
        if stack == [] {
          page := page.(complete := true);
          break;
        }
        ghost var before := Walk(stack, page.paths, visited);
        var frame, below := stack[|stack| - 1], stack[..|stack| - 1];
        if frame.rest == [] {
          stack := below;
        } else {
          var entry, path := frame.rest[0], frame.relative + [frame.rest[0].name];
          var depth := |stack|;
          visited := visited + 1;
          stack := below + [Frame(frame.relative, frame.rest[1..])];
          if entry.Dir? {
            if depth < MAXIMUM_DEPTH {
              stack := stack + [Frame(path, entry.entries)];
            }
          } else if entry.File? && entry.stale {
            page := page.(paths := page.paths + [path]);
          }
        }
        assert Walk(stack, page.paths, visited) == Advance(before);
        left := left - 1;
      }
      pending := Some(page);
    }

    method CommitPageRemainder(remaining: seq<Path>)
      requires pending.Some?
      modifies this`pending
      ensures pending == if remaining == [] then None else Some(old(pending).value.(paths := remaining))
    {
      if remaining == [] {
        pending := None;
      } else {
        pending := Some(pending.value.(paths := remaining));
      }
    }

    method QueueOrphans(referenced: set<Path>, budget: nat) returns (paths: seq<Path>, done: bool)
      modifies this
      ensures Queued(View(), paths, done) == Queue(old(View()), root, referenced, budget)
    {
      var page := Next(budget);
      var remaining;
      paths, remaining := NextBatch(page.paths, referenced);
      CommitPageRemainder(remaining);
      done := page.complete && remaining == [];
    }
  }

  /** nextPersistentV2OrphanBatch */
  method NextBatch(candidates: seq<Path>, referenced: set<Path>) returns (paths: seq<Path>, remaining: seq<Path>)
    ensures paths == First(Unreferenced(candidates, referenced)) &&
            remaining == Others(Unreferenced(candidates, referenced))
  {
    paths, remaining := [], [];
    var n := 0;
    while n < |candidates|
      invariant 0 <= n <= |candidates| && |paths| <= QUEUE_BATCH && (remaining != [] ==> |paths| == QUEUE_BATCH)
      invariant paths + remaining + Unreferenced(candidates[n..], referenced) == Unreferenced(candidates, referenced)
    {
      var candidate := candidates[n];
      ghost var rest := Unreferenced(candidates[n + 1..], referenced);
      assert candidates[n..][0] == candidate && candidates[n..][1..] == candidates[n + 1..];
      if candidate !in referenced {
        Associative(paths + remaining, [candidate], rest);
        if |paths| < 100 {
          assert paths + remaining == paths;
          paths := paths + [candidate];
          assert paths + remaining == paths;
        } else {
          Associative(paths, remaining, [candidate]);
          remaining := remaining + [candidate];
        }
      }
      n := n + 1;
    }
    assert candidates[n..] == [] && paths + remaining + [] == paths + remaining;
    ghost var all := paths + remaining;
    assert paths == all[..|paths|] && remaining == all[|paths|..];
  }

  // ----- The walk is the listing -----

  lemma LeftPushed(below: seq<Frame>, frame: Frame)
    ensures Left(below + [frame]) == Listing(frame.rest, frame.relative, |below| + 1) + Left(below)
  {
    assert (below + [frame])[..|below|] == below;
  }

  lemma LeftTaken(below: seq<Frame>, frame: Frame)
    requires frame.rest != []
    ensures Left(below + [frame]) ==
              ListEntry(frame.rest[0], frame.relative, |below| + 1) +
                Left(below + [Frame(frame.relative, frame.rest[1..])])
  {
    var rest := Frame(frame.relative, frame.rest[1..]);
    LeftPushed(below, frame);
    LeftPushed(below, rest);
    Associative(ListEntry(frame.rest[0], frame.relative, |below| + 1), Listing(rest.rest, frame.relative, |below| + 1),
                Left(below));
  }

  /** One iteration emits exactly what it takes from what is left. */
  lemma AdvanceLeft(w: Walk)
    requires w.stack != []
    ensures Advance(w).paths + Left(Advance(w).stack) == w.paths + Left(w.stack)
  {
    var top := |w.stack| - 1;
    var frame, below := w.stack[top], w.stack[..top];
    if frame.rest != [] {
      var entry, stack := frame.rest[0], below + [Frame(frame.relative, frame.rest[1..])];
      assert w.stack == below + [frame];
      LeftTaken(below, frame);
      Associative(w.paths, ListEntry(entry, frame.relative, |w.stack|), Left(stack));
      if entry.Dir? {
        LeftPushed(stack, Frame(frame.relative + [entry.name], entry.entries));
      }
    }
  }

  /** A page comes from at most five hundred entries, and holds no more paths than that. */
  lemma {:induction false} PageBounded(w: Walk, budget: nat)
    requires |w.paths| <= w.visited <= 500
    ensures |Scan(w, budget).0.paths| <= Scan(w, budget).0.visited <= 500
    decreases budget
  {
    if budget > 0 && w.visited < SCAN_SIZE && w.stack != [] {
      PageBounded(Advance(w), budget - 1);
    }
  }

  lemma {:induction false} ScanLeft(w: Walk, budget: nat)
    ensures var (after, complete) := Scan(w, budget);
            after.paths + Left(after.stack) == w.paths + Left(w.stack) && (complete ==> after.stack == [])
    decreases budget
  {
    if budget > 0 && w.visited < SCAN_SIZE && w.stack != [] {
      AdvanceLeft(w);
      ScanLeft(Advance(w), budget - 1);
    }
  }

  /** What a pass has still to queue, at its beginning the whole listing. */
  function Outstanding(st: State, root: seq<Entry>): seq<Path>
  {
    if st.pending.Some? then st.pending.value.paths + Left(st.stack)
    else if st.stack == [] then Listing(root, [], 1)
    else Left(st.stack)
  }

  function Rest(st: State): seq<Path>
  {
    if st.pending.Some? then st.pending.value.paths + Left(st.stack) else Left(st.stack)
  }

  lemma NextPageRest(st: State, root: seq<Entry>, budget: nat)
    ensures Rest(NextPage(st, root, budget)) == Outstanding(st, root)
  {
    if st.pending == None {
      var stack := if st.stack == [] then [Frame([], root)] else st.stack;
      ScanLeft(Walk(stack, [], 0), budget);
      if st.stack == [] {
        assert stack[..0] == [];
        assert Left(stack) == Listing(root, [], 1) + [];
      }
      assert [] + Left(stack) == Left(stack);
    }
  }

  lemma {:induction false} UnreferencedConcat(a: seq<Path>, b: seq<Path>, referenced: set<Path>)
    ensures Unreferenced(a + b, referenced) == Unreferenced(a, referenced) + Unreferenced(b, referenced)
  {
    if a == [] {
      assert a + b == b;
    } else {
      assert (a + b)[1..] == a[1..] + b;
      UnreferencedConcat(a[1..], b, referenced);
    }
  }

  lemma {:induction false} UnreferencedFixed(paths: seq<Path>, referenced: set<Path>)
    ensures forall p :: p in Unreferenced(paths, referenced) <==> p in paths && p !in referenced
    ensures Unreferenced(Unreferenced(paths, referenced), referenced) == Unreferenced(paths, referenced)
  {
    if paths != [] {
      UnreferencedFixed(paths[1..], referenced);
      if paths[0] !in referenced {
        var rest := Unreferenced(paths[1..], referenced);
        assert ([paths[0]] + rest)[1..] == rest;
      }
    }
  }

  /** One call queues the next unreferenced files in order, at most a batch of them, and leaves the rest. */
  lemma QueueTakes(st: State, root: seq<Entry>, referenced: set<Path>, budget: nat)
    ensures var q := Queue(st, root, referenced, budget);
            q.paths + Unreferenced(Rest(q.state), referenced) == Unreferenced(Outstanding(st, root), referenced) &&
            |q.paths| <= QUEUE_BATCH
  {
    var next := NextPage(st, root, budget);
    var page, q := next.pending.value, Queue(st, root, referenced, budget);
    var orphans := Unreferenced(page.paths, referenced);
    NextPageRest(st, root, budget);
    UnreferencedConcat(page.paths, Left(next.stack), referenced);
    UnreferencedFixed(page.paths, referenced);
    assert orphans == First(orphans) + Others(orphans);
    if Others(orphans) != [] {
      UnreferencedConcat(First(orphans), Others(orphans), referenced);
      AllUnreferenced(First(orphans), Others(orphans), referenced);
      UnreferencedConcat(Others(orphans), Left(next.stack), referenced);
      Associative(First(orphans), Others(orphans), Unreferenced(Left(next.stack), referenced));
    }
  }

  lemma AllUnreferenced(a: seq<Path>, b: seq<Path>, referenced: set<Path>)
    requires forall p :: p in a + b ==> p !in referenced
    ensures Unreferenced(b, referenced) == b
  {
    forall p | p in b ensures p !in referenced { assert p in a + b; }
    NothingReferenced(b, referenced);
  }

  lemma {:induction false} NothingReferenced(paths: seq<Path>, referenced: set<Path>)
    requires forall p :: p in paths ==> p !in referenced
    ensures Unreferenced(paths, referenced) == paths
  {
    if paths != [] {
      NothingReferenced(paths[1..], referenced);
    }
  }

  // ----- A pass -----

  /** The calls of one pass with the budgets that their deadlines leave them. */
  function Pass(st: State, root: seq<Entry>, referenced: set<Path>, budgets: seq<nat>): Queued
  {
    if budgets == [] then Queued(st, [], false)
    else
      var before := Pass(st, root, referenced, budgets[..|budgets| - 1]);
      var q := Queue(before.state, root, referenced, budgets[|budgets| - 1]);
      Queued(q.state, before.paths + q.paths, q.done)
  }

  predicate Fresh(st: State)
  {
    st.stack == [] && st.pending == None
  }

  /** No call but the last brings the scanner back to where it opens the root again. */
  predicate OnePass(root: seq<Entry>, referenced: set<Path>, budgets: seq<nat>)
  {
    forall n :: 0 < n < |budgets| ==> !Fresh(Pass(State([], None), root, referenced, budgets[..n]).state)
  }

  lemma StillOutstanding(st: State, root: seq<Entry>)
    requires !Fresh(st)
    ensures Outstanding(st, root) == Rest(st)
  {
  }

  lemma QueueContinues(before: Queued, root: seq<Entry>, referenced: set<Path>, budget: nat, goal: seq<Path>)
    requires before.paths + Unreferenced(Outstanding(before.state, root), referenced) == goal
    ensures var q := Queue(before.state, root, referenced, budget);
            before.paths + q.paths + Unreferenced(Rest(q.state), referenced) == goal
  {
    var q := Queue(before.state, root, referenced, budget);
    QueueTakes(before.state, root, referenced, budget);
    Associative(before.paths, q.paths, Unreferenced(Rest(q.state), referenced));
  }

  lemma PrefixOfPass(root: seq<Entry>, referenced: set<Path>, budgets: seq<nat>)
    requires budgets != [] && OnePass(root, referenced, budgets)
    ensures OnePass(root, referenced, budgets[..|budgets| - 1])
  {
    var before := budgets[..|budgets| - 1];
    forall n | 0 < n < |before|
      ensures !Fresh(Pass(State([], None), root, referenced, before[..n]).state)
    {
      assert before[..n] == budgets[..n];
    }
  }

  /** However a pass is cut into calls and pages, it has queued and has left exactly the unreferenced
      files of the listing, in its order. */
  lemma {:induction false} PassQueues(root: seq<Entry>, referenced: set<Path>, budgets: seq<nat>)
    requires budgets != [] && OnePass(root, referenced, budgets)
    ensures var q := Pass(State([], None), root, referenced, budgets);
            q.paths + Unreferenced(Rest(q.state), referenced) == Unreferenced(Listing(root, [], 1), referenced)
  {
    var last := |budgets| - 1;
    var before := Pass(State([], None), root, referenced, budgets[..last]);
    var goal := Unreferenced(Listing(root, [], 1), referenced);
    if last == 0 {
      assert before == Queued(State([], None), [], false) && [] + goal == goal;
    } else {
      PrefixOfPass(root, referenced, budgets);
      PassQueues(root, referenced, budgets[..last]);
      StillOutstanding(before.state, root);
    }
    QueueContinues(before, root, referenced, budgets[last], goal);
  }

  /** A pass that is over has queued every unreferenced old file within the depth cap exactly once, and
      nothing else. */
  lemma PassIsComplete(root: seq<Entry>, referenced: set<Path>, budgets: seq<nat>)
    requires budgets != [] && OnePass(root, referenced, budgets) && Named(root)
    requires Fresh(Pass(State([], None), root, referenced, budgets).state)
    ensures var paths := Pass(State([], None), root, referenced, budgets).paths;
            Distinct(paths) &&
            forall p :: p in paths <==> OldFileAt(root, p) && |p| <= 64 && p !in referenced
  {
    PassQueues(root, referenced, budgets);
    var paths := Pass(State([], None), root, referenced, budgets).paths;
    assert paths + [] == paths;
    ListingIs(root, [], 1);
    ListingDistinct(root, [], 1);
    UnreferencedFixed(Listing(root, [], 1), referenced);
    UnreferencedDistinct(Listing(root, [], 1), referenced);
    hide Pass, OnePass, Fresh, Named, Listing, Unreferenced, Left, OldFileAt;
    forall p
      ensures p in Listing(root, [], 1) <==> OldFileAt(root, p) && |p| <= MAXIMUM_DEPTH
    {
      assert p[..0] == [] && p[0..] == p;
    }
  }

  lemma {:induction false} UnreferencedDistinct(paths: seq<Path>, referenced: set<Path>)
    requires Distinct(paths)
    ensures Distinct(Unreferenced(paths, referenced))
  {
    if paths != [] {
      UnreferencedDistinct(paths[1..], referenced);
      UnreferencedFixed(paths[1..], referenced);
    }
  }

  // ----- The listing is what its reference says -----

  /** p extends the prefix by a path to an old file within the depth cap. */
  predicate Below(entries: seq<Entry>, prefix: Path, depth: nat, p: Path)
  {
    |prefix| < |p| && p[..|prefix|] == prefix && OldFileAt(entries, p[|prefix|..]) &&
    depth + |p| <= MAXIMUM_DEPTH + |prefix| + 1
  }

  predicate EntryBelow(entry: Entry, prefix: Path, depth: nat, p: Path)
  {
    |prefix| < |p| && p[..|prefix|] == prefix && EntryAt(entry, p[|prefix|..]) &&
    depth + |p| <= MAXIMUM_DEPTH + |prefix| + 1
  }

  lemma {:induction false} ListingIs(entries: seq<Entry>, prefix: Path, depth: nat)
    requires depth <= MAXIMUM_DEPTH
    ensures forall p :: p in Listing(entries, prefix, depth) <==> Below(entries, prefix, depth, p)
    decreases entries
  {
    if entries != [] {
      ListEntryIs(entries[0], prefix, depth);
      ListingIs(entries[1..], prefix, depth);
      forall p
        ensures Below(entries, prefix, depth, p) <==>
                EntryBelow(entries[0], prefix, depth, p) || Below(entries[1..], prefix, depth, p)
      {
        if |prefix| < |p| {
          OldFileSplit(entries, p[|prefix|..]);
        }
      }
    }
  }

  lemma OldFileSplit(entries: seq<Entry>, path: Path)
    requires entries != [] && path != []
    ensures OldFileAt(entries, path) <==> EntryAt(entries[0], path) || OldFileAt(entries[1..], path)
  {
    if i :| 0 <= i < |entries| && EntryAt(entries[i], path) {
      assert i > 0 ==> entries[1..][i - 1] == entries[i];
    }
    if j :| 0 <= j < |entries[1..]| && EntryAt(entries[1..][j], path) {
      assert entries[j + 1] == entries[1..][j];
    }
  }

  lemma ListEntryIs(entry: Entry, prefix: Path, depth: nat)
    requires depth <= MAXIMUM_DEPTH
    ensures forall p :: p in ListEntry(entry, prefix, depth) <==> EntryBelow(entry, prefix, depth, p)
    decreases entry
  {
    if entry.Dir? {
      var inner := prefix + [entry.name];
      if depth < MAXIMUM_DEPTH {
        ListingIs(entry.entries, inner, depth + 1);
      }
      forall p
        ensures EntryBelow(entry, prefix, depth, p) <==>
                depth < MAXIMUM_DEPTH && Below(entry.entries, inner, depth + 1, p)
      {
        DirBelow(entry, prefix, depth, p);
      }
    } else {
      forall p
        ensures EntryBelow(entry, prefix, depth, p) <==> entry.File? && entry.stale && p == prefix + [entry.name]
      {
        if EntryBelow(entry, prefix, depth, p) {
          assert p == p[..|prefix|] + p[|prefix|..];
          assert p[|prefix|..] == [entry.name];
        }
        if p == prefix + [entry.name] {
          assert p[..|prefix|] == prefix && p[|prefix|..] == [entry.name];
        }
      }
    }
  }

  lemma DirBelow(entry: Entry, prefix: Path, depth: nat, p: Path)
    requires entry.Dir? && depth <= MAXIMUM_DEPTH
    ensures EntryBelow(entry, prefix, depth, p) <==>
              depth < MAXIMUM_DEPTH && Below(entry.entries, prefix + [entry.name], depth + 1, p)
  {
    var inner := prefix + [entry.name];
    if |inner| < |p| {
      assert p[|prefix|..][1..] == p[|inner|..];
      assert p[|prefix|..][0] == p[|prefix|];
      if p[..|prefix|] == prefix && p[|prefix|] == entry.name {
        assert p[..|inner|] == inner;
      }
      if p[..|inner|] == inner {
        assert p[..|prefix|] == inner[..|prefix|] == prefix && p[|prefix|] == inner[|prefix|];
      }
    }
  }

  lemma {:induction false} ListingDistinct(entries: seq<Entry>, prefix: Path, depth: nat)
    requires depth <= MAXIMUM_DEPTH && Named(entries)
    ensures Distinct(Listing(entries, prefix, depth))
    decreases entries
  {
    if entries != [] {
      var first, others := ListEntry(entries[0], prefix, depth), Listing(entries[1..], prefix, depth);
      assert forall i :: 0 <= i < |entries[1..]| ==> entries[1..][i] == entries[i + 1];
      if entries[0].Dir? && depth < MAXIMUM_DEPTH {
        ListingDistinct(entries[0].entries, prefix + [entries[0].name], depth + 1);
      }
      ListingDistinct(entries[1..], prefix, depth);
      ListEntryIs(entries[0], prefix, depth);
      ListingIs(entries[1..], prefix, depth);
      forall p | p in others
        ensures p !in first
      {
        var path := p[|prefix|..];
        var i :| 0 <= i < |entries[1..]| && EntryAt(entries[1..][i], path);
        assert path[0] == entries[i + 1].name != entries[0].name;
      }
      DistinctConcat(first, others);
    }
  }

  lemma DistinctConcat(a: seq<Path>, b: seq<Path>)
    requires Distinct(a) && Distinct(b) && forall p :: !(p in a && p in b)
    ensures Distinct(a + b)
  {
    forall i, j | 0 <= i < |a| && 0 <= j < |b|
      ensures a[i] != b[j]
    {
      assert a[i] in a && b[j] in b;
    }
  }

  // ----- The report of completeness -----

  /** A reported end is an end. */
  lemma ReportsAreTrue(st: State, root: seq<Entry>, referenced: set<Path>, budget: nat)
    requires Queue(st, root, referenced, budget).done
    requires st.pending.Some? && st.pending.value.complete ==> st.stack == []
    ensures Fresh(Queue(st, root, referenced, budget).state)
  {
    if st.pending == None {
      ScanLeft(Walk(if st.stack == [] then [Frame([], root)] else st.stack, [], 0), budget);
    }
  }

  /** Exactly `budget` iterations empty the stack, and the limit on entries is not reached before. */
  predicate EndsAt(w: Walk, budget: nat)
    decreases budget
  {
    if budget == 0 then w.stack == []
    else w.stack != [] && w.visited < SCAN_SIZE && EndsAt(Advance(w), budget - 1)
  }

  /** The iteration that empties the stack closes a directory, which is no entry: so it is never the limit on
      entries that keeps the end from being seen. */
  lemma {:induction false} ScanEndsUnseen(w: Walk, budget: nat)
    requires w.stack == [] ==> w.visited < SCAN_SIZE
    ensures var (after, complete) := Scan(w, budget); after.stack == [] && !complete <==> EndsAt(w, budget)
    decreases budget
  {
    if budget > 0 && w.visited < SCAN_SIZE && w.stack != [] {
      ScanEndsUnseen(Advance(w), budget - 1);
    }
  }

  function StartWalk(st: State, root: seq<Entry>): Walk
  {
    Walk(if st.stack == [] then [Frame([], root)] else st.stack, [], 0)
  }

  /** When a call leaves a finished pass without a report, so that the next one opens the root again: it took
      a page whose iterations ran out just after the root closed, or was left such a page, and could queue all
      of it. */
  lemma UnreportedEnd(st: State, root: seq<Entry>, referenced: set<Path>, budget: nat)
    ensures var q := Queue(st, root, referenced, budget);
            var page := NextPage(st, root, budget).pending.value;
            Fresh(q.state) && !q.done <==>
              Others(Unreferenced(page.paths, referenced)) == [] &&
              if st.pending == None then EndsAt(StartWalk(st, root), budget) else st.stack == [] && !page.complete
  {
    if st.pending == None {
      ScanEndsUnseen(StartWalk(st, root), budget);
    }
  }

  /** A tree of one old file: two iterations end without a report, three with one. */
  lemma OneFileUnreported()
    ensures var q := Queue(State([], None), [File("a", true)], {}, 2); Fresh(q.state) && q.paths == [["a"]] && !q.done
    ensures var q := Queue(State([], None), [File("a", true)], {}, 3); Fresh(q.state) && q.paths == [["a"]] && q.done
  {
    var w := Walk([Frame([], [File("a", true)])], [], 0);
    var a := Advance(w);
    assert [] + ["a"] == ["a"] && [File("a", true)][1..] == [];
    assert w.stack[..0] + [Frame([], [])] == [Frame([], [])];
    assert a == Walk([Frame([], [])], [["a"]], 1);
    var b := Advance(a);
    assert b == Walk([], [["a"]], 1);
    assert Scan(w, 2) == Scan(a, 1) == Scan(b, 0) == (b, false);
    assert Scan(w, 3) == Scan(a, 2) == Scan(b, 1) == (b, true);
    assert [["a"]][1..] == [] && Unreferenced([["a"]], {}) == [["a"]];
  }

  // ----- A pass comes to an end -----

  /** The iterations that the entries of a directory at the given depth take. */
  function EntriesWork(entries: seq<Entry>, depth: nat): nat
    decreases entries
  {
    if entries == [] then 0 else EntryWork(entries[0], depth) + EntriesWork(entries[1..], depth)
  }

  /** One for the entry, and for a directory that is entered those of its entries and one to leave it. */
  function EntryWork(entry: Entry, depth: nat): nat
    decreases entry
  {
    match entry
    case Dir(_, entries) => if depth >= MAXIMUM_DEPTH then 1 else 2 + EntriesWork(entries, depth + 1)
    case _ => 1
  }

  function StackWork(stack: seq<Frame>): nat
  {
    if stack == [] then 0
    else
      var top := |stack| - 1;
      1 + EntriesWork(stack[top].rest, |stack|) + StackWork(stack[..top])
  }

  lemma WorkPushed(below: seq<Frame>, frame: Frame)
    ensures StackWork(below + [frame]) == 1 + EntriesWork(frame.rest, |below| + 1) + StackWork(below)
  {
    assert (below + [frame])[..|below|] == below;
  }

  /** One iteration is one less to do, and it finds at most one file. */
  lemma AdvanceWork(w: Walk)
    requires w.stack != []
    ensures StackWork(Advance(w).stack) + 1 == StackWork(w.stack) && |Advance(w).paths| <= |w.paths| + 1
  {
    var top := |w.stack| - 1;
    var frame, below := w.stack[top], w.stack[..top];
    if frame.rest != [] {
      var entry, rest := frame.rest[0], Frame(frame.relative, frame.rest[1..]);
      assert w.stack == below + [frame];
      WorkPushed(below, frame);
      WorkPushed(below, rest);
      if entry.Dir? {
        WorkPushed(below + [rest], Frame(frame.relative + [entry.name], entry.entries));
      }
    }
  }

  lemma {:induction false} ScanWork(w: Walk, budget: nat)
    ensures var after := Scan(w, budget).0;
            StackWork(after.stack) + |after.paths| <= StackWork(w.stack) + |w.paths| &&
            StackWork(after.stack) <= StackWork(w.stack) &&
            (budget > 0 && w.visited < SCAN_SIZE && w.stack != [] ==> StackWork(after.stack) < StackWork(w.stack))
    decreases budget
  {
    if budget > 0 && w.visited < SCAN_SIZE && w.stack != [] {
      AdvanceWork(w);
      ScanWork(Advance(w), budget - 1);
    }
  }

  /** What is left to do in a pass: iterations of the walk, files of the page, and giving up the page. */
  function Measure(st: State, root: seq<Entry>): nat
  {
    if Fresh(st) then 1 + EntriesWork(root, 1)
    else StackWork(st.stack) + (if st.pending.Some? then |st.pending.value.paths| + 1 else 0)
  }

  lemma {:induction false} UnreferencedShrinks(paths: seq<Path>, referenced: set<Path>)
    ensures |Unreferenced(paths, referenced)| <= |paths|
  {
    if paths != [] {
      UnreferencedShrinks(paths[1..], referenced);
    }
  }

  /** A call that can do at least one iteration leaves less to do, unless it ends the pass. */
  lemma CallProgress(st: State, root: seq<Entry>, referenced: set<Path>, budget: nat)
    requires budget > 0
    ensures var after := Queue(st, root, referenced, budget).state;
            Fresh(after) || Measure(after, root) < Measure(st, root)
  {
    var page := NextPage(st, root, budget).pending.value;
    UnreferencedShrinks(page.paths, referenced);
    if st.pending == None {
      var start := StartWalk(st, root);
      ScanWork(start, budget);
      WorkPushed([], Frame([], root));
    }
  }

  /** As long as the pass goes on, every call counts. */
  lemma {:induction false} CallsCount(root: seq<Entry>, referenced: set<Path>, budgets: seq<nat>)
    requires forall n :: 0 <= n < |budgets| ==> budgets[n] > 0
    requires forall n :: 0 < n <= |budgets| ==> !Fresh(Pass(State([], None), root, referenced, budgets[..n]).state)
    ensures Measure(Pass(State([], None), root, referenced, budgets).state, root) + |budgets| <=
            1 + EntriesWork(root, 1)
  {
    if budgets != [] {
      var last := |budgets| - 1;
      forall n | 0 < n <= last
        ensures !Fresh(Pass(State([], None), root, referenced, budgets[..last][..n]).state)
      {
        assert budgets[..last][..n] == budgets[..n];
      }
      CallsCount(root, referenced, budgets[..last]);
      assert budgets[..|budgets|] == budgets;
      CallProgress(Pass(State([], None), root, referenced, budgets[..last]).state, root, referenced, budgets[last]);
    }
  }

  predicate OverAfter(root: seq<Entry>, referenced: set<Path>, budgets: seq<nat>, n: nat)
    requires n <= |budgets|
  {
    Fresh(Pass(State([], None), root, referenced, budgets[..n]).state)
  }

  lemma NotOver(root: seq<Entry>, referenced: set<Path>, budgets: seq<nat>, n: nat)
    requires n <= |budgets| && forall m :: 0 <= m < |budgets| ==> budgets[m] > 0
    requires forall m :: 0 < m <= n ==> !OverAfter(root, referenced, budgets, m)
    ensures n <= EntriesWork(root, 1)
  {
    hide Pass, EntriesWork, Queue;
    if n > 0 {
      forall m | 0 < m <= n
        ensures !Fresh(Pass(State([], None), root, referenced, budgets[..n][..m]).state)
      {
        assert budgets[..n][..m] == budgets[..m] && !OverAfter(root, referenced, budgets, m);
      }
      CallsCount(root, referenced, budgets[..n]);
      assert budgets[..n][..n] == budgets[..n];
      assert !Fresh(Pass(State([], None), root, referenced, budgets[..n]).state);
      NotFresh(Pass(State([], None), root, referenced, budgets[..n]).state, root);
    }
  }

  lemma NotFresh(st: State, root: seq<Entry>)
    requires !Fresh(st)
    ensures Measure(st, root) > 0
  {
  }

  lemma FirstOver(root: seq<Entry>, referenced: set<Path>, budgets: seq<nat>, n: nat)
    requires 0 < n <= |budgets| && forall m :: 0 < m < n ==> !OverAfter(root, referenced, budgets, m)
    ensures OnePass(root, referenced, budgets[..n])
  {
    hide Pass, Fresh;
    forall m | 0 < m < n
      ensures !Fresh(Pass(State([], None), root, referenced, budgets[..n][..m]).state)
    {
      assert budgets[..n][..m] == budgets[..m] && !OverAfter(root, referenced, budgets, m);
    }
  }

  /** Calls that can each do at least one iteration end a pass within as many calls as the whole walk has
      iterations, whatever pages they cut it into. */
  lemma PassEnds(root: seq<Entry>, referenced: set<Path>, budgets: seq<nat>) returns (n: nat)
    requires (forall m :: 0 <= m < |budgets| ==> budgets[m] > 0) && |budgets| >= 1 + EntriesWork(root, 1)
    ensures 0 < n <= 1 + EntriesWork(root, 1) && OnePass(root, referenced, budgets[..n])
    ensures Fresh(Pass(State([], None), root, referenced, budgets[..n]).state)
  {
    hide Pass, OnePass, EntriesWork;
    n := 1;
    while !OverAfter(root, referenced, budgets, n)
      invariant 0 < n <= 1 + EntriesWork(root, 1)
      invariant forall m :: 0 < m < n ==> !OverAfter(root, referenced, budgets, m)
      decreases 1 + EntriesWork(root, 1) - n
    {
      NotOver(root, referenced, budgets, n);
      n := n + 1;
    }
    FirstOver(root, referenced, budgets, n);
  }
}
