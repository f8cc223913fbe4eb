/** Queuing of storage deletions: what the enqueuer makes of a list of paths and remote objects, and
    that the deletion worker accepts it. */
module StorageGc {
  import opened Collections
  import opened Text

  const LOCAL_BATCH: nat := 100
  const REMOTE_BATCH: nat := 5
  const MAXIMUM_PATH: nat := 500

  datatype Object = Object(path: string, backend: string, endpoint: string, bucket: string)

  datatype Target = Target(backend: string, endpoint: string, bucket: string)

  datatype Payload = Payload(paths: seq<string>, objects: seq<Object>)

  type Remote = map<string, Object>

  function Normalised(item: Object): Object
  {
    Object(TrimSpace(item.path), TrimSpace(item.backend), Endpoint(item.endpoint), TrimSpace(item.bucket))
  }

  function TargetOf(item: Object): Target
  {
    Target(item.backend, item.endpoint, item.bucket)
  }

  predicate ValidTarget(item: Object)
  {
    item.backend == "r2" && item.endpoint != "" && item.bucket != ""
  }

  // ----- Cleaning -----

  /** Trimmed, without blanks, each path once in order of first appearance. */
  function Clean(paths: seq<string>): seq<string>
  {
    if paths == [] then []
    else
      var before, path := Clean(paths[..|paths| - 1]), TrimSpace(paths[|paths| - 1]);
      if path == "" || path in before then before else before + [path]
  }

  lemma {:induction false} CleanIs(paths: seq<string>)
    ensures Distinct(Clean(paths))
    ensures forall p :: p in Clean(paths) <==> p != "" && exists i :: 0 <= i < |paths| && TrimSpace(paths[i]) == p
    ensures forall p :: p in Clean(paths) ==> Trimmed(p)
  {
    if paths != [] {
      var n := |paths| - 1;
      CleanIs(paths[..n]);
      TrimSpaceTrims(paths[n]);
      assert forall i :: 0 <= i < n ==> paths[..n][i] == paths[i];
    }
  }

  function NormaliseAll(objects: seq<Object>): seq<Object>
  {
    seq(|objects|, i requires 0 <= i < |objects| => Normalised(objects[i]))
  }

  predicate AllTrimmed(items: seq<Object>)
  {
    forall i :: 0 <= i < |items| ==> Trimmed(items[i].bucket)
  }

  lemma NormalisedTrimmed(objects: seq<Object>)
    ensures AllTrimmed(NormaliseAll(objects))
  {
    forall i | 0 <= i < |objects|
      ensures Trimmed(Normalised(objects[i]).bucket)
    {
      TrimSpaceTrims(objects[i].bucket);
    }
  }

  /** The normalised remote objects by path, unless one has no local path, no valid target or a second target. */
  function ByPath(cleaned: seq<string>, items: seq<Object>): Option<Remote>
  {
    if items == [] then Some(map[])
    else
      var before, item := ByPath(cleaned, items[..|items| - 1]), items[|items| - 1];
      if before == None || item.path == "" then before
      else if item.path !in cleaned || !ValidTarget(item) then None
      else if item.path in before.value && before.value[item.path] != item then None
      else Some(before.value[item.path := item])
  }

  predicate RemoteOk(remote: Remote, cleaned: seq<string>)
  {
    forall p :: p in remote ==>
      p in cleaned && remote[p].path == p && ValidTarget(remote[p]) && Trimmed(remote[p].bucket)
  }

  lemma {:induction false} ByPathOk(cleaned: seq<string>, items: seq<Object>)
    requires AllTrimmed(items)
    ensures ByPath(cleaned, items).Some? ==> RemoteOk(ByPath(cleaned, items).value, cleaned)
  {
    if items != [] {
      ByPathOk(cleaned, items[..|items| - 1]);
    }
  }

  predicate Registers(remote: Remote, item: Object)
  {
    item.path == "" || (item.path in remote && remote[item.path] == item)
  }

  /** Every accepted object is registered under its path. */
  lemma {:induction false} ByPathAll(cleaned: seq<string>, items: seq<Object>, i: nat)
    requires i < |items| && ByPath(cleaned, items).Some?
    ensures Registers(ByPath(cleaned, items).value, items[i])
  {
    var n := |items| - 1;
    if i < n {
      ByPathAll(cleaned, items[..n], i);
    }
  }

  // ----- Grouping -----

  datatype Grouping = Grouping(local: seq<string>, order: seq<Target>, groups: map<Target, seq<Object>>)

  function Place(g: Grouping, path: string, remote: Remote): Grouping
  {
    if path !in remote then g.(local := g.local + [path])
    else
      var item := remote[path];
      var t := TargetOf(item);
      if t in g.groups then g.(groups := g.groups[t := g.groups[t] + [item]])
      else g.(order := g.order + [t], groups := g.groups[t := [item]])
  }

  function GroupFirst(cleaned: seq<string>, remote: Remote, n: nat): Grouping
    requires n <= |cleaned|
  {
    if n == 0 then Grouping([], [], map[]) else Place(GroupFirst(cleaned, remote, n - 1), cleaned[n - 1], remote)
  }

  function PathsOf(objects: seq<Object>): seq<string>
  {
    seq(|objects|, i requires 0 <= i < |objects| => objects[i].path)
  }

  function GroupPaths(order: seq<Target>, groups: map<Target, seq<Object>>): seq<string>
    requires forall t :: t in order ==> t in groups
  {
    if order == [] then []
    else GroupPaths(order[..|order| - 1], groups) + PathsOf(groups[order[|order| - 1]])
  }

  ghost predicate GroupingOk(g: Grouping, remote: Remote)
  {
    && Distinct(g.order) && (forall t :: t in g.order <==> t in g.groups)
    && (forall p :: p in g.local ==> p !in remote)
    && (forall t, i :: t in g.groups && 0 <= i < |g.groups[t]| ==>
          var item := g.groups[t][i]; item.path in remote && remote[item.path] == item && TargetOf(item) == t)
    && (forall t :: t in g.groups ==> g.groups[t] != [])
  }

  lemma {:induction false} SamePaths(order: seq<Target>, a: map<Target, seq<Object>>, b: map<Target, seq<Object>>)
    requires forall t :: t in order ==> t in a && t in b && a[t] == b[t]
    ensures GroupPaths(order, a) == GroupPaths(order, b)
  {
    if order != [] {
      SamePaths(order[..|order| - 1], a, b);
    }
  }

  /** Appending to one group appends one path. */
  lemma {:induction false} AppendOne(order: seq<Target>, a: map<Target, seq<Object>>, t: Target, item: Object)
    requires Distinct(order) && (forall u :: u in order ==> u in a) && t in order
    ensures multiset(GroupPaths(order, a[t := a[t] + [item]])) == multiset(GroupPaths(order, a)) + multiset{item.path}
  {
    var n, b := |order| - 1, a[t := a[t] + [item]];
    var front, last := order[..n], order[n];
    if last == t {
      SamePaths(front, a, b);
      assert PathsOf(b[t]) == PathsOf(a[t]) + [item.path];
      assert GroupPaths(order, b) == GroupPaths(order, a) + [item.path];
    } else {
      assert t in front;
      AppendOne(front, a, t, item);
      assert GroupPaths(order, b) == GroupPaths(front, b) + PathsOf(a[last]);
    }
  }

  lemma PlaceGroupingOk(g: Grouping, path: string, remote: Remote)
    requires GroupingOk(g, remote) && (path in remote ==> remote[path].path == path)
    ensures GroupingOk(Place(g, path, remote), remote)
  {
  }

  function AllPaths(g: Grouping): multiset<string>
    requires forall t :: t in g.order ==> t in g.groups
  {
    multiset(g.local) + multiset(GroupPaths(g.order, g.groups))
  }

  lemma PlaceAdds(g: Grouping, path: string, remote: Remote)
    requires GroupingOk(g, remote) && (path in remote ==> remote[path].path == path)
    ensures var h := Place(g, path, remote);
            (forall t :: t in h.order ==> t in h.groups) && AllPaths(h) == AllPaths(g) + multiset{path}
  {
    var h := Place(g, path, remote);
    if path in remote {
      var t := TargetOf(remote[path]);
      if t in g.groups {
        AppendOne(g.order, g.groups, t, remote[path]);
      } else {
        NewGroup(g, h, t, remote[path]);
      }
    }
  }

  lemma NewGroup(g: Grouping, h: Grouping, t: Target, item: Object)
    requires t !in g.order && (forall u :: u in g.order ==> u in g.groups)
    requires h.order == g.order + [t] && h.groups == g.groups[t := [item]]
    ensures GroupPaths(h.order, h.groups) == GroupPaths(g.order, g.groups) + [item.path]
  {
    assert h.order[..|h.order| - 1] == g.order;
    SamePaths(g.order, g.groups, h.groups);
    assert PathsOf([item]) == [item.path];
  }

  lemma OneMore(s: seq<string>, n: nat)
    requires 0 < n <= |s|
    ensures multiset(s[..n]) == multiset(s[..n - 1]) + multiset{s[n - 1]}
  {
    assert s[..n] == s[..n - 1] + [s[n - 1]];
  }

  lemma {:induction false} GroupingIs(cleaned: seq<string>, remote: Remote, n: nat)
    requires n <= |cleaned| && RemoteOk(remote, cleaned)
    ensures GroupingOk(GroupFirst(cleaned, remote, n), remote)
    ensures AllPaths(GroupFirst(cleaned, remote, n)) == multiset(cleaned[..n])
  {
    if n > 0 {
      var before, path := GroupFirst(cleaned, remote, n - 1), cleaned[n - 1];
      GroupingIs(cleaned, remote, n - 1);
      PlaceGroupingOk(before, path, remote);
      PlaceAdds(before, path, remote);
      OneMore(cleaned, n);
    }
  }

  // ----- Batches -----

  function Batches<T>(s: seq<T>, size: nat): seq<seq<T>>
    requires size > 0
    decreases |s|
  {
    if s == [] then [] else if |s| <= size then [s] else [s[..size]] + Batches(s[size..], size)
  }

  function LocalPayloads(batches: seq<seq<string>>): seq<Payload>
  {
    seq(|batches|, i requires 0 <= i < |batches| => Payload(batches[i], []))
  }

  function RemotePayloads(batches: seq<seq<Object>>): seq<Payload>
  {
    seq(|batches|, i requires 0 <= i < |batches| => Payload(PathsOf(batches[i]), batches[i]))
  }

  function GroupPayloads(order: seq<Target>, groups: map<Target, seq<Object>>): seq<Payload>
    requires forall t :: t in order ==> t in groups
  {
    if order == [] then []
    else GroupPayloads(order[..|order| - 1], groups) + RemotePayloads(Batches(groups[order[|order| - 1]], REMOTE_BATCH))
  }

  function Payloads(g: Grouping): seq<Payload>
    requires forall t :: t in g.order ==> t in g.groups
  {
    LocalPayloads(Batches(g.local, LOCAL_BATCH)) + GroupPayloads(g.order, g.groups)
  }

  /** All paths of a list of payloads. */
  function Flat(payloads: seq<Payload>): seq<string>
  {
    if payloads == [] then [] else Flat(payloads[..|payloads| - 1]) + payloads[|payloads| - 1].paths
  }

  lemma {:induction false} FlatConcat(a: seq<Payload>, b: seq<Payload>)
    ensures Flat(a + b) == Flat(a) + Flat(b)
  {
    if b == [] {
      assert a + b == a;
    } else {
      var n := |b| - 1;
      assert (a + b)[..|a + b| - 1] == a + b[..n];
      FlatConcat(a, b[..n]);
    }
  }

  lemma FlatOne(payload: Payload)
    ensures Flat([payload]) == payload.paths
  {
    assert [payload][..0] == [];
  }

  lemma {:induction false} BatchSizes<T>(s: seq<T>, size: nat)
    requires size > 0
    ensures forall i :: 0 <= i < |Batches(s, size)| ==> 1 <= |Batches(s, size)[i]| <= size
    ensures forall i, j :: 0 <= i < |Batches(s, size)| && 0 <= j < |Batches(s, size)[i]| ==> Batches(s, size)[i][j] in s
    decreases |s|
  {
    if |s| > size {
      BatchSizes(s[size..], size);
    }
  }

  lemma LocalCons(batch: seq<string>, rest: seq<seq<string>>)
    ensures LocalPayloads([batch] + rest) == [Payload(batch, [])] + LocalPayloads(rest)
  {
  }

  lemma FlatCons(batch: seq<string>, rest: seq<seq<string>>)
    ensures Flat(LocalPayloads([batch] + rest)) == batch + Flat(LocalPayloads(rest))
  {
    LocalCons(batch, rest);
    FlatConcat([Payload(batch, [])], LocalPayloads(rest));
    FlatOne(Payload(batch, []));
  }

  lemma FlatNone()
    ensures Flat(LocalPayloads([])) == []
  {
    assert LocalPayloads([]) == [];
  }

  lemma NextBatches<T>(s: seq<T>, size: nat)
    requires 0 < size < |s|
    ensures Batches(s, size) == [s[..size]] + Batches(s[size..], size)
  {
  }

  lemma {:induction false} LocalFlat(s: seq<string>, size: nat)
    requires size > 0
    ensures Flat(LocalPayloads(Batches(s, size))) == s
    decreases |s|
  {
    hide Flat, LocalPayloads;
    if |s| > size {
      hide Batches;
      NextBatches(s, size);
      LocalFlat(s[size..], size);
      FlatCons(s[..size], Batches(s[size..], size));
    } else {
      FlatNone();
      if s != [] {
        FlatCons(s, []);
        assert [s] + [] == [s];
      }
    }
  }

  lemma PathsOfSplit(s: seq<Object>, n: nat)
    requires n <= |s|
    ensures PathsOf(s) == PathsOf(s[..n]) + PathsOf(s[n..])
  {
  }

  lemma {:induction false} RemoteFlat(s: seq<Object>, size: nat)
    requires size > 0
    ensures Flat(RemotePayloads(Batches(s, size))) == PathsOf(s)
    decreases |s|
  {
    if |s| > size {
      RemoteFlat(s[size..], size);
      var first := Payload(PathsOf(s[..size]), s[..size]);
      assert RemotePayloads(Batches(s, size)) == [first] + RemotePayloads(Batches(s[size..], size));
      FlatConcat([first], RemotePayloads(Batches(s[size..], size)));
      FlatOne(first);
      PathsOfSplit(s, size);
    } else if s != [] {
      assert RemotePayloads([s]) == [Payload(PathsOf(s), s)];
      FlatOne(Payload(PathsOf(s), s));
    }
  }

  /** A payload of local paths only, or one of remote objects on one target with exactly their paths. */
  ghost predicate PayloadOk(payload: Payload, remote: Remote)
  {
    if payload.objects == [] then
      1 <= |payload.paths| <= LOCAL_BATCH && forall p :: p in payload.paths ==> p !in remote
    else
      && 1 <= |payload.objects| <= REMOTE_BATCH && payload.paths == PathsOf(payload.objects)
      && (forall i :: 0 <= i < |payload.objects| ==>
            payload.objects[i].path in remote && remote[payload.objects[i].path] == payload.objects[i] &&
            TargetOf(payload.objects[i]) == TargetOf(payload.objects[0]))
  }

  lemma {:induction false} GroupFlat(order: seq<Target>, groups: map<Target, seq<Object>>, remote: Remote)
    requires forall t :: t in order ==> t in groups
    requires forall t, i :: t in groups && 0 <= i < |groups[t]| ==>
               groups[t][i].path in remote && remote[groups[t][i].path] == groups[t][i] && TargetOf(groups[t][i]) == t
    ensures Flat(GroupPayloads(order, groups)) == GroupPaths(order, groups)
    ensures forall k :: 0 <= k < |GroupPayloads(order, groups)| ==> PayloadOk(GroupPayloads(order, groups)[k], remote)
  {
    if order != [] {
      var n := |order| - 1;
      var objects := groups[order[n]];
      GroupFlat(order[..n], groups, remote);
      RemoteFlat(objects, REMOTE_BATCH);
      FlatConcat(GroupPayloads(order[..n], groups), RemotePayloads(Batches(objects, REMOTE_BATCH)));
      BatchesOk(objects, order[n], remote);
    }
  }

  lemma BatchesOk(objects: seq<Object>, t: Target, remote: Remote)
    requires forall i :: 0 <= i < |objects| ==>
               objects[i].path in remote && remote[objects[i].path] == objects[i] && TargetOf(objects[i]) == t
    ensures forall k :: 0 <= k < |RemotePayloads(Batches(objects, REMOTE_BATCH))| ==>
              PayloadOk(RemotePayloads(Batches(objects, REMOTE_BATCH))[k], remote)
  {
    var batches := Batches(objects, REMOTE_BATCH);
    BatchSizes(objects, REMOTE_BATCH);
    forall k | 0 <= k < |batches|
      ensures PayloadOk(RemotePayloads(batches)[k], remote)
    {
      forall i | 0 <= i < |batches[k]|
        ensures batches[k][i].path in remote && remote[batches[k][i].path] == batches[k][i] &&
                TargetOf(batches[k][i]) == t
      {
        assert batches[k][i] in objects;
      }
    }
  }

  /** The payloads hold every cleaned path exactly once, each remote object with its path, on one
      target per payload, within the batch sizes. */
  lemma Partition(cleaned: seq<string>, remote: Remote)
    requires RemoteOk(remote, cleaned)
    ensures var g := GroupFirst(cleaned, remote, |cleaned|);
            (forall t :: t in g.order ==> t in g.groups) &&
            multiset(Flat(Payloads(g))) == multiset(cleaned) &&
            forall k :: 0 <= k < |Payloads(g)| ==> PayloadOk(Payloads(g)[k], remote)
  {
    var g := GroupFirst(cleaned, remote, |cleaned|);
    GroupingIs(cleaned, remote, |cleaned|);
    assert cleaned[..|cleaned|] == cleaned;
    var local := LocalPayloads(Batches(g.local, LOCAL_BATCH));
    LocalFlat(g.local, LOCAL_BATCH);
    GroupFlat(g.order, g.groups, remote);
    FlatConcat(local, GroupPayloads(g.order, g.groups));
    LocalOk(g.local, remote);
  }

  lemma LocalOk(paths: seq<string>, remote: Remote)
    requires forall p :: p in paths ==> p !in remote
    ensures forall k :: 0 <= k < |LocalPayloads(Batches(paths, LOCAL_BATCH))| ==>
              PayloadOk(LocalPayloads(Batches(paths, LOCAL_BATCH))[k], remote)
  {
    BatchSizes(paths, LOCAL_BATCH);
  }

  lemma {:induction false} BatchesFull<T>(s: seq<T>, size: nat)
    requires size > 0
    ensures forall k :: 0 <= k < |Batches(s, size)| - 1 ==> |Batches(s, size)[k]| == size
    decreases |s|
  {
    if |s| > size {
      BatchesFull(s[size..], size);
    }
  }

  /** No payload is smaller than it has to be: of the local ones all but the last hold a hundred paths, and of those
      on one target all but the last five objects. */
  lemma PayloadsAreFull(g: Grouping, t: Target)
    requires (forall u :: u in g.order ==> u in g.groups) && t in g.groups
    ensures var local := LocalPayloads(Batches(g.local, LOCAL_BATCH));
            local <= Payloads(g) && forall k :: 0 <= k < |local| - 1 ==> |local[k].paths| == 100
    ensures var remote := RemotePayloads(Batches(g.groups[t], REMOTE_BATCH));
            forall k :: 0 <= k < |remote| - 1 ==> |remote[k].objects| == 5 && |remote[k].paths| == 5
  {
    BatchesFull(g.local, LOCAL_BATCH);
    BatchesFull(g.groups[t], REMOTE_BATCH);
  }

  // ----- The enqueuer -----

  function Enqueued(paths: seq<string>, objects: seq<Object>): Option<seq<Payload>>
  {
    var cleaned, items := Clean(paths), NormaliseAll(objects);
    var remote := ByPath(cleaned, items);
    if remote == None then None
    else
      NormalisedTrimmed(objects);
      ByPathOk(cleaned, items);
      GroupingIs(cleaned, remote.value, |cleaned|);
      Some(Payloads(GroupFirst(cleaned, remote.value, |cleaned|)))
  }

  /** The object's trimmed path is one of the trimmed paths, and its target is complete. */
  ghost predicate Placed(paths: seq<string>, item: Object)
  {
    TrimSpace(item.path) == "" ||
    ((exists j :: 0 <= j < |paths| && TrimSpace(paths[j]) == TrimSpace(item.path)) && TrimSpace(item.backend) == "r2" &&
     Endpoint(item.endpoint) != "" && TrimSpace(item.bucket) != "")
  }

  /** Two objects with one path have one target. */
  predicate Agree(a: Object, b: Object)
  {
    TrimSpace(a.path) == "" || TrimSpace(a.path) != TrimSpace(b.path) ||
    (TrimSpace(a.backend) == TrimSpace(b.backend) && Endpoint(a.endpoint) == Endpoint(b.endpoint) &&
     TrimSpace(a.bucket) == TrimSpace(b.bucket))
  }

  ghost predicate Indexable(cleaned: seq<string>, items: seq<Object>)
  {
    && (forall i :: 0 <= i < |items| ==> items[i].path == "" || (items[i].path in cleaned && ValidTarget(items[i])))
    && forall i, j :: 0 <= i < j < |items| ==>
         items[i].path == "" || items[i].path != items[j].path || items[i] == items[j]
  }

  /** The index has exactly the objects with a path. */
  ghost predicate Indexes(remote: Remote, items: seq<Object>)
  {
    && (forall p :: p in remote ==> p != "" && exists i :: 0 <= i < |items| && items[i].path == p)
    && forall i :: 0 <= i < |items| && items[i].path != "" ==>
         items[i].path in remote && remote[items[i].path] == items[i]
  }

  lemma {:induction false} ByPathIndexes(cleaned: seq<string>, items: seq<Object>)
    ensures ByPath(cleaned, items).Some? ==> Indexes(ByPath(cleaned, items).value, items)
  {
    if items != [] {
      var n := |items| - 1;
      ByPathIndexes(cleaned, items[..n]);
      assert forall i :: 0 <= i < n ==> items[..n][i] == items[i];
      if ByPath(cleaned, items).Some? {
        var before, after := ByPath(cleaned, items[..n]).value, ByPath(cleaned, items).value;
        assert after == if items[n].path == "" then before else before[items[n].path := items[n]];
        hide ByPath;
        forall p | p in after
          ensures p != "" && exists i :: 0 <= i < |items| && items[i].path == p
        {
          if p in before {
            var i :| 0 <= i < n && items[..n][i].path == p;
            assert items[i].path == p;
          } else {
            assert items[n].path == p;
          }
        }
      }
    }
  }

  lemma IndexableNext(cleaned: seq<string>, items: seq<Object>, remote: Remote)
    requires items != [] && Indexable(cleaned, items[..|items| - 1]) && Indexes(remote, items[..|items| - 1])
    ensures var item := items[|items| - 1];
            Indexable(cleaned, items) <==>
              item.path == "" || (item.path in cleaned && ValidTarget(item) &&
                                  (item.path in remote ==> remote[item.path] == item))
  {
    var n := |items| - 1;
    var before, item := items[..n], items[n];
    assert forall i :: 0 <= i < n ==> before[i] == items[i];
    if item.path != "" && item.path in remote {
      var i :| 0 <= i < n && before[i].path == item.path;
      assert remote[before[i].path] == before[i];
    }
  }

  lemma {:induction false} IndexExists(cleaned: seq<string>, items: seq<Object>)
    ensures ByPath(cleaned, items).Some? <==> Indexable(cleaned, items)
  {
    if items != [] {
      var before := items[..|items| - 1];
      IndexExists(cleaned, before);
      if ByPath(cleaned, before).Some? {
        ByPathIndexes(cleaned, before);
        IndexableNext(cleaned, items, ByPath(cleaned, before).value);
        hide Indexes, Indexable;
      } else {
        assert forall i :: 0 <= i < |before| ==> before[i] == items[i];
      }
    }
  }

  /** The enqueuer accepts a request exactly if every object with a path names one of the paths and a complete
      target, and no two objects give one path two targets. */
  lemma EnqueuesExactly(paths: seq<string>, objects: seq<Object>)
    ensures Enqueued(paths, objects).Some? <==>
            (forall i :: 0 <= i < |objects| ==> Placed(paths, objects[i])) &&
            forall i, j :: 0 <= i < j < |objects| ==> Agree(objects[i], objects[j])
  {
    var cleaned, items := Clean(paths), NormaliseAll(objects);
    IndexExists(cleaned, items);
    assert Enqueued(paths, objects).Some? <==> Indexable(cleaned, items);
    hide Enqueued, ByPath, Clean, ValidTarget, Placed, Agree, NormaliseAll;
    forall i | 0 <= i < |objects|
      ensures Placed(paths, objects[i]) <==> items[i].path == "" || (items[i].path in cleaned && ValidTarget(items[i]))
    {
      PlacedIs(paths, objects, i);
    }
    forall i, j | 0 <= i < j < |objects|
      ensures Agree(objects[i], objects[j]) <==>
              items[i].path == "" || items[i].path != items[j].path || items[i] == items[j]
    {
      AgreeIs(objects, i, j);
    }
  }

  lemma PlacedIs(paths: seq<string>, objects: seq<Object>, i: nat)
    requires i < |objects|
    ensures var item := NormaliseAll(objects)[i];
            Placed(paths, objects[i]) <==> item.path == "" || (item.path in Clean(paths) && ValidTarget(item))
  {
    CleanIs(paths);
    hide Clean, TrimSpace, Endpoint;
  }

  lemma AgreeIs(objects: seq<Object>, i: nat, j: nat)
    requires i < |objects| && j < |objects|
    ensures var a, b := NormaliseAll(objects)[i], NormaliseAll(objects)[j];
            Agree(objects[i], objects[j]) <==> a.path == "" || a.path != b.path || a == b
  {
    hide TrimSpace, Endpoint;
  }

  method CleanPaths(paths: seq<string>) returns (cleaned: seq<string>)
    ensures cleaned == Clean(paths)
  {
    var seen: set<string> := {};
    cleaned := [];
    var n := 0;
    while n < |paths|
      invariant 0 <= n <= |paths| && cleaned == Clean(paths[..n])
      invariant forall p :: p in seen <==> p in cleaned
    {
      assert paths[..n + 1][..n] == paths[..n];
      var path := TrimSpace(paths[n]);
      if path != "" && path !in seen {
        seen := seen + {path};
        cleaned := cleaned + [path];
      }
      n := n + 1;
    }
    assert paths[..n] == paths;
  }

  lemma {:induction false} FirstRefused(cleaned: seq<string>, items: seq<Object>, n: nat)
    requires n <= |items| && ByPath(cleaned, items[..n]) == None
    ensures ByPath(cleaned, items) == None
    decreases |items| - n
  {
    if n < |items| {
      assert items[..n + 1][..n] == items[..n];
      FirstRefused(cleaned, items, n + 1);
    } else {
      assert items[..n] == items;
    }
  }

  /** One object more. */
  lemma NextIndexed(cleaned: seq<string>, objects: seq<Object>, n: nat)
    requires n < |objects|
    ensures NormaliseAll(objects)[..n + 1] == NormaliseAll(objects)[..n] + [Normalised(objects[n])]
    ensures var before, item := ByPath(cleaned, NormaliseAll(objects)[..n]), Normalised(objects[n]);
            before.Some? ==>
              ByPath(cleaned, NormaliseAll(objects)[..n + 1]) ==
                if item.path == "" then before
                else if item.path !in cleaned || !ValidTarget(item) ||
                        (item.path in before.value && before.value[item.path] != item) then None
                else Some(before.value[item.path := item])
  {
    hide Normalised;
    assert NormaliseAll(objects)[..n + 1][..n] == NormaliseAll(objects)[..n];
  }

  method IndexObjects(cleaned: seq<string>, objects: seq<Object>) returns (r: Option<Remote>)
    ensures r == ByPath(cleaned, NormaliseAll(objects))
  {
    ghost var items := NormaliseAll(objects);
    var remote: Remote := map[];
    var n := 0;
    while n < |objects|
      invariant 0 <= n <= |objects| && ByPath(cleaned, items[..n]) == Some(remote)
    {
      hide NormaliseAll, ByPath, Normalised;
      NextIndexed(cleaned, objects, n);
      var item := Normalised(objects[n]);
      n := n + 1;
      if item.path != "" {
        if item.path !in cleaned || item.backend != "r2" || item.endpoint == "" || item.bucket == "" ||
           (item.path in remote && remote[item.path] != item) {
          FirstRefused(cleaned, items, n);
          return None;
        }
        remote := remote[item.path := item];
      }
    }
    assert items[..n] == items;
    r := Some(remote);
  }

  lemma NextBatch<T>(s: seq<T>, offset: nat, end: nat, size: nat, before: seq<seq<T>>)
    requires size > 0 && offset < |s| && end == (if offset + size < |s| then offset + size else |s|)
    ensures before + [s[offset..end]] + Batches(s[end..], size) == before + Batches(s[offset..], size)
  {
    var rest := s[offset..];
    if |rest| <= size {
      assert rest == s[offset..end] && s[end..] == [];
      assert Batches(rest, size) == [rest] + Batches([], size);
    } else {
      assert rest[..size] == s[offset..end] && rest[size..] == s[end..];
    }
  }

  method Batch<T>(s: seq<T>, size: nat) returns (batches: seq<seq<T>>)
    requires size > 0
    ensures batches == Batches(s, size)
  {
    batches := [];
    var offset := 0;
    while offset < |s|
      invariant 0 <= offset <= |s| && batches + Batches(s[offset..], size) == Batches(s, size)
    {
      var end := if offset + size < |s| then offset + size else |s|;
      NextBatch(s, offset, end, size, batches);
      batches := batches + [s[offset..end]];
      offset := end;
    }
  }

  method GroupAll(cleaned: seq<string>, remote: Remote) returns (g: Grouping)
    ensures g == GroupFirst(cleaned, remote, |cleaned|)
  {
    g := Grouping([], [], map[]);
    var n := 0;
    while n < |cleaned|
      invariant 0 <= n <= |cleaned| && g == GroupFirst(cleaned, remote, n)
    {
      g := Place(g, cleaned[n], remote);
      n := n + 1;
    }
  }

  method BuildPayloads(g: Grouping) returns (payloads: seq<Payload>)
    requires forall t :: t in g.order ==> t in g.groups
    ensures payloads == Payloads(g)
  {
    var batches := Batch(g.local, 100);
    payloads := LocalPayloads(batches);
    var k := 0;
    while k < |g.order|
      invariant 0 <= k <= |g.order|
      invariant payloads == LocalPayloads(Batches(g.local, LOCAL_BATCH)) + GroupPayloads(g.order[..k], g.groups)
    {
      assert g.order[..k + 1][..k] == g.order[..k];
      var groups := Batch(g.groups[g.order[k]], 5);
      payloads := payloads + RemotePayloads(groups);
      k := k + 1;
    }
    assert g.order[..k] == g.order;
  }

  method Enqueue(paths: seq<string>, objects: seq<Object>) returns (r: Option<seq<Payload>>)
    ensures r == Enqueued(paths, objects)
  {
    var cleaned := CleanPaths(paths);
    var indexed := IndexObjects(cleaned, objects);
    if indexed == None {
      return None;
    }
    NormalisedTrimmed(objects);
    ByPathOk(cleaned, NormaliseAll(objects));
    GroupingIs(cleaned, indexed.value, |cleaned|);
    var g := GroupAll(cleaned, indexed.value);
    var payloads := BuildPayloads(g);
    r := Some(payloads);
  }

  // ----- The deletion worker's validation -----

  predicate PathAccepted(path: string)
  {
    TrimSpace(path) != "" && |TrimSpace(path)| <= MAXIMUM_PATH
  }

  function TrimmedSet(paths: seq<string>): set<string>
  {
    set i | 0 <= i < |paths| :: TrimSpace(paths[i])
  }

  /** The checks on a normalised object. */
  predicate ObjectAccepted(item: Object, pathSet: set<string>)
  {
    item.path != "" && |item.path| <= MAXIMUM_PATH && ValidTarget(item) && item.path in pathSet
  }

  predicate Consistent(items: seq<Object>)
  {
    forall i, j :: 0 <= i < j < |items| && items[i].path == items[j].path ==> items[i] == items[j]
  }

  predicate ObjectsAccepted(items: seq<Object>, pathSet: set<string>)
  {
    (forall i :: 0 <= i < |items| ==> ObjectAccepted(items[i], pathSet)) && Consistent(items)
  }

  predicate Accepts(payload: Payload)
  {
    && 1 <= |payload.paths| <= LOCAL_BATCH && |payload.objects| <= REMOTE_BATCH
    && (forall i :: 0 <= i < |payload.paths| ==> PathAccepted(payload.paths[i]))
    && ObjectsAccepted(NormaliseAll(payload.objects), TrimmedSet(payload.paths))
  }

  /** The worker accepts a payload exactly if it has up to a hundred paths that trimming leaves between one and 500
      characters of, and up to five objects, each on a complete target and under one of these paths, and no path
      with two targets. */
  lemma AcceptsLaw(payload: Payload)
    ensures Accepts(payload) <==>
            1 <= |payload.paths| <= 100 && |payload.objects| <= 5 &&
            (forall i :: 0 <= i < |payload.paths| ==> 1 <= |TrimSpace(payload.paths[i])| <= 500) &&
            (forall i :: 0 <= i < |payload.objects| ==>
               TrimSpace(payload.objects[i].path) != "" && Placed(payload.paths, payload.objects[i])) &&
            forall i, j :: 0 <= i < j < |payload.objects| ==> Agree(payload.objects[i], payload.objects[j])
  {
    var items := NormaliseAll(payload.objects);
    hide TrimSpace, Endpoint;
    assert forall i :: 0 <= i < |items| ==> items[i] == Normalised(payload.objects[i]);
    if forall i :: 0 <= i < |payload.paths| ==> PathAccepted(payload.paths[i]) {
      forall i | 0 <= i < |items|
        ensures ObjectAccepted(items[i], TrimmedSet(payload.paths)) <==>
                TrimSpace(payload.objects[i].path) != "" && Placed(payload.paths, payload.objects[i])
      {
        assert items[i].path in TrimmedSet(payload.paths) <==>
               exists j :: 0 <= j < |payload.paths| && TrimSpace(payload.paths[j]) == items[i].path;
      }
      AgreeTogether(payload.objects, TrimmedSet(payload.paths));
    }
  }

  lemma AgreeTogether(objects: seq<Object>, pathSet: set<string>)
    ensures (forall i :: 0 <= i < |objects| ==> ObjectAccepted(NormaliseAll(objects)[i], pathSet)) ==>
              (Consistent(NormaliseAll(objects)) <==>
               forall i, j :: 0 <= i < j < |objects| ==> Agree(objects[i], objects[j]))
  {
    forall i, j | 0 <= i < j < |objects|
      ensures var a, b := NormaliseAll(objects)[i], NormaliseAll(objects)[j];
              Agree(objects[i], objects[j]) <==> a.path == "" || a.path != b.path || a == b
    {
      AgreeIs(objects, i, j);
    }
    hide Agree, Normalised;
  }

  method ValidatePayload(payload: Payload) returns (ok: bool)
    ensures ok <==> Accepts(payload)
  {
    if |payload.paths| == 0 || |payload.paths| > 100 || |payload.objects| > 5 {
      return false;
    }
    var pathSet;
    ok, pathSet := ValidatePaths(payload.paths);
    if ok {
      ok := ValidateObjects(payload.objects, pathSet);
    }
  }

  method ValidatePaths(paths: seq<string>) returns (ok: bool, pathSet: set<string>)
    ensures ok <==> forall i :: 0 <= i < |paths| ==> PathAccepted(paths[i])
    ensures ok ==> pathSet == TrimmedSet(paths)
  {
    pathSet := {};
    var n := 0;
    while n < |paths|
      invariant 0 <= n <= |paths|
      invariant forall i :: 0 <= i < n ==> PathAccepted(paths[i])
      invariant pathSet == set i | 0 <= i < n :: TrimSpace(paths[i])
    {
      var path := TrimSpace(paths[n]);
      if path == "" || |path| > 500 {
        return false, pathSet;
      }
      pathSet := pathSet + {path};
      n := n + 1;
    }
    ok := true;
  }

  method ValidateObjects(objects: seq<Object>, pathSet: set<string>) returns (ok: bool)
    ensures ok <==> ObjectsAccepted(NormaliseAll(objects), pathSet)
  {
    var items := NormaliseAll(objects);
    ok := ValidateItems(items, pathSet);
  }

  method ValidateItems(items: seq<Object>, pathSet: set<string>) returns (ok: bool)
    ensures ok <==> ObjectsAccepted(items, pathSet)
  {
    var byPath: Remote := map[];
    var n := 0;
    while n < |items|
      invariant 0 <= n <= |items| && Checked(items[..n], pathSet, byPath)
    {
      ghost var before := byPath;
      ok, byPath := ValidateObject(items[n], pathSet, byPath);
      ReadNext(items[..n], items[n], pathSet, before, ok);
      assert items[..n + 1] == items[..n] + [items[n]];
      if !ok {
        PrefixAccepted(items, n + 1, pathSet);
        return;
      }
      n := n + 1;
    }
    ok := true;
    assert items[..n] == items;
  }

  /** What the second loop knows of the objects it has read. */
  ghost predicate Checked(read: seq<Object>, pathSet: set<string>, byPath: Remote)
  {
    && ObjectsAccepted(read, pathSet)
    && (forall i :: 0 <= i < |read| ==> Registers(byPath, read[i]))
    && forall p :: p in byPath ==> byPath[p].path == p && exists i :: 0 <= i < |read| && read[i] == byPath[p]
  }

  lemma ReadNext(read: seq<Object>, item: Object, pathSet: set<string>, before: Remote, ok: bool)
    requires Checked(read, pathSet, before) && (ok <==> Registrable(item, pathSet, before))
    ensures ok ==> Checked(read + [item], pathSet, before[item.path := item])
    ensures !ok ==> !ObjectsAccepted(read + [item], pathSet)
  {
    var after := read + [item];
    assert after[|read|] == item && forall i :: 0 <= i < |read| ==> after[i] == read[i];
    if !ok && ObjectAccepted(item, pathSet) {
      var j :| 0 <= j < |read| && read[j] == before[item.path];
      assert after[j].path == item.path && after[j] != item;
    }
  }

  lemma PrefixAccepted(items: seq<Object>, n: nat, pathSet: set<string>)
    requires n <= |items|
    ensures ObjectsAccepted(items, pathSet) ==> ObjectsAccepted(items[..n], pathSet)
  {
  }

  predicate Registrable(item: Object, pathSet: set<string>, byPath: Remote)
  {
    item.path != "" && |item.path| <= 500 && ValidTarget(item) && item.path in pathSet &&
    (item.path in byPath ==> byPath[item.path] == item)
  }

  /** One object of the second loop. */
  method ValidateObject(item: Object, pathSet: set<string>, before: Remote) returns (ok: bool, byPath: Remote)
    ensures ok <==> Registrable(item, pathSet, before)
    ensures byPath == if ok then before[item.path := item] else before
  {
    ok, byPath := false, before;
    if item.path == "" || |item.path| > 500 || item.backend != "r2" || item.endpoint == "" || item.bucket == "" {
      return;
    }
    if item.path !in pathSet {
      return;
    }
    if item.path in byPath && byPath[item.path] != item {
      return;
    }
    ok, byPath := true, byPath[item.path := item];
  }

  // ----- Producer and consumer -----

  lemma {:induction false} InFlat(payloads: seq<Payload>, p: string)
    ensures p in Flat(payloads) <==> exists k :: 0 <= k < |payloads| && p in payloads[k].paths
  {
    if payloads != [] {
      var n := |payloads| - 1;
      InFlat(payloads[..n], p);
      assert forall k :: 0 <= k < n ==> payloads[..n][k] == payloads[k];
    }
  }

  /** What the worker asks of a cleaned path and of its remote object. */
  predicate Deliverable(remote: Remote, p: string)
  {
    |p| <= MAXIMUM_PATH && (p in remote ==> Endpoint(remote[p].endpoint) != "")
  }

  lemma SameObject(remote: Remote, cleaned: seq<string>, p: string)
    requires RemoteOk(remote, cleaned) && p in remote && Trimmed(p)
    ensures Normalised(remote[p]) == remote[p].(endpoint := Endpoint(remote[p].endpoint))
  {
    TrimSpaceFixes(p);
    TrimSpaceFixes(remote[p].bucket);
    TrimSpaceFixes("r2");
  }

  /** The worker reads a payload of the enqueuer as it was written, but for the endpoints. */
  ghost predicate ReadBack(payload: Payload, remote: Remote)
  {
    && (forall i :: 0 <= i < |payload.paths| ==> TrimSpace(payload.paths[i]) == payload.paths[i] != "")
    && (forall i :: 0 <= i < |payload.objects| ==>
          i < |payload.paths| && payload.paths[i] == payload.objects[i].path && payload.paths[i] in remote &&
          payload.objects[i] == remote[payload.paths[i]] && payload.objects[i].backend == "r2" &&
          payload.objects[i].bucket != "" &&
          Normalised(payload.objects[i]) == payload.objects[i].(endpoint := Endpoint(payload.objects[i].endpoint)))
    && (payload.objects != [] ==> |payload.objects| == |payload.paths|)
  }

  lemma PayloadReadBack(payload: Payload, remote: Remote, cleaned: seq<string>)
    requires PayloadOk(payload, remote) && RemoteOk(remote, cleaned)
    requires forall p :: p in payload.paths ==> p != "" && Trimmed(p)
    ensures ReadBack(payload, remote)
  {
    forall i | 0 <= i < |payload.paths|
      ensures TrimSpace(payload.paths[i]) == payload.paths[i] != ""
    {
      assert payload.paths[i] in payload.paths;
      TrimSpaceFixes(payload.paths[i]);
    }
    forall i | 0 <= i < |payload.objects|
      ensures payload.paths[i] == payload.objects[i].path
      ensures Normalised(payload.objects[i]) == payload.objects[i].(endpoint := Endpoint(payload.objects[i].endpoint))
    {
      assert payload.paths[i] in payload.paths;
      SameObject(remote, cleaned, payload.objects[i].path);
    }
  }

  lemma AcceptedDeliverable(payload: Payload, remote: Remote)
    requires PayloadOk(payload, remote) && ReadBack(payload, remote) && Accepts(payload)
    ensures forall p :: p in payload.paths ==> Deliverable(remote, p)
  {
    forall p | p in payload.paths
      ensures Deliverable(remote, p)
    {
      var i :| 0 <= i < |payload.paths| && payload.paths[i] == p;
      assert PathAccepted(payload.paths[i]);
      assert i < |payload.objects| ==> ObjectAccepted(NormaliseAll(payload.objects)[i], TrimmedSet(payload.paths));
    }
  }

  lemma DeliverableAccepted(payload: Payload, remote: Remote)
    requires PayloadOk(payload, remote) && ReadBack(payload, remote)
    requires forall p :: p in payload.paths ==> Deliverable(remote, p)
    ensures Accepts(payload)
  {
    forall i | 0 <= i < |payload.paths|
      ensures PathAccepted(payload.paths[i]) && Deliverable(remote, payload.paths[i])
    {
      assert payload.paths[i] in payload.paths;
    }
    forall i | 0 <= i < |payload.objects|
      ensures ObjectAccepted(NormaliseAll(payload.objects)[i], TrimmedSet(payload.paths))
    {
      assert Deliverable(remote, payload.paths[i]);
      assert TrimSpace(payload.paths[i]) == Normalised(payload.objects[i]).path;
    }
  }

  /** One payload is accepted exactly when all its paths are deliverable. */
  lemma PayloadAccepted(payload: Payload, remote: Remote, cleaned: seq<string>)
    requires PayloadOk(payload, remote) && RemoteOk(remote, cleaned)
    requires forall p :: p in payload.paths ==> p != "" && Trimmed(p)
    ensures Accepts(payload) <==> forall p :: p in payload.paths ==> Deliverable(remote, p)
  {
    PayloadReadBack(payload, remote, cleaned);
    if Accepts(payload) {
      AcceptedDeliverable(payload, remote);
    }
    if forall p :: p in payload.paths ==> Deliverable(remote, p) {
      DeliverableAccepted(payload, remote);
    }
  }

  /** For everything the enqueuer accepts, the payloads partition the cleaned paths, and the worker
      accepts all of them exactly when no path is longer than 500 and no endpoint normalises to
      nothing the second time. */
  lemma ProducerMeetsConsumer(paths: seq<string>, objects: seq<Object>)
    requires Enqueued(paths, objects).Some?
    ensures var payloads := Enqueued(paths, objects).value;
            var cleaned := Clean(paths);
            var remote := ByPath(cleaned, NormaliseAll(objects)).value;
            Distinct(cleaned) && multiset(Flat(payloads)) == multiset(cleaned) &&
            (forall k :: 0 <= k < |payloads| ==> PayloadOk(payloads[k], remote)) &&
            ((forall k :: 0 <= k < |payloads| ==> Accepts(payloads[k])) <==>
             forall p :: p in cleaned ==> Deliverable(remote, p))
  {
    var payloads, cleaned := Enqueued(paths, objects).value, Clean(paths);
    var remote := ByPath(cleaned, NormaliseAll(objects)).value;
    CleanIs(paths);
    NormalisedTrimmed(objects);
    ByPathOk(cleaned, NormaliseAll(objects));
    Partition(cleaned, remote);
    AcceptedTogether(payloads, remote, cleaned);
  }

  ghost predicate Holds(payloads: seq<Payload>, k: nat, p: string)
  {
    k < |payloads| && p in payloads[k].paths
  }

  lemma SamePathsHeld(payloads: seq<Payload>, cleaned: seq<string>, p: string)
    requires multiset(Flat(payloads)) == multiset(cleaned)
    ensures p in cleaned <==> exists k: nat :: Holds(payloads, k, p)
  {
    InFlat(payloads, p);
    assert p in cleaned <==> p in multiset(cleaned);
    assert p in Flat(payloads) <==> p in multiset(Flat(payloads));
    if k :| 0 <= k < |payloads| && p in payloads[k].paths {
      assert Holds(payloads, k, p);
    }
  }

  lemma AcceptedTogether(payloads: seq<Payload>, remote: Remote, cleaned: seq<string>)
    requires RemoteOk(remote, cleaned) && multiset(Flat(payloads)) == multiset(cleaned)
    requires forall k :: 0 <= k < |payloads| ==> PayloadOk(payloads[k], remote)
    requires forall p :: p in cleaned ==> p != "" && Trimmed(p)
    ensures (forall k :: 0 <= k < |payloads| ==> Accepts(payloads[k])) <==>
            forall p :: p in cleaned ==> Deliverable(remote, p)
  {
    forall k: nat | k < |payloads|
      ensures Accepts(payloads[k]) <==> forall p :: p in payloads[k].paths ==> Deliverable(remote, p)
      ensures forall p :: p in payloads[k].paths ==> p in cleaned
    {
      forall p | p in payloads[k].paths
        ensures p in cleaned
      {
        assert Holds(payloads, k, p);
        SamePathsHeld(payloads, cleaned, p);
      }
      PayloadAccepted(payloads[k], remote, cleaned);
    }
    if forall k :: 0 <= k < |payloads| ==> Accepts(payloads[k]) {
      forall p | p in cleaned
        ensures Deliverable(remote, p)
      {
        SamePathsHeld(payloads, cleaned, p);
        var k: nat :| Holds(payloads, k, p);
        assert Accepts(payloads[k]);
      }
    }
  }

  /** An endpoint that the enqueuer as a function accepts and the worker then rejects; a stored endpoint is a
      URL with a host, which normalising never empties. */
  lemma UnsettledEndpointRejected() returns (objects: seq<Object>)
    ensures objects == [Object("a", "r2", "/ /", "b")]
    ensures Enqueued(["a"], objects).Some?
    ensures !(forall k :: 0 <= k < |Enqueued(["a"], objects).value| ==> Accepts(Enqueued(["a"], objects).value[k]))
  {
    objects := [Object("a", "r2", "/ /", "b")];
    OneUnsettled();
    Undeliverable(["a"], objects, "a");
  }

  lemma Undeliverable(paths: seq<string>, objects: seq<Object>, p: string)
    requires ByPath(Clean(paths), NormaliseAll(objects)).Some? && p in Clean(paths)
    requires !Deliverable(ByPath(Clean(paths), NormaliseAll(objects)).value, p)
    ensures Enqueued(paths, objects).Some?
    ensures !(forall k :: 0 <= k < |Enqueued(paths, objects).value| ==> Accepts(Enqueued(paths, objects).value[k]))
  {
    ProducerMeetsConsumer(paths, objects);
  }

  lemma OneUnsettled()
    ensures Clean(["a"]) == ["a"] && Endpoint("/ ") == ""
    ensures NormaliseAll([Object("a", "r2", "/ /", "b")]) == [Object("a", "r2", "/ ", "b")]
    ensures ByPath(["a"], [Object("a", "r2", "/ ", "b")]) == Some(map["a" := Object("a", "r2", "/ ", "b")])
  {
    Vanishing();
    TrimSpaceFixes("a");
    TrimSpaceFixes("b");
    TrimSpaceFixes("r2");
    hide TrimSpace, Endpoint;
    assert ["a"][..0] == [];
    var items := [Object("a", "r2", "/ ", "b")];
    assert items[..0] == [];
  }
}
