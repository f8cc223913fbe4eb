/** Status of many uploads: a server that answers for all of a batch or for none of it, and the client
    that bisects a refused batch to find out which uploads are missing. */
module Bisection {
  import opened Collections

  const BATCH_SIZE: nat := 100

  /** The sessions of the user by upload id; a status stands for the whole session response. */
  type Sessions = map<string, nat>

  datatype Upload = Upload(id: string, status: nat)

  datatype Response = Uploads(uploads: seq<Upload>) | SessionMissing | BadRequest

  // ----- The server -----

  predicate IdChar(c: char)
  {
    'A' <= c <= 'Z' || 'a' <= c <= 'z' || '0' <= c <= '9' || c == '_' || c == '-'
  }

  /** Thirty-two letters, digits, underscores and hyphens. */
  predicate ValidId(id: string)
  {
    |id| == 32 && forall i :: 0 <= i < |id| ==> IdChar(id[i])
  }

  predicate AllValid(ids: seq<string>)
  {
    forall i :: 0 <= i < |ids| ==> ValidId(ids[i])
  }

  /** Each id once, in order of first appearance. */
  function Deduplicated(ids: seq<string>): seq<string>
  {
    if ids == [] then []
    else
      var before, id := Deduplicated(ids[..|ids| - 1]), ids[|ids| - 1];
      if id in before then before else before + [id]
  }

  lemma {:induction false} DistinctStays(ids: seq<string>)
    requires Distinct(ids)
    ensures Deduplicated(ids) == ids
  {
    if ids != [] {
      DistinctStays(ids[..|ids| - 1]);
      assert ids == ids[..|ids| - 1] + [ids[|ids| - 1]];
      assert ids[|ids| - 1] !in ids[..|ids| - 1];
    }
  }

  /** The ids that exist, with their sessions, and the ids that do not, both in order. */
  function Found(ids: seq<string>, sessions: Sessions): seq<Upload>
  {
    if ids == [] then []
    else Found(ids[..|ids| - 1], sessions) +
         if ids[|ids| - 1] in sessions then [Upload(ids[|ids| - 1], sessions[ids[|ids| - 1]])] else []
  }

  function Missing(ids: seq<string>, sessions: Sessions): seq<string>
  {
    if ids == [] then []
    else Missing(ids[..|ids| - 1], sessions) + if ids[|ids| - 1] in sessions then [] else [ids[|ids| - 1]]
  }

  function Answer(ids: seq<string>, sessions: Sessions): Response
  {
    if |ids| < 1 || |ids| > BATCH_SIZE || !AllValid(ids) then BadRequest
    else if Missing(Deduplicated(ids), sessions) != [] then SessionMissing
    else Uploads(Found(Deduplicated(ids), sessions))
  }

  method NormaliseIds(ids: seq<string>) returns (r: Option<seq<string>>)
    ensures r == if |ids| < 1 || |ids| > BATCH_SIZE || !AllValid(ids) then None
                 else Some(Deduplicated(ids))
  {
    if |ids| < 1 || |ids| > 100 {
      return None;
    }
    var kept: seq<string>, seen: set<string> := [], {};
    var n := 0;
    while n < |ids|
      invariant 0 <= n <= |ids| && kept == Deduplicated(ids[..n])
      invariant forall i :: 0 <= i < n ==> ValidId(ids[i])
      invariant forall id :: id in seen <==> id in kept
    {
      if !ValidId(ids[n]) {
        return None;
      }
      assert ids[..n + 1][..n] == ids[..n];
      if ids[n] !in seen {
        seen := seen + {ids[n]};
        kept := kept + [ids[n]];
      }
      n := n + 1;
    }
    assert ids[..n] == ids;
    r := Some(kept);
  }

  lemma {:induction false} FirstMissing(ids: seq<string>, sessions: Sessions, n: nat)
    requires n < |ids| && ids[n] !in sessions
    ensures Missing(ids, sessions) != []
  {
    if n < |ids| - 1 {
      FirstMissing(ids[..|ids| - 1], sessions, n);
    }
  }

  method BatchStatus(ids: seq<string>, sessions: Sessions) returns (response: Response)
    ensures response == Answer(ids, sessions)
  {
    var normalised := NormaliseIds(ids);
    if normalised == None {
      return BadRequest;
    }
    var uploads: seq<Upload>, wanted := [], normalised.value;
    var n := 0;
    while n < |wanted|
      invariant 0 <= n <= |wanted|
      invariant uploads == Found(wanted[..n], sessions) && Missing(wanted[..n], sessions) == []
    {
      assert wanted[..n + 1][..n] == wanted[..n];
      if wanted[n] !in sessions {
        FirstMissing(wanted, sessions, n);
        return SessionMissing;
      }
      uploads := uploads + [Upload(wanted[n], sessions[wanted[n]])];
      n := n + 1;
    }
    assert wanted[..n] == wanted;
    response := Uploads(uploads);
  }

  // ----- The client -----

  lemma {:induction false} FoundConcat(a: seq<string>, b: seq<string>, sessions: Sessions)
    ensures Found(a + b, sessions) == Found(a, sessions) + Found(b, sessions)
    ensures Missing(a + b, sessions) == Missing(a, sessions) + Missing(b, sessions)
  {
    if b == [] {
      assert a + b == a;
    } else {
      assert (a + b)[..|a + b| - 1] == a + b[..|b| - 1];
      FoundConcat(a, b[..|b| - 1], sessions);
    }
  }

  /** At most one request for every node of the bisection. */
  function Bound(n: nat): nat
  {
    if n == 0 then 0 else 2 * n - 1
  }

  predicate Asks(ids: seq<string>)
  {
    |ids| <= BATCH_SIZE && Distinct(ids) && AllValid(ids)
  }

  lemma Slice(ids: seq<string>, low: nat, high: nat)
    requires low <= high <= |ids| && high - low <= BATCH_SIZE && Distinct(ids) && AllValid(ids)
    ensures Asks(ids[low..high])
  {
  }

  lemma Answered(ids: seq<string>, sessions: Sessions)
    requires Asks(ids) && ids != []
    ensures Answer(ids, sessions) == if Missing(ids, sessions) != [] then SessionMissing
            else Uploads(Found(ids, sessions))
  {
    DistinctStays(ids);
  }

  lemma OneMissing(ids: seq<string>, sessions: Sessions)
    requires |ids| == 1 && Missing(ids, sessions) != []
    ensures Found(ids, sessions) == [] && Missing(ids, sessions) == [ids[0]]
  {
    assert ids[..0] == [];
  }

  lemma Halves(ids: seq<string>, middle: nat, sessions: Sessions)
    requires middle <= |ids|
    ensures Found(ids, sessions) == Found(ids[..middle], sessions) + Found(ids[middle..], sessions)
    ensures Missing(ids, sessions) == Missing(ids[..middle], sessions) + Missing(ids[middle..], sessions)
  {
    assert ids == ids[..middle] + ids[middle..];
    FoundConcat(ids[..middle], ids[middle..], sessions);
  }

  /** What the callbacks were told, in order. */
  class Reports {
    var found: seq<Upload>
    var missing: seq<string>
    var requests: nat

    constructor ()
      ensures found == [] && missing == [] && requests == 0
    {
      found, missing, requests := [], [], 0;
    }

    /** visitStatusChunk, which throws when the server refuses the ids themselves. */
    method VisitChunk(ids: seq<string>, sessions: Sessions) returns (thrown: bool)
      requires |ids| <= BATCH_SIZE && Distinct(ids)
      modifies this
      ensures thrown <==> !AllValid(ids)
      ensures !thrown ==> found == old(found) + Found(ids, sessions) && missing == old(missing) + Missing(ids, sessions)
      ensures requests <= old(requests) + Bound(|ids|)
      ensures |ids| > 0 && (thrown || Missing(ids, sessions) == []) ==> requests == old(requests) + 1
      decreases |ids|, 1
    {
      thrown := false;
      if |ids| == 0 {
        return;
      }
      requests := requests + 1;
      var response := BatchStatus(ids, sessions);
      match response {
        case BadRequest => thrown := true;
        case Uploads(uploads) =>
          Answered(ids, sessions);
          found := found + uploads;
        case SessionMissing =>
          Answered(ids, sessions);
          if |ids| == 1 {
            OneMissing(ids, sessions);
            missing := missing + [ids[0]];
          } else {
            VisitHalves(ids, sessions);
          }
      }
    }

    method VisitHalves(ids: seq<string>, sessions: Sessions)
      requires Asks(ids) && |ids| > 1
      modifies this
      ensures found == old(found) + Found(ids, sessions)
      ensures missing == old(missing) + Missing(ids, sessions)
      ensures requests <= old(requests) + Bound(|ids|) - 1
      decreases |ids|, 0
    {
      var middle := |ids| / 2;
      Halves(ids, middle, sessions);
      Slice(ids, 0, middle);
      Slice(ids, middle, |ids|);
      Associative(found, Found(ids[..middle], sessions), Found(ids[middle..], sessions));
      Associative(missing, Missing(ids[..middle], sessions), Missing(ids[middle..], sessions));
      var first := VisitChunk(ids[..middle], sessions);
      var second := VisitChunk(ids[middle..], sessions);
    }
  }

  lemma {:induction false} FoundIs(ids: seq<string>, sessions: Sessions)
    ensures forall u :: u in Found(ids, sessions) <==> u.id in ids && u.id in sessions && u.status == sessions[u.id]
    ensures forall id :: id in Missing(ids, sessions) <==> id in ids && id !in sessions
  {
    if ids != [] {
      FoundIs(ids[..|ids| - 1], sessions);
      assert ids == ids[..|ids| - 1] + [ids[|ids| - 1]];
    }
  }

  /** The client reports exactly the existing sessions and exactly the missing ids, each once. */
  lemma {:induction false} EachReportedOnce(ids: seq<string>, sessions: Sessions)
    requires Distinct(ids)
    ensures Distinct(Missing(ids, sessions))
    ensures forall i, j :: 0 <= i < j < |Found(ids, sessions)| ==>
              Found(ids, sessions)[i].id != Found(ids, sessions)[j].id
  {
    if ids != [] {
      var before := ids[..|ids| - 1];
      EachReportedOnce(before, sessions);
      FoundIs(before, sessions);
      assert ids[|ids| - 1] !in before;
      forall i | 0 <= i < |Found(before, sessions)|
        ensures Found(before, sessions)[i].id in before
      {
        assert Found(before, sessions)[i] in Found(before, sessions);
      }
      forall i | 0 <= i < |Missing(before, sessions)|
        ensures Missing(before, sessions)[i] in before
      {
        assert Missing(before, sessions)[i] in Missing(before, sessions);
      }
    }
  }

  lemma {:induction false} DeduplicatedIs(ids: seq<string>)
    ensures Distinct(Deduplicated(ids)) && |Deduplicated(ids)| <= |ids|
    ensures forall id :: id in Deduplicated(ids) <==> id in ids
  {
    if ids != [] {
      DeduplicatedIs(ids[..|ids| - 1]);
      assert ids == ids[..|ids| - 1] + [ids[|ids| - 1]];
    }
  }

  lemma Extends(ids: seq<string>, offset: nat, end: nat, sessions: Sessions)
    requires offset <= end <= |ids|
    ensures Found(ids[..end], sessions) == Found(ids[..offset], sessions) + Found(ids[offset..end], sessions)
    ensures Missing(ids[..end], sessions) == Missing(ids[..offset], sessions) + Missing(ids[offset..end], sessions)
  {
    assert ids[..end] == ids[..offset] + ids[offset..end];
    FoundConcat(ids[..offset], ids[offset..end], sessions);
  }

  /** The loop of reconcileV2UploadStatuses over ids without repetition. */
  method VisitAll(unique: seq<string>, sessions: Sessions) returns (reports: Reports, thrown: bool)
    requires Distinct(unique)
    ensures fresh(reports) && (thrown <==> !AllValid(unique))
    ensures !thrown ==> reports.found == Found(unique, sessions) && reports.missing == Missing(unique, sessions)
    ensures reports.requests <= Bound(|unique|)
  {
    reports := new Reports();
    thrown := false;
    var offset := 0;
    while offset < |unique|
      invariant 0 <= offset <= |unique| && fresh(reports) && AllValid(unique[..offset])
      invariant reports.found == Found(unique[..offset], sessions) &&
                reports.missing == Missing(unique[..offset], sessions)
      invariant reports.requests <= Bound(offset)
    {
      var end := if offset + 100 < |unique| then offset + 100 else |unique|;
      var chunk := unique[offset..end];
      Extends(unique, offset, end, sessions);
      ValidParts(unique, offset, end);
      thrown := reports.VisitChunk(chunk, sessions);
      if thrown {
        return;
      }
      offset := end;
    }
    assert unique[..offset] == unique;
  }

  lemma ValidParts(ids: seq<string>, offset: nat, end: nat)
    requires offset <= end <= |ids|
    ensures AllValid(ids[..offset]) && AllValid(ids[offset..end]) ==> AllValid(ids[..end])
    ensures !AllValid(ids[offset..end]) ==> !AllValid(ids)
    ensures Distinct(ids) ==> Distinct(ids[offset..end])
  {
    assert ids[..end] == ids[..offset] + ids[offset..end];
    if i :| 0 <= i < end - offset && !ValidId(ids[offset..end][i]) {
      assert ids[offset..end][i] == ids[offset + i];
    }
  }

  /** reconcileV2UploadStatuses: it throws exactly when some id is malformed, and otherwise reports every
      session that exists and every id that does not. */
  method Reconcile(ids: seq<string>, sessions: Sessions) returns (reports: Reports, thrown: bool)
    ensures fresh(reports)
    ensures var n := |Deduplicated(ids)|; reports.requests <= if n == 0 then 0 else 2 * n - 1
    ensures thrown <==> !AllValid(ids)
    ensures !thrown ==>
              reports.found == Found(Deduplicated(ids), sessions) &&
              reports.missing == Missing(Deduplicated(ids), sessions)
    ensures !thrown ==> forall id :: id in reports.missing <==> id in ids && id !in sessions
    ensures !thrown ==> forall u :: u in reports.found <==>
            u.id in ids && u.id in sessions && u.status == sessions[u.id]
  {
    var unique := Deduplicated(ids);
    DeduplicatedIs(ids);
    DeduplicatedValid(ids);
    reports, thrown := VisitAll(unique, sessions);
    FoundIs(unique, sessions);
  }

  lemma DeduplicatedValid(ids: seq<string>)
    ensures AllValid(Deduplicated(ids)) <==> AllValid(ids)
  {
    DeduplicatedIs(ids);
    EachValid(ids);
    EachValid(Deduplicated(ids));
  }

  lemma EachValid(ids: seq<string>)
    ensures AllValid(ids) <==> forall id :: id in ids ==> ValidId(id)
  {
  }

  /** Every id is reported on exactly one side. */
  lemma Complementary(ids: seq<string>, sessions: Sessions)
    requires Distinct(ids)
    ensures |Found(ids, sessions)| + |Missing(ids, sessions)| == |ids|
    ensures forall u, id :: u in Found(ids, sessions) && id in Missing(ids, sessions) ==> u.id != id
  {
    FoundIs(ids, sessions);
    Counted(ids, sessions);
  }

  lemma {:induction false} Counted(ids: seq<string>, sessions: Sessions)
    ensures |Found(ids, sessions)| + |Missing(ids, sessions)| == |ids|
  {
    if ids != [] {
      Counted(ids[..|ids| - 1], sessions);
    }
  }
}
