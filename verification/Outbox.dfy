/** The outbox worker: leased claims of events, one delivery after the other, and what becomes of
    every claimed event however a batch ends.  The context, the deliveries and the store answer as an
    oracle says; how a batch ends follows from their answers. */
module Outbox {
  import opened Collections

  type Time = nat

  const UNCONFIGURED_DELAY: nat := 300
  const MAXIMUM_DELAY: nat := 600
  const DEFAULT_MAX_ATTEMPTS: nat := 10

  datatype Kind = StorageDelete | Purge | Other

  datatype Status = Pending | Publishing | Published | Dead

  datatype Event = Event(
    kind: Kind,
    attempts: nat,
    maxAttempts: nat,
    status: Status,
    availableAt: Time,
    owner: Option<nat>,
    token: Option<nat>,
    lease: Time)

  type Events = map<nat, Event>

  // ----- The store -----

  predicate Fenced(rows: Events, id: nat, token: nat)
  {
    id in rows && rows[id].status == Publishing && rows[id].token == Some(token)
  }

  function Freed(row: Event, status: Status): Event
  {
    row.(status := status, owner := None, token := None, lease := 0)
  }

  function Less(attempts: nat): nat
  {
    if attempts == 0 then 0 else attempts - 1
  }

  function Reclaimed(rows: Events, now: Time): Events
  {
    map id | id in rows ::
      if rows[id].status == Publishing && rows[id].lease <= now then Freed(rows[id], Pending).(availableAt := now)
      else rows[id]
  }

  predicate Claimable(rows: Events, id: nat, now: Time)
  {
    id in rows && rows[id].status == Pending && rows[id].availableAt <= now
  }

  function Leased(row: Event, owner: nat, token: nat, until: Time): Event
  {
    row.(status := Publishing, attempts := row.attempts + 1, owner := Some(owner), token := Some(token), lease := until)
  }

  /** The claim of the picked events under one fresh token. */
  function ClaimAll(rows: Events, picked: set<nat>, owner: nat, token: nat, until: Time): Events
  {
    map id | id in rows :: if id in picked then Leased(rows[id], owner, token, until) else rows[id]
  }

  function Limit(event: Event): nat
  {
    if event.maxAttempts == 0 then DEFAULT_MAX_ATTEMPTS else event.maxAttempts
  }

  function PublishedRow(row: Event): Event
  {
    Freed(row, Published)
  }

  function DeferredRow(row: Event, now: Time): Event
  {
    Freed(row, Pending).(attempts := Less(row.attempts), availableAt := now + UNCONFIGURED_DELAY)
  }

  /** `claimed` is the event as the worker holds it since its claim. */
  function FailedRow(row: Event, claimed: Event, now: Time, delay: nat): Event
  {
    Freed(row, if claimed.attempts >= Limit(claimed) then Dead else Pending).(availableAt := now + delay)
  }

  function ReleasedRow(row: Event, now: Time, refund: bool): Event
  {
    Freed(row, Pending).(attempts := if refund then Less(row.attempts) else row.attempts, availableAt := now)
  }

  /** How a call of the store comes back: it takes effect, it returns an error, or it panics; the last two
      change no row. */
  datatype Call = Works | Fails | Crashes

  class OutboxStore {
    var rows: Events
    var nextToken: nat

    /** Claim of some of the eligible events; others are locked or beyond the limit. */
    method Claim(picked: set<nat>, owner: nat, now: Time, lease: nat) returns (token: nat)
      requires forall id :: id in picked ==> Claimable(Reclaimed(rows, now), id, now)
      modifies this
      ensures token == old(nextToken) && nextToken == token + 1
      ensures rows == ClaimAll(Reclaimed(old(rows), now), picked, owner, token, now + lease)
    {
      rows := Reclaimed(rows, now);
      token := nextToken;
      nextToken := nextToken + 1;
      rows := ClaimAll(rows, picked, owner, token, now + lease);
    }

    /** What the three Mark methods answer: a row that lost its lease is an error too. */
    ghost function Answer(call: Call, id: nat, token: nat): Call
      reads this
    {
      if call == Works && !Fenced(rows, id, token) then Fails else call
    }

    method MarkPublished(id: nat, token: nat, call: Call) returns (r: Call)
      modifies this`rows
      ensures r == old(Answer(call, id, token))
      ensures rows == if r == Works then old(rows)[id := PublishedRow(old(rows)[id])] else old(rows)
    {
      r := call;
      if r == Works {
        if Fenced(rows, id, token) {
          rows := rows[id := rows[id].(status := Published, owner := None, token := None, lease := 0)];
        } else {
          r := Fails;
        }
      }
    }

    method DeferUnconfigured(id: nat, token: nat, now: Time, call: Call) returns (r: Call)
      modifies this`rows
      ensures r == old(Answer(call, id, token))
      ensures rows == if r == Works then old(rows)[id := DeferredRow(old(rows)[id], now)] else old(rows)
    {
      r := call;
      if r == Works {
        if Fenced(rows, id, token) {
          var attempts := if rows[id].attempts > 0 then rows[id].attempts - 1 else 0;
          rows := rows[id := rows[id].(status := Pending, attempts := attempts, availableAt := now + 300,
                                       owner := None, token := None, lease := 0)];
        } else {
          r := Fails;
        }
      }
    }

    method MarkFailed(id: nat, claimed: Event, token: nat, now: Time, delay: nat, call: Call) returns (r: Call)
      modifies this`rows
      ensures r == old(Answer(call, id, token))
      ensures rows == if r == Works then old(rows)[id := FailedRow(old(rows)[id], claimed, now, delay)] else old(rows)
    {
      r := call;
      if r == Works {
        if Fenced(rows, id, token) {
          var maxAttempts := if claimed.maxAttempts == 0 then 10 else claimed.maxAttempts;
          var status := if claimed.attempts >= maxAttempts then Dead else Pending;
          rows := rows[id := rows[id].(status := status, availableAt := now + delay, owner := None, token := None,
                                       lease := 0)];
        } else {
          r := Fails;
        }
      }
    }

    /** Of the listed events those that are still publishing under the token and the owner become pending
        at once, with or without their attempt; every other row stays, listed or not. */
    method ReleaseClaims(ids: seq<nat>, owner: nat, token: nat, now: Time, refund: bool, call: Call)
      modifies this`rows
      ensures rows.Keys == old(rows).Keys
      ensures forall e :: e in old(rows) && Releases(old(rows), ids, e, owner, token, call) ==>
                rows[e].status == Pending && rows[e].token == None && rows[e].owner == None &&
                rows[e].availableAt == now &&
                rows[e].attempts == (if refund then Less(old(rows)[e].attempts) else old(rows)[e].attempts) &&
                rows[e] == ReleasedRow(old(rows)[e], now, refund)
      ensures forall e :: e in old(rows) && !Releases(old(rows), ids, e, owner, token, call) ==> rows[e] == old(rows)[e]
    {
      if call != Works {
        return;
      }
      var i := 0;
      while i < |ids|
        invariant 0 <= i <= |ids| && rows.Keys == old(rows).Keys
        invariant forall e :: e in old(rows) ==>
                    rows[e] == if Releases(old(rows), ids[..i], e, owner, token, call)
                    then ReleasedRow(old(rows)[e], now, refund)
                               else old(rows)[e]
      {
        assert ids[..i + 1] == ids[..i] + [ids[i]];
        if Fenced(rows, ids[i], token) && rows[ids[i]].owner == Some(owner) {
          var attempts := rows[ids[i]].attempts;
          if refund && attempts > 0 {
            attempts := attempts - 1;
          }
          rows := rows[ids[i] := rows[ids[i]].(status := Pending, attempts := attempts, availableAt := now,
                                               owner := None, token := None, lease := 0)];
        }
        i := i + 1;
      }
      assert ids[..i] == ids;
    }
  }

  predicate Releases(rows: Events, ids: seq<nat>, e: nat, owner: nat, token: nat, call: Call)
  {
    call == Works && e in ids && Fenced(rows, e, token) && rows[e].owner == Some(owner)
  }

  // ----- Deliveries -----

  /** What one delivery does: it returns without error, reports a missing configuration, the end of its
      context or deadline, or another error (of an invalid payload or not, perhaps with a retry delay),
      or it panics. */
  datatype Delivery = Delivered | Unconfigured | Aborted | Broken(invalid: bool, retryAfter: nat) | Panics

  function Power(n: nat): nat
  {
    if n == 0 then 1 else 2 * Power(n - 1)
  }

  function RetryDelay(attempt: nat): nat
  {
    Min(Power(Min(attempt, 8)), MAXIMUM_DELAY)
  }

  function FailureDelay(attempt: nat, retryAfter: nat): nat
  {
    if retryAfter > RetryDelay(attempt) then Min(retryAfter, MAXIMUM_DELAY) else RetryDelay(attempt)
  }

  /** A storage deletion with a valid payload waits however it failed. */
  predicate Waits(kind: Kind, delivery: Delivery)
  {
    delivery == Unconfigured || (kind == StorageDelete &&
                                 (delivery == Aborted || (delivery.Broken? && !delivery.invalid)))
  }

  function RetryAfter(delivery: Delivery): nat
  {
    if delivery.Broken? then delivery.retryAfter else 0
  }

  /** The row after a delivery that its claim could record. */
  function Settled(row: Event, delivery: Delivery, now: Time): Event
  {
    if delivery == Delivered then PublishedRow(row)
    else if Waits(row.kind, delivery) then DeferredRow(row, now)
    else FailedRow(row, row, now, FailureDelay(row.attempts, RetryAfter(delivery)))
  }

  // ----- A batch -----

  /** The answers during one iteration: whether the context ends before its check, during the delivery or
      while the delivery is recorded, what the delivery does, how recording it comes back, and the time. */
  datatype Turn = Turn(endsBefore: bool, delivery: Delivery, endsDuring: bool, record: Call, endsRecording: bool,
                       at: Time)

  /** The answers to the deferred function: whether the context ended meanwhile, and how each of its store
      calls comes back. */
  datatype Cleanup = Cleanup(ends: bool, mark: Call, releaseActive: Call, release: Call, at: Time)

  /** How the loop is left: after its last event, at a check of the context, by an error of the store, or by
      a panic; the first and the third with the context alive or not. */
  datatype How = Finished(ended: bool) | Stopped | Failed(ended: bool) | Panicked

  /** The iteration leaves the loop, or records its event and goes on. */
  function TurnLeaves(turn: Turn): Option<How>
  {
    if turn.endsBefore then Some(Stopped)
    else if turn.delivery == Panics then Some(Panicked)
    else if turn.delivery == Aborted && turn.endsDuring then Some(Stopped)
    else
      match turn.record
      case Works => None
      case Fails => Some(Failed(turn.endsDuring || turn.endsRecording))
      case Crashes => Some(Panicked)
  }

  datatype Leave = Leave(at: nat, how: How)

  /** Where and how the loop is left from its i-th event on. */
  function LeaveFrom(turns: seq<Turn>, i: nat, ended: bool): (r: Leave)
    requires i <= |turns|
    ensures i <= r.at <= |turns| && (r.at == |turns| <==> r.how.Finished?)
    decreases |turns| - i
  {
    if i == |turns| then Leave(i, Finished(ended))
    else if ended then Leave(i, Stopped)
    else
      var left := TurnLeaves(turns[i]);
      if left.Some? then Leave(i, left.value)
      else LeaveFrom(turns, i + 1, turns[i].endsDuring || turns[i].endsRecording)
  }

  /** The batch holds all its events under one token. */
  predicate HeldBy(rows: Events, ids: seq<nat>, owner: nat, token: nat)
  {
    forall i :: 0 <= i < |ids| ==> Fenced(rows, ids[i], token) && rows[ids[i]].owner == Some(owner)
  }

  /** The event that was active when the batch panicked. */
  function ActiveRow(row: Event, cleanup: Cleanup): Event
  {
    if cleanup.mark == Works then FailedRow(row, row, cleanup.at, RetryDelay(row.attempts))
    else if cleanup.releaseActive == Works then ReleasedRow(row, cleanup.at, false)
    else row
  }

  /** What becomes of the j-th event, which is `row` after the claim. */
  function Outcome(row: Event, j: nat, turns: seq<Turn>, cleanup: Cleanup): Event
    requires j < |turns|
  {
    var leave := LeaveFrom(turns, 0, false);
    if j < leave.at then Settled(row, turns[j].delivery, turns[j].at)
    else
      match leave.how
      case Finished(_) => row
      case Stopped => if cleanup.release == Works then ReleasedRow(row, cleanup.at, true) else row
      case Failed(ended) =>
        if (ended || cleanup.ends) && cleanup.release == Works then ReleasedRow(row, cleanup.at, true) else row
      case Panicked =>
        if j == leave.at then ActiveRow(row, cleanup)
        else if cleanup.release == Works then ReleasedRow(row, cleanup.at, true) else row
  }

  /** Every event of the batch is as its outcome says, every other one as it was. */
  ghost predicate BatchDone(was: Events, rows: Events, ids: seq<nat>, turns: seq<Turn>, cleanup: Cleanup)
    requires |ids| == |turns| && forall j :: 0 <= j < |ids| ==> ids[j] in was
  {
    && rows.Keys == was.Keys
    && (forall j :: 0 <= j < |ids| ==> rows[ids[j]] == Outcome(was[ids[j]], j, turns, cleanup))
    && forall e :: e in was && e !in ids ==> rows[e] == was[e]
  }

  /** The rows while the loop is at its i-th event: earlier ones are settled. */
  ghost predicate InLoop(was: Events, rows: Events, ids: seq<nat>, turns: seq<Turn>, i: nat)
    requires i <= |ids| == |turns| && forall j :: 0 <= j < |ids| ==> ids[j] in was
  {
    && rows.Keys == was.Keys
    && (forall j :: 0 <= j < i ==> rows[ids[j]] == Settled(was[ids[j]], turns[j].delivery, turns[j].at))
    && (forall j :: i <= j < |ids| ==> rows[ids[j]] == was[ids[j]])
    && forall e :: e in was && e !in ids ==> rows[e] == was[e]
  }

  class OutboxWorker {
    const store: OutboxStore
    const id: nat

    constructor (store: OutboxStore, id: nat)
      ensures this.store == store && this.id == id
    {
      this.store, this.id := store, id;
    }

    /** Record one delivery; the claimed row is as it was claimed. */
    method Record(event: nat, claimed: Event, token: nat, delivery: Delivery, now: Time, call: Call) returns (r: Call)
      requires delivery != Panics && (event in store.rows ==> Fenced(store.rows, event, token) ==>
                                      store.rows[event] == claimed)
      modifies store`rows
      ensures r == old(store.Answer(call, event, token))
      ensures store.rows == if r == Works then old(store.rows)[event := Settled(claimed, delivery, now)]
              else old(store.rows)
    {
      if delivery == Delivered {
        r := store.MarkPublished(event, token, call);
      } else if delivery == Unconfigured {
        r := store.DeferUnconfigured(event, token, now, call);
      } else if claimed.kind == StorageDelete && !(delivery.Broken? && delivery.invalid) {
        r := store.DeferUnconfigured(event, token, now, call);
      } else {
        var delay := RetryDelay(claimed.attempts);
        if delivery.Broken? && delivery.retryAfter > delay {
          delay := if delivery.retryAfter < 600 then delivery.retryAfter else 600;
        }
        r := store.MarkFailed(event, claimed, token, now, delay, call);
      }
    }

    /** The loop over a claimed batch; `active` is the event whose delivery is under way when it is left. */
    method Deliveries(ids: seq<nat>, token: nat, turns: seq<Turn>)
        returns (i: nat, ended: bool, active: Option<nat>, how: How)
      requires |ids| == |turns| && Distinct(ids) && HeldBy(store.rows, ids, id, token)
      modifies store`rows
      ensures i <= |ids| && LeaveFrom(turns, 0, false) == Leave(i, how) &&
              InLoop(old(store.rows), store.rows, ids, turns, i)
      ensures how == Panicked ==> active == Some(i)
      ensures (how.Finished? || how.Failed? ==> how.ended == ended) && (how == Stopped ==> ended)
    {
      i, ended, active := 0, false, None;
      while i < |ids|
        invariant 0 <= i <= |ids| && InLoop(old(store.rows), store.rows, ids, turns, i)
        invariant LeaveFrom(turns, 0, false) == LeaveFrom(turns, i, ended)
      {
        var turn := turns[i];
        ended := ended || turn.endsBefore;
        if ended {
          how := Stopped;
          return;
        }
        active := Some(i);
        if turn.delivery == Panics {
          how := Panicked;
          return;
        }
        ended := turn.endsDuring;
        if turn.delivery == Aborted && ended {
          how := Stopped;
          return;
        }
        StillHeld(old(store.rows), store.rows, ids, turns, i, id, token);
        ghost var rows := store.rows;
        var r := Record(ids[i], store.rows[ids[i]], token, turn.delivery, turn.at, turn.record);
        ended := ended || turn.endsRecording;
        if r == Crashes {
          how := Panicked;
          return;
        }
        if r == Fails {
          how := Failed(ended);
          return;
        }
        RecordedNext(old(store.rows), rows, store.rows, ids, turns, i);
        active := None;
        i := i + 1;
      }
      how := Finished(ended);
    }

    /** The loop and its deferred function. */
    method ProcessBatch(ids: seq<nat>, token: nat, turns: seq<Turn>, cleanup: Cleanup)
      requires |ids| == |turns| && Distinct(ids) && HeldBy(store.rows, ids, id, token)
      modifies store`rows
      ensures BatchDone(old(store.rows), store.rows, ids, turns, cleanup)
    {
      var i, ended, active, how := Deliveries(ids, token, turns);
      ghost var mid := store.rows;
      StillHeld(old(store.rows), mid, ids, turns, i, id, token);
      if how == Panicked {
        CleanUp(ids, active.value, token, cleanup);
        PanickedDone(old(store.rows), mid, store.rows, ids, turns, cleanup);
      } else {
        if ended || cleanup.ends {
          store.ReleaseClaims(ids, id, token, cleanup.at, true, cleanup.release);
        }
        ReleasedDone(old(store.rows), mid, store.rows, ids, turns, cleanup);
      }
    }

    /** cleanupOutboxPanic with ids[i] as the active event; a step that fails or panics itself does not
        keep the others from their turn. */
    method CleanUp(ids: seq<nat>, i: nat, token: nat, cleanup: Cleanup)
      requires i < |ids| && Distinct(ids) && (forall j :: 0 <= j < |ids| ==> ids[j] in store.rows)
      requires Fenced(store.rows, ids[i], token) && store.rows[ids[i]].owner == Some(id)
      modifies store`rows
      ensures store.rows.Keys == old(store.rows).Keys
      ensures store.rows[ids[i]] == ActiveRow(old(store.rows)[ids[i]], cleanup)
      ensures forall e :: e in old(store.rows) && e != ids[i] ==>
                store.rows[e] == if Releases(old(store.rows), ids, e, id, token, cleanup.release)
                                 then ReleasedRow(old(store.rows)[e], cleanup.at, true) else old(store.rows)[e]
    {
      var delay := RetryDelay(store.rows[ids[i]].attempts);
      var r := store.MarkFailed(ids[i], store.rows[ids[i]], token, cleanup.at, delay, cleanup.mark);
      store.ReleaseClaims([ids[i]], id, token, cleanup.at, false, cleanup.releaseActive);
      assert store.rows[ids[i]] == ActiveRow(old(store.rows)[ids[i]], cleanup);
      var untouched := ids[..i] + ids[i + 1..];
      Untouched(ids, i);
      store.ReleaseClaims(untouched, id, token, cleanup.at, true, cleanup.release);
    }

    /** Claim a batch and work it off; a claim that fails rolls back. */
    method RunBatch(ids: seq<nat>, now: Time, lease: nat, claim: Call, turns: seq<Turn>, cleanup: Cleanup)
      requires |ids| == |turns| && Distinct(ids)
      requires forall j :: 0 <= j < |ids| ==> Claimable(Reclaimed(store.rows, now), ids[j], now)
      modifies store
      ensures claim != Works ==> store.rows == old(store.rows)
      ensures claim == Works ==>
                BatchRun(Reclaimed(old(store.rows), now), store.rows, ids, id, old(store.nextToken), now + lease, turns,
                         cleanup)
    {
      if claim != Works {
        return;
      }
      ghost var before := Reclaimed(store.rows, now);
      var token := store.Claim(set j | 0 <= j < |ids| :: ids[j], id, now, lease);
      ClaimGives(before, ids, id, token, now + lease, now);
      ProcessBatch(ids, token, turns, cleanup);
    }
  }

  lemma Untouched(ids: seq<nat>, i: nat)
    requires i < |ids| && Distinct(ids)
    ensures forall e :: e in ids[..i] + ids[i + 1..] <==> e in ids && e != ids[i]
  {
    var rest := ids[..i] + ids[i + 1..];
    forall e | e in ids && e != ids[i]
      ensures e in rest
    {
      var j :| 0 <= j < |ids| && ids[j] == e;
      assert if j < i then rest[j] == e else rest[j - 1] == e;
    }
  }

  lemma RecordedNext(was: Events, rows: Events, rows': Events, ids: seq<nat>, turns: seq<Turn>, i: nat)
    requires i < |ids| == |turns| && Distinct(ids) && (forall j :: 0 <= j < |ids| ==> ids[j] in was)
    requires InLoop(was, rows, ids, turns, i)
    requires rows' == rows[ids[i] := Settled(was[ids[i]], turns[i].delivery, turns[i].at)]
    ensures InLoop(was, rows', ids, turns, i + 1)
  {
  }

  /** The deferred function outside a panic. */
  lemma ReleasedDone(was: Events, mid: Events, rows: Events, ids: seq<nat>, turns: seq<Turn>, cleanup: Cleanup)
    requires |ids| == |turns| && Distinct(ids) && (forall j :: 0 <= j < |ids| ==> ids[j] in was)
    requires var leave := LeaveFrom(turns, 0, false);
             InLoop(was, mid, ids, turns, leave.at) && leave.how != Panicked && rows.Keys == mid.Keys &&
             (forall e :: e in mid && e !in ids[leave.at..] ==> rows[e] == mid[e]) &&
             forall j :: leave.at <= j < |ids| ==>
               rows[ids[j]] == if leave.how == Stopped || (leave.how.Failed? && (leave.how.ended || cleanup.ends))
                               then if cleanup.release == Works then ReleasedRow(mid[ids[j]], cleanup.at, true)
                                    else mid[ids[j]]
                               else mid[ids[j]]
    ensures BatchDone(was, rows, ids, turns, cleanup)
  {
    var at := LeaveFrom(turns, 0, false).at;
    forall j | 0 <= j < at
      ensures ids[j] !in ids[at..]
    {
    }
  }

  lemma PanickedDone(was: Events, mid: Events, rows: Events, ids: seq<nat>, turns: seq<Turn>, cleanup: Cleanup)
    requires |ids| == |turns| && Distinct(ids) && (forall j :: 0 <= j < |ids| ==> ids[j] in was)
    requires var leave := LeaveFrom(turns, 0, false);
             InLoop(was, mid, ids, turns, leave.at) && leave.how == Panicked && rows.Keys == mid.Keys &&
             rows[ids[leave.at]] == ActiveRow(mid[ids[leave.at]], cleanup) &&
             (forall e :: e in mid && e !in ids[leave.at..] ==> rows[e] == mid[e]) &&
             forall j :: leave.at < j < |ids| ==>
               rows[ids[j]] == if cleanup.release == Works then ReleasedRow(mid[ids[j]], cleanup.at, true)
               else mid[ids[j]]
    ensures BatchDone(was, rows, ids, turns, cleanup)
  {
    var at := LeaveFrom(turns, 0, false).at;
    forall j | 0 <= j < at
      ensures ids[j] !in ids[at..]
    {
    }
  }

  /** Inside the loop exactly the events from the current one on are held. */
  lemma StillHeld(was: Events, rows: Events, ids: seq<nat>, turns: seq<Turn>, i: nat, owner: nat, token: nat)
    requires i <= |ids| == |turns| && HeldBy(was, ids, owner, token) && InLoop(was, rows, ids, turns, i)
    ensures forall j :: 0 <= j < i ==> !Fenced(rows, ids[j], token)
    ensures forall j :: i <= j < |ids| ==> Fenced(rows, ids[j], token) && rows[ids[j]].owner == Some(owner)
  {
  }

  // ----- What a batch leaves behind -----

  /** `before` are the rows at the claim of the batch. */
  ghost predicate BatchRun(before: Events, rows: Events, ids: seq<nat>, owner: nat, token: nat, until: Time,
                           turns: seq<Turn>, cleanup: Cleanup)
    requires |ids| == |turns|
  {
    && (forall j :: 0 <= j < |ids| ==> ids[j] in before)
    && rows.Keys == before.Keys
    && (forall j :: 0 <= j < |ids| ==>
          rows[ids[j]] == Outcome(Leased(before[ids[j]], owner, token, until), j, turns, cleanup))
    && forall e :: e in before && e !in ids ==> rows[e] == before[e]
  }

  lemma ClaimGives(rows: Events, ids: seq<nat>, owner: nat, token: nat, until: Time, now: Time)
    requires Distinct(ids) && forall j :: 0 <= j < |ids| ==> Claimable(rows, ids[j], now)
    ensures var was := ClaimAll(rows, set j | 0 <= j < |ids| :: ids[j], owner, token, until);
            was.Keys == rows.Keys && HeldBy(was, ids, owner, token) &&
            (forall j :: 0 <= j < |ids| ==> was[ids[j]] == Leased(rows[ids[j]], owner, token, until)) &&
            forall e :: e in rows && e !in ids ==> was[e] == rows[e]
  {
  }

  /** The context ended during the iteration before the k-th. */
  predicate EndedBefore(turns: seq<Turn>, k: nat)
    requires k <= |turns|
  {
    k > 0 && (turns[k - 1].endsDuring || turns[k - 1].endsRecording)
  }

  /** The j-th event is recorded and the loop goes on. */
  ghost predicate GoesOn(turns: seq<Turn>, j: nat)
  {
    j < |turns| && !EndedBefore(turns, j) && TurnLeaves(turns[j]) == None
  }

  /** The first k events are recorded while the context lives, and the loop is left there, how it says. */
  ghost predicate LeftAt(turns: seq<Turn>, k: nat, how: How)
  {
    && k <= |turns|
    && (forall j :: 0 <= j < k ==> GoesOn(turns, j))
    && if k == |turns| then how == Finished(EndedBefore(turns, k))
       else if EndedBefore(turns, k) then how == Stopped
       else TurnLeaves(turns[k]) == Some(how)
  }

  lemma {:induction false} LeaveIs(turns: seq<Turn>, i: nat)
    requires i <= |turns| && forall j :: 0 <= j < i ==> GoesOn(turns, j)
    ensures var leave := LeaveFrom(turns, i, EndedBefore(turns, i)); LeftAt(turns, leave.at, leave.how)
    decreases |turns| - i
  {
    if GoesOn(turns, i) {
      LeaveIs(turns, i + 1);
    }
  }

  /** The loop is left at one place in one way. */
  lemma LeavesOnce(turns: seq<Turn>, k: nat, how: How)
    ensures LeaveFrom(turns, 0, false) == Leave(k, how) <==> LeftAt(turns, k, how)
  {
    LeaveIs(turns, 0);
    var leave := LeaveFrom(turns, 0, false);
    if LeftAt(turns, k, how) {
      assert leave.at < k ==> GoesOn(turns, leave.at);
      assert k < leave.at ==> GoesOn(turns, k);
    }
  }

  /** What leaving the loop does not give back: the release that should follow fails, or the store failed
      while the context was alive, so that none follows; the active event of a panic is also given up by
      being marked as failed. */
  predicate Unreleased(how: How, active: bool, cleanup: Cleanup)
  {
    match how
    case Finished(_) => false
    case Stopped => cleanup.release != Works
    case Failed(ended) => !(ended || cleanup.ends) || cleanup.release != Works
    case Panicked => if active then cleanup.mark != Works && cleanup.releaseActive != Works
      else cleanup.release != Works
  }

  /** An event stays publishing under the claim, until its lease expires, exactly when the loop was left at
      it or before it and that was not released. */
  lemma LeftPublishing(before: Events, rows: Events, ids: seq<nat>, owner: nat, token: nat, until: Time,
                       turns: seq<Turn>, cleanup: Cleanup, j: nat)
    requires j < |ids| == |turns|
    requires BatchRun(before, rows, ids, owner, token, until, turns, cleanup)
    ensures Fenced(rows, ids[j], token) <==>
            exists k: nat, how {:trigger LeftAt(turns, k, how)} :: k <= j && LeftAt(turns, k, how) &&
              Unreleased(how, j == k, cleanup)
  {
    var leave := LeaveFrom(turns, 0, false);
    LeavesOnce(turns, leave.at, leave.how);
    forall k: nat, how | LeftAt(turns, k, how)
      ensures leave == Leave(k, how)
    {
      LeavesOnce(turns, k, how);
    }
  }

  /** With a store that works, no batch leaves an event publishing, whatever the deliveries do and wherever
      the context ends. */
  lemma WorkingStoreLeavesNone(before: Events, rows: Events, ids: seq<nat>, owner: nat, token: nat, until: Time,
                               turns: seq<Turn>, cleanup: Cleanup, j: nat)
    requires j < |ids| == |turns|
    requires BatchRun(before, rows, ids, owner, token, until, turns, cleanup)
    requires forall n :: 0 <= n < |turns| && turns[n].record == Fails ==>
               turns[n].endsDuring || turns[n].endsRecording || cleanup.ends
    requires cleanup.mark == Works && cleanup.release == Works
    ensures !Fenced(rows, ids[j], token)
  {
    LeftPublishing(before, rows, ids, owner, token, until, turns, cleanup, j);
  }

  /** An event that the batch did not record is pending again at once with the attempts from before the claim
      if the batch was cancelled or panicked elsewhere and the release worked; the event that panicked keeps
      its increment and dies of its last attempt if that could be recorded. */
  lemma Interrupted(before: Events, rows: Events, ids: seq<nat>, owner: nat, token: nat, until: Time, turns: seq<Turn>,
                    cleanup: Cleanup, k: nat, how: How, j: nat)
    requires j < |ids| == |turns|
    requires BatchRun(before, rows, ids, owner, token, until, turns, cleanup)
    requires LeftAt(turns, k, how) && k <= j && !Unreleased(how, j == k, cleanup)
    ensures var row, prior := rows[ids[j]], before[ids[j]];
            row.token == None && row.owner == None &&
            if how == Panicked && j == k then
              row.attempts == prior.attempts + 1 &&
              row.status == if cleanup.mark == Works && prior.attempts + 1 >= Limit(prior) then Dead else Pending
            else row.status == Pending && row.attempts == prior.attempts && row.availableAt == cleanup.at
  {
    LeavesOnce(turns, k, how);
  }

  /** A worker marks an event published exactly after a delivery without error that it could record; waiting
      costs no attempt; an event dies only at its limit, and a storage deletion only of an invalid payload or
      of a panic. */
  lemma Verdicts(before: Events, rows: Events, ids: seq<nat>, owner: nat, token: nat, until: Time, turns: seq<Turn>,
                 cleanup: Cleanup, k: nat, how: How, j: nat)
    requires j < |ids| == |turns|
    requires BatchRun(before, rows, ids, owner, token, until, turns, cleanup) && LeftAt(turns, k, how)
    ensures rows[ids[j]].status == Published <==> j < k && turns[j].delivery == Delivered
    ensures j < k && Waits(before[ids[j]].kind, turns[j].delivery) ==> rows[ids[j]].attempts == before[ids[j]].attempts
    ensures rows[ids[j]].status == Dead ==> before[ids[j]].attempts + 1 >= Limit(before[ids[j]])
    ensures before[ids[j]].kind == StorageDelete && rows[ids[j]].status == Dead ==>
              if j < k then turns[j].delivery.Broken? && turns[j].delivery.invalid else j == k && how == Panicked
  {
    LeavesOnce(turns, k, how);
    assert j < k ==> GoesOn(turns, j);
  }

  /** Retries back off within a bound, which also bounds what a server may ask for. */
  lemma DelaysBounded(attempt: nat, retryAfter: nat)
    ensures 1 <= RetryDelay(attempt) <= FailureDelay(attempt, retryAfter) <= MAXIMUM_DELAY
  {
    PowerPositive(Min(attempt, 8));
  }

  lemma {:induction false} PowerPositive(n: nat)
    ensures Power(n) >= 1
  {
    if n > 0 {
      PowerPositive(n - 1);
    }
  }

  /** One iteration records its event and goes on unless the context has ended, at its beginning or under a delivery
      that it aborted, or the delivery panics, or the store does not do its work. */
  lemma LeavesLaw(turn: Turn)
    ensures var ends := turn.endsBefore || (turn.delivery == Aborted && turn.endsDuring);
            (TurnLeaves(turn) == Some(Stopped) <==> ends) &&
            (TurnLeaves(turn) == Some(Panicked) <==>
               !ends && (turn.delivery == Panics || turn.record == Crashes)) &&
            (TurnLeaves(turn) == None <==> !ends && turn.delivery != Panics && turn.record == Works)
  {
  }

  /** With a context that lives, deliveries that do not panic and a store that works, every event of the batch is
      recorded. */
  lemma {:induction false} QuietBatchRecordsAll(turns: seq<Turn>)
    requires forall j :: 0 <= j < |turns| ==>
               !turns[j].endsBefore && !turns[j].endsDuring && !turns[j].endsRecording &&
               turns[j].delivery != Panics && turns[j].record == Works
    ensures LeaveFrom(turns, 0, false) == Leave(|turns|, Finished(false))
  {
    forall j | 0 <= j < |turns|
      ensures GoesOn(turns, j)
    {
    }
    LeavesOnce(turns, |turns|, Finished(false));
  }

  /** The waits after the zeroth to the eighth attempt, in seconds. */
  const BACKOFF: seq<nat> := [1, 2, 4, 8, 16, 32, 64, 128, 256]

  lemma PowerIs(n: nat)
    requires n <= 8
    ensures Power(n) == BACKOFF[n]
  {
    assert Power(0) == 1 && Power(1) == 2 && Power(2) == 4;
    assert Power(3) == 8 && Power(4) == 16 && Power(5) == 32;
    assert Power(6) == 64 && Power(7) == 128 && Power(8) == 256;
  }

  /** The delay is the wait of the attempt, the eighth being the last that makes it longer, unless the server
      asks for more: it is then what the server asks for, up to ten minutes. */
  lemma DelayLaw(attempt: nat, retryAfter: nat)
    ensures RetryDelay(attempt) == BACKOFF[if attempt < 8 then attempt else 8]
    ensures FailureDelay(attempt, retryAfter) >= RetryDelay(attempt)
    ensures FailureDelay(attempt, retryAfter) >= if retryAfter < 600 then retryAfter else 600
    ensures FailureDelay(attempt, retryAfter) in {RetryDelay(attempt), retryAfter, 600}
    ensures FailureDelay(attempt, retryAfter) == 600 ==> retryAfter >= 600
  {
    PowerIs(if attempt < 8 then attempt else 8);
  }

  /** What a recorded event looks like, told from its row before the claim: the attempt counts unless the event
      waits for its configuration for five minutes, and a failed event dies of its last attempt or is due again
      after its delay. */
  lemma RecordedRow(before: Events, rows: Events, ids: seq<nat>, owner: nat, token: nat, until: Time, turns: seq<Turn>,
                    cleanup: Cleanup, k: nat, how: How, j: nat)
    requires j < k <= |ids| == |turns|
    requires BatchRun(before, rows, ids, owner, token, until, turns, cleanup) && LeftAt(turns, k, how)
    ensures var row, prior, turn := rows[ids[j]], before[ids[j]], turns[j];
            row.kind == prior.kind && row.maxAttempts == prior.maxAttempts && row.owner == None && row.token == None &&
            if turn.delivery == Delivered then row.status == Published && row.attempts == prior.attempts + 1
            else if turn.delivery == Unconfigured ||
                    (prior.kind == StorageDelete && !(turn.delivery.Broken? && turn.delivery.invalid)) then
              row.status == Pending && row.attempts == prior.attempts && row.availableAt == turn.at + 300
            else
              var attempts := prior.attempts + 1;
              row.attempts == attempts && row.availableAt >= turn.at + BACKOFF[if attempts < 8 then attempts else 8] &&
              (row.status == Dead <==> attempts >= if prior.maxAttempts == 0 then 10 else prior.maxAttempts) &&
              (row.status == Dead || row.status == Pending) &&
              row.availableAt ==
                turn.at + FailureDelay(attempts, if turn.delivery.Broken? then turn.delivery.retryAfter else 0)
  {
    LeavesOnce(turns, k, how);
    assert GoesOn(turns, j);
    DelayLaw(before[ids[j]].attempts + 1, RetryAfter(turns[j].delivery));
  }

  /** A claim takes events that are pending and due, or whose lease has run out, counts an attempt of each and
      leases it; an event whose lease has run out and that is not taken is pending at once, with its attempts,
      and every other one stays as it was. */
  lemma ClaimLaw(rows: Events, picked: set<nat>, owner: nat, token: nat, until: Time, now: Time, e: nat)
    requires e in rows && forall p :: p in picked ==> Claimable(Reclaimed(rows, now), p, now)
    ensures var was, row := rows[e], ClaimAll(Reclaimed(rows, now), picked, owner, token, until)[e];
            var expired := was.status == Publishing && was.lease <= now;
            (Claimable(Reclaimed(rows, now), e, now) <==>
               expired || (was.status == Pending && was.availableAt <= now)) &&
            row.kind == was.kind && row.maxAttempts == was.maxAttempts &&
            if e in picked then
              row.status == Publishing && row.attempts == was.attempts + 1 && row.lease == until &&
              row.owner == Some(owner) && row.token == Some(token)
            else if expired then
              row.status == Pending && row.attempts == was.attempts && row.availableAt == now &&
              row.owner == None && row.token == None
            else row == was
  {
    assert e in picked ==> Claimable(Reclaimed(rows, now), e, now);
  }
}
