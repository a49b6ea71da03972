/** The batch dispatcher of the outbox
    (dispatchPendingOutboxMessages in apps/execution-worker/src/index.ts). */
module OutboxDispatch {
  import opened ExecutionProtocol

  /** Whether publishing the row at an index succeeds in this cycle. */
  type Channel = nat -> bool

  predicate Eligible(row: Row) { row.status.RowPending? && row.attempts < MAX_PUBLISH_ATTEMPTS }

  /** How many of the first `i` rows are eligible. */
  function EligibleBefore(rows: seq<Row>, i: nat): nat
    requires i <= |rows|
  {
    if i == 0 then 0 else EligibleBefore(rows, i - 1) + (if Eligible(rows[i - 1]) then 1 else 0)
  }

  /** The query takes the eligible rows in order of creation, up to the batch size. */
  predicate IsFetched(rows: seq<Row>, batchSize: nat, i: nat)
    requires i < |rows|
  {
    Eligible(rows[i]) && EligibleBefore(rows, i) < batchSize
  }

  function FetchedBefore(rows: seq<Row>, batchSize: nat, i: nat): nat
    requires i <= |rows|
  {
    if i == 0 then 0 else FetchedBefore(rows, batchSize, i - 1) + (if IsFetched(rows, batchSize, i - 1) then 1 else 0)
  }

  function AfterPublish(row: Row, ok: bool): Row {
    if ok then row.(status := RowPublished, attempts := row.attempts + 1) else AfterFailedPublish(row, row)
  }

  /** One cycle without interference: fetched rows are published or charged one attempt, others stay. */
  function Cycle(rows: seq<Row>, batchSize: nat, channel: Channel): (r: seq<Row>)
    ensures |r| == |rows|
  {
    seq(|rows|, i requires 0 <= i < |rows| =>
      if IsFetched(rows, batchSize, i) then AfterPublish(rows[i], channel(i)) else rows[i])
  }

  /** The rows whose publishing comes out one way or the other in a cycle. */
  ghost function Attempted(rows: seq<Row>, batchSize: nat, channel: Channel, ok: bool): set<nat> {
    set i | 0 <= i < |rows| && IsFetched(rows, batchSize, i) && channel(i) == ok
  }

  ghost function Among(picked: seq<nat>, channel: Channel, ok: bool): set<nat> {
    set i | i in picked && channel(i) == ok
  }

  /** `picked` are the indices of the fetched rows. */
  ghost predicate IsPick(rows: seq<Row>, batchSize: nat, picked: seq<nat>) {
    && (forall i :: i in picked ==> i < |rows| && IsFetched(rows, batchSize, i))
    && (forall i :: 0 <= i < |rows| && IsFetched(rows, batchSize, i) ==> i in picked)
  }

  /** The picked rows are pending with fewer than five attempts; such a row is left only when the batch is full with
      older ones. */
  ghost predicate IsFirstPending(rows: seq<Row>, batchSize: nat, picked: seq<nat>) {
    && |picked| <= batchSize
    && (forall i :: i in picked ==> i < |rows| && rows[i].status.RowPending? && rows[i].attempts < 5)
    && (forall i :: 0 <= i < |rows| && rows[i].status.RowPending? && rows[i].attempts < 5 && i !in picked ==>
          |picked| == batchSize && forall j :: j in picked ==> j < i)
  }

  lemma {:induction false} EligibleGrows(rows: seq<Row>, i: nat, k: nat)
    requires i <= k <= |rows|
    ensures EligibleBefore(rows, i) <= EligibleBefore(rows, k)
  {
    if i < k { EligibleGrows(rows, i, k - 1); }
  }

  lemma BatchIsFilled(rows: seq<Row>, batchSize: nat, picked: seq<nat>)
    requires IsPick(rows, batchSize, picked)
    requires |picked| == if EligibleBefore(rows, |rows|) < batchSize then EligibleBefore(rows, |rows|) else batchSize
    ensures IsFirstPending(rows, batchSize, picked)
  {
    forall i | 0 <= i < |rows| && Eligible(rows[i]) && i !in picked
      ensures |picked| == batchSize && forall j :: j in picked ==> j < i
    {
      EligibleGrows(rows, i, |rows|);
      forall j | j in picked ensures j < i {
        if j >= i { EligibleGrows(rows, i, j); }
      }
    }
  }

  lemma PickedAreAttempted(rows: seq<Row>, batchSize: nat, picked: seq<nat>, channel: Channel)
    requires IsPick(rows, batchSize, picked)
    ensures forall ok :: Among(picked, channel, ok) == Attempted(rows, batchSize, channel, ok)
  {
  }

  /** A pending row is published, or charged an attempt, with which it has failed for good at the fifth. */
  predicate Dispatched(row: Row, after: Row, ok: bool) {
    && row.status.RowPending? && row.attempts < 5
    && after.event == row.event && after.eventId == row.eventId && after.attempts == row.attempts + 1
    && if ok then after.status.RowPublished?
       else if after.attempts == 5 then after.status.RowFailed?
       else after.status.RowPending?
  }

  lemma PickedMakeTheCycle(rows: seq<Row>, batchSize: nat, picked: seq<nat>, channel: Channel, after: seq<Row>)
    requires IsPick(rows, batchSize, picked) && |after| == |rows|
    requires forall i :: 0 <= i < |rows| ==>
      after[i] == if i in picked then AfterPublish(rows[i], channel(i)) else rows[i]
    ensures after == Cycle(rows, batchSize, channel)
  {
  }

  lemma AmongNext(picked: seq<nat>, i: nat, channel: Channel, ok: bool)
    requires i !in picked
    ensures |Among(picked + [i], channel, ok)| == |Among(picked, channel, ok)| + if channel(i) == ok then 1 else 0
  {
    if channel(i) == ok {
      assert Among(picked + [i], channel, ok) == Among(picked, channel, ok) + {i};
    } else {
      assert Among(picked + [i], channel, ok) == Among(picked, channel, ok);
    }
  }

  // ---- The dispatcher ----

  class OutboxTable {
    /** Rows in order of creation. */
    var rows: seq<Row>

    method FetchPending(batchSize: nat) returns (picked: seq<nat>)
      ensures |picked| == FetchedBefore(rows, batchSize, |rows|)
      ensures IsPick(rows, batchSize, picked) && IsFirstPending(rows, batchSize, picked)
      ensures forall j, k :: 0 <= j < k < |picked| ==> picked[j] < picked[k]
    {
      picked := [];
      for i := 0 to |rows|
        invariant |picked| == FetchedBefore(rows, batchSize, i)
        invariant |picked| == if EligibleBefore(rows, i) < batchSize then EligibleBefore(rows, i) else batchSize
        invariant forall j :: 0 <= j < |picked| ==> picked[j] < i && IsFetched(rows, batchSize, picked[j])
        invariant forall n :: 0 <= n < i && IsFetched(rows, batchSize, n) ==> n in picked
        invariant forall j, k :: 0 <= j < k < |picked| ==> picked[j] < picked[k]
      {
        if Eligible(rows[i]) && |picked| < batchSize {
          picked := picked + [i];
        }
      }
      BatchIsFilled(rows, batchSize, picked);
    }

    /** Publish one row as it was read: increment on success, overwrite from the reading on failure. */
    method DispatchOutboxEvent(i: nat, read: Row, ok: bool)
      requires i < |rows| && rows[i] == read && !read.status.RowPublished?
      modifies this
      ensures rows == old(rows)[i := AfterPublish(read, ok)]
    {
      if ok {
        rows := rows[i := rows[i].(status := RowPublished, attempts := rows[i].attempts + 1)];
      } else {
        var attempts := read.attempts + 1;
        rows := rows[i := rows[i].(attempts := attempts,
                                   status := if attempts >= MAX_PUBLISH_ATTEMPTS then RowFailed else read.status)];
      }
    }

    method DispatchPendingOutboxMessages(batchSize: nat, channel: Channel)
      returns (fetched: nat, failed: nat, published: nat)
      modifies this
      ensures rows == Cycle(old(rows), batchSize, channel)
      ensures forall i :: 0 <= i < |old(rows)| ==>
        if IsFetched(old(rows), batchSize, i) then Dispatched(old(rows)[i], rows[i], channel(i))
        else rows[i] == old(rows)[i]
      ensures fetched == FetchedBefore(old(rows), batchSize, |old(rows)|)
      ensures published == |Attempted(old(rows), batchSize, channel, true)|
      ensures failed == |Attempted(old(rows), batchSize, channel, false)|
      ensures fetched == published + failed
    {
      var picked := FetchPending(batchSize);
      var read := rows;
      failed, published := 0, 0;
      for j := 0 to |picked|
        invariant |rows| == |read| && published + failed == j
        invariant published == |Among(picked[..j], channel, true)| && failed == |Among(picked[..j], channel, false)|
        invariant forall i :: 0 <= i < |read| ==>
          rows[i] == if i in picked[..j] then AfterPublish(read[i], channel(i)) else read[i]
      {
        var i := picked[j];
        assert i in picked && i !in picked[..j];
        assert picked[..j + 1] == picked[..j] + [i];
        AmongNext(picked[..j], i, channel, true);
        AmongNext(picked[..j], i, channel, false);
        DispatchOutboxEvent(i, read[i], channel(i));
        if channel(i) {
          published := published + 1;
        } else {
          failed := failed + 1;
        }
      }
      assert picked[..|picked|] == picked;
      PickedAreAttempted(read, batchSize, picked, channel);
      PickedMakeTheCycle(read, batchSize, picked, channel, rows);
      return |picked|, failed, published;
    }
  }

  // ---- Draining ----

  ghost predicate Sound(rows: seq<Row>) {
    forall i :: 0 <= i < |rows| && rows[i].status.RowPending? ==> rows[i].attempts < MAX_PUBLISH_ATTEMPTS
  }

  function AttemptsLeft(row: Row): nat { if Eligible(row) then MAX_PUBLISH_ATTEMPTS - row.attempts else 0 }

  /** Publishing attempts left over all pending rows. */
  function Backlog(rows: seq<Row>): nat {
    if rows == [] then 0 else Backlog(rows[..|rows| - 1]) + AttemptsLeft(rows[|rows| - 1])
  }

  lemma BacklogStep(rows: seq<Row>, k: nat)
    requires 0 < k <= |rows|
    ensures Backlog(rows[..k]) == Backlog(rows[..k - 1]) + AttemptsLeft(rows[k - 1])
  {
    assert rows[..k][..k - 1] == rows[..k - 1];
  }

  ghost predicate Settled(rows: seq<Row>) {
    forall i :: 0 <= i < |rows| ==> !rows[i].status.RowPending?
  }

  lemma CycleKeepsSound(rows: seq<Row>, batchSize: nat, channel: Channel)
    requires Sound(rows)
    ensures Sound(Cycle(rows, batchSize, channel))
  {
    var after := Cycle(rows, batchSize, channel);
    assert forall i :: 0 <= i < |rows| ==> after[i] == rows[i] || after[i] == AfterPublish(rows[i], channel(i));
  }

  lemma AttemptIsSpent(row: Row, ok: bool)
    requires Eligible(row)
    ensures AttemptsLeft(AfterPublish(row, ok)) < AttemptsLeft(row)
  {
  }

  lemma {:induction false} BacklogFallsBefore(rows: seq<Row>, batchSize: nat, channel: Channel, k: nat)
    requires k <= |rows|
    ensures Backlog(Cycle(rows, batchSize, channel)[..k]) + FetchedBefore(rows, batchSize, k) <= Backlog(rows[..k])
  {
    if k > 0 {
      BacklogFallsBefore(rows, batchSize, channel, k - 1);
      BacklogStep(rows, k);
      var after := Cycle(rows, batchSize, channel);
      BacklogStep(after, k);
      if IsFetched(rows, batchSize, k - 1) {
        assert after[k - 1] == AfterPublish(rows[k - 1], channel(k - 1));
        AttemptIsSpent(rows[k - 1], channel(k - 1));
      } else {
        assert after[k - 1] == rows[k - 1];
      }
    }
  }

  /** Every dispatch takes at least one attempt off the backlog. */
  lemma CycleLowersBacklog(rows: seq<Row>, batchSize: nat, channel: Channel)
    ensures Backlog(Cycle(rows, batchSize, channel)) + FetchedBefore(rows, batchSize, |rows|) <= Backlog(rows)
  {
    BacklogFallsBefore(rows, batchSize, channel, |rows|);
    assert rows[..|rows|] == rows && Cycle(rows, batchSize, channel)[..|rows|] == Cycle(rows, batchSize, channel);
  }

  lemma {:induction false} PendingIsFetched(rows: seq<Row>, batchSize: nat, k: nat)
    requires k <= |rows| && batchSize > 0
    ensures EligibleBefore(rows, k) > 0 ==> FetchedBefore(rows, batchSize, k) > 0
  {
    if k > 0 {
      PendingIsFetched(rows, batchSize, k - 1);
    }
  }

  lemma {:induction false} EligibleIsCounted(rows: seq<Row>, i: nat, k: nat)
    requires i < k <= |rows| && Eligible(rows[i])
    ensures EligibleBefore(rows, k) > 0
  {
    if i < k - 1 {
      EligibleIsCounted(rows, i, k - 1);
    }
  }

  /** The filter strands no row: a cycle that fetches nothing leaves nothing pending. */
  lemma NothingFetchedMeansSettled(rows: seq<Row>, batchSize: nat)
    requires Sound(rows) && batchSize > 0 && FetchedBefore(rows, batchSize, |rows|) == 0
    ensures Settled(rows)
  {
    PendingIsFetched(rows, batchSize, |rows|);
    forall i | 0 <= i < |rows| ensures !rows[i].status.RowPending? {
      if rows[i].status.RowPending? { EligibleIsCounted(rows, i, |rows|); }
    }
  }

  function Cycles(rows: seq<Row>, batchSize: nat, channels: seq<Channel>): seq<Row>
    decreases |channels|
  {
    if channels == [] then rows else Cycles(Cycle(rows, batchSize, channels[0]), batchSize, channels[1..])
  }

  lemma SettledStays(rows: seq<Row>, batchSize: nat, channel: Channel)
    requires Settled(rows)
    ensures Settled(Cycle(rows, batchSize, channel))
  {
    var after := Cycle(rows, batchSize, channel);
    forall i | 0 <= i < |rows| ensures after[i] == rows[i] {
      assert !rows[i].status.RowPending? && !Eligible(rows[i]) && !IsFetched(rows, batchSize, i);
    }
  }

  /** Any backlog is worked off, whatever the channel does: after as many cycles as there are attempts left,
      every row is published or has failed for good. */
  lemma {:induction false} BacklogDrains(rows: seq<Row>, batchSize: nat, channels: seq<Channel>)
    requires Sound(rows) && batchSize > 0 && |channels| >= Backlog(rows)
    ensures Settled(Cycles(rows, batchSize, channels))
    decreases |channels|
  {
    if channels == [] {
      CycleLowersBacklog(rows, batchSize, i => true);
      NothingFetchedMeansSettled(rows, batchSize);
    } else {
      var next := Cycle(rows, batchSize, channels[0]);
      CycleKeepsSound(rows, batchSize, channels[0]);
      CycleLowersBacklog(rows, batchSize, channels[0]);
      if FetchedBefore(rows, batchSize, |rows|) == 0 {
        NothingFetchedMeansSettled(rows, batchSize);
        SettledStays(rows, batchSize, channels[0]);
        SettledHasNoBacklog(next);
      }
      BacklogDrains(next, batchSize, channels[1..]);
    }
  }

  lemma {:induction false} SettledHasNoBacklog(rows: seq<Row>)
    requires Settled(rows)
    ensures Backlog(rows) == 0
  {
    if rows != [] {
      SettledHasNoBacklog(rows[..|rows| - 1]);
    }
  }
}
