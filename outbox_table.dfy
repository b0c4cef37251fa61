/** The `outbox` table as values. Records sit in storage order, which is
    ascending id order because ids come from an increasing counter and no
    record is ever deleted. `Claim` is the query of `GetUnprocessed`
    (unprocessed rows, lowest id first, at most `limit`, skipping rows locked by
    another open transaction); `Marked` is the update of `MarkProcessed`. */
module OutboxTable {
  import opened Errors

  newtype byte = b: int | 0 <= b < 256

  type Bytes = seq<byte>

  /** A stored row: `id`, `event_type`, `aggregate_id`, `payload`, `created_at`,
      `is_processed`, `processed_at`. */
  datatype OutboxRecord = OutboxRecord(
    id: int,
    eventType: string,
    aggregateId: string,
    payload: Bytes,
    createdAt: int,
    isProcessed: bool,
    processedAt: Option<int>)

  /** `OutboxEvent`: the columns the claim query selects. */
  datatype OutboxEvent = OutboxEvent(
    id: int,
    eventType: string,
    aggregateId: string,
    payload: Bytes,
    createdAt: int)

  function EventOf(r: OutboxRecord): OutboxEvent
  {
    OutboxEvent(r.id, r.eventType, r.aggregateId, r.payload, r.createdAt)
  }

  /** Ids strictly increase in storage order. */
  ghost predicate Ascending(rs: seq<OutboxRecord>)
  {
    forall i, j :: 0 <= i < j < |rs| ==> rs[i].id < rs[j].id
  }

  /** The table's invariant: ascending positive ids below the next id the counter
      will hand out, and a processing time exactly on the processed rows. */
  ghost predicate OutboxValid(rs: seq<OutboxRecord>, nextId: int)
  {
    && nextId >= 1
    && Ascending(rs)
    && (forall i :: 0 <= i < |rs| ==> 1 <= rs[i].id < nextId)
    && (forall i :: 0 <= i < |rs| ==> (rs[i].isProcessed <==> rs[i].processedAt.Some?))
  }

  /** `WHERE is_processed = false`, less the rows another transaction holds locked. */
  predicate Claimable(r: OutboxRecord, lockedByOthers: set<int>)
  {
    !r.isProcessed && r.id !in lockedByOthers
  }

  /** The rows the claim query returns, in storage (ascending id) order. */
  function Claim(rs: seq<OutboxRecord>, limit: nat, lockedByOthers: set<int>): (c: seq<OutboxEvent>)
    ensures |c| <= limit && |c| <= |rs|
    decreases |rs|
  {
    if rs == [] || limit == 0 then []
    else if Claimable(rs[0], lockedByOthers) then [EventOf(rs[0])] + Claim(rs[1..], limit - 1, lockedByOthers)
    else Claim(rs[1..], limit, lockedByOthers)
  }

  /** Ids strictly increase along a batch. */
  ghost predicate EventsAscending(es: seq<OutboxEvent>)
  {
    forall k, l :: 0 <= k < l < |es| ==> es[k].id < es[l].id
  }

  /** `e` is the selected view of a claimable row of `rs`. */
  ghost predicate ClaimableIn(rs: seq<OutboxRecord>, e: OutboxEvent, lockedByOthers: set<int>)
  {
    exists i :: 0 <= i < |rs| && Claimable(rs[i], lockedByOthers) && EventOf(rs[i]) == e
  }

  /** The ids of a batch, in batch order: what the processor passes to `MarkProcessed`. */
  function Ids(es: seq<OutboxEvent>): (ids: seq<int>)
    ensures |ids| == |es|
    ensures forall k :: 0 <= k < |es| ==> ids[k] == es[k].id
  {
    seq(|es|, k requires 0 <= k < |es| => es[k].id)
  }

  /** Every claimed event is an unprocessed row of the table that no other
      transaction had locked. */
  lemma {:induction false} ClaimSound(rs: seq<OutboxRecord>, limit: nat, lockedByOthers: set<int>)
    ensures forall e :: e in Claim(rs, limit, lockedByOthers) ==>
      ClaimableIn(rs, e, lockedByOthers) && e.id !in lockedByOthers
    decreases |rs|
  {
    if rs != [] && limit != 0 {
      var tailLimit := if Claimable(rs[0], lockedByOthers) then limit - 1 else limit;
      ClaimSound(rs[1..], tailLimit, lockedByOthers);
      forall e | e in Claim(rs, limit, lockedByOthers)
        ensures ClaimableIn(rs, e, lockedByOthers) && e.id !in lockedByOthers
      {
        if !(Claimable(rs[0], lockedByOthers) && e == EventOf(rs[0])) {
          assert e in Claim(rs[1..], tailLimit, lockedByOthers);
          var i :| 0 <= i < |rs[1..]| && Claimable(rs[1..][i], lockedByOthers) && EventOf(rs[1..][i]) == e;
          assert rs[i + 1] == rs[1..][i];
        }
      }
    }
  }

  /** The claim returns its rows in strictly ascending id order. */
  lemma {:induction false} ClaimAscending(rs: seq<OutboxRecord>, limit: nat, lockedByOthers: set<int>)
    requires Ascending(rs)
    ensures EventsAscending(Claim(rs, limit, lockedByOthers))
    decreases |rs|
  {
    if rs != [] && limit != 0 {
      var tailLimit := if Claimable(rs[0], lockedByOthers) then limit - 1 else limit;
      var tail := Claim(rs[1..], tailLimit, lockedByOthers);
      ClaimAscending(rs[1..], tailLimit, lockedByOthers);
      if Claimable(rs[0], lockedByOthers) {
        ClaimSound(rs[1..], tailLimit, lockedByOthers);
        forall l | 0 <= l < |tail| ensures rs[0].id < tail[l].id {
          assert tail[l] in tail;
          var i :| 0 <= i < |rs[1..]| && Claimable(rs[1..][i], lockedByOthers) && EventOf(rs[1..][i]) == tail[l];
          assert rs[1..][i] == rs[i + 1];
        }
        var c := Claim(rs, limit, lockedByOthers);
        assert c == [EventOf(rs[0])] + tail;
        assert EventsAscending(tail);
        forall k, l | 0 <= k < l < |c| ensures c[k].id < c[l].id {
          assert c[l] == tail[l - 1];
          if k == 0 {
            assert c[0] == EventOf(rs[0]);
            assert rs[0].id < tail[l - 1].id;
          } else {
            assert c[k] == tail[k - 1];
          }
        }
      }
    }
  }

  /** A claimable row left out of the claim means the claim is full and every
      claimed row has a lower id: the claim takes the lowest-id claimable rows. */
  lemma {:induction false} ClaimLowest(rs: seq<OutboxRecord>, limit: nat, lockedByOthers: set<int>, i: int)
    requires Ascending(rs)
    requires 0 <= i < |rs| && Claimable(rs[i], lockedByOthers)
    requires EventOf(rs[i]) !in Claim(rs, limit, lockedByOthers)
    ensures |Claim(rs, limit, lockedByOthers)| == limit
    ensures forall e :: e in Claim(rs, limit, lockedByOthers) ==> e.id < rs[i].id
    decreases |rs|
  {
    if limit != 0 {
      assert rs[1..][i - 1] == rs[i];
      if Claimable(rs[0], lockedByOthers) {
        ClaimLowest(rs[1..], limit - 1, lockedByOthers, i - 1);
      } else {
        ClaimLowest(rs[1..], limit, lockedByOthers, i - 1);
      }
    }
  }

  /** Skip-locking: a second claim that finds the first claim's rows locked
      returns rows disjoint from it. */
  lemma ClaimsDisjoint(rs: seq<OutboxRecord>, limit1: nat, limit2: nat, lockedByOthers: set<int>)
    ensures var first := Claim(rs, limit1, lockedByOthers);
      var second := Claim(rs, limit2, lockedByOthers + (set e | e in first :: e.id));
      forall e1, e2 :: e1 in first && e2 in second ==> e1.id != e2.id
  {
    var first := Claim(rs, limit1, lockedByOthers);
    ClaimSound(rs, limit2, lockedByOthers + (set e | e in first :: e.id));
  }

  /** An id the claim returned names exactly one row, and that row is the one
      claimed: marking the claimed ids touches no row outside the claim. */
  lemma ClaimedIdIdentifiesRow(rs: seq<OutboxRecord>, limit: nat, lockedByOthers: set<int>, j: int)
    requires Ascending(rs)
    requires 0 <= j < |rs| && rs[j].id in Ids(Claim(rs, limit, lockedByOthers))
    ensures EventOf(rs[j]) in Claim(rs, limit, lockedByOthers) && Claimable(rs[j], lockedByOthers)
  {
    var c := Claim(rs, limit, lockedByOthers);
    var k :| 0 <= k < |c| && Ids(c)[k] == rs[j].id;
    ClaimSound(rs, limit, lockedByOthers);
    assert c[k] in c;
    var i :| 0 <= i < |rs| && Claimable(rs[i], lockedByOthers) && EventOf(rs[i]) == c[k];
    assert rs[i].id == rs[j].id;
    assert i == j;
  }

  /** A claim with room, facing a row nobody else has locked, takes some
      unprocessed row. */
  lemma ClaimTakesPendingRow(rs: seq<OutboxRecord>, limit: nat, lockedByOthers: set<int>, i: int)
    requires Ascending(rs) && limit >= 1
    requires 0 <= i < |rs| && Claimable(rs[i], lockedByOthers)
    ensures exists j :: 0 <= j < |rs| && !rs[j].isProcessed && rs[j].id in Ids(Claim(rs, limit, lockedByOthers))
  {
    var c := Claim(rs, limit, lockedByOthers);
    var e := EventOf(rs[i]);
    if e !in c {
      ClaimLowest(rs, limit, lockedByOthers, i);
      e := c[0];
    }
    ClaimSound(rs, limit, lockedByOthers);
    var j :| 0 <= j < |rs| && Claimable(rs[j], lockedByOthers) && EventOf(rs[j]) == e;
    var k :| 0 <= k < |c| && c[k] == e;
    assert Ids(c)[k] == rs[j].id;
  }

  /** The row after `MarkProcessed` set `is_processed` and `processed_at` on it. */
  function MarkOne(r: OutboxRecord, now: int): OutboxRecord
  {
    r.(isProcessed := true, processedAt := Some(now))
  }

  /** `UPDATE outbox SET is_processed = true, processed_at = now WHERE id = ANY(ids)`:
      exactly the rows whose id is listed are marked, with their contents kept;
      every other row is unchanged and no row appears or disappears. */
  function Marked(rs: seq<OutboxRecord>, ids: seq<int>, now: int): (m: seq<OutboxRecord>)
    ensures |m| == |rs|
    ensures forall i :: 0 <= i < |rs| ==> EventOf(m[i]) == EventOf(rs[i])
    ensures forall i :: 0 <= i < |rs| && rs[i].id in ids ==> m[i].isProcessed && m[i].processedAt == Some(now)
    ensures forall i :: 0 <= i < |rs| && rs[i].id !in ids ==> m[i] == rs[i]
  {
    seq(|rs|, i requires 0 <= i < |rs| => if rs[i].id in ids then MarkOne(rs[i], now) else rs[i])
  }

  /** Marking twice leaves every listed row processed, but is not a no-op: the
      second call's time replaces the first's. */
  lemma MarkTwice(rs: seq<OutboxRecord>, ids: seq<int>, t1: int, t2: int)
    ensures Marked(Marked(rs, ids, t1), ids, t2) == Marked(rs, ids, t2)
  {
  }

  /** Marking no ids changes nothing. */
  lemma MarkNothing(rs: seq<OutboxRecord>, now: int)
    ensures Marked(rs, [], now) == rs
  {
  }

  lemma MarkedKeepsValid(rs: seq<OutboxRecord>, nextId: int, ids: seq<int>, now: int)
    requires OutboxValid(rs, nextId)
    ensures OutboxValid(Marked(rs, ids, now), nextId)
  {
  }

  /** Appending an unprocessed record under the next id keeps the table valid. */
  lemma AppendKeepsValid(rs: seq<OutboxRecord>, nextId: int, r: OutboxRecord)
    requires OutboxValid(rs, nextId)
    requires r.id == nextId && !r.isProcessed && r.processedAt.None?
    ensures OutboxValid(rs + [r], nextId + 1)
  {
  }

  /** How the table may change over time: no row disappears or changes its
      contents, and a processed row stays processed. */
  ghost predicate Evolves(before: seq<OutboxRecord>, after: seq<OutboxRecord>)
  {
    && |before| <= |after|
    && forall i :: 0 <= i < |before| ==>
         EventOf(after[i]) == EventOf(before[i]) && (before[i].isProcessed ==> after[i].isProcessed)
  }

  lemma EvolvesTransitive(a: seq<OutboxRecord>, b: seq<OutboxRecord>, c: seq<OutboxRecord>)
    requires Evolves(a, b) && Evolves(b, c)
    ensures Evolves(a, c)
  {
  }

  /** The number of records still waiting to be published. */
  function Pending(rs: seq<OutboxRecord>): (n: nat)
    ensures n <= |rs|
    ensures n == 0 <==> forall i :: 0 <= i < |rs| ==> rs[i].isProcessed
  {
    if rs == [] then 0 else (if rs[0].isProcessed then 0 else 1) + Pending(rs[1..])
  }

  /** When no processed row loses its mark, the number of pending rows does not
      grow, and it drops when some pending row becomes processed. */
  lemma {:induction false} PendingShrinks(before: seq<OutboxRecord>, after: seq<OutboxRecord>, j: int)
    requires |before| == |after|
    requires forall i :: 0 <= i < |before| && before[i].isProcessed ==> after[i].isProcessed
    ensures Pending(after) <= Pending(before)
    ensures 0 <= j < |before| && !before[j].isProcessed && after[j].isProcessed ==> Pending(after) < Pending(before)
    decreases |before|
  {
    if before != [] {
      PendingShrinks(before[1..], after[1..], j - 1);
    }
  }

  lemma MarkedEvolves(rs: seq<OutboxRecord>, ids: seq<int>, now: int)
    ensures Evolves(rs, Marked(rs, ids, now))
  {
  }
}
