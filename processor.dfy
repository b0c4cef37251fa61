/** The outbox processor: each tick, inside one transaction, claims a batch of
    unprocessed records, publishes one broker message per record, and only
    then marks the batch processed. A record is therefore never marked unless
    its message was delivered; a failure after delivery rolls the marks back,
    so the record is delivered again later (at-least-once, duplicates
    possible).

    The broker is an all-or-nothing sink whose outcome is a parameter; the
    ticker is a finite sequence of ticks, each carrying the clock reading, the
    rows other transactions hold locked, and the outcome of each call. */
module OutboxProcessor {
  import opened Errors
  import opened Decimal
  import opened OutboxTable
  import opened Postgres

  datatype Header = Header(key: string, value: string)

  /** A `kafka.Message`: key, value and headers. */
  datatype Message = Message(key: string, value: Bytes, headers: seq<Header>)

  /** The message a claimed record becomes: keyed by its aggregate, carrying the
      payload, the event name and the decimal record id as headers. */
  function MessageOf(e: OutboxEvent): (m: Message)
    ensures m.key == e.aggregateId && m.value == e.payload
    ensures m.headers == [Header("event_name", e.eventType), Header("outbox_id", FormatInt(e.id))]
  {
    Message(e.aggregateId, e.payload, [Header("event_name", e.eventType), Header("outbox_id", FormatInt(e.id))])
  }

  /** One message per event, in batch order. */
  function Messages(es: seq<OutboxEvent>): (ms: seq<Message>)
    ensures |ms| == |es|
    ensures forall k :: 0 <= k < |es| ==> ms[k] == MessageOf(es[k])
  {
    seq(|es|, k requires 0 <= k < |es| => MessageOf(es[k]))
  }

  /** A consumer reads the record id back from the `outbox_id` header. */
  lemma OutboxIdHeaderRoundTrip(e: OutboxEvent)
    ensures MessageOf(e).headers[1].key == "outbox_id"
    ensures ParseInt(MessageOf(e).headers[1].value) == Some(e.id)
  {
    FormatIntRoundTrip(e.id);
  }

  /** Messages of records with distinct ids are distinct, so deduplicating on
      the `outbox_id` header loses no record. */
  lemma DistinctIdsDistinctMessages(e1: OutboxEvent, e2: OutboxEvent)
    requires e1.id != e2.id
    ensures MessageOf(e1) != MessageOf(e2)
  {
    if MessageOf(e1) == MessageOf(e2) {
      assert FormatInt(e1.id) == FormatInt(e2.id);
      FormatIntInjective(e1.id, e2.id);
    }
  }

  /** Publish before mark: every processed record's message has been delivered. */
  ghost predicate AtLeastOnce(rs: seq<OutboxRecord>, delivered: seq<Message>)
  {
    forall i :: 0 <= i < |rs| && rs[i].isProcessed ==> MessageOf(EventOf(rs[i])) in delivered
  }

  /** A successful tick: delivering a claimed batch and then marking exactly its
      ids keeps every processed record delivered. */
  lemma {:induction false} DeliverThenMarkKeepsAtLeastOnce(
    rs: seq<OutboxRecord>, limit: nat, lockedByOthers: set<int>, delivered: seq<Message>, now: int)
    requires Ascending(rs) && AtLeastOnce(rs, delivered)
    ensures var c := Claim(rs, limit, lockedByOthers);
      AtLeastOnce(Marked(rs, Ids(c), now), delivered + Messages(c))
  {
    var c := Claim(rs, limit, lockedByOthers);
    var m := Marked(rs, Ids(c), now);
    var after := delivered + Messages(c);
    forall i | 0 <= i < |m| && m[i].isProcessed ensures MessageOf(EventOf(m[i])) in after {
      if rs[i].id in Ids(c) {
        ClaimedIdIdentifiesRow(rs, limit, lockedByOthers, i);
        var k :| 0 <= k < |c| && c[k] == EventOf(rs[i]);
        assert after[|delivered| + k] == MessageOf(c[k]);
      } else {
        assert MessageOf(EventOf(rs[i])) in delivered;
        assert after[..|delivered|] == delivered;
      }
    }
  }

  /** A failed tick or a plain write: delivering more without marking anything,
      or appending an unprocessed record, keeps every processed record delivered. */
  lemma AppendKeepsAtLeastOnce(rs: seq<OutboxRecord>, delivered: seq<Message>, r: OutboxRecord, more: seq<Message>)
    requires AtLeastOnce(rs, delivered) && !r.isProcessed
    ensures AtLeastOnce(rs + [r], delivered + more)
  {
  }

  /** The `kafka.Producer`: everything it has delivered, in order. */
  class Broker {
    var delivered: seq<Message>
    var closed: bool

    constructor ()
      ensures delivered == [] && !closed
    {
      delivered := [];
      closed := false;
    }

    /** `Producer.PublishBatch`: the whole batch is delivered, or none of it and
        the writer's error is returned wrapped. */
    method PublishBatch(messages: seq<Message>, fault: Option<Error>) returns (err: Option<Error>)
      modifies this`delivered
      ensures err == WrapIf("failed to write messages to kafka", fault)
      ensures err.None? ==> delivered == old(delivered) + messages
      ensures err.Some? ==> delivered == old(delivered)
    {
      if fault.Some? {
        return Some(Wrapped("failed to write messages to kafka", fault.value));
      }
      delivered := delivered + messages;
      err := None;
    }

    /** `Producer.Close`. */
    method Close(fault: Option<Error>) returns (err: Option<Error>)
      modifies this`closed
      ensures closed && err == fault
    {
      closed := true;
      err := fault;
    }
  }

  /** The outcome of each call of one tick. */
  datatype TickFaults = TickFaults(
    begin: Option<Error>,
    claim: Option<Error>,
    publish: Option<Error>,
    mark: Option<Error>,
    rollback: Option<Error>,
    commit: Option<Error>)

  /** One tick of the ticker: the clock, the rows other transactions hold
      locked, and how the calls turn out. */
  datatype Tick = Tick(now: int, lockedByOthers: set<int>, faults: TickFaults)

  /** The batch a tick claims; a negative batch size makes the query fail. */
  function Batch(rs: seq<OutboxRecord>, batchSize: int, lockedByOthers: set<int>): seq<OutboxEvent>
  {
    if batchSize < 0 then [] else Claim(rs, batchSize, lockedByOthers)
  }

  /** The unit of work of a tick returns nil: the claim succeeds, and it is
      either empty or both its publish and its mark succeed. */
  predicate WorkSucceeds(rs: seq<OutboxRecord>, t: Tick, batchSize: int)
  {
    && batchSize >= 0 && t.faults.claim.None?
    && (Batch(rs, batchSize, t.lockedByOthers) == [] || (t.faults.publish.None? && t.faults.mark.None?))
  }

  /** A whole tick returns nil: the transaction begins, its work succeeds and
      it commits. */
  predicate TickSucceeds(rs: seq<OutboxRecord>, t: Tick, batchSize: int)
  {
    t.faults.begin.None? && WorkSucceeds(rs, t, batchSize) && t.faults.commit.None?
  }

  /** Every call of a tick succeeds (the rollback is then never issued). */
  predicate Healthy(f: TickFaults)
  {
    f.begin.None? && f.claim.None? && f.publish.None? && f.mark.None? && f.commit.None?
  }

  /** The messages the work of a tick hands to the broker for good: the whole
      claimed batch once the claim and the publish succeed, whatever happens
      afterwards. */
  function Published(rs: seq<OutboxRecord>, t: Tick, batchSize: int): seq<Message>
  {
    if batchSize >= 0 && t.faults.claim.None? && t.faults.publish.None?
    then Messages(Batch(rs, batchSize, t.lockedByOthers)) else []
  }

  /** The messages a tick delivers: none when the transaction does not begin. */
  function TickDelivers(rs: seq<OutboxRecord>, t: Tick, batchSize: int): seq<Message>
  {
    if t.faults.begin.None? then Published(rs, t, batchSize) else []
  }

  /** The outbox after one tick: the claimed batch marked when the tick
      succeeds, otherwise the table as it was. */
  function Step(rs: seq<OutboxRecord>, t: Tick, batchSize: int): seq<OutboxRecord>
  {
    if TickSucceeds(rs, t, batchSize) then Marked(rs, Ids(Batch(rs, batchSize, t.lockedByOthers)), t.now) else rs
  }

  /** The outbox after a run of ticks, each one attempted whatever the
      previous one returned. */
  function Run(rs: seq<OutboxRecord>, ticks: seq<Tick>, batchSize: int): seq<OutboxRecord>
    decreases |ticks|
  {
    if ticks == [] then rs else Run(Step(rs, ticks[0], batchSize), ticks[1..], batchSize)
  }

  /** The messages a run of ticks delivers, in order. */
  function RunDelivers(rs: seq<OutboxRecord>, ticks: seq<Tick>, batchSize: int): seq<Message>
    decreases |ticks|
  {
    if ticks == [] then []
    else TickDelivers(rs, ticks[0], batchSize) + RunDelivers(Step(rs, ticks[0], batchSize), ticks[1..], batchSize)
  }

  /** Running the ticks from `i` on is tick `i` followed by the ticks from `i + 1` on. */
  lemma RunUnfold(rs: seq<OutboxRecord>, ticks: seq<Tick>, i: int, batchSize: int, next: seq<OutboxRecord>)
    requires 0 <= i < |ticks| && next == Step(rs, ticks[i], batchSize)
    ensures Run(rs, ticks[i..], batchSize) == Run(next, ticks[i + 1..], batchSize)
  {
    var ts := ticks[i..];
    assert ts[0] == ticks[i] && ts[1..] == ticks[i + 1..];
  }

  /** What was delivered before plus what the rest of the run will deliver
      stays the same across one tick. */
  lemma RunDeliversUnfold(rs: seq<OutboxRecord>, ticks: seq<Tick>, i: int, batchSize: int,
                          next: seq<OutboxRecord>, sent: seq<Message>, sentAfter: seq<Message>)
    requires 0 <= i < |ticks| && next == Step(rs, ticks[i], batchSize)
    requires sentAfter == sent + TickDelivers(rs, ticks[i], batchSize)
    ensures sentAfter + RunDelivers(next, ticks[i + 1..], batchSize) == sent + RunDelivers(rs, ticks[i..], batchSize)
  {
    var ts := ticks[i..];
    assert ts != [] && ts[0] == ticks[i] && ts[1..] == ticks[i + 1..];
    var rest := RunDelivers(next, ticks[i + 1..], batchSize);
    var now := TickDelivers(rs, ticks[i], batchSize);
    calc {
      sent + RunDelivers(rs, ts, batchSize);
      sent + (now + rest);
      { ConcatAssoc(sent, now, rest); }
      sentAfter + rest;
    }
  }

  lemma ConcatAssoc<T>(a: seq<T>, b: seq<T>, c: seq<T>)
    ensures a + (b + c) == (a + b) + c
  {
  }

  /** A tick keeps the storage order and never un-processes a row. */
  lemma StepEvolves(rs: seq<OutboxRecord>, t: Tick, batchSize: int)
    ensures Evolves(rs, Step(rs, t, batchSize)) && |Step(rs, t, batchSize)| == |rs|
    ensures Ascending(rs) ==> Ascending(Step(rs, t, batchSize))
  {
    MarkedEvolves(rs, Ids(Batch(rs, batchSize, t.lockedByOthers)), t.now);
  }

  /** Progress: a healthy tick with room in its batch, facing a row no other
      transaction has locked, leaves strictly fewer records pending. */
  lemma HealthyTickProgress(rs: seq<OutboxRecord>, t: Tick, batchSize: int, i: int)
    requires Ascending(rs) && Healthy(t.faults) && batchSize >= 1
    requires 0 <= i < |rs| && Claimable(rs[i], t.lockedByOthers)
    ensures Pending(Step(rs, t, batchSize)) < Pending(rs)
  {
    var ids := Ids(Claim(rs, batchSize, t.lockedByOthers));
    ClaimTakesPendingRow(rs, batchSize, t.lockedByOthers, i);
    var j :| 0 <= j < |rs| && !rs[j].isProcessed && rs[j].id in ids;
    var m := Marked(rs, ids, t.now);
    assert Step(rs, t, batchSize) == m;
    PendingShrinks(rs, m, j);
  }

  /** Liveness of the outbox: with nothing locked by others and every call
      succeeding, a run of at least as many ticks as there are pending records
      publishes and marks every record. */
  lemma {:induction false} HealthyRunDrains(rs: seq<OutboxRecord>, ticks: seq<Tick>, batchSize: int)
    requires Ascending(rs) && batchSize >= 1 && |ticks| >= Pending(rs)
    requires forall k :: 0 <= k < |ticks| ==> Healthy(ticks[k].faults) && ticks[k].lockedByOthers == {}
    ensures Pending(Run(rs, ticks, batchSize)) == 0
    decreases |ticks|
  {
    if ticks != [] {
      var next := Step(rs, ticks[0], batchSize);
      StepEvolves(rs, ticks[0], batchSize);
      if Pending(rs) == 0 {
        PendingShrinks(rs, next, -1);
      } else {
        var i :| 0 <= i < |rs| && !rs[i].isProcessed;
        HealthyTickProgress(rs, ticks[0], batchSize, i);
      }
      HealthyRunDrains(next, ticks[1..], batchSize);
    }
  }

  class Processor {
    const db: Database
    const broker: Broker
    const batchSize: int

    constructor (db: Database, broker: Broker, batchSize: int)
      ensures this.db == db && this.broker == broker && this.batchSize == batchSize
    {
      this.db := db;
      this.broker := broker;
      this.batchSize := batchSize;
    }

    /** The messages and ids `processBatch` builds from a claimed batch, one
        of each per event, in claim order. */
    static method BuildBatch(events: seq<OutboxEvent>) returns (messages: seq<Message>, ids: seq<int>)
      ensures messages == Messages(events) && ids == Ids(events)
    {
      messages, ids := [], [];
      var k := 0;
      while k < |events|
        invariant 0 <= k <= |events|
        invariant |messages| == k && |ids| == k
        invariant forall j :: 0 <= j < k ==> messages[j] == MessageOf(events[j]) && ids[j] == events[j].id
      {
        messages := messages + [MessageOf(events[k])];
        ids := ids + [events[k].id];
        k := k + 1;
      }
    }

    /** The unit of work `processBatch` hands to `TxManager.Do`: claim, build,
        publish, and mark only after a successful publish. */
    method Work(t: Tick) returns (work: Option<Error>)
      requires db.Valid() && db.snapshot.Some?
      modifies db`outbox, db`locked, broker`delivered
      ensures db.Valid() && db.snapshot == old(db.snapshot)
      ensures work.None? <==> WorkSucceeds(old(db.outbox), t, batchSize)
      ensures work.None? ==>
        db.outbox == Marked(old(db.outbox), Ids(Batch(old(db.outbox), batchSize, t.lockedByOthers)), t.now)
      ensures work.Some? ==> db.outbox == old(db.outbox)
      ensures broker.delivered == old(broker.delivered) + Published(old(db.outbox), t, batchSize)
      // an empty claim is a successful tick that publishes and marks nothing
      ensures batchSize >= 0 && t.faults.claim.None? && Batch(old(db.outbox), batchSize, t.lockedByOthers) == [] ==>
        work.None? && db.outbox == old(db.outbox) && broker.delivered == old(broker.delivered)
      ensures batchSize < 0 ==> work.Some? && PgCode(work.value) == Some(InvalidRowCountInLimit)
      ensures batchSize >= 0 && t.faults.claim.Some? ==>
        work == Some(Wrapped("failed to get unprocessed events", t.faults.claim.value))
      ensures (&& batchSize >= 0 && t.faults.claim.None?
               && Batch(old(db.outbox), batchSize, t.lockedByOthers) != [] && t.faults.publish.Some?) ==>
        work == Some(Wrapped("failed to write messages to kafka",
                             Wrapped("failed to write messages to kafka", t.faults.publish.value)))
    {
      var events, claimErr := db.GetUnprocessed(batchSize, t.lockedByOthers, t.faults.claim);
      if claimErr.Some? {
        return Some(Wrapped("failed to get unprocessed events", claimErr.value));
      }
      if |events| == 0 {
        MarkNothing(db.outbox, t.now);
        return None;
      }
      var messages, ids := BuildBatch(events);
      var publishErr := broker.PublishBatch(messages, t.faults.publish);
      if publishErr.Some? {
        return Some(Wrapped("failed to write messages to kafka", publishErr.value));
      }
      var markErr := db.MarkProcessed(ids, t.now, t.faults.mark);
      work := WrapIf("failed to mark events as processed", markErr);
    }

    /** `Processor.processBatch`: one tick in one transaction. The messages are
        published before the batch is marked; the marks persist only when the
        publish, the mark and the commit all succeed. */
    method ProcessBatch(t: Tick) returns (err: Option<Error>)
      requires db.Valid() && db.snapshot.None?
      modifies db, broker`delivered
      ensures db.Valid() && db.snapshot.None?
      ensures db.companies == old(db.companies) && db.nextId == old(db.nextId)
      // success: exactly the claimed records became processed, after their messages went out
      ensures err.None? ==>
        && db.outbox == Marked(old(db.outbox), Ids(Batch(old(db.outbox), batchSize, t.lockedByOthers)), t.now)
        && broker.delivered == old(broker.delivered) + Messages(Batch(old(db.outbox), batchSize, t.lockedByOthers))
      // failure: no record changed, so every claimed record is still unprocessed
      ensures err.Some? ==> db.outbox == old(db.outbox)
      // it succeeds exactly when every call it depends on does; the outbox is then one Step further
      ensures err.None? <==> TickSucceeds(old(db.outbox), t, batchSize)
      ensures db.outbox == Step(old(db.outbox), t, batchSize)
      // the broker received the whole batch, or nothing
      ensures broker.delivered == old(broker.delivered) + TickDelivers(old(db.outbox), t, batchSize)
      // nothing is marked that was not published
      ensures AtLeastOnce(old(db.outbox), old(broker.delivered)) ==> AtLeastOnce(db.outbox, broker.delivered)
      ensures Evolves(old(db.outbox), db.outbox)
      ensures t.faults.begin.Some? ==> err == Some(Wrapped("begin tx", t.faults.begin.value))
      ensures t.faults.begin.None? && batchSize < 0 ==>
        err.Some? && PgCode(err.value) == Some(InvalidRowCountInLimit)
    {
      ghost var rows := db.outbox;
      ghost var before := broker.delivered;
      ghost var claimed := Batch(rows, batchSize, t.lockedByOthers);
      assert Ascending(rows);
      err := db.Begin(t.faults.begin);
      if err.Some? {
        return err;
      }
      var work := Work(t);
      MarkedEvolves(rows, Ids(claimed), t.now);
      if AtLeastOnce(rows, before) {
        DeliverThenMarkKeepsAtLeastOnce(rows, if batchSize < 0 then 0 else batchSize, t.lockedByOthers, before, t.now);
        AtLeastOnceGrows(rows, before, Messages(claimed));
      }
      err := db.End(work, t.faults.rollback, t.faults.commit);
    }

    /** `Processor.Start` over a finite run: every tick is attempted whatever
        the previous one returned; at the end the producer is closed and its
        error returned. */
    method Start(ticks: seq<Tick>, closeFault: Option<Error>) returns (err: Option<Error>)
      requires db.Valid() && db.snapshot.None?
      modifies db, broker
      ensures db.Valid() && db.snapshot.None?
      ensures db.companies == old(db.companies) && db.nextId == old(db.nextId)
      ensures Evolves(old(db.outbox), db.outbox)
      ensures AtLeastOnce(old(db.outbox), old(broker.delivered)) ==> AtLeastOnce(db.outbox, broker.delivered)
      ensures broker.closed && err == closeFault
      // every tick is attempted, whatever the previous one returned
      ensures db.outbox == Run(old(db.outbox), ticks, batchSize)
      ensures broker.delivered == old(broker.delivered) + RunDelivers(old(db.outbox), ticks, batchSize)
    {
      var i := 0;
      while i < |ticks|
        invariant 0 <= i <= |ticks|
        invariant db.Valid() && db.snapshot.None?
        invariant db.companies == old(db.companies) && db.nextId == old(db.nextId)
        invariant Evolves(old(db.outbox), db.outbox)
        invariant AtLeastOnce(old(db.outbox), old(broker.delivered)) ==> AtLeastOnce(db.outbox, broker.delivered)
        invariant Run(db.outbox, ticks[i..], batchSize) == Run(old(db.outbox), ticks, batchSize)
        invariant broker.delivered + RunDelivers(db.outbox, ticks[i..], batchSize)
               == old(broker.delivered) + RunDelivers(old(db.outbox), ticks, batchSize)
      {
        ghost var mid := db.outbox;
        ghost var sent := broker.delivered;
        var _ := ProcessBatch(ticks[i]);
        EvolvesTransitive(old(db.outbox), mid, db.outbox);
        RunUnfold(mid, ticks, i, batchSize, db.outbox);
        RunDeliversUnfold(mid, ticks, i, batchSize, db.outbox, sent, broker.delivered);
        i := i + 1;
      }
      assert ticks[i..] == [];
      err := broker.Close(closeFault);
    }
  }

  /** Delivering more never breaks the invariant. */
  lemma AtLeastOnceGrows(rs: seq<OutboxRecord>, delivered: seq<Message>, more: seq<Message>)
    requires AtLeastOnce(rs, delivered)
    ensures AtLeastOnce(rs, delivered + more)
  {
  }
}
