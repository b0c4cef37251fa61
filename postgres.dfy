/** The Postgres side of the core: one database holding the `companies` and
    `outbox` tables, the transaction manager, and the two repositories whose
    statements run against it.

    `TxManager.Do(work)` is split in two: `Begin` takes a snapshot of the tables,
    the caller runs its work against the live tables, and `End` either keeps the
    work's writes (work and commit succeeded) or restores the snapshot. A
    statement issued while a transaction is open joins it (its write is undone
    if the transaction does not commit); one issued outside stands alone and
    is final at once.

    Failures of the database itself (a lost connection, a failing begin, commit
    or rollback) are parameters of the operations: `None` for success, or the
    error the driver reports. */
module Postgres {
  import opened Errors
  import opened Domain
  import opened Events
  import opened CompanyTable
  import opened OutboxTable

  datatype Tables = Tables(companies: map<string, Row>, outbox: seq<OutboxRecord>, nextId: int)

  ghost predicate TablesValid(t: Tables)
  {
    CompaniesValid(t.companies) && OutboxValid(t.outbox, t.nextId)
  }

  /** SQLSTATE Postgres reports for a negative LIMIT. */
  const InvalidRowCountInLimit: string := "2201W"

  /** What `TxManager.Do` returns once its work has run: nothing when the work and
      the commit succeed; the work's own error after a rollback (still matched by
      `errors.Is` and `errors.As` when the rollback itself failed, whose error is
      kept as text only); or the commit error, wrapped. */
  function DoResult(work: Option<Error>, rollback: Option<Error>, commit: Option<Error>): (r: Option<Error>)
    ensures r.None? <==> work.None? && commit.None?
    ensures work.Some? && rollback.None? ==> r == work
    ensures work.Some? ==> forall s :: Is(r.value, s) <==> Is(work.value, s)
    ensures work.Some? ==> PgCode(r.value) == PgCode(work.value)
    ensures work.None? && commit.Some? ==> r == Some(Wrapped("commit tx", commit.value))
  {
    match work
    case Some(cause) =>
      if rollback.Some? then Some(RollbackFailed(rollback.value, cause)) else Some(cause)
    case None =>
      if commit.Some? then Some(Wrapped("commit tx", commit.value)) else None
  }

  /** The row `OutboxRepo.Publish` inserts for an event: its name, aggregate
      id, serialised payload and time, unprocessed, under `id`. */
  function NewRecord(id: int, e: Event, payload: Bytes): OutboxRecord
  {
    OutboxRecord(id, EventName(e), AggregateID(e), payload, CreatedAt(e), false, None)
  }

  class Database {
    var companies: map<string, Row>
    var outbox: seq<OutboxRecord>
    /** the next value of the outbox id sequence */
    var nextId: int
    /** the tables as they stood when the open transaction began; `None` when no
        transaction is open */
    var snapshot: Option<Tables>
    /** outbox ids whose rows the open transaction holds locked. This is
        bookkeeping only: a concurrent transaction is not modelled, so no claim
        reads this set. The set `GetUnprocessed` adds here is the one a second
        claim must skip for `ClaimsDisjoint` to apply. */
    var locked: set<int>
    /** `json.Marshal` applied to an event payload */
    const marshal: EventPayload -> Result<Bytes>

    function Current(): Tables
      reads this
    {
      Tables(companies, outbox, nextId)
    }

    ghost predicate Valid()
      reads this
    {
      && TablesValid(Current())
      && (snapshot.Some? ==> TablesValid(snapshot.value))
      && (snapshot.None? ==> locked == {})
    }

    constructor (marshal: EventPayload -> Result<Bytes>)
      ensures Valid() && snapshot.None?
      ensures Current() == Tables(map[], [], 1) && this.marshal == marshal
    {
      companies := map[];
      outbox := [];
      nextId := 1;
      snapshot := None;
      locked := {};
      this.marshal := marshal;
    }

    /** The first half of `TxManager.Do`: a failing begin is returned wrapped and
        the work must not run. */
    method Begin(fault: Option<Error>) returns (err: Option<Error>)
      requires Valid() && snapshot.None?
      modifies this
      ensures Valid() && Current() == old(Current()) && locked == {}
      ensures err == WrapIf("begin tx", fault)
      ensures err.None? ==> snapshot == Some(old(Current()))
      ensures err.Some? ==> snapshot.None?
    {
      if fault.Some? {
        return Some(Wrapped("begin tx", fault.value));
      }
      snapshot := Some(Current());
      err := None;
    }

    /** The second half of `TxManager.Do`: after failed work, roll back; after
        successful work, commit. The work's writes persist only when both the
        work and the commit succeed; otherwise the tables are as they were at
        `Begin`. Either way the transaction's row locks are released. */
    method End(work: Option<Error>, rollback: Option<Error>, commit: Option<Error>) returns (err: Option<Error>)
      requires Valid() && snapshot.Some?
      modifies this
      ensures Valid() && snapshot.None? && locked == {}
      ensures err == DoResult(work, rollback, commit)
      ensures err.None? ==> Current() == old(Current())
      ensures err.Some? ==> Current() == old(snapshot.value)
    {
      var saved := snapshot.value;
      if work.Some? {
        companies, outbox, nextId := saved.companies, saved.outbox, saved.nextId;
        if rollback.Some? {
          err := Some(RollbackFailed(rollback.value, work.value));
        } else {
          err := work;
        }
      } else if commit.Some? {
        companies, outbox, nextId := saved.companies, saved.outbox, saved.nextId;
        err := Some(Wrapped("commit tx", commit.value));
      } else {
        err := None;
      }
      snapshot := None;
      locked := {};
    }

    /** `CompanyRepo.Create`: inserts the company's row. A clash with an existing
        id or name is a unique violation, reported as the name conflict, and
        stores nothing; any other driver error passes through unchanged. */
    method CreateCompany(c: CompanyState, fault: Option<Error>) returns (err: Option<Error>)
      requires Valid()
      modifies this`companies
      ensures Valid()
      ensures fault.Some? ==> err == Some(MapUniqueViolation(fault.value))
      ensures fault.None? ==>
        (err.None? <==> c.id !in old(companies) && !NameTakenByOther(old(companies), c.name, c.id))
      ensures fault.None? && err.Some? ==> err.value == Sentinel(CompanyNameAlreadyExists)
      ensures err.None? ==> companies == old(companies)[c.id := RowOf(c)]
      ensures err.Some? ==> companies == old(companies)
    {
      var dbErr: Option<Error> := fault;
      if dbErr.None? && (c.id in companies || NameTakenByOther(companies, c.name, c.id)) {
        dbErr := Some(PgError(UniqueViolation));
      }
      if dbErr.Some? {
        return Some(MapUniqueViolation(dbErr.value));
      }
      WriteKeepsValid(companies, c);
      companies := companies[c.id := RowOf(c)];
      err := None;
    }

    /** `CompanyRepo.Update`: overwrites the mutable columns of the row with the
        company's id. No such row is `ErrCompanyNotFound`; a name held by another
        row is the name conflict; other rows are untouched. */
    method UpdateCompany(c: CompanyState, fault: Option<Error>) returns (err: Option<Error>)
      requires Valid()
      modifies this`companies
      ensures Valid()
      ensures fault.Some? ==> err == Some(MapUniqueViolation(fault.value))
      ensures fault.None? && c.id !in old(companies) ==> err == Some(Sentinel(CompanyNotFound))
      ensures fault.None? && c.id in old(companies) ==>
        (err.None? <==> !NameTakenByOther(old(companies), c.name, c.id))
      ensures fault.None? && c.id in old(companies) && err.Some? ==> err.value == Sentinel(CompanyNameAlreadyExists)
      ensures err.None? ==> c.id in old(companies) && companies == old(companies)[c.id := RowOf(c)]
      ensures err.Some? ==> companies == old(companies)
    {
      var dbErr: Option<Error> := fault;
      if dbErr.None? && c.id in companies && NameTakenByOther(companies, c.name, c.id) {
        dbErr := Some(PgError(UniqueViolation));
      }
      if dbErr.Some? {
        return Some(MapUniqueViolation(dbErr.value));
      }
      if c.id !in companies {
        return Some(Sentinel(CompanyNotFound));
      }
      WriteKeepsValid(companies, c);
      companies := companies[c.id := RowOf(c)];
      err := None;
    }

    /** `CompanyRepo.Delete`: removes exactly the row with that id, or reports
        `ErrCompanyNotFound` when there is none. Driver errors are not mapped. */
    method DeleteCompany(id: string, fault: Option<Error>) returns (err: Option<Error>)
      requires Valid()
      modifies this`companies
      ensures Valid()
      ensures fault.Some? ==> err == fault
      ensures fault.None? ==> (err.None? <==> id in old(companies))
      ensures fault.None? && err.Some? ==> err.value == Sentinel(CompanyNotFound)
      ensures err.None? ==> companies == old(companies) - {id}
      ensures err.Some? ==> companies == old(companies)
    {
      if fault.Some? {
        return fault;
      }
      if id !in companies {
        return Some(Sentinel(CompanyNotFound));
      }
      companies := companies - {id};
      err := None;
    }

    /** `CompanyRepo.GetByID`: a missing row is `ErrCompanyNotFound`; a stored row
        is converted by `ToEntity` into a new company object. */
    method GetCompany(id: string, fault: Option<Error>) returns (c: Company?, err: Option<Error>)
      ensures fault.Some? ==> err == fault
      ensures fault.None? && id !in companies ==> err == Some(Sentinel(CompanyNotFound))
      ensures fault.None? && id in companies && ToEntity(companies[id]).Failure? ==>
        err == Some(ToEntity(companies[id]).error)
      ensures err.None? <==> c != null
      ensures err.None? <==> fault.None? && id in companies && ToEntity(companies[id]).Success?
      ensures c != null ==> fresh(c) && c.State() == ToEntity(companies[id]).value
    {
      if fault.Some? {
        return null, fault;
      }
      if id !in companies {
        return null, Some(Sentinel(CompanyNotFound));
      }
      var entity := ToEntity(companies[id]);
      if entity.Failure? {
        return null, Some(entity.error);
      }
      c := new Company.FromState(entity.value);
      err := None;
    }

    /** `OutboxRepo.Publish`: appends exactly one record built from the event,
        unprocessed, under the next id. If the payload cannot be serialised or
        the insert fails, nothing is appended. */
    method Publish(e: Event, fault: Option<Error>) returns (err: Option<Error>)
      requires Valid()
      modifies this`outbox, this`nextId
      ensures Valid()
      ensures marshal(Payload(e)).Failure? ==> err == Some(marshal(Payload(e)).error)
      ensures marshal(Payload(e)).Success? ==> err == fault
      ensures err.None? ==>
        && outbox == old(outbox) + [NewRecord(old(nextId), e, marshal(Payload(e)).value)]
        && nextId == old(nextId) + 1
      ensures err.Some? ==> outbox == old(outbox) && nextId == old(nextId)
    {
      var payload := marshal(Payload(e));
      if payload.Failure? {
        return Some(payload.error);
      }
      if fault.Some? {
        return fault;
      }
      var record := NewRecord(nextId, e, payload.value);
      AppendKeepsValid(outbox, nextId, record);
      outbox := outbox + [record];
      nextId := nextId + 1;
      err := None;
    }

    /** `OutboxRepo.MarkProcessed`: an empty list is a no-op that does not reach
        the database; otherwise exactly the listed ids that exist become
        processed at `now`, and unknown ids are ignored. */
    method MarkProcessed(ids: seq<int>, now: int, fault: Option<Error>) returns (err: Option<Error>)
      requires Valid()
      modifies this`outbox
      ensures Valid()
      ensures |ids| == 0 ==> err.None? && outbox == old(outbox)
      ensures |ids| > 0 ==> err == fault
      ensures |ids| > 0 && err.None? ==> outbox == Marked(old(outbox), ids, now)
      ensures err.Some? ==> outbox == old(outbox)
    {
      if |ids| == 0 {
        return None;
      }
      if fault.Some? {
        return fault;
      }
      MarkedKeepsValid(outbox, nextId, ids, now);
      outbox := Marked(outbox, ids, now);
      err := None;
    }

    /** `OutboxRepo.GetUnprocessed`: reads the claim of at most `limit`
        unprocessed rows, lowest ids first, skipping rows another transaction
        holds locked, and locks them until the open transaction ends. No row
        changes. */
    method GetUnprocessed(limit: int, lockedByOthers: set<int>, fault: Option<Error>)
      returns (events: seq<OutboxEvent>, err: Option<Error>)
      requires Valid()
      modifies this`locked
      ensures Valid()
      ensures limit < 0 ==> err == Some(PgError(InvalidRowCountInLimit))
      ensures limit >= 0 ==> err == fault
      ensures err.None? ==> events == Claim(outbox, limit, lockedByOthers)
      ensures err.Some? ==> events == []
      ensures snapshot.Some? && err.None? ==> locked == old(locked) + set e | e in events :: e.id
      ensures snapshot.None? || err.Some? ==> locked == old(locked)
    {
      events := [];
      if limit < 0 {
        return [], Some(PgError(InvalidRowCountInLimit));
      }
      if fault.Some? {
        return [], fault;
      }
      var rows := outbox;
      var i := 0;
      while i < |rows| && |events| < limit
        invariant 0 <= i <= |rows| && |events| <= limit
        invariant events + Claim(rows[i..], limit - |events|, lockedByOthers) == Claim(rows, limit, lockedByOthers)
      {
        assert rows[i..][1..] == rows[i + 1..];
        if Claimable(rows[i], lockedByOthers) {
          events := events + [EventOf(rows[i])];
        }
        i := i + 1;
      }
      if snapshot.Some? {
        locked := locked + set e | e in events :: e.id;
      }
      err := None;
    }
  }
}
