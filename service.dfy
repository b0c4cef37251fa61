/** The command service: each mutation validates first, outside any
    transaction, and then, in one unit of work, writes the company row and
    appends exactly one event to the outbox. Either both writes persist or
    neither does.

    `newId` stands for `uuid.New()` and `now` for the clock the event
    constructors read; a `Faults` value says which database calls fail. */
module Service {
  import opened Errors
  import opened Domain
  import opened Params
  import opened Events
  import opened CompanyTable
  import opened OutboxTable
  import opened Postgres

  /** The outcome of each database call of one command: `begin`, the company
      statement, the outbox insert, `rollback` and `commit`. */
  datatype Faults = Faults(
    begin: Option<Error>,
    write: Option<Error>,
    append: Option<Error>,
    rollback: Option<Error>,
    commit: Option<Error>)

  predicate NameUpdateOk(p: UpdateParams)
  {
    p.name.Some? ==> 1 <= |p.name.value| <= MaxNameLength
  }

  predicate DescriptionUpdateOk(p: UpdateParams)
  {
    p.description.Some? ==> |p.description.value| <= MaxDescriptionLength
  }

  predicate CountUpdateOk(p: UpdateParams)
  {
    p.employeesCount.Some? ==> p.employeesCount.value >= 1
  }

  predicate TypeUpdateOk(p: UpdateParams)
  {
    p.cType.Some? ==> p.cType.value in CompanyTypes
  }

  /** The outcome of `UpdateCompany`'s setters on a stored company: the present
      fields are applied in the order name, description, count, type,
      registered; the first invalid one aborts with its own, unwrapped,
      validation error. Absent fields and the id are kept. */
  function ApplyUpdate(c: CompanyState, p: UpdateParams): (r: Result<CompanyState>)
    ensures r.Success? <==> NameUpdateOk(p) && DescriptionUpdateOk(p) && CountUpdateOk(p) && TypeUpdateOk(p)
    ensures !NameUpdateOk(p) ==> r == Failure(Sentinel(InvalidCompanyNameLength))
    ensures NameUpdateOk(p) && !DescriptionUpdateOk(p) ==> r == Failure(Sentinel(InvalidCompanyDescriptionLength))
    ensures NameUpdateOk(p) && DescriptionUpdateOk(p) && !CountUpdateOk(p) ==>
      r == Failure(Sentinel(InvalidEmployeesCount))
    ensures NameUpdateOk(p) && DescriptionUpdateOk(p) && CountUpdateOk(p) && !TypeUpdateOk(p) ==>
      r == Failure(Sentinel(InvalidCompanyType))
    ensures r.Success? ==>
      && r.value.id == c.id
      && r.value.name == (if p.name.Some? then p.name.value else c.name)
      && r.value.description == (if p.description.Some? then p.description.value else c.description)
      && r.value.employeesCount == (if p.employeesCount.Some? then p.employeesCount.value else c.employeesCount)
      && r.value.cType == (if p.cType.Some? then p.cType.value else c.cType)
      && r.value.registered == (if p.registered.Some? then p.registered.value else c.registered)
    ensures r.Success? && ValidState(c) ==> ValidState(r.value)
    ensures r.Success? && IsEmpty(p) ==> r.value == c
  {
    var n := if p.name.Some? then NewCompanyName(p.name.value) else Success(c.name);
    if n.Failure? then Failure(n.error) else
    var d := if p.description.Some? then NewCompanyDescription(p.description.value) else Success(c.description);
    if d.Failure? then Failure(d.error) else
    var e := if p.employeesCount.Some? then NewEmployeesCount(p.employeesCount.value) else Success(c.employeesCount);
    if e.Failure? then Failure(e.error) else
    var t := if p.cType.Some? then NewCompanyType(p.cType.value) else Success(c.cType);
    if t.Failure? then Failure(t.error) else
    var reg := if p.registered.Some? then p.registered.value else c.registered;
    Success(CompanyState(c.id, n.value, d.value, e.value, reg, t.value))
  }

  /** An update that names no field keeps the stored company as it is. */
  lemma EmptyUpdateKeepsCompany(c: CompanyState, p: UpdateParams)
    requires IsEmpty(p)
    ensures ApplyUpdate(c, p) == Success(c)
  {
  }

  /** The outbox is `before` plus exactly the record `Publish` builds for `e` under `id`. */
  ghost predicate AppendedOne(db: Database, before: seq<OutboxRecord>, id: int, e: Event)
    reads db
  {
    db.marshal(Payload(e)).Success? && db.outbox == before + [NewRecord(id, e, db.marshal(Payload(e)).value)]
  }

  /** The setter calls of `CompanyService.UpdateCompany` on the fetched object:
      the object ends as `ApplyUpdate` of its old state, or the first invalid
      field's error is returned (the object is then discarded by the caller). */
  method ApplySetters(company: Company, params: UpdateParams) returns (err: Option<Error>)
    modifies company
    ensures err.None? <==> ApplyUpdate(old(company.State()), params).Success?
    ensures err.Some? ==> err.value == ApplyUpdate(old(company.State()), params).error
    ensures err.None? ==> company.State() == ApplyUpdate(old(company.State()), params).value
  {
    if params.name.Some? {
      err := company.SetName(params.name.value);
      if err.Some? {
        return err;
      }
    }
    if params.description.Some? {
      err := company.SetDescription(params.description.value);
      if err.Some? {
        return err;
      }
    }
    if params.employeesCount.Some? {
      err := company.SetEmployeesCount(params.employeesCount.value);
      if err.Some? {
        return err;
      }
    }
    if params.cType.Some? {
      err := company.SetType(params.cType.value);
      if err.Some? {
        return err;
      }
    }
    if params.registered.Some? {
      company.SetRegistered(params.registered.value);
    }
    err := None;
  }

  class CompanyService {
    const db: Database

    constructor (db: Database)
      ensures this.db == db
    {
      this.db := db;
    }

    /** `CompanyService.CreateCompany`. */
    method CreateCompany(params: CreateParams, newId: string, now: int, f: Faults)
      returns (c: Company?, err: Option<Error>)
      requires db.Valid() && db.snapshot.None?
      modifies db
      ensures db.Valid() && db.snapshot.None?
      // invalid input: the validation error, and no transaction is opened
      ensures NewCompany(newId, params.name, params.description, params.employeesCount, params.cType).Failure? ==>
        && err == Some(NewCompany(newId, params.name, params.description, params.employeesCount, params.cType).error)
        && db.Current() == old(db.Current())
      ensures err.None? <==> c != null
      ensures c != null ==>
        && fresh(c) && ValidState(c.State())
        && c.State() == CompanyState(newId, params.name, params.description, params.employeesCount,
                                     params.registered, params.cType)
      // success: the row and exactly one CompanyCreated record, together
      ensures c != null ==>
        && db.companies == old(db.companies)[newId := RowOf(c.State())]
        && AppendedOne(db, old(db.outbox), old(db.nextId), NewCompanyCreatedEvent(newId, params, now))
      // failure: neither
      ensures err.Some? ==> db.Current() == old(db.Current())
      // it succeeds exactly when the input is valid, the id and name are free,
      // the event serialises and no database call fails
      ensures err.None? <==>
        && NewCompany(newId, params.name, params.description, params.employeesCount, params.cType).Success?
        && f.begin.None? && f.write.None?
        && newId !in old(db.companies) && !NameTakenByOther(old(db.companies), params.name, newId)
        && db.marshal(Payload(NewCompanyCreatedEvent(newId, params, now))).Success?
        && f.append.None? && f.commit.None?
      // a clash on the name (or the id) is reported as the conflict
      ensures (&& NewCompany(newId, params.name, params.description, params.employeesCount, params.cType).Success?
               && f.begin.None? && f.write.None?
               && (newId in old(db.companies) || NameTakenByOther(old(db.companies), params.name, newId))) ==>
        err.Some? && Is(err.value, CompanyNameAlreadyExists) && db.Current() == old(db.Current())
      ensures c != null ==> db.nextId == old(db.nextId) + 1
      // after validation, each failing call's error is returned wrapped by its
      // context and composed by `TxManager.Do`, so its cause still matches
      ensures var v := NewCompany(newId, params.name, params.description, params.employeesCount, params.cType);
        v.Success? && f.begin.Some? ==> err == Some(Wrapped("begin tx", f.begin.value))
      ensures var v := NewCompany(newId, params.name, params.description, params.employeesCount, params.cType);
        v.Success? && f.begin.None? && f.write.Some? ==>
          && err == DoResult(Some(Wrapped("failed to create company", MapUniqueViolation(f.write.value))), f.rollback, f.commit)
          && err.Some? && (forall s :: Is(err.value, s) <==> Is(MapUniqueViolation(f.write.value), s))
      ensures var v := NewCompany(newId, params.name, params.description, params.employeesCount, params.cType);
        (&& v.Success? && f.begin.None? && f.write.None?
         && (newId in old(db.companies) || NameTakenByOther(old(db.companies), params.name, newId))) ==>
          err == DoResult(Some(Wrapped("failed to create company", Sentinel(CompanyNameAlreadyExists))), f.rollback, f.commit)
      ensures var v := NewCompany(newId, params.name, params.description, params.employeesCount, params.cType);
        var m := db.marshal(Payload(NewCompanyCreatedEvent(newId, params, now)));
        (&& v.Success? && f.begin.None? && f.write.None?
         && newId !in old(db.companies) && !NameTakenByOther(old(db.companies), params.name, newId)) ==>
          && (m.Failure? ==> err == DoResult(Some(Wrapped("failed to publish company created event", m.error)), f.rollback, f.commit))
          && (m.Success? && f.append.Some? ==>
                err == DoResult(Some(Wrapped("failed to publish company created event", f.append.value)), f.rollback, f.commit))
          && (m.Success? && f.append.None? ==> err == WrapIf("commit tx", f.commit))
    {
      var v := NewCompany(newId, params.name, params.description, params.employeesCount, params.cType);
      if v.Failure? {
        return null, Some(v.error);
      }
      var company := new Company.FromState(v.value);
      if params.registered {
        company.Register();
      }
      err := db.Begin(f.begin);
      if err.Some? {
        return null, err;
      }
      var work := db.CreateCompany(company.State(), f.write);
      if work.Some? {
        work := Some(Wrapped("failed to create company", work.value));
      } else {
        work := db.Publish(NewCompanyCreatedEvent(company.id, params, now), f.append);
        work := WrapIf("failed to publish company created event", work);
      }
      err := db.End(work, f.rollback, f.commit);
      if err.Some? {
        return null, err;
      }
      c := company;
    }

    /** `CompanyService.UpdateCompany`: reads the company outside the transaction,
        applies the present fields through the setters, then writes the row and
        appends one CompanyUpdated record in one unit of work. */
    method UpdateCompany(id: string, params: UpdateParams, now: int, readFault: Option<Error>, f: Faults)
      returns (c: Company?, err: Option<Error>)
      requires db.Valid() && db.snapshot.None?
      modifies db
      ensures db.Valid() && db.snapshot.None?
      ensures err.None? <==> c != null
      // the read fails: the error wrapped, still recognisable as not-found
      ensures readFault.None? && id !in old(db.companies) ==>
        err.Some? && Is(err.value, CompanyNotFound) && db.Current() == old(db.Current())
      // an invalid field: its validation error unwrapped, before any write
      ensures (&& readFault.None? && id in old(db.companies) && ToEntity(old(db.companies)[id]).Success?
               && ApplyUpdate(ToEntity(old(db.companies)[id]).value, params).Failure?) ==>
        && err == Some(ApplyUpdate(ToEntity(old(db.companies)[id]).value, params).error)
        && db.Current() == old(db.Current())
      // success: the updated row and exactly one CompanyUpdated record, together
      ensures c != null ==>
        && fresh(c)
        && id in old(db.companies) && ToEntity(old(db.companies)[id]).Success?
        && ApplyUpdate(ToEntity(old(db.companies)[id]).value, params) == Success(c.State())
        && db.companies == old(db.companies)[id := RowOf(c.State())]
        && AppendedOne(db, old(db.outbox), old(db.nextId), NewCompanyUpdatedEvent(id, params, now))
      ensures err.Some? ==> db.Current() == old(db.Current())
      // it succeeds exactly when the row reads back, the fields are valid, the
      // new name is free, the event serialises and no database call fails
      ensures err.None? <==>
        && readFault.None? && id in old(db.companies) && ToEntity(old(db.companies)[id]).Success?
        && ApplyUpdate(ToEntity(old(db.companies)[id]).value, params).Success?
        && f.begin.None? && f.write.None?
        && !NameTakenByOther(old(db.companies), ApplyUpdate(ToEntity(old(db.companies)[id]).value, params).value.name, id)
        && db.marshal(Payload(NewCompanyUpdatedEvent(id, params, now))).Success?
        && f.append.None? && f.commit.None?
      ensures c != null ==> db.nextId == old(db.nextId) + 1
      // the read's error, whatever it is, comes back wrapped
      ensures readFault.Some? ==> err == Some(Wrapped("failed to get company by ID", readFault.value))
      ensures readFault.None? && id !in old(db.companies) ==>
        err == Some(Wrapped("failed to get company by ID", Sentinel(CompanyNotFound)))
      ensures readFault.None? && id in old(db.companies) && ToEntity(old(db.companies)[id]).Failure? ==>
        err == Some(Wrapped("failed to get company by ID", ToEntity(old(db.companies)[id]).error))
      // after the setters, each failing call's error is returned wrapped by its
      // context and composed by `TxManager.Do`, so its cause still matches
      ensures (&& readFault.None? && id in old(db.companies) && ToEntity(old(db.companies)[id]).Success?
               && ApplyUpdate(ToEntity(old(db.companies)[id]).value, params).Success?) ==>
        var u := ApplyUpdate(ToEntity(old(db.companies)[id]).value, params).value;
        var m := db.marshal(Payload(NewCompanyUpdatedEvent(id, params, now)));
        && (f.begin.Some? ==> err == Some(Wrapped("begin tx", f.begin.value)))
        && (f.begin.None? && f.write.Some? ==>
              && err == DoResult(Some(Wrapped("failed to update company", MapUniqueViolation(f.write.value))), f.rollback, f.commit)
              && err.Some? && (forall s :: Is(err.value, s) <==> Is(MapUniqueViolation(f.write.value), s)))
        && (f.begin.None? && f.write.None? && NameTakenByOther(old(db.companies), u.name, id) ==>
              err == DoResult(Some(Wrapped("failed to update company", Sentinel(CompanyNameAlreadyExists))), f.rollback, f.commit))
        && (f.begin.None? && f.write.None? && !NameTakenByOther(old(db.companies), u.name, id) ==>
              && (m.Failure? ==> err == DoResult(Some(Wrapped("failed to publish company updated event", m.error)), f.rollback, f.commit))
              && (m.Success? && f.append.Some? ==>
                    err == DoResult(Some(Wrapped("failed to publish company updated event", f.append.value)), f.rollback, f.commit))
              && (m.Success? && f.append.None? ==> err == WrapIf("commit tx", f.commit)))
    {
      var company, getErr := db.GetCompany(id, readFault);
      if getErr.Some? {
        return null, Some(Wrapped("failed to get company by ID", getErr.value));
      }
      err := ApplySetters(company, params);
      if err.Some? {
        return null, err;
      }
      err := db.Begin(f.begin);
      if err.Some? {
        return null, err;
      }
      var work := db.UpdateCompany(company.State(), f.write);
      if work.Some? {
        work := Some(Wrapped("failed to update company", work.value));
      } else {
        work := db.Publish(NewCompanyUpdatedEvent(company.id, params, now), f.append);
        work := WrapIf("failed to publish company updated event", work);
      }
      err := db.End(work, f.rollback, f.commit);
      if err.Some? {
        return null, err;
      }
      c := company;
    }

    /** `CompanyService.GetByID`: the repository's answer, its error wrapped. */
    method GetByID(id: string, fault: Option<Error>) returns (c: Company?, err: Option<Error>)
      ensures err.None? <==> c != null
      ensures err.None? <==> fault.None? && id in db.companies && ToEntity(db.companies[id]).Success?
      // every repository error comes back wrapped
      ensures fault.Some? ==> err == Some(Wrapped("failed to get company by ID", fault.value))
      ensures fault.None? && id !in db.companies ==>
        err == Some(Wrapped("failed to get company by ID", Sentinel(CompanyNotFound)))
      ensures fault.None? && id in db.companies && ToEntity(db.companies[id]).Failure? ==>
        err == Some(Wrapped("failed to get company by ID", ToEntity(db.companies[id]).error))
      ensures c != null ==> fresh(c) && id in db.companies && ToEntity(db.companies[id]) == Success(c.State())
    {
      c, err := db.GetCompany(id, fault);
      if err.Some? {
        return null, Some(Wrapped("failed to get company by ID", err.value));
      }
    }

    /** `CompanyService.DeleteCompany`: removes the row and appends one
        CompanyDeleted record in one unit of work. */
    method DeleteCompany(id: string, now: int, f: Faults) returns (err: Option<Error>)
      requires db.Valid() && db.snapshot.None?
      modifies db
      ensures db.Valid() && db.snapshot.None?
      ensures err.None? ==>
        && id in old(db.companies)
        && db.companies == old(db.companies) - {id}
        && AppendedOne(db, old(db.outbox), old(db.nextId), NewCompanyDeletedEvent(id, now))
      ensures err.Some? ==> db.Current() == old(db.Current())
      ensures f.begin.None? && f.write.None? && id !in old(db.companies) ==>
        err.Some? && Is(err.value, CompanyNotFound)
      // it succeeds exactly when the row exists, the event serialises and no
      // database call fails
      ensures err.None? <==>
        && f.begin.None? && f.write.None? && id in old(db.companies)
        && db.marshal(Payload(NewCompanyDeletedEvent(id, now))).Success?
        && f.append.None? && f.commit.None?
      ensures err.None? ==> db.nextId == old(db.nextId) + 1
      // each failing call's error is returned wrapped by its context and
      // composed by `TxManager.Do`, so its cause still matches
      ensures f.begin.Some? ==> err == Some(Wrapped("begin tx", f.begin.value))
      ensures f.begin.None? && f.write.Some? ==>
        && err == DoResult(Some(Wrapped("failed to delete company", f.write.value)), f.rollback, f.commit)
        && err.Some? && (forall s :: Is(err.value, s) <==> Is(f.write.value, s))
      ensures f.begin.None? && f.write.None? && id !in old(db.companies) ==>
        err == DoResult(Some(Wrapped("failed to delete company", Sentinel(CompanyNotFound))), f.rollback, f.commit)
      ensures f.begin.None? && f.write.None? && id in old(db.companies) ==>
        var m := db.marshal(Payload(NewCompanyDeletedEvent(id, now)));
        && (m.Failure? ==> err == DoResult(Some(Wrapped("failed to publish company deleted event", m.error)), f.rollback, f.commit))
        && (m.Success? && f.append.Some? ==>
              err == DoResult(Some(Wrapped("failed to publish company deleted event", f.append.value)), f.rollback, f.commit))
        && (m.Success? && f.append.None? ==> err == WrapIf("commit tx", f.commit))
    {
      err := db.Begin(f.begin);
      if err.Some? {
        return err;
      }
      var work := db.DeleteCompany(id, f.write);
      if work.Some? {
        work := Some(Wrapped("failed to delete company", work.value));
      } else {
        work := db.Publish(NewCompanyDeletedEvent(id, now), f.append);
        work := WrapIf("failed to publish company deleted event", work);
      }
      err := db.End(work, f.rollback, f.commit);
    }
  }
}
