/** The `companies` table as values: the row the repository writes for a
    company (`CompanyRowDto`), its conversion back into a company (`ToEntity`),
    the table's integrity (ids are keys, names are unique) and the mapping of a
    unique violation to the domain's conflict error. */
module CompanyTable {
  import opened Errors
  import opened Domain

  datatype Row = Row(
    id: string,
    name: string,
    description: string,
    employeesCount: int,
    registered: bool,
    typeCode: int16)

  /** The columns `Create` and `Update` write for a company; the type is stored as its code. */
  function RowOf(c: CompanyState): Row
  {
    Row(c.id, c.name, c.description, c.employeesCount, c.registered, TypeCode(c.cType))
  }

  /** `CompanyRowDto.ToEntity`: an unknown type code is rejected unwrapped; every
      other field is re-validated by `NewCompany`, whose failure is wrapped; the
      registered flag is then restored. */
  function ToEntity(r: Row): (res: Result<CompanyState>)
    ensures !(1 <= r.typeCode <= 4) ==> res == Failure(Sentinel(InvalidCompanyType))
    ensures 1 <= r.typeCode <= 4 ==>
      var v := NewCompany(r.id, r.name, r.description, r.employeesCount, TypeFromCode(r.typeCode).value);
      && (res.Failure? <==> v.Failure?)
      && (v.Failure? ==> res == Failure(Wrapped("invalid data from database", v.error)))
    ensures res.Success? <==>
      1 <= r.typeCode <= 4 && 1 <= |r.name| <= MaxNameLength
      && |r.description| <= MaxDescriptionLength && r.employeesCount >= 1
    ensures res.Success? ==> ValidState(res.value) && RowOf(res.value) == r
  {
    var t := TypeFromCode(r.typeCode);
    if t.Failure? then Failure(t.error) else
    var c := NewCompany(r.id, r.name, r.description, r.employeesCount, t.value);
    if c.Failure? then Failure(Wrapped("invalid data from database", c.error)) else
    if r.registered then
      Success(c.value.(registered := true))
    else
      Success(c.value)
  }

  /** Storing a valid company and reading it back gives the same company,
      registered flag included. */
  lemma RowRoundTrip(c: CompanyState)
    requires ValidState(c)
    ensures ToEntity(RowOf(c)) == Success(c)
  {
  }

  /** A stored row whose name is out of range is rejected with the name's own
      sentinel still visible through the wrapping. */
  lemma InvalidStoredNameRecognised(r: Row)
    requires 1 <= r.typeCode <= 4 && !(1 <= |r.name| <= MaxNameLength)
    ensures ToEntity(r).Failure? && Is(ToEntity(r).error, InvalidCompanyNameLength)
  {
  }

  /** Rows are keyed by their id, and no two rows share a name (the unique
      constraint whose violation the repository maps to a conflict). */
  ghost predicate CompaniesValid(m: map<string, Row>)
  {
    && (forall id :: id in m ==> m[id].id == id)
    && (forall a, b :: a in m && b in m && a != b ==> m[a].name != m[b].name)
  }

  /** Some row other than `self` already holds `name`. */
  predicate NameTakenByOther(m: map<string, Row>, name: string, self: string)
  {
    exists k :: k in m && k != self && m[k].name == name
  }

  /** The repository's error mapping: a unique violation anywhere on the `%w`
      chain becomes `ErrCompanyNameAlreadyExists`; every other error passes
      through unchanged. */
  function MapUniqueViolation(e: Error): (r: Error)
    ensures PgCode(e) == Some(UniqueViolation) ==> r == Sentinel(CompanyNameAlreadyExists)
    ensures PgCode(e) != Some(UniqueViolation) ==> r == e
  {
    if PgCode(e) == Some(UniqueViolation) then Sentinel(CompanyNameAlreadyExists) else e
  }

  /** Writing the row of a company whose name no other row holds (an insert
      or an overwrite of the same id) keeps the table valid. */
  lemma WriteKeepsValid(m: map<string, Row>, c: CompanyState)
    requires CompaniesValid(m)
    requires !NameTakenByOther(m, c.name, c.id)
    ensures CompaniesValid(m[c.id := RowOf(c)])
  {
  }
}
