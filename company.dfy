/** The company aggregate: validating constructors of its value objects, the
    company type and its int16 storage code, and the `Company` object whose
    setters update it in place. Strings are sequences of runes, so `|s|` is
    `utf8.RuneCountInString(s)`. */
module Domain {
  import opened Errors

  newtype int16 = x: int | -0x8000 <= x < 0x8000

  type CompanyType = string

  const Corporations: CompanyType := "Corporations"
  const NonProfit: CompanyType := "NonProfit"
  const Cooperative: CompanyType := "Cooperative"
  const SoleProprietorship: CompanyType := "Sole Proprietorship"

  /** The four accepted company types. */
  const CompanyTypes: set<CompanyType> := {Corporations, NonProfit, Cooperative, SoleProprietorship}

  const MaxNameLength: nat := 15
  const MaxDescriptionLength: nat := 3000

  /** `CompanyType.Int`: the storage code of a type, 0 for anything unknown. */
  function TypeCode(t: CompanyType): (r: int16)
    ensures t in CompanyTypes <==> 1 <= r <= 4
    ensures t !in CompanyTypes <==> r == 0
  {
    if t == Corporations then 1
    else if t == NonProfit then 2
    else if t == Cooperative then 3
    else if t == SoleProprietorship then 4
    else 0
  }

  /** `CompanyTypeFromInt`: decodes a storage code. */
  function TypeFromCode(i: int16): (r: Result<CompanyType>)
    ensures r.Success? <==> 1 <= i <= 4
    ensures r.Success? ==> r.value in CompanyTypes && TypeCode(r.value) == i
    ensures r.Failure? ==> r.error == Sentinel(InvalidCompanyType)
  {
    match i
    case 1 => Success(Corporations)
    case 2 => Success(NonProfit)
    case 3 => Success(Cooperative)
    case 4 => Success(SoleProprietorship)
    case _ => Failure(Sentinel(InvalidCompanyType))
  }

  /** Decoding the code of a valid type gives the type back. */
  lemma TypeCodeRoundTrip(t: CompanyType)
    requires t in CompanyTypes
    ensures TypeFromCode(TypeCode(t)) == Success(t)
  {
  }

  /** Two distinct valid types are stored under distinct codes. */
  lemma TypeCodeInjective(t: CompanyType, u: CompanyType)
    requires t in CompanyTypes && u in CompanyTypes && TypeCode(t) == TypeCode(u)
    ensures t == u
  {
  }

  /** `NewCompanyType`: accepts exactly the four type names, unchanged. */
  function NewCompanyType(s: string): (r: Result<CompanyType>)
    ensures r.Success? <==> s in CompanyTypes
    ensures r.Success? ==> r.value == s
    ensures r.Failure? ==> r.error == Sentinel(InvalidCompanyType)
  {
    if s in CompanyTypes then Success(s) else Failure(Sentinel(InvalidCompanyType))
  }

  /** `NewCompanyName`: one to fifteen runes, kept as given. */
  function NewCompanyName(name: string): (r: Result<string>)
    ensures r.Success? <==> 1 <= |name| <= MaxNameLength
    ensures r.Success? ==> r.value == name
    ensures r.Failure? ==> r.error == Sentinel(InvalidCompanyNameLength)
  {
    if |name| == 0 || |name| > MaxNameLength then Failure(Sentinel(InvalidCompanyNameLength))
    else Success(name)
  }

  /** `NewCompanyDescription`: at most 3000 runes; the empty description is valid. */
  function NewCompanyDescription(description: string): (r: Result<string>)
    ensures r.Success? <==> |description| <= MaxDescriptionLength
    ensures r.Success? ==> r.value == description
    ensures r.Failure? ==> r.error == Sentinel(InvalidCompanyDescriptionLength)
  {
    if |description| > MaxDescriptionLength then Failure(Sentinel(InvalidCompanyDescriptionLength))
    else Success(description)
  }

  /** `NewEmployeesCount`: at least one employee. */
  function NewEmployeesCount(count: int): (r: Result<int>)
    ensures r.Success? <==> count >= 1
    ensures r.Success? ==> r.value == count
    ensures r.Failure? ==> r.error == Sentinel(InvalidEmployeesCount)
  {
    if count < 1 then Failure(Sentinel(InvalidEmployeesCount)) else Success(count)
  }

  /** The value of a company: what the repository stores and the service returns. */
  datatype CompanyState = CompanyState(
    id: string,
    name: string,
    description: string,
    employeesCount: int,
    registered: bool,
    cType: CompanyType)

  /** Every field passes its validating constructor. */
  predicate ValidState(c: CompanyState)
  {
    && 1 <= |c.name| <= MaxNameLength
    && |c.description| <= MaxDescriptionLength
    && c.employeesCount >= 1
    && c.cType in CompanyTypes
  }

  /** `NewCompany`: validates name, description, count and type in that order,
      reports the first failure wrapped with its field, and otherwise builds an
      unregistered company from exactly the inputs. */
  function NewCompany(id: string, name: string, description: string, employeesCount: int, companyType: string)
    : (r: Result<CompanyState>)
    ensures r.Success? <==> ValidState(CompanyState(id, name, description, employeesCount, false, companyType))
    ensures r.Success? ==> r.value == CompanyState(id, name, description, employeesCount, false, companyType)
    ensures !(1 <= |name| <= MaxNameLength) ==>
      r == Failure(Wrapped("error creating company name", Sentinel(InvalidCompanyNameLength)))
    ensures 1 <= |name| <= MaxNameLength && |description| > MaxDescriptionLength ==>
      r == Failure(Wrapped("error creating company description", Sentinel(InvalidCompanyDescriptionLength)))
    ensures 1 <= |name| <= MaxNameLength && |description| <= MaxDescriptionLength && employeesCount < 1 ==>
      r == Failure(Wrapped("error creating employees count", Sentinel(InvalidEmployeesCount)))
    ensures 1 <= |name| <= MaxNameLength && |description| <= MaxDescriptionLength && employeesCount >= 1
            && companyType !in CompanyTypes ==>
      r == Failure(Wrapped("error creating company type", Sentinel(InvalidCompanyType)))
  {
    var n := NewCompanyName(name);
    if n.Failure? then Failure(Wrapped("error creating company name", n.error)) else
    var d := NewCompanyDescription(description);
    if d.Failure? then Failure(Wrapped("error creating company description", d.error)) else
    var e := NewEmployeesCount(employeesCount);
    if e.Failure? then Failure(Wrapped("error creating employees count", e.error)) else
    var t := NewCompanyType(companyType);
    if t.Failure? then Failure(Wrapped("error creating company type", t.error)) else
    Success(CompanyState(id, n.value, d.value, e.value, false, t.value))
  }

  /** The `*Company` object. Its identity is fixed at creation; the setters
      change one field each, and only when the new value is valid. */
  class Company {
    const id: string
    var name: string
    var description: string
    var employeesCount: int
    var registered: bool
    var cType: CompanyType

    function State(): CompanyState
      reads this
    {
      CompanyState(id, name, description, employeesCount, registered, cType)
    }

    /** Materialises a company value as an object (the `&Company{…}` literal). */
    constructor FromState(s: CompanyState)
      ensures State() == s
    {
      id := s.id;
      name := s.name;
      description := s.description;
      employeesCount := s.employeesCount;
      registered := s.registered;
      cType := s.cType;
    }

    method Register()
      modifies this
      ensures State() == old(State()).(registered := true)
    {
      registered := true;
    }

    method SetRegistered(r: bool)
      modifies this
      ensures State() == old(State()).(registered := r)
    {
      registered := r;
    }

    method SetName(newName: string) returns (err: Option<Error>)
      modifies this
      ensures err.None? <==> 1 <= |newName| <= MaxNameLength
      ensures err.Some? ==> err.value == Sentinel(InvalidCompanyNameLength) && State() == old(State())
      ensures err.None? ==> State() == old(State()).(name := newName)
      ensures ValidState(old(State())) ==> ValidState(State())
    {
      var n := NewCompanyName(newName);
      if n.Failure? {
        return Some(n.error);
      }
      name := n.value;
      err := None;
    }

    method SetDescription(desc: string) returns (err: Option<Error>)
      modifies this
      ensures err.None? <==> |desc| <= MaxDescriptionLength
      ensures err.Some? ==> err.value == Sentinel(InvalidCompanyDescriptionLength) && State() == old(State())
      ensures err.None? ==> State() == old(State()).(description := desc)
      ensures ValidState(old(State())) ==> ValidState(State())
    {
      var d := NewCompanyDescription(desc);
      if d.Failure? {
        return Some(d.error);
      }
      description := d.value;
      err := None;
    }

    method SetEmployeesCount(count: int) returns (err: Option<Error>)
      modifies this
      ensures err.None? <==> count >= 1
      ensures err.Some? ==> err.value == Sentinel(InvalidEmployeesCount) && State() == old(State())
      ensures err.None? ==> State() == old(State()).(employeesCount := count)
      ensures ValidState(old(State())) ==> ValidState(State())
    {
      var e := NewEmployeesCount(count);
      if e.Failure? {
        return Some(e.error);
      }
      employeesCount := e.value;
      err := None;
    }

    method SetType(t: string) returns (err: Option<Error>)
      modifies this
      ensures err.None? <==> t in CompanyTypes
      ensures err.Some? ==> err.value == Sentinel(InvalidCompanyType) && State() == old(State())
      ensures err.None? ==> State() == old(State()).(cType := t)
      ensures ValidState(old(State())) ==> ValidState(State())
    {
      var ct := NewCompanyType(t);
      if ct.Failure? {
        return Some(ct.error);
      }
      cType := ct.value;
      err := None;
    }
  }
}
