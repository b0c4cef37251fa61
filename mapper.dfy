/** The translations between the HTTP API's request and response bodies and
    the domain's parameters and companies. */
module Mapper {
  import opened Errors
  import opened Domain
  import opened Params

  /** `oapi.Company`: the description is omitted when it is empty. */
  datatype CompanyResponse = CompanyResponse(
    id: string,
    name: string,
    description: Option<string>,
    employeesCount: int,
    registered: bool,
    cType: string)

  /** `oapi.CreateCompanyRequest`: only the description is optional. */
  datatype CreateCompanyRequest = CreateCompanyRequest(
    name: string,
    description: Option<string>,
    employeesCount: int,
    registered: bool,
    cType: string)

  /** `oapi.UpdateCompanyRequest`: every field is optional. */
  datatype UpdateCompanyRequest = UpdateCompanyRequest(
    name: Option<string>,
    description: Option<string>,
    employeesCount: Option<int>,
    registered: Option<bool>,
    cType: Option<string>)

  /** `CompanyToResponse`. */
  function CompanyToResponse(c: CompanyState): (r: CompanyResponse)
    ensures r.id == c.id && r.name == c.name && r.employeesCount == c.employeesCount
    ensures r.registered == c.registered && r.cType == c.cType
    ensures r.description.Some? <==> |c.description| > 0
    ensures r.description.Some? ==> r.description.value == c.description
  {
    CompanyResponse(c.id, c.name, if |c.description| > 0 then Some(c.description) else None,
                    c.employeesCount, c.registered, c.cType)
  }

  /** How a client reads a company back from a response: an omitted description
      is the empty one. */
  function ResponseToState(r: CompanyResponse): CompanyState
  {
    CompanyState(r.id, r.name, if r.description.Some? then r.description.value else "",
                 r.employeesCount, r.registered, r.cType)
  }

  /** Omitting an empty description loses nothing: the response determines the company. */
  lemma ResponseRoundTrip(c: CompanyState)
    ensures ResponseToState(CompanyToResponse(c)) == c
  {
  }

  /** `CreateRequestToParams`. */
  function CreateRequestToParams(req: CreateCompanyRequest): (p: CreateParams)
    ensures p.name == req.name && p.employeesCount == req.employeesCount
    ensures p.registered == req.registered && p.cType == req.cType
    ensures p.description == (if req.description.Some? then req.description.value else "")
  {
    CreateParams(req.name, if req.description.Some? then req.description.value else "",
                 req.employeesCount, req.registered, req.cType)
  }

  /** `UpdateRequestToParams`: each field is present in the parameters exactly
      when it is present in the request, with the same value. */
  function UpdateRequestToParams(req: UpdateCompanyRequest): (p: UpdateParams)
    ensures p.name == req.name && p.description == req.description
    ensures p.employeesCount == req.employeesCount && p.registered == req.registered
    ensures p.cType == req.cType
  {
    UpdateParams(req.name, req.description, req.employeesCount, req.registered, req.cType)
  }

  /** A request names no field exactly when the parameters it becomes are empty. */
  lemma EmptyUpdateRequest(req: UpdateCompanyRequest)
    ensures IsEmpty(UpdateRequestToParams(req)) <==> req == UpdateCompanyRequest(None, None, None, None, None)
  {
  }

  /** A company created from a valid request is answered with the request's own
      fields; a present but empty description is answered as omitted. */
  lemma CreateEchoesRequest(req: CreateCompanyRequest, id: string)
    requires NewCompany(id, req.name, CreateRequestToParams(req).description, req.employeesCount, req.cType).Success?
    ensures var p := CreateRequestToParams(req);
      var r := CompanyToResponse(CompanyState(id, p.name, p.description, p.employeesCount, p.registered, p.cType));
      && r == CompanyResponse(id, req.name, if req.description == Some("") then None else req.description,
                              req.employeesCount, req.registered, req.cType)
  {
  }
}
