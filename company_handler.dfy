/** The status-code decisions of the company endpoints. Each handler is a
    chain of checks on the path id, the decoded body and the service's answer;
    the service is a function parameter, so a reply that does not depend on it
    was decided before the service was called. Writing the response is not
    part of this model. */
module HttpStatus {
  const OK: int := 200
  const Created: int := 201
  const NoContent: int := 204
  const BadRequest: int := 400
  const Unauthorized: int := 401
  const NotFound: int := 404
  const Conflict: int := 409
  const InternalServerError: int := 500
}

module CompanyHandler {
  import opened Errors
  import opened Domain
  import opened Params
  import opened Mapper
  import opened HttpStatus

  /** A status with the company body, when the endpoint sends one. */
  datatype Reply = Reply(status: int, body: Option<CompanyResponse>)

  /** The four validation sentinels the create and update handlers answer with 400. */
  predicate IsValidation(e: Error)
  {
    || Is(e, InvalidCompanyNameLength)
    || Is(e, InvalidCompanyDescriptionLength)
    || Is(e, InvalidEmployeesCount)
    || Is(e, InvalidCompanyType)
  }

  /** The error chain shared by `GetCompany` and `DeleteCompany`. */
  function NotFoundOrInternal(e: Error): (status: int)
    ensures status == NotFound <==> Is(e, CompanyNotFound)
    ensures status == InternalServerError <==> !Is(e, CompanyNotFound)
  {
    if Is(e, CompanyNotFound) then NotFound else InternalServerError
  }

  /** `CompanyHandler.GetCompany`. */
  function GetCompany(idValid: bool, id: string, getByID: string -> Result<CompanyState>): (r: Reply)
    ensures !idValid ==> r == Reply(BadRequest, None)
    ensures idValid && getByID(id).Success? ==> r == Reply(OK, Some(CompanyToResponse(getByID(id).value)))
    ensures idValid && getByID(id).Failure? ==>
      r.body.None? && (r.status == NotFound <==> Is(getByID(id).error, CompanyNotFound))
    ensures r.status in {OK, BadRequest, NotFound, InternalServerError}
  {
    if !idValid then Reply(BadRequest, None)
    else
      var result := getByID(id);
      if result.Failure? then Reply(NotFoundOrInternal(result.error), None)
      else Reply(OK, Some(CompanyToResponse(result.value)))
  }

  /** The error chain of `CreateCompany`: the conflict is tested before validation. */
  function CreateErrorStatus(e: Error): (status: int)
    ensures status == Conflict <==> Is(e, CompanyNameAlreadyExists)
    ensures status == BadRequest <==> !Is(e, CompanyNameAlreadyExists) && IsValidation(e)
    ensures status == InternalServerError <==> !Is(e, CompanyNameAlreadyExists) && !IsValidation(e)
  {
    if Is(e, CompanyNameAlreadyExists) then Conflict
    else if IsValidation(e) then BadRequest
    else InternalServerError
  }

  /** `CompanyHandler.CreateCompany`; `body` is `None` when it does not decode. */
  function CreateCompany(body: Option<CreateCompanyRequest>, create: CreateParams -> Result<CompanyState>)
    : (r: Reply)
    ensures body.None? ==> r == Reply(BadRequest, None)
    ensures body.Some? && create(CreateRequestToParams(body.value)).Success? ==>
      r == Reply(Created, Some(CompanyToResponse(create(CreateRequestToParams(body.value)).value)))
    ensures body.Some? && create(CreateRequestToParams(body.value)).Failure? ==>
      r == Reply(CreateErrorStatus(create(CreateRequestToParams(body.value)).error), None)
  {
    if body.None? then Reply(BadRequest, None)
    else
      var result := create(CreateRequestToParams(body.value));
      if result.Failure? then Reply(CreateErrorStatus(result.error), None)
      else Reply(Created, Some(CompanyToResponse(result.value)))
  }

  /** The error chain of `UpdateCompany`: not-found, then conflict, then validation. */
  function UpdateErrorStatus(e: Error): (status: int)
    ensures status == NotFound <==> Is(e, CompanyNotFound)
    ensures status == Conflict <==> !Is(e, CompanyNotFound) && Is(e, CompanyNameAlreadyExists)
    ensures status == BadRequest <==>
      !Is(e, CompanyNotFound) && !Is(e, CompanyNameAlreadyExists) && IsValidation(e)
    ensures status == InternalServerError <==>
      !Is(e, CompanyNotFound) && !Is(e, CompanyNameAlreadyExists) && !IsValidation(e)
  {
    if Is(e, CompanyNotFound) then
      NotFound
    else if Is(e, CompanyNameAlreadyExists) then
      Conflict
    else if IsValidation(e) then
      BadRequest
    else
      InternalServerError
  }

  /** `CompanyHandler.UpdateCompany`. */
  function UpdateCompany(idValid: bool, id: string, body: Option<UpdateCompanyRequest>,
                         update: (string, UpdateParams) -> Result<CompanyState>): (r: Reply)
    ensures !idValid || body.None? ==> r == Reply(BadRequest, None)
    ensures idValid && body.Some? && update(id, UpdateRequestToParams(body.value)).Success? ==>
      r == Reply(OK, Some(CompanyToResponse(update(id, UpdateRequestToParams(body.value)).value)))
    ensures idValid && body.Some? && update(id, UpdateRequestToParams(body.value)).Failure? ==>
      r == Reply(UpdateErrorStatus(update(id, UpdateRequestToParams(body.value)).error), None)
  {
    if !idValid || body.None? then Reply(BadRequest, None)
    else
      var result := update(id, UpdateRequestToParams(body.value));
      if result.Failure? then Reply(UpdateErrorStatus(result.error), None)
      else Reply(OK, Some(CompanyToResponse(result.value)))
  }

  /** `CompanyHandler.DeleteCompany`: 204 with no body on success. */
  function DeleteCompany(idValid: bool, id: string, delete: string -> Option<Error>): (r: Reply)
    ensures r.body.None?
    ensures !idValid ==> r.status == BadRequest
    ensures idValid && delete(id).None? ==> r.status == NoContent
    ensures idValid && delete(id).Some? ==> r.status == NotFoundOrInternal(delete(id).value)
  {
    if !idValid then Reply(BadRequest, None)
    else
      var result := delete(id);
      if result.Some? then Reply(NotFoundOrInternal(result.value), None)
      else Reply(NoContent, None)
  }

  /** The checks before the service call decide alone: a bad id or body gets the
      same reply whatever the service would have done. */
  lemma RejectedBeforeService(idValid: bool, id: string,
                              body: Option<UpdateCompanyRequest>,
                              update1: (string, UpdateParams) -> Result<CompanyState>,
                              update2: (string, UpdateParams) -> Result<CompanyState>,
                              get1: string -> Result<CompanyState>, get2: string -> Result<CompanyState>,
                              delete1: string -> Option<Error>, delete2: string -> Option<Error>)
    requires !idValid
    ensures UpdateCompany(idValid, id, body, update1) == UpdateCompany(idValid, id, body, update2)
    ensures GetCompany(idValid, id, get1) == GetCompany(idValid, id, get2)
    ensures DeleteCompany(idValid, id, delete1) == DeleteCompany(idValid, id, delete2)
  {
  }

  /** Because an error matches at most one sentinel, the order of the checks
      in the chains is immaterial: each answer is the one of the sentinel the
      error carries. `CreateCompany` has no not-found branch, so a not-found
      error there would be a 500. */
  lemma StatusOfSentinel(e: Error, s: Sentinel)
    requires Is(e, s)
    ensures s == CompanyNotFound ==> UpdateErrorStatus(e) == NotFound && CreateErrorStatus(e) == InternalServerError
    ensures s == CompanyNameAlreadyExists ==> UpdateErrorStatus(e) == Conflict && CreateErrorStatus(e) == Conflict
    ensures s in {InvalidCompanyNameLength, InvalidCompanyDescriptionLength, InvalidEmployeesCount, InvalidCompanyType}
      ==> UpdateErrorStatus(e) == BadRequest && CreateErrorStatus(e) == BadRequest
  {
  }

  /** An error the transaction manager returns after a failed rollback gets the
      same status as the work's own error. */
  lemma RollbackFailureKeepsStatus(rollback: Error, original: Error)
    ensures CreateErrorStatus(RollbackFailed(rollback, original)) == CreateErrorStatus(original)
    ensures UpdateErrorStatus(RollbackFailed(rollback, original)) == UpdateErrorStatus(original)
    ensures NotFoundOrInternal(RollbackFailed(rollback, original)) == NotFoundOrInternal(original)
  {
  }

  /** Invalid create input is answered with 400: the service's wrapped
      validation error is recognised through its wrapping. */
  lemma InvalidCreateIsBadRequest(req: CreateCompanyRequest, newId: string,
                                  create: CreateParams -> Result<CompanyState>)
    requires var p := CreateRequestToParams(req);
      var v := NewCompany(newId, p.name, p.description, p.employeesCount, p.cType);
      v.Failure? && create(p) == Failure(v.error)
    ensures CreateCompany(Some(req), create).status == BadRequest
  {
  }
}
