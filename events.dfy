/** The three immutable domain events of the company aggregate. Each carries
    the company id, its creation time in unix seconds (taken from the clock by
    the caller) and, for create and update, the command's parameters unchanged. */
module Events {
  import opened Params

  datatype Event =
    | CompanyCreatedEvent(companyId: string, created: int, createParams: CreateParams)
    | CompanyUpdatedEvent(companyId: string, created: int, updateParams: UpdateParams)
    | CompanyDeletedEvent(companyId: string, created: int)

  /** The structured value `Payload()` returns, before serialisation: `company_id`
      with the embedded parameters, or `company_id` alone for a deletion. */
  datatype EventPayload =
    | CreatedPayload(companyId: string, createParams: CreateParams)
    | UpdatedPayload(companyId: string, updateParams: UpdateParams)
    | DeletedPayload(companyId: string)

  const CompanyCreated: string := "CompanyCreated"
  const CompanyUpdated: string := "CompanyUpdated"
  const CompanyDeleted: string := "CompanyDeleted"

  /** Each kind of event has its own fixed name. */
  function EventName(e: Event): (r: string)
    ensures r == CompanyCreated <==> e.CompanyCreatedEvent?
    ensures r == CompanyUpdated <==> e.CompanyUpdatedEvent?
    ensures r == CompanyDeleted <==> e.CompanyDeletedEvent?
  {
    match e
    case CompanyCreatedEvent(_, _, _) => CompanyCreated
    case CompanyUpdatedEvent(_, _, _) => CompanyUpdated
    case CompanyDeletedEvent(_, _) => CompanyDeleted
  }

  function AggregateID(e: Event): string
  {
    e.companyId
  }

  function CreatedAt(e: Event): int
  {
    e.created
  }

  /** The payload names the same company as `AggregateID`, and carries the
      command's parameters as they were given. */
  function Payload(e: Event): (r: EventPayload)
    ensures r.companyId == AggregateID(e)
    ensures e.CompanyCreatedEvent? <==> r.CreatedPayload?
    ensures e.CompanyUpdatedEvent? <==> r.UpdatedPayload?
    ensures e.CompanyCreatedEvent? ==> r.createParams == e.createParams
    ensures e.CompanyUpdatedEvent? ==> r.updateParams == e.updateParams
  {
    match e
    case CompanyCreatedEvent(id, _, p) => CreatedPayload(id, p)
    case CompanyUpdatedEvent(id, _, p) => UpdatedPayload(id, p)
    case CompanyDeletedEvent(id, _) => DeletedPayload(id)
  }

  /** `NewCompanyCreatedEvent`, with `now` standing for `time.Now().Unix()`. */
  function NewCompanyCreatedEvent(companyId: string, params: CreateParams, now: int): (e: Event)
    ensures EventName(e) == CompanyCreated && AggregateID(e) == companyId && CreatedAt(e) == now
    ensures Payload(e) == CreatedPayload(companyId, params)
  {
    CompanyCreatedEvent(companyId, now, params)
  }

  /** `NewCompanyUpdatedEvent`: absent fields of the parameters stay absent in the payload. */
  function NewCompanyUpdatedEvent(companyId: string, params: UpdateParams, now: int): (e: Event)
    ensures EventName(e) == CompanyUpdated && AggregateID(e) == companyId && CreatedAt(e) == now
    ensures Payload(e) == UpdatedPayload(companyId, params)
  {
    CompanyUpdatedEvent(companyId, now, params)
  }

  /** `NewCompanyDeletedEvent`: the payload is the company id alone. */
  function NewCompanyDeletedEvent(companyId: string, now: int): (e: Event)
    ensures EventName(e) == CompanyDeleted && AggregateID(e) == companyId && CreatedAt(e) == now
    ensures Payload(e) == DeletedPayload(companyId)
  {
    CompanyDeletedEvent(companyId, now)
  }
}
