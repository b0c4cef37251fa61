/** The inputs of the create and update commands. An update names only the
    fields it changes: an absent field is `None`, which is not the same as a
    present empty or false value. */
module Params {
  import opened Errors

  datatype CreateParams = CreateParams(
    name: string,
    description: string,
    employeesCount: int,
    registered: bool,
    cType: string)

  datatype UpdateParams = UpdateParams(
    name: Option<string>,
    description: Option<string>,
    employeesCount: Option<int>,
    registered: Option<bool>,
    cType: Option<string>)

  /** `UpdateParams.IsEmpty`: no field is present. */
  predicate IsEmpty(p: UpdateParams)
  {
    p.name.None? && p.description.None? && p.employeesCount.None? && p.registered.None? && p.cType.None?
  }

  /** The zero value `UpdateParams{}` is the only empty update, and any present
      field, whatever its value (an empty name, `registered = false`), makes an
      update non-empty. */
  lemma EmptyIsZeroValue(p: UpdateParams)
    ensures IsEmpty(p) <==> p == UpdateParams(None, None, None, None, None)
    ensures p.name == Some("") || p.registered == Some(false) || p.employeesCount == Some(0) ==> !IsEmpty(p)
  {
  }
}
