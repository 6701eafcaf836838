/** The service's error taxonomy: every exception carries a machine-readable
    kind, an HTTP status, a message, and optional parameter list, field,
    entity and reason; `to_error_detail` turns it into the wire form. */
module Errors {
  import opened Wrappers
  import opened Text

  datatype ErrorKind = InvalidParameters | UnsupportedField | NotFound | UnshareableData | InternalServerError {
    /** The `kind` string sent to clients. */
    function Name(): string {
      match this
      case InvalidParameters => "InvalidParameters"
      case UnsupportedField => "UnsupportedField"
      case NotFound => "NotFound"
      case UnshareableData => "UnshareableData"
      case InternalServerError => "InternalServerError"
    }
  }

  /** The status each kind is reported with: 422 for a request the caller got
      wrong, 404 for data that cannot be returned, 500 for a failure of the
      service itself. */
  function KindStatus(kind: ErrorKind): int {
    match kind
    case InvalidParameters => 422
    case UnsupportedField => 422
    case NotFound => 404
    case UnshareableData => 404
    case InternalServerError => 500
  }

  datatype CCDIException = CCDIException(
    message: string,
    kind: ErrorKind,
    statusCode: int,
    parameters: seq<string>,
    field: Option<string>,
    entity: Option<string>,
    reason: Option<string>)

  /** The status agrees with the kind. */
  predicate Conforms(e: CCDIException) {
    e.statusCode == KindStatus(e.kind)
  }

  datatype ErrorDetail = ErrorDetail(
    kind: string,
    message: string,
    parameters: Option<seq<string>>,
    field: Option<string>,
    entity: Option<string>,
    reason: Option<string>)

  /** What a call into the core ends with when it does not return a value. */
  datatype Fault =
    | Raised(exception: CCDIException)
      /** A repository's count refused its group-by field. */
    | UnsupportedGroupField(field: string)
      /** A repository's filter validation refused a filter key. */
    | UnsupportedFilterField(field: string)
      /** A result row held something other than a map where a node was expected. */
    | MalformedRow
      /** A response model refused the data it was built from. */
    | InvalidResponse

  /** `CCDIException.__init__`: a missing parameter list is stored as `[]`. */
  function NewCCDIException(
    message: string, kind: ErrorKind, statusCode: int, parameters: Option<seq<string>>,
    field: Option<string>, entity: Option<string>, reason: Option<string>): (e: CCDIException)
    ensures e.parameters == parameters.GetOr([])
    ensures e.message == message && e.kind == kind && e.statusCode == statusCode
    ensures e.field == field && e.entity == entity && e.reason == reason
  {
    CCDIException(message, kind, statusCode, if parameters.Some? then parameters.value else [],
                  field, entity, reason)
  }

  /** `to_error_detail`: everything is copied, except that an empty parameter
      list is sent as no list at all. */
  function ToErrorDetail(e: CCDIException): (d: ErrorDetail)
    ensures d.parameters.None? <==> e.parameters == []
    ensures d.parameters.Some? ==> d.parameters.value == e.parameters
    ensures d.kind == e.kind.Name() && d.message == e.message
    ensures d.field == e.field && d.entity == e.entity && d.reason == e.reason
  {
    ErrorDetail(e.kind.Name(), e.message, if e.parameters == [] then None else Some(e.parameters),
                e.field, e.entity, e.reason)
  }

  /** A parameter list given to an exception comes back out of its detail,
      except that an empty one comes back as none. */
  lemma DetailParameters(message: string, kind: ErrorKind, statusCode: int, parameters: Option<seq<string>>)
    ensures ToErrorDetail(NewCCDIException(message, kind, statusCode, parameters, None, None, None)).parameters
            == if parameters == Some([]) then None else parameters
  {
  }

  predicate MessageMissing(message: Option<string>) {
    message.None? || message.value == ""
  }

  /** `InvalidParametersError`: without a message of its own, the message names
      the parameters (plural past one) and the reason. */
  function InvalidParametersError(parameters: seq<string>, reason: string, message: Option<string>): (e: CCDIException)
    ensures e.kind == InvalidParameters && Conforms(e) && e.statusCode == 422
    ensures e.parameters == parameters && e.reason == Some(reason)
    ensures e.field == None && e.entity == None
    ensures !MessageMissing(message) ==> e.message == message.value
    ensures MessageMissing(message) && |parameters| == 1 ==>
              e.message == "Invalid value for parameter '" + parameters[0] + "': " + reason
    ensures MessageMissing(message) && |parameters| > 1 ==>
              e.message == "Invalid value for parameters '" + parameters[0] + "', '"
                           + Join(parameters[1..], "', '") + "': " + reason
  {
    var text := if !MessageMissing(message) then message.value
      else "Invalid value for parameter" + (if |parameters| > 1 then "s" else "") + " '"
           + Join(parameters, "', '") + "': " + reason;
    NewCCDIException(text, InvalidParameters, 422, Some(parameters), None, None, Some(reason))
  }

  /** `UnsupportedFieldError(field, entity_type)`. */
  function UnsupportedFieldError(field: string, entityType: string): (e: CCDIException)
    ensures e.kind == UnsupportedField && Conforms(e) && e.statusCode == 422
    ensures e.field == Some(field) && e.entity == None && e.parameters == []
    ensures e.reason == Some("This field is not present for " + Lower(entityType) + "s.")
    ensures e.message == "Field '" + field + "' is not supported: " + e.reason.value
  {
    var reason := "This field is not present for " + Lower(entityType) + "s.";
    NewCCDIException("Field '" + field + "' is not supported: " + reason, UnsupportedField, 422,
                     None, Some(field), None, Some(reason))
  }

  /** `ValidationError(message)`: an invalid-parameters error that names no parameter. */
  function ValidationError(message: string): (e: CCDIException)
    ensures e.kind == InvalidParameters && Conforms(e) && e.statusCode == 422
    ensures e.message == message && e.parameters == []
    ensures e.field == None && e.entity == None && e.reason == None
  {
    NewCCDIException(message, InvalidParameters, 422, None, None, None, None)
  }

  /** `NotFoundError(entity, message)`: by default "<entity> not found.". */
  function NotFoundError(entity: string, message: Option<string>): (e: CCDIException)
    ensures e.kind == NotFound && Conforms(e) && e.statusCode == 404
    ensures e.entity == Some(entity) && e.parameters == [] && e.field == None && e.reason == None
    ensures e.message == if MessageMissing(message) then entity + " not found." else message.value
  {
    var text := if MessageMissing(message) then entity + " not found." else message.value;
    NewCCDIException(text, NotFound, 404, None, None, Some(entity), None)
  }

  const DefaultUnshareableReason: string :=
    "Our agreement with data providers prohibits us from sharing line-level data."

  /** `UnshareableDataError(entity, reason)`. */
  function UnshareableDataError(entity: string, reason: string): (e: CCDIException)
    ensures e.kind == UnshareableData && Conforms(e) && e.statusCode == 404
    ensures e.entity == Some(entity) && e.reason == Some(reason) && e.parameters == [] && e.field == None
    ensures e.message == "Unable to share data for " + Lower(entity) + ": " + reason
  {
    NewCCDIException("Unable to share data for " + Lower(entity) + ": " + reason, UnshareableData, 404,
                     None, None, Some(entity), Some(reason))
  }

  const DefaultInternalMessage: string := "An internal error occurred."

  /** `InternalServerError(message, reason)`. */
  function InternalServerError(message: string, reason: Option<string>): (e: CCDIException)
    ensures e.kind == ErrorKind.InternalServerError && Conforms(e) && e.statusCode == 500
    ensures e.message == message && e.reason == reason
    ensures e.parameters == [] && e.field == None && e.entity == None
  {
    NewCCDIException(message, ErrorKind.InternalServerError, 500, None, None, None, reason)
  }

  const OffsetReason: string := "Unable to calculate offset."

  /** The parameters a pagination error names: each of `page` and `per_page`
      that is below 1, in that order, or both when neither is. */
  function PaginationErrorParameters(page: Option<int>, perPage: Option<int>): (ps: seq<string>)
    ensures var pageBad := page.Some? && page.value < 1;
            var perPageBad := perPage.Some? && perPage.value < 1;
            && ("page" in ps <==> pageBad || !perPageBad)
            && ("per_page" in ps <==> perPageBad || !pageBad)
    ensures 1 <= |ps| <= 2 && (|ps| == 2 ==> ps == ["page", "per_page"])
  {
    var pageBad := page.Some? && page.value < 1;
    var perPageBad := perPage.Some? && perPage.value < 1;
    if pageBad && perPageBad then ["page", "per_page"]
    else if pageBad then ["page"]
    else if perPageBad then ["per_page"]
    else ["page", "per_page"]
  }

  /** `create_pagination_error`: the parameter list is built by conditional appends. */
  method CreatePaginationError(page: Option<int>, perPage: Option<int>) returns (e: CCDIException)
    ensures e == InvalidParametersError(PaginationErrorParameters(page, perPage), OffsetReason, None)
  {
    var parameters: seq<string> := [];
    if page.Some? && page.value < 1 {
      parameters := parameters + ["page"];
    }
    if perPage.Some? && perPage.value < 1 {
      parameters := parameters + ["per_page"];
    }
    if parameters == [] {
      parameters := ["page", "per_page"];
    }
    e := InvalidParametersError(parameters, OffsetReason, None);
  }

  predicate Present(s: Option<string>) {
    s.Some? && s.value != ""
  }

  /** `create_entity_not_found_error`: names the namespace and name when
      organization, namespace and name are all non-empty, and the plural entity
      type otherwise. */
  function CreateEntityNotFoundError(entityType: string, organization: Option<string>,
                                     namespace: Option<string>, name: Option<string>): (e: CCDIException)
    ensures e.kind == NotFound && Conforms(e)
    ensures Present(organization) && Present(namespace) && Present(name) ==>
              e.entity == Some(entityType + " with namespace '" + namespace.value + "' and name '" + name.value + "'")
    ensures !(Present(organization) && Present(namespace) && Present(name)) ==>
              e.entity == Some(Title(entityType) + "s")
    ensures e.message == e.entity.value + " not found."
  {
    var entity := if Present(organization) && Present(namespace) && Present(name)
      then entityType + " with namespace '" + namespace.value + "' and name '" + name.value + "'"
      else Title(entityType) + "s";
    NotFoundError(entity, None)
  }

  /** `create_unshareable_data_error`: the plural entity type and the default reason. */
  function CreateUnshareableDataError(entityType: string): (e: CCDIException)
    ensures e.kind == UnshareableData && Conforms(e)
    ensures e.entity == Some(Title(entityType) + "s") && e.reason == Some(DefaultUnshareableReason)
    ensures e.message == "Unable to share data for " + Lower(Title(entityType) + "s") + ": " + DefaultUnshareableReason
  {
    UnshareableDataError(Title(entityType) + "s", DefaultUnshareableReason)
  }
}
