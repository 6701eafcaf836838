/** `_validate_identifier_params`: each of organization, namespace and name
    must hold something other than whitespace, and none may contain `.`, `/`,
    `\` or a space; the checks run in that order and the first failure is
    reported. */
module Identifiers {
  import opened Wrappers
  import opened Text
  import opened Errors
  import RepositoryCore

  predicate IsInvalidChar(c: char) {
    c == '.' || c == '/' || c == '\\' || c == ' '
  }

  predicate HasInvalidChar(s: string) {
    exists i :: 0 <= i < |s| && IsInvalidChar(s[i])
  }

  /** `_validate_identifier_params(org, ns, name)`; `entityLabel` is `Sample`
      or `File`, as the service's message for an empty name says. */
  function ValidateIdentifierParams(org: string, ns: string, name: string, entityLabel: string): (r: Option<CCDIException>)
    ensures r.None? <==> !IsBlank(org) && !IsBlank(ns) && !IsBlank(name)
                         && !HasInvalidChar(org) && !HasInvalidChar(ns) && !HasInvalidChar(name)
    ensures r.Some? ==> r.value.kind == InvalidParameters && r.value.statusCode == 422
    ensures IsBlank(org) ==> r == Some(ValidationError("Organization identifier cannot be empty"))
    ensures !IsBlank(org) && IsBlank(ns) ==> r == Some(ValidationError("Namespace identifier cannot be empty"))
    ensures !IsBlank(org) && !IsBlank(ns) && IsBlank(name) ==>
              r == Some(ValidationError(entityLabel + " name cannot be empty"))
    ensures !IsBlank(org) && !IsBlank(ns) && !IsBlank(name) ==>
              && (HasInvalidChar(org) ==> r == Some(ValidationError("Invalid characters in org: " + org)))
              && (!HasInvalidChar(org) && HasInvalidChar(ns) ==> r == Some(ValidationError("Invalid characters in ns: " + ns)))
              && (!HasInvalidChar(org) && !HasInvalidChar(ns) && HasInvalidChar(name) ==>
                    r == Some(ValidationError("Invalid characters in name: " + name)))
  {
    if IsBlank(org) then Some(ValidationError("Organization identifier cannot be empty"))
    else if IsBlank(ns) then Some(ValidationError("Namespace identifier cannot be empty"))
    else if IsBlank(name) then Some(ValidationError(entityLabel + " name cannot be empty"))
    else if HasInvalidChar(org) then Some(ValidationError("Invalid characters in org: " + org))
    else if HasInvalidChar(ns) then Some(ValidationError("Invalid characters in ns: " + ns))
    else if HasInvalidChar(name) then Some(ValidationError("Invalid characters in name: " + name))
    else None
  }

  /** For an accepted triple, the lookup identifier `org.ns.name` splits at
      `.` back into exactly the organization, namespace and name, none of
      them empty: the identifier determines the triple. */
  lemma AcceptedIdentifierSplitsBack(org: string, ns: string, name: string, entityLabel: string)
    requires ValidateIdentifierParams(org, ns, name, entityLabel).None?
    ensures Split(RepositoryCore.Identifier(org, ns, name), '.') == [org, ns, name]
    ensures org != "" && ns != "" && name != ""
  {
    assert '.' !in org;
    assert '.' !in ns;
    assert '.' !in name;
  }
}
