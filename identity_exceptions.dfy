/*
 * Failure and redirect bookkeeping of the identity framework
 * (gearshift/identity/exceptions.py).
 */
module IdentityExceptions {
  import opened Common

  /** The argument of `set_identity_errors`: one message or an iterable of them. */
  datatype Errors = Single(message: Str) | Many(messages: seq<Str>)

  /** The configured `tools.identity.failure_url`: unset, a URL, or a callable on the errors. */
  datatype FailureUrl = Unset | Url(url: Str) | Computed(f: Errors -> Option<Str>)

  const MissingUrlMessage: Str := "Missing URL for identity failure. Please fix this in app.cfg."

  const RequestRequiredText: Str :=
    "An attempt was made to use a facility of the GearShift Identity Management framework "
    + "that relies on an HTTP request outside of a request."

  const NotEnabledText: Str :=
    "An attempt was made to use a facility of the GearShift Identity Management framework, "
    + "but identity management hasn't been enabled in the config file [via tools.identity.on]."

  /** The exceptions that are `IdentityException` subclasses. */
  predicate IsIdentityException(e: Exc)
  {
    e.IdentityException? || e.IdentityConfigurationException? || e.RequestRequiredException?
    || e.IdentityManagementNotEnabledException?
  }

  /** `str(e)` of an identity exception. */
  function IdentityExceptionText(e: Exc): (r: Str)
    requires IsIdentityException(e)
    ensures e.IdentityException? ==> r == e.msg
    ensures e.IdentityConfigurationException? ==> r == e.msg
    ensures e.RequestRequiredException? ==> r == RequestRequiredText
    ensures e.IdentityManagementNotEnabledException? ==> r == NotEnabledText
  {
    match e
    case IdentityException(m) => m
    case IdentityConfigurationException(m) => m
    case RequestRequiredException => RequestRequiredText
    case IdentityManagementNotEnabledException => NotEnabledText
  }

  /** The list `set_identity_errors` stores. */
  function ErrorList(errors: Errors): (r: seq<Str>)
    ensures errors.Single? ==> r == [errors.message]
    ensures errors.Many? ==> r == errors.messages
  {
    match errors
    case Single(m) => [m]
    case Many(ms) => ms
  }

  /**
   * `get_failure_url`: a callable is applied to the errors; a URL that is
   * (or is computed as) None raises IdentityConfigurationException.
   */
  function GetFailureUrl(configured: FailureUrl, errors: Errors): (r: Result<Str>)
    ensures configured.Url? ==> r == Ok(configured.url)
    ensures configured.Computed? && configured.f(errors).Some? ==> r == Ok(configured.f(errors).value)
    ensures configured.Unset? || (configured.Computed? && configured.f(errors).None?) <==>
              r == Err(IdentityConfigurationException(MissingUrlMessage))
  {
    var url := match configured
      case Unset => None
      case Url(u) => Some(u)
      case Computed(f) => f(errors);
    if url.None? then Err(IdentityConfigurationException(MissingUrlMessage)) else Ok(url.value)
  }

  /**
   * The request attributes written on an identity failure: the recorded
   * errors (`None` until `set_identity_errors` runs), the parameters and the
   * path.
   */
  class FailureRequest {
    var identityErrors: Option<seq<Str>>
    var params: map<Str, Value>
    var pathInfo: Str

    constructor (params: map<Str, Value>, pathInfo: Str)
      ensures this.identityErrors == None && this.params == params && this.pathInfo == pathInfo
    {
      this.identityErrors := None;
      this.params := params;
      this.pathInfo := pathInfo;
    }

    /** `set_identity_errors`: a single message is stored as a one-element list. */
    method SetIdentityErrors(errors: Errors)
      modifies this`identityErrors
      ensures identityErrors == Some(ErrorList(errors))
    {
      identityErrors := Some(ErrorList(errors));
    }

    /** `get_identity_errors`: the recorded errors, [] when none were recorded. */
    function GetIdentityErrors(): (r: seq<Str>)
      reads this
      ensures identityErrors.None? ==> r == []
      ensures identityErrors.Some? ==> r == identityErrors.value
    {
      identityErrors.GetOr([])
    }

    /**
     * `IdentityFailure(errors)`: always raises. The errors are recorded
     * first; a missing failure URL raises the configuration exception with
     * the params untouched; otherwise `forward_url` is set to the path and the
     * request is redirected to the failure URL, externally (through
     * `gearshift.url`) iff `forceExternal`, else internally with the
     * urlencoded params.
     */
    method IdentityFailure(errors: Errors, configured: FailureUrl, forceExternal: bool,
                           buildUrl: (Str, map<Str, Value>) -> Str,
                           urlencode: map<Str, Value> -> Str)
      returns (raised: Exc)
      modifies this`identityErrors, this`params
      ensures identityErrors == Some(ErrorList(errors))
      ensures GetFailureUrl(configured, errors).Err? ==>
                raised == GetFailureUrl(configured, errors).exc && params == old(params)
      ensures GetFailureUrl(configured, errors).Ok? ==>
                params == old(params)["forward_url" := VStr(pathInfo)] &&
                raised == (if forceExternal then HTTPRedirect(buildUrl(GetFailureUrl(configured, errors).value, params))
                           else InternalRedirect(GetFailureUrl(configured, errors).value, urlencode(params)))
    {
      SetIdentityErrors(errors);
      var url := GetFailureUrl(configured, errors);
      if url.Err? {
        return url.exc;
      }
      params := params["forward_url" := VStr(pathInfo)];
      if forceExternal {
        raised := HTTPRedirect(buildUrl(url.value, params));
      } else {
        raised := InternalRedirect(url.value, urlencode(params));
      }
    }
  }

  /** Every failure redirects, and only to the configured URL. */
  lemma FailureRedirectTarget(configured: FailureUrl, errors: Errors, u: Str)
    requires GetFailureUrl(configured, errors) == Ok(u)
    ensures configured.Url? ==> u == configured.url
    ensures configured.Computed? ==> configured.f(errors) == Some(u)
    ensures !configured.Unset?
  {
  }
}
