/*
 * Validation error dispatch (gearshift/errorhandling.py): `error_handler`
 * wraps a controller so that a request that failed validation goes to the
 * error function, with the errors as `tg_errors`, instead of to the
 * controller; and the `FailsafeSchema` enumeration.
 */
module ErrorHandling {
  import opened Common

  /** `FailsafeSchema`: the enumeration of failsafe policies. */
  datatype FailsafeSchema = FailsafeNone | FailsafeValues | FailsafeMapErrors | FailsafeDefaults
  {
    /** The member's name. */
    function Name(): (r: Str)
    {
      match this
      case FailsafeNone => "none"
      case FailsafeValues => "values"
      case FailsafeMapErrors => "map_errors"
      case FailsafeDefaults => "defaults"
    }
  }

  /** The member named `name`, if any. */
  function FailsafeByName(name: Str): (r: Option<FailsafeSchema>)
    ensures r.Some? ==> r.value.Name() == name
    ensures r.None? ==> forall s: FailsafeSchema :: s.Name() != name
  {
    if name == "none" then Some(FailsafeNone)
    else if name == "values" then Some(FailsafeValues)
    else if name == "map_errors" then Some(FailsafeMapErrors)
    else if name == "defaults" then Some(FailsafeDefaults)
    else None
  }

  /** The enumeration has exactly the members none, values, map_errors and defaults, each named once. */
  lemma FailsafeMembers()
    ensures forall s: FailsafeSchema :: s.Name() in {"none", "values", "map_errors", "defaults"}
    ensures forall s: FailsafeSchema, t: FailsafeSchema :: s.Name() == t.Name() ==> s == t
    ensures forall name :: name in {"none", "values", "map_errors", "defaults"} ==> FailsafeByName(name).Some?
  {
    assert "none"[0] != "values"[0] && "none"[0] != "map_errors"[0] && "none"[0] != "defaults"[0];
    assert "values"[0] != "map_errors"[0] && "values"[0] != "defaults"[0] && "map_errors"[0] != "defaults"[0];
  }

  /** Which of the two wrapped functions runs. */
  datatype Target = Controller | ErrorFunc

  /** The call `error_wrapper` makes: the function and its arguments. */
  datatype Invocation = Invocation(target: Target, args: seq<Value>, kwargs: map<Str, Value>)

  /**
   * `error_wrapper`'s choice: a request carrying validation errors calls the
   * error function with the same arguments plus the errors as `tg_errors`;
   * otherwise the controller is called with the arguments unchanged.
   * `validationErrors` is None when the request has no such attribute.
   */
  function Dispatch(validationErrors: Option<Value>, args: seq<Value>, kwargs: map<Str, Value>): (r: Invocation)
    ensures r.args == args
    ensures r.target == ErrorFunc <==> validationErrors.Some? && Truthy(validationErrors.value)
    ensures r.target == Controller ==> r.kwargs == kwargs
    ensures r.target == ErrorFunc ==>
              r.kwargs.Keys == kwargs.Keys + {"tg_errors"} && r.kwargs["tg_errors"] == validationErrors.value &&
              forall k :: k in kwargs && k != "tg_errors" ==> r.kwargs[k] == kwargs[k]
  {
    if validationErrors.Some? && Truthy(validationErrors.value) then
      Invocation(ErrorFunc, args, kwargs["tg_errors" := validationErrors.value])
    else Invocation(Controller, args, kwargs)
  }

  /** `error_wrapper`: the result of whichever function ran, unchanged. */
  function ErrorWrapper<R>(validationErrors: Option<Value>, args: seq<Value>, kwargs: map<Str, Value>,
                           controller: (seq<Value>, map<Str, Value>) -> R,
                           errorFunc: (seq<Value>, map<Str, Value>) -> R): (r: R)
    ensures var call := Dispatch(validationErrors, args, kwargs);
            r == (if call.target == ErrorFunc then errorFunc(call.args, call.kwargs) else controller(call.args, call.kwargs))
  {
    var call := Dispatch(validationErrors, args, kwargs);
    match call.target
    case ErrorFunc => errorFunc(call.args, call.kwargs)
    case Controller => controller(call.args, call.kwargs)
  }

  /** Empty or absent errors reach the controller exactly as called, whatever the error function does. */
  lemma NoErrorsCallsController<R>(validationErrors: Option<Value>, args: seq<Value>, kwargs: map<Str, Value>,
                                   controller: (seq<Value>, map<Str, Value>) -> R,
                                   errorFunc: (seq<Value>, map<Str, Value>) -> R)
    requires validationErrors.None? || validationErrors.value == VDict(map[]) || validationErrors.value == VList([])
    ensures ErrorWrapper(validationErrors, args, kwargs, controller, errorFunc) == controller(args, kwargs)
  {
  }
}
