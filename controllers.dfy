/*
 * Request-shaping helpers of gearshift/controllers.py: `url` and
 * `redirect`, the REST controller's `_cp_dispatch`, and the validation
 * tool's `validate`.
 *
 * The server-relative URL of CherryPy (`cherrypy.url(path,
 * relative='server')`), `str()` of a parameter value (after UTF-8 encoding
 * of text) and `urllib.urlencode` are parameters. The iteration order of the
 * parameter dict, which Python leaves unspecified, is the sequence `order`.
 */
module Controllers {
  import opened Common

  // ---------------------------------------------------------------------
  // url and redirect

  /** The `tgpath` argument: a string, or a list or tuple of segments. */
  datatype PathArg = PathStr(s: Str) | PathParts(parts: seq<Str>)

  /** A list or tuple path is joined with '/'. */
  function PathString(p: PathArg): (r: Str)
    ensures p.PathStr? ==> r == p.s
    ensures p.PathParts? ==> r == Join(p.parts, "/")
  {
    match p
    case PathStr(s) => s
    case PathParts(parts) => Join(parts, "/")
  }

  /**
   * The path part of `url`: inside a request the application-relative URL
   * is prefixed with `server.webpath`; outside one only an absolute path is.
   */
  function UrlPath(tgpath: PathArg, webpath: Str, requestAvailable: bool, serverUrl: Str -> Str): (r: Str)
    ensures requestAvailable ==> r == webpath + serverUrl(PathString(tgpath))
    ensures !requestAvailable && StartsWith(PathString(tgpath), "/") ==> r == webpath + PathString(tgpath)
    ensures !requestAvailable && !StartsWith(PathString(tgpath), "/") ==> r == PathString(tgpath)
  {
    var path := PathString(tgpath);
    if requestAvailable then webpath + serverUrl(path)
    else if StartsWith(path, "/") then webpath + path
    else path
  }

  /**
   * The query parameters: the keyword arguments alone when `tgparams` is
   * None, left out or passed explicitly, else a copy of the `tgparams` dict
   * updated with them; `tgparams` that is not a dict raises TypeError.
   */
  function MergedParams(tgparams: Option<Value>, kw: map<Str, Value>): (r: Result<map<Str, Value>>)
    ensures tgparams.None? || tgparams == Some(VNone) ==> r == Ok(kw)
    ensures tgparams.Some? && !tgparams.value.VDict? && tgparams.value != VNone ==>
              r == Err(TypeError("url() expects a dictionary for query parameters"))
    ensures tgparams.Some? && tgparams.value.VDict? ==>
              r.Ok? && r.value.Keys == tgparams.value.entries.Keys + kw.Keys &&
              (forall k :: k in kw ==> r.value[k] == kw[k]) &&
              (forall k :: k in tgparams.value.entries && k !in kw ==> r.value[k] == tgparams.value.entries[k])
  {
    match tgparams
    case None => Ok(kw)
    case Some(VNone) => Ok(kw)
    case Some(VDict(d)) => Ok(d + kw)
    case Some(_) => Err(TypeError("url() expects a dictionary for query parameters"))
  }

  /** The pairs a list value contributes: one per element that is not None. */
  function ListPairs(key: Str, items: seq<Value>, str: Value -> Str): (r: seq<(Str, Str)>)
    ensures |r| <= |items|
    ensures forall p :: p in r ==> p.0 == key
    ensures forall s :: (key, s) in r <==> exists i :: 0 <= i < |items| && items[i] != VNone && str(items[i]) == s
    decreases |items|
  {
    if items == [] then []
    else
      var last := items[|items| - 1];
      var init := ListPairs(key, items[..|items| - 1], str);
      assert forall i :: 0 <= i < |items| - 1 ==> items[..|items| - 1][i] == items[i];
      if last == VNone then init else init + [(key, str(last))]
  }

  /**
   * The pairs one parameter contributes: none for None, one per non-None
   * element for a list or tuple, else one.
   */
  function KeyPairs(key: Str, v: Value, str: Value -> Str): (r: seq<(Str, Str)>)
    ensures forall p :: p in r ==> p.0 == key
    ensures v.VNone? ==> r == []
    ensures v.VList? ==> r == ListPairs(key, v.items, str)
    ensures !v.VNone? && !v.VList? ==> r == [(key, str(v))]
  {
    if v == VNone then []
    else if v.VList? then ListPairs(key, v.items, str)
    else [(key, str(v))]
  }

  /** The `args` list `url` builds, taking the parameters in the order `order`. */
  function QueryArgs(order: seq<Str>, params: map<Str, Value>, str: Value -> Str): (r: seq<(Str, Str)>)
    decreases |order|
  {
    if order == [] then []
    else
      var k := order[|order| - 1];
      QueryArgs(order[..|order| - 1], params, str) + (if k in params then KeyPairs(k, params[k], str) else [])
  }

  /**
   * A pair is in the query iff its key is a parameter and the pair is one
   * the parameter's value contributes: no None value and no None element
   * ever reaches the query string.
   */
  lemma {:induction false} QueryArgsMembership(order: seq<Str>, params: map<Str, Value>, str: Value -> Str,
                                               p: (Str, Str))
    ensures p in QueryArgs(order, params, str) <==>
              p.0 in order && p.0 in params && p in KeyPairs(p.0, params[p.0], str)
    decreases |order|
  {
    if order != [] {
      var init := order[..|order| - 1];
      var k := order[|order| - 1];
      QueryArgsMembership(init, params, str, p);
      assert order == init + [k];
      if p.0 in order && p.0 !in init {
        assert p.0 == k;
      }
    }
  }

  /**
   * Taken in an iteration order of the parameters, the query holds exactly
   * the pairs the parameters contribute: none is lost and none repeated
   * from another key.
   */
  lemma QueryArgsComplete(order: seq<Str>, params: map<Str, Value>, str: Value -> Str, p: (Str, Str))
    requires EnumeratesKeys(order, params)
    ensures p in QueryArgs(order, params, str) <==> p.0 in params && p in KeyPairs(p.0, params[p.0], str)
  {
    QueryArgsMembership(order, params, str, p);
  }

  /** The query is appended with '&' when the path has a '?' already, else with '?'. */
  function WithQuery(path: Str, query: Str): (r: Str)
    ensures HasChar(path, '?') ==> r == path + "&" + query
    ensures !HasChar(path, '?') ==> r == path + "?" + query
  {
    if HasChar(path, '?') then path + "&" + query else path + "?" + query
  }

  /** The loop of `url` over the parameters, taken in `order`, collecting their pairs. */
  method CollectArgs(order: seq<Str>, params: map<Str, Value>, str: Value -> Str) returns (args: seq<(Str, Str)>)
    ensures args == QueryArgs(order, params, str)
  {
    args := [];
    var i := 0;
    while i < |order|
      invariant 0 <= i <= |order|
      invariant args == QueryArgs(order[..i], params, str)
    {
      var key := order[i];
      assert order[..i + 1][..i] == order[..i];
      if key in params {
        args := args + KeyPairs(key, params[key], str);
      }
      i := i + 1;
    }
    assert order[..i] == order;
  }

  /**
   * `url`: the path, and, when there is any parameter pair, the urlencoded
   * pairs after '?' or '&', collected by `CollectArgs` in the dictionary's
   * iteration order `order`.
   */
  method Url(tgpath: PathArg, tgparams: Option<Value>, kw: map<Str, Value>, order: seq<Str>,
             webpath: Str, requestAvailable: bool, serverUrl: Str -> Str,
             str: Value -> Str, urlencode: seq<(Str, Str)> -> Str)
    returns (r: Result<Str>)
    requires MergedParams(tgparams, kw).Ok? ==> EnumeratesKeys(order, MergedParams(tgparams, kw).value)
    ensures MergedParams(tgparams, kw).Err? ==> r == Err(MergedParams(tgparams, kw).exc)
    ensures MergedParams(tgparams, kw).Ok? ==>
              var args := QueryArgs(order, MergedParams(tgparams, kw).value, str);
              var path := UrlPath(tgpath, webpath, requestAvailable, serverUrl);
              r.Ok? && (args == [] ==> r.value == path) &&
              (args != [] ==> r.value == WithQuery(path, urlencode(args)))
  {
    var path := UrlPath(tgpath, webpath, requestAvailable, serverUrl);
    var merged := MergedParams(tgparams, kw);
    if merged.Err? {
      return Err(merged.exc);
    }
    var args := CollectArgs(order, merged.value, str);
    if args != [] {
      path := WithQuery(path, urlencode(args));
    }
    return Ok(path);
  }

  /** `redirect`: always raises, an HTTPRedirect to the computed URL or the URL's error. */
  method Redirect(path: PathArg, params: Option<Value>, kw: map<Str, Value>, order: seq<Str>,
                  webpath: Str, requestAvailable: bool, serverUrl: Str -> Str,
                  str: Value -> Str, urlencode: seq<(Str, Str)> -> Str)
    returns (raised: Exc)
    requires MergedParams(params, kw).Ok? ==> EnumeratesKeys(order, MergedParams(params, kw).value)
    ensures MergedParams(params, kw).Err? ==> raised == MergedParams(params, kw).exc
    ensures MergedParams(params, kw).Ok? ==>
              var args := QueryArgs(order, MergedParams(params, kw).value, str);
              var base := UrlPath(path, webpath, requestAvailable, serverUrl);
              raised == HTTPRedirect(if args == [] then base else WithQuery(base, urlencode(args)))
  {
    var u := Url(path, params, kw, order, webpath, requestAvailable, serverUrl, str, urlencode);
    if u.Err? {
      return u.exc;
    }
    return HTTPRedirect(u.value);
  }

  /** Keyword arguments win over same-named `tgparams` entries, and `None` values are dropped. */
  lemma KeywordsOverride(d: map<Str, Value>, kw: map<Str, Value>, order: seq<Str>, str: Value -> Str, k: Str, s: Str)
    requires k in kw && k in order
    ensures (k, s) in QueryArgs(order, MergedParams(Some(VDict(d)), kw).value, str) <==> (k, s) in KeyPairs(k, kw[k], str)
    ensures kw[k] == VNone ==> forall p :: p in QueryArgs(order, MergedParams(Some(VDict(d)), kw).value, str) ==> p.0 != k
  {
    var m := MergedParams(Some(VDict(d)), kw).value;
    QueryArgsMembership(order, m, str, (k, s));
    forall p | p in QueryArgs(order, m, str)
      ensures kw[k] == VNone ==> p.0 != k
    {
      QueryArgsMembership(order, m, str, p);
    }
  }

  // ---------------------------------------------------------------------
  // RestController._cp_dispatch

  /** The request attributes `_cp_dispatch` writes. */
  class DispatchRequest {
    var params: map<Str, Value>
    var restGetOne: bool            // `request.tg_rest_get_one`

    constructor (params: map<Str, Value>)
      ensures this.params == params && !restGetOne
    {
      this.params := params;
      restGetOne := false;
    }
  }

  /** The controller's `rest_format`, `rest_allname` and `rest_idname` settings, None where unset. */
  datatype RestConfig = RestConfig(format: Option<Str>, allName: Option<Str>, idName: Option<Str>)

  /** The id segment: the first segment without its last '.'-extension. */
  function RestParam(segment: Str): (r: Str)
    ensures '.' !in segment ==> r == segment
    ensures '.' in segment ==> r + "." + RSplitLast(segment, '.')[1] == segment
  {
    if '.' in segment then RSplitLast(segment, '.')[0] else segment
  }

  /**
   * `_cp_dispatch`: an empty virtual path is not handled. Otherwise the
   * first segment's extension after its last '.' goes to the format
   * parameter, the rest of the segment to the id parameter, and a lone
   * segment other than the 'all' name marks a single-item request.
   */
  method CpDispatch(req: DispatchRequest, vpath: seq<Str>, cfg: RestConfig) returns (handled: bool)
    modifies req
    ensures handled <==> vpath != []
    ensures vpath == [] ==> req.params == old(req.params) && req.restGetOne == old(req.restGetOne)
    ensures vpath != [] ==>
              var seg := vpath[0];
              var withFormat := if '.' in seg then old(req.params)[cfg.format.GetOr("tg_format") := VStr(RSplitLast(seg, '.')[1])]
                                else old(req.params);
              req.params == withFormat[cfg.idName.GetOr("id") := VStr(RestParam(seg))] &&
              req.restGetOne == (old(req.restGetOne) || (|vpath| == 1 && RestParam(seg) != cfg.allName.GetOr("all")))
  {
    if vpath == [] {
      return false;
    }
    var param := vpath[0];
    if '.' in param {
      var parts := RSplitLast(param, '.');
      param := parts[0];
      req.params := req.params[cfg.format.GetOr("tg_format") := VStr(parts[1])];
    }
    if |vpath| == 1 && param != cfg.allName.GetOr("all") {
      req.restGetOne := true;
    }
    req.params := req.params[cfg.idName.GetOr("id") := VStr(param)];
    return true;
  }

  // ---------------------------------------------------------------------
  // ValidatorTool.validate

  /** What a form or schema makes of the parameters: converted values, or the unpacked errors. */
  datatype Outcome = Valid(values: map<Str, Value>) | Rejected(errors: map<Str, Str>)

  /** What one field validator makes of its value. */
  datatype FieldOutcome = FieldOk(value: Value) | FieldInvalid(message: Str)

  /** The `validators` argument: none, a dict of field validators, or a schema. */
  datatype Validators =
    | NoValidators
    | PerField(fields: map<Str, Value -> FieldOutcome>)
    | Schema(toPython: map<Str, Value> -> Outcome)

  /** The request attributes `validate` reads and writes. */
  class ValidationRequest {
    var validationState: Option<Value>           // `request.validation_state`, None while unset
    var params: map<Str, Value>
    var validationErrors: Option<map<Str, Str>>
    var inputValues: Option<map<Str, Value>>
    var validatedForm: bool                      // `request.validated_form` holds the form
    var validationException: Option<map<Str, Str>>  // the unpacked errors of `request.validation_exception`

    constructor (params: map<Str, Value>)
      ensures this.params == params && validationState.None? && validationErrors.None? && inputValues.None?
      ensures !validatedForm && validationException.None?
    {
      this.params := params;
      validationState := None;
      validationErrors := None;
      inputValues := None;
      validatedForm := false;
      validationException := None;
    }
  }

  /** The parameters and errors after the form: converted values merged in, or its errors. */
  function AfterForm(params: map<Str, Value>, form: Option<map<Str, Value> -> Outcome>)
    : (r: (map<Str, Value>, map<Str, Str>))
    ensures form.None? ==> r == (params, map[])
    ensures form.Some? && form.value(params).Valid? ==> r == (params + form.value(params).values, map[])
    ensures form.Some? && form.value(params).Rejected? ==> r == (params, form.value(params).errors)
  {
    if form.None? then (params, map[])
    else match form.value(params)
      case Valid(values) => (params + values, map[])
      case Rejected(errors) => (params, errors)
  }

  /** `kw.get(field, None)` */
  function Get(params: map<Str, Value>, field: Str): Value
  {
    if field in params then params[field] else VNone
  }

  /** The parameters after the field validators `done`: each field that converts takes its value. */
  function FieldsApplied(params: map<Str, Value>, fields: map<Str, Value -> FieldOutcome>, done: set<Str>)
    : (r: map<Str, Value>)
    ensures r.Keys == params.Keys + (set f | f in done && f in fields && fields[f](Get(params, f)).FieldOk?)
    ensures forall f :: f in done && f in fields && fields[f](Get(params, f)).FieldOk? ==>
              r[f] == fields[f](Get(params, f)).value
    ensures forall k :: k in params && !(k in done && k in fields && fields[k](Get(params, k)).FieldOk?) ==>
              r[k] == params[k]
  {
    map k | k in params.Keys + (set f | f in done && f in fields && fields[f](Get(params, f)).FieldOk?) ::
      if k in done && k in fields && fields[k](Get(params, k)).FieldOk? then fields[k](Get(params, k)).value
      else params[k]
  }

  /** The errors after the field validators `done`: each field that fails adds its message. */
  function FieldErrors(errors: map<Str, Str>, params: map<Str, Value>, fields: map<Str, Value -> FieldOutcome>,
                       done: set<Str>)
    : (r: map<Str, Str>)
    ensures r.Keys == errors.Keys + (set f | f in done && f in fields && fields[f](Get(params, f)).FieldInvalid?)
    ensures forall f :: f in done && f in fields && fields[f](Get(params, f)).FieldInvalid? ==>
              r[f] == fields[f](Get(params, f)).message
    ensures forall k :: k in errors && !(k in done && k in fields && fields[k](Get(params, k)).FieldInvalid?) ==>
              r[k] == errors[k]
  {
    map k | k in errors.Keys + (set f | f in done && f in fields && fields[f](Get(params, f)).FieldInvalid?) ::
      if k in done && k in fields && fields[k](Get(params, k)).FieldInvalid? then fields[k](Get(params, k)).message
      else errors[k]
  }

  /** The parameters and errors after the validators. */
  function AfterValidators(params: map<Str, Value>, errors: map<Str, Str>, validators: Validators)
    : (r: (map<Str, Value>, map<Str, Str>))
    ensures validators.NoValidators? ==> r == (params, errors)
    ensures validators.Schema? && validators.toPython(params).Valid? ==>
              r == (params + validators.toPython(params).values, errors)
    ensures validators.Schema? && validators.toPython(params).Rejected? ==>
              r == (params, validators.toPython(params).errors)
    ensures validators.PerField? ==>
              r == (FieldsApplied(params, validators.fields, validators.fields.Keys),
                    FieldErrors(errors, params, validators.fields, validators.fields.Keys))
  {
    match validators
    case NoValidators => (params, errors)
    case Schema(toPython) =>
      (match toPython(params)
       case Valid(values) => (params + values, errors)
       case Rejected(es) => (params, es))
    case PerField(fields) =>
      (FieldsApplied(params, fields, fields.Keys), FieldErrors(errors, params, fields, fields.Keys))
  }

  /** One field validator applied to the parameters and errors so far. */
  method ApplyField(field: Str, convert: Value -> FieldOutcome, kw: map<Str, Value>, errors: map<Str, Str>)
    returns (kw': map<Str, Value>, errors': map<Str, Str>)
    ensures convert(Get(kw, field)).FieldOk? ==>
              kw' == kw[field := convert(Get(kw, field)).value] && errors' == errors
    ensures convert(Get(kw, field)).FieldInvalid? ==>
              kw' == kw && errors' == errors[field := convert(Get(kw, field)).message]
  {
    match convert(Get(kw, field))
    case FieldOk(v) =>
      kw' := kw[field := v];
      errors' := errors;
    case FieldInvalid(m) =>
      kw' := kw;
      errors' := errors[field := m];
  }

  /** Applying one more field validator to the parameters so far. */
  lemma FieldsAppliedStep(params: map<Str, Value>, fields: map<Str, Value -> FieldOutcome>, done: set<Str>, f: Str)
    requires f in fields && f !in done
    ensures var before := FieldsApplied(params, fields, done);
            FieldsApplied(params, fields, done + {f}) ==
              (if fields[f](Get(params, f)).FieldOk? then before[f := fields[f](Get(params, f)).value] else before)
  {
    var before := FieldsApplied(params, fields, done);
    var after := FieldsApplied(params, fields, done + {f});
    var expected := if fields[f](Get(params, f)).FieldOk? then before[f := fields[f](Get(params, f)).value] else before;
    assert after.Keys == expected.Keys;
    forall k | k in after
      ensures after[k] == expected[k]
    {
    }
  }

  /** Recording the outcome of one more field validator in the errors so far. */
  lemma FieldErrorsStep(errors: map<Str, Str>, params: map<Str, Value>, fields: map<Str, Value -> FieldOutcome>,
                        done: set<Str>, f: Str)
    requires f in fields && f !in done
    ensures var before := FieldErrors(errors, params, fields, done);
            FieldErrors(errors, params, fields, done + {f}) ==
              (if fields[f](Get(params, f)).FieldInvalid? then before[f := fields[f](Get(params, f)).message]
               else before)
  {
    var before := FieldErrors(errors, params, fields, done);
    var after := FieldErrors(errors, params, fields, done + {f});
    var expected := if fields[f](Get(params, f)).FieldInvalid? then before[f := fields[f](Get(params, f)).message]
                    else before;
    assert after.Keys == expected.Keys;
    forall k | k in after
      ensures after[k] == expected[k]
    {
    }
  }

  /** The state of the loop over the field validators with `todo` still to run. */
  predicate FieldsProgress(params: map<Str, Value>, errors: map<Str, Str>, fields: map<Str, Value -> FieldOutcome>,
                           todo: set<Str>, kw: map<Str, Value>, errs: map<Str, Str>)
  {
    todo <= fields.Keys &&
    kw == FieldsApplied(params, fields, fields.Keys - todo) &&
    errs == FieldErrors(errors, params, fields, fields.Keys - todo) &&
    forall f :: f in todo ==> Get(kw, f) == Get(params, f)
  }

  /** Running the validator of one more field keeps the loop state. */
  lemma FieldsProgressStep(params: map<Str, Value>, errors: map<Str, Str>, fields: map<Str, Value -> FieldOutcome>,
                           todo: set<Str>, kw: map<Str, Value>, errs: map<Str, Str>, f: Str)
    requires FieldsProgress(params, errors, fields, todo, kw, errs) && f in todo
    ensures var out := fields[f](Get(kw, f));
            FieldsProgress(params, errors, fields, todo - {f},
                           if out.FieldOk? then kw[f := out.value] else kw,
                           if out.FieldInvalid? then errs[f := out.message] else errs)
  {
    FieldsAppliedStep(params, fields, fields.Keys - todo, f);
    FieldErrorsStep(errors, params, fields, fields.Keys - todo, f);
    assert fields.Keys - todo + {f} == fields.Keys - (todo - {f});
  }

  /** Before the loop nothing has run. */
  lemma FieldsProgressStart(params: map<Str, Value>, errors: map<Str, Str>, fields: map<Str, Value -> FieldOutcome>)
    ensures FieldsProgress(params, errors, fields, fields.Keys, params, errors)
  {
    assert fields.Keys - fields.Keys == {};
    var kw := FieldsApplied(params, fields, {});
    assert kw.Keys == params.Keys;
    var es := FieldErrors(errors, params, fields, {});
    assert es.Keys == errors.Keys;
  }

  /** The dict of field validators, taken in any order: each field reads and writes only its own entry. */
  method ApplyFields(params: map<Str, Value>, errors: map<Str, Str>, fields: map<Str, Value -> FieldOutcome>)
    returns (kw: map<Str, Value>, errs: map<Str, Str>)
    ensures kw == FieldsApplied(params, fields, fields.Keys)
    ensures errs == FieldErrors(errors, params, fields, fields.Keys)
  {
    kw := params;
    errs := errors;
    var todo := fields.Keys;
    FieldsProgressStart(params, errors, fields);
    while todo != {}
      invariant FieldsProgress(params, errors, fields, todo, kw, errs)
      decreases |todo|
    {
      var f :| f in todo;
      FieldsProgressStep(params, errors, fields, todo, kw, errs, f);
      kw, errs := ApplyField(f, fields[f], kw, errs);
      todo := todo - {f};
    }
    assert fields.Keys - todo == fields.Keys;
  }

  /** The form with the validation state passed to its `validate`. */
  function BoundForm(form: Option<Value -> map<Str, Value> -> Outcome>, state: Value): (r: Option<map<Str, Value> -> Outcome>)
    ensures r.Some? <==> form.Some?
    ensures form.Some? ==> r.value == form.value(state)
  {
    match form
    case None => None
    case Some(f) => Some(f(state))
  }

  /**
   * `request.validation_exception` after the form and the validators: the
   * Invalid a schema raised, else the one the form raised, else what the
   * request held before. Invalid raised by a field validator is not kept.
   */
  function LastInvalid(prior: Option<map<Str, Str>>, params: map<Str, Value>,
                       form: Option<map<Str, Value> -> Outcome>, validators: Validators): (r: Option<map<Str, Str>>)
    ensures validators.Schema? && validators.toPython(AfterForm(params, form).0).Rejected? ==>
              r == Some(validators.toPython(AfterForm(params, form).0).errors)
    ensures (!(validators.Schema? && validators.toPython(AfterForm(params, form).0).Rejected?) &&
             form.Some? && form.value(params).Rejected?) ==> r == Some(form.value(params).errors)
    ensures (!(validators.Schema? && validators.toPython(AfterForm(params, form).0).Rejected?) &&
             !(form.Some? && form.value(params).Rejected?)) ==> r == prior
  {
    if validators.Schema? && validators.toPython(AfterForm(params, form).0).Rejected? then
      Some(validators.toPython(AfterForm(params, form).0).errors)
    else if form.Some? && form.value(params).Rejected? then Some(form.value(params).errors)
    else prior
  }

  /**
   * `validate`: nothing when the request carries a validation state
   * already. Otherwise the state is what `state_factory` returns, None
   * without one; the form, then the validators, both given that state,
   * convert the parameters in place; the errors, the input values and the
   * state are recorded, the form and the last Invalid raised by the form or
   * a schema are kept on the request, and `tg_errors` is set only when
   * there are errors. `validators(state)` is the `validators` argument with
   * the state passed to every `to_python` call.
   */
  method Validate(req: ValidationRequest, form: Option<Value -> map<Str, Value> -> Outcome>,
                  validators: Value -> Validators, stateFactory: Option<Value>, errorsValue: map<Str, Str> -> Value)
    modifies req
    ensures old(req.validationState).Some? ==>
              req.validationState == old(req.validationState) && req.params == old(req.params) &&
              req.validationErrors == old(req.validationErrors) && req.inputValues == old(req.inputValues) &&
              req.validatedForm == old(req.validatedForm) && req.validationException == old(req.validationException)
    ensures old(req.validationState).None? ==>
              var state := stateFactory.GetOr(VNone);
              var bound := BoundForm(form, state);
              var afterForm := AfterForm(old(req.params), bound);
              var after := AfterValidators(afterForm.0, afterForm.1, validators(state));
              req.validationState == Some(state) &&
              req.validationErrors == Some(after.1) && req.inputValues == Some(after.0) &&
              req.validatedForm == (form.Some? || old(req.validatedForm)) &&
              req.validationException == LastInvalid(old(req.validationException), old(req.params), bound, validators(state)) &&
              (after.1 == map[] ==> req.params == after.0) &&
              (after.1 != map[] ==> req.params == after.0["tg_errors" := errorsValue(after.1)])
  {
    if req.validationState.Some? {
      return;
    }
    var state := stateFactory.GetOr(VNone);
    var kw, errors, invalid := RunValidation(req.params, BoundForm(form, state), validators(state), req.validationException);
    if form.Some? {
      req.validatedForm := true;
    }
    req.validationException := invalid;
    req.validationErrors := Some(errors);
    req.inputValues := Some(kw);
    req.validationState := Some(state);
    if errors != map[] {
      kw := kw["tg_errors" := errorsValue(errors)];
    }
    req.params := kw;
  }

  /**
   * The body of `validate` after the state is made: the form, then the
   * validators, convert the parameters; the errors and the last Invalid
   * raised by the form or a schema come out beside them.
   */
  method RunValidation(params: map<Str, Value>, form: Option<map<Str, Value> -> Outcome>, validators: Validators,
                       prior: Option<map<Str, Str>>)
    returns (kw: map<Str, Value>, errors: map<Str, Str>, invalid: Option<map<Str, Str>>)
    ensures (kw, errors) == AfterValidators(AfterForm(params, form).0, AfterForm(params, form).1, validators)
    ensures invalid == LastInvalid(prior, params, form, validators)
  {
    kw := params;
    errors := map[];
    invalid := prior;
    if form.Some? {
      match form.value(kw) {
        case Valid(values) =>
          kw := kw + values;
        case Rejected(es) =>
          errors := es;
          invalid := Some(es);
      }
    }
    match validators {
      case NoValidators =>
      case Schema(toPython) =>
        match toPython(kw) {
          case Valid(values) =>
            kw := kw + values;
          case Rejected(es) =>
            errors := es;
            invalid := Some(es);
        }
      case PerField(fields) =>
        kw, errors := ApplyFields(kw, errors, fields);
    }
  }

  /**
   * With field validators alone, the errors are exactly the fields whose
   * validator fails, each with its message: there are none iff every
   * field validator converts its value.
   */
  lemma {:induction false} PerFieldErrorsExact(params: map<Str, Value>, fields: map<Str, Value -> FieldOutcome>)
    ensures var after := AfterValidators(params, map[], PerField(fields));
            (forall f :: f in after.1 <==> f in fields && fields[f](Get(params, f)).FieldInvalid?) &&
            (forall f :: f in after.1 ==> after.1[f] == fields[f](Get(params, f)).message) &&
            (after.1 == map[] <==> forall f :: f in fields ==> fields[f](Get(params, f)).FieldOk?)
  {
    var after := AfterValidators(params, map[], PerField(fields));
    if after.1 == map[] {
      forall f | f in fields
        ensures fields[f](Get(params, f)).FieldOk?
      {
        assert f !in after.1;
      }
    } else {
      var f :| f in after.1;
      assert fields[f](Get(params, f)).FieldInvalid?;
    }
  }

  /**
   * Field validators are independent: a field that converts holds its
   * converted value and is not an error; one that fails keeps its input
   * and is reported; a parameter without a validator is left alone.
   */
  lemma FieldValidation(params: map<Str, Value>, fields: map<Str, Value -> FieldOutcome>, f: Str)
    ensures var kw := FieldsApplied(params, fields, fields.Keys);
            var errs := FieldErrors(map[], params, fields, fields.Keys);
            (f in fields && fields[f](Get(params, f)).FieldOk? ==>
               kw[f] == fields[f](Get(params, f)).value && f !in errs) &&
            (f in fields && fields[f](Get(params, f)).FieldInvalid? ==>
               errs[f] == fields[f](Get(params, f)).message && Get(kw, f) == Get(params, f)) &&
            (f !in fields ==> Get(kw, f) == Get(params, f) && f !in errs)
  {
  }
}
