/*
 * The expose tool (gearshift/tools/expose/tool.py): the `expose` decorator
 * records its options in the controller function's expose table, keyed by
 * the Accept value and the `tg_format` value that select them;
 * `before_handler` moves `tg_format` out of the parameters; and `handler`
 * picks the options for a request, decides the template and hands the
 * controller's dictionary to `render` (modelled in `ExposeRender`).
 *
 * `simplify_http_accept_header` from gearshift.util is a parameter, as are
 * the rendering collaborators `ExposeRender.Render` takes.
 */
module ExposeTool {
  import opened Common
  import opened ExposeRender

  /** One decorator's keyword arguments. */
  type Options = map<Str, Value>

  /** The configuration namespace of the tool. */
  const Subspace: Str := "tools.expose."

  /** A controller function, with the attributes the decorator sets on it. */
  class ExposedFunc {
    var exposed: Option<Value>       // `func.exposed`, None while unset
    var cpConfig: map<Str, Value>    // `func._cp_config`, apart from the expose table
    var exposes: map<Str, Options>   // `func._cp_config["tools.expose.exposes"]`

    constructor (exposed: Option<Value>, cpConfig: map<Str, Value>, exposes: map<Str, Options>)
      ensures this.exposed == exposed && this.cpConfig == cpConfig && this.exposes == exposes
    {
      this.exposed := exposed;
      this.cpConfig := cpConfig;
      this.exposes := exposes;
    }
  }

  /** The decorator's options: its keyword arguments plus the three positional ones. */
  function DecoratorOptions(template: Value, acceptFormat: Str, asFormat: Option<Str>, kwargs: Options): (r: Options)
    ensures r.Keys == kwargs.Keys + {"template", "accept_format", "as_format"}
    ensures r["template"] == template && r["accept_format"] == VStr(acceptFormat)
    ensures r["as_format"] == (if asFormat.Some? then VStr(asFormat.value) else VNone)
    ensures forall k :: k in kwargs && k !in {"template", "accept_format", "as_format"} ==> r[k] == kwargs[k]
  {
    kwargs["template" := template]["accept_format" := VStr(acceptFormat)]
          ["as_format" := if asFormat.Some? then VStr(asFormat.value) else VNone]
  }

  /** `exposed`, else `expose`, else true. */
  function ExposedFlag(kwargs: Options): (r: Value)
    ensures "exposed" in kwargs ==> r == kwargs["exposed"]
    ensures "exposed" !in kwargs && "expose" in kwargs ==> r == kwargs["expose"]
    ensures "exposed" !in kwargs && "expose" !in kwargs ==> r == VBool(true)
  {
    DictGet(kwargs, "exposed", DictGet(kwargs, "expose", VBool(true)))
  }

  /** Whether the decorator also answers JSON requests: `allow_json`, or the template "json". */
  predicate AnswersJson(template: Value, kwargs: Options)
  {
    Truthy(DictGet(kwargs, "allow_json", VNone)) || template == VStr("json")
  }

  /**
   * The keys a decorator registers its options under: the Accept value, a
   * non-empty `as_format`, and for JSON 'application/json' and 'json'.
   */
  function RegisteredKeys(acceptFormat: Str, asFormat: Option<Str>, json: bool): (r: set<Str>)
    ensures forall k :: k in r <==>
              k == acceptFormat || (asFormat.Some? && asFormat.value != [] && k == asFormat.value) ||
              (json && (k == "application/json" || k == "json"))
  {
    {acceptFormat} + (if asFormat.Some? && asFormat.value != [] then {asFormat.value} else {}) +
    (if json then {"application/json", "json"} else {})
  }

  /** The expose table after one decorator: its keys now give its options, every other entry stays. */
  function Register(exposes: map<Str, Options>, opts: Options, keys: set<Str>): (r: map<Str, Options>)
    ensures r.Keys == exposes.Keys + keys
    ensures forall k :: k in keys ==> r[k] == opts
    ensures forall k :: k in exposes && k !in keys ==> r[k] == exposes[k]
  {
    map k | k in exposes.Keys + keys :: if k in keys then opts else exposes[k]
  }

  /**
   * `ExposeTool.__call__` followed by applying the decorator to `f`:
   * positional arguments beyond the three named ones are refused; otherwise
   * `f` is exposed unless told not to be, the tool is switched on for it
   * and its options are registered.
   */
  method Expose(f: ExposedFunc, template: Value, acceptFormat: Str, asFormat: Option<Str>,
                extraArgs: seq<Value>, kwargs: Options)
    returns (r: Result<()>)
    modifies f
    ensures extraArgs != [] ==> r.Err? && r.exc.TypeError? && unchanged(f)
    ensures extraArgs == [] ==> r.Ok?
    ensures extraArgs == [] ==>
              var opts := DecoratorOptions(template, acceptFormat, asFormat, kwargs);
              f.exposed == (if Truthy(ExposedFlag(opts)) then Some(ExposedFlag(opts)) else old(f.exposed)) &&
              f.cpConfig == old(f.cpConfig)[Subspace + "on" := VBool(true)] &&
              f.exposes == Register(old(f.exposes), opts, RegisteredKeys(acceptFormat, asFormat, AnswersJson(template, opts)))
  {
    if extraArgs != [] {
      return Err(TypeError("The 'expose' Tool does not accept positional arguments other than 'template', " +
                           "'accept_format' or 'as_format'; you must use keyword arguments."));
    }
    var opts := DecoratorOptions(template, acceptFormat, asFormat, kwargs);
    var flag := ExposedFlag(opts);
    if Truthy(flag) {
      f.exposed := Some(flag);
    }
    f.cpConfig := f.cpConfig[Subspace + "on" := VBool(true)];
    f.exposes := Register(f.exposes, opts, RegisteredKeys(acceptFormat, asFormat, AnswersJson(template, opts)));
    return Ok(());
  }

  /**
   * Decorators apply from the bottom up, so among stacked decorators that
   * share a key the one listed first wins it; keys only the other one has
   * keep its options.
   */
  lemma FirstListedWins(exposes: map<Str, Options>, upper: Options, upperKeys: set<Str>,
                        lower: Options, lowerKeys: set<Str>, k: Str)
    requires k in upperKeys + lowerKeys
    ensures var table := Register(Register(exposes, lower, lowerKeys), upper, upperKeys);
            k in table && table[k] == (if k in upperKeys then upper else lower)
  {
  }

  // ---------------------------------------------------------------------
  // handler: choosing the options for a request

  /** The index of the first of `keys` that is present in `table`. */
  function FirstPresent<V>(table: map<Str, V>, keys: seq<Option<Str>>): (r: Option<nat>)
    ensures r.Some? ==> r.value < |keys| && keys[r.value].Some? && keys[r.value].value in table
    ensures r.Some? ==> forall j :: 0 <= j < r.value ==> !(keys[j].Some? && keys[j].value in table)
    ensures r.None? ==> forall j :: 0 <= j < |keys| ==> !(keys[j].Some? && keys[j].value in table)
  {
    if keys == [] then None
    else if keys[0].Some? && keys[0].value in table then Some(0)
    else match FirstPresent(table, keys[1..])
         case None => None
         case Some(i) => Some(i + 1)
  }

  /** `request.tg_format` as a key of the expose table: a string is one, None and other scalars match nothing. */
  function FormatKey(tgFormat: Value): (r: Result<Option<Str>>)
    ensures r.Err? <==> tgFormat.VList? || tgFormat.VDict?
    ensures r.Ok? ==> (r.value.Some? <==> tgFormat.VStr?)
    ensures tgFormat.VStr? ==> r == Ok(Some(tgFormat.s))
  {
    match tgFormat
    case VStr(s) => Ok(Some(s))
    case VList(_) => Err(TypeError("unhashable type: 'list'"))
    case VDict(_) => Err(TypeError("unhashable type: 'dict'"))
    case _ => Ok(None)
  }

  /**
   * The options `handler` uses: those under `tg_format`, else under the
   * simplified Accept value, else the default ones; a function without an
   * expose table has just empty default options. With none of the three
   * keys present the loop leaves `expose` unbound.
   */
  function ChooseExpose(exposes: Option<map<Str, Options>>, tgFormat: Value, accept: Str): (r: Result<Options>)
    ensures var table := exposes.GetOr(map["default" := map[]]);
            FormatKey(tgFormat).Ok? ==>
              var key := FormatKey(tgFormat).value;
              (key.Some? && key.value in table ==> r == Ok(table[key.value])) &&
              (!(key.Some? && key.value in table) && accept in table ==> r == Ok(table[accept])) &&
              (!(key.Some? && key.value in table) && accept !in table && "default" in table ==> r == Ok(table["default"])) &&
              (!(key.Some? && key.value in table) && accept !in table && "default" !in table ==> r == Err(NameError("expose")))
    ensures FormatKey(tgFormat).Err? ==> r.Err? && r.exc.TypeError?
    ensures exposes.None? && FormatKey(tgFormat).Ok? ==> r == Ok(map[])
  {
    var table := exposes.GetOr(map["default" := map[]]);
    match FormatKey(tgFormat)
    case Err(e) => Err(e)
    case Ok(key) =>
      var keys := [key, Some(accept), Some("default")];
      assert keys[0] == key && keys[1] == Some(accept) && keys[2] == Some("default");
      match FirstPresent(table, keys)
      case None => Err(NameError("expose"))
      case Some(i) => Ok(table[keys[i].value])
  }

  /** A decorator answering JSON is chosen by `tg_format=json` and by an Accept of application/json. */
  lemma JsonRegistrationSelected(exposes: map<Str, Options>, template: Value, acceptFormat: Str, asFormat: Option<Str>,
                                 kwargs: Options, accept: Str)
    requires AnswersJson(template, DecoratorOptions(template, acceptFormat, asFormat, kwargs))
    ensures var opts := DecoratorOptions(template, acceptFormat, asFormat, kwargs);
            var table := Register(exposes, opts, RegisteredKeys(acceptFormat, asFormat, true));
            ChooseExpose(Some(table), VStr("json"), accept) == Ok(opts) &&
            ChooseExpose(Some(table), VNone, "application/json") == Ok(opts)
  {
  }

  /** The options that reach `render`. */
  datatype ExposePlan = ExposePlan(template: Value, format: Value, mapping: Value, fragment: Value, contentType: Value)

  /** Whether JSON is asked for: `tg_format` is 'json' or the Accept value is a JSON type. */
  predicate JsonRequested(tgFormat: Value, accept: Str)
  {
    tgFormat == VStr("json") || accept == "application/json" || accept == "text/javascript"
  }

  /**
   * The template `handler` decides on before relative references are
   * resolved: 'json' when the format is 'json', when neither format nor
   * template is set, or when JSON is allowed and asked for; otherwise the
   * given template, or the format when that is empty.
   */
  function ChosenTemplate(format: Value, template: Value, allowJson: Value, tgFormat: Value, accept: Str): (r: Value)
    ensures (format == VStr("json") || (format == VNone && template == VNone) ||
             (Truthy(allowJson) && JsonRequested(tgFormat, accept))) ==> r == VStr("json")
    ensures !(format == VStr("json") || (format == VNone && template == VNone) ||
              (Truthy(allowJson) && JsonRequested(tgFormat, accept))) ==>
              r == (if Truthy(template) then template else format)
    ensures Truthy(format) || Truthy(template) ==> Truthy(r)
  {
    var t1 := if format == VStr("json") || (format == VNone && template == VNone) then VStr("json") else template;
    var t2 := if Truthy(allowJson) && JsonRequested(tgFormat, accept) then VStr("json") else t1;
    if !Truthy(t2) then format else t2
  }

  /** A template chosen as 'json' is rendered by the json engine, whatever the default view. */
  lemma JsonTemplateRendersJson(defaultView: Str)
    ensures ChooseEngine(VStr("json"), Engines, defaultView) == Ok(EngineChoice(VNone, "json"))
  {
    assert ':' !in "json";
  }

  /** A template reference relative to the controller's package. */
  predicate Relative(template: Value)
  {
    template.VStr? && StartsWith(template.s, ".")
  }

  /** The options of `expose` with the `tools.expose.*` request configuration as fallback. */
  function PlanFields(expose: Options, cfg: map<Str, Value>, tgFormat: Value, accept: Str, defaultContentType: Value): (r: ExposePlan)
    ensures r.format == DictGet(expose, "format", DictGet(cfg, "tools.expose.format", VNone))
    ensures r.template == ChosenTemplate(r.format, DictGet(expose, "template", DictGet(cfg, "tools.expose.template", VNone)),
                                         DictGet(expose, "allow_json", DictGet(cfg, "tools.expose.allow_json", VBool(false))),
                                         tgFormat, accept)
    ensures r.mapping == DictGet(expose, "mapping", VNone) && r.fragment == DictGet(expose, "fragment", VNone)
    ensures r.contentType == DictGet(expose, "content_type", defaultContentType)
  {
    var format := DictGet(expose, "format", DictGet(cfg, "tools.expose.format", VNone));
    var template := DictGet(expose, "template", DictGet(cfg, "tools.expose.template", VNone));
    var allowJson := DictGet(expose, "allow_json", DictGet(cfg, "tools.expose.allow_json", VBool(false)));
    ExposePlan(ChosenTemplate(format, template, allowJson, tgFormat, accept), format,
               DictGet(expose, "mapping", VNone), DictGet(expose, "fragment", VNone),
               DictGet(expose, "content_type", defaultContentType))
  }

  /**
   * The plan as the source computes it: a relative template is to be
   * prefixed with the package of `func`, a name `handler` does not define,
   * so every relative template fails.
   */
  function PlanAsWritten(expose: Options, cfg: map<Str, Value>, tgFormat: Value, accept: Str,
                         defaultContentType: Value): (r: Result<ExposePlan>)
    ensures var p := PlanFields(expose, cfg, tgFormat, accept, defaultContentType);
            (Relative(p.template) ==> r == Err(NameError("func"))) && (!Relative(p.template) ==> r == Ok(p))
  {
    var p := PlanFields(expose, cfg, tgFormat, accept, defaultContentType);
    if Relative(p.template) then Err(NameError("func")) else Ok(p)
  }

  /** `@expose(template=".templates.welcome")` makes every request to the controller fail. */
  lemma RelativeTemplateFails(cfg: map<Str, Value>, tgFormat: Value, accept: Str, defaultContentType: Value)
    ensures PlanAsWritten(map["template" := VStr(".templates.welcome"), "format" := VStr("html"),
                              "allow_json" := VBool(false)],
                          cfg, tgFormat, accept, defaultContentType).Err?
  {
    var expose := map["template" := VStr(".templates.welcome"), "format" := VStr("html"), "allow_json" := VBool(false)];
    assert VStr("html") != VStr("json");
    assert Relative(VStr(".templates.welcome"));
    var p := PlanFields(expose, cfg, tgFormat, accept, defaultContentType);
    assert p.template == VStr(".templates.welcome");
  }

  /** `m[:m.rfind('.')]`: the package of a dotted module name (Python slicing drops the last character when there is no dot). */
  function PackageOf(moduleName: Str): (r: Str)
    ensures |r| <= |moduleName|
    ensures '.' in moduleName ==> |r| == RFindChar(moduleName, '.')
    ensures '.' in moduleName ==> r + moduleName[|r|..] == moduleName && moduleName[|r|] == '.' && '.' !in moduleName[|r| + 1..]
  {
    var k := RFindChar(moduleName, '.');
    if k >= 0 then moduleName[..k]
    else if moduleName == [] then [] else moduleName[..|moduleName| - 1]
  }

  /**
   * The plan as intended: a relative template is resolved against the
   * package of the controller's module `handlerModule`.
   */
  function Plan(expose: Options, cfg: map<Str, Value>, tgFormat: Value, accept: Str,
                defaultContentType: Value, handlerModule: Str): (r: ExposePlan)
    ensures var p := PlanFields(expose, cfg, tgFormat, accept, defaultContentType);
            (!Relative(p.template) ==> r == p) &&
            (Relative(p.template) ==> r == p.(template := VStr(PackageOf(handlerModule) + p.template.s)))
  {
    var p := PlanFields(expose, cfg, tgFormat, accept, defaultContentType);
    if Relative(p.template) then p.(template := VStr(PackageOf(handlerModule) + p.template.s)) else p
  }

  /**
   * The corrected plan agrees with the source wherever the source works,
   * and a relative template names a template inside the controller's
   * package: ".templates.welcome" in "app.controllers" is "app.templates.welcome".
   */
  lemma RelativeTemplateResolved(expose: Options, cfg: map<Str, Value>, tgFormat: Value, accept: Str,
                                 defaultContentType: Value, handlerModule: Str)
    ensures var asWritten := PlanAsWritten(expose, cfg, tgFormat, accept, defaultContentType);
            asWritten.Ok? ==> asWritten.value == Plan(expose, cfg, tgFormat, accept, defaultContentType, handlerModule)
    ensures var p := Plan(expose, cfg, tgFormat, accept, defaultContentType, handlerModule);
            var written := PlanFields(expose, cfg, tgFormat, accept, defaultContentType).template;
            Relative(written) && '.' in handlerModule ==>
              p.template.VStr? && StartsWith(p.template.s, PackageOf(handlerModule) + ".") &&
              p.template.s[|PackageOf(handlerModule)|..] == written.s
  {
    var written := PlanFields(expose, cfg, tgFormat, accept, defaultContentType).template;
    if Relative(written) {
      var pkg := PackageOf(handlerModule);
      assert (pkg + written.s)[..|pkg| + 1] == pkg + written.s[..1];
    }
  }

  lemma PackageOfExample()
    ensures PackageOf("app.controllers") == "app"
  {
    var m := "app.controllers";
    assert m[3] == '.' && m[4..] == "controllers";
    RFindCharAt(m, '.', 3);
    assert m[..3] == "app";
  }

  // ---------------------------------------------------------------------
  // before_handler and handler on a request

  /** The request state the tool reads and writes. */
  class ExposeRequest {
    var tgFormat: Option<Value>      // `request.tg_format`, None while the attribute is unset
    var params: map<Str, Value>
    var hasHandler: bool             // a handler was found for the request
    var wrapped: bool                // the handler has been replaced by the tool's wrapper

    constructor (tgFormat: Option<Value>, params: map<Str, Value>, hasHandler: bool)
      ensures this.tgFormat == tgFormat && this.params == params && this.hasHandler == hasHandler && !wrapped
    {
      this.tgFormat := tgFormat;
      this.params := params;
      this.hasHandler := hasHandler;
      wrapped := false;
    }
  }

  /**
   * `before_handler`: the first call moves `tg_format` out of the
   * parameters (None when absent); a later call leaves both alone. A
   * request with a handler gets it wrapped.
   */
  method BeforeHandler(req: ExposeRequest)
    modifies req`tgFormat, req`params, req`wrapped
    ensures old(req.tgFormat).Some? ==> req.tgFormat == old(req.tgFormat) && req.params == old(req.params)
    ensures old(req.tgFormat).None? ==>
              req.tgFormat == Some(DictGet(old(req.params), "tg_format", VNone)) &&
              req.params == old(req.params) - {"tg_format"}
    ensures "tg_format" in old(req.params) && old(req.tgFormat).None? ==> "tg_format" !in req.params
    ensures req.wrapped == (old(req.wrapped) || req.hasHandler)
  {
    if req.tgFormat.None? {
      req.tgFormat := Some(DictGet(req.params, "tg_format", VNone));
      req.params := req.params - {"tg_format"};
    }
    if req.hasHandler {
      req.wrapped := true;
    }
  }

  /** What `handler` returns: output the controller rendered itself, or the engine call for its dictionary. */
  datatype HandlerOutput = Unrendered(output: Value) | Engine(call: EngineCall)

  /** The response header the handler sets. */
  class ExposeResponse {
    var contentType: Option<Str>

    constructor (contentType: Option<Str>)
      ensures this.contentType == contentType
    {
      this.contentType := contentType;
    }
  }

  /** A content type option as the `Content-Type` header entry passed to `render` (empty for none). */
  function HeaderEntry(contentType: Value): (r: Str)
    ensures contentType.VStr? ==> r == contentType.s
    ensures !contentType.VStr? ==> r == []
  {
    if contentType.VStr? then contentType.s else []
  }

  /**
   * `handler`, given the controller's output: anything but a dictionary is
   * returned as it is; a dictionary gets `tg_css` and is rendered with the
   * options chosen as the code is written (a relative template raises
   * NameError before anything is rendered), and the resulting content type, when not empty, becomes
   * the response's.
   */
  method Handler(output: Value, exposes: Option<map<Str, Options>>, tgFormat: Value, acceptHeader: Str,
                 simplify: Str -> Str, cfg: map<Str, Value>, defaultContentType: Value,
                 defaultView: Str, mimeOf: Str -> Str, hasCharset: Str -> bool, encodingOf: Str -> Str,
                 resp: ExposeResponse)
    returns (r: Result<HandlerOutput>)
    modifies resp
    ensures !output.VDict? ==> r == Ok(Unrendered(output)) && resp.contentType == old(resp.contentType)
    ensures output.VDict? ==>
              var accept := simplify(Lower(acceptHeader));
              var chosen := ChooseExpose(exposes, tgFormat, accept);
              (chosen.Err? ==> r == Err(chosen.exc) && resp.contentType == old(resp.contentType)) &&
              (chosen.Ok? ==>
                 var planned := PlanAsWritten(chosen.value, cfg, tgFormat, accept, defaultContentType);
                 (planned.Err? ==> r == Err(planned.exc) && resp.contentType == old(resp.contentType)) &&
                 (planned.Ok? ==>
                 var p := planned.value;
                 var rendered := Render(output.entries["tg_css" := VList([])], p.template, p.format,
                                        Some(HeaderEntry(p.contentType)), p.mapping, p.fragment, Engines, defaultView, cfg,
                                        mimeOf, hasCharset, encodingOf);
                 (rendered.Err? ==> r == Err(rendered.exc) && resp.contentType == old(resp.contentType)) &&
                 (rendered.Ok? ==> r == Ok(Engine(rendered.value.call)) &&
                                   resp.contentType == (if rendered.value.contentType.value != [] then rendered.value.contentType
                                                        else old(resp.contentType)))))
  {
    if !output.VDict? {
      return Ok(Unrendered(output));
    }
    var accept := simplify(Lower(acceptHeader));
    var chosen := ChooseExpose(exposes, tgFormat, accept);
    if chosen.Err? {
      return Err(chosen.exc);
    }
    var planned := PlanAsWritten(chosen.value, cfg, tgFormat, accept, defaultContentType);
    if planned.Err? {
      return Err(planned.exc);
    }
    var p := planned.value;
    var info := output.entries["tg_css" := VList([])];
    var rendered := Render(info, p.template, p.format, Some(HeaderEntry(p.contentType)), p.mapping, p.fragment,
                           Engines, defaultView, cfg, mimeOf, hasCharset, encodingOf);
    if rendered.Err? {
      return Err(rendered.exc);
    }
    var ct := rendered.value.contentType.value;
    if ct != [] {
      resp.contentType := Some(ct);
    }
    return Ok(Engine(rendered.value.call));
  }
}
