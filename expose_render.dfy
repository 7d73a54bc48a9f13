/*
 * The rendering front end of the expose tool (gearshift/tools/expose/render.py):
 * which template engine renders a template reference, how the output format
 * is normalised for that engine, how the response content type and charset
 * are derived, which keys the JSON engine keeps, and how dotted template
 * references become template file paths.
 *
 * The engines themselves (Genshi, Kid, Mako, Kajiki, simplejson) are not
 * modelled: rendering ends in an `EngineCall` record naming the engine and
 * the arguments it would be called with. The helpers from gearshift.util
 * (`get_mime_type_for_format`, `mime_type_has_charset`,
 * `get_template_encoding_default`) and `resource_filename` are parameters.
 */
module ExposeRender {
  import opened Common

  /** The engines registered by the module. */
  const Engines: set<Str> := {"kajiki", "genshi", "json", "kid", "mako"}

  /** The engine name and the template reference handed to it. */
  datatype EngineChoice = EngineChoice(template: Value, engineName: Str)

  function NotInstalled(name: Str): Exc
  {
    KeyError("Template engine " + name + " is not installed")
  }

  /**
   * `_choose_engine`: "name:tmpl" names the engine before the first colon; a
   * bare registered engine name is that engine with no template; anything
   * else (including no template) goes to the default view. The engine must
   * be registered.
   */
  function ChooseEngine(template: Value, engines: set<Str>, defaultView: Str): (r: Result<EngineChoice>)
    ensures r.Ok? ==> r.value.engineName in engines
    ensures r.Err? ==> r.exc.KeyError?
    ensures template.VStr? && ':' in template.s ==>
              var name := template.s[..FindChar(template.s, ':')];
              (r.Ok? <==> name in engines) &&
              (r.Ok? ==> r.value.engineName == name && r.value.template.VStr? &&
                         r.value.engineName + [':'] + r.value.template.s == template.s)
    ensures template.VStr? && ':' !in template.s && template.s in engines ==>
              r == Ok(EngineChoice(VNone, template.s))
    ensures (!template.VStr? || (':' !in template.s && template.s !in engines)) ==>
              (r.Ok? <==> defaultView in engines) && (r.Ok? ==> r.value == EngineChoice(template, defaultView))
  {
    var (name, tmpl) :=
      if template.VStr? && ':' in template.s then
        var parts := SplitFirst(template.s, ':');
        (parts[0], VStr(parts[1]))
      else if template.VStr? && template.s in engines then (template.s, VNone)
      else (defaultView, template);
    if name in engines then Ok(EngineChoice(tmpl, name)) else Err(NotInstalled(name))
  }

  /**
   * The format handed to the engine: 'plain' means 'text' to Genshi and
   * 'text' means 'plain' to Kid; no format means JSON for the JSON engine
   * and otherwise the engine's configured output format, then its default
   * format, then 'html'.
   */
  function EngineFormat(format: Value, engineName: Str, cfg: map<Str, Value>): (r: Value)
  {
    if Truthy(format) then
      if format == VStr("plain") && engineName == "genshi" then VStr("text")
      else if format == VStr("text") && engineName == "kid" then VStr("plain")
      else format
    else if engineName == "json" then VStr("json")
    else DictGet(cfg, engineName + ".outputformat", DictGet(cfg, engineName + ".default_format", VStr("html")))
  }

  /**
   * A requested format is only ever translated between 'plain' and 'text'
   * for the engine that knows the other spelling, so translating it again
   * changes nothing; and Genshi is never asked for 'plain' nor Kid for 'text'.
   */
  lemma EngineFormatStable(format: Value, engineName: Str, cfg: map<Str, Value>)
    requires Truthy(format)
    ensures Truthy(EngineFormat(format, engineName, cfg))
    ensures EngineFormat(EngineFormat(format, engineName, cfg), engineName, cfg) == EngineFormat(format, engineName, cfg)
    ensures engineName == "genshi" ==> EngineFormat(format, engineName, cfg) != VStr("plain")
    ensures engineName == "kid" ==> EngineFormat(format, engineName, cfg) != VStr("text")
    ensures format != VStr("plain") && format != VStr("text") ==> EngineFormat(format, engineName, cfg) == format
  {
  }

  /**
   * The word a format string contributes to the content type: its first
   * whitespace-separated word, cut at the first '-', lower-cased. A blank
   * string has no first word (IndexError).
   */
  function FormatWord(s: Str): (r: Result<Str>)
    ensures r.Err? <==> LStrip(s) == []
    ensures r.Err? ==> r.exc == IndexError
    ensures r.Ok? ==> '-' !in r.value
    ensures r.Ok? ==> forall i :: 0 <= i < |r.value| ==> !IsSpace(r.value[i]) && !('A' <= r.value[i] <= 'Z')
    ensures r.Ok? ==> StartsWith(Lower(LStrip(s)), r.value)
  {
    match FirstWord(s)
    case None => Err(IndexError)
    case Some(w) =>
      var head := SplitFirst(w, '-')[0];
      assert StartsWith(w, head) by {
        if '-' in w {
          assert w == head + ['-'] + SplitFirst(w, '-')[1];
        }
      }
      var r := Lower(head);
      assert Lower(LStrip(s))[..|r|] == r;
      Ok(r)
  }

  /**
   * The format the content type is derived from: the first element of a
   * list format, a format string's first word (see `FormatWord`), 'html'
   * for no format or a format that is not a string.
   */
  function ContentFormat(format: Value): (r: Result<Str>)
    ensures !Truthy(format) ==> r == Ok("html")
    ensures format.VStr? ==> (Truthy(format) ==> r == FormatWord(format.s))
    ensures r.Err? ==> r.exc == IndexError
  {
    if !Truthy(format) then Ok("html")
    else
      var f := if format.VList? then format.items[0] else format;
      if f.VStr? then FormatWord(f.s) else Ok("html")
  }

  /**
   * The charset rule: a content type that takes a charset and names none
   * gets the engine's default template encoding, when it has one.
   */
  function WithCharset(contentType: Str, engineName: Str, hasCharset: Str -> bool, encodingOf: Str -> Str): (r: Str)
    ensures StartsWith(r, contentType)
    ensures r != contentType <==>
              hasCharset(contentType) && !Contains(contentType, "; charset=") && encodingOf(engineName) != []
    ensures r != contentType ==> r[|contentType|..] == "; charset=" + encodingOf(engineName)
  {
    if hasCharset(contentType) && !Contains(contentType, "; charset=") && encodingOf(engineName) != [] then
      contentType + "; charset=" + encodingOf(engineName)
    else contentType
  }

  /** The charset rule never adds a second charset. */
  lemma WithCharsetIdempotent(contentType: Str, engineName: Str, hasCharset: Str -> bool, encodingOf: Str -> Str)
    ensures var once := WithCharset(contentType, engineName, hasCharset, encodingOf);
            WithCharset(once, engineName, hasCharset, encodingOf) == once
  {
    var once := WithCharset(contentType, engineName, hasCharset, encodingOf);
    if once != contentType {
      ContainsInfix(contentType, "; charset=", encodingOf(engineName));
    }
  }

  /**
   * The `Content-Type` entry of the headers after rendering: a given one is
   * kept, an empty one is derived from the format; then the charset rule.
   */
  function ContentType(given: Str, format: Value, engineName: Str, mimeOf: Str -> Str,
                       hasCharset: Str -> bool, encodingOf: Str -> Str): (r: Result<Str>)
    ensures given != [] ==> r == Ok(WithCharset(given, engineName, hasCharset, encodingOf))
    ensures given == [] ==>
              (r.Err? <==> ContentFormat(format).Err?) &&
              (r.Ok? ==> r.value == WithCharset(mimeOf(ContentFormat(format).value), engineName, hasCharset, encodingOf))
  {
    if given != [] then Ok(WithCharset(given, engineName, hasCharset, encodingOf))
    else
      match ContentFormat(format)
      case Err(e) => Err(e)
      case Ok(f) => Ok(WithCharset(mimeOf(f), engineName, hasCharset, encodingOf))
  }

  /** The engine invocation `render` ends in. */
  datatype EngineCall = EngineCall(engineName: Str, template: Value, info: map<Str, Value>, format: Value, fragment: Value,
                                   mapping: Value)

  /** `mapping or dict()` */
  function MappingOrEmpty(mapping: Value): (r: Value)
    ensures Truthy(mapping) ==> r == mapping
    ensures !Truthy(mapping) ==> r == VDict(map[])
  {
    if Truthy(mapping) then mapping else VDict(map[])
  }

  /** What `render` produces: the engine call and, when headers were passed, their new content type. */
  datatype Rendered = Rendered(call: EngineCall, contentType: Option<Str>)

  /**
   * The template reference and the data after the first line of `render`:
   * JSON output forces the json template and leaves the data alone;
   * otherwise a `tg_template` entry is popped from the data and overrides
   * the template argument.
   */
  function TemplateAndInfo(info: map<Str, Value>, template: Value, format: Value): (r: (Value, map<Str, Value>))
    ensures format == VStr("json") ==> r == (VStr("json"), info)
    ensures format != VStr("json") ==> r.1 == info - {"tg_template"}
    ensures format != VStr("json") ==> r.0 == DictGet(info, "tg_template", template)
  {
    if format == VStr("json") then (VStr("json"), info)
    else if "tg_template" in info then (info["tg_template"], info - {"tg_template"})
    else (template, info)
  }

  /**
   * `render`. `headers` is None when no headers dictionary is passed, and
   * otherwise its `Content-Type` entry (empty for a missing or empty one).
   */
  function Render(info: map<Str, Value>, template: Value, format: Value, headers: Option<Str>, mapping: Value,
                  fragment: Value, engines: set<Str>, defaultView: Str, cfg: map<Str, Value>,
                  mimeOf: Str -> Str, hasCharset: Str -> bool, encodingOf: Str -> Str): (r: Result<Rendered>)
    ensures var (tmpl, data) := TemplateAndInfo(info, template, format);
            var choice := ChooseEngine(tmpl, engines, defaultView);
            (choice.Err? ==> r == Err(choice.exc)) &&
            (choice.Ok? ==>
               var fmt := EngineFormat(format, choice.value.engineName, cfg);
               var call := EngineCall(choice.value.engineName, choice.value.template, data, fmt, fragment,
                                      MappingOrEmpty(mapping));
               (headers.None? ==> r == Ok(Rendered(call, None))) &&
               (headers.Some? ==>
                  var ct := ContentType(headers.value, fmt, choice.value.engineName, mimeOf, hasCharset, encodingOf);
                  (ct.Err? ==> r == Err(ct.exc)) &&
                  (ct.Ok? ==> r == Ok(Rendered(call, Some(ct.value))))))
    ensures r.Ok? ==> r.value.call.engineName in engines && (headers.None? <==> r.value.contentType.None?)
    ensures r.Ok? && headers.Some? && headers.value != [] ==> StartsWith(r.value.contentType.value, headers.value)
    ensures r.Err? ==> r.exc.KeyError? || r.exc == IndexError
  {
    var (tmpl, data) := TemplateAndInfo(info, template, format);
    match ChooseEngine(tmpl, engines, defaultView)
    case Err(e) => Err(e)
    case Ok(choice) =>
      var fmt := EngineFormat(format, choice.engineName, cfg);
      var call := EngineCall(choice.engineName, choice.template, data, fmt, fragment, MappingOrEmpty(mapping));
      match headers
      case None => Ok(Rendered(call, None))
      case Some(given) =>
        match ContentType(given, fmt, choice.engineName, mimeOf, hasCharset, encodingOf)
        case Err(e) => Err(e)
        case Ok(ct) => Ok(Rendered(call, Some(ct)))
  }

  /** The template reference "json" names the json engine with no template. */
  lemma JsonEngineChosen(defaultView: Str)
    ensures ChooseEngine(VStr("json"), Engines, defaultView) == Ok(EngineChoice(VNone, "json"))
  {
    assert ':' !in "json";
  }

  /** The content type of JSON output can always be derived. */
  lemma JsonContentType(given: Str, hasCharset: Str -> bool, mimeOf: Str -> Str, encodingOf: Str -> Str)
    ensures ContentType(given, VStr("json"), "json", mimeOf, hasCharset, encodingOf).Ok?
  {
    if given == [] {
      assert LStrip("json") == "json" by { assert !IsSpace("json"[0]); }
      assert FormatWord("json").Ok?;
    }
  }

  /** JSON output with the registered engines always goes to the json engine with the data untouched. */
  lemma JsonFormatUsesJsonEngine(info: map<Str, Value>, template: Value, headers: Option<Str>, mapping: Value, fragment: Value,
                                 defaultView: Str, cfg: map<Str, Value>,
                                 mimeOf: Str -> Str, hasCharset: Str -> bool, encodingOf: Str -> Str)
    ensures var r := Render(info, template, VStr("json"), headers, mapping, fragment, Engines, defaultView, cfg,
                            mimeOf, hasCharset, encodingOf);
            r.Ok? && r.value.call == EngineCall("json", VNone, info, VStr("json"), fragment, MappingOrEmpty(mapping))
  {
    JsonEngineChosen(defaultView);
    assert EngineFormat(VStr("json"), "json", cfg) == VStr("json");
    if headers.Some? {
      JsonContentType(headers.value, hasCharset, mimeOf, encodingOf);
    }
  }

  /** `render_json`'s filter: every "tg_" key is dropped except "tg_flash". */
  function JsonInfo(info: map<Str, Value>): (r: map<Str, Value>)
    ensures forall k :: k in r <==> k in info && (!StartsWith(k, "tg_") || k == "tg_flash")
    ensures forall k :: k in r ==> r[k] == info[k]
  {
    map k | k in info && !(StartsWith(k, "tg_") && k != "tg_flash") :: info[k]
  }

  /** Filtering the data for JSON twice is filtering it once. */
  lemma JsonInfoIdempotent(info: map<Str, Value>)
    ensures JsonInfo(JsonInfo(info)) == JsonInfo(info)
  {
  }

  /**
   * The file of a dotted template reference: the module before the last
   * '.', the last part plus the extension as file name, resolved by
   * `resource`; an undotted reference is the name plus the extension.
   */
  function DottedTemplatePath(template: Str, extension: Str, resource: (Str, Str) -> Str): (r: Str)
    ensures '.' !in template ==> r == template + "." + extension
    ensures '.' in template ==>
              var k := RFindChar(template, '.');
              '.' !in template[k + 1..] && template[..k] + "." + template[k + 1..] == template &&
              r == resource(template[..k], template[k + 1..] + "." + extension)
  {
    var parts := RSplitLast(template, '.');
    if |parts| == 1 then template + "." + extension
    else
      var k := RFindChar(template, '.');
      assert template == template[..k] + "." + template[k + 1..];
      resource(parts[0], parts[1] + "." + extension)
  }

  /**
   * The Genshi template file: a reference with a '/' names the package
   * before the first '/' and the path after it; otherwise the dotted rule
   * with extension 'txt' for text output and 'html' for everything else.
   */
  function GenshiTemplatePath(template: Str, format: Value, resource: (Str, Str) -> Str): (r: Str)
    ensures '/' in template ==>
              var k := FindChar(template, '/');
              '/' !in template[..k] && template[..k] + "/" + template[k + 1..] == template &&
              r == resource(template[..k], template[k + 1..])
    ensures '/' !in template ==> r == DottedTemplatePath(template, if format == VStr("text") then "txt" else "html", resource)
  {
    if '/' in template then
      var parts := SplitFirst(template, '/');
      var k := FindChar(template, '/');
      assert template == template[..k] + "/" + template[k + 1..];
      resource(parts[0], parts[1])
    else DottedTemplatePath(template, if format == VStr("text") then "txt" else "html", resource)
  }

  /** The Kid template file: the dotted rule with extension 'kid'. */
  function KidTemplatePath(template: Str, resource: (Str, Str) -> Str): (r: Str)
    ensures '.' !in template ==> r == template + ".kid"
  {
    DottedTemplatePath(template, "kid", resource)
  }

  /** The Mako template file: the dotted rule with the output format as extension. */
  function MakoTemplatePath(template: Str, format: Str, resource: (Str, Str) -> Str): (r: Str)
    ensures '.' !in template ==> r == template + "." + format
  {
    DottedTemplatePath(template, format, resource)
  }

  /**
   * `resource_filename` when pkg_resources is missing: the module's dotted
   * parts and the file name joined as a path.
   */
  function FallbackResource(pkg: Str, filename: Str): (r: Str)
    ensures '.' !in pkg ==> r == pkg + "/" + filename
  {
    var parts := Split(pkg, '.');
    assert '.' !in pkg ==> parts == [pkg] && Join(parts + [filename], "/") == pkg + "/" + Join([filename], "/");
    Join(parts + [filename], "/")
  }
}
