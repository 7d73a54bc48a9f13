/*
 * The markup tool (gearshift/tools/markup.py): a controller's dictionary is
 * run through a text markup engine (Textile, reStructuredText, Markdown,
 * Trac wiki), either from a template file or from the `tg_markup` entry,
 * and the result is stored back under `tg_markup` or replaces the output.
 *
 * The markup libraries are not modelled: whether an engine's library is
 * installed and what it produces are parameters, as are locating and
 * reading a template file (`resource_filename` and `codecs.open`).
 */
module Markup {
  import opened Common

  datatype MarkupEngine = Textile | Rest | Markdown | TracWiki

  /** Each engine's default template file extension. */
  function Extension(e: MarkupEngine): (r: Str)
    ensures e == Rest ==> r == "rst"
    ensures e != Rest ==> r == "txt"
  {
    match e
    case Rest => "rst"
    case _ => "txt"
  }

  /** The engines the module registers: the Trac wiki engine is defined but never registered. */
  const EnginesAsWritten: map<Str, MarkupEngine> := map["textile" := Textile, "rest" := Rest, "markdown" := Markdown]

  /** The engines as the tool's documentation lists them, the Trac wiki engine under "trac". */
  const Engines: map<Str, MarkupEngine> := EnginesAsWritten["trac" := TracWiki]

  datatype MarkupChoice = MarkupChoice(engine: MarkupEngine, template: Value, engineName: Str)

  /**
   * `_choose_engine`: "name:tmpl" names the engine before the first colon,
   * lower-cased; a bare registered name is that engine with no template;
   * anything else uses `tg.defaultmarkup`. The engine must be registered.
   */
  function ChooseEngine(template: Value, engines: map<Str, MarkupEngine>, defaultMarkup: Str): (r: Result<MarkupChoice>)
    ensures r.Ok? ==> r.value.engineName in engines && r.value.engine == engines[r.value.engineName]
    ensures r.Err? ==> r.exc.KeyError?
    ensures template.VStr? && ':' in template.s ==>
              var k := FindChar(template.s, ':');
              (r.Ok? <==> Lower(template.s[..k]) in engines) &&
              (r.Ok? ==> r.value.engineName == Lower(template.s[..k]) && r.value.template == VStr(template.s[k + 1..]))
    ensures template.VStr? && ':' !in template.s && template.s in engines ==>
              r == Ok(MarkupChoice(engines[template.s], VNone, template.s))
    ensures (!template.VStr? || (':' !in template.s && template.s !in engines)) ==>
              (r.Ok? <==> defaultMarkup in engines) && (r.Ok? ==> r.value.template == template && r.value.engineName == defaultMarkup)
  {
    var (name, tmpl) :=
      if template.VStr? && ':' in template.s then
        var k := FindChar(template.s, ':');
        (Lower(template.s[..k]), VStr(template.s[k + 1..]))
      else if template.VStr? && template.s in engines then (template.s, VNone)
      else (defaultMarkup, template);
    if name in engines then Ok(MarkupChoice(engines[name], tmpl, name))
    else Err(KeyError("Template engine " + name + " is not installed"))
  }

  /** "trac:..." cannot be rendered with the engines the module registers. */
  lemma TracNotRegistered(page: Str, defaultMarkup: Str)
    ensures ChooseEngine(VStr("trac:" + page), EnginesAsWritten, defaultMarkup).Err?
  {
    FindCharAfter("trac", ':', page);
    LowerTrac("trac");
    var s := "trac:" + page;
    assert s == "trac" + [':'] + page;
    assert s[..4] == "trac";
    assert "trac" != "rest" by { assert "trac"[0] != "rest"[0]; }
    assert |"trac"| != |"textile"| && |"trac"| != |"markdown"|;
    assert EnginesAsWritten.Keys == {"textile", "rest", "markdown"};
  }

  lemma LowerTrac(s: Str)
    requires s == "trac" || s == "Trac"
    ensures Lower(s) == "trac"
  {
  }

  /** With the Trac engine registered, "trac:..." goes to it, whatever the case of its name. */
  lemma TracRegistered(page: Str, defaultMarkup: Str)
    ensures ChooseEngine(VStr("Trac:" + page), Engines, defaultMarkup) == Ok(MarkupChoice(TracWiki, VStr(page), "trac"))
  {
    FindCharAfter("Trac", ':', page);
    LowerTrac("Trac");
    var s := "Trac:" + page;
    assert s == "Trac" + [':'] + page;
    assert s[..4] == "Trac" && s[5..] == page;
  }

  /**
   * An engine's `render`: only Markdown takes options (the others refuse
   * keyword arguments); without its library Markdown answers an error text
   * and the others return the markup unchanged.
   */
  function EngineRender(e: MarkupEngine, markup: Value, options: map<Str, Value>,
                        installed: MarkupEngine -> bool,
                        convert: (MarkupEngine, Value, map<Str, Value>) -> Value): (r: Result<Value>)
    ensures e != Markdown && options != map[] ==> r.Err? && r.exc.TypeError?
    ensures e != Markdown && options == map[] && !installed(e) ==> r == Ok(markup)
    ensures e == Markdown && !installed(e) ==> r == Ok(VStr("Error: markdown is not installed"))
    ensures installed(e) && (e == Markdown || options == map[]) ==> r == Ok(convert(e, markup, options))
  {
    if e != Markdown && options != map[] then Err(TypeError("render() got an unexpected keyword argument"))
    else if !installed(e) then
      if e == Markdown then Ok(VStr("Error: markdown is not installed")) else Ok(markup)
    else Ok(convert(e, markup, options))
  }

  /**
   * The template file of a template reference: module before the last '.',
   * file name the last part plus the extension; an undotted reference is in
   * module "".
   */
  function TemplateFile(template: Str, extension: Str): (r: (Str, Str))
    ensures '.' !in template ==> r == ("", template + "." + extension)
    ensures '.' in template ==> |r.1| >= |extension| + 1
    ensures '.' in template ==>
              '.' !in r.1[..|r.1| - |extension| - 1] && r.1[|r.1| - |extension| - 1..] == "." + extension &&
              r.0 + "." + r.1[..|r.1| - |extension| - 1] == template
  {
    var parts := RSplitLast(template, '.');
    if |parts| == 1 then ("", template + "." + extension)
    else
      var file := parts[1] + "." + extension;
      assert file[..|file| - |extension| - 1] == parts[1];
      (parts[0], file)
  }

  /** The text of a string-valued option, or `fallback` for any other value. */
  function TextOr(v: Value, fallback: Str): Str
  {
    if v.VStr? then v.s else fallback
  }

  /**
   * Where the markup comes from once the engine is known: a template file,
   * when there is a template (a missing file is 404), else the output's
   * `tg_markup` entry.
   */
  function MarkupSource(entries: map<Str, Value>, choice: MarkupChoice, markups: map<Str, Value>,
                        readFile: (Str, Str) -> Option<Str>): (r: Result<Value>)
    ensures !Truthy(choice.template) ==> r == Ok(DictGet(entries, "tg_markup", VNone))
    ensures Truthy(choice.template) && choice.template.VStr? ==>
              var file := TemplateFile(choice.template.s, TextOr(DictGet(markups, "extension", VNone), Extension(choice.engine)));
              (readFile(file.0, file.1).None? ==> r == Err(HTTPError(404))) &&
              (readFile(file.0, file.1).Some? ==> r == Ok(VStr(readFile(file.0, file.1).value)))
    ensures Truthy(choice.template) && !choice.template.VStr? ==> r.Err? && r.exc.TypeError?
  {
    if !Truthy(choice.template) then Ok(DictGet(entries, "tg_markup", VNone))
    else if !choice.template.VStr? then Err(TypeError("argument of type is not iterable"))
    else
      var extension := TextOr(DictGet(markups, "extension", VNone), Extension(choice.engine));
      var file := TemplateFile(choice.template.s, extension);
      match readFile(file.0, file.1)
      case None => Err(HTTPError(404))
      case Some(text) => Ok(VStr(text))
  }

  /**
   * `MarkupTool.handler`, given the controller's output and the tool's
   * `markups` options: anything but a dictionary passes through; otherwise
   * the markup is rendered with an engine the module registers (so never the
   * Trac wiki engine) and, as a fragment (the default), stored under
   * `tg_markup`, or else returned in place of the output.
   */
  function Handle(output: Value, markups: map<Str, Value>, defaultMarkup: Str,
                  installed: MarkupEngine -> bool, convert: (MarkupEngine, Value, map<Str, Value>) -> Value,
                  readFile: (Str, Str) -> Option<Str>): (r: Result<Value>)
    ensures !output.VDict? ==> r == Ok(output)
    ensures output.VDict? && r.Ok? && Truthy(DictGet(markups, "fragment", VBool(true))) ==>
              r.value.VDict? && r.value.entries.Keys == output.entries.Keys + {"tg_markup"} &&
              forall k :: k in output.entries && k != "tg_markup" ==> r.value.entries[k] == output.entries[k]
    ensures output.VDict? ==>
              var choice := ChooseEngine(DictGet(markups, "template", DictGet(output.entries, "tg_markup_template", VNone)),
                                         EnginesAsWritten, defaultMarkup);
              var fragment := Truthy(DictGet(markups, "fragment", VBool(true)));
              var options := DictGet(markups, "options", VDict(map[]));
              (choice.Err? ==> r == Err(choice.exc)) &&
              (choice.Ok? ==>
                 var source := MarkupSource(output.entries, choice.value, markups, readFile);
                 (source.Err? ==> r == Err(source.exc)) &&
                 (source.Ok? && !options.VDict? ==> r.Err? && r.exc.TypeError?) &&
                 (source.Ok? && options.VDict? ==>
                    var rendered := EngineRender(choice.value.engine, source.value, options.entries, installed, convert);
                    (rendered.Err? ==> r == Err(rendered.exc)) &&
                    (rendered.Ok? && fragment ==> r == Ok(VDict(output.entries["tg_markup" := rendered.value]))) &&
                    (rendered.Ok? && !fragment ==> r == Ok(rendered.value))))
  {
    if !output.VDict? then Ok(output)
    else
      var entries := output.entries;
      var template := DictGet(markups, "template", DictGet(entries, "tg_markup_template", VNone));
      match ChooseEngine(template, EnginesAsWritten, defaultMarkup)
      case Err(e) => Err(e)
      case Ok(choice) =>
        var fragment := DictGet(markups, "fragment", VBool(true));
        var options := DictGet(markups, "options", VDict(map[]));
        match MarkupSource(entries, choice, markups, readFile)
        case Err(e) => Err(e)
        case Ok(markup) =>
          if !options.VDict? then Err(TypeError("argument after ** must be a mapping"))
          else
            match EngineRender(choice.engine, markup, options.entries, installed, convert)
            case Err(e) => Err(e)
            case Ok(value) => if Truthy(fragment) then Ok(VDict(entries["tg_markup" := value])) else Ok(value)
  }

  /**
   * Without a template the controller's own `tg_markup` text is rendered; a
   * missing library leaves it as it was, so the output is unchanged.
   */
  lemma MissingLibraryKeepsMarkup(entries: map<Str, Value>, defaultMarkup: Str,
                                  installed: MarkupEngine -> bool, convert: (MarkupEngine, Value, map<Str, Value>) -> Value,
                                  readFile: (Str, Str) -> Option<Str>)
    requires "tg_markup" in entries && "tg_markup_template" !in entries
    requires defaultMarkup == "rest" && !installed(Rest)
    ensures Handle(VDict(entries), map[], defaultMarkup, installed, convert, readFile) == Ok(VDict(entries))
  {
    assert ChooseEngine(VNone, EnginesAsWritten, defaultMarkup) == Ok(MarkupChoice(Rest, VNone, "rest"));
    assert entries["tg_markup" := entries["tg_markup"]] == entries;
  }

  /** A template naming the Trac wiki engine makes the handler raise KeyError, whatever the output holds. */
  lemma TracTemplateRaises(entries: map<Str, Value>, page: Str, defaultMarkup: Str,
                           installed: MarkupEngine -> bool, convert: (MarkupEngine, Value, map<Str, Value>) -> Value,
                           readFile: (Str, Str) -> Option<Str>)
    ensures var r := Handle(VDict(entries), map["template" := VStr("trac:" + page)], defaultMarkup, installed, convert, readFile);
            r.Err? && r.exc.KeyError?
  {
    TracNotRegistered(page, defaultMarkup);
  }

  /** A function decorated with the markup tool: its `_cp_config`. */
  class MarkupFunc {
    var cpConfig: map<Str, Value>

    constructor (cpConfig: map<Str, Value>)
      ensures this.cpConfig == cpConfig
    {
      this.cpConfig := cpConfig;
    }
  }

  const Subspace: Str := "tools.markup."

  /**
   * `MarkupTool.__call__` applied to `f`: positional arguments beyond the
   * template are refused; otherwise the tool is switched on, every keyword
   * argument (with a non-empty template added) is set under the tool's
   * namespace, and the keyword arguments become the `markups` options,
   * replacing earlier ones.
   */
  method Decorate(f: MarkupFunc, template: Value, extraArgs: seq<Value>, kwargs: map<Str, Value>)
    returns (r: Result<()>)
    modifies f
    ensures extraArgs != [] ==> r.Err? && r.exc.TypeError? && f.cpConfig == old(f.cpConfig)
    ensures extraArgs == [] ==>
              var kw := if Truthy(template) then kwargs["template" := template] else kwargs;
              r.Ok? &&
              f.cpConfig == (old(f.cpConfig)[Subspace + "on" := VBool(true)] + PrefixKeys(Subspace, kw))
                              [Subspace + "markups" := VDict(kw)]
  {
    if extraArgs != [] {
      return Err(TypeError("The 'markup' Tool does not accept positional arguments other than 'template'."));
    }
    var kw := if Truthy(template) then kwargs["template" := template] else kwargs;
    f.cpConfig := (f.cpConfig[Subspace + "on" := VBool(true)] + PrefixKeys(Subspace, kw))[Subspace + "markups" := VDict(kw)];
    return Ok(());
  }

  /** After decorating, every option is readable under the tool's namespace. */
  lemma DecoratedOptionsVisible(cpConfig: map<Str, Value>, kw: map<Str, Value>, k: Str)
    requires k in kw && k != "markups"
    ensures var c := (cpConfig[Subspace + "on" := VBool(true)] + PrefixKeys(Subspace, kw))[Subspace + "markups" := VDict(kw)];
            Subspace + k in c && c[Subspace + k] == kw[k]
  {
    PrefixInjective(Subspace);
  }
}
