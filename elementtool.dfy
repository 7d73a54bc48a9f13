/*
 * The element tool (gearshift/tools/elementtool.py): a request body is
 * parsed into the configured Elements object and passed to the controller
 * as a parameter, and an Elements object in the controller's output is
 * serialised as JSON or XML according to `tg_format`, the Accept header and
 * the decorator's options.
 *
 * The Elements library and simplejson are not modelled: parsing yields an
 * opaque value and serialising is a parameter. `before_handler` is the
 * expose tool's (see `ExposeTool.BeforeHandler`).
 */
module ElementTool {
  import opened Common

  /** How the request body is read into the element. */
  datatype BodyParse = FromJson | FromXml | Untouched

  /**
   * The parse chosen for a request body: JSON for a JSON content type when
   * JSON is allowed, else XML for a non-empty body, else nothing.
   */
  function ParseMode(contentType: Str, allowJson: Value, body: Str): (r: BodyParse)
    ensures r == FromJson <==> Contains(contentType, "application/json") && Truthy(allowJson)
    ensures r == FromXml <==> !(Contains(contentType, "application/json") && Truthy(allowJson)) && body != []
  {
    if Contains(contentType, "application/json") && Truthy(allowJson) then FromJson
    else if body != [] then FromXml
    else Untouched
  }

  /**
   * The request parameters the controller receives: with an element
   * configured, the parsed element under its tag, replacing any parameter of
   * that name.
   */
  function RequestParams(params: map<Str, Value>, elementTag: Option<Str>, parsed: Value): (r: map<Str, Value>)
    ensures elementTag.None? ==> r == params
    ensures elementTag.Some? ==> r.Keys == params.Keys + {elementTag.value} && r[elementTag.value] == parsed
    ensures elementTag.Some? ==> forall k :: k in params && k != elementTag.value ==> r[k] == params[k]
  {
    if elementTag.Some? then params[elementTag.value := parsed] else params
  }

  datatype OutputFormat = Json | Xml

  /**
   * The output format: JSON when allowed and asked for by `tg_format` or by
   * a JSON Accept value; otherwise XML when `as_format` is 'default' or
   * equals `tg_format` (both unset counts as equal), or `accept_format` is
   * '*' '/' '*' or equals the Accept value; otherwise none.
   */
  function ChooseFormat(allowJson: Value, asFormat: Value, acceptFormat: Value, tgFormat: Value, accept: Str): (r: Option<OutputFormat>)
    ensures r == Some(Json) <==>
              Truthy(allowJson) && (tgFormat == VStr("json") || accept == "application/json" || accept == "text/javascript")
    ensures r == Some(Xml) ==>
              (asFormat == VStr("default") || asFormat == tgFormat || acceptFormat == VStr("*/*") || acceptFormat == VStr(accept))
    ensures r.None? <==> r != Some(Json) && !(asFormat == VStr("default") || asFormat == tgFormat ||
                                               acceptFormat == VStr("*/*") || acceptFormat == VStr(accept))
  {
    if Truthy(allowJson) && (tgFormat == VStr("json") || accept == "application/json" || accept == "text/javascript") then Some(Json)
    else if asFormat == VStr("default") || asFormat == tgFormat || acceptFormat == VStr("*/*") || acceptFormat == VStr(accept) then Some(Xml)
    else None
  }

  /**
   * A decorator given no formats serves XML to every request that does not
   * name a `tg_format`, since its unset `as_format` equals the unset
   * `tg_format`.
   */
  lemma UnsetFormatsServeXml(accept: Str)
    requires accept != "application/json" && accept != "text/javascript"
    ensures ChooseFormat(VBool(false), VNone, VNone, VNone, accept) == Some(Xml)
    ensures ChooseFormat(VBool(false), VNone, VNone, VStr("html"), accept).None?
  {
  }

  /**
   * The `for key, value in output.items()` search with its `break`: the
   * first value, in the key order `order`, that is an element.
   */
  function FirstElementIn(entries: map<Str, Value>, order: seq<Str>, isElement: Value -> bool): (r: Option<Value>)
    ensures r.Some? ==> isElement(r.value) &&
                        (exists i :: 0 <= i < |order| && order[i] in entries && entries[order[i]] == r.value &&
                           (forall j :: 0 <= j < i && order[j] in entries ==> !isElement(entries[order[j]])))
    ensures r.None? ==> forall i :: 0 <= i < |order| && order[i] in entries ==> !isElement(entries[order[i]])
  {
    if order == [] then None
    else if order[0] in entries && isElement(entries[order[0]]) then Some(entries[order[0]])
    else
      var rest := FirstElementIn(entries, order[1..], isElement);
      assert rest.Some? ==>
               exists i :: 0 <= i < |order| && order[i] in entries && entries[order[i]] == rest.value &&
                 (forall j :: 0 <= j < i && order[j] in entries ==> !isElement(entries[order[j]])) by {
        if rest.Some? {
          var k :| 0 <= k < |order[1..]| && order[1..][k] in entries && entries[order[1..][k]] == rest.value &&
                   (forall j :: 0 <= j < k && order[1..][j] in entries ==> !isElement(entries[order[1..][j]]));
          assert order[k + 1] == order[1..][k];
          forall j | 0 <= j < k + 1 && order[j] in entries
            ensures !isElement(entries[order[j]])
          {
            if j > 0 {
              assert order[j] == order[1..][j - 1];
            }
          }
        }
      }
      rest
  }

  /**
   * The element the handler serialises, with `order` the output
   * dictionary's iteration order: the first value that is an element, and
   * none exactly when no value is one.
   */
  function FirstElement(entries: map<Str, Value>, order: seq<Str>, isElement: Value -> bool): (r: Option<Value>)
    requires EnumeratesKeys(order, entries)
    ensures r.None? <==> forall k :: k in entries ==> !isElement(entries[k])
    ensures r.Some? ==> isElement(r.value) && r.value in entries.Values &&
                        (exists i :: 0 <= i < |order| && entries[order[i]] == r.value &&
                           (forall j :: 0 <= j < i ==> !isElement(entries[order[j]])))
  {
    var r := FirstElementIn(entries, order, isElement);
    assert r.None? ==> forall k :: k in entries ==> !isElement(entries[k]) by {
      if r.None? {
        forall k | k in entries
          ensures !isElement(entries[k])
        {
          var i :| 0 <= i < |order| && order[i] == k;
        }
      }
    }
    r
  }

  /** The response header the handler sets. */
  class ElementResponse {
    var contentType: Option<Value>

    constructor (contentType: Option<Value>)
      ensures this.contentType == contentType
    {
      this.contentType := contentType;
    }
  }

  /**
   * The output side of `ElementTool.handler`: anything but a dictionary, a
   * request no format applies to, or output without an element passes
   * through; otherwise the element is serialised, as JSON with content type
   * application/json or as XML with the configured content type.
   */
  method Serialise(output: Value, order: seq<Str>, allowJson: Value, asFormat: Value, acceptFormat: Value,
                   contentType: Value, tgFormat: Value, accept: Str, isElement: Value -> bool,
                   toJson: Value -> Str, toXml: Value -> Str, resp: ElementResponse)
    returns (r: Value)
    requires output.VDict? ==> EnumeratesKeys(order, output.entries)
    modifies resp
    ensures var format := ChooseFormat(allowJson, asFormat, acceptFormat, tgFormat, accept);
            var elem := if output.VDict? then FirstElement(output.entries, order, isElement) else None;
            (!output.VDict? || format.None? || elem.None? ==> r == output && resp.contentType == old(resp.contentType)) &&
            (output.VDict? && format == Some(Json) && elem.Some? ==>
               r == VStr(toJson(elem.value)) && resp.contentType == Some(VStr("application/json"))) &&
            (output.VDict? && format == Some(Xml) && elem.Some? ==>
               r == VStr(toXml(elem.value)) && resp.contentType == Some(contentType))
  {
    if !output.VDict? {
      return output;
    }
    var format := ChooseFormat(allowJson, asFormat, acceptFormat, tgFormat, accept);
    if format.None? {
      return output;
    }
    var elem := FirstElement(output.entries, order, isElement);
    if elem.None? {
      return output;
    }
    if format.value == Json {
      r := VStr(toJson(elem.value));
      resp.contentType := Some(VStr("application/json"));
    } else {
      r := VStr(toXml(elem.value));
      resp.contentType := Some(contentType);
    }
  }

  /** A function decorated with the element tool: its `_cp_config`. */
  class ElementFunc {
    var cpConfig: map<Str, Value>

    constructor (cpConfig: map<Str, Value>)
      ensures this.cpConfig == cpConfig
    {
      this.cpConfig := cpConfig;
    }
  }

  const Subspace: Str := "tools.elements."

  /**
   * `ElementTool.__call__` applied to `f`: positional arguments beyond the
   * element are refused; otherwise the tool is switched on and every keyword
   * argument, `element` included, is set under the tool's namespace.
   */
  method Decorate(f: ElementFunc, element: Value, extraArgs: seq<Value>, kwargs: map<Str, Value>)
    returns (r: Result<()>)
    modifies f
    ensures extraArgs != [] ==> r.Err? && r.exc.TypeError? && f.cpConfig == old(f.cpConfig)
    ensures extraArgs == [] ==>
              r.Ok? && f.cpConfig == old(f.cpConfig)[Subspace + "on" := VBool(true)] +
                                     PrefixKeys(Subspace, kwargs["element" := element])
  {
    if extraArgs != [] {
      return Err(TypeError("The 'elements' Tool does not accept positional arguments exept for 'element'; " +
                           "you must use keyword arguments."));
    }
    f.cpConfig := f.cpConfig[Subspace + "on" := VBool(true)] + PrefixKeys(Subspace, kwargs["element" := element]);
    return Ok(());
  }
}
