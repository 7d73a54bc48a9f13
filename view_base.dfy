/*
 * The template helpers of gearshift/view/base.py: the `cycle` iterator,
 * `selector`, `checker`, `ipeek`, and the standard variables `stdvars`
 * hands every template. Engine loading and rendering are not part of this
 * model.
 */
module ViewBase {
  import opened Common

  /** Where a cycle over `items` stands after `n` calls to `next`: `n` wrapped around the items. */
  function Position(items: seq<Value>, n: nat): (r: nat)
    requires items != []
    ensures r < |items|
    decreases n
  {
    if n < |items| then n else Position(items, n - |items|)
  }

  /** The item a cycle over `items` returns on its `n`-th call to `next`, counting from 0. */
  function Nth(items: seq<Value>, n: nat): (r: Value)
    requires items != []
    ensures r in items
  {
    items[Position(items, n)]
  }

  /** Each call moves one item on, starting over after the last. */
  lemma {:induction false} PositionNext(items: seq<Value>, n: nat)
    requires items != []
    ensures Position(items, n + 1) == if Position(items, n) + 1 == |items| then 0 else Position(items, n) + 1
    decreases n
  {
    if n >= |items| {
      PositionNext(items, n - |items|);
      assert n + 1 - |items| == n - |items| + 1;
    }
  }

  /** The cycle goes through the items in order, then starts over. */
  lemma NthInOrder(items: seq<Value>, n: nat)
    requires items != []
    ensures n < |items| ==> Nth(items, n) == items[n]
    ensures Nth(items, n + |items|) == Nth(items, n)
  {
  }

  /** `cycle(('odd', 'even'))` returns 'odd', 'even', 'odd'. */
  lemma OddEvenCycle()
    ensures var items := [VStr("odd"), VStr("even")];
            Nth(items, 0) == VStr("odd") && Nth(items, 1) == VStr("even") && Nth(items, 2) == VStr("odd")
  {
    NthInOrder([VStr("odd"), VStr("even")], 0);
  }

  /** `cycle`: loops forever over its items, `value` being the last one returned. */
  class Cycle {
    const items: seq<Value>
    /** Where the underlying `itertools.cycle` is. */
    var position: nat
    var value: Value
    /** How many items `next` has returned. */
    ghost var calls: nat

    ghost predicate Valid()
      reads this
    {
      if items == [] then position == 0 else position == Position(items, calls)
    }

    /** A new cycle's `value` is None. */
    constructor (iterable: seq<Value>)
      ensures Valid() && items == iterable && value == VNone && calls == 0
    {
      items := iterable;
      position := 0;
      value := VNone;
      calls := 0;
    }

    /**
     * `next`: the next item, which becomes `value`; a cycle over nothing
     * raises StopIteration.
     */
    method Next() returns (r: Result<Value>)
      requires Valid()
      modifies this
      ensures Valid()
      ensures items == [] ==> r == Err(StopIteration) && value == old(value) && calls == old(calls)
      ensures items != [] ==> r == Ok(Nth(items, old(calls))) && value == Nth(items, old(calls)) && calls == old(calls) + 1
    {
      if items == [] {
        return Err(StopIteration);
      }
      value := items[position];
      r := Ok(value);
      position := if position + 1 == |items| then 0 else position + 1;
      PositionNext(items, calls);
      calls := calls + 1;
    }
  }

  /** `selector(expression)`: "selected" for a true expression, None otherwise. */
  function Selector(expression: Value): (r: Option<Str>)
    ensures r.Some? <==> Truthy(expression)
    ensures r.Some? ==> r.value == "selected"
  {
    if Truthy(expression) then Some("selected") else None
  }

  /** `checker(expression)`: "checked" for a true expression, None otherwise. */
  function Checker(expression: Value): (r: Option<Str>)
    ensures r.Some? <==> Truthy(expression)
    ensures r.Some? ==> r.value == "checked"
  {
    if Truthy(expression) then Some("checked") else None
  }

  /** A checkbox is checked exactly when the matching option would be selected. */
  lemma CheckerAgreesWithSelector(expression: Value)
    ensures Checker(expression).Some? <==> Selector(expression).Some?
  {
  }

  /**
   * `ipeek(iterable)`: None when there is nothing to iterate, otherwise
   * the first item chained to the rest.
   */
  function IPeek(iterable: seq<Value>): (r: Option<seq<Value>>)
    ensures r.None? <==> iterable == []
    ensures r.Some? ==> r.value == iterable
  {
    if iterable == [] then None
    else
      var item := iterable[0];
      Some([item] + iterable[1..])
  }

  // ---------------------------------------------------------------------
  // stdvars

  /** The request state `stdvars` reads. */
  datatype RequestState = RequestState(
    sessionsOn: bool,
    session: Value,
    validationErrors: Option<Value>,
    inputValues: Option<Value>)

  /**
   * The `tg` Bunch. Its other members (checker, config, cycle, identity,
   * ipeek, quote_plus, request, selector, url) are the framework's own
   * functions and objects and are the same for every template; `extra`
   * holds what variable providers add.
   */
  datatype TgVars = TgVars(
    session: Value,
    errors: Value,
    inputs: Value,
    locale: Str,
    tgVersion: Str,
    tgJs: Str,
    tgStatic: Str,
    tgToolbox: Str,
    widgets: Str,
    extra: map<Str, Value>)

  /** A root template variable: the `tg` Bunch or plain data. */
  datatype Var = Tg(vars: TgVars) | Data(v: Value)

  /** The standard `tg` variables, before the variable providers add theirs. */
  function StandardVars(request: RequestState, locale: Str, version: Str): (r: TgVars)
    ensures r.session == (if request.sessionsOn then request.session else VNone)
    ensures r.errors == (if request.validationErrors.Some? then request.validationErrors.value else VDict(map[]))
    ensures r.inputs == (if request.inputValues.Some? then request.inputValues.value else VDict(map[]))
    ensures r.tgJs == "/tg_js" && r.tgStatic == "/tg_static" && r.tgToolbox == "/tg_toolbox" && r.widgets == "/tg_widgets"
    ensures r.extra == map[]
  {
    var webpath := "";
    TgVars(
      if request.sessionsOn then request.session else VNone,
      if request.validationErrors.Some? then request.validationErrors.value else VDict(map[]),
      if request.inputValues.Some? then request.inputValues.value else VDict(map[]),
      locale,
      version,
      "/" + webpath + "tg_js",
      "/" + webpath + "tg_static",
      "/" + webpath + "tg_toolbox",
      "/" + webpath + "tg_widgets",
      map[])
  }

  /** The root names `stdvars` sets itself, after the root providers. */
  function RootNames(): set<Str>
  {
    {"tg", "tg_js_head", "tg_js_bodytop", "tg_js_bodybottom"}
  }

  /**
   * `stdvars()`: `provideTg` stands for the variable providers run over the
   * `tg` variables, `rootProvided` for what the root providers put in an
   * empty dictionary.
   */
  function StdVars(request: RequestState, locale: Str, version: Str,
                   provideTg: TgVars -> TgVars, rootProvided: map<Str, Var>): (r: map<Str, Var>)
    ensures r.Keys == rootProvided.Keys + RootNames()
    ensures r["tg"] == Tg(provideTg(StandardVars(request, locale, version)))
    ensures r["tg_js_head"] == Data(VList([])) && r["tg_js_bodytop"] == Data(VList([])) &&
            r["tg_js_bodybottom"] == Data(VList([]))
    ensures forall k :: k in rootProvided && k !in RootNames() ==> r[k] == rootProvided[k]
  {
    var tgVars := provideTg(StandardVars(request, locale, version));
    rootProvided["tg" := Tg(tgVars)]
                ["tg_js_head" := Data(VList([]))]
                ["tg_js_bodytop" := Data(VList([]))]
                ["tg_js_bodybottom" := Data(VList([]))]
  }

  /**
   * A root provider cannot replace the `tg` variables or the deprecated
   * lists: whatever it put under those names, templates see the standard
   * ones, and without providers nothing else.
   */
  lemma RootProvidersCannotOverride(request: RequestState, locale: Str, version: Str, rootProvided: map<Str, Var>)
    requires "tg" in rootProvided
    ensures var r := StdVars(request, locale, version, t => t, rootProvided);
            r["tg"] == Tg(StandardVars(request, locale, version)) && r["tg"].vars.extra == map[] &&
            (!request.sessionsOn ==> r["tg"].vars.session == VNone)
    ensures StdVars(request, locale, version, t => t, map[]).Keys == RootNames()
  {
  }
}
