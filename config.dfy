/*
 * Configuration (gearshift/config.py): the server-wide settings, the
 * per-application sections keyed by a leading '/', reading app.cfg with a
 * ConfigParser, the logging formatters, and the order in which module
 * config files and the config file are merged.
 *
 * Evaluating config values as Python literals (`unrepr`) and configuring
 * the logging module (`configure_loggers`) are parameters; resource lookup
 * and the file system are not modelled.
 */
module Config {
  import opened Common

  /**
   * `get(key, default)`: while the request is in a stage its config is read,
   * otherwise the server's.
   */
  function Get(requestStage: Value, requestConfig: map<Str, Value>, server: map<Str, Value>,
               key: Str, default: Value): (r: Value)
    ensures Truthy(requestStage) && key in requestConfig ==> r == requestConfig[key]
    ensures !Truthy(requestStage) && key in server ==> r == server[key]
    ensures (if Truthy(requestStage) then key !in requestConfig else key !in server) ==> r == default
  {
    if Truthy(requestStage) then DictGet(requestConfig, key, default)
    else DictGet(server, key, default)
  }

  // ---------------------------------------------------------------------
  // update

  /**
   * The three places a config value can go: the server config, the
   * application sections, and the logging configurations `configure_loggers`
   * accepted, in the order they arrived.
   */
  datatype ConfigState = ConfigState(server: map<Str, Value>, app: map<Str, Value>, logging: seq<Value>)

  /** The state an item or an `update` call reached, and the exception that stopped it, if any. */
  datatype Applied = Applied(state: ConfigState, exc: Option<Exc>)

  /**
   * `configure_loggers` past its first step: building the formatters,
   * handlers and loggers of a logging dictionary through the logging module.
   * The result is the exception it raised, if any: ConfigError for an
   * unknown handler class, bad handler arguments, a missing class, an unknown
   * formatter or an unknown handler.
   */
  type LoggerSetup = map<Str, Value> -> Option<Exc>

  /** An element of the sequence given to `dict.update`: a key and its value, or the exception it raises. */
  datatype PairResult = Pair(key: Str, val: Value) | NotPair(exc: Exc)

  /** The entries `dict.update` reached, and the exception that stopped it, if any. */
  datatype Merged = Merged(entries: map<Str, Value>, exc: Option<Exc>)

  /** An application section after `update`, and the exception raised, if any. */
  datatype SectionUpdate = SectionUpdate(section: Value, exc: Option<Exc>)

  // The messages of the exceptions Python 2 raises for elements that are not pairs.
  const LengthMsg: Str := "dictionary update sequence element has length "
  const PairRequiredMsg: Str := "; 2 is required"
  const NotSequenceMsg: Str := "cannot convert dictionary update sequence element to a sequence"
  const UnhashableMsg: Str := "unhashable type"
  const KeyTypeMsg: Str := "non-string key"
  const NotIterableMsg: Str := "object is not iterable"

  /** The ValueError of an element of length `n`. */
  function WrongLength(n: nat): (e: Exc)
    ensures e.ValueError?
  {
    ValueError(LengthMsg + NatToStr(n) + PairRequiredMsg)
  }

  /** The TypeError of an element that is not iterable. */
  function NotASequence(): (r: PairResult)
    ensures r.NotPair? && r.exc.TypeError?
  {
    NotPair(TypeError(NotSequenceMsg))
  }

  /**
   * One element of the sequence `dict.update` is given, taken apart as a key
   * and a value: a list or tuple of two, or a string of two characters. An
   * element that is not iterable raises TypeError, one of another length
   * ValueError.
   */
  function PairOf(item: Value): (r: PairResult)
    ensures item.VList? ==> r == ListPair(item.items)
    ensures item.VStr? ==> r == StrPair(item.s)
    ensures item.VDict? ==> r.NotPair? && (|item.entries| != 2 ==> r == NotPair(WrongLength(|item.entries|)))
    ensures !item.VList? && !item.VStr? && !item.VDict? ==> r == NotASequence()
  {
    match item
    case VList(xs) => ListPair(xs)
    case VStr(s) => StrPair(s)
    case VDict(m) => if |m| != 2 then NotPair(WrongLength(|m|)) else NotPair(TypeError(KeyTypeMsg))
    case VNone => NotASequence()
    case VBool(_) => NotASequence()
    case VInt(_) => NotASequence()
    case VObj(_) => NotASequence()
  }

  /** A list or tuple element: a pair when it has two elements, the first a string. */
  function ListPair(xs: seq<Value>): (r: PairResult)
    ensures |xs| == 2 && xs[0].VStr? ==> r == Pair(xs[0].s, xs[1])
    ensures |xs| == 2 && !xs[0].VStr? ==> r.NotPair? && r.exc.TypeError?
    ensures |xs| != 2 ==> r == NotPair(WrongLength(|xs|))
  {
    if |xs| != 2 then NotPair(WrongLength(|xs|))
    else if xs[0].VStr? then Pair(xs[0].s, xs[1])
    else if xs[0].VList? || xs[0].VDict? then NotPair(TypeError(UnhashableMsg))
    else NotPair(TypeError(KeyTypeMsg))
  }

  /** A string element: a pair of its two characters when it has two. */
  function StrPair(s: Str): (r: PairResult)
    ensures |s| == 2 ==> r == Pair([s[0]], VStr([s[1]]))
    ensures |s| != 2 ==> r == NotPair(WrongLength(|s|))
  {
    if |s| != 2 then NotPair(WrongLength(|s|)) else Pair([s[0]], VStr([s[1]]))
  }

  /** Every element is a pair `dict.update` accepts. */
  predicate AllPairs(items: seq<Value>)
  {
    forall i :: 0 <= i < |items| ==> PairOf(items[i]).Pair?
  }

  /** Some element is a pair with key `k`. */
  predicate PairKeyed(items: seq<Value>, k: Str)
  {
    exists i :: 0 <= i < |items| && PairOf(items[i]).Pair? && PairOf(items[i]).key == k
  }

  /**
   * `dict.update` from a sequence: the pairs are set one by one, in place,
   * until an element is not a pair. The entries reached, and the exception.
   */
  function UpdatePairs(entries: map<Str, Value>, items: seq<Value>): (r: Merged)
    ensures entries.Keys <= r.entries.Keys
    ensures r.exc.None? <==> AllPairs(items)
    decreases |items|
  {
    if items == [] then Merged(entries, None)
    else
      match PairOf(items[0])
      case NotPair(e) => Merged(entries, Some(e))
      case Pair(k, v) =>
        assert forall j :: 0 <= j < |items| - 1 ==> items[1..][j] == items[j + 1];
        UpdatePairs(entries[k := v], items[1..])
  }

  /** The exception is the one of the first element that is not a pair, all before it being pairs. */
  lemma {:induction false} UpdatePairsFirstError(entries: map<Str, Value>, items: seq<Value>)
    ensures var Merged(_, err) := UpdatePairs(entries, items);
            err.Some? ==> exists i :: 0 <= i < |items| && AllPairs(items[..i]) && PairOf(items[i]) == NotPair(err.value)
    decreases |items|
  {
    if items != [] {
      match PairOf(items[0])
      case NotPair(e) =>
        assert AllPairs(items[..0]);
      case Pair(k, v) =>
        UpdatePairsFirstError(entries[k := v], items[1..]);
        var Merged(_, err) := UpdatePairs(entries, items);
        if err.Some? {
          var i :| 0 <= i < |items| - 1 && AllPairs(items[1..][..i]) && PairOf(items[1..][i]) == NotPair(err.value);
          assert items[1..][i] == items[i + 1];
          var prefix := items[..i + 1];
          forall j | 0 <= j < |prefix|
            ensures PairOf(prefix[j]).Pair?
          {
            if j > 0 {
              assert prefix[j] == items[1..][..i][j - 1];
            }
          }
        }
    }
  }

  /** Only keys that were there or that some pair carries are present after the update. */
  lemma {:induction false} UpdatePairsKeys(entries: map<Str, Value>, items: seq<Value>)
    ensures forall k :: k in UpdatePairs(entries, items).entries ==> k in entries || PairKeyed(items, k)
    decreases |items|
  {
    if items != [] {
      match PairOf(items[0])
      case NotPair(e) =>
      case Pair(k, v) =>
        UpdatePairsKeys(entries[k := v], items[1..]);
        assert UpdatePairs(entries, items) == UpdatePairs(entries[k := v], items[1..]);
        forall k' | k' in UpdatePairs(entries, items).entries && k' !in entries && k' != k
          ensures PairKeyed(items, k')
        {
          assert PairKeyed(items[1..], k');
          var i :| 0 <= i < |items| - 1 && PairOf(items[1..][i]).Pair? && PairOf(items[1..][i]).key == k';
          assert items[1..][i] == items[i + 1];
        }
    }
  }

  /** After a successful update every key some pair carries is present. */
  lemma {:induction false} UpdatePairsSetsKeys(entries: map<Str, Value>, items: seq<Value>)
    ensures UpdatePairs(entries, items).exc.None? ==> forall k :: PairKeyed(items, k) ==> k in UpdatePairs(entries, items).entries
    decreases |items|
  {
    if items != [] {
      match PairOf(items[0])
      case NotPair(e) =>
      case Pair(k, v) =>
        UpdatePairsSetsKeys(entries[k := v], items[1..]);
        if UpdatePairs(entries, items).exc.None? {
          forall k' | PairKeyed(items, k')
            ensures k' in UpdatePairs(entries, items).entries
          {
            var i :| 0 <= i < |items| && PairOf(items[i]).Pair? && PairOf(items[i]).key == k';
            if i > 0 {
              assert items[1..][i - 1] == items[i];
            }
          }
        }
    }
  }

  /** A key no pair carries keeps its value, even when the update raises. */
  lemma {:induction false} UpdatePairsKeepsOthers(entries: map<Str, Value>, items: seq<Value>, k: Str)
    requires k in entries && !PairKeyed(items, k)
    ensures k in UpdatePairs(entries, items).entries && UpdatePairs(entries, items).entries[k] == entries[k]
    decreases |items|
  {
    if items != [] {
      match PairOf(items[0])
      case NotPair(e) =>
      case Pair(k', v) =>
        forall i | 0 <= i < |items| - 1 && PairOf(items[1..][i]).Pair?
          ensures PairOf(items[1..][i]).key != k
        {
          assert items[1..][i] == items[i + 1];
        }
        UpdatePairsKeepsOthers(entries[k' := v], items[1..], k);
    }
  }

  /** After a successful update the last pair with a key gives that key's value. */
  lemma {:induction false} UpdatePairsLastWins(entries: map<Str, Value>, items: seq<Value>, i: nat)
    requires AllPairs(items) && i < |items|
    requires forall j :: i < j < |items| ==> PairOf(items[j]).key != PairOf(items[i]).key
    ensures PairOf(items[i]).key in UpdatePairs(entries, items).entries
    ensures UpdatePairs(entries, items).entries[PairOf(items[i]).key] == PairOf(items[i]).val
    decreases |items|
  {
    var k, v := PairOf(items[0]).key, PairOf(items[0]).val;
    assert forall j :: 0 <= j < |items| - 1 ==> items[1..][j] == items[j + 1];
    if i == 0 {
      assert !PairKeyed(items[1..], k);
      UpdatePairsKeepsOthers(entries[k := v], items[1..], k);
    } else {
      UpdatePairsLastWins(entries[k := v], items[1..], i - 1);
    }
  }

  /** The elements Python 2 finds iterating over a string: its characters, as strings. */
  function StrItems(s: Str): (r: seq<Value>)
    ensures |r| == |s| && forall i :: 0 <= i < |s| ==> r[i] == VStr([s[i]])
  {
    seq(|s|, i requires 0 <= i < |s| => VStr([s[i]]))
  }

  /**
   * A string updates like the sequence of its characters: the empty string
   * changes nothing, and any other raises ValueError at its first character,
   * a string of length one, before setting anything.
   */
  lemma StrUpdate(entries: map<Str, Value>, s: Str)
    ensures UpdatePairs(entries, StrItems(s)) == Merged(entries, if s == [] then None else Some(WrongLength(1)))
  {
    if s != [] {
      assert PairOf(StrItems(s)[0]) == NotPair(WrongLength(1));
    }
  }

  /** The TypeError of a value that is not iterable. */
  function NotIterable(): (e: Exc)
    ensures e.TypeError?
  {
    TypeError(NotIterableMsg)
  }

  /**
   * `app[key].update(value)` on an application section that already exists.
   * A section that is not a dictionary has no `update`. A dictionary's
   * entries win over the section's. A list, tuple or string is a sequence of
   * pairs, set in place up to the first element that is not one; a string's
   * elements are its characters, so only the empty string gets through. Any
   * other value is not iterable.
   */
  function UpdateSection(section: Value, value: Value): (r: SectionUpdate)
    ensures !section.VDict? ==> r == SectionUpdate(section, Some(AttributeError("update")))
    ensures section.VDict? ==> r.section.VDict? && section.entries.Keys <= r.section.entries.Keys
  {
    if !section.VDict? then SectionUpdate(section, Some(AttributeError("update")))
    else
      match value
      case VDict(m) => SectionUpdate(VDict(section.entries + m), None)
      case VList(items) =>
        var u := UpdatePairs(section.entries, items);
        SectionUpdate(VDict(u.entries), u.exc)
      case VStr(s) => SectionUpdate(section, if s == [] then None else Some(WrongLength(1)))
      case VNone => SectionUpdate(section, Some(NotIterable()))
      case VBool(_) => SectionUpdate(section, Some(NotIterable()))
      case VInt(_) => SectionUpdate(section, Some(NotIterable()))
      case VObj(_) => SectionUpdate(section, Some(NotIterable()))
  }

  /** The section update succeeds iff the section is a dictionary and the value a dictionary, a sequence of pairs or the empty string. */
  lemma UpdateSectionSucceeds(section: Value, value: Value)
    ensures UpdateSection(section, value).exc.None? <==>
            section.VDict? && (value.VDict? || (value.VList? && AllPairs(value.items)) || value == VStr([]))
  {
    if section.VDict? && value.VList? {
      assert UpdateSection(section, value).exc == UpdatePairs(section.entries, value.items).exc;
    }
  }

  /** A dictionary's entries win over the section's, whose other entries are kept. */
  lemma UpdateSectionWithDict(section: Value, value: Value)
    requires section.VDict? && value.VDict?
    ensures var SectionUpdate(s', err) := UpdateSection(section, value);
            err.None? && s'.VDict? && s'.entries.Keys == section.entries.Keys + value.entries.Keys &&
            (forall k :: k in value.entries ==> s'.entries[k] == value.entries[k]) &&
            (forall k :: k in section.entries && k !in value.entries ==> s'.entries[k] == section.entries[k])
  {
  }

  /**
   * A list or tuple updates the section with its pairs, in place, and a
   * string with its characters, so a non-empty one raises ValueError with the
   * section unchanged; anything else that is neither a dictionary nor a
   * sequence raises TypeError.
   */
  lemma UpdateSectionWithSequence(section: Value, value: Value)
    requires section.VDict? && !value.VDict?
    ensures value.VList? ==>
              UpdateSection(section, value) ==
              SectionUpdate(VDict(UpdatePairs(section.entries, value.items).entries), UpdatePairs(section.entries, value.items).exc)
    ensures value.VStr? ==>
              UpdateSection(section, value) ==
              SectionUpdate(VDict(UpdatePairs(section.entries, StrItems(value.s)).entries), UpdatePairs(section.entries, StrItems(value.s)).exc)
    ensures value.VStr? && value.s != [] ==> UpdateSection(section, value) == SectionUpdate(section, Some(WrongLength(1)))
    ensures !value.VList? && !value.VStr? ==> UpdateSection(section, value) == SectionUpdate(section, Some(NotIterable()))
  {
    if value.VStr? {
      StrUpdate(section.entries, value.s);
    }
  }

  /** A list of pairs sets the section's keys: `[("a", 1)]` gives `a` the value 1. */
  lemma PairListUpdatesSection()
    ensures UpdateSection(VDict(map[]), VList([VList([VStr("a"), VInt(1)])])) == SectionUpdate(VDict(map["a" := VInt(1)]), None)
  {
  }

  /**
   * One item of `update`: the state reached and the exception raised, if
   * any. A key with a leading '/' goes to the application sections, inserted
   * when new and updated in place otherwise; 'logging' is handed to
   * `configure_loggers`, whose first step reads it with `get`, and is stored
   * nowhere else; any other dictionary is merged into the server config;
   * any other value is stored under its key, and 'visit.on' is copied to
   * 'tools.visit.on'.
   */
  function ApplyItem(st: ConfigState, key: Str, value: Value, configureLoggers: LoggerSetup): (r: Applied)
    ensures st.server.Keys <= r.state.server.Keys && st.app.Keys <= r.state.app.Keys
    ensures |st.logging| <= |r.state.logging| && r.state.logging[..|st.logging|] == st.logging
    ensures StartsWith(key, "/") && key !in st.app ==> r == Applied(st.(app := st.app[key := value]), None)
    ensures StartsWith(key, "/") && key in st.app ==>
              r == Applied(st.(app := st.app[key := UpdateSection(st.app[key], value).section]), UpdateSection(st.app[key], value).exc)
    ensures !StartsWith(key, "/") && key == "logging" && !value.VDict? ==> r == Applied(st, Some(AttributeError("get")))
    ensures !StartsWith(key, "/") && key == "logging" && value.VDict? && configureLoggers(value.entries).Some? ==>
              r == Applied(st, configureLoggers(value.entries))
    ensures !StartsWith(key, "/") && key == "logging" && value.VDict? && configureLoggers(value.entries).None? ==>
              r == Applied(st.(logging := st.logging + [value]), None)
    ensures !StartsWith(key, "/") && key != "logging" ==> r.exc.None? && r.state.app == st.app && r.state.logging == st.logging
    ensures !StartsWith(key, "/") && key != "logging" && value.VDict? ==> r.state.server == st.server + value.entries
    ensures !StartsWith(key, "/") && key != "logging" && !value.VDict? ==>
              r.state.server.Keys == st.server.Keys + {key} + (if key == "visit.on" then {"tools.visit.on"} else {}) &&
              r.state.server[key] == value &&
              (key == "visit.on" ==> r.state.server["tools.visit.on"] == value) &&
              forall k :: k in st.server && k != key && k != "tools.visit.on" ==> r.state.server[k] == st.server[k]
    ensures !StartsWith(key, "/") && key != "logging" && !value.VDict? && key != "visit.on" ==>
              r.state.server == st.server[key := value]
  {
    if StartsWith(key, "/") then
      if key !in st.app then Applied(st.(app := st.app[key := value]), None)
      else
        var SectionUpdate(section, err) := UpdateSection(st.app[key], value);
        Applied(st.(app := st.app[key := section]), err)
    else if key == "logging" then
      if !value.VDict? then Applied(st, Some(AttributeError("get")))
      else
        match configureLoggers(value.entries)
        case Some(e) => Applied(st, Some(e))
        case None => Applied(st.(logging := st.logging + [value]), None)
    else if value.VDict? then Applied(st.(server := st.server + value.entries), None)
    else if key == "visit.on" then Applied(st.(server := st.server[key := value]["tools.visit.on" := value]), None)
    else Applied(st.(server := st.server[key := value]), None)
  }

  /**
   * `update(configvalues)` with the items taken in `order`, the dictionary's
   * iteration order: the state reached and the exception, if one stopped the
   * loop. Items applied before the exception stay applied, and so do the
   * pairs a failing section update set before it raised.
   */
  function UpdateFold(st: ConfigState, configvalues: map<Str, Value>, order: seq<Str>, configureLoggers: LoggerSetup): (r: Applied)
    requires forall i :: 0 <= i < |order| ==> order[i] in configvalues
    decreases |order|
  {
    if order == [] then Applied(st, None)
    else
      var Applied(next, err) := ApplyItem(st, order[0], configvalues[order[0]], configureLoggers);
      if err.Some? then Applied(next, err) else UpdateFold(next, configvalues, order[1..], configureLoggers)
  }

  /** A logging configuration that `configure_loggers` rejects stops `update`: nothing after it is applied. */
  lemma LoggingErrorStopsUpdate(st: ConfigState, configvalues: map<Str, Value>, order: seq<Str>, configureLoggers: LoggerSetup)
    requires forall i :: 0 <= i < |order| ==> order[i] in configvalues
    requires |order| > 0 && order[0] == "logging"
    requires configvalues["logging"].VDict? ==> configureLoggers(configvalues["logging"].entries).Some?
    ensures UpdateFold(st, configvalues, order, configureLoggers).state == st
    ensures UpdateFold(st, configvalues, order, configureLoggers).exc.Some?
  {
    assert "logging"[0] != '/';
  }

  /**
   * An update only adds: no server key or application section disappears,
   * and earlier logging configurations stay, in order, ahead of new ones.
   */
  lemma {:induction false} UpdateOnlyAdds(st: ConfigState, configvalues: map<Str, Value>, order: seq<Str>, configureLoggers: LoggerSetup)
    requires forall i :: 0 <= i < |order| ==> order[i] in configvalues
    ensures var Applied(st', _) := UpdateFold(st, configvalues, order, configureLoggers);
            st.server.Keys <= st'.server.Keys && st.app.Keys <= st'.app.Keys &&
            |st.logging| <= |st'.logging| && st'.logging[..|st.logging|] == st.logging
    decreases |order|
  {
    if order != [] {
      var Applied(next, err) := ApplyItem(st, order[0], configvalues[order[0]], configureLoggers);
      if err.None? {
        UpdateOnlyAdds(next, configvalues, order[1..], configureLoggers);
        var Applied(st', _) := UpdateFold(next, configvalues, order[1..], configureLoggers);
        assert st'.logging[..|st.logging|] == st'.logging[..|next.logging|][..|st.logging|];
      }
    }
  }

  /**
   * An update that succeeds creates an application section for every
   * '/'-key it was given, and none of them is put in the server config by
   * its own item.
   */
  lemma {:induction false} UpdateCreatesSections(st: ConfigState, configvalues: map<Str, Value>, order: seq<Str>, configureLoggers: LoggerSetup)
    requires forall i :: 0 <= i < |order| ==> order[i] in configvalues
    ensures var Applied(st', err) := UpdateFold(st, configvalues, order, configureLoggers);
            err.None? ==> forall i :: 0 <= i < |order| && StartsWith(order[i], "/") ==> order[i] in st'.app
    decreases |order|
  {
    if order != [] {
      var Applied(next, err0) := ApplyItem(st, order[0], configvalues[order[0]], configureLoggers);
      if err0.None? {
        UpdateCreatesSections(next, configvalues, order[1..], configureLoggers);
        UpdateOnlyAdds(next, configvalues, order[1..], configureLoggers);
        var Applied(st', err) := UpdateFold(next, configvalues, order[1..], configureLoggers);
        if err.None? {
          forall i | 0 <= i < |order| && StartsWith(order[i], "/")
            ensures order[i] in st'.app
          {
            if i > 0 {
              assert order[i] == order[1..][i - 1];
            }
          }
        }
      }
    }
  }

  /**
   * Taken in an iteration order of the dictionary, a successful update
   * leaves an application section for every '/'-key the dictionary holds.
   */
  lemma UpdateCoversSections(st: ConfigState, configvalues: map<Str, Value>, order: seq<Str>, configureLoggers: LoggerSetup)
    requires EnumeratesKeys(order, configvalues)
    requires forall i :: 0 <= i < |order| ==> order[i] in configvalues
    ensures var Applied(st', err) := UpdateFold(st, configvalues, order, configureLoggers);
            err.None? ==> forall k :: k in configvalues && StartsWith(k, "/") ==> k in st'.app
  {
    UpdateCreatesSections(st, configvalues, order, configureLoggers);
    var Applied(st', err) := UpdateFold(st, configvalues, order, configureLoggers);
    forall k | k in configvalues && StartsWith(k, "/") && err.None?
      ensures k in st'.app
    {
      assert k in order;
      var i :| 0 <= i < |order| && order[i] == k;
    }
  }

  /**
   * A plain value given to `update` is what `get` reads outside a request,
   * and 'visit.on' is readable under 'tools.visit.on' as well.
   */
  lemma UpdateThenGet(st: ConfigState, key: Str, value: Value, requestConfig: map<Str, Value>, default: Value, configureLoggers: LoggerSetup)
    requires !StartsWith(key, "/") && key != "logging" && !value.VDict?
    ensures var Applied(st', err) := UpdateFold(st, map[key := value], [key], configureLoggers);
            err.None? && Get(VNone, requestConfig, st'.server, key, default) == value &&
            (key == "visit.on" ==> Get(VNone, requestConfig, st'.server, "tools.visit.on", default) == value)
  {
    var r := ApplyItem(st, key, value, configureLoggers);
    assert UpdateFold(st, map[key := value], [key], configureLoggers) == UpdateFold(r.state, map[key := value], [], configureLoggers);
  }

  /** The server, application and logging configuration, updated in place. */
  class ConfigStore {
    var server: map<Str, Value>
    var app: map<Str, Value>
    var loggingConfigs: seq<Value>

    constructor ()
      ensures server == map[] && app == map[] && loggingConfigs == []
    {
      server := map[];
      app := map[];
      loggingConfigs := [];
    }

    function State(): (r: ConfigState)
      reads this
      ensures r.server == server && r.app == app && r.logging == loggingConfigs
    {
      ConfigState(server, app, loggingConfigs)
    }

    /**
     * `update(configvalues)`, with `order` the dictionary's iteration order;
     * the result is the exception that stopped the loop, if any.
     */
    method Update(configvalues: map<Str, Value>, order: seq<Str>, configureLoggers: LoggerSetup) returns (err: Option<Exc>)
      requires EnumeratesKeys(order, configvalues)
      requires forall i :: 0 <= i < |order| ==> order[i] in configvalues
      modifies this
      ensures Applied(State(), err) == UpdateFold(old(State()), configvalues, order, configureLoggers)
    {
      err := ApplyItems(configvalues, order, configureLoggers);
    }

    /** The loop of `update`: the items under the keys `order`, one by one, until one raises. */
    method ApplyItems(configvalues: map<Str, Value>, order: seq<Str>, configureLoggers: LoggerSetup) returns (err: Option<Exc>)
      requires forall i :: 0 <= i < |order| ==> order[i] in configvalues
      modifies this
      ensures Applied(State(), err) == UpdateFold(old(State()), configvalues, order, configureLoggers)
    {
      ghost var st0 := State();
      err := None;
      var i := 0;
      while i < |order| && err.None?
        invariant 0 <= i <= |order|
        invariant err.None? ==> UpdateFold(st0, configvalues, order, configureLoggers) == UpdateFold(State(), configvalues, order[i..], configureLoggers)
        invariant err.Some? ==> UpdateFold(st0, configvalues, order, configureLoggers) == Applied(State(), err)
      {
        var key := order[i];
        var value := configvalues[key];
        ghost var before := State();
        assert order[i..][0] == key && order[i..][1..] == order[i + 1..];
        if StartsWith(key, "/") {
          if key !in app {
            app := app[key := value];
          } else {
            var SectionUpdate(section, e) := UpdateSection(app[key], value);
            app := app[key := section];
            err := e;
          }
        } else if key == "logging" {
          if !value.VDict? {
            err := Some(AttributeError("get"));
          } else {
            err := configureLoggers(value.entries);
            if err.None? {
              loggingConfigs := loggingConfigs + [value];
            }
          }
        } else if value.VDict? {
          server := server + value.entries;
        } else {
          server := server[key := value];
          if key == "visit.on" {
            server := server["tools.visit.on" := value];
          }
        }
        assert Applied(State(), err) == ApplyItem(before, key, value, configureLoggers);
        i := i + 1;
      }
    }
  }

  // ---------------------------------------------------------------------
  // ConfigParser.as_dict

  /** An app.cfg section as ConfigParser reads it: its name and its options with their text. */
  datatype IniSection = IniSection(name: Str, options: seq<(Str, Str)>)

  /** Sections whose values are Python literals: 'global' and the '/' paths. */
  predicate Parsed(section: Str)
  {
    section == "global" || StartsWith(section, "/")
  }

  // The parts of the message `as_dict` raises for an option that is not a Python literal.
  const SectionMsg: Str := "Config error in section: '"
  const OptionMsg: Str := "', option: '"
  const ValueMsg: Str := "', value: '"
  const ValidPythonMsg: Str := "'. Config values must be valid Python."

  /** The message of the ValueError for an option that is not a Python literal. */
  function ConfigErrorMsg(section: Str, option: Str, value: Str): (r: Str)
    ensures Contains(r, value)
  {
    ContainsInfix(SectionMsg + section + OptionMsg + option + ValueMsg, value, ValidPythonMsg);
    SectionMsg + section + OptionMsg + option + ValueMsg + value + ValidPythonMsg
  }

  /** The value `as_dict` stores for one option, or the error it raises. */
  function OptionValue(section: Str, option: Str, text: Str, unrepr: Str -> Option<Value>): (r: Result<Value>)
    ensures !Parsed(section) ==> r == Ok(VStr(text))
    ensures Parsed(section) && unrepr(text).Some? ==> r == Ok(unrepr(text).value)
    ensures Parsed(section) && unrepr(text).None? ==> r.Err? && r.exc.ValueError? && Contains(r.exc.msg, text)
  {
    if !Parsed(section) then Ok(VStr(text))
    else match unrepr(text)
      case None => Err(ValueError(ConfigErrorMsg(section, option, text)))
      case Some(v) => Ok(v)
  }

  /** Every option of the section converts. */
  predicate SectionConverts(s: IniSection, unrepr: Str -> Option<Value>)
  {
    forall j :: 0 <= j < |s.options| ==> OptionValue(s.name, s.options[j].0, s.options[j].1, unrepr).Ok?
  }

  /** The option names of a section. */
  function Names(options: seq<(Str, Str)>): (r: set<Str>)
    ensures forall j :: 0 <= j < |options| ==> options[j].0 in r
    decreases |options|
  {
    if options == [] then {} else {options[0].0} + Names(options[1..])
  }

  /**
   * The options of one section added, in order, to `entries`; the first
   * option that does not convert raises.
   */
  function SectionValues(section: Str, options: seq<(Str, Str)>, entries: map<Str, Value>,
                         unrepr: Str -> Option<Value>): (r: Result<map<Str, Value>>)
    ensures r.Ok? ==> entries.Keys <= r.value.Keys
    decreases |options|
  {
    if options == [] then Ok(entries)
    else
      match OptionValue(section, options[0].0, options[0].1, unrepr)
      case Err(e) => Err(e)
      case Ok(v) => SectionValues(section, options[1..], entries[options[0].0 := v], unrepr)
  }

  /**
   * A section's options convert or the first failure is raised; on success
   * every option is present, the last option of a name wins, and entries
   * the section does not name are kept.
   */
  lemma {:induction false} SectionValuesMeaning(section: Str, options: seq<(Str, Str)>, entries: map<Str, Value>,
                                                unrepr: Str -> Option<Value>)
    ensures var r := SectionValues(section, options, entries, unrepr);
            (r.Ok? <==> SectionConverts(IniSection(section, options), unrepr)) &&
            (r.Ok? ==> r.value.Keys == entries.Keys + Names(options)) &&
            (r.Ok? ==> forall k :: k in entries && k !in Names(options) ==> r.value[k] == entries[k]) &&
            (r.Ok? ==> forall j :: 0 <= j < |options| && options[j].0 !in Names(options[j + 1..]) ==>
                         r.value[options[j].0] == OptionValue(section, options[j].0, options[j].1, unrepr).value)
    decreases |options|
  {
    if options != [] {
      var tail := options[1..];
      assert forall j :: 1 <= j < |options| ==> options[j] == tail[j - 1] && options[j + 1..] == tail[j..];
      var v := OptionValue(section, options[0].0, options[0].1, unrepr);
      if v.Ok? {
        var next := entries[options[0].0 := v.value];
        SectionValuesMeaning(section, tail, next, unrepr);
        assert SectionConverts(IniSection(section, options), unrepr) <==> SectionConverts(IniSection(section, tail), unrepr);
      } else {
        assert !SectionConverts(IniSection(section, options), unrepr);
      }
    }
  }

  /** Every section converts. */
  predicate AllConvert(sections: seq<IniSection>, unrepr: Str -> Option<Value>)
  {
    forall i :: 0 <= i < |sections| ==> SectionConverts(sections[i], unrepr)
  }

  /** Section names are distinct, as ConfigParser keeps them. */
  predicate DistinctNames(sections: seq<IniSection>)
  {
    forall i, j :: 0 <= i < j < |sections| ==> sections[i].name != sections[j].name
  }

  /**
   * `as_dict` over `sections`, starting from `result`: each section's
   * options are added to its dictionary; 'global' and '/' sections are
   * evaluated, the rest kept as text.
   */
  function IniDict(sections: seq<IniSection>, result: map<Str, map<Str, Value>>,
                   unrepr: Str -> Option<Value>): (r: Result<map<Str, map<Str, Value>>>)
    decreases |sections|
  {
    if sections == [] then Ok(result)
    else
      var s := sections[0];
      match SectionValues(s.name, s.options, DictGet(result, s.name, map[]), unrepr)
      case Err(e) => Err(e)
      case Ok(entries) => IniDict(sections[1..], result[s.name := entries], unrepr)
  }

  /** The section names. */
  function SectionNames(sections: seq<IniSection>): (r: set<Str>)
    ensures forall i :: 0 <= i < |sections| ==> sections[i].name in r
    decreases |sections|
  {
    if sections == [] then {} else {sections[0].name} + SectionNames(sections[1..])
  }

  /** `as_dict` fails exactly when some option of a 'global' or '/' section is not a Python literal. */
  lemma {:induction false} IniDictFails(sections: seq<IniSection>, result: map<Str, map<Str, Value>>,
                                        unrepr: Str -> Option<Value>)
    ensures IniDict(sections, result, unrepr).Ok? <==> AllConvert(sections, unrepr)
    decreases |sections|
  {
    if sections != [] {
      var s := sections[0];
      var tail := sections[1..];
      assert forall i :: 1 <= i < |sections| ==> sections[i] == tail[i - 1];
      SectionValuesMeaning(s.name, s.options, DictGet(result, s.name, map[]), unrepr);
      var sv := SectionValues(s.name, s.options, DictGet(result, s.name, map[]), unrepr);
      if sv.Ok? {
        IniDictFails(tail, result[s.name := sv.value], unrepr);
        assert AllConvert(sections, unrepr) <==> AllConvert(tail, unrepr);
      }
    }
  }

  /** When `as_dict` succeeds every section is present and a dictionary no section names is kept. */
  lemma {:induction false} IniDictSections(sections: seq<IniSection>, result: map<Str, map<Str, Value>>,
                                           unrepr: Str -> Option<Value>)
    ensures var r := IniDict(sections, result, unrepr);
            r.Ok? ==> r.value.Keys == result.Keys + SectionNames(sections)
    ensures var r := IniDict(sections, result, unrepr);
            r.Ok? ==> forall k :: k in result && k !in SectionNames(sections) ==> r.value[k] == result[k]
    decreases |sections|
  {
    if sections != [] {
      var s := sections[0];
      var sv := SectionValues(s.name, s.options, DictGet(result, s.name, map[]), unrepr);
      if sv.Ok? {
        IniDictSections(sections[1..], result[s.name := sv.value], unrepr);
      }
    }
  }

  /**
   * When `as_dict` succeeds on sections with distinct names, each section
   * holds its own options converted.
   */
  lemma {:induction false} IniDictSectionValues(sections: seq<IniSection>, result: map<Str, map<Str, Value>>,
                                                unrepr: Str -> Option<Value>)
    ensures var r := IniDict(sections, result, unrepr);
            r.Ok? && DistinctNames(sections) ==>
              forall i :: 0 <= i < |sections| ==>
                sections[i].name in r.value &&
                SectionValues(sections[i].name, sections[i].options, DictGet(result, sections[i].name, map[]), unrepr) ==
                Ok(r.value[sections[i].name])
    decreases |sections|
  {
    if sections != [] {
      var s := sections[0];
      var tail := sections[1..];
      assert forall i :: 1 <= i < |sections| ==> sections[i] == tail[i - 1];
      var sv := SectionValues(s.name, s.options, DictGet(result, s.name, map[]), unrepr);
      if sv.Ok? {
        var next := result[s.name := sv.value];
        IniDictSectionValues(tail, next, unrepr);
        IniDictSections(tail, next, unrepr);
        var r := IniDict(sections, result, unrepr);
        assert r == IniDict(tail, next, unrepr);
        if r.Ok? && DistinctNames(sections) {
          assert DistinctNames(tail);
          assert forall i :: 0 <= i < |tail| ==> tail[i].name != s.name by {
            forall i | 0 <= i < |tail|
              ensures tail[i].name != s.name
            {
              assert tail[i] == sections[i + 1];
            }
          }
          NotAmongNames(tail, s.name);
          forall i | 0 <= i < |sections|
            ensures sections[i].name in r.value &&
                    SectionValues(sections[i].name, sections[i].options, DictGet(result, sections[i].name, map[]), unrepr) ==
                    Ok(r.value[sections[i].name])
          {
            if i > 0 {
              assert sections[i].name != s.name;
              assert DictGet(next, sections[i].name, map[]) == DictGet(result, sections[i].name, map[]);
            }
          }
        }
      }
    }
  }

  /** A name no section has is not among the section names. */
  lemma {:induction false} NotAmongNames(sections: seq<IniSection>, name: Str)
    requires forall i :: 0 <= i < |sections| ==> sections[i].name != name
    ensures name !in SectionNames(sections)
    decreases |sections|
  {
    if sections != [] {
      assert forall i :: 0 <= i < |sections[1..]| ==> sections[1..][i] == sections[i + 1];
      NotAmongNames(sections[1..], name);
    }
  }

  /** One section read into `result` by its own loop over the options. */
  method ReadSection(s: IniSection, result: map<Str, map<Str, Value>>, unrepr: Str -> Option<Value>)
    returns (r: Result<map<Str, map<Str, Value>>>)
    ensures r == (match SectionValues(s.name, s.options, DictGet(result, s.name, map[]), unrepr)
                  case Err(e) => Err(e)
                  case Ok(entries) => Ok(result[s.name := entries]))
  {
    var entries := DictGet(result, s.name, map[]);
    ghost var goal := SectionValues(s.name, s.options, entries, unrepr);
    var j := 0;
    while j < |s.options|
      invariant 0 <= j <= |s.options|
      invariant goal == SectionValues(s.name, s.options[j..], entries, unrepr)
    {
      assert s.options[j..][0] == s.options[j] && s.options[j..][1..] == s.options[j + 1..];
      var (option, text) := s.options[j];
      var v := OptionValue(s.name, option, text, unrepr);
      if v.Err? {
        return Err(v.exc);
      }
      entries := entries[option := v.value];
      j := j + 1;
    }
    return Ok(result[s.name := entries]);
  }

  /** `ConfigParser.as_dict`: the sections in the order ConfigParser lists them. */
  method AsDict(sections: seq<IniSection>, unrepr: Str -> Option<Value>) returns (r: Result<map<Str, map<Str, Value>>>)
    ensures r == IniDict(sections, map[], unrepr)
  {
    var result: map<Str, map<Str, Value>> := map[];
    var i := 0;
    while i < |sections|
      invariant 0 <= i <= |sections|
      invariant IniDict(sections, map[], unrepr) == IniDict(sections[i..], result, unrepr)
    {
      assert sections[i..][0] == sections[i] && sections[i..][1..] == sections[i + 1..];
      var next := ReadSection(sections[i], result, unrepr);
      if next.Err? {
        return next;
      }
      result := next.value;
      i := i + 1;
    }
    return Ok(result);
  }

  // ---------------------------------------------------------------------
  // _get_formatters

  /** The keyword arguments `_get_formatters` gives `logging.Formatter`. */
  datatype FormatterArgs = FormatterArgs(fmt: Option<Str>, datefmt: Option<Str>)

  /** `fmt.replace("*(", "%(")`: the '*(' placeholders of a config file become '%('. */
  function PercentStyle(fmt: Str): (r: Str)
  {
    Replace(fmt, "*(", "%(")
  }

  /** After the replacement no '*(' is left, and the format keeps its length. */
  lemma {:induction false} PercentStyleComplete(fmt: Str)
    ensures !Contains(PercentStyle(fmt), "*(")
    ensures |PercentStyle(fmt)| == |fmt|
    decreases |fmt|
  {
    var r := PercentStyle(fmt);
    if |fmt| < 2 {
      assert r == fmt;
      if fmt != [] {
        assert fmt[1..] == [];
      }
    } else if fmt[..2] == "*(" {
      PercentStyleComplete(fmt[2..]);
      var rest := PercentStyle(fmt[2..]);
      assert r == "%(" + rest;
      assert !StartsWith(r, "*(") by { assert r[0] == '%'; }
      assert r[1..] == ['('] + rest;
      assert !StartsWith(r[1..], "*(") by { assert r[1..][0] == '('; }
      assert r[1..][1..] == rest;
    } else {
      PercentStyleComplete(fmt[1..]);
      var rest := PercentStyle(fmt[1..]);
      assert r == [fmt[0]] + rest;
      assert r[1..] == rest;
      if fmt[0] == '*' {
        assert fmt[1] != '(' by { assert fmt[..2] == [fmt[0], fmt[1]]; }
        assert rest != [] && rest[0] != '(' by {
          var t := fmt[1..];
          if |t| < 2 {
            assert rest == t;
          } else if t[..2] == "*(" {
            assert rest == "%(" + PercentStyle(t[2..]);
          } else {
            assert rest == [t[0]] + PercentStyle(t[1..]);
          }
        }
      }
    }
  }

  /** A format without '*(' is used as written. */
  lemma PercentStyleKeeps(fmt: Str)
    requires !Contains(fmt, "*(")
    ensures PercentStyle(fmt) == fmt
  {
    ReplaceAbsent(fmt, "*(", "%(");
  }

  /**
   * The formatter arguments for one `[[formatters]]` entry: a non-empty
   * 'format' with its placeholders in '%(' style, and a non-empty 'datefmt'
   * as written; an empty or missing option is not passed.
   */
  function FormatterOf(options: map<Str, Str>): (r: FormatterArgs)
    ensures r.fmt.Some? <==> "format" in options && options["format"] != []
    ensures r.fmt.Some? ==> !Contains(r.fmt.value, "*(") && |r.fmt.value| == |options["format"]|
    ensures r.datefmt.Some? <==> "datefmt" in options && options["datefmt"] != []
    ensures r.datefmt.Some? ==> r.datefmt.value == options["datefmt"]
  {
    var fmt := DictGet(options, "format", "");
    var datefmt := DictGet(options, "datefmt", "");
    PercentStyleComplete(fmt);
    FormatterArgs(if fmt != [] then Some(PercentStyle(fmt)) else None,
                  if datefmt != [] then Some(datefmt) else None)
  }

  /**
   * `_get_formatters`: every entry of the formatter table is replaced by the
   * formatter built from its options; the table keeps its keys.
   */
  method GetFormatters(formatters: map<Str, map<Str, Str>>) returns (built: map<Str, FormatterArgs>)
    ensures built.Keys == formatters.Keys
    ensures forall k :: k in formatters ==> built[k] == FormatterOf(formatters[k])
  {
    built := map[];
    var remaining := formatters.Keys;
    while remaining != {}
      invariant remaining <= formatters.Keys
      invariant built.Keys == formatters.Keys - remaining
      invariant forall k :: k in built ==> built[k] == FormatterOf(formatters[k])
      decreases remaining
    {
      var key :| key in remaining;
      var options := formatters[key];
      var fmt: Option<Str> := None;
      if "format" in options && options["format"] != [] {
        fmt := Some(Replace(options["format"], "*(", "%("));
      }
      var datefmt: Option<Str> := None;
      if "datefmt" in options && options["datefmt"] != [] {
        datefmt := Some(options["datefmt"]);
      }
      built := built[key := FormatterArgs(fmt, datefmt)];
      remaining := remaining - {key};
    }
  }

  // ---------------------------------------------------------------------
  // update_config

  /**
   * `ConfigObj.merge`: every key of `b` is set in `a`, except that a
   * section present in both is merged section by section.
   */
  function Merge(a: map<Str, Value>, b: map<Str, Value>): (r: map<Str, Value>)
    ensures r.Keys == a.Keys + b.Keys
    ensures forall k :: k in a && k !in b ==> r[k] == a[k]
    ensures Wins(r, b)
    decreases VDict(b)
  {
    var r := map k | k in a.Keys + b.Keys ::
      if k !in b then a[k]
      else if k in a && a[k].VDict? && b[k].VDict? then VDict(Merge(a[k].entries, b[k].entries))
      else b[k];
    forall k | k in b
      ensures k in r && (if b[k].VDict? then r[k].VDict? && Wins(r[k].entries, b[k].entries) else r[k] == b[k])
    {
      if b[k].VDict? && !(k in a && a[k].VDict?) {
        WinsSelf(b[k].entries);
      }
    }
    r
  }

  /**
   * Every value of `b` is found in `r`: a plain value as it is, a section as
   * a section in which `b`'s section wins in turn.
   */
  predicate Wins(r: map<Str, Value>, b: map<Str, Value>)
    decreases VDict(b)
  {
    forall k :: k in b ==> k in r && (if b[k].VDict? then r[k].VDict? && Wins(r[k].entries, b[k].entries) else r[k] == b[k])
  }

  /** A dictionary wins over itself. */
  lemma {:induction false} WinsSelf(b: map<Str, Value>)
    ensures Wins(b, b)
    decreases VDict(b)
  {
    forall k | k in b && b[k].VDict?
      ensures Wins(b[k].entries, b[k].entries)
    {
      WinsSelf(b[k].entries);
    }
  }

  /** Merging a dictionary into itself changes nothing, sections included. */
  lemma {:induction false} MergeSelf(b: map<Str, Value>)
    ensures Merge(b, b) == b
    decreases VDict(b)
  {
    var r := Merge(b, b);
    forall k | k in b
      ensures r[k] == b[k]
    {
      if b[k].VDict? {
        MergeSelf(b[k].entries);
      }
    }
  }

  /** The module config files merged in the order they were found. */
  function MergeAll(acc: map<Str, Value>, confs: seq<map<Str, Value>>): (r: map<Str, Value>)
    decreases |confs|
  {
    if confs == [] then acc else MergeAll(Merge(acc, confs[0]), confs[1..])
  }

  /**
   * The configuration `update_config` hands to `update`: the module's config
   * files first, then the config file.
   */
  function UpdateConfigData(moduleConfs: seq<map<Str, Value>>, configFile: Option<map<Str, Value>>): (r: map<Str, Value>)
  {
    var fromModule := MergeAll(map[], moduleConfs);
    if configFile.Some? then Merge(fromModule, configFile.value) else fromModule
  }

  /** The last of the merged files wins over those before it. */
  lemma {:induction false} LastFileWins(acc: map<Str, Value>, confs: seq<map<Str, Value>>)
    requires confs != []
    ensures Wins(MergeAll(acc, confs), confs[|confs| - 1])
    decreases |confs|
  {
    if |confs| > 1 {
      LastFileWins(Merge(acc, confs[0]), confs[1..]);
      assert confs[1..][|confs[1..]| - 1] == confs[|confs| - 1];
    } else {
      assert confs[1..] == [];
      assert MergeAll(acc, confs) == Merge(acc, confs[0]);
    }
  }

  /**
   * The config file's values override the module's config files, and a key
   * only the module's files set is kept.
   */
  lemma ConfigFileWins(moduleConfs: seq<map<Str, Value>>, configFile: map<Str, Value>)
    ensures Wins(UpdateConfigData(moduleConfs, Some(configFile)), configFile)
    ensures var fromModule := MergeAll(map[], moduleConfs);
            forall k :: k in fromModule && k !in configFile ==> UpdateConfigData(moduleConfs, Some(configFile))[k] == fromModule[k]
  {
  }

  /** Without a config file, the module's last config file wins. */
  lemma ModuleFilesInOrder(moduleConfs: seq<map<Str, Value>>)
    requires moduleConfs != []
    ensures Wins(UpdateConfigData(moduleConfs, None), moduleConfs[|moduleConfs| - 1])
  {
    LastFileWins(map[], moduleConfs);
  }
}
