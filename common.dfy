/*
 * Shared vocabulary of the gearshift model: optional values, results that
 * carry the Python exception a function raises, loosely typed values as found
 * in request parameters and configuration dictionaries, and the handful of
 * Python `str` operations the framework relies on.
 */
module Common {

  type Str = seq<char>

  datatype Option<T> = None | Some(value: T)
  {
    predicate IsSome() { Some? }
    function GetOr(default: T): (r: T)
      ensures Some? ==> r == value
      ensures None? ==> r == default
    {
      match this
      case None => default
      case Some(v) => v
    }
  }

  /** The Python exceptions the modelled code raises or catches. */
  datatype Exc =
    | TypeError(msg: Str)
    | KeyError(key: Str)
    | ValueError(msg: Str)
    | NameError(name: Str)
    | RuntimeError(msg: Str)
    | AssertionError
    | UnicodeDecodeError
    | IdentityConfigurationException(msg: Str)
    | RequestRequiredException
    | IdentityManagementNotEnabledException
    | IdentityException(msg: Str)
    | HTTPRedirect(location: Str)
    | InternalRedirect(path: Str, query: Str)
    | HTTPError(status: int)
    | NotFound
    | Invalid(msg: Str)
    | SQLObjectNotFound(msg: Str)
    | NotOneError
    | IntegrityError
    | IndexError
    | AttributeError(attr: Str)
    | EOFError
    | StopIteration
    | IOError
    | ConfigError(msg: Str)

  datatype Result<T> = Ok(value: T) | Err(exc: Exc)
  {
    predicate IsOk() { Ok? }
  }

  /** A dynamically typed Python value, as stored in params, kwargs and config maps. */
  datatype Value =
    | VNone
    | VBool(b: bool)
    | VInt(i: int)
    | VStr(s: Str)
    | VList(items: seq<Value>)
    | VDict(entries: map<Str, Value>)
    | VObj(id: nat)

  /** Concatenation regrouped. */
  lemma AppendAssoc<T>(a: seq<T>, b: seq<T>, c: seq<T>)
    ensures a + (b + c) == (a + b) + c
  {
  }

  /** Python truthiness of a value. */
  predicate Truthy(v: Value)
  {
    match v
    case VNone => false
    case VBool(b) => b
    case VInt(i) => i != 0
    case VStr(s) => s != []
    case VList(xs) => xs != []
    case VDict(m) => m != map[]
    case VObj(_) => true
  }

  // ---------------------------------------------------------------------
  // String helpers (ASCII semantics of Python 2 byte strings)

  predicate IsSpace(c: char)
  {
    c == ' ' || c == '\t' || c == '\n' || c == '\r' || c == '\U{000B}' || c == '\U{000C}'
  }

  function LowerChar(c: char): char
  {
    if 'A' <= c <= 'Z' then (c as int + 32) as char else c
  }

  function UpperChar(c: char): char
  {
    if 'a' <= c <= 'z' then (c as int - 32) as char else c
  }

  /** `s.lower()` */
  function Lower(s: Str): (r: Str)
    ensures |r| == |s|
    ensures forall i :: 0 <= i < |s| ==> r[i] == LowerChar(s[i])
  {
    seq(|s|, i requires 0 <= i < |s| => LowerChar(s[i]))
  }

  /** `s.upper()` */
  function Upper(s: Str): (r: Str)
    ensures |r| == |s|
    ensures forall i :: 0 <= i < |s| ==> r[i] == UpperChar(s[i])
  {
    seq(|s|, i requires 0 <= i < |s| => UpperChar(s[i]))
  }

  /** `s.lstrip()` */
  function LStrip(s: Str): (r: Str)
    ensures |r| <= |s| && r == s[|s| - |r|..]
    ensures r == [] || !IsSpace(r[0])
    ensures forall i :: 0 <= i < |s| - |r| ==> IsSpace(s[i])
  {
    if s == [] || !IsSpace(s[0]) then s else LStrip(s[1..])
  }

  /** `s.rstrip()` */
  function RStrip(s: Str): (r: Str)
    ensures |r| <= |s| && r == s[..|r|]
    ensures r == [] || !IsSpace(r[|r| - 1])
    ensures forall i :: |r| <= i < |s| ==> IsSpace(s[i])
  {
    if s == [] || !IsSpace(s[|s| - 1]) then s else RStrip(s[..|s| - 1])
  }

  /** `s.strip()` */
  function Strip(s: Str): (r: Str)
    ensures r == [] || (!IsSpace(r[0]) && !IsSpace(r[|r| - 1]))
  {
    RStrip(LStrip(s))
  }

  predicate StartsWith(s: Str, p: Str)
  {
    |p| <= |s| && s[..|p|] == p
  }

  /** `d.get(k, default)` */
  function DictGet<V>(d: map<Str, V>, k: Str, default: V): (r: V)
    ensures k in d ==> r == d[k]
    ensures k !in d ==> r == default
  {
    if k in d then d[k] else default
  }

  /** Length of the leading run of non-whitespace characters of `t`. */
  function WordEnd(t: Str): (n: nat)
    ensures n <= |t|
    ensures forall i :: 0 <= i < n ==> !IsSpace(t[i])
    ensures n == |t| || IsSpace(t[n])
  {
    if t == [] || IsSpace(t[0]) then 0 else 1 + WordEnd(t[1..])
  }

  /** The leading word of `t`, or None for an empty `t`. */
  function LeadingWord(t: Str): (r: Option<Str>)
    requires t == [] || !IsSpace(t[0])
    ensures r.None? <==> t == []
    ensures r.Some? ==> r.value != [] && StartsWith(t, r.value)
    ensures r.Some? ==> forall i :: 0 <= i < |r.value| ==> !IsSpace(r.value[i])
    ensures r.Some? ==> |r.value| == |t| || IsSpace(t[|r.value|])
  {
    if t == [] then None else Some(t[..WordEnd(t)])
  }

  /** `s.split()[0]`, or None where that raises IndexError (blank `s`). */
  function FirstWord(s: Str): (r: Option<Str>)
    ensures r.None? <==> LStrip(s) == []
    ensures r.Some? ==> r.value != [] && StartsWith(LStrip(s), r.value)
    ensures r.Some? ==> forall i :: 0 <= i < |r.value| ==> !IsSpace(r.value[i])
    ensures r.Some? ==> |r.value| == |LStrip(s)| || IsSpace(LStrip(s)[|r.value|])
  {
    LeadingWord(LStrip(s))
  }

  /** `sub in s` */
  predicate Contains(s: Str, sub: Str)
    decreases |s|
  {
    StartsWith(s, sub) || (s != [] && Contains(s[1..], sub))
  }

  /** A string occurring between two others is found in their concatenation. */
  lemma {:induction false} ContainsInfix(p: Str, sub: Str, q: Str)
    ensures Contains(p + sub + q, sub)
    decreases |p|
  {
    if p == [] {
      assert (p + sub + q)[..|sub|] == sub;
    } else {
      ContainsInfix(p[1..], sub, q);
      assert (p + sub + q)[1..] == p[1..] + sub + q;
    }
  }

  /** `c in s` for a single character. */
  predicate HasChar(s: Str, c: char)
  {
    c in s
  }

  /** Index of the first occurrence of `c`, or -1, as `s.find(c)`. */
  function FindChar(s: Str, c: char): (r: int)
    ensures -1 <= r < |s|
    ensures r == -1 <==> c !in s
    ensures r >= 0 ==> s[r] == c && c !in s[..r]
  {
    if s == [] then -1
    else if s[0] == c then 0
    else var k := FindChar(s[1..], c); if k == -1 then -1 else k + 1
  }

  /** The first `c` in `p + [c] + q` is the one after `p` when `p` has none. */
  lemma {:induction false} FindCharAfter(p: Str, c: char, q: Str)
    requires c !in p
    ensures FindChar(p + [c] + q, c) == |p|
  {
    if p != [] {
      FindCharAfter(p[1..], c, q);
      assert (p + [c] + q)[1..] == p[1..] + [c] + q;
    }
  }

  /** Index of the last occurrence of `c`, or -1, as `s.rfind(c)`. */
  function RFindChar(s: Str, c: char): (r: int)
    ensures -1 <= r < |s|
    ensures r == -1 <==> c !in s
    ensures r >= 0 ==> s[r] == c && c !in s[r + 1..]
  {
    if s == [] then -1
    else if s[|s| - 1] == c then |s| - 1
    else
      var init := s[..|s| - 1];
      var k := RFindChar(init, c);
      assert s == init + [s[|s| - 1]];
      assert k >= 0 ==> s[k + 1..] == init[k + 1..] + [s[|s| - 1]];
      k
  }

  /** The last occurrence is the one with no other after it. */
  lemma {:induction false} RFindCharAt(s: Str, c: char, k: int)
    requires 0 <= k < |s| && s[k] == c && c !in s[k + 1..]
    ensures RFindChar(s, c) == k
    decreases |s|
  {
    if k < |s| - 1 {
      var init := s[..|s| - 1];
      assert s[k + 1..] == init[k + 1..] + [s[|s| - 1]];
      RFindCharAt(init, c, k);
    }
  }

  /** `s.split(c)` for a one-character separator: every occurrence splits. */
  function Split(s: Str, c: char): (r: seq<Str>)
    ensures |r| >= 1
    ensures forall i :: 0 <= i < |r| ==> c !in r[i]
    decreases |s|
  {
    var k := FindChar(s, c);
    if k == -1 then [s] else [s[..k]] + Split(s[k + 1..], c)
  }

  /** `sep.join(parts)` */
  function Join(parts: seq<Str>, sep: Str): (r: Str)
  {
    if parts == [] then []
    else if |parts| == 1 then parts[0]
    else parts[0] + sep + Join(parts[1..], sep)
  }

  /** Joining a part before at least one other puts the separator after it. */
  lemma JoinCons(a: Str, xs: seq<Str>, sep: Str)
    requires xs != []
    ensures Join([a] + xs, sep) == a + sep + Join(xs, sep)
  {
    var parts := [a] + xs;
    assert parts[0] == a && parts[1..] == xs;
  }

  /** Splitting at a first separator at `k`: the part before it, then the split of the rest. */
  lemma SplitAt(s: Str, c: char, k: int)
    requires k == FindChar(s, c) && k != -1
    ensures Split(s, c) == [s[..k]] + Split(s[k + 1..], c)
  {
    var rest := Split(s[k + 1..], c);
    assert Split(s, c) == [s[..k]] + rest;
  }

  lemma {:induction false} JoinSplit(s: Str, c: char)
    ensures Join(Split(s, c), [c]) == s
    decreases |s|
  {
    var k := FindChar(s, c);
    if k != -1 {
      var rest := s[k + 1..];
      JoinSplit(rest, c);
      SplitAt(s, c, k);
      JoinCons(s[..k], Split(rest, c), [c]);
      assert s == s[..k] + [c] + rest;
    }
  }

  /** `s.split(c, 1)`: at most one split, at the first occurrence. */
  function SplitFirst(s: Str, c: char): (r: seq<Str>)
    ensures 1 <= |r| <= 2
    ensures |r| == 1 <==> c !in s
    ensures |r| == 1 ==> r[0] == s
    ensures |r| == 2 ==> r[0] + [c] + r[1] == s && c !in r[0]
  {
    var k := FindChar(s, c);
    if k == -1 then [s]
    else
      assert s == s[..k] + [c] + s[k + 1..];
      [s[..k], s[k + 1..]]
  }

  /** `s.rsplit(c, 1)`: at most one split, at the last occurrence. */
  function RSplitLast(s: Str, c: char): (r: seq<Str>)
    ensures 1 <= |r| <= 2
    ensures |r| == 1 <==> c !in s
    ensures |r| == 1 ==> r[0] == s
    ensures |r| == 2 ==> r[0] + [c] + r[1] == s && c !in r[1]
  {
    var k := RFindChar(s, c);
    if k == -1 then [s]
    else
      assert s == s[..k] + [c] + s[k + 1..];
      [s[..k], s[k + 1..]]
  }

  /** `s.replace(old, new)` scanning left to right without overlaps. */
  function Replace(s: Str, pat: Str, rep: Str): (r: Str)
    requires pat != []
    decreases |s|
  {
    if |s| < |pat| then s
    else if s[..|pat|] == pat then rep + Replace(s[|pat|..], pat, rep)
    else [s[0]] + Replace(s[1..], pat, rep)
  }

  lemma {:induction false} ReplaceAbsent(s: Str, pat: Str, rep: Str)
    requires pat != []
    requires !Contains(s, pat)
    ensures Replace(s, pat, rep) == s
    decreases |s|
  {
    if |s| >= |pat| {
      ReplaceAbsent(s[1..], pat, rep);
    }
  }

  /** Lexicographic order of Python string comparison `a < b`. */
  predicate LexLess(a: Str, b: Str)
    decreases |a|
  {
    if b == [] then false
    else if a == [] then true
    else if a[0] != b[0] then a[0] < b[0]
    else LexLess(a[1..], b[1..])
  }

  /** Decimal rendering of a natural number, as `str(n)`. */
  function NatToStr(n: nat): (r: Str)
    ensures |r| >= 1
    ensures forall i :: 0 <= i < |r| ==> '0' <= r[i] <= '9'
    decreases n
  {
    if n < 10 then [('0' as int + n) as char]
    else NatToStr(n / 10) + [('0' as int + n % 10) as char]
  }

  predicate IsDigit(c: char) { '0' <= c <= '9' }

  predicate AllDigits(s: Str) { forall i :: 0 <= i < |s| ==> IsDigit(s[i]) }

  /**
   * `order` is an iteration order of the dictionary `m`: each of its keys
   * exactly once, and nothing else.
   */
  ghost predicate EnumeratesKeys<V>(order: seq<Str>, m: map<Str, V>)
  {
    (forall i, j :: 0 <= i < j < |order| ==> order[i] != order[j]) &&
    (forall k :: k in order <==> k in m)
  }

  /** Value of a string of decimal digits. */
  function DigitsValue(s: Str): (r: nat)
    requires AllDigits(s)
    decreases |s|
  {
    if s == [] then 0 else DigitsValue(s[..|s| - 1]) * 10 + (s[|s| - 1] as int - '0' as int)
  }

  /** `int(s)` for a string of optional sign and digits; ValueError otherwise. */
  function ParseInt(s0: Str): (r: Result<int>)
    ensures r.Ok? ==> s0 != []
  {
    var s := Strip(s0);
    if s != [] && s[0] == '-' && |s| > 1 && AllDigits(s[1..]) then Ok(-(DigitsValue(s[1..]) as int))
    else if s != [] && s[0] == '+' && |s| > 1 && AllDigits(s[1..]) then Ok(DigitsValue(s[1..]))
    else if s != [] && AllDigits(s) then Ok(DigitsValue(s))
    else Err(ValueError("invalid literal for int(): " + s0))
  }

  lemma PrefixInjective(p: Str)
    ensures forall a: Str, b: Str {:trigger p + a, p + b} :: p + a == p + b ==> a == b
  {
    forall a: Str, b: Str | p + a == p + b ensures a == b {
      assert a == (p + a)[|p|..];
      assert b == (p + b)[|p|..];
    }
  }

  /** The entries of `kw` with every key prefixed by `prefix`. */
  function PrefixKeys<V>(prefix: Str, kw: map<Str, V>): (r: map<Str, V>)
    ensures forall k :: k in kw ==> prefix + k in r && r[prefix + k] == kw[k]
    ensures forall key :: key in r ==> StartsWith(key, prefix) && key[|prefix|..] in kw && r[key] == kw[key[|prefix|..]]
  {
    PrefixInjective(prefix);
    var r := map k | k in kw :: prefix + k := kw[k];
    assert forall key :: key in r ==> exists k :: k in kw && key == prefix + k;
    forall key | key in r
      ensures StartsWith(key, prefix) && key[|prefix|..] in kw && r[key] == kw[key[|prefix|..]]
    {
      var k :| k in kw && key == prefix + k;
      assert key[|prefix|..] == k;
    }
    r
  }
}
