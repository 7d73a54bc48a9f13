/*
 * The converters and date helpers of gearshift/validators.py: the upload
 * converter that heeds `not_empty=False`, rendering datetimes (including
 * years up to 1900, which the C library cannot format), and the
 * occurrence search it relies on.
 *
 * `time.strftime` is a parameter: `render(y, fmt)` is what it produces for
 * the date being converted with its year replaced by `y`.
 */
module Validators {
  import opened Common

  // ---------------------------------------------------------------------
  // _findall

  /** `sub` occurs in `text` starting at `p`. */
  predicate Occurs(text: Str, sub: Str, p: int)
  {
    0 <= p && p + |sub| <= |text| && text[p..p + |sub|] == sub
  }

  /** `text.find(sub, start)`: the first occurrence at or after `start`, or -1. */
  function Find(text: Str, sub: Str, start: nat): (r: int)
    ensures r == -1 || (start <= r <= |text| && Occurs(text, sub, r))
    ensures r == -1 ==> forall p :: start <= p <= |text| ==> !Occurs(text, sub, p)
    ensures r != -1 ==> forall p :: start <= p < r ==> !Occurs(text, sub, p)
    decreases |text| + 1 - start
  {
    if start > |text| then -1
    else if Occurs(text, sub, start) then start
    else Find(text, sub, start + 1)
  }

  /** The occurrences `find` reports from `start` on, each search resuming one past the last hit. */
  function Sites(text: Str, sub: Str, start: nat): (r: seq<nat>)
    decreases |text| + 1 - start
  {
    var j := Find(text, sub, start);
    if j == -1 then [] else [j as nat] + Sites(text, sub, j + 1)
  }

  predicate Increasing(xs: seq<nat>)
  {
    forall i, j :: 0 <= i < j < |xs| ==> xs[i] < xs[j]
  }

  /**
   * The sites are exactly the occurrences at or after `start`, overlapping
   * ones included, in increasing order.
   */
  lemma {:induction false} SitesExact(text: Str, sub: Str, start: nat)
    ensures Increasing(Sites(text, sub, start))
    ensures forall k :: 0 <= k < |Sites(text, sub, start)| ==>
              start <= Sites(text, sub, start)[k] && Occurs(text, sub, Sites(text, sub, start)[k])
    ensures forall p: nat :: start <= p && Occurs(text, sub, p) ==> p in Sites(text, sub, start)
    decreases |text| + 1 - start
  {
    var j := Find(text, sub, start);
    if j != -1 {
      SitesExact(text, sub, j + 1);
      var rest := Sites(text, sub, j + 1);
      assert Sites(text, sub, start) == [j as nat] + rest;
      forall p: nat | start <= p && Occurs(text, sub, p)
        ensures p in Sites(text, sub, start)
      {
        if p != j {
          assert p in rest;
        }
      }
    }
  }

  /** `_findall(text, substr)` */
  method FindAll(text: Str, sub: Str) returns (sites: seq<nat>)
    ensures sites == Sites(text, sub, 0)
  {
    sites := [];
    var i: nat := 0;
    while true
      invariant sites + Sites(text, sub, i) == Sites(text, sub, 0)
      decreases |text| + 1 - i
    {
      var j := Find(text, sub, i);
      FindAllStep(text, sub, sites, i);
      if j == -1 {
        return;
      }
      sites := sites + [j as nat];
      i := j + 1;
    }
  }

  /** One `find` of the `_findall` loop: a miss ends the sites, a hit is the next one. */
  lemma FindAllStep(text: Str, sub: Str, sites: seq<nat>, i: nat)
    ensures var j := Find(text, sub, i);
            (j == -1 ==> sites + Sites(text, sub, i) == sites) &&
            (j != -1 ==> sites + Sites(text, sub, i) == (sites + [j as nat]) + Sites(text, sub, j + 1))
  {
    var j := Find(text, sub, i);
    var here := Sites(text, sub, i);
    if j == -1 {
      assert here == [];
      assert sites + here == sites;
    } else {
      var rest := Sites(text, sub, j + 1);
      assert here == [j as nat] + rest;
      calc {
        sites + here;
        sites + ([j as nat] + rest);
        (sites + [j as nat]) + rest;
      }
    }
  }

  /** Two occurrences of "aa" overlap in "aaa". */
  lemma FindAllOverlapping()
    ensures Sites("aaa", "aa", 0) == [0, 1]
  {
    assert Occurs("aaa", "aa", 0) && Occurs("aaa", "aa", 1);
    assert !Occurs("aaa", "aa", 2) && !Occurs("aaa", "aa", 3);
    assert Find("aaa", "aa", 0) == 0 && Find("aaa", "aa", 1) == 1 && Find("aaa", "aa", 2) == -1;
  }

  // ---------------------------------------------------------------------
  // The %s check

  /** The number of '%' characters directly before position `j`. */
  function PercentsBefore(fmt: Str, j: nat): (r: nat)
    requires j <= |fmt|
    ensures r <= j
  {
    if j == 0 || fmt[j - 1] != '%' then 0 else 1 + PercentsBefore(fmt, j - 1)
  }

  /**
   * A match of `((^|[^%])(%%)*%s)` whose "%s" starts at `j`: the '%' before
   * the 's' is preceded by an even run of '%', so it is not escaped.
   */
  predicate IllegalAt(fmt: Str, j: nat)
  {
    j + 1 < |fmt| && fmt[j] == '%' && fmt[j + 1] == 's' && PercentsBefore(fmt, j) % 2 == 0
  }

  /** `_illegal_s.search(fmt)` */
  predicate HasIllegalS(fmt: Str)
  {
    exists j :: 0 <= j < |fmt| && IllegalAt(fmt, j)
  }

  /**
   * Reading `fmt` from `i` on as strftime reads it, a '%' and the character
   * after it forming one directive: whether a `%s` directive is met.
   */
  function ReadsPercentS(fmt: Str, i: nat): bool
    decreases |fmt| - i
  {
    if i + 1 >= |fmt| then false
    else if fmt[i] == '%' then fmt[i + 1] == 's' || ReadsPercentS(fmt, i + 2)
    else ReadsPercentS(fmt, i + 1)
  }

  /** Skipping positions where no match starts. */
  lemma SkipNoMatch(fmt: Str, i: nat, k: nat)
    requires i <= k && forall j :: i <= j < k ==> !IllegalAt(fmt, j)
    ensures (exists j :: i <= j < |fmt| && IllegalAt(fmt, j)) <==> (exists j :: k <= j < |fmt| && IllegalAt(fmt, j))
  {
  }

  lemma {:induction false} IllegalFrom(fmt: Str, i: nat)
    requires i <= |fmt| && PercentsBefore(fmt, i) % 2 == 0
    ensures ReadsPercentS(fmt, i) <==> exists j :: i <= j < |fmt| && IllegalAt(fmt, j)
    decreases |fmt| - i
  {
    if i + 1 >= |fmt| {
      assert forall j :: i <= j < |fmt| ==> !IllegalAt(fmt, j);
    } else if fmt[i] == '%' {
      if fmt[i + 1] == 's' {
        assert IllegalAt(fmt, i);
      } else {
        assert PercentsBefore(fmt, i + 1) == PercentsBefore(fmt, i) + 1;
        if fmt[i + 1] == '%' {
          assert PercentsBefore(fmt, i + 2) == PercentsBefore(fmt, i) + 2;
        } else {
          assert PercentsBefore(fmt, i + 2) == 0;
        }
        IllegalFrom(fmt, i + 2);
        assert !IllegalAt(fmt, i) && !IllegalAt(fmt, i + 1);
        SkipNoMatch(fmt, i, i + 2);
      }
    } else {
      assert PercentsBefore(fmt, i + 1) == 0;
      IllegalFrom(fmt, i + 1);
      assert !IllegalAt(fmt, i);
      SkipNoMatch(fmt, i, i + 1);
    }
  }

  /** The `%s` guard refuses exactly the formats in which strftime would read a `%s` directive. */
  lemma IllegalIffPercentSDirective(fmt: Str)
    ensures HasIllegalS(fmt) <==> ReadsPercentS(fmt, 0)
  {
    IllegalFrom(fmt, 0);
  }

  /** "%s" is refused, the escaped "%%s" and the default "%Y-%m-%d" are not. */
  lemma PercentSExamples()
    ensures HasIllegalS("%s") && !HasIllegalS("%%s") && !HasIllegalS("%Y-%m-%d")
  {
    assert IllegalAt("%s", 0);
    IllegalIffPercentSDirective("%%s");
    IllegalIffPercentSDirective("%Y-%m-%d");
    assert "%Y-%m-%d"[3] == '%' && "%Y-%m-%d"[6] == '%';
    assert ReadsPercentS("%Y-%m-%d", 2) == ReadsPercentS("%Y-%m-%d", 3);
  }

  // ---------------------------------------------------------------------
  // strftime_before1900

  /** The number of digits of a year below 10000. */
  lemma {:induction false} NatToStrLength(n: nat)
    ensures n < 10 ==> |NatToStr(n)| == 1
    ensures 10 <= n < 100 ==> |NatToStr(n)| == 2
    ensures 100 <= n < 1000 ==> |NatToStr(n)| == 3
    ensures 1000 <= n < 10000 ==> |NatToStr(n)| == 4
    decreases n
  {
    if n >= 10 {
      NatToStrLength(n / 10);
    }
  }

  /**
   * The year moved into the 28-year cycle around 2000: six years on for
   * each century and each 400 years between it and 2000, then by a multiple
   * of 28 into 1973..2000. Python's floor division agrees with Dafny's here,
   * both operands being non-negative.
   */
  function CycleYear(year: int): (r: int)
    requires 1 <= year <= 1900
    ensures 1973 <= r <= 2000
    ensures (r - (year + 6 * ((2000 - year) / 100 + (2000 - year) / 400))) % 28 == 0
  {
    var delta := 2000 - year;
    var shifted := year + 6 * (delta / 100 + delta / 400);
    shifted + ((2000 - shifted) / 28) * 28
  }

  /** `"%4d" % n`: the digits, right-aligned in four columns. */
  function Pad4(n: nat): (r: Str)
    ensures |r| == if |NatToStr(n)| < 4 then 4 else |NatToStr(n)|
    ensures r[|r| - |NatToStr(n)|..] == NatToStr(n)
    ensures forall i :: 0 <= i < |r| - |NatToStr(n)| ==> r[i] == ' '
  {
    var d := NatToStr(n);
    seq(if |d| < 4 then 4 - |d| else 0, _ => ' ') + d
  }

  /** `s[:site] + rep + s[site+4:]`, slices clamped to `s` as Python clamps them. */
  function Splice(s: Str, site: nat, rep: Str): (r: Str)
    ensures site + 4 <= |s| ==> r == s[..site] + rep + s[site + 4..]
  {
    var a := if site <= |s| then site else |s|;
    var b := if site + 4 <= |s| then site + 4 else |s|;
    s[..a] + rep + s[b..]
  }

  /** Each site spliced in turn, first to last. */
  function ReplaceSites(s: Str, sites: seq<nat>, rep: Str): Str
    decreases |sites|
  {
    if sites == [] then s else ReplaceSites(Splice(s, sites[0], rep), sites[1..], rep)
  }

  /** `p` lies in the four characters starting at one of the sites. */
  predicate InWindow(sites: seq<nat>, p: int)
  {
    exists k :: 0 <= k < |sites| && sites[k] <= p < sites[k] + 4
  }

  /** Splicing inside `s` keeps the length; `rep` shows through its window and `s` elsewhere. */
  lemma SpliceWindow(s: Str, site: nat, rep: Str, p: int)
    requires |rep| == 4 && site + 4 <= |s| && 0 <= p < |s|
    ensures |Splice(s, site, rep)| == |s|
    ensures Splice(s, site, rep)[p] == if site <= p < site + 4 then rep[p - site] else s[p]
  {
  }

  /** Splicing four characters at sites inside `s` keeps its length. */
  lemma {:induction false} ReplaceSitesLength(s: Str, sites: seq<nat>, rep: Str)
    requires |rep| == 4
    requires forall k :: 0 <= k < |sites| ==> sites[k] + 4 <= |s|
    ensures |ReplaceSites(s, sites, rep)| == |s|
    decreases |sites|
  {
    if sites != [] {
      SpliceWindow(s, sites[0], rep, sites[0]);
      ReplaceSitesLength(Splice(s, sites[0], rep), sites[1..], rep);
    }
  }

  /** A position outside every site's window keeps its character. */
  lemma {:induction false} ReplaceSitesOutside(s: Str, sites: seq<nat>, rep: Str, p: int)
    requires |rep| == 4
    requires forall k :: 0 <= k < |sites| ==> sites[k] + 4 <= |s|
    requires 0 <= p < |s| && !InWindow(sites, p)
    ensures |ReplaceSites(s, sites, rep)| == |s|
    ensures ReplaceSites(s, sites, rep)[p] == s[p]
    decreases |sites|
  {
    ReplaceSitesLength(s, sites, rep);
    if sites != [] {
      var s' := Splice(s, sites[0], rep);
      var rest := sites[1..];
      SpliceWindow(s, sites[0], rep, p);
      forall k | 0 <= k < |rest|
        ensures !(rest[k] <= p < rest[k] + 4)
      {
        assert rest[k] == sites[k + 1];
      }
      ReplaceSitesOutside(s', rest, rep, p);
    }
  }

  /**
   * At increasing sites, `rep` is left at every site that the next site
   * does not overlap.
   */
  lemma {:induction false} ReplaceSitesAt(s: Str, sites: seq<nat>, rep: Str, k: nat)
    requires |rep| == 4 && Increasing(sites)
    requires forall k :: 0 <= k < |sites| ==> sites[k] + 4 <= |s|
    requires k < |sites| && (k + 1 == |sites| || sites[k] + 4 <= sites[k + 1])
    ensures |ReplaceSites(s, sites, rep)| == |s|
    ensures ReplaceSites(s, sites, rep)[sites[k]..sites[k] + 4] == rep
    decreases |sites|
  {
    ReplaceSitesLength(s, sites, rep);
    var s' := Splice(s, sites[0], rep);
    var rest := sites[1..];
    SpliceWindow(s, sites[0], rep, sites[0]);
    var r := ReplaceSites(s, sites, rep);
    assert r == ReplaceSites(s', rest, rep);
    if k == 0 {
      forall p | sites[0] <= p < sites[0] + 4
        ensures r[p] == rep[p - sites[0]]
      {
        forall m | 0 <= m < |rest|
          ensures !(rest[m] <= p < rest[m] + 4)
        {
          assert rest[m] == sites[m + 1] && sites[1] <= sites[m + 1];
        }
        SpliceWindow(s, sites[0], rep, p);
        ReplaceSitesOutside(s', rest, rep, p);
      }
    } else {
      assert rest[k - 1] == sites[k];
      ReplaceSitesAt(s', rest, rep, k - 1);
    }
  }

  /** The sites of `a` also in `b`, in the order of `a`. */
  function CommonSites(a: seq<nat>, b: seq<nat>): (r: seq<nat>)
    ensures forall x :: x in r <==> x in a && x in b
    decreases |a|
  {
    if a == [] then []
    else if a[0] in b then [a[0]] + CommonSites(a[1..], b)
    else CommonSites(a[1..], b)
  }

  /** Keeping the common sites keeps them in increasing order. */
  lemma {:induction false} CommonSitesIncreasing(a: seq<nat>, b: seq<nat>)
    requires Increasing(a)
    ensures Increasing(CommonSites(a, b))
    decreases |a|
  {
    if a != [] {
      var rest := CommonSites(a[1..], b);
      CommonSitesIncreasing(a[1..], b);
      if a[0] in b {
        forall m | 0 <= m < |rest|
          ensures a[0] < rest[m]
        {
          assert rest[m] in a[1..];
          var n :| 0 <= n < |a[1..]| && a[1..][n] == rest[m];
          assert a[n + 1] == rest[m];
        }
        var r := CommonSites(a, b);
        assert r == [a[0]] + rest;
        forall i, j | 0 <= i < j < |r|
          ensures r[i] < r[j]
        {
          if i > 0 {
            assert r[i] == rest[i - 1] && r[j] == rest[j - 1];
          } else {
            assert r[j] == rest[j - 1];
          }
        }
      }
    }
  }

  /** What a strftime implementation draws for `year` and `fmt`. */
  type Renderer = (int, Str) -> Str

  /**
   * A year up to 1900 rendered with `fmt`: rendered as the cycle year, and
   * the cycle year's digits replaced by the real year wherever they also
   * appear when rendering 28 years later.
   */
  function Before1900(year: int, fmt: Str, render: Renderer): Str
    requires 1 <= year <= 1900
  {
    var y := CycleYear(year);
    var s1 := render(y, fmt);
    var s2 := render(y + 28, fmt);
    YearReplaced(s1, NatToStr(y), s2, NatToStr(y + 28), Pad4(year))
  }

  /** `s1` with `rep` spliced wherever `s1` shows `sub1` and `s2` shows `sub2`. */
  function YearReplaced(s1: Str, sub1: Str, s2: Str, sub2: Str, rep: Str): Str
  {
    ReplaceSites(s1, CommonSites(Sites(s1, sub1, 0), Sites(s2, sub2, 0)), rep)
  }

  /** Where both `s1` shows `sub1` and `s2` shows `sub2`. */
  predicate InBoth(s1: Str, sub1: Str, s2: Str, sub2: Str, x: int)
  {
    Occurs(s1, sub1, x) && Occurs(s2, sub2, x)
  }

  /** The common sites are increasing, lie inside `s1`, and are exactly the places in both. */
  lemma CommonSitesFacts(s1: Str, sub1: Str, s2: Str, sub2: Str)
    requires |sub1| == 4
    ensures var sites := CommonSites(Sites(s1, sub1, 0), Sites(s2, sub2, 0));
            Increasing(sites) &&
            (forall k :: 0 <= k < |sites| ==> sites[k] + 4 <= |s1|) &&
            (forall x :: x in sites <==> InBoth(s1, sub1, s2, sub2, x))
  {
    var sites1 := Sites(s1, sub1, 0);
    var sites2 := Sites(s2, sub2, 0);
    var sites := CommonSites(sites1, sites2);
    SitesExact(s1, sub1, 0);
    SitesExact(s2, sub2, 0);
    CommonSitesIncreasing(sites1, sites2);
    forall x
      ensures x in sites <==> InBoth(s1, sub1, s2, sub2, x)
    {
      if x in sites {
        var k :| 0 <= k < |sites1| && sites1[k] == x;
        var m :| 0 <= m < |sites2| && sites2[m] == x;
      }
    }
    forall k | 0 <= k < |sites|
      ensures sites[k] + 4 <= |s1|
    {
      assert sites[k] in sites;
    }
  }

  /** Replacing at the common sites changes only windows at places in both. */
  lemma YearReplacedOnlyAtSites(s1: Str, sub1: Str, s2: Str, sub2: Str, rep: Str)
    requires |sub1| == 4 && |rep| == 4
    ensures var r := YearReplaced(s1, sub1, s2, sub2, rep);
            |r| == |s1| &&
            forall p :: 0 <= p < |s1| && r[p] != s1[p] ==>
              exists site :: site <= p < site + 4 && InBoth(s1, sub1, s2, sub2, site)
  {
    var sites := CommonSites(Sites(s1, sub1, 0), Sites(s2, sub2, 0));
    CommonSitesFacts(s1, sub1, s2, sub2);
    ReplaceSitesLength(s1, sites, rep);
    var r := ReplaceSites(s1, sites, rep);
    forall p | 0 <= p < |s1| && r[p] != s1[p]
      ensures exists site :: site <= p < site + 4 && InBoth(s1, sub1, s2, sub2, site)
    {
      if !InWindow(sites, p) {
        ReplaceSitesOutside(s1, sites, rep, p);
      }
      var k :| 0 <= k < |sites| && sites[k] <= p < sites[k] + 4;
      assert sites[k] in sites;
    }
  }

  /** Replacing at the common sites leaves `rep` at each place in both that no later one overlaps. */
  lemma YearReplacedAtSites(s1: Str, sub1: Str, s2: Str, sub2: Str, rep: Str)
    requires |sub1| == 4 && |rep| == 4
    ensures var r := YearReplaced(s1, sub1, s2, sub2, rep);
            |r| == |s1| &&
            forall site: nat ::
              (InBoth(s1, sub1, s2, sub2, site) &&
               (forall q: nat :: site < q < site + 4 ==> !InBoth(s1, sub1, s2, sub2, q)))
              ==> r[site..site + 4] == rep
  {
    var sites := CommonSites(Sites(s1, sub1, 0), Sites(s2, sub2, 0));
    CommonSitesFacts(s1, sub1, s2, sub2);
    ReplaceSitesLength(s1, sites, rep);
    forall site: nat | InBoth(s1, sub1, s2, sub2, site) &&
                       (forall q: nat :: site < q < site + 4 ==> !InBoth(s1, sub1, s2, sub2, q))
      ensures YearReplaced(s1, sub1, s2, sub2, rep)[site..site + 4] == rep
    {
      YearReplacedAt(s1, sub1, s2, sub2, rep, site);
    }
  }

  /** One place in both that no later one overlaps shows `rep` after replacing. */
  lemma YearReplacedAt(s1: Str, sub1: Str, s2: Str, sub2: Str, rep: Str, site: nat)
    requires |sub1| == 4 && |rep| == 4
    requires InBoth(s1, sub1, s2, sub2, site)
    requires forall q: nat :: site < q < site + 4 ==> !InBoth(s1, sub1, s2, sub2, q)
    ensures site + 4 <= |YearReplaced(s1, sub1, s2, sub2, rep)|
    ensures YearReplaced(s1, sub1, s2, sub2, rep)[site..site + 4] == rep
  {
    var sites := CommonSites(Sites(s1, sub1, 0), Sites(s2, sub2, 0));
    CommonSitesFacts(s1, sub1, s2, sub2);
    assert site in sites;
    var k :| 0 <= k < |sites| && sites[k] == site;
    if k + 1 < |sites| {
      var next := sites[k + 1];
      assert next in sites;
      assert site < next;
    }
    ReplaceSitesAt(s1, sites, rep, k);
  }

  /**
   * Replacing at the common sites keeps the length of `s1`, changes only
   * windows at places in both, and leaves `rep` at each such place that no
   * later one overlaps.
   */
  lemma YearReplacedEffect(s1: Str, sub1: Str, s2: Str, sub2: Str, rep: Str)
    requires |sub1| == 4 && |rep| == 4
    ensures var r := YearReplaced(s1, sub1, s2, sub2, rep);
            |r| == |s1| &&
            (forall p :: 0 <= p < |s1| && r[p] != s1[p] ==>
               exists site :: site <= p < site + 4 && InBoth(s1, sub1, s2, sub2, site)) &&
            (forall site: nat ::
               (InBoth(s1, sub1, s2, sub2, site) &&
                (forall q: nat :: site < q < site + 4 ==> !InBoth(s1, sub1, s2, sub2, q)))
               ==> r[site..site + 4] == rep)
  {
    YearReplacedOnlyAtSites(s1, sub1, s2, sub2, rep);
    YearReplacedAtSites(s1, sub1, s2, sub2, rep);
  }

  /**
   * Before 1900 the years in play have four digits and the real year is
   * padded to four columns, so the replacement properties above apply.
   */
  lemma Before1900Replaces(year: int, fmt: Str, render: Renderer)
    requires 1 <= year <= 1900
    ensures var y := CycleYear(year);
            Before1900(year, fmt, render) == YearReplaced(render(y, fmt), NatToStr(y), render(y + 28, fmt), NatToStr(y + 28), Pad4(year)) &&
            |NatToStr(y)| == 4 && |NatToStr(y + 28)| == 4 && |Pad4(year)| == 4
  {
    var y := CycleYear(year);
    NatToStrLength(y);
    NatToStrLength(y + 28);
    NatToStrLength(year);
  }

  /** `strftime_before1900(dt, fmt)` as a value: the %s check, then the year cases. */
  function Strftime1900(year: int, fmt: Str, render: Renderer): (r: Result<Str>)
    requires 1 <= year
    ensures r.Err? <==> HasIllegalS(fmt)
    ensures r.Err? ==> r.exc.TypeError?
    ensures !HasIllegalS(fmt) && year > 1900 ==> r == Ok(render(year, fmt))
  {
    if HasIllegalS(fmt) then Err(TypeError("This strftime implementation does not handle %s"))
    else if year > 1900 then Ok(render(year, fmt))
    else Ok(Before1900(year, fmt, render))
  }

  /** `strftime_before1900(dt, fmt)` for a date of year `year`. */
  method StrftimeBefore1900(year: int, fmt: Str, render: Renderer) returns (r: Result<Str>)
    requires 1 <= year
    ensures r == Strftime1900(year, fmt, render)
  {
    if HasIllegalS(fmt) {
      return Err(TypeError("This strftime implementation does not handle %s"));
    }
    if year > 1900 {
      return Ok(render(year, fmt));
    }
    var delta := 2000 - year;
    var off := 6 * (delta / 100 + delta / 400);
    var y := year + off;
    y := y + ((2000 - y) / 28) * 28;
    assert y == CycleYear(year);
    var s1 := render(y, fmt);
    var sites1 := FindAll(s1, NatToStr(y));
    var s2 := render(y + 28, fmt);
    var sites2 := FindAll(s2, NatToStr(y + 28));
    var sites := KeepCommon(sites1, sites2);
    var s := SpliceAll(s1, sites, Pad4(year));
    return Ok(s);
  }

  /** The first loop of `strftime_before1900`: the sites of `sites1` also in `sites2`. */
  method KeepCommon(sites1: seq<nat>, sites2: seq<nat>) returns (sites: seq<nat>)
    ensures sites == CommonSites(sites1, sites2)
  {
    sites := [];
    for i := 0 to |sites1|
      invariant sites + CommonSites(sites1[i..], sites2) == CommonSites(sites1, sites2)
    {
      assert sites1[i..][0] == sites1[i] && sites1[i..][1..] == sites1[i + 1..];
      if sites1[i] in sites2 {
        assert sites + CommonSites(sites1[i..], sites2) == (sites + [sites1[i]]) + CommonSites(sites1[i + 1..], sites2);
        sites := sites + [sites1[i]];
      }
    }
    assert sites1[|sites1|..] == [] && sites + [] == sites;
  }

  /** The second loop of `strftime_before1900`: `rep` spliced at each site in turn. */
  method SpliceAll(s1: Str, sites: seq<nat>, rep: Str) returns (s: Str)
    ensures s == ReplaceSites(s1, sites, rep)
  {
    s := s1;
    for i := 0 to |sites|
      invariant ReplaceSites(s, sites[i..], rep) == ReplaceSites(s1, sites, rep)
    {
      assert sites[i..][0] == sites[i] && sites[i..][1..] == sites[i + 1..];
      s := Splice(s, sites[i], rep);
    }
    assert sites[|sites|..] == [];
  }

  // ---------------------------------------------------------------------
  // DateTimeConverter._from_python and FieldStorageUploadConverter._to_python

  /** A value handed to `_from_python`: a datetime of the given year, or anything else. */
  datatype FromValue = DateTimeValue(year: int) | Plain(v: Value)

  /** `DateTimeConverter._from_python`, `format` being the converter's format after a callable one is called. */
  function DateTimeFromPython(value: FromValue, format: Option<Str>, render: Renderer): (r: Result<Value>)
    requires value.DateTimeValue? ==> value.year >= 1
    ensures value.Plain? && !Truthy(value.v) ==> r == Ok(VNone)
    ensures value.Plain? && Truthy(value.v) ==> r == Ok(value.v)
    ensures value.DateTimeValue? && value.year > 1900 ==>
              r == Ok(VStr(render(value.year, if format.Some? then format.value else "%Y-%m-%d")))
    ensures value.DateTimeValue? && value.year <= 1900 ==>
              var f := if format.Some? then format.value else "%Y-%m-%d";
              (r.Err? <==> HasIllegalS(f)) && (r.Ok? ==> r == Ok(VStr(Before1900(value.year, f, render))))
  {
    match value
    case Plain(v) => if !Truthy(v) then Ok(VNone) else Ok(v)
    case DateTimeValue(year) =>
      var f := if format.Some? then format.value else "%Y-%m-%d";
      if year <= 1900 then
        (match Strftime1900(year, f, render)
         case Ok(s) => Ok(VStr(s))
         case Err(e) => Err(e))
      else Ok(VStr(render(year, f)))
  }

  /** With the default format a year up to 1900 always renders: it holds no %s. */
  lemma DefaultFormatRendersEarlyYears(year: int, render: Renderer)
    requires 1 <= year <= 1900
    ensures DateTimeFromPython(DateTimeValue(year), None, render) == Ok(VStr(Before1900(year, "%Y-%m-%d", render)))
  {
    PercentSExamples();
  }

  /**
   * `FieldStorageUploadConverter._to_python`: `filename` is the value's
   * `filename` attribute, None when it has none.
   */
  function UploadToPython(value: Value, filename: Option<Value>, notEmpty: bool): (r: Result<Value>)
    ensures r.Err? <==> notEmpty && (filename.None? || !Truthy(filename.value))
    ensures r.Err? ==> r.exc.Invalid?
    ensures r.Ok? ==> r.value == value
  {
    var name := if filename.Some? then filename.value else VNone;
    if !Truthy(name) && notEmpty then Err(Invalid("Filename must not be empty")) else Ok(value)
  }

  /** Without `not_empty` an upload with no file name passes through as it is. */
  lemma OptionalUploadPasses(value: Value, filename: Option<Value>)
    ensures UploadToPython(value, filename, false) == Ok(value)
  {
  }

  /**
   * `Schema.from_python`: the schema converts nothing itself, its fields'
   * validators having done so, and hands the dictionary back as it is.
   */
  function SchemaFromPython(value: Value): (r: Value)
    ensures r == value
  {
    value
  }
}
