/*
 * The message translation of gearshift/i18n/tg_gettext.py: the per-domain,
 * per-locale catalog cache, `tg_gettext` and `tg_ngettext` with their
 * fallbacks, lazy strings, and `gettext`, which is eager inside a request
 * and lazy outside one. Reading `.mo` files is the parameter `load`.
 */
module TgGettext {
  import opened Common

  /**
   * A loaded catalog (a `GNUTranslations` object): singular translations,
   * plural translations keyed by message and plural index, and the
   * catalog's plural rule. The entry for "" is the catalog's header.
   */
  datatype Catalog = Catalog(messages: map<Str, Str>, plurals: map<(Str, nat), Str>, plural: int -> nat)

  /** `ugettext`: the translation of `key`, or `key` itself when the catalog has none. */
  function CatalogGettext(c: Catalog, key: Str): (r: Str)
    ensures key in c.messages ==> r == c.messages[key]
    ensures key !in c.messages ==> r == key
  {
    if key in c.messages then c.messages[key] else key
  }

  /**
   * `ngettext` of a catalog: the form its plural rule picks for `num`;
   * without a translation, `key1` for one and `key2` for any other number.
   */
  function CatalogNgettext(c: Catalog, key1: Str, key2: Str, num: int): (r: Str)
    ensures (key1, c.plural(num)) in c.plurals ==> r == c.plurals[(key1, c.plural(num))]
    ensures (key1, c.plural(num)) !in c.plurals ==> r == (if num == 1 then key1 else key2)
  {
    if (key1, c.plural(num)) in c.plurals then c.plurals[(key1, c.plural(num))]
    else if num == 1 then key1 else key2
  }

  /** The domain used when neither the caller nor `i18n.domain` names one. */
  const DefaultDomain: Str := "messages"

  /** The domain a lookup uses: the given one unless it is missing or empty, then `i18n.domain`. */
  function ResolveDomain(domain: Option<Str>, configured: Option<Str>): (r: Str)
    ensures domain.Some? && domain.value != [] ==> r == domain.value
    ensures domain.None? || domain.value == [] ==> r == (if configured.Some? then configured.value else DefaultDomain)
  {
    if domain.Some? && domain.value != [] then domain.value
    else if configured.Some? then configured.value
    else DefaultDomain
  }

  /**
   * What translation reads from the running application: the locale
   * `get_locale` gives now, `i18n.domain`, whether a locale has a catalog
   * file for that domain, the catalog loader (None where `translation`
   * raises IOError), and the `i18n.gettext`/`i18n.ngettext` overrides.
   */
  datatype Env = Env(
    currentLocale: Str,
    configuredDomain: Option<Str>,
    supported: Str -> bool,
    load: (Str, Str) -> Option<Catalog>,
    gettextOverride: Option<(Str, Option<Str>, Option<Str>) -> Str>,
    ngettextOverride: Option<(Str, Str, int, Option<Str>, Option<Str>) -> Str>)

  /** The locale asked for: the given one, or the current one when none is given. */
  function RequestedLocale(locale: Option<Str>, env: Env): (r: Str)
    ensures locale.Some? ==> r == locale.value
    ensures locale.None? ==> r == env.currentLocale
  {
    if locale.Some? then locale.value else env.currentLocale
  }

  /**
   * The locale a lookup uses: the requested one when it has a catalog
   * file, otherwise its first two characters (its language).
   */
  function EffectiveLocale(locale: Option<Str>, env: Env): (r: Str)
    ensures r <= RequestedLocale(locale, env)
    ensures env.supported(RequestedLocale(locale, env)) ==> r == RequestedLocale(locale, env)
    ensures !env.supported(RequestedLocale(locale, env)) ==>
              |r| <= 2 && (|RequestedLocale(locale, env)| >= 2 ==> |r| == 2)
  {
    var l := RequestedLocale(locale, env);
    if env.supported(l) then l
    else if |l| < 2 then l
    else l[..2]
  }

  /** An unsupported "pt_BR" falls back to the "pt" catalog. */
  lemma UnsupportedLocaleFallsBack(env: Env)
    requires !env.supported("pt_BR")
    ensures EffectiveLocale(Some("pt_BR"), env) == "pt"
  {
    var r := EffectiveLocale(Some("pt_BR"), env);
    assert |r| == 2 && r <= "pt_BR";
    assert r[0] == 'p' && r[1] == 't';
  }

  /** `tg_gettext`, given what loading its catalog gave (None for IOError). */
  function GettextWith(key: Str, loaded: Option<Catalog>): (r: Str)
  {
    if key == "" then ""
    else if loaded.None? then key
    else CatalogGettext(loaded.value, key)
  }

  /** `tg_gettext(key, locale, domain)`. */
  function Translation(env: Env, key: Str, locale: Option<Str>, domain: Option<Str>): (r: Str)
    ensures key == "" ==> r == ""
    ensures key != "" && env.load(ResolveDomain(domain, env.configuredDomain), EffectiveLocale(locale, env)).None? ==> r == key
    ensures key != "" && env.load(ResolveDomain(domain, env.configuredDomain), EffectiveLocale(locale, env)).Some? ==>
              r == CatalogGettext(env.load(ResolveDomain(domain, env.configuredDomain), EffectiveLocale(locale, env)).value, key)
  {
    GettextWith(key, env.load(ResolveDomain(domain, env.configuredDomain), EffectiveLocale(locale, env)))
  }

  /**
   * The empty key is never looked up, so it does not come back as the
   * catalog header; a key without translation or without a catalog comes
   * back unchanged.
   */
  lemma TranslationFallbacks(env: Env, key: Str, locale: Option<Str>, domain: Option<Str>)
    ensures Translation(env, "", locale, domain) == ""
    ensures (forall c :: env.load(ResolveDomain(domain, env.configuredDomain), EffectiveLocale(locale, env)) == Some(c) ==>
               key !in c.messages) ==>
            Translation(env, key, locale, domain) == key
  {
  }

  /**
   * `tg_ngettext` as written: when the catalog cannot be loaded it answers
   * `key1` whatever `num` is.
   */
  function PluralTranslationAsWritten(env: Env, key1: Str, key2: Str, num: int, locale: Option<Str>, domain: Option<Str>): (r: Str)
    ensures env.load(ResolveDomain(domain, env.configuredDomain), EffectiveLocale(locale, env)).None? ==> r == key1
  {
    var loaded := env.load(ResolveDomain(domain, env.configuredDomain), EffectiveLocale(locale, env));
    if loaded.None? then key1 else CatalogNgettext(loaded.value, key1, key2, num)
  }

  /** Without a catalog, `ngettext("%d file", "%d files", 3)` comes back in the singular. */
  lemma NoCatalogPluralIsSingular(env: Env, locale: Option<Str>, domain: Option<Str>)
    requires env.load(ResolveDomain(domain, env.configuredDomain), EffectiveLocale(locale, env)).None?
    ensures PluralTranslationAsWritten(env, "%d file", "%d files", 3, locale, domain) != "%d files"
  {
    assert PluralTranslationAsWritten(env, "%d file", "%d files", 3, locale, domain) == "%d file";
    assert |"%d file"| != |"%d files"|;
  }

  /**
   * `tg_ngettext` as its documentation describes it: without a catalog it
   * picks `key1` for one and `key2` otherwise, as a catalog without the
   * message does.
   */
  function PluralTranslation(env: Env, key1: Str, key2: Str, num: int, locale: Option<Str>, domain: Option<Str>): (r: Str)
    ensures env.load(ResolveDomain(domain, env.configuredDomain), EffectiveLocale(locale, env)).None? ==>
              r == (if num == 1 then key1 else key2)
    ensures env.load(ResolveDomain(domain, env.configuredDomain), EffectiveLocale(locale, env)).Some? ==>
              r == PluralTranslationAsWritten(env, key1, key2, num, locale, domain)
  {
    var loaded := env.load(ResolveDomain(domain, env.configuredDomain), EffectiveLocale(locale, env));
    if loaded.None? then (if num == 1 then key1 else key2)
    else CatalogNgettext(loaded.value, key1, key2, num)
  }

  /**
   * With the fallback corrected, an untranslated message reads the same
   * whether the catalog is missing or only lacks the message, and one
   * is always `key1`.
   */
  lemma PluralFallbackAgrees(env: Env, key1: Str, key2: Str, num: int, locale: Option<Str>, domain: Option<Str>)
    requires forall c :: env.load(ResolveDomain(domain, env.configuredDomain), EffectiveLocale(locale, env)) == Some(c) ==>
               (key1, c.plural(num)) !in c.plurals
    ensures PluralTranslation(env, key1, key2, num, locale, domain) == (if num == 1 then key1 else key2)
  {
  }

  /** `plain_gettext`: the `i18n.gettext` override when configured, `tg_gettext` otherwise. */
  function PlainGettext(env: Env, key: Str, locale: Option<Str>, domain: Option<Str>): (r: Str)
    ensures env.gettextOverride.None? ==> r == Translation(env, key, locale, domain)
    ensures env.gettextOverride.Some? ==> r == env.gettextOverride.value(key, locale, domain)
  {
    match env.gettextOverride
    case None => Translation(env, key, locale, domain)
    case Some(f) => f(key, locale, domain)
  }

  /** `plain_ngettext`: the `i18n.ngettext` override when configured, `tg_ngettext` otherwise. */
  function PlainNgettext(env: Env, key1: Str, key2: Str, num: int, locale: Option<Str>, domain: Option<Str>): (r: Str)
    ensures env.ngettextOverride.None? ==> r == PluralTranslationAsWritten(env, key1, key2, num, locale, domain)
    ensures env.ngettextOverride.Some? ==> r == env.ngettextOverride.value(key1, key2, num, locale, domain)
  {
    match env.ngettextOverride
    case None => PluralTranslationAsWritten(env, key1, key2, num, locale, domain)
    case Some(f) => f(key1, key2, num, locale, domain)
  }

  /**
   * `lazystring`: a function and the arguments to call it with. Every use
   * calls the function again, in the environment of that use.
   */
  datatype LazyString<!A> = LazyString(func: (Env, A) -> Str, args: A)

  /** `eval`, which `unicode`, `str` and `%` of a lazy string all go through. */
  function LazyEval<A>(s: LazyString<A>, env: Env): (r: Str)
  {
    s.func(env, s.args)
  }

  /** `==` on a lazy string compares the value it evaluates to now. */
  predicate LazyEquals<A>(s: LazyString<A>, env: Env, other: Str)
  {
    LazyEval(s, env) == other
  }

  /** `cmp(lazy, other)`: Python 2 `cmp` of the evaluated value. */
  function LazyCmp<A>(s: LazyString<A>, env: Env, other: Str): (r: int)
    ensures r == 0 <==> LazyEquals(s, env, other)
    ensures r == -1 <==> LexLess(LazyEval(s, env), other)
    ensures r == 1 <==> LazyEval(s, env) != other && !LexLess(LazyEval(s, env), other)
  {
    var v := LazyEval(s, env);
    LexLessIrreflexive(v);
    if v == other then 0 else if LexLess(v, other) then -1 else 1
  }

  lemma {:induction false} LexLessIrreflexive(a: Str)
    ensures !LexLess(a, a)
    decreases |a|
  {
    if a != [] {
      LexLessIrreflexive(a[1..]);
    }
  }

  /** The arguments `lazy_gettext` keeps. */
  datatype GettextArgs = GettextArgs(key: Str, locale: Option<Str>, domain: Option<Str>)

  /** The arguments `lazy_ngettext` keeps. */
  datatype NgettextArgs = NgettextArgs(key1: Str, key2: Str, num: int, locale: Option<Str>, domain: Option<Str>)

  /** `lazy_gettext = lazify(plain_gettext)`. */
  function LazyGettext(key: Str, locale: Option<Str>, domain: Option<Str>): (r: LazyString<GettextArgs>)
    ensures forall env :: LazyEval(r, env) == PlainGettext(env, key, locale, domain)
  {
    LazyString((env: Env, a: GettextArgs) => PlainGettext(env, a.key, a.locale, a.domain), GettextArgs(key, locale, domain))
  }

  /** `lazy_ngettext = lazify(plain_ngettext)`. */
  function LazyNgettext(key1: Str, key2: Str, num: int, locale: Option<Str>, domain: Option<Str>): (r: LazyString<NgettextArgs>)
    ensures forall env :: LazyEval(r, env) == PlainNgettext(env, key1, key2, num, locale, domain)
  {
    LazyString((env: Env, a: NgettextArgs) => PlainNgettext(env, a.key1, a.key2, a.num, a.locale, a.domain),
               NgettextArgs(key1, key2, num, locale, domain))
  }

  /** What `gettext` and `ngettext` hand back: a string now, or a lazy string. */
  datatype Translated<!A> = Eager(text: Str) | Lazy(lazy: LazyString<A>)

  /** `gettext`: translated at once inside a request, lazily outside one. */
  function Gettext(requestAvailable: bool, env: Env, key: Str, locale: Option<Str>, domain: Option<Str>): (r: Translated<GettextArgs>)
    ensures r.Eager? <==> requestAvailable
    ensures r.Eager? ==> r.text == PlainGettext(env, key, locale, domain)
    ensures r.Lazy? ==> forall later :: LazyEval(r.lazy, later) == PlainGettext(later, key, locale, domain)
  {
    if requestAvailable then Eager(PlainGettext(env, key, locale, domain))
    else Lazy(LazyGettext(key, locale, domain))
  }

  /** `ngettext`: as `gettext`, and it passes no domain. */
  function Ngettext(requestAvailable: bool, env: Env, key1: Str, key2: Str, num: int, locale: Option<Str>): (r: Translated<NgettextArgs>)
    ensures r.Eager? <==> requestAvailable
    ensures r.Eager? ==> r.text == PlainNgettext(env, key1, key2, num, locale, None)
    ensures r.Lazy? ==> forall later :: LazyEval(r.lazy, later) == PlainNgettext(later, key1, key2, num, locale, None)
  {
    if requestAvailable then Eager(PlainNgettext(env, key1, key2, num, locale, None))
    else Lazy(LazyNgettext(key1, key2, num, locale, None))
  }

  /**
   * A message marked at import time, outside any request, follows the
   * locale of each request that shows it: "Hello" reads "Hallo" for a
   * German request and stays "Hello" for a French one without a catalog.
   */
  lemma LazyFollowsLocale(env: Env)
    requires env.gettextOverride.None? && env.supported("de") && env.supported("fr")
    requires env.load(ResolveDomain(None, env.configuredDomain), "de") ==
             Some(Catalog(map["Hello" := "Hallo"], map[], n => 0))
    requires env.load(ResolveDomain(None, env.configuredDomain), "fr").None?
    ensures var marked := Gettext(false, env, "Hello", None, None);
            marked.Lazy? &&
            LazyEval(marked.lazy, env.(currentLocale := "de")) == "Hallo" &&
            LazyEval(marked.lazy, env.(currentLocale := "fr")) == "Hello"
  {
    var de := env.(currentLocale := "de");
    var fr := env.(currentLocale := "fr");
    assert EffectiveLocale(None, de) == "de";
    assert EffectiveLocale(None, fr) == "fr";
    assert Translation(de, "Hello", None, None) == "Hallo";
    assert Translation(fr, "Hello", None, None) == "Hello";
  }

  /** `dummy_gettext`: marks a message for extraction and returns it unchanged. */
  function DummyGettext(x: Str): (r: Str)
    ensures r == x
  {
    x
  }

  /**
   * The cache invariant over the loader, the cached catalogs and the calls
   * made so far: every cached catalog is what the loader gives; every pair
   * that loaded is cached; and a pair that loads was loaded only once.
   */
  ghost predicate Consistent(load: (Str, Str) -> Option<Catalog>, cats: map<Str, map<Str, Catalog>>, ls: seq<(Str, Str)>)
  {
    (forall d, l :: d in cats && l in cats[d] ==> load(d, l) == Some(cats[d][l])) &&
    (forall i :: 0 <= i < |ls| && load(ls[i].0, ls[i].1).Some? ==> ls[i].0 in cats && ls[i].1 in cats[ls[i].0]) &&
    (forall i, j :: 0 <= i < j < |ls| && ls[i] == ls[j] ==> load(ls[i].0, ls[i].1).None?)
  }

  /** Loading a pair that is not cached, and caching it when it loads, keeps the invariant. */
  lemma LoadPreserves(load: (Str, Str) -> Option<Catalog>, cats: map<Str, map<Str, Catalog>>, ls: seq<(Str, Str)>,
                      d: Str, l: Str)
    requires Consistent(load, cats, ls) && !(d in cats && l in cats[d])
    ensures var cache := if d in cats then cats[d] else map[];
            Consistent(load, cats[d := if load(d, l).Some? then cache[l := load(d, l).value] else cache], ls + [(d, l)])
  {
    var cache := if d in cats then cats[d] else map[];
    var cats' := cats[d := if load(d, l).Some? then cache[l := load(d, l).value] else cache];
    var ls' := ls + [(d, l)];
    forall i | 0 <= i < |ls'| && load(ls'[i].0, ls'[i].1).Some?
      ensures ls'[i].0 in cats' && ls'[i].1 in cats'[ls'[i].0]
    {
      if i < |ls| {
        assert ls'[i] == ls[i];
      }
    }
    forall i, j | 0 <= i < j < |ls'| && ls'[i] == ls'[j]
      ensures load(ls'[i].0, ls'[i].1).None?
    {
      if j == |ls| {
        assert ls'[i] == ls[i] && ls[i] == (d, l);
      } else {
        assert ls'[i] == ls[i] && ls'[j] == ls[j];
      }
    }
  }

  /**
   * The module-level catalog cache `_catalogs`: domain to locale to
   * catalog, filled by `get_catalog`.
   */
  class CatalogCache {
    var catalogs: map<Str, map<Str, Catalog>>
    /** `translation(domain, localedir, [locale])`; None where it raises IOError. */
    const load: (Str, Str) -> Option<Catalog>
    /** Every call to the loader so far, as (domain, locale). */
    ghost var loads: seq<(Str, Str)>

    predicate Cached(domain: Str, locale: Str)
      reads this
    {
      domain in catalogs && locale in catalogs[domain]
    }

    /**
     * Every cached catalog is what the loader gives; every pair that
     * loaded is cached; and a pair that loads was loaded only once.
     */
    ghost predicate Valid()
      reads this
    {
      Consistent(load, catalogs, loads)
    }

    constructor (loader: (Str, Str) -> Option<Catalog>)
      ensures Valid() && load == loader && catalogs == map[] && loads == []
    {
      load := loader;
      catalogs := map[];
      loads := [];
    }

    /** The cache for `domain`, or an empty one. */
    function DomainCache(domain: Str): (r: map<Str, Catalog>)
      reads this
      ensures domain in catalogs ==> r == catalogs[domain]
      ensures domain !in catalogs ==> r == map[]
    {
      if domain in catalogs then catalogs[domain] else map[]
    }

    /**
     * `get_catalog(locale, domain)`: the catalog the loader gives for the
     * pair, loaded on the first request and taken from the cache after;
     * IOError when it cannot be loaded.
     */
    method GetCatalog(locale: Str, domain: Option<Str>, configured: Option<Str>) returns (r: Result<Catalog>)
      requires Valid()
      modifies this
      ensures Valid()
      ensures var d := ResolveDomain(domain, configured);
              r == (if load(d, locale).Some? then Ok(load(d, locale).value) else Err(IOError))
      ensures var d := ResolveDomain(domain, configured);
              old(Cached(d, locale)) ==> catalogs == old(catalogs) && loads == old(loads)
      ensures var d := ResolveDomain(domain, configured);
              !old(Cached(d, locale)) ==>
                loads == old(loads) + [(d, locale)] &&
                catalogs == old(catalogs)[d := if load(d, locale).Some?
                                               then old(DomainCache(d))[locale := load(d, locale).value]
                                               else old(DomainCache(d))]
    {
      var d := ResolveDomain(domain, configured);
      if Cached(d, locale) {
        return Ok(catalogs[d][locale]);
      }
      var loaded := load(d, locale);
      LoadPreserves(load, catalogs, loads, d, locale);
      var cache := DomainCache(d);
      loads := loads + [(d, locale)];
      if loaded.None? {
        catalogs := catalogs[d := cache];
        return Err(IOError);
      }
      catalogs := catalogs[d := cache[locale := loaded.value]];
      r := Ok(loaded.value);
    }

    /**
     * `tg_gettext(key, locale, domain)`: looks the key up in the cached
     * catalog; the cache makes no difference to the answer. A non-empty key
     * makes `get_catalog` load and cache the pair on its first lookup.
     */
    method TgGettext(key: Str, locale: Option<Str>, domain: Option<Str>, env: Env) returns (r: Str)
      requires Valid() && env.load == load
      modifies this
      ensures Valid()
      ensures r == Translation(env, key, locale, domain)
      ensures key == "" ==> catalogs == old(catalogs) && loads == old(loads)
      ensures var d := ResolveDomain(domain, env.configuredDomain);
              var l := EffectiveLocale(locale, env);
              key != "" && old(Cached(d, l)) ==> catalogs == old(catalogs) && loads == old(loads)
      ensures var d := ResolveDomain(domain, env.configuredDomain);
              var l := EffectiveLocale(locale, env);
              key != "" && !old(Cached(d, l)) ==>
                loads == old(loads) + [(d, l)] &&
                catalogs == old(catalogs)[d := if load(d, l).Some?
                                               then old(DomainCache(d))[l := load(d, l).value]
                                               else old(DomainCache(d))]
    {
      var l := EffectiveLocale(locale, env);
      if key == "" {
        return "";
      }
      var c := GetCatalog(l, domain, env.configuredDomain);
      match c
      case Err(_) => r := key;
      case Ok(catalog) => r := CatalogGettext(catalog, key);
    }

    /**
     * `tg_ngettext(key1, key2, num, locale, domain)`, as written: `key1`
     * whenever the catalog cannot be loaded; the pair is loaded and cached
     * on its first lookup.
     */
    method TgNgettext(key1: Str, key2: Str, num: int, locale: Option<Str>, domain: Option<Str>, env: Env) returns (r: Str)
      requires Valid() && env.load == load
      modifies this
      ensures Valid()
      ensures r == PluralTranslationAsWritten(env, key1, key2, num, locale, domain)
      ensures var d := ResolveDomain(domain, env.configuredDomain);
              var l := EffectiveLocale(locale, env);
              old(Cached(d, l)) ==> catalogs == old(catalogs) && loads == old(loads)
      ensures var d := ResolveDomain(domain, env.configuredDomain);
              var l := EffectiveLocale(locale, env);
              !old(Cached(d, l)) ==>
                loads == old(loads) + [(d, l)] &&
                catalogs == old(catalogs)[d := if load(d, l).Some?
                                               then old(DomainCache(d))[l := load(d, l).value]
                                               else old(DomainCache(d))]
    {
      var l := EffectiveLocale(locale, env);
      var c := GetCatalog(l, domain, env.configuredDomain);
      match c
      case Err(_) => r := key1;
      case Ok(catalog) => r := CatalogNgettext(catalog, key1, key2, num);
    }
  }
}
