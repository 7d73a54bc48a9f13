/*
 * Locale helpers of gearshift/i18n/utils.py: converting language tags to
 * gettext form, the languages of an Accept-Language header (section 14.4
 * of RFC 2616), choosing the user's locale, and decoding HTML entities.
 *
 * Parsing the header (`parse_http_accept_header`, in gearshift/util.py) is
 * a parameter, as is `htmlentitydefs.name2codepoint`. The Google Translate
 * client is not part of this model.
 */
module I18nUtils {
  import opened Common

  // ---------------------------------------------------------------------
  // Language tags

  /** `lang_in_gettext_format(lang)`: 'en-gb' becomes 'en_GB'; a tag of two characters or fewer is kept. */
  function LangInGettextFormat(lang: Str): (r: Str)
    ensures |lang| <= 2 ==> r == lang
    ensures |lang| > 2 ==> |r| == |lang| && r[..2] == lang[..2] && r[2] == '_' && r[3..] == Upper(lang[3..])
  {
    if |lang| > 2 then
      var country := Upper(lang[3..]);
      lang[..2] + "_" + country
    else lang
  }

  /** Converting a converted tag changes nothing. */
  lemma LangInGettextFormatIdempotent(lang: Str)
    ensures LangInGettextFormat(LangInGettextFormat(lang)) == LangInGettextFormat(lang)
  {
    var r := LangInGettextFormat(lang);
    if |lang| > 2 {
      assert r[3..] == Upper(lang[3..]);
      assert Upper(r[3..]) == r[3..];
      assert r == r[..2] + "_" + r[3..];
    }
  }

  lemma LangInGettextFormatExamples()
    ensures LangInGettextFormat("en-gb") == "en_GB"
    ensures LangInGettextFormat("da") == "da"
  {
    assert Upper("gb") == "GB";
  }

  /** The converted languages of a parsed header, in the header's order of preference. */
  function AcceptLanguages(parsed: seq<Str>): (r: seq<Str>)
  {
    seq(|parsed|, i requires 0 <= i < |parsed| => LangInGettextFormat(parsed[i]))
  }

  /** `get_accept_languages(accept)`, `parsed` being `parse_http_accept_header(accept)`. */
  method GetAcceptLanguages(parsed: seq<Str>) returns (langs: seq<Str>)
    ensures |langs| == |parsed|
    ensures forall i :: 0 <= i < |langs| ==> langs[i] == LangInGettextFormat(parsed[i])
    ensures langs == AcceptLanguages(parsed)
  {
    langs := parsed;
    for index := 0 to |langs|
      invariant |langs| == |parsed|
      invariant forall i :: 0 <= i < index ==> langs[i] == LangInGettextFormat(parsed[i])
      invariant forall i :: index <= i < |langs| ==> langs[i] == parsed[i]
    {
      langs := langs[index := LangInGettextFormat(langs[index])];
    }
  }

  // ---------------------------------------------------------------------
  // Choosing the locale

  /** A CherryPy session: its items, and attributes set on the session object. */
  datatype Session = Session(items: map<Str, Str>, attrs: map<Str, Str>)

  /** The configuration and request state the locale is chosen from. */
  datatype LocaleSources = LocaleSources(
    requestAvailable: bool,
    sessionsOn: bool,
    sessionKey: Option<Str>,
    session: Session,
    acceptLanguage: Option<Str>,
    parseAccept: Str -> seq<Str>,
    defaultLocale: Option<Str>)

  /** `i18n.default_locale`, 'en' when not configured. */
  function DefaultLocale(src: LocaleSources): Str
  {
    if src.defaultLocale.Some? then src.defaultLocale.value else "en"
  }

  /** `i18n.session_key`, 'locale' when not configured. */
  function SessionKey(src: LocaleSources): Str
  {
    if src.sessionKey.Some? then src.sessionKey.value else "locale"
  }

  /** `cherrypy.session.get(locale_key)`, '' standing for None. */
  function SessionLocale(src: LocaleSources): Str
  {
    var key := SessionKey(src);
    if key in src.session.items then src.session.items[key] else ""
  }

  /** `_get_locale_from_accept_header()`: the first language of a non-empty header. */
  function LocaleFromAcceptHeader(src: LocaleSources): (r: Option<Str>)
    ensures r.Some? <==> src.acceptLanguage.Some? && src.acceptLanguage.value != [] &&
                         src.parseAccept(src.acceptLanguage.value) != []
    ensures r.Some? ==> r.value == LangInGettextFormat(src.parseAccept(src.acceptLanguage.value)[0])
  {
    match src.acceptLanguage
    case None => None
    case Some(header) =>
      if header == [] then None
      else
        var langs := AcceptLanguages(src.parseAccept(header));
        if langs == [] then None else Some(langs[0])
  }

  /**
   * `_get_locale()`: the default outside a request; otherwise the session's
   * locale when sessions are on and it has one, then the browser's first
   * language, then the default.
   */
  function DefaultGetLocale(src: LocaleSources): (r: Str)
    ensures !src.requestAvailable ==> r == DefaultLocale(src)
    ensures src.requestAvailable && src.sessionsOn && SessionLocale(src) != [] ==> r == SessionLocale(src)
    ensures src.requestAvailable && !(src.sessionsOn && SessionLocale(src) != []) ==>
              var browser := LocaleFromAcceptHeader(src);
              r == if browser.Some? && browser.value != [] then browser.value else DefaultLocale(src)
  {
    if !src.requestAvailable then DefaultLocale(src)
    else if src.sessionsOn && SessionLocale(src) != [] then SessionLocale(src)
    else
      var browser := LocaleFromAcceptHeader(src);
      if browser.Some? && browser.value != [] then browser.value else DefaultLocale(src)
  }

  /** `get_locale(locale)`: a given locale is kept; otherwise `i18n.get_locale` or `_get_locale` decides. */
  function GetLocale(locale: Str, lookup: Option<() -> Str>, src: LocaleSources): (r: Str)
    ensures locale != [] ==> r == locale
    ensures locale == [] && lookup.Some? ==> r == lookup.value()
    ensures locale == [] && lookup.None? ==> r == DefaultGetLocale(src)
  {
    if locale != [] then locale
    else if lookup.Some? then lookup.value()
    else DefaultGetLocale(src)
  }

  /** With sessions off, a browser asking for 'en-gb' first gets 'en_GB' whatever the default. */
  lemma BrowserBeatsDefault(src: LocaleSources)
    requires src.requestAvailable && !src.sessionsOn
    requires src.acceptLanguage == Some("en-gb;q=0.8") && src.parseAccept("en-gb;q=0.8") == ["en-gb"]
    ensures GetLocale("", None, src) == "en_GB"
  {
    LangInGettextFormatExamples();
  }

  /** `set_session_locale(locale)` as written: the locale becomes the session's `sess_key` attribute. */
  function SetSessionLocaleAsWritten(src: LocaleSources, locale: Str): (r: LocaleSources)
    ensures r.session.items == src.session.items && r.session.attrs == src.session.attrs["sess_key" := locale]
  {
    src.(session := src.session.(attrs := src.session.attrs["sess_key" := locale]))
  }

  /**
   * As written, setting the session locale changes nothing `_get_locale`
   * decides: with sessions on, no browser header and 'de' set, the user
   * still gets the default 'en'.
   */
  lemma SessionLocaleIgnored(src: LocaleSources, locale: Str)
    ensures DefaultGetLocale(SetSessionLocaleAsWritten(src, locale)) == DefaultGetLocale(src)
    ensures src.requestAvailable && src.sessionsOn && src.session.items == map[] && src.acceptLanguage.None? &&
            src.defaultLocale == Some("en") ==>
              DefaultGetLocale(SetSessionLocaleAsWritten(src, "de")) == "en"
  {
    var w := SetSessionLocaleAsWritten(src, locale);
    assert SessionLocale(w) == SessionLocale(src) && LocaleFromAcceptHeader(w) == LocaleFromAcceptHeader(src);
  }

  /** `set_session_locale(locale)`: the locale stored in the session under `i18n.session_key`. */
  function SetSessionLocale(src: LocaleSources, locale: Str): (r: LocaleSources)
    ensures r.session.items == src.session.items[SessionKey(src) := locale]
    ensures r.session.attrs == src.session.attrs
  {
    src.(session := src.session.(items := src.session.items[SessionKey(src) := locale]))
  }

  /** A locale set for the session wins over the browser and the default while sessions are on. */
  lemma SessionLocaleWins(src: LocaleSources, locale: Str)
    requires src.requestAvailable && src.sessionsOn && locale != []
    ensures DefaultGetLocale(SetSessionLocale(src, locale)) == locale
  {
    assert SessionKey(SetSessionLocale(src, locale)) == SessionKey(src);
  }

  // ---------------------------------------------------------------------
  // decode_html_entities

  /** `unichr(n)`: ValueError outside the Unicode range (and, here, for surrogates). */
  function CodePoint(n: int): (r: Result<char>)
    ensures r.Ok? ==> r.value as int == n
    ensures r.Ok? <==> (0 <= n < 0xD800 || 0xE000 <= n < 0x11_0000)
  {
    if 0 <= n < 0xD800 || 0xE000 <= n < 0x11_0000 then Ok(n as char) else Err(ValueError("unichr() arg not in range"))
  }

  /** A numeric reference's body: '#' and at least one digit. */
  predicate IsNumeric(body: Str)
  {
    |body| >= 2 && body[0] == '#' && AllDigits(body[1..])
  }

  /** The character an entity body stands for; KeyError for a name `names` lacks. */
  function EntityChar(body: Str, names: map<Str, int>): (r: Result<char>)
    ensures IsNumeric(body) ==> r == CodePoint(DigitsValue(body[1..]))
    ensures !IsNumeric(body) && body in names ==> r == CodePoint(names[body])
    ensures !IsNumeric(body) && body !in names ==> r == Err(KeyError(body))
  {
    if IsNumeric(body) then CodePoint(DigitsValue(body[1..]))
    else if body in names then CodePoint(names[body])
    else Err(KeyError(body))
  }

  /**
   * The body of the reference `&(?:(#)(\d+)|([^;]+));` matches at the start
   * of `s`: everything up to the first ';', which must not be empty.
   */
  function EntityAt(s: Str): (r: Option<Str>)
    requires s != [] && s[0] == '&'
    ensures r.Some? ==> r.value != [] && |r.value| + 2 <= |s| && s[1..|r.value| + 1] == r.value &&
                        s[|r.value| + 1] == ';' && ';' !in r.value
    ensures r.None? ==> ';' !in s[1..] || s[1] == ';'
  {
    var j := FindChar(s[1..], ';');
    if j <= 0 then None else Some(s[1..j + 1])
  }

  function Prepend(c: char, r: Result<Str>): Result<Str>
  {
    if r.Ok? then Ok([c] + r.value) else r
  }

  /** One `_entity_re.sub(_repl_func, s)`: each reference replaced, scanning left to right. */
  function EntitySub(s: Str, names: map<Str, int>): (r: Result<Str>)
    ensures '&' !in s ==> r == Ok(s)
    decreases |s|
  {
    if s == [] then Ok([])
    else if s[0] != '&' then
      assert s == [s[0]] + s[1..];
      Prepend(s[0], EntitySub(s[1..], names))
    else
      match EntityAt(s)
      case None => Prepend('&', EntitySub(s[1..], names))
      case Some(body) =>
        match EntityChar(body, names)
        case Err(e) => Err(e)
        case Ok(c) => Prepend(c, EntitySub(s[|body| + 2..], names))
  }

  /** The substitution applied `n` times, each on the previous output. */
  function DecodeTimes(s: Str, n: nat, names: map<Str, int>): (r: Result<Str>)
    decreases n
  {
    if n == 0 then Ok(s)
    else
      match EntitySub(s, names)
      case Err(e) => Err(e)
      case Ok(t) => DecodeTimes(t, n - 1, names)
  }

  /** `decode_html_entities(s, repetitions)` */
  method DecodeHtmlEntities(s: Str, repetitions: int, names: map<Str, int>) returns (r: Result<Str>)
    ensures r == DecodeTimes(s, if repetitions < 0 then 0 else repetitions, names)
  {
    var n: nat := if repetitions < 0 then 0 else repetitions;
    var result := s;
    for i := 0 to n
      invariant DecodeTimes(result, n - i, names) == DecodeTimes(s, n, names)
    {
      var next := EntitySub(result, names);
      if next.Err? {
        return next;
      }
      result := next.value;
    }
    return Ok(result);
  }

  /** Every '&' written as "&amp;". */
  function EscapeAmp(s: Str): (r: Str)
    ensures '&' !in s ==> r == s
    decreases |s|
  {
    if s == [] then []
    else if s[0] == '&' then "&amp;" + EscapeAmp(s[1..])
    else
      assert s == [s[0]] + s[1..];
      [s[0]] + EscapeAmp(s[1..])
  }

  /** "&amp;" at the front decodes to '&', and the substitution goes on after it. */
  lemma AmpFirst(rest: Str, names: map<Str, int>)
    requires "amp" in names && names["amp"] == 38
    ensures EntitySub("&amp;" + rest, names) == Prepend('&', EntitySub(rest, names))
  {
    var e := "&amp;" + rest;
    assert e[1..] == "amp" + [';'] + rest;
    FindCharAfter("amp", ';', rest);
    assert e[1..4] == "amp";
    assert EntityAt(e) == Some("amp");
    assert EntityChar("amp", names) == Ok('&') by {
      assert !IsNumeric("amp");
    }
    assert e[5..] == rest;
  }

  /** A character other than '&' is copied, and the substitution goes on after it. */
  lemma PlainFirst(c: char, rest: Str, names: map<Str, int>)
    requires c != '&'
    ensures EntitySub([c] + rest, names) == Prepend(c, EntitySub(rest, names))
  {
    assert ([c] + rest)[1..] == rest;
  }

  /** One substitution undoes escaping the ampersands. */
  lemma {:induction false} DecodeEscapeAmp(s: Str, names: map<Str, int>)
    requires "amp" in names && names["amp"] == 38
    ensures EntitySub(EscapeAmp(s), names) == Ok(s)
    decreases |s|
  {
    if s != [] {
      DecodeEscapeAmp(s[1..], names);
      if s[0] == '&' {
        AmpFirst(EscapeAmp(s[1..]), names);
      } else {
        PlainFirst(s[0], EscapeAmp(s[1..]), names);
      }
      assert s == [s[0]] + s[1..];
    }
  }

  /** Text whose ampersands were escaped twice comes back after two repetitions: '&amp;amp;lt;' becomes '&lt;' again. */
  lemma DecodeTwiceEscapedTwice(s: Str, names: map<Str, int>)
    requires "amp" in names && names["amp"] == 38
    ensures DecodeTimes(EscapeAmp(EscapeAmp(s)), 2, names) == Ok(s)
  {
    DecodeEscapeAmp(EscapeAmp(s), names);
    DecodeEscapeAmp(s, names);
    assert DecodeTimes(EscapeAmp(s), 1, names) == DecodeTimes(s, 0, names);
  }

  /** A numeric reference decodes to its character: "&#65;" is "A". */
  lemma NumericReference(names: map<Str, int>)
    ensures EntitySub("&#65;", names) == Ok("A")
  {
    var s := "&#65;";
    assert s[1..] == "#65" + [';'] + [];
    FindCharAfter("#65", ';', []);
    assert FindChar(s[1..], ';') == 3;
    assert s[1..4] == "#65";
    assert EntityAt(s) == Some("#65");
    assert IsNumeric("#65") && "#65"[1..] == "65";
    assert DigitsValue("65") == 65 by {
      assert "65"[..1] == "6";
      assert DigitsValue("6") == 6 by { assert "6"[..0] == ""; }
    }
    assert CodePoint(65) == Ok('A');
    assert EntityChar("#65", names) == Ok('A');
    assert s[5..] == [];
    assert EntitySub([], names) == Ok([]);
    assert s[0] == '&';
    assert EntitySub(s, names) == Prepend('A', EntitySub(s[5..], names));
    assert ['A'] + [] == "A";
  }

  /** A reference to a name the table lacks raises KeyError. */
  lemma UnknownNameRaises(names: map<Str, int>)
    requires "foo" !in names
    ensures EntitySub("&foo;", names) == Err(KeyError("foo"))
  {
    var s := "&foo;";
    assert s[1..] == "foo" + [';'] + [];
    FindCharAfter("foo", ';', []);
    assert FindChar(s[1..], ';') == 3;
    assert s[1..4] == "foo";
    assert EntityAt(s) == Some("foo");
    assert !IsNumeric("foo");
  }
}
