/*
 * The flash tool (gearshift/tools/flash.py): a one-shot message carried to
 * the next page in the `tg_flash` cookie. `flash(msg)` sets the cookie on
 * the response; the handler reads the message, preferring one set during
 * this request over the one the browser sent, and clears the browser's
 * cookie once it has been read.
 *
 * Cookie quoting (`quote_cookie` and `unquote_cookie` from gearshift.util)
 * is a parameter between cookie text and 8-bit strings; the message is
 * UTF-8 encoded before quoting (`to_utf8`) and decoded after unquoting.
 */
module Flash {
  import opened Common
  import opened Utf8

  const FlashKey: Str := "tg_flash"

  /** A response cookie as the tool sets it: value, `expires` and `path`. */
  datatype Morsel = Morsel(value: Str, expires: Option<int>, path: Option<Str>)

  /** The cookie that makes the browser drop its flash: empty, expired, for the whole site. */
  const Cleared: Morsel := Morsel("", Some(0), Some("/"))

  /**
   * The message read and the response cookies afterwards (`get_flash`
   * before unquoting): a message set on the response this request wins and
   * is taken off the response, and a message the browser sent is cleared.
   */
  function ReadFlash(requestJar: map<Str, Str>, responseJar: map<Str, Morsel>): (r: (Option<Str>, map<Str, Morsel>))
    ensures FlashKey in responseJar ==> r.0 == Some(responseJar[FlashKey].value)
    ensures FlashKey !in responseJar && FlashKey in requestJar ==> r.0 == Some(requestJar[FlashKey])
    ensures FlashKey !in responseJar && FlashKey !in requestJar ==> r.0.None?
    ensures FlashKey in requestJar ==> r.1 == responseJar[FlashKey := Cleared]
    ensures FlashKey !in requestJar ==> r.1 == responseJar - {FlashKey}
  {
    var message :=
      if FlashKey in responseJar then Some(responseJar[FlashKey].value)
      else if FlashKey in requestJar then Some(requestJar[FlashKey])
      else None;
    var jar := responseJar - {FlashKey};
    (message, if FlashKey in requestJar then jar[FlashKey := Cleared] else jar)
  }

  /**
   * A message is shown once: reading again in the same request finds no
   * message (an empty one at most), and leaves the cookies as they are.
   */
  lemma {:induction false} ReadFlashOnce(requestJar: map<Str, Str>, responseJar: map<Str, Morsel>)
    ensures var (_, jar) := ReadFlash(requestJar, responseJar);
            var (again, jar2) := ReadFlash(requestJar, jar);
            (again.None? || again.value == []) && jar2 == jar
  {
    var (_, jar) := ReadFlash(requestJar, responseJar);
    if FlashKey in requestJar {
      assert jar[FlashKey] == Cleared;
      assert jar[FlashKey := Cleared] == jar;
    } else {
      assert jar - {FlashKey} == jar;
    }
  }

  /** `response.cookie['tg_flash'] = value` with path '/': an existing morsel keeps its other attributes. */
  function SetFlashCookie(responseJar: map<Str, Morsel>, value: Str): (r: map<Str, Morsel>)
    ensures r.Keys == responseJar.Keys + {FlashKey}
    ensures r[FlashKey].value == value && r[FlashKey].path == Some("/")
    ensures FlashKey in responseJar ==> r[FlashKey].expires == responseJar[FlashKey].expires
    ensures forall k :: k in responseJar && k != FlashKey ==> r[k] == responseJar[k]
  {
    var m := if FlashKey in responseJar then responseJar[FlashKey].(value := value) else Morsel(value, None, None);
    responseJar[FlashKey := m.(path := Some("/"))]
  }

  /**
   * `if message: message = unicode(unquote_cookie(message), 'utf-8')`: an
   * empty or missing message is kept; otherwise the unquoted bytes are
   * decoded, and bytes that are not UTF-8 raise UnicodeDecodeError.
   */
  function Unquoted(raw: Option<Str>, unquote: Str -> seq<Byte>): (r: Result<Option<Str>>)
    ensures raw.None? || raw.value == [] ==> r == Ok(raw)
    ensures raw.Some? && raw.value != [] ==>
              (r.Ok? <==> Decode(unquote(raw.value)).Some?) &&
              (r.Ok? ==> r.value == Decode(unquote(raw.value))) &&
              (r.Err? ==> r.exc == UnicodeDecodeError)
  {
    if raw.None? || raw.value == [] then Ok(raw)
    else match Decode(unquote(raw.value))
      case Some(text) => Ok(Some(text))
      case None => Err(UnicodeDecodeError)
  }

  /**
   * With quoting that unquoting inverts, a non-empty message flashed on
   * the response comes back as the same text.
   */
  lemma FlashRoundTrip(message: Str, quote: seq<Byte> -> Str, unquote: Str -> seq<Byte>)
    requires message != []
    requires forall b :: unquote(quote(b)) == b
    requires quote(Encode(message)) != []
    ensures Unquoted(Some(quote(Encode(message))), unquote) == Ok(Some(message))
  {
    DecodeEncode(message);
  }

  /** The request's and the response's cookies. */
  class FlashCookies {
    const requestJar: map<Str, Str>
    var responseJar: map<Str, Morsel>

    constructor (requestJar: map<Str, Str>, responseJar: map<Str, Morsel>)
      ensures this.requestJar == requestJar && this.responseJar == responseJar
    {
      this.requestJar := requestJar;
      this.responseJar := responseJar;
    }

    /** `FlashTool.__call__`: the message, UTF-8 encoded and quoted, becomes the response's flash cookie. */
    method SetFlash(message: Str, quote: seq<Byte> -> Str)
      modifies this
      ensures responseJar == SetFlashCookie(old(responseJar), quote(Encode(message)))
    {
      responseJar := SetFlashCookie(responseJar, quote(Encode(message)));
    }

    /**
     * `get_flash`: the message, unquoted and decoded when it is not empty;
     * the cookies are cleared before the decoding, which may raise.
     */
    method GetFlash(unquote: Str -> seq<Byte>) returns (message: Result<Option<Str>>)
      modifies this
      ensures var (raw, jar) := ReadFlash(requestJar, old(responseJar));
              responseJar == jar && message == Unquoted(raw, unquote)
    {
      var raw: Option<Str> := None;
      if FlashKey in responseJar {
        raw := Some(responseJar[FlashKey].value);
        responseJar := responseJar - {FlashKey};
        if FlashKey in requestJar {
          responseJar := responseJar[FlashKey := Cleared];
        }
      } else if FlashKey in requestJar {
        raw := Some(requestJar[FlashKey]);
        if FlashKey !in responseJar {
          responseJar := responseJar[FlashKey := Cleared];
        }
      }
      message := Unquoted(raw, unquote);
    }

    /**
     * `FlashTool.handler`, given the controller's output: a dictionary gets
     * the message under `tg_flash`, or None there when there is none and
     * `tg.empty_flash` is on; anything else passes through untouched. A
     * message that is not UTF-8 raises, after the cookies are cleared.
     */
    method Handle(output: Value, emptyFlash: bool, unquote: Str -> seq<Byte>) returns (r: Result<Value>)
      modifies this
      ensures !output.VDict? ==> r == Ok(output) && responseJar == old(responseJar)
      ensures output.VDict? ==>
                var (raw, jar) := ReadFlash(requestJar, old(responseJar));
                var message := Unquoted(raw, unquote);
                var shown := message.Ok? && message.value.Some? && message.value.value != [];
                responseJar == jar &&
                (message.Err? ==> r == Err(message.exc)) &&
                (shown ==> r == Ok(VDict(output.entries[FlashKey := VStr(message.value.value)]))) &&
                (message.Ok? && !shown && emptyFlash ==> r == Ok(VDict(output.entries[FlashKey := VNone]))) &&
                (message.Ok? && !shown && !emptyFlash ==> r == Ok(output))
    {
      if !output.VDict? {
        return Ok(output);
      }
      var message := GetFlash(unquote);
      if message.Err? {
        return Err(message.exc);
      }
      if message.value.Some? && message.value.value != [] {
        r := Ok(VDict(output.entries[FlashKey := VStr(message.value.value)]));
      } else if emptyFlash {
        r := Ok(VDict(output.entries[FlashKey := VNone]));
      } else {
        r := Ok(output);
      }
    }
  }

  /**
   * A message flashed during a request is what that request's handler reads,
   * whatever the browser sent, and the browser's old flash is cleared.
   */
  lemma FlashedThisRequestWins(requestJar: map<Str, Str>, responseJar: map<Str, Morsel>, quoted: Str)
    ensures var (raw, jar) := ReadFlash(requestJar, SetFlashCookie(responseJar, quoted));
            raw == Some(quoted) && (FlashKey in jar <==> FlashKey in requestJar) &&
            (FlashKey in jar ==> jar[FlashKey] == Cleared)
  {
  }
}
