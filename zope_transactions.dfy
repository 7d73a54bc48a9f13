/*
 * The commit veto of the transaction tool
 * (gearshift/database/so/zope_transactions.py): the transaction manager asks
 * `commit_veto` after each request whether to roll back instead of
 * committing. The transaction tool itself, which embeds repoze.tm, is not
 * part of this model.
 */
module ZopeTransactions {
  import opened Common

  /**
   * The status as a number: an integer as it is, a string by the integer
   * before its first whitespace (IndexError when blank, ValueError when not
   * a number); a boolean counts as 0 or 1.
   */
  function StatusCode(status: Value): (r: Result<int>)
    ensures status.VInt? ==> r == Ok(status.i)
    ensures status.VStr? && FirstWord(status.s).None? ==> r == Err(IndexError)
    ensures status.VStr? && FirstWord(status.s).Some? ==> r == ParseInt(FirstWord(status.s).value)
  {
    match status
    case VInt(i) => Ok(i)
    case VBool(b) => Ok(if b then 1 else 0)
    case VStr(s) =>
      (match FirstWord(s)
       case None => Err(IndexError)
       case Some(w) => ParseInt(w))
    case _ => Err(TypeError("unorderable status"))
  }

  /**
   * `commit_veto(environ, status, headers)`: no status (an internal
   * redirect) never vetoes; otherwise the commit is vetoed exactly when the
   * status code lies outside [200, 400).
   */
  function CommitVeto(environ: Value, status: Value, headers: Value): (r: Result<bool>)
    ensures !Truthy(status) ==> r == Ok(false)
    ensures Truthy(status) && StatusCode(status).Ok? ==>
              r == Ok(!(200 <= StatusCode(status).value < 400))
    ensures Truthy(status) && StatusCode(status).Err? ==> r == Err(StatusCode(status).exc)
  {
    if !Truthy(status) then Ok(false)
    else
      match StatusCode(status)
      case Err(e) => Err(e)
      case Ok(code) => Ok(!(200 <= code < 400))
  }

  /** The verdict depends on the status alone. */
  lemma VetoIgnoresEnvironAndHeaders(e1: Value, e2: Value, status: Value, h1: Value, h2: Value)
    ensures CommitVeto(e1, status, h1) == CommitVeto(e2, status, h2)
  {
  }

  /** Successes and redirects (302, 303 included) commit; every other code rolls back. */
  lemma VetoIffNotSuccessOrRedirect(code: int, environ: Value, headers: Value)
    requires code != 0
    ensures CommitVeto(environ, VInt(code), headers) == Ok(code < 200 || code >= 400)
    ensures CommitVeto(environ, VInt(302), headers) == Ok(false) && CommitVeto(environ, VInt(303), headers) == Ok(false)
  {
  }

  /** The digits of a number read back as the number. */
  lemma {:induction false} DigitsOfNat(n: nat)
    ensures AllDigits(NatToStr(n)) && DigitsValue(NatToStr(n)) == n
    decreases n
  {
    var s := NatToStr(n);
    if n >= 10 {
      DigitsOfNat(n / 10);
      assert s[..|s| - 1] == NatToStr(n / 10);
    }
  }

  /** The first word of "<word> <rest>" is the word. */
  lemma {:induction false} WordBeforeSpace(w: Str, rest: Str)
    requires forall i :: 0 <= i < |w| ==> !IsSpace(w[i])
    ensures WordEnd(w + [' '] + rest) == |w|
    decreases |w|
  {
    if w != [] {
      WordBeforeSpace(w[1..], rest);
      assert (w + [' '] + rest)[1..] == w[1..] + [' '] + rest;
    }
  }

  /** The first word of "<word> <rest>" is a word without spaces. */
  lemma FirstWordOfLine(w: Str, rest: Str)
    requires w != [] && forall i :: 0 <= i < |w| ==> !IsSpace(w[i])
    ensures FirstWord(w + " " + rest) == Some(w)
  {
    var line := w + " " + rest;
    assert line == w + [' '] + rest;
    assert LStrip(line) == line by { assert !IsSpace(line[0]); }
    WordBeforeSpace(w, rest);
    assert line[..|w|] == w;
  }

  /** `int()` reads a string of digits as its value. */
  lemma ParseDigits(digits: Str)
    requires digits != [] && AllDigits(digits)
    ensures ParseInt(digits) == Ok(DigitsValue(digits))
  {
    assert IsDigit(digits[0]) && IsDigit(digits[|digits| - 1]);
    assert LStrip(digits) == digits;
    assert RStrip(digits) == digits;
    assert Strip(digits) == digits;
    assert digits[0] != '-' && digits[0] != '+';
  }

  /** The status code of a line "<digits> <reason>" is the value of the digits. */
  lemma DigitLineCode(digits: Str, reason: Str)
    requires digits != [] && AllDigits(digits)
    ensures StatusCode(VStr(digits + " " + reason)) == Ok(DigitsValue(digits))
  {
    assert forall i :: 0 <= i < |digits| ==> !IsSpace(digits[i]) by {
      forall i | 0 <= i < |digits| ensures !IsSpace(digits[i]) {
        assert IsDigit(digits[i]);
      }
    }
    FirstWordOfLine(digits, reason);
    ParseDigits(digits);
  }

  /** A status line "<digits> <reason>" counts as the number the digits spell. */
  lemma DigitLineIsItsValue(digits: Str, reason: Str, environ: Value, headers: Value)
    requires digits != [] && AllDigits(digits) && DigitsValue(digits) != 0
    ensures CommitVeto(environ, VStr(digits + " " + reason), headers) == CommitVeto(environ, VInt(DigitsValue(digits)), headers)
  {
    var line := digits + " " + reason;
    var v := DigitsValue(digits);
    DigitLineCode(digits, reason);
    VetoIffNotSuccessOrRedirect(v, environ, headers);
    assert Truthy(VStr(line)) by { assert line != []; }
  }

  /**
   * A status line "<code> <reason>" counts as its code: '204 No Content'
   * commits like 204.
   */
  lemma StatusLineIsItsCode(code: nat, reason: Str, environ: Value, headers: Value)
    requires code != 0
    ensures CommitVeto(environ, VStr(NatToStr(code) + " " + reason), headers) == CommitVeto(environ, VInt(code), headers)
  {
    DigitsOfNat(code);
    DigitLineIsItsValue(NatToStr(code), reason, environ, headers);
  }

  /** '204 No Content', the status of an empty response, commits. */
  lemma NoContentCommits(environ: Value, headers: Value)
    ensures CommitVeto(environ, VStr("204 No Content"), headers) == Ok(false)
  {
    var digits := "204";
    assert AllDigits(digits);
    assert digits[..2] == "20" && "20"[..1] == "2";
    assert DigitsValue(digits) == 204;
    assert "204 No Content" == digits + " " + "No Content";
    DigitLineIsItsValue(digits, "No Content", environ, headers);
  }
}
