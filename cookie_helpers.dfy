/** The cookie functions of frontend/src/shared/lib/helpers.ts: a parser that
    splits `document.cookie` on ';' and strips leading blanks, and writers that
    put the value in unencoded. */
module CookieHelpers {
  import opened Wrappers
  import opened Text
  import opened Browser
  import AuthCookies

  const DayMillis := 24 * 60 * 60 * 1000
  const NoDocument := "document is not defined"

  /** `while (c.charAt(0) === ' ') c = c.substring(1)`. */
  function StripSpaces(c: string): (r: string)
    ensures r == [] || r[0] != ' '
  {
    if c != [] && c[0] == ' ' then StripSpaces(c[1..]) else c
  }

  /** What is stripped is blanks only, and the rest is a suffix. */
  lemma {:induction false} StripSpacesSuffix(c: string)
    ensures var r := StripSpaces(c);
      |r| <= |c| && c[|c| - |r|..] == r && forall i :: 0 <= i < |c| - |r| ==> c[i] == ' '
  {
    if c != [] && c[0] == ' ' {
      StripSpacesSuffix(c[1..]);
      var r := StripSpaces(c);
      forall i | 1 <= i < |c| - |r| ensures c[i] == ' ' {
        assert c[1..][i - 1] == c[i];
      }
    }
  }

  /** The value the loop of `getCookie` returns for the segments of the
      cookie text: the rest of the first segment that starts with `nameEQ`
      once its leading blanks are gone. */
  function FindCookie(segments: seq<string>, nameEQ: string): Option<string>
  {
    if segments == [] then None
    else
      var c := StripSpaces(segments[0]);
      if StartsWith(c, nameEQ) then Some(c[|nameEQ|..])
      else FindCookie(segments[1..], nameEQ)
  }

  /** A value is found exactly when some segment matches. */
  lemma {:induction false} FindCookieFound(segments: seq<string>, nameEQ: string)
    ensures FindCookie(segments, nameEQ).Some?
      <==> exists i :: 0 <= i < |segments| && StartsWith(StripSpaces(segments[i]), nameEQ)
  {
    if segments != [] && !StartsWith(StripSpaces(segments[0]), nameEQ) {
      FindCookieFound(segments[1..], nameEQ);
      if exists i :: 0 <= i < |segments| && StartsWith(StripSpaces(segments[i]), nameEQ) {
        var i :| 0 <= i < |segments| && StartsWith(StripSpaces(segments[i]), nameEQ);
        assert segments[1..][i - 1] == segments[i];
      }
      if FindCookie(segments[1..], nameEQ).Some? {
        var k :| 0 <= k < |segments[1..]| && StartsWith(StripSpaces(segments[1..][k]), nameEQ);
        assert segments[k + 1] == segments[1..][k];
      }
    }
  }

  /** The first matching segment decides, and the value is the rest of it. */
  lemma {:induction false} FindCookieFirstMatch(segments: seq<string>, nameEQ: string, i: nat)
    requires i < |segments| && StartsWith(StripSpaces(segments[i]), nameEQ)
    requires forall j :: 0 <= j < i ==> !StartsWith(StripSpaces(segments[j]), nameEQ)
    ensures FindCookie(segments, nameEQ) == Some(StripSpaces(segments[i])[|nameEQ|..])
  {
    if i > 0 {
      assert forall j :: 0 <= j < i - 1 ==> segments[1..][j] == segments[j + 1];
      FindCookieFirstMatch(segments[1..], nameEQ, i - 1);
    }
  }

  /** `indexOf(p) === 0` is `startsWith(p)`. */
  lemma IndexOfZero(c: string, p: string)
    ensures IndexOf(c, p) == 0 <==> StartsWith(c, p)
  {
    if StartsWith(c, p) {
      assert c[0..] == c;
    }
  }

  /** `getCookie(name)`: without a `document` reading `document.cookie`
      throws. */
  method GetCookie(name: string, hasDocument: bool, documentCookie: string) returns (r: Result<Option<string>>)
    ensures !hasDocument ==> r == Fail(JsError(NoDocument))
    ensures hasDocument ==> r == Ok(FindCookie(Split(documentCookie, ";"), name + "="))
  {
    if !hasDocument {
      return Fail(JsError(NoDocument));
    }
    var nameEQ := name + "=";
    var ca := Split(documentCookie, ";");
    var i := 0;
    while i < |ca|
      invariant 0 <= i <= |ca|
      invariant FindCookie(ca[i..], nameEQ) == FindCookie(ca, nameEQ)
    {
      var c := ca[i];
      while |c| > 0 && c[0] == ' '
        invariant StripSpaces(c) == StripSpaces(ca[i])
      {
        c := c[1..];
      }
      IndexOfZero(c, nameEQ);
      assert ca[i..][0] == ca[i] && ca[i..][1..] == ca[i + 1..];
      if IndexOf(c, nameEQ) == 0 {
        return Ok(Some(c[|nameEQ|..]));
      }
      i := i + 1;
    }
    return Ok(None);
  }

  /** The line `setCookie(name, value, days)` assigns: the value as it is,
      and an expiry only when `days` is not 0. */
  function CookieLine(name: string, value: string, days: int, now: int, utc: int -> string): string
  {
    var expires := if days != 0 then "; expires=" + utc(now + days * DayMillis) else "";
    name + "=" + value + expires + "; path=/"
  }

  /** `setCookie`: without a `document` the assignment throws. */
  method SetCookie(b: Browser, name: string, value: string, days: int, now: int, utc: int -> string)
    returns (r: Outcome)
    modifies b
    ensures r == Pass <==> b.hasWindow
    ensures !b.hasWindow ==> r == Raise(JsError(NoDocument))
    ensures b.State() == if b.hasWindow
      then old(b.State()).(cookieWrites := old(b.cookieWrites) + [CookieLine(name, value, days, now, utc)])
      else old(b.State())
  {
    if !b.hasWindow {
      return Raise(JsError(NoDocument));
    }
    b.WriteDocumentCookie(CookieLine(name, value, days, now, utc));
    return Pass;
  }

  /** `deleteCookie(name)`: `setCookie(name, '', -1)`. */
  method DeleteCookie(b: Browser, name: string, now: int, utc: int -> string) returns (r: Outcome)
    modifies b
    ensures r == Pass <==> b.hasWindow
    ensures b.State() == if b.hasWindow
      then old(b.State()).(cookieWrites := old(b.cookieWrites) + [CookieLine(name, "", -1, now, utc)])
      else old(b.State())
  {
    r := SetCookie(b, name, "", -1, now, utc);
  }

  /** The line `deleteCookie` writes is the empty value with an expiry one
      day before now; a zero `days` writes a cookie with no expiry at all. */
  lemma DeleteLineExpiresInPast(name: string, now: int, utc: int -> string)
    ensures CookieLine(name, "", -1, now, utc) == name + "=; expires=" + utc(now - DayMillis) + "; path=/"
    ensures now - DayMillis < now
    ensures CookieLine(name, "", 0, now, utc) == name + "=; path=/"
  {
  }

  /** The first ';'-separated part of a text is what precedes the first ';'. */
  lemma FirstPart(p: string, rest: string)
    requires Lacks(p, ';')
    ensures Split(p + ";" + rest, ";")[0] == p
  {
    SplitAfterPrefix(p, ";", rest);
  }

  /** Read as a cookie text, the line `setCookie` writes gives the value back,
      '=' and blanks included, when neither name nor value holds ';' and the
      name does not start with a blank. */
  lemma CookieLineReadsBack(name: string, value: string, days: int, now: int, utc: int -> string)
    requires Lacks(name, ';') && Lacks(value, ';')
    requires name == [] || name[0] != ' '
    ensures FindCookie(Split(CookieLine(name, value, days, now, utc), ";"), name + "=") == Some(value)
  {
    var pair := name + "=" + value;
    var rest := LineRest(name, value, days, now, utc);
    LacksConcat(name, "=", ';');
    LacksConcat(name + "=", value, ';');
    FirstPart(pair, rest);
    var segments := Split(pair + ";" + rest, ";");
    assert StripSpaces(pair) == pair;
    assert pair[..|name| + 1] == name + "=";
    assert pair[|name| + 1..] == value;
    FindCookieFirstMatch(segments, name + "=", 0);
  }

  /** What follows the first ';' of the line `setCookie` writes. */
  function LineRest(name: string, value: string, days: int, now: int, utc: int -> string): (rest: string)
    ensures CookieLine(name, value, days, now, utc) == name + "=" + value + ";" + rest
  {
    var rest := (if days != 0 then " expires=" + utc(now + days * DayMillis) + ";" else "") + " path=/";
    assert CookieLine(name, value, days, now, utc) == name + "=" + value + ";" + rest;
    rest
  }

  /** The two parsers part ways on a value holding '=': `name=a=b` reads as
      `a=b` here and as `a` in the parser of auth.ts. */
  lemma ParsersDisagreeOnEquals(name: string, a: string, b: string, decode: string -> string)
    requires Lacks(name, '=') && Lacks(name, ';') && (name == [] || name[0] != ' ')
    requires Lacks(a, '=') && Lacks(a, ';') && Lacks(b, ';')
    ensures FindCookie(Split(name + "=" + a + "=" + b, ";"), name + "=") == Some(a + "=" + b)
    ensures AuthCookies.ReadCookie(name, Some(name + "=" + a + "=" + b), false, "", decode) == Some(decode(a))
  {
    var text := name + "=" + (a + "=" + b);
    assert name + "=" + a + "=" + b == text;
    LacksConcat(a, "=", ';');
    LacksConcat(a + "=", b, ';');
    LacksConcat(name, "=", ';');
    LacksConcat(name + "=", a + "=" + b, ';');
    SplitAbsent(text, ";");
    assert text[0] != ' ';
    assert StripSpaces(text) == text;
    assert text[..|name| + 1] == name + "=";
    assert text[|name| + 1..] == a + "=" + b;
    FindCookieFirstMatch([text], name + "=", 0);
    AuthCookies.ValueStopsAtEquals(name, a, b, decode);
  }
}
