/**
 * `cookiesToString` of src/lib/utils.ts: the cookies of `cookies.getAll()`
 * written as a `Cookie` request header value, `name=value` pairs joined by
 * "; " (the cookie-string of section 5.4 of RFC 6265).
 *
 * Its partner here is the reading side: `ParseCookies` splits such a string
 * back into cookies, and gives back exactly the cookies written as long as
 * no name holds '=' or ';' and no value holds ';'.
 */
module Cookies {

  datatype Cookie = Cookie(name: string, value: string)

  /** `${name}=${value}` */
  function Render(c: Cookie): (s: string)
    ensures s == c.name + "=" + c.value
    ensures |s| == |c.name| + 1 + |c.value|
  {
    c.name + "=" + c.value
  }

  /** `cookiesArray.map(({name, value}) => `${name}=${value}`).join('; ')` */
  function CookiesToString(cookies: seq<Cookie>): (s: string)
    ensures |cookies| == 0 <==> s == ""
    ensures |cookies| == 1 ==> s == Render(cookies[0])
    decreases |cookies|
  {
    if |cookies| == 0 then ""
    else if |cookies| == 1 then Render(cookies[0])
    else Render(cookies[0]) + "; " + CookiesToString(cookies[1..])
  }

  // ---------- the reading side ----------

  /** The position of the first `c` in `s`, or `|s|` when there is none. */
  function IndexOf(s: string, c: char): (i: nat)
    ensures i <= |s| && (i < |s| ==> s[i] == c)
    ensures forall j :: 0 <= j < i ==> s[j] != c
    decreases |s|
  {
    if s == "" then 0
    else if s[0] == c then 0
    else 1 + IndexOf(s[1..], c)
  }

  /** `name=value` read back: the name ends at the first '='. */
  function ParseCookie(s: string): Cookie {
    var i := IndexOf(s, '=');
    Cookie(s[..i], if i < |s| then s[i + 1..] else "")
  }

  /** A header value split at every ';' (and the space after it) into cookies. */
  function ParseCookies(s: string): seq<Cookie>
    decreases |s|
  {
    if s == "" then []
    else
      var i := IndexOf(s, ';');
      if i == |s| then [ParseCookie(s)]
      else [ParseCookie(s[..i])] + ParseCookies(if i + 2 <= |s| then s[i + 2..] else "")
  }

  /** A cookie that survives the round trip. */
  predicate Plain(c: Cookie) {
    (forall j :: 0 <= j < |c.name| ==> c.name[j] != '=' && c.name[j] != ';')
    && (forall j :: 0 <= j < |c.value| ==> c.value[j] != ';')
  }

  // ---------- properties ----------

  /** The first `c` in `a + [c] + b` is right after `a` when `a` has none. */
  lemma {:induction false} IndexOfAfter(a: string, c: char, b: string)
    requires forall j :: 0 <= j < |a| ==> a[j] != c
    ensures IndexOf(a + [c] + b, c) == |a|
    decreases |a|
  {
    if a != "" {
      assert (a + [c] + b)[1..] == a[1..] + [c] + b;
      IndexOfAfter(a[1..], c, b);
    }
  }

  /** A rendered plain cookie reads back as itself. */
  lemma ParseRendered(c: Cookie)
    requires Plain(c)
    ensures ParseCookie(Render(c)) == c
  {
    var s := Render(c);
    IndexOfAfter(c.name, '=', c.value);
    assert s[..|c.name|] == c.name;
    assert s[|c.name| + 1..] == c.value;
  }

  /** A rendered plain cookie holds no ';'. */
  lemma RenderedHasNoSemicolon(c: Cookie)
    requires Plain(c)
    ensures forall j :: 0 <= j < |Render(c)| ==> Render(c)[j] != ';'
  {
    var s := Render(c);
    forall j | 0 <= j < |s| ensures s[j] != ';' {
      if j < |c.name| {
        assert s[j] == c.name[j];
      } else if j > |c.name| {
        assert s[j] == c.value[j - |c.name| - 1];
      }
    }
  }

  /** Reading back the string of plain cookies gives the same cookies, in the same order. */
  lemma {:induction false} ParseCookiesToString(cookies: seq<Cookie>)
    requires forall i :: 0 <= i < |cookies| ==> Plain(cookies[i])
    ensures ParseCookies(CookiesToString(cookies)) == cookies
    decreases |cookies|
  {
    if |cookies| == 1 {
      var s := Render(cookies[0]);
      RenderedHasNoSemicolon(cookies[0]);
      ParseRendered(cookies[0]);
      assert IndexOf(s, ';') == |s|;
    } else if |cookies| > 1 {
      var head := Render(cookies[0]);
      var rest := CookiesToString(cookies[1..]);
      var s := head + "; " + rest;
      RenderedHasNoSemicolon(cookies[0]);
      assert s == head + [';'] + (" " + rest);
      IndexOfAfter(head, ';', " " + rest);
      assert s[..|head|] == head;
      assert s[|head| + 2..] == rest;
      ParseRendered(cookies[0]);
      ParseCookiesToString(cookies[1..]);
      assert [cookies[0]] + cookies[1..] == cookies;
    }
  }

  /** Joining distributes over concatenation: two lists of cookies write out as their strings joined by "; ". */
  lemma {:induction false} ConcatenatedCookies(a: seq<Cookie>, b: seq<Cookie>)
    requires |a| > 0 && |b| > 0
    ensures CookiesToString(a + b) == CookiesToString(a) + "; " + CookiesToString(b)
    decreases |a|
  {
    if |a| == 1 {
      assert (a + b)[1..] == b;
    } else {
      assert (a + b)[1..] == a[1..] + b;
      ConcatenatedCookies(a[1..], b);
    }
  }

  /** The string is as long as its pairs plus two characters per separator. */
  lemma {:induction false} CookieStringLength(cookies: seq<Cookie>)
    requires |cookies| > 0
    ensures |CookiesToString(cookies)| == PairsLength(cookies) + 2 * (|cookies| - 1)
    decreases |cookies|
  {
    if |cookies| > 1 {
      CookieStringLength(cookies[1..]);
    }
  }

  /** The total length of the `name=value` pairs. */
  function PairsLength(cookies: seq<Cookie>): nat
    decreases |cookies|
  {
    if |cookies| == 0 then 0 else |Render(cookies[0])| + PairsLength(cookies[1..])
  }
}
