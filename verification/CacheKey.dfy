/** The string under which a client request is cached and shared, and why it names the request. */
module CacheKey {
  import opened Common

  /** JavaScript strings are sequences of 16-bit code units. */
  type Unit = u: nat | u < 0x1_0000

  type JsString = seq<Unit>

  const COLON: Unit := 58
  const QUOTE: Unit := 34
  const BACKSLASH: Unit := 92
  const LOWER_U: Unit := 117
  const GET: JsString := [71, 69, 84]

  // ---------------------------------------------------------------------------------
  // Quoting a string as JSON (section 7 of RFC 8259, as JSON.stringify does it)

  predicate IsLead(u: Unit) {
    0xD800 <= u <= 0xDBFF
  }

  predicate IsTrail(u: Unit) {
    0xDC00 <= u <= 0xDFFF
  }

  /** The text starts with a surrogate pair, which is written as it is. */
  predicate StartsPair(s: JsString) {
    |s| >= 2 && IsLead(s[0]) && IsTrail(s[1])
  }

  function HexDigit(n: nat): Unit
    requires n < 16
  {
    if n < 10 then 48 + n else 87 + n
  }

  function HexValue(u: Unit): Option<nat> {
    if 48 <= u <= 57 then Some(u - 48)
    else if 97 <= u <= 102 then Some(u - 87)
    else None
  }

  function UnicodeEscape(u: Unit): JsString {
    [BACKSLASH, LOWER_U, HexDigit(u / 4096), HexDigit(u / 256 % 16), HexDigit(u / 16 % 16), HexDigit(u % 16)]
  }

  /** The letter after the backslash in a two-unit escape, if u has one. */
  function ShortEscape(u: Unit): Option<Unit> {
    if u == 8 then Some(98)
    else if u == 9 then Some(116)
    else if u == 10 then Some(110)
    else if u == 12 then Some(102)
    else if u == 13 then Some(114)
    else if u == QUOTE then Some(QUOTE)
    else if u == BACKSLASH then Some(BACKSLASH)
    else None
  }

  /** One unit outside a surrogate pair: control characters and lone surrogates are escaped. */
  function EscapeUnit(u: Unit): JsString {
    if ShortEscape(u).Some? then [BACKSLASH, ShortEscape(u).value]
    else if u < 32 || IsLead(u) || IsTrail(u) then UnicodeEscape(u)
    else [u]
  }

  function Escape(s: JsString): JsString {
    if s == [] then []
    else if StartsPair(s) then s[..2] + Escape(s[2..])
    else EscapeUnit(s[0]) + Escape(s[1..])
  }

  function Quoted(s: JsString): JsString {
    [QUOTE] + Escape(s) + [QUOTE]
  }

  // ---------------------------------------------------------------------------------
  // Reading it back

  function ShortMeaning(letter: Unit): Option<Unit> {
    if letter == 98 then Some(8)
    else if letter == 116 then Some(9)
    else if letter == 110 then Some(10)
    else if letter == 102 then Some(12)
    else if letter == 114 then Some(13)
    else if letter == QUOTE then Some(QUOTE)
    else if letter == BACKSLASH then Some(BACKSLASH)
    else None
  }

  function FourHex(e: JsString): Option<Unit>
    requires |e| == 4
  {
    var a, b, c, d := HexValue(e[0]), HexValue(e[1]), HexValue(e[2]), HexValue(e[3]);
    if a.Some? && b.Some? && c.Some? && d.Some? && a.value < 16 && b.value < 16 && c.value < 16 && d.value < 16
    then Some(a.value * 4096 + b.value * 256 + c.value * 16 + d.value)
    else None
  }

  function Prepend(u: Option<Unit>, rest: Option<JsString>): Option<JsString> {
    if u.Some? && rest.Some? then Some([u.value] + rest.value) else None
  }

  /** The text that an escaped string stands for, if it is well formed. */
  function Unescape(e: JsString): Option<JsString> {
    if e == [] then Some([])
    else if e[0] != BACKSLASH then Prepend(Some(e[0]), Unescape(e[1..]))
    else if |e| >= 6 && e[1] == LOWER_U then Prepend(FourHex(e[2..6]), Unescape(e[6..]))
    else if |e| >= 2 then Prepend(ShortMeaning(e[1]), Unescape(e[2..]))
    else None
  }

  lemma HexRoundTrip(u: Unit)
    ensures FourHex(UnicodeEscape(u)[2..6]) == Some(u)
  {
    var h := UnicodeEscape(u)[2..6];
    assert h == [HexDigit(u / 4096), HexDigit(u / 256 % 16), HexDigit(u / 16 % 16), HexDigit(u % 16)];
    assert u / 256 == u / 4096 * 16 + u / 256 % 16;
    assert u / 16 == u / 256 * 16 + u / 16 % 16;
    assert u == u / 16 * 16 + u % 16;
  }

  lemma HexUnitRoundTrip(u: Unit, rest: JsString)
    ensures Unescape(UnicodeEscape(u) + rest) == Prepend(Some(u), Unescape(rest))
  {
    var e := UnicodeEscape(u) + rest;
    HexRoundTrip(u);
    assert e[2..6] == UnicodeEscape(u)[2..6] && e[6..] == rest;
    assert e[0] == BACKSLASH && e[1] == LOWER_U;
  }

  /** Reading undoes the escape of one unit, whatever follows. */
  lemma UnitRoundTrip(u: Unit, rest: JsString)
    ensures Unescape(EscapeUnit(u) + rest) == Prepend(Some(u), Unescape(rest))
  {
    var e := EscapeUnit(u) + rest;
    if ShortEscape(u).Some? {
      assert e[2..] == rest;
    } else if u < 32 || IsLead(u) || IsTrail(u) {
      HexUnitRoundTrip(u, rest);
    } else {
      assert e[1..] == rest;
    }
  }

  lemma RawRoundTrip(u: Unit, rest: JsString)
    requires u != BACKSLASH
    ensures Unescape([u] + rest) == Prepend(Some(u), Unescape(rest))
  {
    assert ([u] + rest)[1..] == rest;
  }

  lemma PairRoundTrip(s: JsString, rest: JsString)
    requires StartsPair(s)
    ensures Unescape(s[..2] + rest) == Prepend(Some(s[0]), Prepend(Some(s[1]), Unescape(rest)))
  {
    assert s[..2] + rest == [s[0]] + ([s[1]] + rest);
    RawRoundTrip(s[1], rest);
    RawRoundTrip(s[0], [s[1]] + rest);
  }

  /** Every string, surrogates paired or not, can be read back from its escaped form. */
  lemma {:induction false} EscapeRoundTrip(s: JsString)
    ensures Unescape(Escape(s)) == Some(s)
  {
    if s == [] {
    } else if StartsPair(s) {
      hide Unescape;
      EscapeRoundTrip(s[2..]);
      PairRoundTrip(s, Escape(s[2..]));
      assert s == [s[0]] + ([s[1]] + s[2..]);
    } else {
      hide Unescape, EscapeUnit;
      EscapeRoundTrip(s[1..]);
      UnitRoundTrip(s[0], Escape(s[1..]));
      assert s == [s[0]] + s[1..];
    }
  }

  lemma EscapeInjective(s: JsString, t: JsString)
    requires Escape(s) == Escape(t)
    ensures s == t
  {
    EscapeRoundTrip(s);
    EscapeRoundTrip(t);
  }

  /** Every quote in e stands behind a backslash. */
  ghost predicate QuotesEscaped(e: JsString) {
    forall i | 0 <= i < |e| && e[i] == QUOTE :: i >= 1 && e[i - 1] == BACKSLASH
  }

  lemma {:induction false} EscapeHidesQuotes(s: JsString)
    ensures QuotesEscaped(Escape(s))
  {
    if s == [] {
    } else if StartsPair(s) {
      EscapeHidesQuotes(s[2..]);
      HiddenQuotesJoin(s[..2], Escape(s[2..]));
    } else {
      EscapeHidesQuotes(s[1..]);
      assert QuotesEscaped(EscapeUnit(s[0]));
      HiddenQuotesJoin(EscapeUnit(s[0]), Escape(s[1..]));
    }
  }

  lemma HiddenQuotesJoin(d: JsString, e: JsString)
    requires QuotesEscaped(d) && QuotesEscaped(e)
    ensures QuotesEscaped(d + e)
  {
    forall i | 0 <= i < |d + e| && (d + e)[i] == QUOTE
      ensures i >= 1 && (d + e)[i - 1] == BACKSLASH
    {
      if i >= |d| {
        assert e[i - |d|] == QUOTE;
      }
    }
  }

  /** Quotes, backslashes, control characters and surrogates outside a pair are written otherwise. */
  predicate Special(u: Unit) {
    u == QUOTE || u == BACKSLASH || u < 32 || 0xD800 <= u <= 0xDFFF
  }

  predicate Plain(s: JsString) {
    s == [] || (if StartsPair(s) then Plain(s[2..]) else !Special(s[0]) && Plain(s[1..]))
  }

  lemma UnitOnlySpecial(u: Unit)
    ensures if Special(u) then |EscapeUnit(u)| >= 2 else EscapeUnit(u) == [u]
    ensures forall v | v in EscapeUnit(u) :: v >= 32
  {
  }

  /** Escaping leaves a text as it is exactly if it holds nothing special outside surrogate pairs. */
  lemma {:induction false} EscapeOnlySpecial(s: JsString)
    ensures |Escape(s)| >= |s| && (Escape(s) == s <==> Plain(s))
    ensures forall u | u in Escape(s) :: u >= 32
  {
    if s == [] {
    } else if StartsPair(s) {
      hide EscapeUnit, Special;
      EscapeOnlySpecial(s[2..]);
      assert s == s[..2] + s[2..];
      assert Escape(s)[2..] == Escape(s[2..]);
    } else {
      EscapeOnlySpecial(s[1..]);
      UnitOnlySpecial(s[0]);
      hide EscapeUnit, Special;
      assert s == [s[0]] + s[1..];
      if !Special(s[0]) {
        assert Escape(s)[1..] == Escape(s[1..]);
      }
    }
  }

  // ---------------------------------------------------------------------------------
  // The key of a request

  /** What `getCacheKey` looks at. Bodies are strings that were serialised before, or absent. */
  datatype Request = Request(method_: Option<JsString>, endpoint: JsString, body: Option<JsString>)
  {
    /** The method, GET when it is missing or empty. */
    function Method(): JsString {
      if method_.None? || method_.value == [] then GET else method_.value
    }

    /** The body; missing and empty bodies are the same. */
    function Body(): JsString {
      if body.None? then [] else body.value
    }
  }

  function BodyPart(body: JsString): JsString {
    if body == [] then [] else Quoted(body)
  }

  function Key(r: Request): JsString {
    r.Method() + [COLON] + r.endpoint + [COLON] + BodyPart(r.Body())
  }

  /** The key of a request without a body, as it is written. */
  lemma BareKey(endpoint: JsString)
    ensures Key(Request(None, endpoint, None)) == [71, 69, 84, 58] + endpoint + [58]
    ensures Key(Request(Some([]), endpoint, Some([]))) == [71, 69, 84, 58] + endpoint + [58]
  {
    assert GET + [COLON] == [71, 69, 84, 58];
  }

  /** Two requests that ask for the same thing. */
  predicate SameRequest(r: Request, q: Request) {
    r.Method() == q.Method() && r.endpoint == q.endpoint && r.Body() == q.Body()
  }

  lemma NoEarlierColon(m: JsString, s: JsString, n: JsString, t: JsString)
    requires COLON !in n && m + [COLON] + s == n + [COLON] + t
    ensures |n| <= |m|
  {
    var k := n + [COLON] + t;
    assert (m + [COLON] + s)[|m|] == COLON;
    assert forall i | 0 <= i < |n| :: k[i] == n[i] && k[i] != COLON;
  }

  lemma FirstColon(m: JsString, s: JsString, n: JsString, t: JsString)
    requires COLON !in m && COLON !in n
    requires m + [COLON] + s == n + [COLON] + t
    ensures m == n && s == t
  {
    NoEarlierColon(m, s, n, t);
    NoEarlierColon(n, t, m, s);
    var k := m + [COLON] + s;
    var l := n + [COLON] + t;
    assert m == k[..|m|] && n == l[..|n|];
    assert s == k[|m| + 1..] && t == l[|n| + 1..];
  }

  /** Between the two outer quotes of a quoted string, every quote stands behind a backslash. */
  lemma InnerQuotes(d: JsString, s: JsString)
    ensures
      var k := d + [COLON] + Quoted(s);
      forall i | |d| + 1 < i < |k| - 1 && k[i] == QUOTE :: k[i - 1] == BACKSLASH
  {
    var k := d + [COLON] + Quoted(s);
    EscapeHidesQuotes(s);
    forall i | |d| + 1 < i < |k| - 1
      ensures k[i] == Escape(s)[i - |d| - 2]
    {
      assert k[i] == Quoted(s)[i - |d| - 1];
    }
  }

  /** The opening quote is the last quote before the closing one that no backslash precedes. */
  lemma OpeningQuote(d: JsString, s: JsString, e: JsString, t: JsString)
    requires d + [COLON] + Quoted(s) == e + [COLON] + Quoted(t)
    ensures |e| <= |d|
  {
    InnerQuotes(d, s);
    var l := e + [COLON] + Quoted(t);
    assert l[|e| + 1] == QUOTE && l[|e|] == COLON;
  }

  lemma LastPart(d: JsString, s: JsString, e: JsString, t: JsString)
    requires d + [COLON] + BodyPart(s) == e + [COLON] + BodyPart(t)
    ensures d == e && s == t
  {
    var k := d + [COLON] + BodyPart(s);
    var l := e + [COLON] + BodyPart(t);
    if s == [] || t == [] {
      assert k[|k| - 1] == if s == [] then COLON else QUOTE;
      assert l[|l| - 1] == if t == [] then COLON else QUOTE;
      assert d == k[..|k| - 1] && e == l[..|l| - 1];
    } else {
      OpeningQuote(d, s, e, t);
      OpeningQuote(e, t, d, s);
      assert d == k[..|d|] && e == l[..|e|];
      assert Quoted(s) == k[|d| + 1..] && Quoted(t) == l[|e| + 1..];
      assert Escape(s) == Quoted(s)[1..|Quoted(s)| - 1] && Escape(t) == Quoted(t)[1..|Quoted(t)| - 1];
      EscapeInjective(s, t);
    }
  }

  function AfterMethod(r: Request): JsString {
    r.endpoint + [COLON] + BodyPart(r.Body())
  }

  lemma KeySplit(r: Request)
    ensures Key(r) == r.Method() + [COLON] + AfterMethod(r)
  {
  }

  lemma KeyDetermines(r: Request, q: Request)
    requires COLON !in r.Method() && COLON !in q.Method() && Key(r) == Key(q)
    ensures SameRequest(r, q)
  {
    KeySplit(r);
    KeySplit(q);
    FirstColon(r.Method(), AfterMethod(r), q.Method(), AfterMethod(q));
    LastPart(r.endpoint, r.Body(), q.endpoint, q.Body());
  }

  /** Requests whose methods hold no colon share a key exactly when they ask for the same thing. */
  lemma KeyNamesRequest(r: Request, q: Request)
    requires COLON !in r.Method() && COLON !in q.Method()
    ensures Key(r) == Key(q) <==> SameRequest(r, q)
  {
    if Key(r) == Key(q) {
      KeyDetermines(r, q);
    }
  }

  /** With a colon in a method, two different requests can collide. */
  lemma ColonCollision()
    ensures
      var r := Request(Some([65, COLON, 66]), [67], None);
      var q := Request(Some([65]), [66, COLON, 67], None);
      Key(r) == Key(q) && !SameRequest(r, q)
  {
    var r := Request(Some([65, COLON, 66]), [67], None);
    var q := Request(Some([65]), [66, COLON, 67], None);
    assert Key(r) == [65, COLON, 66, COLON, 67, COLON] == Key(q);
  }
}
