/**
 * The part of JSON (RFC 8259) that the client's persisted session flag uses:
 * the literal names `true`, `false` and `null`, surrounded by optional
 * whitespace, and the text `localStorage.setItem` stores for
 * `JSON.stringify(flag)`.
 */
module Json {
  import opened Wrappers

  /**
   * A JavaScript value in a boolean position: the `isAuthenticated` slice
   * field and a user's `isAdmin` property. `Undefined` stands for a missing
   * property.
   */
  datatype Flag = True | False | Null | Undefined

  /** JavaScript truthiness: of these four values only `true` is truthy. */
  predicate Truthy(f: Flag) {
    f == True
  }

  /** Insignificant whitespace, section 2 of RFC 8259. */
  predicate IsWs(c: char) {
    c == ' ' || c == '\t' || c == '\n' || c == '\r'
  }

  predicate AllWs(s: string) {
    forall i :: 0 <= i < |s| ==> IsWs(s[i])
  }

  /** Drops leading whitespace. */
  function TrimStart(s: string): (r: string)
    ensures |r| <= |s| && r == s[|s| - |r|..]
    ensures AllWs(s[..|s| - |r|])
    ensures r == [] || !IsWs(r[0])
  {
    if s != [] && IsWs(s[0]) then
      var r := TrimStart(s[1..]);
      assert s[1..][..|s| - 1 - |r|] == s[1..|s| - |r|];
      r
    else
      s
  }

  /** Drops trailing whitespace. */
  function TrimEnd(s: string): (r: string)
    ensures |r| <= |s| && r == s[..|r|]
    ensures AllWs(s[|r|..])
    ensures r == [] || !IsWs(r[|r| - 1])
  {
    if s != [] && IsWs(s[|s| - 1]) then
      var r := TrimEnd(s[..|s| - 1]);
      assert s[..|s| - 1][|r|..] == s[|r|..|s| - 1];
      assert s[|r|..] == s[|r|..|s| - 1] + [s[|s| - 1]];
      assert r == s[..|s| - 1][..|r|] == s[..|r|];
      r
    else
      s
  }

  function Trim(s: string): string {
    TrimEnd(TrimStart(s))
  }

  /**
   * `JSON.parse` restricted to the literal names (section 3 of RFC 8259).
   * `None` is the `SyntaxError` JSON.parse throws; the empty text, the text
   * "undefined" and every other text are refused.
   */
  function ParseLiteral(text: string): (r: Option<Flag>)
    ensures r.Some? ==> r.value != Undefined
    ensures r.Some? ==> Trim(text) == StoredText(r.value)
  {
    var t := Trim(text);
    if t == "true" then Some(True)
    else if t == "false" then Some(False)
    else if t == "null" then Some(Null)
    else None
  }

  /**
   * The text `localStorage.setItem(key, JSON.stringify(f))` stores:
   * `JSON.stringify(undefined)` is `undefined`, which setItem converts to
   * the string "undefined".
   */
  function StoredText(f: Flag): string {
    match f
    case True => "true"
    case False => "false"
    case Null => "null"
    case Undefined => "undefined"
  }

  /** A text that neither starts nor ends with whitespace is its own trimmed form. */
  lemma TrimUntouched(t: string)
    requires t != [] && !IsWs(t[0]) && !IsWs(t[|t| - 1])
    ensures Trim(t) == t
  {
  }

  /** Reading back what was stored gives the value back, except `undefined`, whose text does not parse. */
  lemma ParseStoredText(f: Flag)
    ensures ParseLiteral(StoredText(f)) == if f == Undefined then None else Some(f)
  {
    TrimUntouched(StoredText(f));
  }

  lemma {:induction false} TrimStartSkipsWs(w: string, x: string)
    requires AllWs(w)
    ensures TrimStart(w + x) == TrimStart(x)
    decreases |w|
  {
    if w == [] {
      assert w + x == x;
    } else {
      assert (w + x)[1..] == w[1..] + x;
      TrimStartSkipsWs(w[1..], x);
    }
  }

  lemma {:induction false} TrimEndSkipsWs(x: string, w: string)
    requires AllWs(w)
    ensures TrimEnd(x + w) == TrimEnd(x)
    decreases |w|
  {
    if w == [] {
      assert x + w == x;
    } else {
      assert (x + w)[..|x + w| - 1] == x + w[..|w| - 1];
      TrimEndSkipsWs(x, w[..|w| - 1]);
    }
  }

  lemma {:induction false} TrimStartKeepsTail(t: string, w: string)
    requires TrimStart(t) != []
    ensures TrimStart(t + w) == TrimStart(t) + w
    decreases |t|
  {
    assert t != [];
    assert (t + w)[0] == t[0];
    if IsWs(t[0]) {
      assert (t + w)[1..] == t[1..] + w;
      assert TrimStart(t) == TrimStart(t[1..]);
      TrimStartKeepsTail(t[1..], w);
    } else {
      assert TrimStart(t) == t;
    }
  }

  /** Whitespace around a text never changes what JSON.parse makes of it. */
  lemma ParseIgnoresWhitespace(w1: string, t: string, w2: string)
    requires AllWs(w1) && AllWs(w2)
    ensures ParseLiteral(w1 + t + w2) == ParseLiteral(t)
  {
    TrimIgnoresWhitespace(w1, t, w2);
  }

  lemma TrimIgnoresWhitespace(w1: string, t: string, w2: string)
    requires AllWs(w1) && AllWs(w2)
    ensures Trim(w1 + t + w2) == Trim(t)
  {
    assert w1 + t + w2 == w1 + (t + w2);
    TrimStartSkipsWs(w1, t + w2);
    if TrimStart(t) == [] {
      assert AllWs(t) by { assert t[..|t|] == t; }
      assert AllWs(t + w2);
      TrimStartSkipsWs(t + w2, []);
      assert t + w2 + [] == t + w2;
    } else {
      TrimStartKeepsTail(t, w2);
      TrimEndSkipsWs(TrimStart(t), w2);
    }
  }
}
