/** Models of the few language built-ins the chat client and its backend rely on:
    JavaScript's String.prototype.trim, Python's str.strip, Number.prototype.toString
    on non-negative integers and POSIX os.path.basename. */
module Builtins {

  datatype Option<T> = None | Some(value: T) {
    function GetOr(default: T): T {
      match this
      case Some(v) => v
      case None => default
    }
  }

  /** The characters JavaScript's trim removes: WhiteSpace and LineTerminator of ECMA-262. */
  predicate IsJsSpace(c: char) {
    c == '\t' || c == '\n' || c == '\U{B}' || c == '\U{C}' || c == '\r' || c == ' '
    || c == '\U{A0}' || c == '\U{1680}' || ('\U{2000}' <= c <= '\U{200A}')
    || c == '\U{2028}' || c == '\U{2029}' || c == '\U{202F}' || c == '\U{205F}'
    || c == '\U{3000}' || c == '\U{FEFF}'
  }

  /** The characters Python's argument-less str.strip removes (those for which str.isspace holds). */
  predicate IsPySpace(c: char) {
    ('\t' <= c <= '\r') || ('\U{1C}' <= c <= '\U{1F}') || c == ' ' || c == '\U{85}'
    || c == '\U{A0}' || c == '\U{1680}' || ('\U{2000}' <= c <= '\U{200A}')
    || c == '\U{2028}' || c == '\U{2029}' || c == '\U{202F}' || c == '\U{205F}'
    || c == '\U{3000}'
  }

  /** The two white-space sets differ in a handful of characters: U+FEFF is white space only to
      JavaScript; the information separators U+001C..U+001F and NEXT LINE U+0085 only to Python. */
  lemma SpaceSetsDiffer(c: char)
    ensures IsJsSpace(c) && !IsPySpace(c) <==> c == '\U{FEFF}'
    ensures IsPySpace(c) && !IsJsSpace(c) <==> '\U{1C}' <= c <= '\U{1F}' || c == '\U{85}'
  {
  }

  /** Whose notion of white space a trim uses: JavaScript's trim or Python's strip. */
  datatype Lang = Js | Py

  predicate IsSpace(lang: Lang, c: char) {
    match lang
    case Js => IsJsSpace(c)
    case Py => IsPySpace(c)
  }

  /** Drops the leading white-space characters of `lang`. */
  function TrimStart(s: string, lang: Lang): string {
    if s != [] && IsSpace(lang, s[0]) then TrimStart(s[1..], lang) else s
  }

  /** Drops the trailing white-space characters of `lang`. */
  function TrimEnd(s: string, lang: Lang): string {
    if s != [] && IsSpace(lang, s[|s| - 1]) then TrimEnd(s[..|s| - 1], lang) else s
  }

  /** Drops leading and trailing white space of `lang`. */
  function Trim(s: string, lang: Lang): string {
    TrimEnd(TrimStart(s, lang), lang)
  }

  /** `text.trim()` in the client. */
  function JsTrim(s: string): string {
    Trim(s, Js)
  }

  /** `message.strip()` in the backend. */
  function PyStrip(s: string): string {
    Trim(s, Py)
  }

  /** A string that neither starts nor ends with white space of `lang`. */
  predicate Trimmed(t: string, lang: Lang) {
    t != [] && !IsSpace(lang, t[0]) && !IsSpace(lang, t[|t| - 1])
  }

  /** TrimStart cuts away white space only, and exactly up to the first other character. */
  lemma {:induction false} TrimStartSpec(s: string, lang: Lang)
    ensures var r := TrimStart(s, lang);
      |r| <= |s| && r == s[|s| - |r|..]
      && (forall k :: 0 <= k < |s| - |r| ==> IsSpace(lang, s[k]))
      && (r != [] ==> !IsSpace(lang, r[0]))
  {
    if s != [] && IsSpace(lang, s[0]) {
      TrimStartSpec(s[1..], lang);
      assert forall k :: 1 <= k < |s| ==> s[k] == s[1..][k - 1];
    }
  }

  /** TrimEnd cuts away white space only, and exactly back to the last other character. */
  lemma {:induction false} TrimEndSpec(s: string, lang: Lang)
    ensures var r := TrimEnd(s, lang);
      |r| <= |s| && r == s[..|r|]
      && (forall k :: |r| <= k < |s| ==> IsSpace(lang, s[k]))
      && (r != [] ==> !IsSpace(lang, r[|r| - 1]))
  {
    if s != [] && IsSpace(lang, s[|s| - 1]) {
      TrimEndSpec(s[..|s| - 1], lang);
      assert forall k :: 0 <= k < |s| - 1 ==> s[k] == s[..|s| - 1][k];
    }
  }

  /** What Trim returns is the slice of its input between the first and the last character that
      is not white space, and nothing when there is no such character. */
  lemma TrimIsSlice(s: string, lang: Lang)
    ensures var r := Trim(s, lang);
      r == [] || Trimmed(r, lang)
    ensures exists i, j :: (0 <= i <= j <= |s| && Trim(s, lang) == s[i..j]
      && (forall k :: 0 <= k < i ==> IsSpace(lang, s[k]))
      && (forall k :: j <= k < |s| ==> IsSpace(lang, s[k])))
  {
    var t := TrimStart(s, lang);
    TrimStartSpec(s, lang);
    TrimEndSpec(t, lang);
    var r := Trim(s, lang);
    if r != [] {
      assert r[0] == t[0];
    }
    var i := |s| - |t|;
    var j := i + |r|;
    assert r == s[i..j];
    forall k | j <= k < |s| ensures IsSpace(lang, s[k]) {
      assert s[k] == t[k - i];
    }
    assert forall k :: 0 <= k < i ==> IsSpace(lang, s[k]);
  }

  /** A string trims to nothing exactly when all of its characters are white space. */
  lemma TrimEmptyIff(s: string, lang: Lang)
    ensures Trim(s, lang) == [] <==> forall k :: 0 <= k < |s| ==> IsSpace(lang, s[k])
  {
    var t := TrimStart(s, lang);
    TrimStartSpec(s, lang);
    TrimEndSpec(t, lang);
    var off := |s| - |t|;
    assert forall k :: off <= k < |s| ==> s[k] == t[k - off];
    assert t != [] ==> s[off] == t[0];
  }

  /** Trimming twice is trimming once, and a non-empty result is Trimmed. */
  lemma TrimIdempotent(s: string, lang: Lang)
    ensures Trim(Trim(s, lang), lang) == Trim(s, lang)
    ensures Trim(s, lang) != [] ==> Trimmed(Trim(s, lang), lang)
  {
    TrimIsSlice(s, lang);
    var r := Trim(s, lang);
    if r != [] {
      assert TrimStart(r, lang) == r;
      assert TrimEnd(r, lang) == r;
    }
  }

  /** Trimmed strings are exactly the non-empty fixed points of Trim. */
  lemma TrimmedIff(t: string, lang: Lang)
    ensures Trimmed(t, lang) <==> t != [] && Trim(t, lang) == t
  {
    if t != [] && Trim(t, lang) == t {
      TrimIsSlice(t, lang);
    }
    if Trimmed(t, lang) {
      assert TrimStart(t, lang) == t;
      assert TrimEnd(t, lang) == t;
    }
  }

  /** The decimal digit for 0 <= d < 10. */
  function DigitChar(d: nat): (c: char)
    requires d < 10
    ensures '0' <= c <= '9' && c as int - '0' as int == d
  {
    ('0' as int + d) as char
  }

  /** `n.toString()` for a non-negative integer: its decimal digits, most significant first. */
  function NatToString(n: nat): (r: string)
    ensures r != []
    ensures forall k :: 0 <= k < |r| ==> '0' <= r[k] <= '9'
    ensures |r| > 1 ==> r[0] != '0'
    decreases n
  {
    if n < 10 then [DigitChar(n)] else NatToString(n / 10) + [DigitChar(n % 10)]
  }

  /** The value of a string of decimal digits, the inverse of NatToString. */
  function ParseDecimal(s: string): nat
    requires forall k :: 0 <= k < |s| ==> '0' <= s[k] <= '9'
  {
    if s == [] then 0 else 10 * ParseDecimal(s[..|s| - 1]) + (s[|s| - 1] as int - '0' as int)
  }

  lemma {:induction false} NatToStringRoundTrip(n: nat)
    ensures ParseDecimal(NatToString(n)) == n
    decreases n
  {
    if n >= 10 {
      var r := NatToString(n);
      assert r[..|r| - 1] == NatToString(n / 10);
      NatToStringRoundTrip(n / 10);
    }
  }

  /** Distinct clock readings give distinct decimal strings. */
  lemma NatToStringInjective(m: nat, n: nat)
    requires NatToString(m) == NatToString(n)
    ensures m == n
  {
    NatToStringRoundTrip(m);
    NatToStringRoundTrip(n);
  }

  /** `os.path.basename(p)` on POSIX: the part of `p` after its last '/'. */
  function Basename(p: string): (r: string)
    ensures '/' !in r
    ensures |r| <= |p| && r == p[|p| - |r|..]
    ensures |r| < |p| ==> p[|p| - |r| - 1] == '/'
  {
    if p == [] || p[|p| - 1] == '/' then [] else Basename(p[..|p| - 1]) + [p[|p| - 1]]
  }
}
