/** String operations the core borrows from Go's standard library:
    first-occurrence replacement (`strings.Replace` with n = 1) and the
    escaping of string values by `encoding/json`, with a reference parser
    for the escaped form. */
module Text {
  import opened Errors

  /** `pat` occurs in `s` starting at index `i`. */
  predicate OccursAt(s: string, pat: string, i: int)
  {
    0 <= i && i + |pat| <= |s| && s[i..i + |pat|] == pat
  }

  /** The first index at or after `k` where `pat` occurs, or -1. */
  function IndexFrom(s: string, pat: string, k: nat): (i: int)
    requires k <= |s| + 1
    ensures i == -1 || (k <= i && OccursAt(s, pat, i))
    ensures i == -1 ==> forall j :: k <= j ==> !OccursAt(s, pat, j)
    ensures i != -1 ==> forall j :: k <= j < i ==> !OccursAt(s, pat, j)
    decreases |s| + 1 - k
  {
    if k + |pat| > |s| then -1
    else if s[k..k + |pat|] == pat then k
    else IndexFrom(s, pat, k + 1)
  }

  /** `strings.Index`: the first index where `pat` occurs, or -1. */
  function IndexOf(s: string, pat: string): (i: int)
    ensures i == -1 || OccursAt(s, pat, i)
    ensures i == -1 ==> forall j :: !OccursAt(s, pat, j)
    ensures i != -1 ==> forall j :: j < i ==> !OccursAt(s, pat, j)
  {
    IndexFrom(s, pat, 0)
  }

  /** `strings.Replace(s, pat, rep, 1)`: the first occurrence of `pat` is
      replaced by `rep`; text without an occurrence is returned as it is. */
  function ReplaceFirst(s: string, pat: string, rep: string): (r: string)
    ensures (forall j :: !OccursAt(s, pat, j)) ==> r == s
    ensures forall i :: OccursAt(s, pat, i) && (forall j :: j < i ==> !OccursAt(s, pat, j)) ==>
              r == s[..i] + rep + s[i + |pat|..]
  {
    var i := IndexOf(s, pat);
    if i < 0 then s else s[..i] + rep + s[i + |pat|..]
  }

  /** Only the first occurrence is replaced: everything after it is kept
      verbatim, including later occurrences of the pattern. */
  lemma ReplaceKeepsLaterText(prefix: string, pat: string, rep: string, suffix: string)
    requires forall j :: !OccursAt(prefix + pat, pat, j) || j == |prefix|
    ensures ReplaceFirst(prefix + pat + suffix, pat, rep) == prefix + rep + suffix
  {
    var s := prefix + pat + suffix;
    var n := |prefix|;
    assert s[n..n + |pat|] == pat;
    forall j | j < n ensures !OccursAt(s, pat, j) {
      assert OccursAt(s, pat, j) ==> OccursAt(prefix + pat, pat, j);
    }
    assert s[..n] == prefix;
    assert s[n + |pat|..] == suffix;
  }

  // ---------------------------------------------------------------------------
  // JSON string values

  /** The lower-case hexadecimal digit of `d`. */
  function HexDigit(d: nat): char
    requires d < 16
  {
    if d < 10 then ('0' as int + d) as char else ('a' as int + d - 10) as char
  }

  /** The value of a hexadecimal digit of either case. */
  function HexValue(c: char): Option<nat>
  {
    if '0' <= c <= '9' then Some(c as int - '0' as int)
    else if 'a' <= c <= 'f' then Some(c as int - 'a' as int + 10)
    else if 'A' <= c <= 'F' then Some(c as int - 'A' as int + 10)
    else None
  }

  /** Four lower-case hexadecimal digits, most significant first. */
  function Hex4(n: nat): (h: string)
    requires n < 0x10000
    ensures |h| == 4
  {
    [HexDigit(n / 4096), HexDigit((n / 256) % 16), HexDigit((n / 16) % 16), HexDigit(n % 16)]
  }

  /** The number written by four hexadecimal digits. */
  function Hex4Value(h: string): Option<nat>
    requires |h| == 4
  {
    match (HexValue(h[0]), HexValue(h[1]), HexValue(h[2]), HexValue(h[3]))
    case (Some(a), Some(b), Some(c), Some(d)) => Some(((a * 16 + b) * 16 + c) * 16 + d)
    case _ => None
  }

  lemma HexDigitValue(d: nat)
    requires d < 16
    ensures HexValue(HexDigit(d)) == Some(d)
  {
  }

  lemma Hex4RoundTrip(n: nat)
    requires n < 0x10000
    ensures Hex4Value(Hex4(n)) == Some(n)
  {
    HexDigitValue(n / 4096);
    HexDigitValue((n / 256) % 16);
    HexDigitValue((n / 16) % 16);
    HexDigitValue(n % 16);
    assert n / 256 == (n / 4096) * 16 + (n / 256) % 16;
    assert n / 16 == (n / 256) * 16 + (n / 16) % 16;
    assert n == (n / 16) * 16 + n % 16;
  }

  /** Characters `encoding/json` writes as `\u` escapes: control characters
      without a short form, the HTML-sensitive `<`, `>` and `&`, and the line
      and paragraph separators U+2028 and U+2029. */
  predicate EscapedAsUnicode(c: char)
  {
    || (c as int < 0x20 && c != '\n' && c != '\r' && c != '\t')
    || c == '<' || c == '>' || c == '&'
    || c == '\U{2028}' || c == '\U{2029}'
  }

  /** How one character appears inside a JSON string. */
  function EscapeChar(c: char): string
  {
    if c == '"' then "\\\""
    else if c == '\\' then "\\\\"
    else if c == '\n' then "\\n"
    else if c == '\r' then "\\r"
    else if c == '\t' then "\\t"
    else if EscapedAsUnicode(c) then "\\u" + Hex4(c as int)
    else [c]
  }

  /** The characters of a JSON string value, without the surrounding quotes. */
  function Escape(s: string): string
  {
    if s == [] then [] else EscapeChar(s[0]) + Escape(s[1..])
  }

  /** A JSON string literal: `"` + escaped text + `"`. */
  function Quote(s: string): string
  {
    "\"" + Escape(s) + "\""
  }

  /** The character a one-letter escape stands for. */
  function ShortEscape(c: char): Option<char>
  {
    if c == '"' then Some('"')
    else if c == '\\' then Some('\\')
    else if c == '/' then Some('/')
    else if c == 'b' then Some('\U{8}')
    else if c == 'f' then Some('\U{c}')
    else if c == 'n' then Some('\n')
    else if c == 'r' then Some('\r')
    else if c == 't' then Some('\t')
    else None
  }

  function Prepend(c: char, r: Option<(string, string)>): Option<(string, string)>
  {
    match r
    case Some((v, rest)) => Some(([c] + v, rest))
    case None => None
  }

  /** Reads the rest of a JSON string after its opening quote: the decoded
      text and what follows the closing quote, or None when the text is not a
      well-formed string (surrogate escapes are refused rather than paired). */
  function ParseChars(s: string): (r: Option<(string, string)>)
    ensures r.Some? ==> |r.value.1| < |s|
    decreases |s|
  {
    if s == [] then None
    else if s[0] == '"' then Some(([], s[1..]))
    else if s[0] == '\\' then
      if |s| < 2 then None
      else if s[1] == 'u' then
        if |s| < 6 then None
        else
          match Hex4Value(s[2..6])
          case None => None
          case Some(n) =>
            if n < 0xD800 || 0xE000 <= n then Prepend(n as char, ParseChars(s[6..])) else None
      else
        match ShortEscape(s[1])
        case None => None
        case Some(c) => Prepend(c, ParseChars(s[2..]))
    else if s[0] as int < 0x20 then None
    else Prepend(s[0], ParseChars(s[1..]))
  }

  /** A JSON string literal at the start of `s`: its text and what follows. */
  function ParseQuoted(s: string): Option<(string, string)>
  {
    if s != [] && s[0] == '"' then ParseChars(s[1..]) else None
  }

  lemma ParseEscapedChar(c: char, t: string)
    ensures ParseChars(EscapeChar(c) + t) == Prepend(c, ParseChars(t))
  {
    var e := EscapeChar(c) + t;
    if c == '"' || c == '\\' || c == '\n' || c == '\r' || c == '\t' {
      assert e[2..] == t;
    } else if EscapedAsUnicode(c) {
      Hex4RoundTrip(c as int);
      assert e[2..6] == Hex4(c as int);
      assert e[6..] == t;
    } else {
      assert e[1..] == t;
    }
  }

  /** Parsing undoes escaping: the closing quote after an escaped text is
      found exactly where the text ends, and the text comes back unchanged. */
  lemma {:induction false} ParseEscaped(s: string, rest: string)
    ensures ParseChars(Escape(s) + "\"" + rest) == Some((s, rest))
  {
    if s == [] {
      assert Escape(s) + "\"" + rest == "\"" + rest;
    } else {
      var t := Escape(s[1..]) + "\"" + rest;
      ParseEscaped(s[1..], rest);
      assert Escape(s) + "\"" + rest == EscapeChar(s[0]) + t;
      ParseEscapedChar(s[0], t);
      assert [s[0]] + s[1..] == s;
    }
  }

  /** A quoted string is read back whole, leaving what followed it. */
  lemma QuoteRoundTrip(s: string, rest: string)
    ensures ParseQuoted(Quote(s) + rest) == Some((s, rest))
  {
    assert (Quote(s) + rest)[1..] == Escape(s) + "\"" + rest;
    ParseEscaped(s, rest);
  }
}
