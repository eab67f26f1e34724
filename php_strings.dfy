/** The PHP built-in string functions the form handlers and the mail
    configuration rely on. A PHP string is a sequence of bytes: here each
    `char` of a `string` holds one byte (0 to 255). */
module PhpStrings {
  import opened Text

  // ---------------------------------------------------------------------
  // trim()
  // ---------------------------------------------------------------------

  /** The bytes trim() strips by default: space, tab, LF, CR, NUL and vertical tab. */
  predicate IsTrimmable(c: char) {
    c == ' ' || c == '\t' || c == '\n' || c == '\r' || c == '\0' || c == '\U{0B}'
  }

  /** The index just past the run of trimmable bytes that starts at `i`. */
  function LeadEnd(s: string, i: nat): (j: nat)
    requires i <= |s|
    ensures i <= j <= |s|
    decreases |s| - i
  {
    if i < |s| && IsTrimmable(s[i]) then LeadEnd(s, i + 1) else i
  }

  /** The index where the run of trimmable bytes that ends at `j` starts,
      never going below `lo`. */
  function TrailStart(s: string, lo: nat, j: nat): (k: nat)
    requires lo <= j <= |s|
    ensures lo <= k <= j
    decreases j
  {
    if j > lo && IsTrimmable(s[j - 1]) then TrailStart(s, lo, j - 1) else j
  }

  /** trim($s): `s[lo..hi]` where `s[..lo]` and `s[hi..]` are the
      trimmable runs at either end. */
  function Trim(s: string): (r: string)
    ensures |r| <= |s|
  {
    var lo := LeadEnd(s, 0);
    s[lo..TrailStart(s, lo, |s|)]
  }

  /** LeadEnd skips exactly a run of trimmable bytes. */
  lemma {:induction false} LeadEndSpec(s: string, i: nat)
    requires i <= |s|
    ensures forall k :: i <= k < LeadEnd(s, i) ==> IsTrimmable(s[k])
    ensures LeadEnd(s, i) == |s| || !IsTrimmable(s[LeadEnd(s, i)])
    decreases |s| - i
  {
    if i < |s| && IsTrimmable(s[i]) {
      LeadEndSpec(s, i + 1);
    }
  }

  /** TrailStart backs over exactly a run of trimmable bytes. */
  lemma {:induction false} TrailStartSpec(s: string, lo: nat, j: nat)
    requires lo <= j <= |s|
    ensures forall k :: TrailStart(s, lo, j) <= k < j ==> IsTrimmable(s[k])
    ensures TrailStart(s, lo, j) == lo || !IsTrimmable(s[TrailStart(s, lo, j) - 1])
    decreases j
  {
    if j > lo && IsTrimmable(s[j - 1]) {
      TrailStartSpec(s, lo, j - 1);
    }
  }

  /** Trim cuts exactly the trimmable runs at both ends: what is left starts
      and ends with a kept byte, and is the middle of `s`. */
  lemma TrimSpec(s: string)
    ensures var r := Trim(s);
      var lo := LeadEnd(s, 0);
      lo + |r| <= |s| && (forall i :: 0 <= i < |r| ==> r[i] == s[lo + i])
      && (forall i :: 0 <= i < lo ==> IsTrimmable(s[i]))
      && (forall i :: lo + |r| <= i < |s| ==> IsTrimmable(s[i]))
      && (r == [] || (!IsTrimmable(r[0]) && !IsTrimmable(r[|r| - 1])))
  {
    var lo := LeadEnd(s, 0);
    LeadEndSpec(s, 0);
    TrailStartSpec(s, lo, |s|);
  }

  // ---------------------------------------------------------------------
  // stripslashes()
  // ---------------------------------------------------------------------

  /** stripslashes($s): a backslash is dropped and the byte after it kept,
      except that `\0` becomes a NUL byte; a trailing lone backslash is dropped. */
  function StripSlashes(s: string): (r: string)
    ensures |r| <= |s|
    ensures forall i :: 0 <= i < |r| ==> r[i] in s || r[i] == '\0'
    ensures '\\' !in s ==> r == s
  {
    if s == [] then []
    else if s[0] == '\\' then
      if |s| == 1 then []
      else (if s[1] == '0' then ['\0'] else [s[1]]) + StripSlashes(s[2..])
    else [s[0]] + StripSlashes(s[1..])
  }

  /** What addslashes() writes for one byte: a backslash before `'`, `"`
      and `\`, and `\0` for a NUL byte. */
  function SlashChar(c: char): string {
    if c == '\0' then ['\\', '0']
    else if c == '\'' || c == '"' || c == '\\' then ['\\', c]
    else [c]
  }

  /** Reference encoder: addslashes($s). */
  function AddSlashes(s: string): (r: string)
    ensures |r| >= |s|
  {
    if s == [] then [] else SlashChar(s[0]) + AddSlashes(s[1..])
  }

  lemma StripSlashesStep(c: char, rest: string)
    ensures StripSlashes(SlashChar(c) + rest) == [c] + StripSlashes(rest)
  {
    var e := SlashChar(c) + rest;
    if c == '\0' || c == '\'' || c == '"' || c == '\\' {
      assert e[0] == '\\' && e[2..] == rest;
    } else {
      assert e[0] == c && e[1..] == rest;
    }
  }

  /** stripslashes() undoes addslashes() on every string. */
  lemma {:induction false} StripSlashesRoundTrip(s: string)
    ensures StripSlashes(AddSlashes(s)) == s
    decreases |s|
  {
    if s != [] {
      StripSlashesStep(s[0], AddSlashes(s[1..]));
      StripSlashesRoundTrip(s[1..]);
    }
  }

  // ---------------------------------------------------------------------
  // UTF-8 well-formedness (what htmlspecialchars() checks for 'UTF-8')
  // ---------------------------------------------------------------------

  predicate Between(c: char, lo: int, hi: int) {
    lo <= c as int <= hi
  }

  predicate IsTrail(c: char) {
    Between(c, 0x80, 0xBF)
  }

  /** Length of the well-formed UTF-8 sequence that starts `s`, or 0 when
      none does (Table 3-7 of the Unicode Standard, chapter 3: no overlong
      forms, no surrogates, nothing above U+10FFFF). */
  function Utf8Width(s: string): (w: nat)
    ensures w <= |s| && w <= 4
    ensures s != [] && (s[0] as int) < 0x80 ==> w == 1
  {
    if s == [] then 0
    else
      var b := s[0] as int;
      if b < 0x80 then 1
      else if 0xC2 <= b <= 0xDF then
        if |s| >= 2 && IsTrail(s[1]) then 2 else 0
      else if b == 0xE0 then
        if |s| >= 3 && Between(s[1], 0xA0, 0xBF) && IsTrail(s[2]) then 3 else 0
      else if 0xE1 <= b <= 0xEC || b == 0xEE || b == 0xEF then
        if |s| >= 3 && IsTrail(s[1]) && IsTrail(s[2]) then 3 else 0
      else if b == 0xED then
        if |s| >= 3 && Between(s[1], 0x80, 0x9F) && IsTrail(s[2]) then 3 else 0
      else if b == 0xF0 then
        if |s| >= 4 && Between(s[1], 0x90, 0xBF) && IsTrail(s[2]) && IsTrail(s[3]) then 4 else 0
      else if 0xF1 <= b <= 0xF3 then
        if |s| >= 4 && IsTrail(s[1]) && IsTrail(s[2]) && IsTrail(s[3]) then 4 else 0
      else if b == 0xF4 then
        if |s| >= 4 && Between(s[1], 0x80, 0x8F) && IsTrail(s[2]) && IsTrail(s[3]) then 4 else 0
      else 0
  }

  predicate WellFormedUtf8(s: string)
    decreases |s|
  {
    s == [] || (Utf8Width(s) > 0 && WellFormedUtf8(s[Utf8Width(s)..]))
  }

  predicate IsAscii(s: string) {
    forall i :: 0 <= i < |s| ==> (s[i] as int) < 0x80
  }

  lemma {:induction false} AsciiIsWellFormed(s: string)
    requires IsAscii(s)
    ensures WellFormedUtf8(s)
    decreases |s|
  {
    if s != [] {
      AsciiIsWellFormed(s[1..]);
    }
  }

  // ---------------------------------------------------------------------
  // htmlspecialchars($s, ENT_QUOTES, 'UTF-8')
  // ---------------------------------------------------------------------

  /** The raw characters that open markup or close an attribute value. */
  predicate IsMarkupChar(c: char) {
    c == '<' || c == '>' || c == '"' || c == '\''
  }

  predicate NoMarkup(s: string) {
    forall i :: 0 <= i < |s| ==> !IsMarkupChar(s[i])
  }

  /** The entity ENT_QUOTES with the default HTML 4.01 table writes for one byte. */
  function EscapeChar(c: char): string {
    if c == '&' then "&amp;"
    else if c == '"' then "&quot;"
    else if c == '\'' then "&#039;"
    else if c == '<' then "&lt;"
    else if c == '>' then "&gt;"
    else [c]
  }

  function EscapeAll(s: string): (r: string)
    ensures NoMarkup(r)
    ensures |r| >= |s|
  {
    if s == [] then [] else EscapeChar(s[0]) + EscapeAll(s[1..])
  }

  /** A value holding no character that has an entity is left unchanged. */
  lemma {:induction false} EscapeAllPlain(s: string)
    requires forall i :: 0 <= i < |s| ==> !IsMarkupChar(s[i]) && s[i] != '&'
    ensures EscapeAll(s) == s
    decreases |s|
  {
    if s != [] {
      EscapeAllPlain(s[1..]);
    }
  }

  /** htmlspecialchars() with ENT_QUOTES and no ENT_SUBSTITUTE: the empty
      string when the input is not well-formed UTF-8, otherwise every `&`,
      `"`, `'`, `<` and `>` replaced by its entity (existing entities are
      encoded again). */
  function HtmlSpecialChars(s: string): (r: string)
    ensures NoMarkup(r)
    ensures !WellFormedUtf8(s) ==> r == []
  {
    if WellFormedUtf8(s) then EscapeAll(s) else []
  }

  /** Reference decoder for the five entities EscapeChar writes, used to
      show that escaping keeps all information. */
  function DecodeEntities(s: string): string
    decreases |s|
  {
    if s == [] then []
    else if "&amp;" <= s then ['&'] + DecodeEntities(s[5..])
    else if "&quot;" <= s then ['"'] + DecodeEntities(s[6..])
    else if "&#039;" <= s then ['\''] + DecodeEntities(s[6..])
    else if "&lt;" <= s then ['<'] + DecodeEntities(s[4..])
    else if "&gt;" <= s then ['>'] + DecodeEntities(s[4..])
    else [s[0]] + DecodeEntities(s[1..])
  }

  lemma DecodeEscapedChar(c: char, rest: string)
    ensures DecodeEntities(EscapeChar(c) + rest) == [c] + DecodeEntities(rest)
  {
    var e := EscapeChar(c) + rest;
    if c == '&' {
      assert "&amp;" <= e && e[5..] == rest;
    } else if c == '"' {
      assert !("&amp;" <= e) by { assert e[1] == 'q'; }
      assert "&quot;" <= e && e[6..] == rest;
    } else if c == '\'' {
      assert !("&amp;" <= e) by { assert e[1] == '#'; }
      assert !("&quot;" <= e) by { assert e[1] == '#'; }
      assert "&#039;" <= e && e[6..] == rest;
    } else if c == '<' {
      assert !("&amp;" <= e) by { assert e[1] == 'l'; }
      assert !("&quot;" <= e) by { assert e[1] == 'l'; }
      assert !("&#039;" <= e) by { assert e[1] == 'l'; }
      assert "&lt;" <= e && e[4..] == rest;
    } else if c == '>' {
      assert !("&amp;" <= e) by { assert e[1] == 'g'; }
      assert !("&quot;" <= e) by { assert e[1] == 'g'; }
      assert !("&#039;" <= e) by { assert e[1] == 'g'; }
      assert !("&lt;" <= e) by { assert e[1] == 'g'; }
      assert "&gt;" <= e && e[4..] == rest;
    } else {
      assert e[0] == c && e[1..] == rest;
    }
  }

  /** Escaping loses nothing: decoding the five entities gives the input back. */
  lemma {:induction false} EscapeRoundTrip(s: string)
    ensures DecodeEntities(EscapeAll(s)) == s
    decreases |s|
  {
    if s != [] {
      DecodeEscapedChar(s[0], EscapeAll(s[1..]));
      EscapeRoundTrip(s[1..]);
    }
  }

  // ---------------------------------------------------------------------
  // str_replace($needles, '', $s)
  // ---------------------------------------------------------------------

  /** str_replace($needle, '', $s) for a non-empty needle: occurrences are
      deleted left to right without overlap. */
  function RemoveAll(s: string, needle: string): (r: string)
    requires |needle| > 0
    ensures |r| <= |s|
    ensures |needle| == 1 ==> needle[0] !in r
    ensures needle[0] !in s ==> r == s
    decreases |s|
  {
    if |s| < |needle| then s
    else if needle <= s then RemoveAll(s[|needle|..], needle)
    else [s[0]] + RemoveAll(s[1..], needle)
  }

  /** Every character of `r` occurs in `s`. */
  predicate CharsFrom(r: string, s: string) {
    forall i :: 0 <= i < |r| ==> r[i] in s
  }

  /** Deleting never brings in a character the input did not hold. */
  lemma {:induction false} RemoveAllCharsFrom(s: string, needle: string)
    requires |needle| > 0
    ensures CharsFrom(RemoveAll(s, needle), s)
    decreases |s|
  {
    if |s| >= |needle| {
      if needle <= s {
        RemoveAllCharsFrom(s[|needle|..], needle);
        var r := RemoveAll(s[|needle|..], needle);
        forall i | 0 <= i < |r| ensures r[i] in s {
          var j :| 0 <= j < |s[|needle|..]| && s[|needle|..][j] == r[i];
          assert s[j + |needle|] == r[i];
        }
      } else {
        RemoveAllCharsFrom(s[1..], needle);
        var r := RemoveAll(s[1..], needle);
        forall i | 0 <= i < |[s[0]] + r| ensures ([s[0]] + r)[i] in s {
          if i > 0 {
            var j :| 0 <= j < |s[1..]| && s[1..][j] == r[i - 1];
            assert s[j + 1] == r[i - 1];
          }
        }
      }
    }
  }

  lemma CharsFromKeepsAbsent(r: string, s: string, c: char)
    requires CharsFrom(r, s) && c !in s
    ensures c !in r
  {
  }

  lemma CharsFromKeepsNoMarkup(r: string, s: string)
    requires CharsFrom(r, s) && NoMarkup(s)
    ensures NoMarkup(r)
  {
    forall i | 0 <= i < |r| ensures !IsMarkupChar(r[i]) {
      var j :| 0 <= j < |s| && s[j] == r[i];
    }
  }

  lemma CharsFromTransitive(a: string, b: string, c: string)
    requires CharsFrom(a, b) && CharsFrom(b, c)
    ensures CharsFrom(a, c)
  {
    forall i | 0 <= i < |a| ensures a[i] in c {
      var j :| 0 <= j < |b| && b[j] == a[i];
    }
  }

  // ---------------------------------------------------------------------
  // Truthiness, empty() and (int) casts
  // ---------------------------------------------------------------------

  /** A string is falsy for `?:` and empty() exactly when it is '' or '0'. */
  predicate IsFalsy(s: string) {
    s == "" || s == "0"
  }

  /** The whitespace is_numeric_string() skips before a number. */
  predicate IsNumericSpace(c: char) {
    c == ' ' || c == '\t' || c == '\n' || c == '\r' || c == '\U{0B}' || c == '\U{0C}'
  }

  /** Length of the run of digits at the start of `s`. */
  function DigitRun(s: string): (n: nat)
    ensures n <= |s| && AllDigits(s[..n])
    ensures n < |s| ==> !IsDigit(s[n])
  {
    if s != [] && IsDigit(s[0]) then
      var n := 1 + DigitRun(s[1..]);
      assert s[..n] == [s[0]] + s[1..][..n - 1];
      n
    else 0
  }

  /** (int)$s for a string in decimal notation: leading whitespace, an
      optional sign, then the longest run of digits; anything after it is
      ignored and no digits at all give 0. */
  function IntCast(s: string): int {
    var t := s[|s| - |SkipNumericSpace(s)|..];
    var neg := t != [] && t[0] == '-';
    var u := if t != [] && (t[0] == '-' || t[0] == '+') then t[1..] else t;
    var v: int := DigitsValue(u[..DigitRun(u)]);
    if neg then -v else v
  }

  function SkipNumericSpace(s: string): (r: string)
    ensures |r| <= |s| && r == s[|s| - |r|..]
    ensures r == [] || !IsNumericSpace(r[0])
  {
    if s != [] && IsNumericSpace(s[0]) then SkipNumericSpace(s[1..]) else s
  }

  lemma DigitRunOfDigits(s: string)
    requires AllDigits(s)
    ensures DigitRun(s) == |s|
  {
  }

  /** The cast reads a run of digits as its value. */
  lemma IntCastOfDigits(s: string)
    requires s != [] && AllDigits(s)
    ensures IntCast(s) == DigitsValue(s)
  {
    assert IsDigit(s[0]);
    assert SkipNumericSpace(s) == s;
    assert s[|s| - |s|..] == s;
    DigitRunOfDigits(s);
    assert s[..|s|] == s;
  }

  /** The cast reads a decimal spelling back as its number. */
  lemma IntCastOfDecimal(n: nat)
    ensures IntCast(DecimalString(n)) == n
  {
    IntCastOfDigits(DecimalString(n));
    DecimalStringRoundTrip(n);
  }
}
