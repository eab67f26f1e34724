/** The input functions both form handlers define identically:
    sanitizeInput (api/contact-handler.php:31-38, api/booking-handler.php:31-37)
    and validatePhone (api/contact-handler.php:44-46, api/booking-handler.php:39-41). */
module FormInput {
  import opened Text
  import opened PhpStrings

  /** The header-injection guard: str_replace with the needles CR, LF,
      "%0a" and "%0d" and '' as replacement makes one full pass per needle,
      in that order. */
  function RemoveHeaderBreaks(s: string): string {
    RemoveAll(RemoveAll(RemoveAll(RemoveAll(s, "\r"), "\n"), "%0a"), "%0d")
  }

  /** sanitizeInput: trim, stripslashes, htmlspecialchars with ENT_QUOTES,
      then the header-injection guard. */
  function SanitizeInput(data: string): string {
    RemoveHeaderBreaks(HtmlSpecialChars(StripSlashes(Trim(data))))
  }

  /** The guard only deletes: what is left is drawn from its input. */
  lemma RemoveHeaderBreaksCharsFrom(s: string)
    ensures CharsFrom(RemoveHeaderBreaks(s), s)
  {
    var a := RemoveAll(s, "\r");
    var b := RemoveAll(a, "\n");
    var c := RemoveAll(b, "%0a");
    RemoveAllCharsFrom(s, "\r");
    RemoveAllCharsFrom(a, "\n");
    RemoveAllCharsFrom(b, "%0a");
    RemoveAllCharsFrom(c, "%0d");
    CharsFromTransitive(b, a, s);
    CharsFromTransitive(c, b, s);
    CharsFromTransitive(RemoveHeaderBreaks(s), c, s);
  }

  /** No sanitized value can break a mail header line: it holds neither CR nor LF. */
  lemma SanitizeHasNoLineBreaks(data: string)
    ensures '\r' !in SanitizeInput(data) && '\n' !in SanitizeInput(data)
  {
    var escaped := HtmlSpecialChars(StripSlashes(Trim(data)));
    var a := RemoveAll(escaped, "\r");
    var b := RemoveAll(a, "\n");
    var c := RemoveAll(b, "%0a");
    var r := RemoveAll(c, "%0d");
    RemoveAllCharsFrom(a, "\n");
    RemoveAllCharsFrom(b, "%0a");
    RemoveAllCharsFrom(c, "%0d");
    CharsFromTransitive(c, b, a);
    CharsFromTransitive(r, c, a);
    CharsFromTransitive(r, c, b);
    CharsFromKeepsAbsent(r, a, '\r');
    CharsFromKeepsAbsent(r, b, '\n');
  }

  /** No sanitized value holds a raw `<`, `>`, `"` or `'`: escaping removed
      them and the deletions afterwards cannot bring one back. */
  lemma SanitizeHasNoMarkup(data: string)
    ensures NoMarkup(SanitizeInput(data))
  {
    var escaped := HtmlSpecialChars(StripSlashes(Trim(data)));
    RemoveHeaderBreaksCharsFrom(escaped);
    CharsFromKeepsNoMarkup(SanitizeInput(data), escaped);
  }

  /** For an ASCII value without surrounding whitespace or backslashes,
      sanitizing reduces to escaping followed by the guard. */
  lemma SanitizePlainStages(s: string)
    requires s != [] && !IsTrimmable(s[0]) && !IsTrimmable(s[|s| - 1])
    requires IsAscii(s) && '\\' !in s
    ensures SanitizeInput(s) == RemoveHeaderBreaks(EscapeAll(s))
  {
    AsciiIsWellFormed(s);
    assert LeadEnd(s, 0) == 0;
    assert TrailStart(s, 0, |s|) == |s|;
    assert Trim(s) == s;
  }

  lemma RemoveHeaderBreaksUnchanged(s: string)
    requires '\r' !in s && '\n' !in s && '%' !in s
    ensures RemoveHeaderBreaks(s) == s
  {
  }

  lemma EscapeAmpersandPrefix(t: string)
    requires t != [] && t[0] == '&'
    requires forall i :: 1 <= i < |t| ==> !IsMarkupChar(t[i]) && t[i] != '&'
    ensures EscapeAll(t) == "&amp;" + t[1..]
  {
    var u := t[1..];
    forall i | 0 <= i < |u| ensures !IsMarkupChar(u[i]) && u[i] != '&' {
      assert u[i] == t[i + 1];
    }
    EscapeAllPlain(u);
    assert EscapeChar(t[0]) == "&amp;";
    assert EscapeAll(t) == EscapeChar(t[0]) + EscapeAll(u);
  }

  /** A printable ASCII character that no stage of the sanitizer touches. */
  predicate IsPlainChar(c: char) {
    ' ' < c < '\U{7F}' && !IsMarkupChar(c) && c != '&' && c != '\\' && c != '%'
  }

  lemma PlainTailFacts(t: string)
    requires t != [] && t[0] == '&'
    requires forall i :: 1 <= i < |t| ==> IsPlainChar(t[i])
    ensures IsAscii(t) && '\\' !in t && !IsTrimmable(t[0]) && !IsTrimmable(t[|t| - 1])
  {
    forall i | 0 <= i < |t| ensures (t[i] as int) < 0x80 && t[i] != '\\' && !IsTrimmable(t[i]) {
      if i > 0 { assert IsPlainChar(t[i]); }
    }
  }

  lemma EscapedTailFacts(t: string, e: string)
    requires t != [] && e == "&amp;" + t[1..]
    requires forall i :: 1 <= i < |t| ==> IsPlainChar(t[i])
    ensures '\r' !in e && '\n' !in e && '%' !in e
    ensures forall i :: 1 <= i < |e| ==> IsPlainChar(e[i])
  {
    forall i | 0 <= i < |e| ensures e[i] != '\r' && e[i] != '\n' && e[i] != '%' && (i > 0 ==> IsPlainChar(e[i])) {
      if i >= 5 { assert e[i] == t[i - 4] && IsPlainChar(t[i - 4]); }
    }
  }

  /** An ampersand followed by untouched characters is encoded once more. */
  lemma SanitizeAmpersandLead(t: string)
    requires t != [] && t[0] == '&'
    requires forall i :: 1 <= i < |t| ==> IsPlainChar(t[i])
    ensures SanitizeInput(t) == "&amp;" + t[1..]
  {
    PlainTailFacts(t);
    SanitizePlainStages(t);
    EscapeAmpersandPrefix(t);
    EscapedTailFacts(t, "&amp;" + t[1..]);
    RemoveHeaderBreaksUnchanged("&amp;" + t[1..]);
  }

  lemma EscapeCharKeepsBreaksOut(c: char)
    requires c != '\r' && c != '\n' && c != '%'
    ensures '\r' !in EscapeChar(c) && '\n' !in EscapeChar(c) && '%' !in EscapeChar(c)
  {
  }

  /** A single printable character comes out escaped and otherwise as it is. */
  lemma SanitizeSingleChar(s: string)
    requires |s| == 1 && (IsPlainChar(s[0]) || IsMarkupChar(s[0]) || s[0] == '&')
    ensures SanitizeInput(s) == EscapeChar(s[0])
  {
    SingleCharStages(s);
    SingleCharEscape(s);
    SingleCharGuard(s[0]);
  }

  lemma SingleCharStages(s: string)
    requires |s| == 1 && (IsPlainChar(s[0]) || IsMarkupChar(s[0]) || s[0] == '&')
    ensures SanitizeInput(s) == RemoveHeaderBreaks(EscapeAll(s))
  {
    assert (s[0] as int) < 0x80 && s[0] != '\\';
    assert IsAscii(s) && '\\' !in s && !IsTrimmable(s[0]);
    SanitizePlainStages(s);
  }

  lemma SingleCharEscape(s: string)
    requires |s| == 1
    ensures EscapeAll(s) == EscapeChar(s[0])
  {
    assert s[1..] == [];
  }

  lemma SingleCharGuard(c: char)
    requires IsPlainChar(c) || IsMarkupChar(c) || c == '&'
    ensures RemoveHeaderBreaks(EscapeChar(c)) == EscapeChar(c)
  {
    EscapeCharKeepsBreaksOut(c);
    RemoveHeaderBreaksUnchanged(EscapeChar(c));
  }

  /** A lone `<` comes out as its four-byte entity. */
  lemma SanitizeLessThan(s: string)
    requires |s| == 1 && s[0] == '<'
    ensures SanitizeInput(s) == "&lt;"
  {
    SanitizeSingleChar(s);
    assert EscapeChar(s[0]) == "&lt;";
  }

  /** A lone printable character that no stage touches comes out as it is. */
  lemma SanitizePlainSingle(s: string)
    requires |s| == 1 && IsPlainChar(s[0])
    ensures SanitizeInput(s) == s
  {
    SanitizeSingleChar(s);
    assert EscapeChar(s[0]) == [s[0]];
  }

  lemma AmpEntityTail(u: string)
    ensures ("&amp;" + u)[1..] == "amp;" + u
    ensures "&amp;" + ("amp;" + u) == "&amp;amp;" + u
  {
  }

  lemma SanitizeEscapedAmpersand(t: string, e: string)
    requires t != [] && t[0] == '&'
    requires forall i :: 1 <= i < |t| ==> IsPlainChar(t[i])
    requires e == "&amp;" + t[1..]
    ensures SanitizeInput(e) == "&amp;amp;" + t[1..]
  {
    EscapedTailFacts(t, e);
    SanitizeAmpersandLead(e);
    AmpEntityTail(t[1..]);
  }

  /** Sanitizing is not idempotent: an ampersand is encoded again on every
      pass, so a value that sanitizing already produced changes when it is
      sanitized once more. */
  lemma SanitizeEncodesAmpersandAgain(t: string)
    requires t != [] && t[0] == '&'
    requires forall i :: 1 <= i < |t| ==> IsPlainChar(t[i])
    ensures SanitizeInput(t) == "&amp;" + t[1..]
    ensures SanitizeInput(SanitizeInput(t)) == "&amp;amp;" + t[1..]
    ensures SanitizeInput(SanitizeInput(t)) != SanitizeInput(t)
  {
    SanitizeAmpersandLead(t);
    SanitizeEscapedAmpersand(t, SanitizeInput(t));
  }

  lemma RemoveAllStep(s: string, needle: string)
    requires |needle| > 0 && |s| >= |needle|
    ensures needle <= s ==> RemoveAll(s, needle) == RemoveAll(s[|needle|..], needle)
    ensures !(needle <= s) ==> RemoveAll(s, needle) == [s[0]] + RemoveAll(s[1..], needle)
  {
  }

  lemma NestedEncodedBreak(s: string)
    requires IsNestedBreak(s)
    ensures RemoveAll(s, "%0a") == s[..2] + [s[5]]
  {
    var n := "%0a";
    assert !(n <= s) by { assert s[2] != n[2]; }
    RemoveAllStep(s, n);
    var s1 := s[1..];
    assert !(n <= s1) by { assert s1[0] != n[0]; }
    RemoveAllStep(s1, n);
    var s2 := s1[1..];
    assert n <= s2;
    RemoveAllStep(s2, n);
    assert |s2[3..]| == 1;
    assert RemoveAll(s2[3..], n) == s2[3..];
  }

  predicate IsNestedBreak(s: string) {
    |s| == 6 && s[0] == '%' && s[1] == '0' && s[2] == '%' && s[3] == '0' && s[4] == 'a' && s[5] == 'a'
  }

  lemma NestedBreakIsPlain(s: string)
    requires IsNestedBreak(s)
    ensures !IsTrimmable(s[0]) && !IsTrimmable(s[|s| - 1])
    ensures IsAscii(s) && '\\' !in s && EscapeAll(s) == s
  {
    forall i | 0 <= i < |s| ensures !IsMarkupChar(s[i]) && s[i] != '&' && (s[i] as int) < 0x80 && s[i] != '\\' {
    }
    EscapeAllPlain(s);
  }

  /** A value that trimming, stripslashes and escaping all leave alone
      meets only the header-injection guard. */
  lemma SanitizeUnescaped(s: string)
    requires s != [] && !IsTrimmable(s[0]) && !IsTrimmable(s[|s| - 1])
    requires IsAscii(s) && '\\' !in s && EscapeAll(s) == s
    ensures SanitizeInput(s) == RemoveHeaderBreaks(s)
  {
    SanitizePlainStages(s);
  }

  lemma NestedBreakFirstPasses(s: string)
    requires IsNestedBreak(s)
    ensures RemoveAll(RemoveAll(s, "\r"), "\n") == s
  {
    assert '\r' !in s && '\n' !in s;
  }

  lemma EncodedBreakLastPass(left: string)
    requires |left| == 3 && left[0] == '%' && left[1] == '0' && left[2] == 'a'
    ensures RemoveAll(left, "%0d") == left
  {
    var d := "%0d";
    assert !(d <= left) by { assert left[2] != d[2]; }
    RemoveAllStep(left, d);
    assert RemoveAll(left[1..], d) == left[1..];
  }

  lemma NestedBreakGuard(s: string)
    requires IsNestedBreak(s)
    ensures RemoveHeaderBreaks(s) == s[..2] + [s[5]]
  {
    NestedBreakFirstPasses(s);
    NestedEncodedBreak(s);
    EncodedBreakLastPass(s[..2] + [s[5]]);
  }

  lemma SanitizeNestedBreak(s: string)
    requires IsNestedBreak(s)
    ensures SanitizeInput(s) == s[..2] + [s[5]]
  {
    NestedBreakIsPlain(s);
    SanitizeUnescaped(s);
    NestedBreakGuard(s);
  }

  lemma NestedBreakRemainder(s: string)
    requires IsNestedBreak(s)
    ensures s[..2] + [s[5]] == "%0a"
  {
  }

  /** Deleting "%0a" can join the pieces around it into a new "%0a": the
      input "%0%0aa" comes out as "%0a". */
  lemma SanitizeCanLeaveEncodedBreak(s: string)
    requires IsNestedBreak(s)
    ensures SanitizeInput(s) == "%0a"
  {
    SanitizeNestedBreak(s);
    NestedBreakRemainder(s);
  }

  // ---------------------------------------------------------------------
  // validatePhone
  // ---------------------------------------------------------------------

  /** What preg_replace('/[\s\-]/', '', ...) deletes: the PCRE whitespace
      class (space, tab, LF, VT, FF, CR) and the hyphen. */
  predicate IsPhoneFiller(c: char) {
    c == ' ' || c == '\t' || c == '\n' || c == '\U{0B}' || c == '\U{0C}' || c == '\r' || c == '-'
  }

  function DropFillers(s: string): (r: string)
    ensures |r| <= |s|
    ensures forall i :: 0 <= i < |r| ==> !IsPhoneFiller(r[i])
  {
    if s == [] then []
    else (if IsPhoneFiller(s[0]) then [] else [s[0]]) + DropFillers(s[1..])
  }

  /** validatePhone: after the fillers are deleted, exactly ten ASCII digits
      remain (`^[0-9]{10}$`; the `$` could also match before a final LF, but
      no LF survives the deletion). */
  predicate ValidatePhone(phone: string) {
    var digits := DropFillers(phone);
    |digits| == 10 && AllDigits(digits)
  }

  function CountDigits(s: string): nat {
    if s == [] then 0 else (if IsDigit(s[0]) then 1 else 0) + CountDigits(s[1..])
  }

  predicate OnlyDigitsAndFillers(s: string) {
    forall i :: 0 <= i < |s| ==> IsDigit(s[i]) || IsPhoneFiller(s[i])
  }

  lemma {:induction false} DropFillersFacts(s: string)
    ensures AllDigits(DropFillers(s)) <==> OnlyDigitsAndFillers(s)
    ensures OnlyDigitsAndFillers(s) ==> |DropFillers(s)| == CountDigits(s)
    decreases |s|
  {
    if s != [] {
      DropFillersFacts(s[1..]);
      var head := if IsPhoneFiller(s[0]) then [] else [s[0]];
      var tail := DropFillers(s[1..]);
      assert DropFillers(s) == head + tail;
      AllDigitsConcat(head, tail);
      assert OnlyDigitsAndFillers(s) <==> (IsDigit(s[0]) || IsPhoneFiller(s[0])) && OnlyDigitsAndFillers(s[1..]) by {
        if (IsDigit(s[0]) || IsPhoneFiller(s[0])) && OnlyDigitsAndFillers(s[1..]) {
          forall i | 0 <= i < |s| ensures IsDigit(s[i]) || IsPhoneFiller(s[i]) {
            if i > 0 { assert s[i] == s[1..][i - 1]; }
          }
        }
      }
    }
  }

  /** A phone passes exactly when it is made of digits, whitespace and
      hyphens only and holds ten digits. */
  lemma ValidatePhoneSpec(phone: string)
    ensures ValidatePhone(phone) <==> OnlyDigitsAndFillers(phone) && CountDigits(phone) == 10
  {
    DropFillersFacts(phone);
  }
}
