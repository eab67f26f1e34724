/** The mail configuration: a `.env` file read line by line into the
    process environment, then one setting per name with a fixed default
    for anything unset or falsy. */
module MailConfig {
  import opened Text
  import opened PhpStrings

  // ---------------------------------------------------------------------
  // One line of the .env file
  // ---------------------------------------------------------------------

  /** What one line contributes: nothing, or one assignment. */
  datatype Entry = Skip | Assign(key: string, value: string)

  /** A comment: the line, trimmed, starts with `#`. */
  predicate IsComment(line: string) {
    var t := Trim(line);
    t != [] && t[0] == '#'
  }

  /** Comments and lines without `=` are skipped; any other line is split at
      its first `=` and both halves are trimmed. */
  function ParseLine(line: string): (e: Entry)
    ensures e.Assign? <==> !IsComment(line) && '=' in line
    ensures e.Assign? ==> '=' !in e.key
  {
    if IsComment(line) || '=' !in line then Skip
    else
      var i := IndexOf(line, '=');
      TrimIsInfix(line[..i]);
      Assign(Trim(line[..i]), Trim(line[i + 1..]))
  }

  /** Trimming keeps a middle slice, so it never brings in a byte. */
  lemma TrimIsInfix(s: string)
    ensures forall c :: c in Trim(s) ==> c in s
  {
    TrimSpec(s);
    var r := Trim(s);
    var lo := LeadEnd(s, 0);
    forall c | c in r ensures c in s {
      var j :| 0 <= j < |r| && r[j] == c;
      assert s[lo + j] == c;
    }
  }

  /** A line splits at its first `=`: a value may itself hold `=`. */
  lemma {:induction false} ParseSplitsAtFirstEquals(key: string, value: string)
    requires '=' !in key && !IsComment(key + "=" + value)
    ensures ParseLine(key + "=" + value) == Assign(Trim(key), Trim(value))
  {
    var line := key + "=" + value;
    IndexOfAfterPrefix(key, '=', value);
    assert line[..|key|] == key;
    assert line[|key| + 1..] == value;
  }

  lemma CommentIsSkipped(line: string)
    requires IsComment(line)
    ensures ParseLine(line) == Skip
  {
  }

  lemma LineWithoutEqualsIsSkipped(line: string)
    requires '=' !in line
    ensures ParseLine(line) == Skip
  {
  }

  /** An empty line or one of whitespace only is never an assignment. */
  lemma BlankLineIsSkipped(line: string)
    requires forall i :: 0 <= i < |line| ==> IsTrimmable(line[i])
    ensures ParseLine(line) == Skip
  {
    forall i | 0 <= i < |line| ensures line[i] != '=' {
      assert IsTrimmable(line[i]);
    }
  }

  // ---------------------------------------------------------------------
  // The load loop
  // ---------------------------------------------------------------------

  function ApplyEntry(vars: map<string, string>, e: Entry): map<string, string> {
    match e
    case Skip => vars
    case Assign(k, v) => vars[k := v]
  }

  /** The entries of a file, one per line. */
  function Parsed(lines: seq<string>): (es: seq<Entry>)
    ensures |es| == |lines|
    ensures forall i :: 0 <= i < |lines| ==> es[i] == ParseLine(lines[i])
    decreases |lines|
  {
    if lines == [] then [] else Parsed(lines[..|lines| - 1]) + [ParseLine(lines[|lines| - 1])]
  }

  /** The variables after applying `es` in order, starting from `vars`. */
  function ApplyEntries(vars: map<string, string>, es: seq<Entry>): map<string, string>
    decreases |es|
  {
    if es == [] then vars
    else ApplyEntry(ApplyEntries(vars, es[..|es| - 1]), es[|es| - 1])
  }

  /** The variables after processing `lines` in order, starting from `vars`. */
  function ApplyLines(vars: map<string, string>, lines: seq<string>): map<string, string> {
    ApplyEntries(vars, Parsed(lines))
  }

  lemma ApplyLinesStep(vars: map<string, string>, lines: seq<string>, i: nat)
    requires i < |lines|
    ensures ApplyLines(vars, lines[..i + 1]) == ApplyEntry(ApplyLines(vars, lines[..i]), ParseLine(lines[i]))
  {
    var es := Parsed(lines[..i + 1]);
    assert es[..i] == Parsed(lines[..i]);
    assert es[i] == ParseLine(lines[i]);
  }

  /** The value of the last entry that assigns `key`, searching from the end. */
  function LastIn(es: seq<Entry>, key: string): Option<string>
    decreases |es|
  {
    if es == [] then None
    else
      var e := es[|es| - 1];
      if e.Assign? && e.key == key then Some(e.value)
      else LastIn(es[..|es| - 1], key)
  }

  /** Reference reading: the value of the last line that assigns `key`. */
  function LastAssignment(lines: seq<string>, key: string): Option<string> {
    LastIn(Parsed(lines), key)
  }

  /** Later entries win: a name ends up with the value of the last entry that
      assigns it, and keeps its earlier value when no entry does. */
  lemma {:induction false} LaterEntriesWin(vars: map<string, string>, es: seq<Entry>, key: string)
    ensures LastIn(es, key).Some? ==>
      key in ApplyEntries(vars, es) && ApplyEntries(vars, es)[key] == LastIn(es, key).value
    ensures LastIn(es, key).None? ==>
      (key in ApplyEntries(vars, es) <==> key in vars) &&
      (key in vars ==> ApplyEntries(vars, es)[key] == vars[key])
    decreases |es|
  {
    if es != [] {
      LaterEntriesWin(vars, es[..|es| - 1], key);
    }
  }

  /** Later lines win: a name ends up with the value of the last line that
      assigns it, and keeps its earlier value when no line does. */
  lemma LaterLinesWin(vars: map<string, string>, lines: seq<string>, key: string)
    ensures LastAssignment(lines, key).Some? ==>
      key in ApplyLines(vars, lines) && ApplyLines(vars, lines)[key] == LastAssignment(lines, key).value
    ensures LastAssignment(lines, key).None? ==>
      (key in ApplyLines(vars, lines) <==> key in vars) &&
      (key in vars ==> ApplyLines(vars, lines)[key] == vars[key])
  {
    LaterEntriesWin(vars, Parsed(lines), key);
  }

  /** The process environment (what getenv() reads) and the `$_ENV` array,
      both written by the load loop. */
  class Environment {
    var vars: map<string, string>
    var envArray: map<string, string>

    constructor(initial: map<string, string>)
      ensures vars == initial && envArray == map[]
    {
      vars := initial;
      envArray := map[];
    }

    /** Loads the `.env` file when it exists: `file` is its list of lines,
        or None when there is no such file. */
    method LoadDotEnv(file: Option<seq<string>>)
      modifies this
      ensures file.None? ==> vars == old(vars) && envArray == old(envArray)
      ensures file.Some? ==> vars == ApplyLines(old(vars), file.value)
      ensures file.Some? ==> envArray == ApplyLines(old(envArray), file.value)
    {
      if file.Some? {
        var lines := file.value;
        var i := 0;
        while i < |lines|
          invariant 0 <= i <= |lines|
          invariant vars == ApplyLines(old(vars), lines[..i])
          invariant envArray == ApplyLines(old(envArray), lines[..i])
        {
          ApplyLinesStep(old(vars), lines, i);
          ApplyLinesStep(old(envArray), lines, i);
          var entry := ParseLine(lines[i]);
          if entry.Assign? {
            vars := vars[entry.key := entry.value];
            envArray := envArray[entry.key := entry.value];
          }
          i := i + 1;
        }
        assert lines[..|lines|] == lines;
      }
    }
  }

  // ---------------------------------------------------------------------
  // The settings
  // ---------------------------------------------------------------------

  datatype Settings = Settings(
    smtpHost: string,
    smtpPort: int,
    smtpUsername: string,
    smtpPassword: string,
    smtpSecure: string,
    smtpAuth: bool,
    mailFromEmail: string,
    mailFromName: string,
    adminEmail: string,
    mailCharset: string,
    companyName: string,
    companyPhone: string,
    companyEmail: string,
    companyAddress: string,
    companyWebsite: string)

  /** getenv($key) is false, '' or '0': the `?:` takes its right side. */
  predicate Unset(vars: map<string, string>, key: string) {
    key !in vars || vars[key] == "" || vars[key] == "0"
  }

  /** getenv($key) ?: $default. */
  function OrDefault(vars: map<string, string>, key: string, default: string): string
  {
    if key in vars && !IsFalsy(vars[key]) then vars[key] else default
  }

  /** (int)(getenv('SMTP_PORT') ?: 465). */
  function PortSetting(vars: map<string, string>): int {
    if "SMTP_PORT" in vars && !IsFalsy(vars["SMTP_PORT"]) then IntCast(vars["SMTP_PORT"]) else 465
  }

  const DefaultCompanyAddress: string :=
    "29-29-10/B, Moulana St, Eluru Road, Opp. Canara Bank, Arundalpet, Governor Peta, Vijayawada, Andhra Pradesh 520002"

  /** The constants the mail configuration defines from the environment. */
  function SettingsFrom(vars: map<string, string>): (s: Settings)
    ensures s.smtpAuth && s.mailCharset == "UTF-8"
    ensures s.smtpHost == if Unset(vars, "SMTP_HOST") then "localhost" else vars["SMTP_HOST"]
    ensures s.smtpPort == if Unset(vars, "SMTP_PORT") then 465 else IntCast(vars["SMTP_PORT"])
    ensures s.smtpUsername == if Unset(vars, "SMTP_USERNAME") then "" else vars["SMTP_USERNAME"]
    ensures s.smtpPassword == if Unset(vars, "SMTP_PASSWORD") then "" else vars["SMTP_PASSWORD"]
    ensures s.smtpSecure == if Unset(vars, "SMTP_SECURE") then "ssl" else vars["SMTP_SECURE"]
    ensures s.mailFromEmail == if Unset(vars, "MAIL_FROM_EMAIL") then "" else vars["MAIL_FROM_EMAIL"]
    ensures s.mailFromName == if Unset(vars, "MAIL_FROM_NAME") then "Website Contact Form" else vars["MAIL_FROM_NAME"]
    ensures s.adminEmail == if Unset(vars, "ADMIN_EMAIL") then "" else vars["ADMIN_EMAIL"]
    ensures s.companyName == if Unset(vars, "COMPANY_NAME") then "Indian Pest Control" else vars["COMPANY_NAME"]
    ensures s.companyPhone == if Unset(vars, "COMPANY_PHONE") then "+91 8662436234" else vars["COMPANY_PHONE"]
    ensures s.companyEmail == if Unset(vars, "COMPANY_EMAIL") then "support@indianpestcontrol.com" else vars["COMPANY_EMAIL"]
    ensures s.companyAddress == if Unset(vars, "COMPANY_ADDRESS") then DefaultCompanyAddress else vars["COMPANY_ADDRESS"]
    ensures s.companyWebsite == if Unset(vars, "COMPANY_WEBSITE") then "https://www.indianpestcontrol.com" else vars["COMPANY_WEBSITE"]
  {
    Settings(
      smtpHost := OrDefault(vars, "SMTP_HOST", "localhost"),
      smtpPort := PortSetting(vars),
      smtpUsername := OrDefault(vars, "SMTP_USERNAME", ""),
      smtpPassword := OrDefault(vars, "SMTP_PASSWORD", ""),
      smtpSecure := OrDefault(vars, "SMTP_SECURE", "ssl"),
      smtpAuth := true,
      mailFromEmail := OrDefault(vars, "MAIL_FROM_EMAIL", ""),
      mailFromName := OrDefault(vars, "MAIL_FROM_NAME", "Website Contact Form"),
      adminEmail := OrDefault(vars, "ADMIN_EMAIL", ""),
      mailCharset := "UTF-8",
      companyName := OrDefault(vars, "COMPANY_NAME", "Indian Pest Control"),
      companyPhone := OrDefault(vars, "COMPANY_PHONE", "+91 8662436234"),
      companyEmail := OrDefault(vars, "COMPANY_EMAIL", "support@indianpestcontrol.com"),
      companyAddress := OrDefault(vars, "COMPANY_ADDRESS", DefaultCompanyAddress),
      companyWebsite := OrDefault(vars, "COMPANY_WEBSITE", "https://www.indianpestcontrol.com"))
  }

  /** With nothing set, every setting takes its documented default. */
  lemma DefaultSettings()
    ensures SettingsFrom(map[]) == Settings(
      "localhost", 465, "", "", "ssl", true, "", "Website Contact Form", "",
      "UTF-8", "Indian Pest Control", "+91 8662436234",
      "support@indianpestcontrol.com", DefaultCompanyAddress,
      "https://www.indianpestcontrol.com")
  {
  }

  /** A port of '0' or '' is falsy and falls back to 465; a port spelled in
      decimal is read back as its number. */
  lemma PortFallback(vars: map<string, string>, n: nat)
    ensures "SMTP_PORT" in vars && IsFalsy(vars["SMTP_PORT"]) ==> PortSetting(vars) == 465
    ensures n > 0 && "SMTP_PORT" in vars && vars["SMTP_PORT"] == DecimalString(n) ==> PortSetting(vars) == n
  {
    if n > 0 && "SMTP_PORT" in vars && vars["SMTP_PORT"] == DecimalString(n) {
      var d := DecimalString(n);
      assert d[0] != '0';
      IntCastOfDecimal(n);
    }
  }

  /** A set, truthy variable wins over the default; an empty or '0' one does not. */
  lemma SettingFallback(vars: map<string, string>, key: string, default: string)
    ensures key in vars && vars[key] != "" && vars[key] != "0" ==> OrDefault(vars, key, default) == vars[key]
    ensures key in vars && vars[key] == "0" ==> OrDefault(vars, key, default) == default
  {
  }
}
