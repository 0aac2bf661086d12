/** packages/dashboard/src/telegram-config.ts: the parser and printer of the settings file, and saving two
    settings in it. */
module EnvFile {
  import opened Options

  /** A Map in insertion order. */
  type Entries = seq<(string, string)>

  // ---- Strings -----------------------------------------------------------------------------------------

  function IndexOf(s: string, c: char): (i: nat)
    ensures i <= |s| && (i < |s| ==> s[i] == c) && c !in s[..i]
  {
    if s == "" || s[0] == c then 0
    else
      var i := IndexOf(s[1..], c);
      assert s[..i + 1] == [s[0]] + s[1..][..i];
      i + 1
  }

  function Split(s: string): (r: seq<string>)
    ensures |r| > 0 && forall i :: 0 <= i < |r| ==> '\n' !in r[i]
    decreases |s|
  {
    var i := IndexOf(s, '\n');
    assert s[..|s|] == s;
    if i == |s| then [s] else [s[..i]] + Split(s[i + 1..])
  }

  function JoinLines(lines: seq<string>): string {
    if lines == [] then "" else if |lines| == 1 then lines[0] else lines[0] + "\n" + JoinLines(lines[1..])
  }

  /** The characters that trim removes. */
  predicate Space(c: char) {
    || '\t' <= c <= '\r' || c == ' ' || c == '\U{A0}' || c == '\U{1680}' || '\U{2000}' <= c <= '\U{200A}'
    || c == '\U{2028}' || c == '\U{2029}' || c == '\U{202F}' || c == '\U{205F}' || c == '\U{3000}' || c == '\U{FEFF}'
  }

  predicate Trimmed(s: string) { s == "" || (!Space(s[0]) && !Space(s[|s| - 1])) }

  function TrimStart(s: string): (r: string)
    ensures r == "" || !Space(r[0])
    ensures forall c :: c in r ==> c in s
  {
    if s != "" && Space(s[0]) then TrimStart(s[1..]) else s
  }

  function TrimEnd(s: string): (r: string)
    ensures r == "" || !Space(r[|r| - 1])
    ensures r <= s
  {
    if s != "" && Space(s[|s| - 1]) then TrimEnd(s[..|s| - 1]) else s
  }

  function Trim(s: string): (r: string)
    ensures Trimmed(r) && (forall c :: c in r ==> c in s) && (Trimmed(s) ==> r == s)
  {
    TrimEnd(TrimStart(s))
  }

  predicate AllSpace(s: string) { forall i :: 0 <= i < |s| ==> Space(s[i]) }

  lemma {:induction false} TrimStartIs(a: string, r: string)
    requires AllSpace(a) && (r == "" || !Space(r[0]))
    ensures TrimStart(a + r) == r
  {
    if a == "" {
      assert a + r == r;
    } else {
      assert (a + r)[1..] == a[1..] + r;
      TrimStartIs(a[1..], r);
    }
  }

  lemma {:induction false} TrimEndIs(r: string, b: string)
    requires AllSpace(b) && (r == "" || !Space(r[|r| - 1]))
    ensures TrimEnd(r + b) == r
  {
    if b == "" {
      assert r + b == r;
    } else {
      assert (r + b)[..|r + b| - 1] == r + b[..|b| - 1];
      TrimEndIs(r, b[..|b| - 1]);
    }
  }

  /** Trimming removes the spaces around a text and nothing else. */
  lemma TrimIs(a: string, r: string, b: string)
    requires AllSpace(a) && Trimmed(r) && AllSpace(b)
    ensures Trim(a + r + b) == r
  {
    if r == "" {
      assert a + r + b == (a + b) + "";
      TrimStartIs(a + b, "");
    } else {
      assert a + r + b == a + (r + b);
      TrimStartIs(a, r + b);
      TrimEndIs(r, b);
    }
  }

  /** The parts of a text between its line breaks. */
  lemma {:induction false} SplitIs(s: string)
    ensures JoinLines(Split(s)) == s
    decreases |s|
  {
    var i := IndexOf(s, '\n');
    if i < |s| {
      SplitIs(s[i + 1..]);
      assert s == s[..i] + "\n" + s[i + 1..];
      assert Split(s)[1..] == Split(s[i + 1..]);
    }
  }

  // ---- Entries -------------------------------------------------------------------------------------------

  predicate Letter(c: char) { 'A' <= c <= 'Z' || c == '_' }

  /** A capital or an underscore, then capitals, digits and underscores. */
  predicate ValidKey(k: string) {
    k != "" && Letter(k[0]) && forall i :: 0 <= i < |k| ==> Letter(k[i]) || '0' <= k[i] <= '9'
  }

  function ParseLine(line: string): Option<(string, string)> {
    var separator := IndexOf(line, '=');
    if separator < 1 || separator == |line| then None
    else
      var key := Trim(line[..separator]);
      if ValidKey(key) then Some((key, Trim(line[separator + 1..]))) else None
  }

  /** A key that is there keeps its place. */
  function Set(m: Entries, k: string, v: string): Entries {
    if m == [] then [(k, v)]
    else if m[0].0 == k then [(k, v)] + m[1..]
    else [m[0]] + Set(m[1..], k, v)
  }

  function Lookup(m: Entries, k: string): Option<string> {
    if m == [] then None else if m[0].0 == k then Some(m[0].1) else Lookup(m[1..], k)
  }

  lemma {:induction false} SetChangesOnlyKey(m: Entries, k: string, v: string, other: string)
    ensures Lookup(Set(m, k, v), other) == if other == k then Some(v) else Lookup(m, other)
  {
    if m != [] { SetChangesOnlyKey(m[1..], k, v, other); }
  }

  function ParseLines(lines: seq<string>): Entries {
    if lines == [] then []
    else
      var m := ParseLines(lines[..|lines| - 1]);
      var entry := ParseLine(lines[|lines| - 1]);
      if entry.Some? then Set(m, entry.value.0, entry.value.1) else m
  }

  function Parse(text: string): Entries { ParseLines(Split(text)) }

  function Lines(m: Entries): seq<string> {
    seq(|m|, i requires 0 <= i < |m| => m[i].0 + "=" + m[i].1)
  }

  function EnvSource(m: Entries): string { JoinLines(Lines(m)) + "\n" }

  // ---- Well-formed entries -------------------------------------------------------------------------------------

  predicate Clean(v: string) { Trimmed(v) && '\n' !in v }

  ghost predicate Keyed(m: Entries) {
    && (forall i :: 0 <= i < |m| ==> ValidKey(m[i].0))
    && (forall i, j :: 0 <= i < j < |m| ==> m[i].0 != m[j].0)
  }

  ghost predicate AllClean(m: Entries) { forall i :: 0 <= i < |m| ==> Clean(m[i].1) }

  lemma {:induction false} SetNewKey(m: Entries, k: string, v: string)
    requires forall i :: 0 <= i < |m| ==> m[i].0 != k
    ensures Set(m, k, v) == m + [(k, v)]
  {
    if m != [] { SetNewKey(m[1..], k, v); }
  }

  /** Setting a key changes the value there, or appends. */
  lemma {:induction false} SetAt(m: Entries, k: string, v: string)
    ensures var r := Set(m, k, v);
            && |m| <= |r| <= |m| + 1
            && (forall i :: 0 <= i < |m| ==> r[i].0 == m[i].0 && (r[i].1 == m[i].1 || (m[i].0 == k && r[i].1 == v)))
            && (|r| > |m| ==> r[|m|] == (k, v) && forall i :: 0 <= i < |m| ==> m[i].0 != k)
  {
    if m != [] && m[0].0 != k {
      SetAt(m[1..], k, v);
      var r := Set(m[1..], k, v);
      forall i | 0 <= i < |m| ensures Set(m, k, v)[i].0 == m[i].0
                                      && (Set(m, k, v)[i].1 == m[i].1 || (m[i].0 == k && Set(m, k, v)[i].1 == v)) {
        if i > 0 { assert Set(m, k, v)[i] == r[i - 1] && m[i] == m[1..][i - 1]; }
      }
      if |r| > |m[1..]| {
        forall i | 0 <= i < |m| ensures m[i].0 != k {
          if i > 0 { assert m[i] == m[1..][i - 1]; }
        }
      }
    }
  }

  lemma SetKeeps(m: Entries, k: string, v: string)
    requires Keyed(m) && ValidKey(k)
    ensures Keyed(Set(m, k, v)) && (AllClean(m) && Clean(v) ==> AllClean(Set(m, k, v)))
  {
    SetAt(m, k, v);
  }

  // ---- Parsing -----------------------------------------------------------------------------------------------------

  lemma FirstIndex(s: string, c: char, n: nat)
    requires n < |s| && s[n] == c && c !in s[..n]
    ensures IndexOf(s, c) == n
  {
    var i := IndexOf(s, c);
    assert forall j :: 0 <= j < n ==> s[j] == s[..n][j];
    assert forall j :: 0 <= j < i ==> s[j] == s[..i][j];
  }

  lemma {:induction false} ParsedIsWellFormed(lines: seq<string>)
    requires forall i :: 0 <= i < |lines| ==> '\n' !in lines[i]
    ensures Keyed(ParseLines(lines)) && AllClean(ParseLines(lines))
  {
    if lines != [] {
      var n := |lines| - 1;
      ParsedIsWellFormed(lines[..n]);
      var entry := ParseLine(lines[n]);
      if entry.Some? {
        var value := lines[n][IndexOf(lines[n], '=') + 1..];
        assert '\n' !in Trim(value) by { assert forall c :: c in value ==> c in lines[n]; }
        SetKeeps(ParseLines(lines[..n]), entry.value.0, entry.value.1);
      }
    }
  }

  /** A printed entry parses as itself, but for spaces around its value. */
  lemma EntryParses(k: string, v: string)
    requires ValidKey(k)
    ensures ParseLine(k + "=" + v) == Some((k, Trim(v)))
  {
    var line := k + "=" + v;
    assert line[..|k|] == k && line[|k| + 1..] == v;
    assert '=' !in k;
    FirstIndex(line, '=', |k|);
    assert Trimmed(k);
  }

  /** What a line says: the text before its first equals sign is the key if it is a valid one, and the rest is
      the value, without the spaces around them; any other line says nothing. */
  lemma LineSays(k: string, v: string)
    requires '=' !in k
    ensures ParseLine(k) == None
    ensures ParseLine(k + "=" + v) == if ValidKey(Trim(k)) then Some((Trim(k), Trim(v))) else None
  {
    var line := k + "=" + v;
    assert line[..|k|] == k && line[|k| + 1..] == v;
    FirstIndex(line, '=', |k|);
  }

  /** The line sets this key. */
  predicate Sets(line: string, k: string) { ParseLine(line).Some? && ParseLine(line).value.0 == k }

  /** A key has the value of the last line that sets it, and is missing if none does. */
  lemma {:induction false} LastLineWins(lines: seq<string>, k: string, n: nat)
    requires forall i :: 0 <= i < |lines| && Sets(lines[i], k) ==> i <= n < |lines|
    requires n < |lines| ==> Sets(lines[n], k)
    ensures Lookup(ParseLines(lines), k) == if n < |lines| then Some(ParseLine(lines[n]).value.1) else None
  {
    if lines != [] {
      var last := |lines| - 1;
      var m, entry := ParseLines(lines[..last]), ParseLine(lines[last]);
      if entry.Some? { SetChangesOnlyKey(m, entry.value.0, entry.value.1, k); }
      if n != last {
        assert !Sets(lines[last], k);
        assert forall i :: 0 <= i < last ==> lines[..last][i] == lines[i];
        LastLineWins(lines[..last], k, n);
      }
    }
  }

  lemma SplitLine(line: string, rest: string)
    requires '\n' !in line
    ensures Split(line + "\n" + rest) == [line] + Split(rest)
  {
    var s := line + "\n" + rest;
    assert s[..|line|] == line && s[|line| + 1..] == rest;
    FirstIndex(s, '\n', |line|);
  }

  lemma Associate<T>(a: seq<T>, b: seq<T>, c: seq<T>)
    ensures a + b + c == a + (b + c)
  {
  }

  lemma {:induction false} SplitJoined(lines: seq<string>)
    requires lines != [] && forall i :: 0 <= i < |lines| ==> '\n' !in lines[i]
    ensures Split(JoinLines(lines) + "\n") == lines + [""]
  {
    var first := lines[0];
    if |lines| == 1 {
      Associate(first, "\n", "");
      SplitLine(first, "");
    } else {
      var rest := JoinLines(lines[1..]);
      SplitJoined(lines[1..]);
      hide Split;
      assert JoinLines(lines) == first + "\n" + rest;
      Associate(first + "\n", rest, "\n");
      SplitLine(first, rest + "\n");
      Associate([first], lines[1..], [""]);
      assert lines == [first] + lines[1..];
    }
  }

  ghost predicate OneLineEach(m: Entries) { forall i :: 0 <= i < |m| ==> '\n' !in m[i].1 }

  function TrimAll(m: Entries): (r: Entries)
    ensures |r| == |m| && forall i :: 0 <= i < |m| ==> r[i] == (m[i].0, Trim(m[i].1))
  {
    seq(|m|, i requires 0 <= i < |m| => (m[i].0, Trim(m[i].1)))
  }

  lemma {:induction false} LinesParse(m: Entries)
    requires Keyed(m)
    ensures ParseLines(Lines(m)) == TrimAll(m)
  {
    hide ParseLine, ValidKey, Trim, Set;
    if m == [] {
      assert Lines(m) == [] && TrimAll(m) == [];
    } else {
      var n := |m| - 1;
      var (k, v) := m[n];
      LinesParse(m[..n]);
      assert Lines(m)[..n] == Lines(m[..n]);
      EntryParses(k, v);
      SetNewKey(TrimAll(m[..n]), k, Trim(v));
      assert TrimAll(m) == TrimAll(m[..n]) + [(k, Trim(v))];
    }
  }

  /** What printing entries without line breaks and parsing them again gives: the same, but for the spaces
      around values. */
  lemma PrintParses(m: Entries)
    requires Keyed(m) && OneLineEach(m)
    ensures Parse(EnvSource(m)) == TrimAll(m)
  {
    var lines := Lines(m);
    LinesParse(m);
    hide ParseLine, ParseLines, Trim, Split;
    if m == [] {
      SplitLine("", "");
      assert EnvSource(m) == "" + "\n" + "";
      NothingParsed("");
      NothingSplit("");
      BlankLine([]);
      BlankLine([""]);
      assert [] + [""] == [""] && [""] + [""] == ["", ""] && lines == [];
    } else {
      forall i | 0 <= i < |lines| ensures '\n' !in lines[i] { assert '\n' !in m[i].0; }
      SplitJoined(lines);
      BlankLine(lines);
    }
  }

  lemma CleanParses(m: Entries)
    requires Keyed(m) && AllClean(m)
    ensures Parse(EnvSource(m)) == m
  {
    PrintParses(m);
    assert TrimAll(m) == m;
  }

  lemma BlankLine(lines: seq<string>)
    ensures ParseLines(lines + [""]) == ParseLines(lines)
  {
    assert (lines + [""])[..|lines|] == lines;
  }

  /** Printing and parsing again gives the same entries if and only if every value is trimmed and has no
      line break. */
  lemma PrintParsesIffClean(m: Entries)
    requires Keyed(m)
    ensures Parse(EnvSource(m)) == m <==> AllClean(m)
  {
    ParsedIsWellFormed(Split(EnvSource(m)));
    if AllClean(m) { CleanParses(m); }
  }

  /** So what has been parsed once survives printing, whatever the text was. */
  lemma ParsePrintParse(text: string)
    ensures Parse(EnvSource(Parse(text))) == Parse(text)
  {
    ParsedIsWellFormed(Split(text));
    CleanParses(Parse(text));
  }

  // ---- Saving ----------------------------------------------------------------------------------------------------------

  const BOT_TOKEN := "THEOSES_TELEGRAM_BOT_TOKEN"

  const CHAT_ID := "THEOSES_TELEGRAM_CHAT_ID"

  lemma KeysAreValid()
    ensures ValidKey(BOT_TOKEN) && ValidKey(CHAT_ID) && BOT_TOKEN != CHAT_ID
  {
    assert |BOT_TOKEN| != |CHAT_ID|;
  }

  method ReadEnv(source: string) returns (values: Entries)
    ensures values == Parse(source)
  {
    var lines := Split(source);
    values := [];
    for n := 0 to |lines|
      invariant values == ParseLines(lines[..n])
    {
      var line := lines[n];
      assert lines[..n + 1][..n] == lines[..n];
      var separator := IndexOf(line, '=');
      if separator < 1 || separator == |line| { continue; }
      var key := Trim(line[..separator]);
      if ValidKey(key) { values := Set(values, key, Trim(line[separator + 1..])); }
    }
    assert lines[..|lines|] == lines;
  }

  predicate Numeric(id: string) {
    var digits := if id != "" && id[0] == '-' then id[1..] else id;
    digits != "" && '1' <= digits[0] <= '9' && forall i :: 0 <= i < |digits| ==> '0' <= digits[i] <= '9'
  }

  lemma NumericIsClean(id: string)
    requires Numeric(id)
    ensures Clean(id)
  {
    assert forall i :: 0 <= i < |id| ==> id[i] == '-' || '0' <= id[i] <= '9';
  }

  function Digit(d: nat): (c: char)
    requires d < 10
    ensures '0' <= c <= '9' && (c == '0' <==> d == 0)
  {
    "0123456789"[d]
  }

  /** A number written down. */
  function Decimal(n: int): string
    decreases if n < 0 then 1 - n else n
  {
    if n < 0 then "-" + Decimal(-n)
    else if n < 10 then [Digit(n)]
    else Decimal(n / 10) + [Digit(n % 10)]
  }

  predicate AllDigits(s: string) { forall i :: 0 <= i < |s| ==> '0' <= s[i] <= '9' }

  lemma {:induction false} DecimalIsNumeric(n: nat)
    requires n > 0
    ensures Decimal(n) != "" && Decimal(n)[0] != '0' && AllDigits(Decimal(n))
  {
    if n >= 10 { DecimalIsNumeric(n / 10); }
  }

  lemma DigitOf(c: char) returns (d: nat)
    requires '0' <= c <= '9'
    ensures d < 10 && c == Digit(d)
  {
    d := (c - '0') as int;
  }

  lemma {:induction false} NumericIsDecimal(s: string) returns (n: nat)
    requires s != "" && s[0] != '0' && AllDigits(s)
    ensures n > 0 && s == Decimal(n)
  {
    hide Digit;
    var last := |s| - 1;
    var d := DigitOf(s[last]);
    assert s == s[..last] + [Digit(d)];
    if last == 0 {
      n := d;
      assert s == [Digit(d)];
      DigitZero();
    } else {
      var m := NumericIsDecimal(s[..last]);
      n := 10 * m + d;
      assert n / 10 == m && n % 10 == d;
    }
  }

  lemma DigitZero()
    ensures Digit(0) == '0'
  {
  }

  lemma DecimalsAreAccepted(n: nat)
    requires n > 0
    ensures Numeric(Decimal(n)) && Numeric("-" + Decimal(n))
  {
    DecimalIsNumeric(n);
    hide Decimal;
    assert ("-" + Decimal(n))[1..] == Decimal(n);
  }

  lemma AcceptedIsDecimal(id: string) returns (n: int)
    requires Numeric(id)
    ensures n != 0 && id == Decimal(n)
  {
    if id[0] == '-' {
      n := NumericIsDecimal(id[1..]);
      n := -n;
      assert id == "-" + id[1..];
    } else {
      n := NumericIsDecimal(id);
    }
  }

  /** The ids that are accepted are exactly the numbers other than zero, written in the usual way. */
  lemma NumericIff(id: string)
    ensures Numeric(id) <==> exists n: int :: n != 0 && id == Decimal(n)
  {
    if Numeric(id) {
      var n := AcceptedIsDecimal(id);
    }
    if n: int :| n != 0 && id == Decimal(n) {
      DecimalsAreAccepted(if n < 0 then -n else n);
    }
  }

  /** The first text that is not empty. */
  function FirstOf(a: Option<string>, b: Option<string>): Option<string> {
    if a.Some? && a.value != "" then a else if b.Some? && b.value != "" then b else None
  }

  function TrimOption(s: Option<string>): Option<string> { if s.Some? then Some(Trim(s.value)) else None }

  predicate HasText(s: Option<string>) { s.Some? && s.value != "" }

  /** The value to save: the input, if it is not blank, or else what is in the file, or in the environment. */
  function Choose(input: Option<string>, stored: Option<string>, environment: Option<string>): (r: Option<string>)
    ensures r.Some? <==> HasText(TrimOption(input)) || HasText(stored) || HasText(environment)
    ensures r.Some? ==> r.value != ""
    ensures HasText(TrimOption(input)) ==> r == TrimOption(input)
    ensures !HasText(TrimOption(input)) && HasText(stored) ==> r == stored
    ensures !HasText(TrimOption(input)) && !HasText(stored) && HasText(environment) ==> r == environment
  {
    FirstOf(TrimOption(input), FirstOf(stored, environment))
  }

  /** What reading the saved file gives, if both values are there and the chat id is numeric: exactly the
      two settings are changed if the token is trimmed and has no line break, and otherwise they are not. */
  lemma SavedParsesIff(source: string, token: string, id: string)
    requires Numeric(id)
    ensures var saved := Set(Set(Parse(source), BOT_TOKEN, token), CHAT_ID, id);
            Parse(EnvSource(saved)) == saved <==> Clean(token)
  {
    KeysAreValid();
    NumericIsClean(id);
    ParsedIsWellFormed(Split(source));
    var first := Set(Parse(source), BOT_TOKEN, token);
    SetKeeps(Parse(source), BOT_TOKEN, token);
    SetKeeps(first, CHAT_ID, id);
    var saved := Set(first, CHAT_ID, id);
    PrintParsesIffClean(saved);
    SetChangesOnlyKey(Parse(source), BOT_TOKEN, token, BOT_TOKEN);
    SetChangesOnlyKey(first, CHAT_ID, id, BOT_TOKEN);
    LookupIsThere(saved, BOT_TOKEN);
  }

  /** The settings in a file that had none. */
  function Settings(token: string, id: string): Entries { Set(Set(Parse(""), BOT_TOKEN, token), CHAT_ID, id) }

  lemma SettingsAre(token: string, id: string)
    ensures Settings(token, id) == [(BOT_TOKEN, token), (CHAT_ID, id)]
  {
    KeysAreValid();
    NothingParsed("");
    var first := [(BOT_TOKEN, token)];
    assert Set([], BOT_TOKEN, token) == first && Set([], CHAT_ID, id) == [(CHAT_ID, id)];
    assert first[1..] == [];
    assert Set(first, CHAT_ID, id) == [first[0]] + Set(first[1..], CHAT_ID, id);
  }

  lemma NothingSplit(text: string)
    requires text == ""
    ensures Split(text) == [text]
  {
  }

  lemma NothingParsed(text: string)
    requires text == ""
    ensures Parse(text) == []
  {
    NothingSplit(text);
    BlankLine([]);
    assert [] + [text] == [text] && ParseLines([]) == [];
  }

  /** A token with a space around it is saved, and read back without it. */
  lemma SpacedToken(token: string)
    requires token == " x"
    ensures Lookup(Parse(EnvSource(Settings(token, "1"))), BOT_TOKEN) == Some("x")
  {
    assert Trim(token) == "x" by { assert token[1..] == "x" && TrimStart(token) == "x" && TrimEnd("x") == "x"; }
    KeysAreValid();
    hide Trim, Parse, EnvSource, ValidKey;
    var m := [(BOT_TOKEN, token), (CHAT_ID, "1")];
    SettingsAre(token, "1");
    PrintParses(m);
    FirstTwo(TrimAll(m));
  }

  lemma PlantedSource(first: string, k: string, v: string, id: string)
    ensures EnvSource([(BOT_TOKEN, first + "\n" + k + "=" + v), (CHAT_ID, id)])
            == EnvSource([(BOT_TOKEN, first), (k, v), (CHAT_ID, id)])
  {
    var token := first + "\n" + k + "=" + v;
    var m, planted := [(BOT_TOKEN, token), (CHAT_ID, id)], [(BOT_TOKEN, first), (k, v), (CHAT_ID, id)];
    var a, b, c := BOT_TOKEN + "=" + first, k + "=" + v, CHAT_ID + "=" + id;
    assert BOT_TOKEN + "=" + token == a + "\n" + b;
    assert Lines(m) == [a + "\n" + b, c] && Lines(planted) == [a, b, c];
    assert [a + "\n" + b, c][1..] == [c] && [a, b, c][1..] == [b, c] && [b, c][1..] == [c];
    assert JoinLines([b, c]) == b + "\n" + c;
    assert JoinLines(Lines(m)) == a + "\n" + b + "\n" + c;
    assert JoinLines(Lines(planted)) == a + "\n" + (b + "\n" + c);
  }

  /** A token with a line break plants whatever setting its second line spells. */
  lemma PlantedKey(first: string, k: string, v: string, id: string)
    requires ValidKey(k) && k != BOT_TOKEN && k != CHAT_ID && '\n' !in first + v + id
    ensures var saved := Settings(first + "\n" + k + "=" + v, id);
            && Lookup(saved, k) == None && Lookup(Parse(EnvSource(saved)), k) == Some(Trim(v))
            && Lookup(Parse(EnvSource(saved)), BOT_TOKEN) == Some(Trim(first))
  {
    hide Trim, Parse, EnvSource;
    var token := first + "\n" + k + "=" + v;
    var planted := [(BOT_TOKEN, first), (k, v), (CHAT_ID, id)];
    SettingsAre(token, id);
    PlantedSource(first, k, v, id);
    PlantedEntries(first, k, v, id);
    PrintParses(planted);
    FirstTwo(TrimAll(planted));
    FirstTwo([(BOT_TOKEN, token), (CHAT_ID, id)]);
  }

  lemma PlantedEntries(first: string, k: string, v: string, id: string)
    requires ValidKey(k) && k != BOT_TOKEN && k != CHAT_ID && '\n' !in first + v + id
    ensures Keyed([(BOT_TOKEN, first), (k, v), (CHAT_ID, id)]) && OneLineEach([(BOT_TOKEN, first), (k, v), (CHAT_ID, id)])
    ensures BOT_TOKEN != CHAT_ID
  {
    KeysAreValid();
    hide ValidKey, BOT_TOKEN, CHAT_ID;
    assert forall c :: c in first || c in v || c in id ==> c in first + v + id;
  }

  lemma FirstTwo(m: Entries)
    requires |m| >= 2
    ensures Lookup(m, m[0].0) == Some(m[0].1)
    ensures m[1].0 != m[0].0 ==> Lookup(m, m[1].0) == Some(m[1].1)
    ensures |m| == 2 ==> forall k :: k != m[0].0 && k != m[1].0 ==> Lookup(m, k) == None
  {
    assert m[1..][0] == m[1];
    if |m| == 2 {
      assert m[1..][1..] == [];
      forall k | k != m[0].0 && k != m[1].0 ensures Lookup(m, k) == None {
        assert Lookup(m[1..], k) == Lookup(m[1..][1..], k);
      }
    }
  }

  /** Such a token, concretely: the next reader finds a setting nobody has saved. */
  lemma PlantedAdmin(token: string, key: string, value: string)
    requires key == "ADMIN" && value == "y" && token == "x\nADMIN=y"
    ensures Lookup(Parse(EnvSource(Settings(token, "1"))), key) == Some(value)
  {
    assert ValidKey(key) && |key| != |BOT_TOKEN| && |key| != |CHAT_ID|;
    assert Trim(value) == value;
    assert "x" + "\n" + key + "=" + value == token;
    hide Trim, Parse, EnvSource, ValidKey, Settings, Lookup;
    PlantedKey("x", key, value, "1");
    assert Lookup(Parse(EnvSource(Settings("x" + "\n" + key + "=" + value, "1"))), key) == Some(Trim(value));
  }

  lemma {:induction false} LookupIsThere(m: Entries, k: string)
    ensures Lookup(m, k).Some? ==> exists i :: 0 <= i < |m| && m[i] == (k, Lookup(m, k).value)
  {
    if m != [] && m[0].0 != k {
      LookupIsThere(m[1..], k);
      if Lookup(m, k).Some? {
        var i :| 0 <= i < |m[1..]| && m[1..][i] == (k, Lookup(m[1..], k).value);
        assert m[i + 1] == (k, Lookup(m, k).value);
      }
    } else if m != [] {
      assert m[0] == (k, Lookup(m, k).value);
    }
  }

  /** The new text of the file, or None if a setting is missing or not valid. */
  method SaveTelegramConfig(source: string, botToken: Option<string>, ownerTelegramId: Option<string>,
                            envToken: Option<string>, envId: Option<string>)
    returns (saved: Option<string>)
    ensures var token := Choose(botToken, Lookup(Parse(source), BOT_TOKEN), envToken);
            var id := Choose(ownerTelegramId, Lookup(Parse(source), CHAT_ID), envId);
            && (saved.Some? <==> token.Some? && id.Some? && Numeric(id.value))
            && (saved.Some? ==>
                  saved.value == EnvSource(Set(Set(Parse(source), BOT_TOKEN, token.value), CHAT_ID, id.value)))
            && (saved.Some? && Clean(token.value) ==>
                  && Lookup(Parse(saved.value), BOT_TOKEN) == token && Lookup(Parse(saved.value), CHAT_ID) == id
                  && forall k :: k != BOT_TOKEN && k != CHAT_ID ==> Lookup(Parse(saved.value), k) == Lookup(Parse(source), k))
  {
    var values := ReadEnv(source);
    var token := Choose(botToken, Lookup(values, BOT_TOKEN), envToken);
    var id := Choose(ownerTelegramId, Lookup(values, CHAT_ID), envId);
    if token == None { return None; }
    if id == None || !Numeric(id.value) { return None; }
    var first := Set(values, BOT_TOKEN, token.value);
    var second := Set(first, CHAT_ID, id.value);
    saved := Some(EnvSource(second));
    SavedParsesIff(source, token.value, id.value);
    KeysAreValid();
    forall k ensures Lookup(second, k) == if k == CHAT_ID then id else if k == BOT_TOKEN then token else Lookup(values, k) {
      SetChangesOnlyKey(values, BOT_TOKEN, token.value, k);
      SetChangesOnlyKey(first, CHAT_ID, id.value, k);
    }
  }
}
