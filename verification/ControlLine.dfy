/** The control line of the helper (internal/mux/mux.go): a hand-written printer and parser of one
    JSON object, and the reader that takes the line off the stream. */
module ControlLine {
  import opened Wrappers
  import opened Streams

  const LINE_LIMIT := 4096

  type Int64 = n: int | -0x8000_0000_0000_0000 <= n < 0x8000_0000_0000_0000

  datatype ControlInfo = ControlInfo(version: string, goos: string, goarch: string, hostname: string, pid: Int64)

  datatype Error =
    | MalformedLine
    | MalformedField(field: string)
    | BadSyntax(text: string)
    | OutOfRange(text: string)
    | Ended(how: ReadError)
    | LineTooLong

  predicate Ascii(s: string) {
    forall i :: 0 <= i < |s| ==> s[i] as int < 0x80
  }

  predicate AsciiInfo(ci: ControlInfo) {
    Ascii(ci.version) && Ascii(ci.goos) && Ascii(ci.goarch) && Ascii(ci.hostname)
  }

  // ----- The printer.

  function HexDigit(n: nat): (c: char)
    requires n < 16
    ensures '0' <= c <= '9' || 'a' <= c <= 'f'
    ensures n < 10 ==> c as int == '0' as int + n
    ensures n >= 10 ==> c as int == 'a' as int + n - 10
  {
    "0123456789abcdef"[n]
  }

  const ALERT := 7 as char
  const BACKSPACE := 8 as char
  const VERTICAL_TAB := 11 as char
  const FORM_FEED := 12 as char

  function EscapeOf(c: char): (s: string)
    requires c as int < 0x80
  {
    if c == '"' || c == '\\' then ['\\', c]
    else if ' ' <= c <= '~' then [c]
    else if c == ALERT then "\\a"
    else if c == BACKSPACE then "\\b"
    else if c == FORM_FEED then "\\f"
    else if c == '\n' then "\\n"
    else if c == '\r' then "\\r"
    else if c == '\t' then "\\t"
    else if c == VERTICAL_TAB then "\\v"
    else ['\\', 'x', HexDigit(c as int / 16), HexDigit(c as int % 16)]
  }

  function Escaped(s: string): string
    requires Ascii(s)
  {
    if s == [] then [] else EscapeOf(s[0]) + Escaped(s[1..])
  }

  function Quote(s: string): string
    requires Ascii(s)
  {
    "\"" + Escaped(s) + "\""
  }

  function Digits(n: nat): (s: string)
    decreases n
  {
    if n < 10 then [HexDigit(n)] else Digits(n / 10) + [HexDigit(n % 10)]
  }

  function Decimal(n: int): string {
    if n < 0 then "-" + Digits(-n) else Digits(n)
  }

  function Field(key: string, raw: string): string {
    "\"" + key + "\":" + raw
  }

  /** The five fields of the line, in order. */
  function Fields(ci: ControlInfo): seq<string>
    requires AsciiInfo(ci)
  {
    [Field("version", Quote(ci.version)), Field("goos", Quote(ci.goos)), Field("goarch", Quote(ci.goarch)),
     Field("hostname", Quote(ci.hostname)), Field("pid", Decimal(ci.pid))]
  }

  function Joined(parts: seq<string>, sep: char): string
    requires parts != []
  {
    if |parts| == 1 then parts[0] else parts[0] + [sep] + Joined(parts[1..], sep)
  }

  /** The line without its newline. */
  function Line(ci: ControlInfo): string
    requires AsciiInfo(ci)
  {
    "{" + Joined(Fields(ci), ',') + "}"
  }

  function Encode(ci: ControlInfo): string
    requires AsciiInfo(ci)
  {
    Line(ci) + "\n"
  }

  // ----- The quote-aware scan.

  datatype Scan = Scan(inString: bool, escaped: bool)

  const OUTSIDE := Scan(false, false)
  const INSIDE := Scan(true, false)

  function Step(st: Scan, c: char): Scan {
    if st.escaped then st.(escaped := false)
    else if st.inString && c == '\\' then st.(escaped := true)
    else if c == '"' then st.(inString := !st.inString)
    else st
  }

  predicate AtSeparator(st: Scan, c: char, sep: char) {
    !st.escaped && !st.inString && c != '"' && c == sep
  }

  function IndexFrom(s: string, sep: char, st: Scan, i: nat): (r: Option<nat>)
    requires i <= |s|
    ensures r.Some? ==> i <= r.value < |s|
    decreases |s| - i
  {
    if i == |s| then None
    else if AtSeparator(st, s[i], sep) then Some(i)
    else IndexFrom(s, sep, Step(st, s[i]), i + 1)
  }

  function SplitFrom(s: string, sep: char, st: Scan, start: nat, i: nat): (parts: seq<string>)
    requires start <= i <= |s|
    ensures parts != []
    decreases |s| - i
  {
    if i == |s| then [s[start..]]
    else if AtSeparator(st, s[i], sep) then [s[start..i]] + SplitFrom(s, sep, st, i + 1, i + 1)
    else SplitFrom(s, sep, Step(st, s[i]), start, i + 1)
  }

  method IndexTopLevel(s: string, sep: char) returns (at: Option<nat>)
    requires sep != '"'
    ensures at == IndexFrom(s, sep, OUTSIDE, 0)
  {
    var inString, escaped := false, false;
    for i := 0 to |s|
      invariant IndexFrom(s, sep, OUTSIDE, 0) == IndexFrom(s, sep, Scan(inString, escaped), i)
    {
      var c := s[i];
      if escaped {
        escaped := false;
      } else if inString && c == '\\' {
        escaped := true;
      } else if c == '"' {
        inString := !inString;
      } else if !inString && c == sep {
        return Some(i);
      }
    }
    at := None;
  }

  method SplitTopLevel(s: string, sep: char) returns (parts: seq<string>)
    requires sep != '"'
    ensures parts == SplitFrom(s, sep, OUTSIDE, 0, 0)
  {
    parts := [];
    var start := 0;
    var inString, escaped := false, false;
    for i := 0 to |s|
      invariant start <= i
      invariant SplitFrom(s, sep, OUTSIDE, 0, 0) == parts + SplitFrom(s, sep, Scan(inString, escaped), start, i)
    {
      var c := s[i];
      if escaped {
        escaped := false;
      } else if inString && c == '\\' {
        escaped := true;
      } else if c == '"' {
        inString := !inString;
      } else if !inString && c == sep {
        parts := parts + [s[start..i]];
        start := i + 1;
      }
    }
    parts := parts + [s[start..]];
  }

  // ----- The parser.

  predicate Space(c: char) {
    c == ' ' || '\t' <= c <= '\r'
  }

  function TrimLeft(s: string): string {
    if s != [] && Space(s[0]) then TrimLeft(s[1..]) else s
  }

  function TrimRight(s: string): string {
    if s != [] && Space(s[|s| - 1]) then TrimRight(s[..|s| - 1]) else s
  }

  function TrimSpace(s: string): string {
    TrimRight(TrimLeft(s))
  }

  function HexValue(c: char): (v: Option<nat>)
    ensures v.Some? ==> v.value < 16
  {
    if '0' <= c <= '9' then Some(c as int - '0' as int)
    else if 'a' <= c <= 'f' then Some(c as int - 'a' as int + 10)
    else if 'A' <= c <= 'F' then Some(c as int - 'A' as int + 10)
    else None
  }

  function SimpleEscape(c: char): Option<char> {
    if c == 'a' then Some(ALERT)
    else if c == 'b' then Some(BACKSPACE)
    else if c == 'f' then Some(FORM_FEED)
    else if c == 'n' then Some('\n')
    else if c == 'r' then Some('\r')
    else if c == 't' then Some('\t')
    else if c == 'v' then Some(VERTICAL_TAB)
    else if c == '\\' || c == '"' then Some(c)
    else None
  }

  /** The number that the first n hexadecimal digits write. */
  function HexNumber(s: string, n: nat): (v: Option<nat>)
    requires n <= |s|
  {
    if n == 0 then Some(0)
    else if HexNumber(s, n - 1).None? || HexValue(s[n - 1]).None? then None
    else Some(HexNumber(s, n - 1).value * 16 + HexValue(s[n - 1]).value)
  }

  predicate OctalDigit(c: char) {
    '0' <= c <= '7'
  }

  /** A byte of a string, as a character. */
  function ByteChar(v: nat): char
    requires v < 256
  {
    v as char
  }

  predicate ValidRune(v: nat) {
    v < 0xD800 || 0xE000 <= v <= 0x10_FFFF
  }

  /** The bytes of a code point. */
  function Utf8(v: nat): string
    requires ValidRune(v)
  {
    if v < 0x80 then [ByteChar(v)]
    else if v < 0x800 then [ByteChar(0xC0 + v / 64), ByteChar(0x80 + v % 64)]
    else if v < 0x1_0000 then [ByteChar(0xE0 + v / 4096), ByteChar(0x80 + v / 64 % 64), ByteChar(0x80 + v % 64)]
    else [ByteChar(0xF0 + v / 0x4_0000), ByteChar(0x80 + v / 4096 % 64), ByteChar(0x80 + v / 64 % 64), ByteChar(0x80 + v % 64)]
  }

  /** An escape that gives a byte or a code point by its number: its bytes and its length. */
  function NumberEscape(s: string): (r: Option<(string, nat)>)
    requires |s| >= 2
    ensures r.Some? ==> 2 < r.value.1 <= |s|
  {
    if s[1] == 'x' then
      if |s| < 4 || HexNumber(s[2..], 2).None? || HexNumber(s[2..], 2).value > 255 then None
      else Some(([ByteChar(HexNumber(s[2..], 2).value)], 4))
    else if OctalDigit(s[1]) then
      if |s| < 4 || !OctalDigit(s[2]) || !OctalDigit(s[3]) then None
      else
        var v := (s[1] as int - '0' as int) * 64 + (s[2] as int - '0' as int) * 8 + (s[3] as int - '0' as int);
        if v > 255 then None else Some(([ByteChar(v)], 4))
    else
      var n := if s[1] == 'u' then 4 else 8;
      if (s[1] != 'u' && s[1] != 'U') || |s| < 2 + n || HexNumber(s[2..], n).None? || !ValidRune(HexNumber(s[2..], n).value) then None
      else Some((Utf8(HexNumber(s[2..], n).value), 2 + n))
  }

  /** The first character of the text of a double-quoted string, as bytes, and how much text it took. */
  function UnquoteChar(s: string): (r: Option<(string, nat)>)
    requires s != []
    ensures r.Some? ==> 0 < r.value.1 <= |s|
  {
    if s[0] == '"' || s[0] == '\n' || s[0] as int >= 0x80 then None
    else if s[0] != '\\' then Some(([s[0]], 1))
    else if |s| == 1 then None
    else
      match SimpleEscape(s[1])
      case Some(c) => Some(([c], 2))
      case None => NumberEscape(s)
  }

  /** The text up to the closing quote, which must be the last character. */
  function UnquoteText(s: string): Option<string>
    decreases |s|
  {
    if s == "\"" then Some("")
    else if s == [] then None
    else
      match UnquoteChar(s)
      case None => None
      case Some((bytes, n)) =>
        match UnquoteText(s[n..])
        case None => None
        case Some(text) => Some(bytes + text)
  }

  function Unquote(s: string): Result<string, Error> {
    if |s| < 2 || s[0] != '"' then Err(BadSyntax(s))
    else
      match UnquoteText(s[1..])
      case None => Err(BadSyntax(s))
      case Some(text) => Ok(text)
  }

  function DigitsValue(s: string): (v: Option<nat>) {
    if s == [] then None
    else
      var last := s[|s| - 1];
      if !('0' <= last <= '9') then None
      else if |s| == 1 then Some(last as int - '0' as int)
      else
        match DigitsValue(s[..|s| - 1])
        case None => None
        case Some(v) => Some(v * 10 + (last as int - '0' as int))
  }

  function Atoi(s: string): Result<Int64, Error> {
    var signed := s != [] && (s[0] == '-' || s[0] == '+');
    match DigitsValue(if signed then s[1..] else s)
    case None => Err(BadSyntax(s))
    case Some(v) =>
      InRange(if signed && s[0] == '-' then 0 - v else v, s)
  }

  function InRange(n: int, s: string): Result<Int64, Error> {
    if -0x8000_0000_0000_0000 <= n < 0x8000_0000_0000_0000 then Ok(n) else Err(OutOfRange(s))
  }

  function WithString(text: Result<string, Error>, update: string -> ControlInfo): Result<ControlInfo, Error> {
    match text
    case Err(e) => Err(e)
    case Ok(s) => Ok(update(s))
  }

  /** One field put into the record. A blank field and an unknown key change nothing. */
  function DecodeField(ci: ControlInfo, part: string): Result<ControlInfo, Error> {
    var field := TrimSpace(part);
    if field == "" then Ok(ci)
    else
      match IndexFrom(field, ':', OUTSIDE, 0)
      case None => Err(MalformedField(field))
      case Some(sep) =>
        var raw := TrimSpace(field[sep + 1..]);
        match Unquote(TrimSpace(field[..sep]))
        case Err(e) => Err(e)
        case Ok(key) => SetField(ci, key, raw)
  }

  function SetField(ci: ControlInfo, key: string, raw: string): Result<ControlInfo, Error> {
    if key == "version" then WithString(Unquote(raw), s => ci.(version := s))
    else if key == "goos" then WithString(Unquote(raw), s => ci.(goos := s))
    else if key == "goarch" then WithString(Unquote(raw), s => ci.(goarch := s))
    else if key == "hostname" then WithString(Unquote(raw), s => ci.(hostname := s))
    else if key == "pid" then
      match Atoi(raw)
      case Err(e) => Err(e)
      case Ok(n) => Ok(ci.(pid := n))
    else Ok(ci)
  }

  function DecodeFields(ci: ControlInfo, parts: seq<string>): Result<ControlInfo, Error>
    decreases |parts|
  {
    if parts == [] then Ok(ci)
    else
      match DecodeField(ci, parts[0])
      case Err(e) => Err(e)
      case Ok(next) => DecodeFields(next, parts[1..])
  }

  const NO_INFO := ControlInfo("", "", "", "", 0)

  function Decode(line: string): Result<ControlInfo, Error> {
    var text := TrimSpace(line);
    if |text| < 2 || text[0] != '{' || text[|text| - 1] != '}' then Err(MalformedLine)
    else DecodeFields(NO_INFO, SplitFrom(text[1..|text| - 1], ',', OUTSIDE, 0, 0))
  }

  method ReadField(ci: ControlInfo, part: string) returns (r: Result<ControlInfo, Error>)
    ensures r == DecodeField(ci, part)
  {
    var field := TrimSpace(part);
    if field == "" {
      return Ok(ci);
    }
    var sep := IndexTopLevel(field, ':');
    if sep.None? {
      return Err(MalformedField(field));
    }
    var key := Unquote(TrimSpace(field[..sep.value]));
    if key.Err? {
      return Err(key.error);
    }
    r := SetField(ci, key.value, TrimSpace(field[sep.value + 1..]));
  }

  method DecodeControlInfo(line: string) returns (r: Result<ControlInfo, Error>)
    ensures r == Decode(line)
  {
    var text := TrimSpace(line);
    if |text| < 2 || text[0] != '{' || text[|text| - 1] != '}' {
      return Err(MalformedLine);
    }
    var ci := NO_INFO;
    var parts := SplitTopLevel(text[1..|text| - 1], ',');
    for i := 0 to |parts|
      invariant Decode(line) == DecodeFields(ci, parts[i..])
    {
      var field := ReadField(ci, parts[i]);
      assert parts[i..][1..] == parts[i + 1..];
      if field.Err? {
        return Err(field.error);
      }
      ci := field.value;
    }
    r := Ok(ci);
  }

  // ----- Quoting and numbers undo each other.

  lemma EscapeReadsBack(c: char, rest: string)
    requires c as int < 0x80
    ensures UnquoteChar(EscapeOf(c) + rest) == Some(([c], |EscapeOf(c)|))
    ensures EscapeOf(c) != "" && EscapeOf(c) + rest != "\""
  {
    if |EscapeOf(c)| == 4 {
      ByteEscapeReadsBack(c as int, rest);
    }
  }

  lemma ByteEscapeReadsBack(v: nat, rest: string)
    requires v < 0x80
    ensures NumberEscape(['\\', 'x', HexDigit(v / 16), HexDigit(v % 16)] + rest) == Some(([v as char], 4))
  {
    var s := ['\\', 'x', HexDigit(v / 16), HexDigit(v % 16)] + rest;
    assert s[2..][0] == HexDigit(v / 16) && s[2..][1] == HexDigit(v % 16);
    assert HexNumber(s[2..], 1) == Some(v / 16);
    assert HexNumber(s[2..], 2) == Some(v);
  }

  lemma {:induction false} TextReadsBack(s: string)
    requires Ascii(s)
    ensures UnquoteText(Escaped(s) + "\"") == Some(s)
  {
    if s != [] {
      var rest := Escaped(s[1..]) + "\"";
      assert Escaped(s) + "\"" == EscapeOf(s[0]) + rest;
      EscapeReadsBack(s[0], rest);
      TextReadsBack(s[1..]);
      assert (EscapeOf(s[0]) + rest)[|EscapeOf(s[0])|..] == rest;
      assert [s[0]] + s[1..] == s;
    }
  }

  /** Quoting is reversed exactly, quotes, backslashes and control characters included. */
  lemma QuoteReadsBack(s: string)
    requires Ascii(s)
    ensures Unquote(Quote(s)) == Ok(s)
  {
    TextReadsBack(s);
    assert Quote(s)[1..] == Escaped(s) + "\"";
  }

  predicate AllDigits(s: string) {
    forall i :: 0 <= i < |s| ==> '0' <= s[i] <= '9'
  }

  lemma {:induction false} DigitsReadBack(n: nat)
    ensures DigitsValue(Digits(n)) == Some(n) && Digits(n) != [] && AllDigits(Digits(n))
    decreases n
  {
    if n >= 10 {
      DigitsReadBack(n / 10);
      assert Digits(n)[..|Digits(n)| - 1] == Digits(n / 10);
    }
  }

  lemma SignReadsBack(minus: bool, digits: string, v: nat)
    requires digits != [] && AllDigits(digits) && DigitsValue(digits) == Some(v)
    ensures var s := if minus then "-" + digits else digits;
      Atoi(s) == InRange(if minus then 0 - v else v, s)
  {
    assert ("-" + digits)[1..] == digits;
  }

  lemma DecimalReadsBack(n: Int64)
    ensures Atoi(Decimal(n)) == Ok(n)
  {
    var size: int := if n < 0 then 0 - n else n;
    DigitsReadBack(size);
    SignReadsBack(n < 0, Digits(size), size);
  }

  // ----- The scan meets no separator inside a quoted string.

  /** The state of the scan after a text, when no separator was met in it. */
  function After(s: string, sep: char, st: Scan): Option<Scan> {
    if s == [] then Some(st)
    else if AtSeparator(st, s[0], sep) then None
    else After(s[1..], sep, Step(st, s[0]))
  }

  predicate Clean(s: string, sep: char) {
    After(s, sep, OUTSIDE) == Some(OUTSIDE)
  }

  lemma {:induction false} AfterBoth(a: string, b: string, sep: char, st: Scan)
    requires After(a, sep, st).Some?
    ensures After(a + b, sep, st) == After(b, sep, After(a, sep, st).value)
  {
    if a == [] {
      assert a + b == b;
    } else {
      assert (a + b)[1..] == a[1..] + b;
      AfterBoth(a[1..], b, sep, Step(st, a[0]));
    }
  }

  lemma EscapeStaysInside(c: char, sep: char)
    requires c as int < 0x80
    ensures After(EscapeOf(c), sep, INSIDE) == Some(INSIDE)
  {
    var e := EscapeOf(c);
    if |e| == 1 {
      AfterOne(e[0], "", sep, INSIDE);
      assert e == [e[0]] + "";
    } else if |e| == 2 {
      AfterOne(e[0], [e[1]], sep, INSIDE);
      AfterOne(e[1], "", sep, Scan(true, true));
      assert e == [e[0]] + [e[1]] && [e[1]] == [e[1]] + "";
    } else {
      AfterOne(e[0], e[1..], sep, INSIDE);
      AfterOne(e[1], e[2..], sep, Scan(true, true));
      AfterOne(e[2], e[3..], sep, INSIDE);
      AfterOne(e[3], "", sep, INSIDE);
      assert e == [e[0]] + e[1..] && e[1..] == [e[1]] + e[2..] && e[2..] == [e[2]] + e[3..] && e[3..] == [e[3]] + "";
    }
  }

  lemma AfterOne(c: char, rest: string, sep: char, st: Scan)
    ensures After([c] + rest, sep, st) == if AtSeparator(st, c, sep) then None else After(rest, sep, Step(st, c))
  {
    assert ([c] + rest)[1..] == rest;
  }

  lemma {:induction false} EscapedStaysInside(s: string, sep: char)
    requires Ascii(s)
    ensures After(Escaped(s), sep, INSIDE) == Some(INSIDE)
  {
    if s != [] {
      EscapeStaysInside(s[0], sep);
      EscapedStaysInside(s[1..], sep);
      AfterBoth(EscapeOf(s[0]), Escaped(s[1..]), sep, INSIDE);
    }
  }

  /** A quoted string hides every separator in it. */
  lemma QuoteIsClean(s: string, sep: char)
    requires Ascii(s) && sep != '"'
    ensures Clean(Quote(s), sep)
  {
    EscapedStaysInside(s, sep);
    AfterBoth(Escaped(s), "\"", sep, INSIDE);
    assert Quote(s)[1..] == Escaped(s) + "\"";
  }

  lemma {:induction false} PlainIsClean(s: string, sep: char)
    requires forall i :: 0 <= i < |s| ==> s[i] != '"' && s[i] != sep
    ensures Clean(s, sep)
  {
    if s != [] {
      PlainIsClean(s[1..], sep);
    }
  }

  lemma {:induction false} SplitSkips(s: string, sep: char, st: Scan, start: nat, i: nat, j: nat)
    requires start <= i <= j <= |s| && After(s[i..j], sep, st).Some?
    ensures SplitFrom(s, sep, st, start, i) == SplitFrom(s, sep, After(s[i..j], sep, st).value, start, j)
    decreases j - i
  {
    if i < j {
      assert s[i..j][1..] == s[i + 1..j];
      SplitSkips(s, sep, Step(st, s[i]), start, i + 1, j);
    }
  }

  lemma {:induction false} IndexSkips(s: string, sep: char, st: Scan, i: nat, j: nat)
    requires i <= j <= |s| && After(s[i..j], sep, st).Some?
    ensures IndexFrom(s, sep, st, i) == IndexFrom(s, sep, After(s[i..j], sep, st).value, j)
    decreases j - i
  {
    if i < j {
      assert s[i..j][1..] == s[i + 1..j];
      IndexSkips(s, sep, Step(st, s[i]), i + 1, j);
    }
  }

  /** Splitting undoes joining: the scan cuts at the separators between the parts and nowhere else. */
  lemma {:induction false} SplitUndoesJoin(before: string, parts: seq<string>, sep: char)
    requires parts != [] && sep != '"' && forall i :: 0 <= i < |parts| ==> Clean(parts[i], sep)
    ensures SplitFrom(before + Joined(parts, sep), sep, OUTSIDE, |before|, |before|) == parts
    decreases |parts|
  {
    var s := before + Joined(parts, sep);
    var at := |before| + |parts[0]|;
    assert s[|before|..at] == parts[0];
    SplitSkips(s, sep, OUTSIDE, |before|, |before|, at);
    if |parts| == 1 {
      assert s[|before|..] == parts[0];
    } else {
      assert s == (before + parts[0] + [sep]) + Joined(parts[1..], sep);
      SplitUndoesJoin(before + parts[0] + [sep], parts[1..], sep);
      assert [parts[0]] + parts[1..] == parts;
    }
  }

  // ----- The line reads back.

  predicate Letters(s: string) {
    forall i :: 0 <= i < |s| ==> 'a' <= s[i] <= 'z'
  }

  lemma {:induction false} LettersAreTheirQuote(s: string)
    requires Letters(s)
    ensures Ascii(s) && Quote(s) == "\"" + s + "\""
  {
    if s != [] {
      LettersAreTheirQuote(s[1..]);
      assert Escaped(s[1..]) == Quote(s[1..])[1..|s|] == s[1..];
      assert [s[0]] + s[1..] == s;
    }
  }

  predicate Tight(s: string) {
    s != [] && !Space(s[0]) && !Space(s[|s| - 1])
  }

  lemma TightTrims(s: string)
    requires Tight(s)
    ensures TrimSpace(s) == s
  {
  }

  lemma FieldReads(ci: ControlInfo, key: string, raw: string)
    requires Letters(key) && Tight(raw)
    ensures DecodeField(ci, Field(key, raw)) == SetField(ci, key, raw)
  {
    var field := Field(key, raw);
    LettersAreTheirQuote(key);
    KeyEnds(key, raw);
    QuoteReadsBack(key);
    assert field[..|key| + 2] == Quote(key) && field[|key| + 3..] == raw;
    TightTrims(field);
    TightTrims(Quote(key));
    TightTrims(raw);
  }

  lemma KeyEnds(key: string, raw: string)
    requires Letters(key)
    ensures IndexFrom(Field(key, raw), ':', OUTSIDE, 0) == Some(|key| + 2)
  {
    var field := Field(key, raw);
    LettersAreTheirQuote(key);
    QuoteIsClean(key, ':');
    assert field[0..|key| + 2] == Quote(key);
    IndexSkips(field, ':', OUTSIDE, 0, |key| + 2);
  }

  lemma FieldIsClean(key: string, raw: string)
    requires Letters(key) && Clean(raw, ',')
    ensures Clean(Field(key, raw), ',')
  {
    LettersAreTheirQuote(key);
    QuoteIsClean(key, ',');
    assert Field(key, raw) == Quote(key) + (":" + raw);
    AfterBoth(Quote(key), ":" + raw, ',', OUTSIDE);
    assert (":" + raw)[1..] == raw;
  }

  lemma QuoteIsTight(s: string)
    requires Ascii(s)
    ensures Tight(Quote(s))
  {
  }

  lemma DecimalIsPlain(n: Int64)
    ensures Tight(Decimal(n)) && Clean(Decimal(n), ',')
  {
    var i: int := n;
    DigitsReadBack(if i < 0 then -i else i);
    PlainIsClean(Decimal(n), ',');
  }

  lemma KeysAreLetters()
    ensures Letters("version") && Letters("goos") && Letters("goarch") && Letters("hostname") && Letters("pid")
  {
  }

  lemma StringFieldIsClean(key: string, value: string)
    requires Letters(key) && Ascii(value)
    ensures Clean(Field(key, Quote(value)), ',')
  {
    QuoteIsClean(value, ',');
    FieldIsClean(key, Quote(value));
  }

  lemma FieldsAreClean(ci: ControlInfo)
    requires AsciiInfo(ci)
    ensures forall i :: 0 <= i < 5 ==> Clean(Fields(ci)[i], ',')
  {
    KeysAreLetters();
    StringFieldIsClean("version", ci.version);
    StringFieldIsClean("goos", ci.goos);
    StringFieldIsClean("goarch", ci.goarch);
    StringFieldIsClean("hostname", ci.hostname);
    DecimalIsPlain(ci.pid);
    FieldIsClean("pid", Decimal(ci.pid));
  }

  /** Whatever the values hold, the scan cuts the line into the five fields that were printed. */
  lemma LineSplits(ci: ControlInfo)
    requires AsciiInfo(ci)
    ensures TrimSpace(Line(ci)) == Line(ci)
    ensures SplitFrom(Line(ci)[1..|Line(ci)| - 1], ',', OUTSIDE, 0, 0) == Fields(ci)
  {
    FieldsAreClean(ci);
    SplitUndoesJoin("", Fields(ci), ',');
    var inner := Joined(Fields(ci), ',');
    assert "" + inner == inner;
    BracesTrim(inner);
  }

  lemma BracesTrim(inner: string)
    ensures var line := "{" + inner + "}";
      TrimSpace(line) == line && line[1..|line| - 1] == inner
  {
    TightTrims("{" + inner + "}");
  }

  lemma StringFieldReads(ci: ControlInfo, key: string, value: string)
    requires Letters(key) && Ascii(value)
    ensures DecodeField(ci, Field(key, Quote(value))) == SetField(ci, key, Quote(value))
    ensures Unquote(Quote(value)) == Ok(value)
  {
    QuoteReadsBack(value);
    QuoteIsTight(value);
    FieldReads(ci, key, Quote(value));
  }

  lemma VersionReads(ci: ControlInfo, value: string)
    requires Ascii(value)
    ensures DecodeField(ci, Field("version", Quote(value))) == Ok(ci.(version := value))
  {
    StringFieldReads(ci, "version", value);
  }

  lemma GoosReads(ci: ControlInfo, value: string)
    requires Ascii(value)
    ensures DecodeField(ci, Field("goos", Quote(value))) == Ok(ci.(goos := value))
  {
    StringFieldReads(ci, "goos", value);
  }

  lemma GoarchReads(ci: ControlInfo, value: string)
    requires Ascii(value)
    ensures DecodeField(ci, Field("goarch", Quote(value))) == Ok(ci.(goarch := value))
  {
    StringFieldReads(ci, "goarch", value);
  }

  lemma HostnameReads(ci: ControlInfo, value: string)
    requires Ascii(value)
    ensures DecodeField(ci, Field("hostname", Quote(value))) == Ok(ci.(hostname := value))
  {
    StringFieldReads(ci, "hostname", value);
  }

  lemma PidReads(ci: ControlInfo, value: Int64)
    ensures DecodeField(ci, Field("pid", Decimal(value))) == Ok(ci.(pid := value))
  {
    DecimalIsPlain(value);
    DecimalReadsBack(value);
    FieldReads(ci, "pid", Decimal(value));
  }

  lemma {:induction false} DecodeOne(ci: ControlInfo, part: string, parts: seq<string>, next: ControlInfo)
    requires DecodeField(ci, part) == Ok(next)
    ensures DecodeFields(ci, [part] + parts) == DecodeFields(next, parts)
  {
    assert ([part] + parts)[1..] == parts;
  }

  lemma {:induction false} FieldsDecode(ci: ControlInfo)
    requires AsciiInfo(ci)
    ensures DecodeFields(NO_INFO, Fields(ci)) == Ok(ci)
  {
    var parts := Fields(ci);
    var one := NO_INFO.(version := ci.version);
    var two := one.(goos := ci.goos);
    var three := two.(goarch := ci.goarch);
    var four := three.(hostname := ci.hostname);
    VersionReads(NO_INFO, ci.version);
    DecodeOne(NO_INFO, parts[0], parts[1..], one);
    GoosReads(one, ci.goos);
    DecodeOne(one, parts[1], parts[2..], two);
    GoarchReads(two, ci.goarch);
    DecodeOne(two, parts[2], parts[3..], three);
    HostnameReads(three, ci.hostname);
    DecodeOne(three, parts[3], parts[4..], four);
    PidReads(four, ci.pid);
    DecodeOne(four, parts[4], [], ci);
    ChainOfFive(parts);
  }

  lemma ChainOfFive(parts: seq<string>)
    requires |parts| == 5
    ensures parts == [parts[0]] + parts[1..] && parts[1..] == [parts[1]] + parts[2..]
    ensures parts[2..] == [parts[2]] + parts[3..] && parts[3..] == [parts[3]] + parts[4..]
    ensures parts[4..] == [parts[4]] + []
  {
  }

  /** The parser undoes the printer, with quotes, backslashes, separators, braces and control
      characters in any of the values. */
  lemma LineDecodes(ci: ControlInfo)
    requires AsciiInfo(ci)
    ensures Decode(Line(ci)) == Ok(ci)
  {
    LineSplits(ci);
    FieldsDecode(ci);
  }

  // ----- The line on the stream.

  function DropReturn(s: string): string {
    if s != [] && s[|s| - 1] == '\r' then s[..|s| - 1] else s
  }

  /** A line read one character at a time: a newline ends it before the length is looked at. */
  function LineFrom(s: string, buf: string, limit: nat): (Result<string, Error>, string)
    decreases |s|
  {
    var (c, rest) := Full(s, 1);
    if c.Err? then (Err(Ended(c.error)), rest)
    else if c.value[0] == '\n' then (Ok(DropReturn(buf)), rest)
    else if |buf| >= limit then (Err(LineTooLong), rest)
    else LineFrom(rest, buf + c.value, limit)
  }

  method ReadLine(r: Reader<char>, limit: nat) returns (line: Result<string, Error>)
    modifies r
    ensures (line, r.rest) == LineFrom(old(r.rest), "", limit)
  {
    var buf := "";
    while true
      invariant LineFrom(old(r.rest), "", limit) == LineFrom(r.rest, buf, limit)
      decreases |r.rest|
    {
      var c := r.ReadFull(1);
      if c.Err? {
        return Err(Ended(c.error));
      }
      if c.value[0] == '\n' {
        if |buf| > 0 && buf[|buf| - 1] == '\r' {
          buf := buf[..|buf| - 1];
        }
        return Ok(buf);
      }
      if |buf| >= limit {
        return Err(LineTooLong);
      }
      buf := buf + c.value;
    }
  }

  predicate OneLine(s: string) {
    forall i :: 0 <= i < |s| ==> s[i] != '\n'
  }

  /** A line comes off the stream whole, with nothing past its newline, exactly when it is within
      the limit. */
  lemma {:induction false} LineReadsBack(line: string, rest: string, buf: string, limit: nat)
    requires OneLine(line) && |buf| <= limit
    ensures if |buf| + |line| <= limit then LineFrom(line + "\n" + rest, buf, limit) == (Ok(DropReturn(buf + line)), rest)
      else LineFrom(line + "\n" + rest, buf, limit).0 == Err(LineTooLong)
    decreases |line|
  {
    var s := line + "\n" + rest;
    if line == "" {
      assert s[..1] == "\n" && s[1..] == rest && buf + line == buf;
    } else {
      assert s[..1] == [line[0]] && s[1..] == line[1..] + "\n" + rest;
      if |buf| < limit {
        LineReadsBack(line[1..], rest, buf + [line[0]], limit);
        assert buf + [line[0]] + line[1..] == buf + line;
      }
    }
  }

  lemma {:induction false} EscapedIsOneLine(s: string)
    requires Ascii(s)
    ensures OneLine(Escaped(s))
  {
    if s != [] {
      EscapedIsOneLine(s[1..]);
    }
  }

  lemma FieldIsOneLine(key: string, raw: string)
    requires Letters(key) && OneLine(raw)
    ensures OneLine(Field(key, raw))
  {
  }

  lemma StringFieldIsOneLine(key: string, value: string)
    requires Letters(key) && Ascii(value)
    ensures OneLine(Field(key, Quote(value)))
  {
    EscapedIsOneLine(value);
    FieldIsOneLine(key, Quote(value));
  }

  lemma DecimalIsOneLine(n: Int64)
    ensures OneLine(Decimal(n))
  {
    DigitsReadBack(if n < 0 then 0 - n else n);
  }

  lemma {:induction false} JoinIsOneLine(parts: seq<string>)
    requires parts != [] && forall i :: 0 <= i < |parts| ==> OneLine(parts[i])
    ensures OneLine(Joined(parts, ','))
    decreases |parts|
  {
    if |parts| > 1 {
      JoinIsOneLine(parts[1..]);
    }
  }

  /** The only newline of an encoded record is its last character. */
  lemma EncodedIsOneLine(ci: ControlInfo)
    requires AsciiInfo(ci)
    ensures OneLine(Line(ci))
  {
    KeysAreLetters();
    StringFieldIsOneLine("version", ci.version);
    StringFieldIsOneLine("goos", ci.goos);
    StringFieldIsOneLine("goarch", ci.goarch);
    StringFieldIsOneLine("hostname", ci.hostname);
    DecimalIsOneLine(ci.pid);
    FieldIsOneLine("pid", Decimal(ci.pid));
    JoinIsOneLine(Fields(ci));
  }

  /** The client learns the helper's record through the stream exactly when the line is within the
      limit, and then the stream goes on right behind it. */
  lemma ControlInfoArrives(ci: ControlInfo, rest: string)
    requires AsciiInfo(ci)
    ensures var (line, left) := LineFrom(Encode(ci) + rest, "", LINE_LIMIT);
      if |Line(ci)| <= LINE_LIMIT then line.Ok? && left == rest && Decode(line.value) == Ok(ci)
      else line == Err(LineTooLong)
  {
    EncodedIsOneLine(ci);
    LineArrives("{" + Joined(Fields(ci), ','), rest);
    LineDecodes(ci);
  }

  lemma LineArrives(text: string, rest: string)
    requires OneLine(text + "}")
    ensures var (line, left) := LineFrom(text + "}" + "\n" + rest, "", LINE_LIMIT);
      if |text| < LINE_LIMIT then line == Ok(text + "}") && left == rest else line == Err(LineTooLong)
  {
    LineReadsBack(text + "}", rest, "", LINE_LIMIT);
    assert "" + (text + "}") == text + "}";
  }
}
