/**
 The literal `.env` parser: quoting, escapes, multi-line values and comments, and the encoding it inverts.
 */
module Dotenv {
  import opened Basics

  datatype ParseError = Invalid

  const MAX_VALUES: nat := 256
  const MAX_NAME: nat := 128

  // ---------------------------------------------------------------- characters and trimming

  predicate IsWhitespace(c: char) {
    var n := c as int;
    || 0x9 <= n <= 0xd || n == 0x20 || n == 0x85 || n == 0xa0 || n == 0x1680
    || 0x2000 <= n <= 0x200a || n == 0x2028 || n == 0x2029 || n == 0x202f || n == 0x205f || n == 0x3000
  }

  predicate IsNameStart(c: char) {
    'a' <= c <= 'z' || 'A' <= c <= 'Z' || c == '_'
  }

  predicate IsNameChar(c: char) {
    IsNameStart(c) || '0' <= c <= '9'
  }

  predicate ValidName(name: string) {
    name != [] && IsNameStart(name[0]) && forall i :: 1 <= i < |name| ==> IsNameChar(name[i])
  }

  function TrimStart(s: string): string {
    if s != [] && IsWhitespace(s[0]) then TrimStart(s[1..]) else s
  }

  function TrimEnd(s: string): string {
    if s != [] && IsWhitespace(s[|s| - 1]) then TrimEnd(s[..|s| - 1]) else s
  }

  function Trim(s: string): string {
    TrimEnd(TrimStart(s))
  }

  function StripMarks(s: string): string {
    if s != [] && s[0] as int == 0xfeff then StripMarks(s[1..]) else s
  }

  function StripExport(line: string): string {
    if "export " <= line then line[7..] else line
  }

  function IndexOf(s: string, c: char): (r: nat)
    ensures r <= |s| && (r < |s| ==> s[r] == c) && forall i :: 0 <= i < r ==> s[i] != c
  {
    if s == [] || s[0] == c then 0 else 1 + IndexOf(s[1..], c)
  }

  /** Split at line feeds, dropping a carriage return before one; a final unterminated line is kept as it is. */
  function SplitLines(s: string): seq<string>
    decreases |s|
  {
    if s == [] then []
    else
      var n := IndexOf(s, '\n');
      if n == |s| then [s]
      else [if n > 0 && s[n - 1] == '\r' then s[..n - 1] else s[..n]] + SplitLines(s[n + 1..])
  }

  // ---------------------------------------------------------------- values

  function Unescape(c: char): string {
    match c
    case 'n' => "\n"
    case 'r' => "\r"
    case 't' => "\t"
    case '\\' => "\\"
    case '"' => "\""
    case '$' => "$"
    case _ => ['\\', c]
  }

  /** One line's worth of a quoted value: closed with what follows the quote, still open, or a dangling escape. */
  datatype Scanned = Closed(value: string, tail: string) | Open(value: string) | Dangling

  function Scan(fragment: string, quote: char, value: string): Scanned
    decreases |fragment|
  {
    if fragment == [] then Open(value)
    else if fragment[0] == quote then Closed(value, fragment[1..])
    else if fragment[0] == '\\' && quote == '"' then
      if |fragment| < 2 then Dangling else Scan(fragment[2..], quote, value + Unescape(fragment[1]))
    else Scan(fragment[1..], quote, value + [fragment[0]])
  }

  /** A quoted value may continue over the following lines; the unread lines come back with it. */
  function ReadQuoted(fragment: string, lines: seq<string>, quote: char,
          value: string): Result<(string, seq<string>), ParseError>
    decreases |lines|
  {
    match Scan(fragment, quote, value)
    case Dangling => Err(Invalid)
    case Closed(v, tail) =>
      var t := Trim(tail);
      if t != [] && t[0] != '#' then Err(Invalid) else Ok((v, lines))
    case Open(v) =>
      if lines == [] then Err(Invalid) else ReadQuoted(lines[0], lines[1..], quote, v + "\n")
  }

  /** Where an unquoted value's comment begins: a '#' at the start or after whitespace. */
  function CommentStart(raw: string, from: nat, previousSpace: bool): (r: nat)
    requires from <= |raw|
    ensures from <= r <= |raw|
    decreases |raw| - from
  {
    if from == |raw| || (raw[from] == '#' && previousSpace) then from
    else CommentStart(raw, from + 1, IsWhitespace(raw[from]))
  }

  function Unquoted(raw: string): string {
    TrimEnd(raw[..CommentStart(raw, 0, true)])
  }

  // ---------------------------------------------------------------- the whole file

  datatype Assignment = Skip | Assign(key: string, raw: string)

  function ReadAssignment(text: string): Result<Assignment, ParseError> {
    var line := Trim(text);
    if line == [] || line[0] == '#' then Ok(Skip)
    else
      var body := TrimStart(StripExport(line));
      var eq := IndexOf(body, '=');
      if eq == |body| then Err(Invalid)
      else
        var key := Trim(body[..eq]);
        if !ValidName(key) || |key| > MAX_NAME then Err(Invalid)
        else Ok(Assign(key, TrimStart(body[eq + 1..])))
  }

  function ReadValue(raw: string, lines: seq<string>): Result<(string, seq<string>), ParseError> {
    if raw != [] && (raw[0] == '\'' || raw[0] == '"') then ReadQuoted(raw[1..], lines, raw[0], [])
    else Ok((Unquoted(raw), lines))
  }

  lemma ReadQuotedShrinks(fragment: string, lines: seq<string>, quote: char, value: string)
    ensures var r := ReadQuoted(fragment, lines, quote, value); r.Ok? ==> |r.value.1| <= |lines|
    decreases |lines|
  {
  }

  function ParseLines(lines: seq<string>, values: map<string, string>): Result<map<string, string>, ParseError>
    decreases |lines|
  {
    if lines == [] then Ok(values)
    else
      match ReadAssignment(lines[0])
      case Err(e) => Err(e)
      case Ok(Skip) => ParseLines(lines[1..], values)
      case Ok(Assign(key, raw)) =>
        match ReadValue(raw, lines[1..])
        case Err(e) => Err(e)
        case Ok((value, rest)) =>
          if '\0' in value || |values| >= MAX_VALUES then Err(Invalid)
          else
            assert |rest| < |lines| by {
              if raw != [] { ReadQuotedShrinks(raw[1..], lines[1..], raw[0], []); }
            }
            ParseLines(rest, values[key := value])
  }

  function ParseText(content: string): Result<map<string, string>, ParseError> {
    ParseLines(SplitLines(StripMarks(content)), map[])
  }

  /** Scan one line of a quoted value character by character. */
  method ScanFragment(fragment: string, quote: char, start: string) returns (r: Scanned)
    ensures r == Scan(fragment, quote, start)
  {
    var value, i := start, 0;
    while i < |fragment|
      invariant i <= |fragment| && Scan(fragment[i..], quote, value) == Scan(fragment, quote, start)
    {
      if fragment[i] == quote {
        return Closed(value, fragment[i + 1..]);
      }
      if fragment[i] == '\\' && quote == '"' {
        if i + 1 == |fragment| {
          return Dangling;
        }
        assert fragment[i..][2..] == fragment[i + 2..];
        match fragment[i + 1] {
          case 'n' => value := value + "\n";
          case 'r' => value := value + "\r";
          case 't' => value := value + "\t";
          case '\\' => value := value + "\\";
          case '"' => value := value + "\"";
          case '$' => value := value + "$";
          case _ => value := value + ['\\', fragment[i + 1]];
        }
        i := i + 2;
      } else {
        assert fragment[i..][1..] == fragment[i + 1..];
        value := value + [fragment[i]];
        i := i + 1;
      }
    }
    return Open(value);
  }

  /** The parser's loops over lines and characters compute exactly `ParseText`. */
  method Parse(content: string) returns (r: Result<map<string, string>, ParseError>)
    ensures r == ParseText(content)
  {
    var values: map<string, string> := map[];
    var lines := SplitLines(StripMarks(content));
    while lines != []
      invariant ParseLines(lines, values) == ParseText(content)
      decreases |lines|
    {
      var assignment := ReadAssignment(lines[0]);
      if assignment.Err? {
        return Err(Invalid);
      }
      lines := lines[1..];
      if assignment.value.Skip? {
        continue;
      }
      var key, raw := assignment.value.key, assignment.value.raw;
      var value: string;
      ghost var following := lines;
      if raw != [] && (raw[0] == '\'' || raw[0] == '"') {
        var quote, fragment := raw[0], raw[1..];
        value := [];
        while true
          invariant |lines| <= |following|
          invariant ReadQuoted(fragment, lines, quote, value) == ReadQuoted(raw[1..], following, quote, [])
          decreases |lines|
        {
          var scanned := ScanFragment(fragment, quote, value);
          if scanned.Dangling? {
            return Err(Invalid);
          }
          value := scanned.value;
          if scanned.Closed? {
            var tail := Trim(scanned.tail);
            if tail != [] && tail[0] != '#' {
              return Err(Invalid);
            }
            break;
          }
          value := value + "\n";
          if lines == [] {
            return Err(Invalid);
          }
          fragment, lines := lines[0], lines[1..];
        }
        assert ReadValue(raw, following) == Ok((value, lines));
      } else {
        value := Unquoted(raw);
      }
      if '\0' in value || |values| >= MAX_VALUES {
        return Err(Invalid);
      }
      values := values[key := value];
    }
    return Ok(values);
  }

  // ---------------------------------------------------------------- the encoding

  function EscapeChar(c: char): string {
    match c
    case '\\' => "\\\\"
    case '"' => "\\\""
    case '\n' => "\\n"
    case '\r' => "\\r"
    case '\t' => "\\t"
    case _ => [c]
  }

  function Escape(value: string): string {
    if value == [] then [] else EscapeChar(value[0]) + Escape(value[1..])
  }

  function EncodeLine(key: string, value: string): string {
    key + "=\"" + Escape(value) + "\""
  }

  function Encode(values: map<string, string>, order: seq<string>): string
    requires forall k :: k in order ==> k in values
  {
    if order == [] then [] else EncodeLine(order[0], values[order[0]]) + "\n" + Encode(values, order[1..])
  }

  lemma {:induction false} EscapeHasNoLineFeed(value: string)
    ensures '\n' !in Escape(value)
  {
    if value != [] {
      EscapeHasNoLineFeed(value[1..]);
    }
  }

  lemma {:induction false} ScanInvertsEscape(value: string, acc: string)
    ensures Scan(Escape(value) + "\"", '"', acc) == Closed(acc + value, [])
    decreases |value|
  {
    if value == [] {
      ScanOfQuote(acc);
    } else {
      EscapeSplits(value);
      ScanOneEscape(value[0], Escape(value[1..]) + "\"", acc);
      ScanInvertsEscape(value[1..], acc + [value[0]]);
      assert acc + [value[0]] + value[1..] == acc + value;
    }
  }

  lemma ScanOfQuote(acc: string)
    ensures Scan(Escape("") + "\"", '"', acc) == Closed(acc + "", [])
  {
    assert Escape("") + "\"" == "\"";
  }

  lemma EscapeSplits(value: string)
    requires value != []
    ensures Escape(value) + "\"" == EscapeChar(value[0]) + (Escape(value[1..]) + "\"")
  {}

  lemma ScanOneEscape(c: char, rest: string, acc: string)
    ensures Scan(EscapeChar(c) + rest, '"', acc) == Scan(rest, '"', acc + [c])
  {
    var s := EscapeChar(c) + rest;
    if |EscapeChar(c)| == 2 {
      assert s[2..] == rest;
    } else {
      assert s[1..] == rest;
    }
  }

  lemma IndexOfIs(s: string, c: char, n: nat)
    requires n < |s| && s[n] == c && forall i :: 0 <= i < n ==> s[i] != c
    ensures IndexOf(s, c) == n
  {
  }

  lemma SplitOneLine(line: string, rest: string)
    requires '\n' !in line && line != [] && line[|line| - 1] != '\r'
    ensures SplitLines(line + "\n" + rest) == [line] + SplitLines(rest)
  {
    var s := line + "\n" + rest;
    IndexOfIs(s, '\n', |line|);
    assert s[..|line|] == line && s[|line| + 1..] == rest;
  }

  lemma NameCharsArePlain(key: string)
    requires ValidName(key)
    ensures forall i :: 0 <= i < |key| ==>
              key[i] != '=' && key[i] != '\n' && key[i] != ' ' && key[i] != '#' && !IsWhitespace(key[i])
                && key[i] as int != 0xfeff
  {
  }

  lemma NoExportPrefix(key: string, value: string)
    requires ValidName(key)
    ensures !("export " <= EncodeLine(key, value))
  {
    NameCharsArePlain(key);
    var line := EncodeLine(key, value);
    assert line[|key|] == '=';
    assert "export " == ['e', 'x', 'p', 'o', 'r', 't', ' '];
    if |key| >= 7 {
      assert line[6] == key[6];
    } else {
      assert "export "[|key|] != '=';
    }
  }

  /** The line written for a binding reads back as that binding's key and quoted value. */
  lemma EncodedLineReads(key: string, value: string)
    requires ValidName(key) && |key| <= MAX_NAME
    ensures ReadAssignment(EncodeLine(key, value)) == Ok(Assign(key, "\"" + Escape(value) + "\""))
  {
    LineIsTrimmed(key, value);
    NoExportPrefix(key, value);
    LineSplitsAtEquals(key, value);
  }

  lemma LineIsTrimmed(key: string, value: string)
    requires ValidName(key)
    ensures var line := EncodeLine(key, value);
            line != [] && line[0] != '#' && Trim(line) == line && TrimStart(line) == line
  {
    NameCharsArePlain(key);
    var line := EncodeLine(key, value);
    assert line[0] == key[0] && line[|line| - 1] == '"';
  }

  lemma LineSplitsAtEquals(key: string, value: string)
    requires ValidName(key)
    ensures var line, eq := EncodeLine(key, value), IndexOf(EncodeLine(key, value), '=');
            && eq == |key| < |line| && line[..eq] == key && Trim(key) == key
            && TrimStart(line[eq + 1..]) == "\"" + Escape(value) + "\""
  {
    NameCharsArePlain(key);
    var line := EncodeLine(key, value);
    IndexOfIs(line, '=', |key|);
    var raw := line[|key| + 1..];
    assert raw == "\"" + Escape(value) + "\"";
  }

  lemma EncodedLineSplits(key: string, value: string, rest: string)
    requires ValidName(key)
    ensures SplitLines(EncodeLine(key, value) + "\n" + rest) == [EncodeLine(key, value)] + SplitLines(rest)
  {
    NameCharsArePlain(key);
    EscapeHasNoLineFeed(value);
    var line := EncodeLine(key, value);
    assert '\n' !in line;
    SplitOneLine(line, rest);
  }

  predicate Encodable(values: map<string, string>) {
    && |values| <= MAX_VALUES
    && forall k :: k in values ==> ValidName(k) && |k| <= MAX_NAME && '\0' !in values[k]
  }

  ghost predicate Lists(values: map<string, string>, order: seq<string>) {
    && (forall k :: k in order <==> k in values)
    && (forall i, j :: 0 <= i < j < |order| ==> order[i] != order[j])
  }

  /** Parsing consumes one encoded line and records its binding. */
  lemma ParseOneEncoded(key: string, value: string, rest: string, done: map<string, string>)
    requires ValidName(key) && |key| <= MAX_NAME && '\0' !in value && |done| < MAX_VALUES
    ensures ParseLines(SplitLines(EncodeLine(key, value) + "\n" + rest), done)
            == ParseLines(SplitLines(rest), done[key := value])
  {
    EncodedLineSplits(key, value, rest);
    EncodedLineReads(key, value);
    var lines := [EncodeLine(key, value)] + SplitLines(rest);
    assert lines[1..] == SplitLines(rest);
    QuotedValueReads(value, lines[1..]);
  }

  lemma QuotedValueReads(value: string, lines: seq<string>)
    ensures ReadValue("\"" + Escape(value) + "\"", lines) == Ok((value, lines))
  {
    var raw := "\"" + Escape(value) + "\"";
    assert raw[1..] == Escape(value) + "\"";
    ScanInvertsEscape(value, []);
    assert [] + value == value;
  }

  function Bindings(values: map<string, string>, order: seq<string>): map<string, string>
    requires forall k :: k in order ==> k in values
  {
    map k | k in order :: values[k]
  }

  lemma BindingsStep(values: map<string, string>, order: seq<string>, done: map<string, string>)
    requires order != [] && (forall k :: k in order ==> k in values) && order[0] !in order[1..]
    ensures done[order[0] := values[order[0]]] + Bindings(values, order[1..]) == done + Bindings(values, order)
  {
    assert forall k :: k in order <==> k == order[0] || k in order[1..];
  }

  lemma ParseFirstEncoded(values: map<string, string>, order: seq<string>, done: map<string, string>)
    requires Encodable(values) && order != [] && (forall k :: k in order ==> k in values) && |done| < MAX_VALUES
    ensures ParseLines(SplitLines(Encode(values, order)), done)
         == ParseLines(SplitLines(Encode(values, order[1..])), done[order[0] := values[order[0]]])
  {
    ParseOneEncoded(order[0], values[order[0]], Encode(values, order[1..]), done);
  }

  lemma {:induction false} ParseEncodedFrom(values: map<string, string>, order: seq<string>, done: map<string, string>)
    requires Encodable(values) && (forall k :: k in order ==> k in values)
    requires forall i, j :: 0 <= i < j < |order| ==> order[i] != order[j]
    requires |done| + |order| <= MAX_VALUES
    ensures ParseLines(SplitLines(Encode(values, order)), done) == Ok(done + Bindings(values, order))
    decreases |order|
  {
    if order == [] {
      assert done + Bindings(values, order) == done;
    } else {
      var key := order[0];
      var rest := order[1..];
      assert forall k :: k in rest ==> k in order;
      ParseFirstEncoded(values, order, done);
      ParseEncodedFrom(values, rest, done[key := values[key]]);
      BindingsStep(values, order, done);
    }
  }

  lemma {:induction false} OrderLength(values: map<string, string>, order: seq<string>)
    requires Lists(values, order)
    ensures |order| == |values|
    decreases |order|
  {
    if order == [] {
      assert values.Keys == {};
    } else {
      var smaller := values - {order[0]};
      assert smaller.Keys == values.Keys - {order[0]};
      assert Lists(smaller, order[1..]) by {
        forall k ensures k in order[1..] <==> k in smaller {
          if k in order[1..] {
            var i :| 0 <= i < |order[1..]| && order[1..][i] == k;
            assert order[i + 1] == k;
          }
        }
      }
      OrderLength(smaller, order[1..]);
    }
  }

  /** Round trip: every encodable map, written in any order, parses back to exactly itself. */
  lemma EncodeThenParse(values: map<string, string>, order: seq<string>)
    requires Encodable(values) && Lists(values, order)
    ensures ParseText(Encode(values, order)) == Ok(values)
  {
    OrderLength(values, order);
    EncodedHasNoMark(values, order);
    ParseEncodedFrom(values, order, map[]);
    assert map[] + Bindings(values, order) == values;
  }

  lemma EncodedHasNoMark(values: map<string, string>, order: seq<string>)
    requires Encodable(values) && Lists(values, order)
    ensures StripMarks(Encode(values, order)) == Encode(values, order)
  {
    if order != [] {
      NameCharsArePlain(order[0]);
      assert Encode(values, order)[0] == order[0][0];
    }
  }
}
