/**
 What the `.env` format means, told from the writing side: documents of comments, bare, quoted and many-line values,
 and what the parser makes of their text.
 */
module DotenvFormat {
  import opened Basics
  import opened Dotenv

  // ---------------------------------------------------------------- documents

  /** One written character of a quoted value, or a backslash and what it escapes. */
  datatype Token = Plain(c: char) | Escaped(c: char)

  function TokenText(t: Token): string {
    match t
    case Plain(c) => [c]
    case Escaped(c) => ['\\', c]
  }

  /** Three letters stand for control characters; backslash, quote and dollar for themselves; anything else keeps its
      backslash. Nothing is expanded. */
  function TokenMeaning(t: Token): string {
    if t.Plain? then [t.c]
    else if t.c == 'n' then "\n"
    else if t.c == 'r' then "\r"
    else if t.c == 't' then "\t"
    else if t.c in "\\\"$" then [t.c]
    else ['\\', t.c]
  }

  /** Only double quotes know escapes. A line feed or carriage return is written as one, or ends the line. */
  predicate TokenFits(t: Token, quote: char) {
    && t.c != '\n' && t.c != '\r'
    && if t.Plain? then t.c != quote && (quote == '"' ==> t.c != '\\') else quote == '"'
  }

  function Text(tokens: seq<Token>): string {
    if tokens == [] then [] else TokenText(tokens[0]) + Text(tokens[1..])
  }

  function Meaning(tokens: seq<Token>): string {
    if tokens == [] then [] else TokenMeaning(tokens[0]) + Meaning(tokens[1..])
  }

  /** A quoted value is written on one line, or goes on over `more` of them. */
  datatype Value = Bare(text: string) | Quoted(quote: char, first: seq<Token>, more: seq<seq<Token>>)

  datatype Item =
    | Ignored(text: string)
    | Binding(indent: string, exported: bool, key: string, left: string, right: string, value: Value, gap: string,
              comment: Option<string>)

  predicate IsSpace(s: string) {
    forall i :: 0 <= i < |s| ==> IsWhitespace(s[i]) && s[i] != '\n' && s[i] != '\r'
  }

  predicate IsLine(s: string) {
    '\n' !in s && '\r' !in s
  }

  predicate StartsComment(s: string, i: nat) {
    i < |s| && s[i] == '#' && (i == 0 || IsWhitespace(s[i - 1]))
  }

  predicate ValueFits(v: Value) {
    match v
    case Bare(text) =>
      && IsLine(text)
      && (text != [] ==>
            && !IsWhitespace(text[0]) && !IsWhitespace(text[|text| - 1]) && text[0] != '\'' && text[0] != '"'
            && forall i :: 0 <= i < |text| ==> !StartsComment(text, i))
    case Quoted(quote, first, more) =>
      && (quote == '\'' || quote == '"')
      && (forall i :: 0 <= i < |first| ==> TokenFits(first[i], quote))
      && (forall k, i :: 0 <= k < |more| && 0 <= i < |more[k]| ==> TokenFits(more[k][i], quote))
      && (more != [] ==> EndsPlainly(WithoutTrailingSpace(first)))
  }

  /** No escaped space at the end. */
  predicate EndsPlainly(tokens: seq<Token>) {
    tokens != [] && tokens[|tokens| - 1].Escaped? ==> !IsWhitespace(tokens[|tokens| - 1].c)
  }

  ghost predicate ItemFits(item: Item) {
    match item
    case Ignored(text) => IsLine(text) && exists n: nat :: n <= |text| && IgnoredFrom(text, n)
    case Binding(indent, exported, key, left, right, value, gap, comment) =>
      && IsSpace(indent) && IsSpace(left) && IsSpace(right) && IsSpace(gap)
      && ValidName(key) && |key| <= 128 && ValueFits(value)
      && (comment.Some? ==> IsLine(comment.value) && (value.Bare? && value.text != [] ==> gap != []))
      && (key == "export" && !exported ==> left == [] || left[0] != ' ')
  }

  /** Spaces, and then nothing or a comment. */
  predicate IgnoredFrom(text: string, n: nat) {
    n <= |text| && IsSpace(text[..n]) && (n == |text| || text[n] == '#')
  }

  // ---------------------------------------------------------------- how they are written

  function Comment(comment: Option<string>): string {
    if comment.Some? then "#" + comment.value else []
  }

  function Head(item: Item): string
    requires item.Binding?
  {
    item.indent + (if item.exported then "export " else []) + item.key + item.left + "=" + item.right
  }

  function Tail(item: Item): string
    requires item.Binding?
  {
    item.gap + Comment(item.comment)
  }

  /** The lines of a quoted value after its first, the last of them with the closing quote and what follows it. */
  function Continued(quote: char, more: seq<seq<Token>>, tail: string): seq<string> {
    if more == [] then []
    else if |more| == 1 then [Text(more[0]) + [quote] + tail]
    else [Text(more[0])] + Continued(quote, more[1..], tail)
  }

  function Opened(quote: char, first: seq<Token>, more: seq<seq<Token>>, tail: string): string {
    if more == [] then Text(first) + [quote] + tail else Text(first)
  }

  function Lines(item: Item): seq<string> {
    match item
    case Ignored(text) => [text]
    case Binding(_, _, _, _, _, value, _, _) =>
      match value
      case Bare(text) => [Head(item) + text + Tail(item)]
      case Quoted(quote, first, more) =>
        [Head(item) + [quote] + Opened(quote, first, more, Tail(item))] + Continued(quote, more, Tail(item))
  }

  function AllLines(doc: seq<Item>): seq<string> {
    if doc == [] then [] else Lines(doc[0]) + AllLines(doc[1..])
  }

  /** Either line ending; the last line may go without. */
  function Terminated(lines: seq<string>, crlf: bool, ended: bool): string {
    if lines == [] then []
    else if |lines| == 1 && !ended then lines[0]
    else lines[0] + (if crlf then "\r\n" else "\n") + Terminated(lines[1..], crlf, ended)
  }

  /** A last line that is empty and has no end would not be there. */
  predicate MayEnd(lines: seq<string>, ended: bool) {
    ended || lines == [] || lines[|lines| - 1] != []
  }

  /** The byte order mark. */
  const MARK: char := 0xfeff as char

  function Written(doc: seq<Item>, crlf: bool, ended: bool, marked: bool): string {
    (if marked then [MARK] else []) + Terminated(AllLines(doc), crlf, ended)
  }

  // ---------------------------------------------------------------- what they mean

  /** Spaces at the end of the first of several lines do not count. */
  function WithoutTrailingSpace(tokens: seq<Token>): seq<Token> {
    if tokens != [] && tokens[|tokens| - 1].Plain? && IsWhitespace(tokens[|tokens| - 1].c)
    then WithoutTrailingSpace(tokens[..|tokens| - 1]) else tokens
  }

  function Joined(first: seq<Token>, more: seq<seq<Token>>): string
    decreases |more|
  {
    if more == [] then Meaning(first) else Meaning(first) + "\n" + Joined(more[0], more[1..])
  }

  function ValueMeaning(v: Value): string {
    match v
    case Bare(text) => text
    case Quoted(_, first, more) => Joined(if more == [] then first else WithoutTrailingSpace(first), more)
  }

  function Bound(item: Item, values: map<string, string>): map<string, string> {
    if item.Ignored? then values else values[item.key := ValueMeaning(item.value)]
  }

  /** No value holds a NUL, and no binding comes when 256 names are bound already. */
  predicate IsAllowed(item: Item, values: map<string, string>) {
    item.Binding? ==> '\0' !in ValueMeaning(item.value) && |values| < 256
  }

  /** Later bindings of a name replace earlier ones. */
  function DocMeaning(doc: seq<Item>, values: map<string, string>): Result<map<string, string>, ParseError> {
    if doc == [] then Ok(values)
    else if !IsAllowed(doc[0], values) then Err(Invalid)
    else DocMeaning(doc[1..], Bound(doc[0], values))
  }

  ghost predicate DocFits(doc: seq<Item>) {
    forall i :: 0 <= i < |doc| ==> ItemFits(doc[i])
  }

  // ---------------------------------------------------------------- trimming

  lemma {:induction false} TrimStartSkips(a: string, b: string)
    requires IsSpace(a) && (b == [] || !IsWhitespace(b[0]))
    ensures TrimStart(a + b) == b
  {
    if a == [] {
      assert a + b == b;
    } else {
      assert (a + b)[1..] == a[1..] + b;
      TrimStartSkips(a[1..], b);
    }
  }

  lemma {:induction false} TrimEndKeeps(a: string, b: string)
    requires a != [] && !IsWhitespace(a[|a| - 1])
    ensures TrimEnd(a + b) == a + TrimEnd(b)
    decreases |b|
  {
    if b == [] {
      assert a + b == a && a + TrimEnd(b) == a;
    } else if IsWhitespace(b[|b| - 1]) {
      assert (a + b)[..|a + b| - 1] == a + b[..|b| - 1];
      TrimEndKeeps(a, b[..|b| - 1]);
    }
  }

  lemma {:induction false} TrimEndSkips(b: string)
    requires IsSpace(b)
    ensures TrimEnd(b) == []
    decreases |b|
  {
    if b != [] {
      TrimEndSkips(b[..|b| - 1]);
    }
  }

  lemma TrimEndOfSpaced(a: string, b: string)
    requires IsSpace(b) && (a == [] || !IsWhitespace(a[|a| - 1]))
    ensures TrimEnd(a + b) == a
  {
    TrimEndSkips(b);
    if a == [] {
      assert a + b == b;
    } else {
      TrimEndKeeps(a, b);
    }
  }

  // ---------------------------------------------------------------- bare values

  lemma {:induction false} CommentStartIs(raw: string, from: nat, c: nat)
    requires from <= c <= |raw| && (c == |raw| || StartsComment(raw, c))
    requires forall i :: from <= i < c ==> !StartsComment(raw, i)
    ensures CommentStart(raw, from, from == 0 || IsWhitespace(raw[from - 1])) == c
    decreases |raw| - from
  {
    var previousSpace := from == 0 || IsWhitespace(raw[from - 1]);
    if from < c {
      CommentStartIs(raw, from + 1, c);
      assert !StartsComment(raw, from);
      assert CommentStart(raw, from, previousSpace) == CommentStart(raw, from + 1, IsWhitespace(raw[from]));
    } else {
      assert CommentStart(raw, from, previousSpace) == c;
    }
  }

  /** What counts as a comment: a '#' at the start or after a space, and nothing else. The spaces before it go too. */
  lemma BareReads(text: string, gap: string, comment: Option<string>)
    requires ValueFits(Bare(text)) && IsSpace(gap) && (comment.Some? && text != [] ==> gap != [])
    requires text == [] ==> gap == []
    ensures Unquoted(text + if comment.Some? then gap + "#" + comment.value else []) == text
  {
    var raw := text + if comment.Some? then gap + "#" + comment.value else [];
    var c := if comment.Some? then |text| + |gap| else |raw|;
    forall i | 0 <= i < c ensures !StartsComment(raw, i) {
      if i < |text| {
        assert raw[i] == text[i] && (i > 0 ==> raw[i - 1] == text[i - 1]);
        assert !StartsComment(text, i);
      } else {
        assert raw[i] == gap[i - |text|] && IsWhitespace(gap[i - |text|]) && !IsWhitespace('#');
      }
    }
    if comment.Some? && c > 0 {
      assert raw[c - 1] == gap[|gap| - 1];
    }
    CommentStartIs(raw, 0, c);
    assert raw[..c] == text + if comment.Some? then gap else [];
    TrimEndOfSpaced(text, if comment.Some? then gap else []);
  }

  // ---------------------------------------------------------------- quoted values

  lemma {:induction false} ScanReadsTokens(tokens: seq<Token>, quote: char, rest: string, acc: string)
    requires forall i :: 0 <= i < |tokens| ==> TokenFits(tokens[i], quote)
    ensures Scan(Text(tokens) + rest, quote, acc) == Scan(rest, quote, acc + Meaning(tokens))
    decreases |tokens|
  {
    if tokens == [] {
      assert Text(tokens) + rest == rest && acc + Meaning(tokens) == acc;
    } else {
      var t, after := tokens[0], Text(tokens[1..]) + rest;
      assert Text(tokens) + rest == TokenText(t) + after;
      ScanReadsToken(t, quote, after, acc);
      ScanReadsTokens(tokens[1..], quote, rest, acc + TokenMeaning(t));
      assert acc + TokenMeaning(t) + Meaning(tokens[1..]) == acc + Meaning(tokens);
    }
  }

  lemma ScanReadsToken(t: Token, quote: char, after: string, acc: string)
    requires TokenFits(t, quote)
    ensures Scan(TokenText(t) + after, quote, acc) == Scan(after, quote, acc + TokenMeaning(t))
  {
    var s := TokenText(t) + after;
    if t.Plain? {
      assert s[0] == t.c && s[1..] == after;
    } else {
      assert s[0] == '\\' && s[1] == t.c && s[2..] == after;
    }
  }

  /** After the closing quote nothing but spaces and a comment. */
  predicate TailFits(tail: string) {
    Trim(tail) == [] || Trim(tail)[0] == '#'
  }

  lemma {:induction false} QuotedReads(quote: char, first: seq<Token>, more: seq<seq<Token>>, tail: string,
          rest: seq<string>, acc: string)
    requires ValueFits(Quoted(quote, first, [])) && TailFits(tail)
    requires forall k, i :: 0 <= k < |more| && 0 <= i < |more[k]| ==> TokenFits(more[k][i], quote)
    ensures ReadQuoted(Opened(quote, first, more, tail), Continued(quote, more, tail) + rest, quote, acc)
            == Ok((acc + Joined(first, more), rest))
    decreases |more|
  {
    if more == [] {
      ScanCloses(quote, first, tail, acc);
      assert Continued(quote, more, tail) + rest == rest;
    } else {
      ScanStaysOpen(quote, first, acc);
      ContinuesWithNext(quote, more, tail, rest);
      QuotedReads(quote, more[0], more[1..], tail, rest, acc + Meaning(first) + "\n");
      JoinsNext(acc, first, more);
    }
  }

  lemma JoinsNext(acc: string, first: seq<Token>, more: seq<seq<Token>>)
    requires more != []
    ensures acc + Meaning(first) + "\n" + Joined(more[0], more[1..]) == acc + Joined(first, more)
  {}

  lemma ScanCloses(quote: char, first: seq<Token>, tail: string, acc: string)
    requires quote == '\'' || quote == '"'
    requires forall i :: 0 <= i < |first| ==> TokenFits(first[i], quote)
    ensures Scan(Text(first) + [quote] + tail, quote, acc) == Closed(acc + Meaning(first), tail)
  {
    assert Text(first) + [quote] + tail == Text(first) + ([quote] + tail);
    ScanReadsTokens(first, quote, [quote] + tail, acc);
    assert ([quote] + tail)[1..] == tail;
  }

  lemma ScanStaysOpen(quote: char, first: seq<Token>, acc: string)
    requires quote == '\'' || quote == '"'
    requires forall i :: 0 <= i < |first| ==> TokenFits(first[i], quote)
    ensures Scan(Text(first), quote, acc) == Open(acc + Meaning(first))
  {
    ScanReadsTokens(first, quote, [], acc);
    assert Text(first) + [] == Text(first);
  }

  lemma ContinuesWithNext(quote: char, more: seq<seq<Token>>, tail: string, rest: seq<string>)
    requires more != []
    ensures var lines := Continued(quote, more, tail) + rest;
            && lines != [] && lines[0] == Opened(quote, more[0], more[1..], tail)
            && lines[1..] == Continued(quote, more[1..], tail) + rest
  {
    var next := Opened(quote, more[0], more[1..], tail);
    assert Continued(quote, more, tail) == [next] + Continued(quote, more[1..], tail);
    DropsFirst(next, Continued(quote, more[1..], tail), rest);
  }

  lemma DropsFirst(line: string, lines: seq<string>, rest: seq<string>)
    ensures ([line] + lines + rest)[1..] == lines + rest
  {}

  lemma TailOfItemFits(gap: string, comment: Option<string>)
    requires IsSpace(gap)
    ensures TailFits(gap + Comment(comment)) && TailFits(TrimEnd(gap + Comment(comment)))
  {
    if comment.Some? {
      TrimStartSkips(gap, Comment(comment));
      assert gap + "#" + comment.value == gap + Comment(comment);
      TrimEndKeeps(gap + "#", comment.value);
      TrimEndKeeps("#", comment.value);
      assert gap + ("#" + TrimEnd(comment.value)) == gap + "#" + TrimEnd(comment.value);
      TrimStartSkips(gap, "#" + TrimEnd(comment.value));
      TrimEndKeeps("#", TrimEnd(comment.value));
    } else {
      assert gap + [] == gap;
      TrimStartSkips(gap, []);
      TrimEndSkips(gap);
    }
  }

  lemma {:induction false} TextSplits(tokens: seq<Token>)
    requires tokens != []
    ensures Text(tokens) == Text(tokens[..|tokens| - 1]) + TokenText(tokens[|tokens| - 1])
    decreases |tokens|
  {
    if |tokens| > 1 {
      TextSplits(tokens[1..]);
      assert tokens[1..][..|tokens| - 2] == tokens[..|tokens| - 1][1..];
    }
  }

  lemma {:induction false} TrimEndOfText(tokens: seq<Token>)
    requires EndsPlainly(WithoutTrailingSpace(tokens))
    ensures TrimEnd(Text(tokens)) == Text(WithoutTrailingSpace(tokens))
    decreases |tokens|
  {
    if tokens != [] {
      var last := tokens[|tokens| - 1];
      TextSplits(tokens);
      if last.Plain? && IsWhitespace(last.c) {
        assert Text(tokens)[..|Text(tokens)| - 1] == Text(tokens[..|tokens| - 1]);
        TrimEndOfText(tokens[..|tokens| - 1]);
      } else {
        assert Text(tokens)[|Text(tokens)| - 1] == last.c;
      }
    }
  }

  lemma {:induction false} TrailingSpaceIsPrefix(tokens: seq<Token>)
    ensures WithoutTrailingSpace(tokens) <= tokens
    decreases |tokens|
  {
    if tokens != [] {
      TrailingSpaceIsPrefix(tokens[..|tokens| - 1]);
    }
  }

  // ---------------------------------------------------------------- one item

  function Start(item: Item): string
    requires item.Binding?
  {
    (if item.exported then "export " else []) + item.key + item.left + "="
  }

  lemma NoStrayExport(key: string, left: string, after: string)
    requires ValidName(key) && IsSpace(left) && (key == "export" ==> left == [] || left[0] != ' ')
    ensures !("export " <= key + left + "=" + after)
  {
    NameCharsArePlain(key);
    var line := key + left + "=" + after;
    assert "export " == ['e', 'x', 'p', 'o', 'r', 't', ' '];
    if |key| >= 7 {
      assert line[6] == key[6];
    } else {
      assert line[|key|] == (if left == [] then '=' else left[0]) && line[..|key|] == key;
      assert "export "[..6] == "export";
      assert |key| < 6 ==> "export "[|key|] != '=' && !IsWhitespace("export "[|key|]);
    }
  }

  lemma StripsExport(item: Item, after: string)
    requires ItemFits(item) && item.Binding?
    ensures StripExport(Start(item) + after) == item.key + item.left + "=" + after
  {
    if item.exported {
      var line := Start(item) + after;
      assert line == "export " + (item.key + item.left + "=" + after);
      assert line[..7] == "export " && line[7..] == item.key + item.left + "=" + after;
    } else {
      NoStrayExport(item.key, item.left, after);
      assert Start(item) + after == item.key + item.left + "=" + after;
    }
  }

  lemma KeyReads(key: string, left: string, after: string)
    requires ValidName(key) && IsSpace(left)
    ensures var body := key + left + "=" + after;
            && TrimStart(body) == body && IndexOf(body, '=') == |key| + |left| < |body|
            && Trim(body[..|key| + |left|]) == key && body[|key| + |left| + 1..] == after
  {
    NameCharsArePlain(key);
    var body := key + left + "=" + after;
    assert body[..|key| + |left|] == key + left;
    assert (key + left)[0] == key[0];
    TrimEndOfSpaced(key, left);
    IndexOfIs(body, '=', |key| + |left|);
  }

  lemma LineTrims(item: Item, after: string)
    requires ItemFits(item) && item.Binding?
    ensures var line := Start(item) + TrimEnd(after);
            Trim(item.indent + Start(item) + after) == line && line[0] != '#'
  {
    NameCharsArePlain(item.key);
    var start := Start(item);
    assert start[|start| - 1] == '=' && start[0] == if item.exported then 'e' else item.key[0];
    assert item.indent + start + after == item.indent + (start + after);
    assert (start + after)[0] == start[0];
    TrimStartSkips(item.indent, start + after);
    TrimEndKeeps(start, after);
  }

  lemma AssignmentReads(item: Item, after: string)
    requires ItemFits(item) && item.Binding?
    ensures ReadAssignment(item.indent + Start(item) + after) == Ok(Assign(item.key, TrimStart(TrimEnd(after))))
  {
    LineTrims(item, after);
    StripsExport(item, TrimEnd(after));
    KeyReads(item.key, item.left, TrimEnd(after));
  }

  lemma IgnoredReads(text: string)
    requires ItemFits(Ignored(text))
    ensures ReadAssignment(text) == Ok(Skip)
  {
    var n: nat :| n <= |text| && IgnoredFrom(text, n);
    assert text == text[..n] + text[n..];
    TrimStartSkips(text[..n], text[n..]);
    if n < |text| {
      assert text[n..] == "#" + text[n + 1..];
      TrimEndKeeps("#", text[n + 1..]);
    }
  }

  lemma BareRaw(right: string, text: string, gap: string, comment: Option<string>)
    requires ValueFits(Bare(text)) && IsSpace(right) && IsSpace(gap) && (comment.Some? && text != [] ==> gap != [])
    ensures var raw := TrimStart(TrimEnd(right + text + (gap + Comment(comment))));
            Unquoted(raw) == text && (raw != [] ==> raw[0] != '\'' && raw[0] != '"')
  {
    BareGroups(right, text, gap, comment);
    if comment.None? {
      BareWithoutComment(right, text, gap);
    } else if text == [] {
      EmptyWithComment(right + gap, comment.value);
    } else {
      BareWithComment(right, text, gap, comment.value);
    }
  }

  lemma BareGroups(right: string, text: string, gap: string, comment: Option<string>)
    ensures var whole := right + text + (gap + Comment(comment));
            && (comment.None? ==> whole == right + text + gap)
            && (comment.Some? && text == [] ==> whole == (right + gap) + ("#" + comment.value))
            && (comment.Some? ==> whole == right + (text + (gap + "#" + comment.value)))
  {}

  lemma EmptyWithComment(space: string, comment: string)
    requires IsSpace(space)
    ensures var raw := TrimStart(TrimEnd(space + ("#" + comment))); Unquoted(raw) == [] && raw != [] && raw[0] == '#'
  {
    assert space + ("#" + comment) == (space + "#") + comment;
    TrimEndKeeps(space + "#", comment);
    assert space + "#" + TrimEnd(comment) == space + ("#" + TrimEnd(comment));
    TrimStartSkips(space, "#" + TrimEnd(comment));
    BareReads([], [], Some(TrimEnd(comment)));
    assert [] + ([] + "#" + TrimEnd(comment)) == "#" + TrimEnd(comment);
  }

  lemma BareWithComment(right: string, text: string, gap: string, comment: string)
    requires ValueFits(Bare(text)) && text != [] && IsSpace(right) && IsSpace(gap) && gap != []
    ensures var raw := TrimStart(TrimEnd(right + (text + (gap + "#" + comment))));
            Unquoted(raw) == text && raw != [] && raw[0] == text[0]
  {
    var before, c := right + text + gap + "#", TrimEnd(comment);
    assert right + (text + (gap + "#" + comment)) == before + comment;
    TrimEndKeeps(before, comment);
    assert before + c == right + (text + (gap + "#" + c));
    TrimStartSkips(right, text + (gap + "#" + c));
    BareReads(text, gap, Some(c));
  }

  lemma BareWithoutComment(right: string, text: string, gap: string)
    requires ValueFits(Bare(text)) && IsSpace(right) && IsSpace(gap)
    ensures TrimStart(TrimEnd(right + text + gap)) == text && Unquoted(text) == text
  {
    if text == [] {
      assert right + text + gap == right + gap;
      TrimEndSkips(right + gap);
    } else {
      assert (right + text)[|right + text| - 1] == text[|text| - 1];
      TrimEndOfSpaced(right + text, gap);
      TrimStartSkips(right, text);
    }
    BareReads(text, [], None);
    assert text + [] == text;
  }

  lemma QuotedRaw(right: string, value: Value, gap: string, comment: Option<string>)
    requires ValueFits(value) && value.Quoted? && IsSpace(right) && IsSpace(gap)
    ensures var tail := gap + Comment(comment);
            var first := if value.more == [] then value.first else WithoutTrailingSpace(value.first);
            TrimStart(TrimEnd(right + ([value.quote] + Opened(value.quote, value.first, value.more, tail))))
            == [value.quote] + Opened(value.quote, first, value.more, TrimEnd(tail))
  {
    if value.more == [] {
      ClosedRaw(right, value.quote, Text(value.first), gap + Comment(comment));
    } else {
      TrimEndOfText(value.first);
      OpenRaw(right, value.quote, Text(value.first));
    }
  }

  lemma ClosedRaw(right: string, quote: char, text: string, tail: string)
    requires IsSpace(right) && !IsWhitespace(quote)
    ensures TrimStart(TrimEnd(right + ([quote] + (text + [quote] + tail)))) == [quote]
            + (text + [quote] + TrimEnd(tail))
  {
    var before := right + [quote] + text + [quote];
    assert right + ([quote] + (text + [quote] + tail)) == before + tail;
    TrimEndKeeps(before, tail);
    assert before + TrimEnd(tail) == right + ([quote] + (text + [quote] + TrimEnd(tail)));
    TrimStartSkips(right, [quote] + (text + [quote] + TrimEnd(tail)));
  }

  lemma OpenRaw(right: string, quote: char, text: string)
    requires IsSpace(right) && !IsWhitespace(quote)
    ensures TrimStart(TrimEnd(right + ([quote] + text))) == [quote] + TrimEnd(text)
  {
    assert right + ([quote] + text) == (right + [quote]) + text;
    TrimEndKeeps(right + [quote], text);
    assert right + [quote] + TrimEnd(text) == right + ([quote] + TrimEnd(text));
    TrimStartSkips(right, [quote] + TrimEnd(text));
  }

  lemma QuotedItemReads(item: Item, rest: seq<string>)
    requires ItemFits(item) && item.Binding? && item.value.Quoted?
    ensures var v := item.value;
            var raw := TrimStart(TrimEnd(item.right + ([v.quote] + Opened(v.quote, v.first, v.more, Tail(item)))));
            ReadValue(raw, Continued(v.quote, v.more, Tail(item)) + rest) == Ok((ValueMeaning(v), rest))
  {
    var v := item.value;
    var first := if v.more == [] then v.first else WithoutTrailingSpace(v.first);
    QuotedRaw(item.right, v, item.gap, item.comment);
    TailOfItemFits(item.gap, item.comment);
    TrailingSpaceIsPrefix(v.first);
    if v.more == [] {
      QuotedReads(v.quote, first, [], TrimEnd(Tail(item)), rest, []);
      assert Continued(v.quote, v.more, Tail(item)) + rest == rest;
      assert Continued(v.quote, [], TrimEnd(Tail(item))) + rest == rest;
    } else {
      QuotedReads(v.quote, first, v.more, Tail(item), rest, []);
    }
    assert [] + Joined(first, v.more) == Joined(first, v.more);
  }

  // ---------------------------------------------------------------- whole documents

  lemma {:induction false} TextIsLine(tokens: seq<Token>, quote: char)
    requires (quote == '\'' || quote == '"') && forall i :: 0 <= i < |tokens| ==> TokenFits(tokens[i], quote)
    ensures IsLine(Text(tokens))
  {
    if tokens != [] {
      TextIsLine(tokens[1..], quote);
    }
  }

  lemma {:induction false} ContinuedAreLines(quote: char, more: seq<seq<Token>>, tail: string)
    requires (quote == '\'' || quote == '"') && IsLine(tail)
    requires forall k, i :: 0 <= k < |more| && 0 <= i < |more[k]| ==> TokenFits(more[k][i], quote)
    ensures forall line :: line in Continued(quote, more, tail) ==> IsLine(line)
    decreases |more|
  {
    if more != [] {
      TextIsLine(more[0], quote);
      ContinuedAreLines(quote, more[1..], tail);
    }
  }

  lemma HeadAndTailAreLines(item: Item)
    requires ItemFits(item) && item.Binding?
    ensures IsLine(Head(item)) && IsLine(Tail(item))
  {
    NameCharsArePlain(item.key);
    assert '\r' !in item.key;
  }

  lemma ItemIsLines(item: Item)
    requires ItemFits(item)
    ensures forall line :: line in Lines(item) ==> IsLine(line)
  {
    if item.Binding? {
      HeadAndTailAreLines(item);
      if item.value.Quoted? {
        var v := item.value;
        TextIsLine(v.first, v.quote);
        ContinuedAreLines(v.quote, v.more, Tail(item));
      }
    }
  }

  lemma {:induction false} DocIsLines(doc: seq<Item>)
    requires DocFits(doc)
    ensures forall line :: line in AllLines(doc) ==> IsLine(line)
  {
    if doc != [] {
      ItemIsLines(doc[0]);
      DocIsLines(doc[1..]);
    }
  }

  /** Either way of ending lines reads the same. */
  lemma {:induction false} TerminatedSplits(lines: seq<string>, crlf: bool, ended: bool)
    requires (forall line :: line in lines ==> IsLine(line)) && MayEnd(lines, ended)
    ensures SplitLines(Terminated(lines, crlf, ended)) == lines
  {
    if |lines| == 1 && !ended {
      LastLineSplits(lines[0]);
      assert lines == [lines[0]];
    } else if lines != [] {
      TerminatedSplits(lines[1..], crlf, ended);
      LineSplits(lines[0], Terminated(lines[1..], crlf, ended), crlf);
    }
  }

  lemma LastLineSplits(line: string)
    requires IsLine(line) && line != []
    ensures SplitLines(line) == [line]
  {}

  lemma LineSplits(line: string, rest: string, crlf: bool)
    requires IsLine(line)
    ensures SplitLines(line + (if crlf then "\r\n" else "\n") + rest) == [line] + SplitLines(rest)
  {
    if crlf {
      CrlfLineSplits(line, rest);
    } else {
      LfLineSplits(line, rest);
    }
  }

  lemma LfLineSplits(line: string, rest: string)
    requires IsLine(line)
    ensures SplitLines(line + "\n" + rest) == [line] + SplitLines(rest)
  {
    var s := line + "\n" + rest;
    IndexOfIs(s, '\n', |line|);
    assert s[..|line|] == line && s[|line| + 1..] == rest;
  }

  lemma CrlfLineSplits(line: string, rest: string)
    requires IsLine(line)
    ensures SplitLines(line + "\r\n" + rest) == [line] + SplitLines(rest)
  {
    var s := line + "\r\n" + rest;
    IndexOfIs(s, '\n', |line| + 1);
    assert s[..|line|] == line && s[|line| + 2..] == rest;
  }

  lemma ItemParses(item: Item, rest: seq<string>, done: map<string, string>)
    requires ItemFits(item)
    ensures ParseLines(Lines(item) + rest, done)
            == if IsAllowed(item, done) then ParseLines(rest, Bound(item, done)) else Err(Invalid)
  {
    var lines := Lines(item) + rest;
    match item
    case Ignored(text) =>
      IgnoredReads(text);
      assert lines[0] == text && lines[1..] == rest;
    case Binding(_, _, _, _, _, Bare(text), _, _) => BareItemParses(item, rest, done);
    case Binding(_, _, _, _, _, Quoted(_, _, _), _, _) => QuotedItemParses(item, rest, done);
  }

  lemma BareItemParses(item: Item, rest: seq<string>, done: map<string, string>)
    requires ItemFits(item) && item.Binding? && item.value.Bare?
    ensures ParseLines(Lines(item) + rest, done)
            == if IsAllowed(item, done) then ParseLines(rest, Bound(item, done)) else Err(Invalid)
  {
    var after := item.right + item.value.text + Tail(item);
    var line := item.indent + Start(item) + after;
    BareItemLines(item);
    AssignmentReads(item, after);
    BareRaw(item.right, item.value.text, item.gap, item.comment);
    BindingParses(line, item.key, TrimStart(TrimEnd(after)), rest, done);
  }

  lemma BareItemLines(item: Item)
    requires item.Binding? && item.value.Bare?
    ensures Lines(item) == [item.indent + Start(item) + (item.right + item.value.text + Tail(item))]
  {
    var text, tail := item.value.text, Tail(item);
    HeadGroups(item, text, tail);
    assert item.right + (text + tail) == item.right + text + tail;
    assert Lines(item) == [Head(item) + text + tail];
  }

  /** A line that assigns reads its value, perhaps from more lines, and binds it. */
  lemma BindingParses(line: string, key: string, raw: string, following: seq<string>, done: map<string, string>)
    requires ReadAssignment(line) == Ok(Assign(key, raw))
    ensures ParseLines([line] + following, done)
            == match ReadValue(raw, following)
               case Err(e) => Err(e)
               case Ok((value, rest)) =>
                 if '\0' in value || |done| >= 256 then Err(Invalid) else ParseLines(rest, done[key := value])
  {
    var lines := [line] + following;
    assert lines[0] == line && lines[1..] == following;
  }

  lemma Regroup<T>(a: seq<T>, b: seq<T>, c: seq<T>)
    ensures a + b + c == a + (b + c)
  {}

  lemma QuotedItemLines(item: Item, after: string)
    requires item.Binding? && item.value.Quoted?
    requires var v := item.value; after == item.right + ([v.quote] + Opened(v.quote, v.first, v.more, Tail(item)))
    ensures Lines(item) == [item.indent + Start(item) + after]
                           + Continued(item.value.quote, item.value.more, Tail(item))
  {
    var v := item.value;
    var shown := Opened(v.quote, v.first, v.more, Tail(item));
    HeadGroups(item, [v.quote], shown);
    assert Lines(item) == [Head(item) + [v.quote] + shown] + Continued(v.quote, v.more, Tail(item));
  }

  lemma HeadGroups(item: Item, a: string, b: string)
    requires item.Binding?
    ensures Head(item) + a + b == item.indent + Start(item) + (item.right + (a + b))
  {
    var start := if item.exported then "export " else [];
    assert Head(item) == item.indent + (start + item.key + item.left + "=") + item.right;
  }

  lemma QuotedItemParses(item: Item, rest: seq<string>, done: map<string, string>)
    requires ItemFits(item) && item.Binding? && item.value.Quoted?
    ensures ParseLines(Lines(item) + rest, done)
            == if IsAllowed(item, done) then ParseLines(rest, Bound(item, done)) else Err(Invalid)
  {
    var v := item.value;
    var after := item.right + ([v.quote] + Opened(v.quote, v.first, v.more, Tail(item)));
    var following := Continued(v.quote, v.more, Tail(item)) + rest;
    QuotedItemLines(item, after);
    Regroup([item.indent + Start(item) + after], Continued(v.quote, v.more, Tail(item)), rest);
    AssignmentReads(item, after);
    QuotedItemReads(item, rest);
    BindingParses(item.indent + Start(item) + after, item.key, TrimStart(TrimEnd(after)), following, done);
  }

  /** What follows a document is read with what it has bound, unless it was refused. */
  lemma {:induction false} DocParses(doc: seq<Item>, rest: seq<string>, done: map<string, string>)
    requires DocFits(doc)
    ensures ParseLines(AllLines(doc) + rest, done)
            == match DocMeaning(doc, done)
               case Ok(values) => ParseLines(rest, values)
               case Err(e) => Err(e)
    decreases |doc|
  {
    if doc == [] {
      assert AllLines(doc) + rest == rest;
    } else {
      assert AllLines(doc) + rest == Lines(doc[0]) + (AllLines(doc[1..]) + rest);
      ItemParses(doc[0], AllLines(doc[1..]) + rest, done);
      if IsAllowed(doc[0], done) {
        DocParses(doc[1..], rest, Bound(doc[0], done));
      }
    }
  }

  lemma NoMarkInside(doc: seq<Item>, crlf: bool, ended: bool)
    requires DocFits(doc)
    ensures var s := Terminated(AllLines(doc), crlf, ended); s != [] ==> s[0] != MARK
  {
    if doc != [] {
      var line := Lines(doc[0])[0];
      match doc[0]
      case Ignored(text) =>
        var n: nat :| n <= |text| && IgnoredFrom(text, n);
        assert n > 0 ==> text[..n][0] == text[0];
      case Binding(indent, _, key, _, _, _, _, _) =>
        NameCharsArePlain(key);
        assert line[0] == if indent != [] then indent[0] else Start(doc[0])[0];
    }
  }

  lemma MarkIsStripped(text: string, marked: bool)
    requires text != [] ==> text[0] != MARK
    ensures StripMarks((if marked then [MARK] else []) + text) == text
  {
    if marked {
      assert ([MARK] + text)[1..] == text;
    } else {
      assert [] + text == text;
    }
  }

  /** Every document reads as what it means: with either line ending, with or without one at the
      end, with or without a byte order mark, with spaces and
      comments wherever they may be, later bindings replacing earlier ones, refused exactly for a NUL or a binding
      beyond 256 names. */
  lemma DocumentReads(doc: seq<Item>, crlf: bool, ended: bool, marked: bool)
    requires DocFits(doc) && MayEnd(AllLines(doc), ended)
    ensures ParseText(Written(doc, crlf, ended, marked)) == DocMeaning(doc, map[])
  {
    NoMarkInside(doc, crlf, ended);
    MarkIsStripped(Terminated(AllLines(doc), crlf, ended), marked);
    DocIsLines(doc);
    TerminatedSplits(AllLines(doc), crlf, ended);
    DocParses(doc, [], map[]);
    assert AllLines(doc) + [] == AllLines(doc);
  }

  /** Where a value over several lines is not what was written: exactly if spaces end its first line. */
  lemma FirstLineLosesItsSpaces(v: Value)
    requires ValueFits(v) && v.Quoted? && v.more != []
    ensures ValueMeaning(v) != Joined(v.first, v.more)
            <==> v.first != [] && v.first[|v.first| - 1].Plain? && IsWhitespace(v.first[|v.first| - 1].c)
  {
    var n := |v.first| - 1;
    if v.first != [] && v.first[n].Plain? && IsWhitespace(v.first[n].c) {
      TrimmingShortens(v.first);
    }
  }

  lemma TrimmingShortens(tokens: seq<Token>)
    requires tokens != [] && tokens[|tokens| - 1].Plain? && IsWhitespace(tokens[|tokens| - 1].c)
    ensures |Meaning(WithoutTrailingSpace(tokens))| < |Meaning(tokens)|
  {
    var kept := WithoutTrailingSpace(tokens);
    TrailingSpaceIsPrefix(tokens[..|tokens| - 1]);
    var lost := tokens[|kept|..];
    assert tokens == kept + lost;
    MeaningOfBoth(kept, lost);
    assert |TokenMeaning(lost[0])| > 0;
  }

  lemma {:induction false} MeaningOfBoth(a: seq<Token>, b: seq<Token>)
    ensures Meaning(a + b) == Meaning(a) + Meaning(b)
  {
    if a == [] {
      assert a + b == b;
    } else {
      assert (a + b)[1..] == a[1..] + b;
      MeaningOfBoth(a[1..], b);
    }
  }

  // ---------------------------------------------------------------- what is refused

  /** A line that is no comment and has no '='; one whose name is none, or longer than 128; text after a closing quote;
      a quote that is not closed before the end of the file; and a line of a value in double quotes that ends in a
      backslash, or, when it is the first, in one with spaces after it. */
  datatype Fault =
    | WithoutEquals(line: string)
    | BadName(indent: string, exported: bool, name: string, left: string, after: string)
    | TextAfterQuote(item: Item, junk: string)
    | Unclosed(item: Item)
    | LoneBackslash(item: Item, spaces: string)

  predicate FaultFits(f: Fault) {
    match f
    case WithoutEquals(line) => line != [] && !IsWhitespace(line[0]) && line[0] != '#' && '=' !in line
    case BadName(indent, exported, name, left, after) =>
      && IsSpace(indent) && IsSpace(left) && '=' !in name && (!ValidName(name) || |name| > 128)
      && (name != [] ==> !IsWhitespace(name[0]) && name[0] != '#' && !IsWhitespace(name[|name| - 1]))
      && (name == [] ==> left == []) && (exported || !("export " <= name + left))
    case TextAfterQuote(item, junk) =>
      && QuotedItemFits(item) && item.value.more == []
      && junk != [] && !IsWhitespace(junk[0]) && junk[0] != '#'
    case Unclosed(item) => QuotedItemFits(item) && EndsPlainly(WithoutTrailingSpace(item.value.first))
    case LoneBackslash(item, spaces) =>
      && QuotedItemFits(item) && item.value.quote == '"'
      && IsSpace(spaces) && (item.value.more != [] ==> spaces == [])
  }

  predicate QuotedItemFits(item: Item) {
    && item.Binding? && item.value.Quoted? && ValueFits(item.value)
    && IsSpace(item.indent) && IsSpace(item.left) && IsSpace(item.right) && IsSpace(item.gap) && item.comment.None?
    && ValidName(item.key) && |item.key| <= 128
    && (item.key == "export" && !item.exported ==> item.left == [] || item.left[0] != ' ')
  }

  function Texts(more: seq<seq<Token>>): seq<string> {
    if more == [] then [] else [Text(more[0])] + Texts(more[1..])
  }

  function Export(exported: bool): string {
    if exported then "export " else []
  }

  function Broken(first: seq<Token>, more: seq<seq<Token>>): string {
    if more == [] then Text(first) + "\\" else Text(first)
  }

  /** Lines of which the last ends in a backslash. */
  function BrokenOff(more: seq<seq<Token>>): seq<string> {
    if more == [] then [] else [Broken(more[0], more[1..])] + BrokenOff(more[1..])
  }

  function FaultLines(f: Fault): seq<string>
    requires FaultFits(f)
  {
    match f
    case WithoutEquals(line) => [line]
    case BadName(indent, exported, name, left, after) => [indent + (Export(exported) + (name + left + "=" + after))]
    case TextAfterQuote(item, junk) =>
      [item.indent + Start(item)
       + (item.right + ([item.value.quote] + (Text(item.value.first) + [item.value.quote] + (item.gap + junk))))]
    case Unclosed(item) =>
      [item.indent + Start(item) + (item.right + ([item.value.quote] + Text(item.value.first)))]
        + Texts(item.value.more)
    case LoneBackslash(item, spaces) =>
      [item.indent + Start(item)
       + (item.right + ([item.value.quote] + (Broken(item.value.first, item.value.more) + spaces)))]
        + BrokenOff(item.value.more)
  }

  lemma WithoutEqualsFails(line: string)
    requires FaultFits(WithoutEquals(line))
    ensures ReadAssignment(line) == Err(Invalid)
  {
    var first := line[..1];
    assert line == first + line[1..] && first[0] == line[0];
    TrimEndKeeps(first, line[1..]);
    TrimEndIsPrefix(line);
    var trimmed := TrimEnd(line);
    assert trimmed[0] == line[0];
    StripKeepsOut(trimmed);
  }

  lemma {:induction false} TrimEndIsPrefix(s: string)
    ensures TrimEnd(s) <= s
    decreases |s|
  {
    if s != [] && IsWhitespace(s[|s| - 1]) {
      TrimEndIsPrefix(s[..|s| - 1]);
    }
  }

  lemma {:induction false} TrimStartIsSuffix(s: string)
    ensures |TrimStart(s)| <= |s| && TrimStart(s) == s[|s| - |TrimStart(s)|..]
  {
    if s != [] && IsWhitespace(s[0]) {
      TrimStartIsSuffix(s[1..]);
    }
  }

  lemma StripKeepsOut(line: string)
    requires '=' !in line
    ensures '=' !in TrimStart(StripExport(line))
            && IndexOf(TrimStart(StripExport(line)), '=') == |TrimStart(StripExport(line))|
  {
    TrimStartIsSuffix(StripExport(line));
  }

  lemma BadNameFails(indent: string, exported: bool, name: string, left: string, after: string)
    requires FaultFits(BadName(indent, exported, name, left, after))
    ensures ReadAssignment(indent + (Export(exported) + (name + left + "=" + after))) == Err(Invalid)
  {
    BadNameTrims(indent, Export(exported), name, left, after);
    BadNameStrips(indent, exported, name, left, TrimEnd(after));
    BadNameIsRead(name, left, TrimEnd(after));
    NameIsRefused(indent + (Export(exported) + (name + left + "=" + after)), name + left + "=" + TrimEnd(after));
  }

  lemma BadNameStrips(indent: string, exported: bool, name: string, left: string, after: string)
    requires FaultFits(BadName(indent, exported, name, left, after))
    ensures StripExport(Export(exported) + (name + left + "=" + after)) == name + left + "=" + after
  {
    if !exported {
      NotExported(name, left, after);
    }
    ExportStrips(exported, name + left + "=" + after);
  }

  lemma ExportStrips(exported: bool, body: string)
    requires exported || !("export " <= body)
    ensures StripExport(Export(exported) + body) == body
  {
    if exported {
      assert (Export(exported) + body)[..7] == "export ";
    } else {
      assert Export(exported) + body == body;
    }
  }

  lemma NameIsRefused(text: string, body: string)
    requires Trim(text) != [] && Trim(text)[0] != '#' && StripExport(Trim(text)) == body && HasNoName(body)
    ensures ReadAssignment(text) == Err(Invalid)
  {}

  lemma BadNameTrims(indent: string, word: string, name: string, left: string, after: string)
    requires IsSpace(indent) && word in ["", "export "]
    requires name == [] || (!IsWhitespace(name[0]) && name[0] != '#')
    requires name == [] ==> left == []
    ensures var line := word + (name + left + "=" + TrimEnd(after));
            Trim(indent + (word + (name + left + "=" + after))) == line && line[0] != '#'
  {
    var named := name + left + "=";
    Regroup(word, named, after);
    Regroup(word, named, TrimEnd(after));
    assert (word + named)[0] == if word != [] then 'e' else if name == [] then '=' else name[0];
    assert (word + named)[|word + named| - 1] == '=';
    StartedLineTrims(indent, word + named, after);
  }

  lemma StartedLineTrims(indent: string, start: string, after: string)
    requires IsSpace(indent) && start != [] && !IsWhitespace(start[0]) && !IsWhitespace(start[|start| - 1])
    ensures Trim(indent + (start + after)) == start + TrimEnd(after)
  {
    TrimStartSkips(indent, start + after);
    TrimEndKeeps(start, after);
  }

  /** Before its first '=' there is no name. */
  predicate HasNoName(body: string) {
    var eq := IndexOf(body, '=');
    TrimStart(body) == body && eq < |body| && (!ValidName(Trim(body[..eq])) || |Trim(body[..eq])| > 128)
  }

  lemma BadNameIsRead(name: string, left: string, after: string)
    requires FaultFits(BadName([], true, name, left, after))
    ensures HasNoName(name + left + "=" + after)
  {
    var line, eq := name + left + "=" + after, |name| + |left|;
    assert line[0] == if name == [] then '=' else name[0];
    IndexOfIs(line, '=', eq);
    assert line[..eq] == name + left;
    TrimEndOfSpaced(name, left);
    assert name != [] ==> (name + left)[0] == name[0];
  }

  lemma NotExported(name: string, left: string, after: string)
    requires '=' !in name && IsSpace(left) && !("export " <= name + left)
    ensures !("export " <= name + left + "=" + after)
  {
    var line, n := name + left + "=" + after, |name| + |left|;
    assert "export " == ['e', 'x', 'p', 'o', 'r', 't', ' '];
    if n >= 7 {
      assert line[..7] == (name + left)[..7];
    } else {
      assert line[n] == '=' && "export "[n] != '=';
    }
  }

  lemma TextAfterQuoteFails(item: Item, junk: string, rest: seq<string>)
    requires FaultFits(TextAfterQuote(item, junk))
    ensures var v := item.value;
            var raw := TrimStart(TrimEnd(item.right + ([v.quote] + (Text(v.first) + [v.quote] + (item.gap + junk)))));
            ReadValue(raw, rest) == Err(Invalid)
  {
    var v := item.value;
    ClosedRaw(item.right, v.quote, Text(v.first), item.gap + junk);
    JunkStays(item.gap, junk);
    ScanCloses(v.quote, v.first, TrimEnd(item.gap + junk), []);
  }

  lemma JunkStays(gap: string, junk: string)
    requires IsSpace(gap) && junk != [] && !IsWhitespace(junk[0])
    ensures var tail := Trim(TrimEnd(gap + junk)); tail != [] && tail[0] == junk[0]
  {
    assert gap + junk == (gap + junk[..1]) + junk[1..];
    TrimEndKeeps(gap + junk[..1], junk[1..]);
    var kept := junk[..1] + TrimEnd(junk[1..]);
    assert gap + junk[..1] + TrimEnd(junk[1..]) == gap + kept;
    TrimStartSkips(gap, kept);
    TrimEndKeeps(junk[..1], TrimEnd(junk[1..]));
  }

  lemma {:induction false} UnclosedFails(quote: char, first: seq<Token>, more: seq<seq<Token>>, acc: string)
    requires quote == '\'' || quote == '"'
    requires forall i :: 0 <= i < |first| ==> TokenFits(first[i], quote)
    requires forall k, i :: 0 <= k < |more| && 0 <= i < |more[k]| ==> TokenFits(more[k][i], quote)
    ensures ReadQuoted(Text(first), Texts(more), quote, acc) == Err(Invalid)
    decreases |more|
  {
    ScanStaysOpen(quote, first, acc);
    if more != [] {
      assert Texts(more)[1..] == Texts(more[1..]);
      UnclosedFails(quote, more[0], more[1..], acc + Meaning(first) + "\n");
    }
  }

  lemma {:induction false} LoneBackslashFails(first: seq<Token>, more: seq<seq<Token>>, rest: seq<string>, acc: string)
    requires forall i :: 0 <= i < |first| ==> TokenFits(first[i], '"')
    requires forall k, i :: 0 <= k < |more| && 0 <= i < |more[k]| ==> TokenFits(more[k][i], '"')
    ensures ReadQuoted(Broken(first, more), BrokenOff(more) + rest, '"', acc) == Err(Invalid)
    decreases |more|
  {
    if more == [] {
      ScanReadsTokens(first, '"', "\\", acc);
    } else {
      ScanStaysOpen('"', first, acc);
      DropsFirst(Broken(more[0], more[1..]), BrokenOff(more[1..]), rest);
      LoneBackslashFails(more[0], more[1..], rest, acc + Meaning(first) + "\n");
    }
  }

  lemma BrokenRaw(item: Item, spaces: string)
    requires FaultFits(LoneBackslash(item, spaces))
    ensures var v := item.value;
            var first := if v.more == [] then v.first else WithoutTrailingSpace(v.first);
            TrimStart(TrimEnd(item.right + ([v.quote] + (Broken(v.first, v.more) + spaces))))
            == [v.quote] + Broken(first, v.more)
  {
    var v := item.value;
    OpenRaw(item.right, v.quote, Broken(v.first, v.more) + spaces);
    if v.more == [] {
      TrimEndOfSpaced(Broken(v.first, v.more), spaces);
    } else {
      assert Broken(v.first, v.more) + spaces == Text(v.first);
      TrimEndOfText(v.first);
    }
  }

  lemma BrokenValueFails(item: Item, spaces: string, rest: seq<string>)
    requires FaultFits(LoneBackslash(item, spaces))
    ensures var v := item.value;
            var raw := TrimStart(TrimEnd(item.right + ([v.quote] + (Broken(v.first, v.more) + spaces))));
            ReadValue(raw, BrokenOff(v.more) + rest) == Err(Invalid)
  {
    var v := item.value;
    var first := if v.more == [] then v.first else WithoutTrailingSpace(v.first);
    BrokenRaw(item, spaces);
    TrailingSpaceIsPrefix(v.first);
    LoneBackslashFails(first, v.more, rest, []);
    assert ([v.quote] + Broken(first, v.more))[1..] == Broken(first, v.more);
  }

  lemma BrokenStops(item: Item, spaces: string, rest: seq<string>, done: map<string, string>)
    requires FaultFits(LoneBackslash(item, spaces))
    ensures ParseLines(FaultLines(LoneBackslash(item, spaces)) + rest, done) == Err(Invalid)
  {
    QuotedItemIsItem(item);
    var v := item.value;
    var after := item.right + ([v.quote] + (Broken(v.first, v.more) + spaces));
    var line := item.indent + Start(item) + after;
    AssignmentReads(item, after);
    BrokenValueFails(item, spaces, rest);
    Regroup([line], BrokenOff(v.more), rest);
    BindingParses(line, item.key, TrimStart(TrimEnd(after)), BrokenOff(v.more) + rest, done);
  }

  lemma QuotedItemIsItem(item: Item)
    requires QuotedItemFits(item)
    ensures ItemFits(item)
  {}

  lemma FaultStops(f: Fault, rest: seq<string>, done: map<string, string>)
    requires FaultFits(f) && (f.Unclosed? ==> rest == [])
    ensures ParseLines(FaultLines(f) + rest, done) == Err(Invalid)
  {
    var lines := FaultLines(f) + rest;
    match f
    case WithoutEquals(line) => WithoutEqualsFails(line);
    case BadName(indent, exported, name, left, after) => BadNameFails(indent, exported, name, left, after);
    case TextAfterQuote(item, junk) =>
      QuotedItemIsItem(item);
      var v := item.value;
      AssignmentReads(item, item.right + ([v.quote] + (Text(v.first) + [v.quote] + (item.gap + junk))));
      TextAfterQuoteFails(item, junk, rest);
      assert lines[1..] == rest;
    case Unclosed(item) => UnclosedStops(item, done);
    case LoneBackslash(item, spaces) => BrokenStops(item, spaces, rest, done);
  }

  lemma UnclosedStops(item: Item, done: map<string, string>)
    requires FaultFits(Unclosed(item))
    ensures ParseLines(FaultLines(Unclosed(item)) + [], done) == Err(Invalid)
  {
    QuotedItemIsItem(item);
    var v, lines := item.value, FaultLines(Unclosed(item)) + [];
    var after := item.right + ([v.quote] + Text(v.first));
    AssignmentReads(item, after);
    UnclosedValueFails(item, after);
    assert lines == [item.indent + Start(item) + after] + Texts(v.more);
    BindingParses(item.indent + Start(item) + after, item.key, TrimStart(TrimEnd(after)), Texts(v.more), done);
  }

  lemma UnclosedValueFails(item: Item, after: string)
    requires FaultFits(Unclosed(item)) && after == item.right + ([item.value.quote] + Text(item.value.first))
    ensures ReadValue(TrimStart(TrimEnd(after)), Texts(item.value.more)) == Err(Invalid)
  {
    var v := item.value;
    var first := WithoutTrailingSpace(v.first);
    TrimEndOfText(v.first);
    OpenRaw(item.right, v.quote, Text(v.first));
    TrailingSpaceIsPrefix(v.first);
    UnclosedFails(v.quote, first, v.more, []);
    assert ([v.quote] + Text(first))[1..] == Text(first);
  }

  /** After any document, a fault makes the whole file invalid, whatever follows. */
  lemma FaultRefuses(doc: seq<Item>, f: Fault, rest: seq<string>, crlf: bool, ended: bool)
    requires DocFits(doc) && FaultFits(f) && (f.Unclosed? ==> rest == [])
    requires forall line :: line in FaultLines(f) + rest ==> IsLine(line)
    requires MayEnd(FaultLines(f) + rest, ended)
    requires doc == [] ==> (FaultLines(f)[0] + "=")[0] != MARK
    ensures ParseText(Terminated(AllLines(doc) + (FaultLines(f) + rest), crlf, ended)) == Err(Invalid)
  {
    var following := FaultLines(f) + rest;
    DocIsLines(doc);
    TerminatedSplits(AllLines(doc) + following, crlf, ended);
    FaultMarkFree(doc, f, rest, crlf, ended);
    FaultStopsAfter(doc, f, rest);
  }

  lemma FaultStopsAfter(doc: seq<Item>, f: Fault, rest: seq<string>)
    requires DocFits(doc) && FaultFits(f) && (f.Unclosed? ==> rest == [])
    ensures ParseLines(AllLines(doc) + (FaultLines(f) + rest), map[]) == Err(Invalid)
  {
    DocParses(doc, FaultLines(f) + rest, map[]);
    MeaningFailsOneWay(doc, map[]);
    if DocMeaning(doc, map[]).Ok? {
      FaultStops(f, rest, DocMeaning(doc, map[]).value);
    }
  }

  lemma MeaningFailsOneWay(doc: seq<Item>, values: map<string, string>)
    ensures DocMeaning(doc, values).Err? ==> DocMeaning(doc, values) == Err(Invalid)
  {}

  lemma FaultMarkFree(doc: seq<Item>, f: Fault, rest: seq<string>, crlf: bool, ended: bool)
    requires DocFits(doc) && FaultFits(f) && (doc == [] ==> (FaultLines(f)[0] + "=")[0] != MARK)
    ensures var s := Terminated(AllLines(doc) + (FaultLines(f) + rest), crlf, ended); StripMarks(s) == s
  {
    var lines := AllLines(doc) + (FaultLines(f) + rest);
    var s := Terminated(lines, crlf, ended);
    if doc == [] {
      assert lines[0] == FaultLines(f)[0];
    } else {
      NoMarkInside(doc, crlf, true);
      assert FaultLines(f) != [] && |lines| > 1;
      assert lines[0] == AllLines(doc)[0];
      assert s[0] == Terminated(AllLines(doc), crlf, true)[0];
    }
  }
}
