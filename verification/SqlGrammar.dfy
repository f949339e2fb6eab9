/**
 A grammar of SQL text as the `readonly_sql` scanner sees it: code characters, quoted
 literals, line comments and block comments.

 `Render` writes segments as text and `Lex` reads text as segments. On well-formed
 segment lists the two are inverse to each other, so every text has exactly one reading.
 */
module SqlGrammar {

  /** A literal's body is stored with its doubled quotes undone. `closed` is false
      for a literal or block comment that runs to the end of the text. */
  datatype Segment =
    | Code(c: char)
    | Literal(quote: char, body: string, closed: bool)
    | LineComment(body: string)
    | BlockComment(body: string, closed: bool)

  predicate IsQuote(c: char) {
    c == '\'' || c == '"'
  }

  predicate StartsWith(s: string, c: char) {
    s != [] && s[0] == c
  }

  /** The two characters `a`, `b` stand at position `i` of `s`. */
  predicate PairAt(s: string, i: nat, a: char, b: char) {
    i + 1 < |s| && s[i] == a && s[i + 1] == b
  }

  // ---- Writing segments as text ----

  /** What follows the opening quote of a literal: the body with its quotes doubled,
      and the closing quote if there is one. */
  function LiteralText(body: string, quote: char, closed: bool): string {
    if body == [] then (if closed then [quote] else [])
    else (if body[0] == quote then [quote, quote] else [body[0]]) + LiteralText(body[1..], quote, closed)
  }

  function BlockText(body: string, closed: bool): string {
    body + if closed then ['*', '/'] else []
  }

  function RenderOne(seg: Segment): string {
    match seg
    case Code(c) => [c]
    case Literal(quote, body, closed) => [quote] + LiteralText(body, quote, closed)
    case LineComment(body) => ['-', '-'] + body
    case BlockComment(body, closed) => ['/', '*'] + BlockText(body, closed)
  }

  function Render(segs: seq<Segment>): string {
    if segs == [] then [] else RenderOne(segs[0]) + Render(segs[1..])
  }

  predicate NoClose(body: string) {
    forall i: nat :: i < |body| ==> !PairAt(body, i, '*', '/')
  }

  /** `seg` may stand in front of the text `rest`. */
  predicate FitsBefore(seg: Segment, rest: string) {
    match seg
    case Code(c) =>
      !IsQuote(c) && !(c == '-' && StartsWith(rest, '-')) && !(c == '/' && StartsWith(rest, '*'))
    case Literal(quote, body, closed) =>
      IsQuote(quote) && if closed then !StartsWith(rest, quote) else rest == []
    case LineComment(body) =>
      '\n' !in body && (rest == [] || rest[0] == '\n')
    case BlockComment(body, closed) =>
      NoClose(body) && (!closed ==> rest == [])
  }

  predicate WellFormed(segs: seq<Segment>) {
    segs != [] ==> FitsBefore(segs[0], Render(segs[1..])) && WellFormed(segs[1..])
  }

  // ---- Reading text as segments ----

  function LineEnd(s: string): (n: nat)
    ensures n <= |s|
  {
    if s == [] || s[0] == '\n' then 0 else 1 + LineEnd(s[1..])
  }

  /** The position of the first comment terminator in `s`, or `|s|`. */
  function CloseAt(s: string): (n: nat)
    ensures n == |s| || PairAt(s, n, '*', '/')
  {
    if |s| < 2 then |s|
    else if PairAt(s, 0, '*', '/') then 0
    else 1 + CloseAt(s[1..])
  }

  datatype LiteralTail = LiteralTail(body: string, closed: bool, used: nat)

  /** Reads what follows an opening quote. */
  function ReadLiteral(s: string, quote: char): (t: LiteralTail)
    ensures t.used <= |s|
  {
    if s == [] then LiteralTail([], false, 0)
    else if s[0] != quote then
      var t := ReadLiteral(s[1..], quote);
      LiteralTail([s[0]] + t.body, t.closed, 1 + t.used)
    else if StartsWith(s[1..], quote) then
      var t := ReadLiteral(s[2..], quote);
      LiteralTail([quote] + t.body, t.closed, 2 + t.used)
    else LiteralTail([], true, 1)
  }

  datatype Token = Token(seg: Segment, used: nat)

  /** The first segment of a non-empty text, and its length as text. */
  function FirstToken(s: string): (t: Token)
    requires s != []
    ensures 0 < t.used <= |s|
  {
    if PairAt(s, 0, '-', '-') then
      var n := LineEnd(s[2..]);
      Token(LineComment(s[2..][..n]), 2 + n)
    else if PairAt(s, 0, '/', '*') then
      var rest := s[2..];
      var n := CloseAt(rest);
      if n < |rest| then Token(BlockComment(rest[..n], true), n + 4)
      else Token(BlockComment(rest, false), |s|)
    else if IsQuote(s[0]) then
      var t := ReadLiteral(s[1..], s[0]);
      Token(Literal(s[0], t.body, t.closed), 1 + t.used)
    else Token(Code(s[0]), 1)
  }

  function Lex(s: string): seq<Segment> {
    if s == [] then []
    else
      var t := FirstToken(s);
      [t.seg] + Lex(s[t.used..])
  }

  // ---- Reading undoes writing ----

  lemma {:induction false} LineEndAfter(body: string, rest: string)
    requires '\n' !in body && (rest == [] || rest[0] == '\n')
    ensures LineEnd(body + rest) == |body|
  {
    if body == [] {
      assert body + rest == rest;
    } else {
      assert (body + rest)[1..] == body[1..] + rest;
      LineEndAfter(body[1..], rest);
    }
  }

  lemma NoCloseTail(body: string)
    requires body != [] && NoClose(body)
    ensures NoClose(body[1..])
  {
    forall i: nat | i < |body| - 1
      ensures !PairAt(body[1..], i, '*', '/')
    {
      assert !PairAt(body, i + 1, '*', '/');
    }
  }

  lemma {:induction false} CloseAtAfter(body: string, rest: string)
    requires NoClose(body)
    ensures CloseAt(body + (['*', '/'] + rest)) == |body|
  {
    if body != [] {
      var s := body + (['*', '/'] + rest);
      assert s[1..] == body[1..] + (['*', '/'] + rest);
      assert !PairAt(body, 0, '*', '/');
      NoCloseTail(body);
      CloseAtAfter(body[1..], rest);
    }
  }

  lemma {:induction false} CloseAtNever(body: string)
    requires NoClose(body)
    ensures CloseAt(body) == |body|
  {
    if |body| >= 2 {
      assert !PairAt(body, 0, '*', '/');
      NoCloseTail(body);
      CloseAtNever(body[1..]);
    }
  }

  lemma AppendDrop(a: string, b: string, c: string)
    ensures (a + b) + c == a + (b + c)
    ensures (a + (b + c))[|a|..] == b + c
  {
  }

  lemma {:induction false} ReadLiteralAfter(body: string, quote: char, closed: bool, rest: string)
    requires if closed then !StartsWith(rest, quote) else rest == []
    ensures var text := LiteralText(body, quote, closed);
            ReadLiteral(text + rest, quote) == LiteralTail(body, closed, |text|)
  {
    if body == [] {
      assert ([quote] + rest)[1..] == rest;
    } else {
      ReadLiteralAfter(body[1..], quote, closed, rest);
      var text := LiteralText(body[1..], quote, closed);
      AppendDrop(if body[0] == quote then [quote, quote] else [body[0]], text, rest);
      assert [body[0]] + body[1..] == body;
      if body[0] == quote {
        ReadDoubled(text + rest, quote);
      }
    }
  }

  lemma ReadDoubled(s: string, quote: char)
    ensures var t := ReadLiteral(s, quote);
            ReadLiteral([quote, quote] + s, quote) == LiteralTail([quote] + t.body, t.closed, 2 + t.used)
  {
    var d := [quote, quote] + s;
    assert d[2..] == s && d[1..][0] == quote;
  }

  lemma TokenOfLiteral(quote: char, body: string, closed: bool, rest: string)
    requires FitsBefore(Literal(quote, body, closed), rest)
    ensures var text := RenderOne(Literal(quote, body, closed));
            FirstToken(text + rest) == Token(Literal(quote, body, closed), |text|)
  {
    ReadLiteralAfter(body, quote, closed, rest);
    AppendDrop([quote], LiteralText(body, quote, closed), rest);
  }

  lemma TokenOfLineComment(body: string, rest: string)
    requires FitsBefore(LineComment(body), rest)
    ensures var text := RenderOne(LineComment(body));
            FirstToken(text + rest) == Token(LineComment(body), |text|)
  {
    LineEndAfter(body, rest);
    AppendDrop(['-', '-'], body, rest);
    assert (body + rest)[..|body|] == body;
  }

  lemma TokenOfBlockComment(body: string, closed: bool, rest: string)
    requires FitsBefore(BlockComment(body, closed), rest)
    ensures var text := RenderOne(BlockComment(body, closed));
            FirstToken(text + rest) == Token(BlockComment(body, closed), |text|)
  {
    AppendDrop(['/', '*'], BlockText(body, closed), rest);
    if closed {
      CloseAtAfter(body, rest);
      AppendDrop(body, ['*', '/'], rest);
      assert (body + (['*', '/'] + rest))[..|body|] == body;
    } else {
      CloseAtNever(body);
      assert BlockText(body, closed) + rest == body;
    }
  }

  lemma FirstTokenOfRendered(seg: Segment, rest: string)
    requires FitsBefore(seg, rest)
    ensures RenderOne(seg) + rest != []
    ensures FirstToken(RenderOne(seg) + rest) == Token(seg, |RenderOne(seg)|)
  {
    match seg
    case Code(c) =>
    case Literal(quote, body, closed) => TokenOfLiteral(quote, body, closed, rest);
    case LineComment(body) => TokenOfLineComment(body, rest);
    case BlockComment(body, closed) => TokenOfBlockComment(body, closed, rest);
  }

  /** Reading what was written gives the segments back. */
  lemma {:induction false} LexOfRender(segs: seq<Segment>)
    requires WellFormed(segs)
    ensures Lex(Render(segs)) == segs
  {
    if segs != [] {
      var seg, rest := segs[0], Render(segs[1..]);
      FirstTokenOfRendered(seg, rest);
      assert Render(segs)[|RenderOne(seg)|..] == rest;
      LexOfRender(segs[1..]);
    }
  }

  // ---- Writing undoes reading ----

  lemma {:induction false} LineEndStops(s: string)
    ensures '\n' !in s[..LineEnd(s)]
    ensures s[LineEnd(s)..] == [] || s[LineEnd(s)..][0] == '\n'
  {
    if s != [] && s[0] != '\n' {
      LineEndStops(s[1..]);
    }
  }

  lemma {:induction false} CloseAtIsFirst(s: string)
    ensures NoClose(s[..CloseAt(s)])
  {
    if |s| >= 2 && !PairAt(s, 0, '*', '/') {
      CloseAtIsFirst(s[1..]);
      var body := s[..CloseAt(s)];
      forall i: nat | 0 < i < |body|
        ensures !PairAt(body, i, '*', '/')
      {
        assert !PairAt(s[1..][..CloseAt(s[1..])], i - 1, '*', '/');
      }
    }
  }

  lemma SplitAt(s: string, i: nat, k: nat)
    requires i + k <= |s|
    ensures s[..i + k] == s[..i] + s[i..][..k]
    ensures s[i + k..] == s[i..][k..]
  {
  }

  ghost predicate LiteralWrites(s: string, quote: char, t: LiteralTail)
    requires t.used <= |s|
  {
    && s[..t.used] == LiteralText(t.body, quote, t.closed)
    && if t.closed then !StartsWith(s[t.used..], quote) else t.used == |s|
  }

  lemma {:induction false} ReadLiteralWrites(s: string, quote: char)
    ensures LiteralWrites(s, quote, ReadLiteral(s, quote))
  {
    if s == [] {
    } else if s[0] != quote {
      var t := ReadLiteral(s[1..], quote);
      ReadLiteralWrites(s[1..], quote);
      SplitAt(s, 1, t.used);
      assert ([s[0]] + t.body)[1..] == t.body;
    } else if StartsWith(s[1..], quote) {
      var t := ReadLiteral(s[2..], quote);
      ReadLiteralWrites(s[2..], quote);
      SplitAt(s, 2, t.used);
      assert ([quote] + t.body)[1..] == t.body;
      assert s[..2] == [quote, s[1..][0]];
    }
  }

  ghost predicate TokenWrites(s: string, t: Token)
    requires t.used <= |s|
  {
    s[..t.used] == RenderOne(t.seg) && FitsBefore(t.seg, s[t.used..])
  }

  lemma LiteralTokenWrites(s: string)
    requires s != [] && FirstToken(s).seg.Literal?
    ensures TokenWrites(s, FirstToken(s))
  {
    ReadLiteralWrites(s[1..], s[0]);
    SplitAt(s, 1, ReadLiteral(s[1..], s[0]).used);
  }

  lemma LineCommentTokenWrites(s: string)
    requires s != [] && FirstToken(s).seg.LineComment?
    ensures TokenWrites(s, FirstToken(s))
  {
    LineEndStops(s[2..]);
    SplitAt(s, 2, LineEnd(s[2..]));
  }

  lemma BlockCommentTokenWrites(s: string)
    requires s != [] && FirstToken(s).seg.BlockComment?
    ensures TokenWrites(s, FirstToken(s))
  {
    var rest := s[2..];
    CloseAtIsFirst(rest);
    var t := FirstToken(s);
    SplitAt(s, 2, t.used - 2);
    assert rest[..|rest|] == rest;
    if t.seg.closed {
      assert rest[..t.used - 2] == BlockText(t.seg.body, true);
    }
  }

  lemma FirstTokenWrites(s: string)
    requires s != []
    ensures TokenWrites(s, FirstToken(s))
  {
    match FirstToken(s).seg
    case Code(_) =>
    case Literal(_, _, _) => LiteralTokenWrites(s);
    case LineComment(_) => LineCommentTokenWrites(s);
    case BlockComment(_, _) => BlockCommentTokenWrites(s);
  }

  /** Every text is the rendering of its reading, and that reading is well formed. */
  lemma {:induction false} RenderOfLex(s: string)
    ensures WellFormed(Lex(s)) && Render(Lex(s)) == s
    decreases |s|
  {
    if s != [] {
      var t := FirstToken(s);
      FirstTokenWrites(s);
      RenderOfLex(s[t.used..]);
      assert Lex(s) == [t.seg] + Lex(s[t.used..]);
      assert Lex(s)[1..] == Lex(s[t.used..]);
      assert s == s[..t.used] + s[t.used..];
    }
  }

  /** A text has one well-formed reading: two that render alike are the same. */
  lemma ReadingIsUnique(a: seq<Segment>, b: seq<Segment>)
    requires WellFormed(a) && WellFormed(b)
    ensures Render(a) == Render(b) <==> a == b
  {
    LexOfRender(a);
    LexOfRender(b);
  }
}
