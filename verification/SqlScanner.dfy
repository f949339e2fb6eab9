/**
 The scanner of the `readonly_sql` tool: it blanks string literals and drops comments, so
 that a keyword search sees only code. Its loops return the code of the text's reading in
 `SqlGrammar`, with one space for each literal.
 */
module SqlScanner {
  import opened SqlGrammar

  // ---- What the scanner keeps ----

  function BlankOne(seg: Segment): string {
    match seg
    case Code(c) => [c]
    case Literal(_, _, _) => [' ']
    case LineComment(_) => []
    case BlockComment(_, _) => []
  }

  function Blank(segs: seq<Segment>): string {
    if segs == [] then [] else BlankOne(segs[0]) + Blank(segs[1..])
  }

  function Strip(statement: string): string {
    Blank(Lex(statement))
  }

  // ---- The scanner ----

  /** The scanner's loop over a line comment. */
  method SkipLine(statement: string, start: nat) returns (i: nat)
    requires start <= |statement|
    ensures i == start + LineEnd(statement[start..])
  {
    i := start;
    while i < |statement| && statement[i] != '\n'
      invariant start <= i <= |statement|
      invariant i + LineEnd(statement[i..]) == start + LineEnd(statement[start..])
    {
      assert statement[i..][1..] == statement[i + 1..];
      i := i + 1;
    }
  }

  /** The scanner's loop over a literal whose opening quote precedes `start`. */
  method SkipLiteral(statement: string, start: nat, quote: char) returns (i: nat)
    requires start <= |statement|
    ensures i == start + ReadLiteral(statement[start..], quote).used
  {
    i := start;
    while i < |statement|
      invariant start <= i <= |statement|
      invariant i + ReadLiteral(statement[i..], quote).used == start + ReadLiteral(statement[start..], quote).used
    {
      ghost var rest := statement[i..];
      assert rest[1..] == statement[i + 1..];
      if statement[i] == quote {
        if i + 1 < |statement| && statement[i + 1] == quote {
          assert rest[2..] == statement[i + 2..];
          i := i + 2;
          continue;
        }
        i := i + 1;
        break;
      }
      i := i + 1;
    }
  }

  lemma DropDrop(s: string, i: nat, k: nat)
    requires i + k <= |s|
    ensures s[i..][k..] == s[i + k..]
  {
  }

  /** One turn of the scanner at `i`: what it appends, how far it moves. */
  lemma Turn(statement: string, i: nat, t: Token)
    requires i < |statement| && FirstToken(statement[i..]) == t
    ensures i + t.used <= |statement|
    ensures Strip(statement[i..]) == BlankOne(t.seg) + Strip(statement[i + t.used..])
  {
    var s := statement[i..];
    DropDrop(statement, i, t.used);
    assert Lex(s)[1..] == Lex(s[t.used..]);
  }

  lemma TurnLineComment(statement: string, i: nat, j: nat)
    requires PairAt(statement, i, '-', '-')
    requires j == i + LineEnd(statement[i..])
    ensures i < j <= |statement| && Strip(statement[i..]) == Strip(statement[j..])
  {
    var s := statement[i..];
    DropDrop(s, 1, 1);
    Turn(statement, i, FirstToken(s));
  }

  lemma TurnBlockComment(statement: string, i: nat, end: nat, j: nat)
    requires PairAt(statement, i, '/', '*') && end == CloseAt(statement[i + 2..])
    requires j == if i + 2 + end < |statement| then i + 2 + end + 2 else |statement|
    ensures i < j <= |statement| && Strip(statement[i..]) == Strip(statement[j..])
  {
    var s := statement[i..];
    DropDrop(statement, i, 2);
    Turn(statement, i, FirstToken(s));
  }

  lemma TurnLiteral(statement: string, i: nat, j: nat)
    requires i < |statement| && IsQuote(statement[i])
    requires j == i + 1 + ReadLiteral(statement[i + 1..], statement[i]).used
    ensures i < j <= |statement| && Strip(statement[i..]) == [' '] + Strip(statement[j..])
  {
    var s := statement[i..];
    DropDrop(statement, i, 1);
    var t := ReadLiteral(s[1..], s[0]);
    Turn(statement, i, Token(Literal(s[0], t.body, t.closed), 1 + t.used));
  }

  lemma TurnCode(statement: string, i: nat)
    requires i < |statement| && !IsQuote(statement[i])
    requires !PairAt(statement, i, '-', '-') && !PairAt(statement, i, '/', '*')
    ensures Strip(statement[i..]) == [statement[i]] + Strip(statement[i + 1..])
  {
    Turn(statement, i, Token(Code(statement[i]), 1));
  }

  /** One turn of the scanner's loop: the text it appends and the index it moves to. */
  method ScanTurn(statement: string, i: nat) returns (piece: string, next: nat)
    requires i < |statement|
    ensures i < next <= |statement|
    ensures Strip(statement[i..]) == piece + Strip(statement[next..])
  {
    if PairAt(statement, i, '-', '-') {
      next := SkipLine(statement, i);
      TurnLineComment(statement, i, next);
      return [], next;
    }
    if PairAt(statement, i, '/', '*') {
      var end := CloseAt(statement[i + 2..]);
      next := if i + 2 + end < |statement| then i + 2 + end + 2 else |statement|;
      TurnBlockComment(statement, i, end, next);
      return [], next;
    }
    if IsQuote(statement[i]) {
      next := SkipLiteral(statement, i + 1, statement[i]);
      TurnLiteral(statement, i, next);
      return [' '], next;
    }
    TurnCode(statement, i);
    return [statement[i]], i + 1;
  }

  /** Blanks literals and drops comments. */
  method StripSqlLiteralsAndComments(statement: string) returns (result: string)
    ensures result == Strip(statement)
  {
    result := [];
    var i := 0;
    assert statement[0..] == statement;
    while i < |statement|
      invariant 0 <= i <= |statement|
      invariant Strip(statement) == result + Strip(statement[i..])
    {
      var piece, next := ScanTurn(statement, i);
      result, i := result + piece, next;
    }
  }

  // ---- What a caller may rely on ----

  /** Stripping inverts rendering: code is kept, a literal becomes a space, a comment nothing. */
  lemma StripOfRender(segs: seq<Segment>)
    requires WellFormed(segs)
    ensures Strip(Render(segs)) == Blank(segs)
  {
    LexOfRender(segs);
  }

  /** Segment by segment: the scan of a text is a code character as it is, one space for a
      literal, and nothing for a comment, and then the scan of what follows. */
  lemma StripsSegmentBySegment(seg: Segment, rest: seq<Segment>)
    requires WellFormed([seg] + rest)
    ensures Strip(Render([])) == ""
    ensures var scan, more := Strip(Render([seg] + rest)), Strip(Render(rest));
            && (seg.Code? ==> scan == [seg.c] + more)
            && (seg.Literal? ==> scan == " " + more)
            && (seg.LineComment? || seg.BlockComment? ==> scan == more)
  {
    assert ([seg] + rest)[1..] == rest;
    StripOfRender([seg] + rest);
    StripOfRender(rest);
  }

  lemma {:induction false} BlankIsShort(segs: seq<Segment>)
    requires WellFormed(segs)
    ensures |Blank(segs)| <= |Render(segs)|
    ensures forall c :: c in Blank(segs) ==> !IsQuote(c)
  {
    if segs != [] {
      BlankIsShort(segs[1..]);
    }
  }

  /** On every text, the scan is no longer than the text and holds no quote character. */
  lemma StripIsShort(s: string)
    ensures |Strip(s)| <= |s|
    ensures forall c :: c in Strip(s) ==> !IsQuote(c)
  {
    RenderOfLex(s);
    BlankIsShort(Lex(s));
  }
}
