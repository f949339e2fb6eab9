/**
 The statement check of the `readonly_sql` tool and its row limit.

 Lowering the case of a text and the class of word characters come from the Unicode
 database: they are parameters (`Lexicon`), and every theorem holds for all of them.
 */
module SqlValidator {
  import opened Wrappers
  import SqlGrammar
  import opened SqlScanner

  /** What the check takes from the Unicode database. */
  datatype Lexicon = Lexicon(lower: string -> string, isWord: char -> bool)

  datatype ToolError =
    | MultipleStatements | EmptyQuery | NotASelect | ForbiddenKeyword(keyword: string)
    | TimedOut | InsufficientPrivileges | InvalidSyntax | ExecutionFailed

  datatype ToolErrorCode = INVALID_INPUT | TIMEOUT | UNAUTHORIZED | INTERNAL_ERROR

  function CodeOf(error: ToolError): ToolErrorCode {
    match error
    case TimedOut => TIMEOUT
    case InsufficientPrivileges => UNAUTHORIZED
    case ExecutionFailed => INTERNAL_ERROR
    case _ => INVALID_INPUT
  }

  const FORBIDDEN_KEYWORDS: seq<string> := [
    "insert", "update", "delete", "drop", "alter", "create", "grant", "revoke",
    "truncate", "call", "copy", "execute", "merge", "vacuum", "lock"
  ]

  /** White space as `str.strip` and the regular expression class `\\s` have it. */
  predicate IsSpace(c: char) {
    var n := c as int;
    || 0x09 <= n <= 0x0D || 0x1C <= n <= 0x20 || n == 0x85 || n == 0xA0 || n == 0x1680
    || 0x2000 <= n <= 0x200A || n == 0x2028 || n == 0x2029 || n == 0x202F || n == 0x205F || n == 0x3000
  }

  predicate AllSpace(s: string) {
    forall c :: c in s ==> IsSpace(c)
  }

  function StripLeft(s: string): string {
    if s != [] && IsSpace(s[0]) then StripLeft(s[1..]) else s
  }

  function StripRight(s: string): string {
    if s != [] && IsSpace(s[|s| - 1]) then StripRight(s[..|s| - 1]) else s
  }

  function Trim(s: string): string {
    StripRight(StripLeft(s))
  }

  function FirstWord(s: string): string {
    if s == [] || IsSpace(s[0]) then [] else [s[0]] + FirstWord(s[1..])
  }

  // ---- Whole words ----

  predicate WordAt(lexicon: Lexicon, s: string, i: int) {
    0 <= i < |s| && lexicon.isWord(s[i])
  }

  predicate IsBoundary(lexicon: Lexicon, s: string, i: int) {
    WordAt(lexicon, s, i - 1) != WordAt(lexicon, s, i)
  }

  predicate WholeWordAt(lexicon: Lexicon, s: string, keyword: string, i: nat) {
    && i + |keyword| <= |s| && s[i..i + |keyword|] == keyword
    && IsBoundary(lexicon, s, i) && IsBoundary(lexicon, s, i + |keyword|)
  }

  predicate HasWholeWord(lexicon: Lexicon, s: string, keyword: string) {
    exists i: nat | i <= |s| :: WholeWordAt(lexicon, s, keyword, i)
  }

  function FirstForbidden(lexicon: Lexicon, s: string, keywords: seq<string>): Option<string> {
    if keywords == [] then None
    else if HasWholeWord(lexicon, s, keywords[0]) then Some(keywords[0])
    else FirstForbidden(lexicon, s, keywords[1..])
  }

  /** A word stands alone: no word character touches it on either side. */
  lemma WholeWordsStandAlone(lexicon: Lexicon, s: string, keyword: string, i: nat)
    requires keyword != [] && forall c :: c in keyword ==> lexicon.isWord(c)
    ensures WholeWordAt(lexicon, s, keyword, i) <==>
              var end := i + |keyword|;
              && end <= |s| && s[i..end] == keyword
              && (i > 0 ==> !lexicon.isWord(s[i - 1])) && (end < |s| ==> !lexicon.isWord(s[end]))
  {
    var end := i + |keyword|;
    if end <= |s| && s[i..end] == keyword {
      assert s[i] == keyword[0] && s[end - 1] == keyword[|keyword| - 1];
    }
  }

  /** The first word is all that stands before the first white space. */
  lemma {:induction false} FirstWordExactly(s: string, word: string)
    ensures FirstWord(s) == word <==>
              && word <= s && (forall c :: c in word ==> !IsSpace(c))
              && (|word| < |s| ==> IsSpace(s[|word|]))
  {
    if s != [] && word != [] {
      FirstWordExactly(s[1..], word[1..]);
      assert word == [word[0]] + word[1..] && s == [s[0]] + s[1..];
      assert word <= s <==> word[0] == s[0] && word[1..] <= s[1..];
    }
  }

  // ---- The check ----

  function WithoutSemicolon(statement: string): string {
    if statement != [] && statement[|statement| - 1] == ';' then Trim(statement[..|statement| - 1]) else statement
  }

  function ValidateSingleSelect(lexicon: Lexicon, rawQuery: string): Result<string, ToolError> {
    var statement := WithoutSemicolon(Trim(rawQuery));
    if ';' in statement then Failure(MultipleStatements)
    else if statement == [] then Failure(EmptyQuery)
    else if lexicon.lower(FirstWord(statement)) !in {"select", "with"} then Failure(NotASelect)
    else
      match FirstForbidden(lexicon, lexicon.lower(Strip(statement)), FORBIDDEN_KEYWORDS)
      case Some(keyword) => Failure(ForbiddenKeyword(keyword))
      case None => Success(statement)
  }

  // ---- What the check accepts ----

  predicate Trimmed(s: string) {
    s != [] && !IsSpace(s[0]) && !IsSpace(s[|s| - 1])
  }

  /** One statement, a query by its first word, with no forbidden word in its code. */
  predicate IsSingleSelect(lexicon: Lexicon, s: string) {
    && Trimmed(s) && ';' !in s
    && lexicon.lower(FirstWord(s)) in {"select", "with"}
    && forall keyword :: keyword in FORBIDDEN_KEYWORDS ==>
         !HasWholeWord(lexicon, lexicon.lower(Strip(s)), keyword)
  }

  /** `raw` is `s` between white space, or that followed by one semicolon and white space. */
  ghost predicate IsPadded(raw: string, s: string) {
    exists before, after, rest :: PaddedBy(raw, s, before, after, rest)
  }

  predicate PaddedBy(raw: string, s: string, before: string, after: string, rest: string) {
    && AllSpace(before) && AllSpace(after) && AllSpace(rest)
    && (raw == before + s + after || raw == before + s + after + [';'] + rest)
  }

  lemma {:induction false} StripLeftSplits(s: string) returns (before: string)
    ensures AllSpace(before) && s == before + StripLeft(s)
    ensures StripLeft(s) == [] || !IsSpace(StripLeft(s)[0])
  {
    if s != [] && IsSpace(s[0]) {
      var more := StripLeftSplits(s[1..]);
      before := [s[0]] + more;
    } else {
      before := [];
    }
  }

  lemma {:induction false} StripRightSplits(s: string) returns (after: string)
    ensures AllSpace(after) && s == StripRight(s) + after
    ensures StripRight(s) == [] || !IsSpace(StripRight(s)[|StripRight(s)| - 1])
  {
    if s != [] && IsSpace(s[|s| - 1]) {
      var more := StripRightSplits(s[..|s| - 1]);
      after := more + [s[|s| - 1]];
    } else {
      after := [];
    }
  }

  lemma TrimSplits(s: string) returns (before: string, after: string)
    ensures AllSpace(before) && AllSpace(after) && s == before + Trim(s) + after
    ensures Trim(s) == [] || Trimmed(Trim(s))
  {
    before := StripLeftSplits(s);
    after := StripRightSplits(StripLeft(s));
  }

  lemma {:induction false} StripLeftOfPadded(before: string, s: string)
    requires AllSpace(before) && (s == [] || !IsSpace(s[0]))
    ensures StripLeft(before + s) == s
  {
    if before == [] {
      assert before + s == s;
    } else {
      assert (before + s)[1..] == before[1..] + s;
      StripLeftOfPadded(before[1..], s);
    }
  }

  lemma {:induction false} StripRightOfPadded(s: string, after: string)
    requires AllSpace(after) && (s == [] || !IsSpace(s[|s| - 1]))
    ensures StripRight(s + after) == s
  {
    if after == [] {
      assert s + after == s;
    } else {
      var n := |after| - 1;
      assert (s + after)[..|s| + n] == s + after[..n];
      StripRightOfPadded(s, after[..n]);
    }
  }

  lemma TrimOfPadded(before: string, s: string, after: string)
    requires AllSpace(before) && AllSpace(after) && Trimmed(s)
    ensures Trim(before + s + after) == s
  {
    assert before + s + after == before + (s + after);
    StripLeftOfPadded(before, s + after);
    StripRightOfPadded(s, after);
  }

  lemma {:induction false} FirstForbiddenFinds(lexicon: Lexicon, s: string, keywords: seq<string>)
    ensures FirstForbidden(lexicon, s, keywords).None? <==>
            forall keyword :: keyword in keywords ==> !HasWholeWord(lexicon, s, keyword)
  {
    if keywords != [] {
      FirstForbiddenFinds(lexicon, s, keywords[1..]);
      assert forall keyword :: keyword in keywords <==> keyword == keywords[0] || keyword in keywords[1..];
    }
  }

  lemma UnpaddedStatement(raw: string, s: string)
    requires Trimmed(s) && ';' !in s
    ensures WithoutSemicolon(Trim(raw)) == s <==> IsPadded(raw, s)
  {
    if WithoutSemicolon(Trim(raw)) == s {
      UnpaddedStatementSplits(raw, s);
    }
    if IsPadded(raw, s) {
      var before, after, rest :| PaddedBy(raw, s, before, after, rest);
      PaddingIsRemoved(raw, s, before, after, rest);
    }
  }

  lemma PaddingIsRemoved(raw: string, s: string, before: string, after: string, rest: string)
    requires Trimmed(s) && ';' !in s && PaddedBy(raw, s, before, after, rest)
    ensures WithoutSemicolon(Trim(raw)) == s
  {
    if raw == before + s + after {
      TrimOfPadded(before, s, after);
    } else {
      var core := s + after + [';'];
      assert before + core + rest == raw;
      TrimOfPadded(before, core, rest);
      assert core[..|core| - 1] == [] + s + after;
      TrimOfPadded([], s, after);
    }
  }

  lemma UnpaddedStatementSplits(raw: string, s: string)
    requires Trimmed(s) && ';' !in s && WithoutSemicolon(Trim(raw)) == s
    ensures IsPadded(raw, s)
  {
    var before, after := TrimSplits(raw);
    var core := Trim(raw);
    if core != [] && core[|core| - 1] == ';' {
      var b, a := TrimSplits(core[..|core| - 1]);
      if b == [] {
        assert core == s + a + [';'];
        assert PaddedBy(raw, s, before, a, after);
      } else {
        assert false;
      }
    } else {
      assert PaddedBy(raw, s, before, after, []);
    }
  }

  /** The check accepts exactly the padded forms of single selects, and returns the select. */
  lemma ValidatesExactlySingleSelects(lexicon: Lexicon, raw: string, s: string)
    ensures ValidateSingleSelect(lexicon, raw) == Success(s) <==> IsSingleSelect(lexicon, s) && IsPadded(raw, s)
  {
    var statement := WithoutSemicolon(Trim(raw));
    FirstForbiddenFinds(lexicon, lexicon.lower(Strip(statement)), FORBIDDEN_KEYWORDS);
    FirstForbiddenFinds(lexicon, lexicon.lower(Strip(s)), FORBIDDEN_KEYWORDS);
    if statement != [] {
      WithoutSemicolonIsTrimmed(raw);
    }
    if Trimmed(s) && ';' !in s {
      UnpaddedStatement(raw, s);
    }
  }

  lemma WithoutSemicolonIsTrimmed(raw: string)
    requires WithoutSemicolon(Trim(raw)) != []
    ensures Trimmed(WithoutSemicolon(Trim(raw)))
  {
    var _, _ := TrimSplits(raw);
    var core := Trim(raw);
    if core != [] {
      var _, _ := TrimSplits(core[..|core| - 1]);
    }
  }

  /** A refusal for a word names a forbidden word of the scan, the first of the list. */
  lemma {:induction false} RefusalNamesFirstKeyword(lexicon: Lexicon, s: string, keywords: seq<string>, keyword: string)
    ensures FirstForbidden(lexicon, s, keywords) == Some(keyword) <==>
            exists i :: 0 <= i < |keywords| && keywords[i] == keyword && HasWholeWord(lexicon, s, keyword)
              && forall j :: 0 <= j < i ==> !HasWholeWord(lexicon, s, keywords[j])
  {
    if keywords != [] && !HasWholeWord(lexicon, s, keywords[0]) {
      var rest := keywords[1..];
      RefusalNamesFirstKeyword(lexicon, s, rest, keyword);
      if FirstForbidden(lexicon, s, rest) == Some(keyword) {
        var i :| 0 <= i < |rest| && rest[i] == keyword && forall j :: 0 <= j < i ==> !HasWholeWord(lexicon, s, rest[j]);
        assert keywords[i + 1] == keyword;
        forall j | 0 <= j < i + 1
          ensures !HasWholeWord(lexicon, s, keywords[j])
        {
          assert j > 0 ==> keywords[j] == rest[j - 1];
        }
      }
      if i :| 0 <= i < |keywords| && keywords[i] == keyword && HasWholeWord(lexicon, s, keyword)
              && forall j :: 0 <= j < i ==> !HasWholeWord(lexicon, s, keywords[j]) {
        assert rest[i - 1] == keyword;
        forall j | 0 <= j < i - 1
          ensures !HasWholeWord(lexicon, s, rest[j])
        {
          assert rest[j] == keywords[j + 1];
        }
      }
    } else if keywords != [] {
      assert keywords[0] == keyword ==> FirstForbidden(lexicon, s, keywords) == Some(keyword);
    }
  }

  // ---- Every refusal, exactly ----

  lemma TrimmedHasText(s: string)
    ensures Trimmed(s) ==> !AllSpace(s)
    ensures Trimmed(s) && |s| > 1 ==> !AllSpace(s[..|s| - 1])
  {
    if Trimmed(s) {
      assert s[0] in s;
      if |s| > 1 {
        assert s[..|s| - 1][0] == s[0];
      }
    }
  }

  lemma BlankIsTrimmedAway(s: string)
    requires AllSpace(s)
    ensures Trim(s) == []
  {
    var before, after := TrimSplits(s);
    TrimmedHasText(Trim(s));
  }

  lemma BlankStatement(raw: string)
    ensures WithoutSemicolon(Trim(raw)) == [] <==> IsPadded(raw, [])
  {
    if IsPadded(raw, []) {
      var before, after, rest :| PaddedBy(raw, [], before, after, rest);
      if raw == before + [] + after {
        BlankIsTrimmedAway(raw);
      } else {
        assert raw == (before + after) + [';'] + rest;
        TrimOfPadded(before + after, [';'], rest);
        BlankIsTrimmedAway([]);
      }
    }
    if WithoutSemicolon(Trim(raw)) == [] {
      BlankIsPadded(raw);
    }
  }

  lemma BlankIsPadded(raw: string)
    requires WithoutSemicolon(Trim(raw)) == []
    ensures IsPadded(raw, [])
  {
    var core := Trim(raw);
    var before, after := TrimSplits(raw);
    if core == [] {
      assert PaddedBy(raw, [], before, after, []);
    } else {
      var b, a := TrimSplits(core[..|core| - 1]);
      TrimmedHasText(core);
      assert core == core[..|core| - 1] + [';'];
      assert PaddedBy(raw, [], before, [], after);
    }
  }

  /** `s` is the one statement of the query: what is left without the padding. */
  ghost predicate IsStatement(raw: string, s: string) {
    (s == [] || Trimmed(s)) && ';' !in s && IsPadded(raw, s)
  }

  lemma StatementOf(raw: string, s: string)
    ensures IsStatement(raw, s) <==> WithoutSemicolon(Trim(raw)) == s && ';' !in s
  {
    if s == [] {
      BlankStatement(raw);
    } else if Trimmed(s) && ';' !in s {
      UnpaddedStatement(raw, s);
    } else if WithoutSemicolon(Trim(raw)) == s {
      WithoutSemicolonIsTrimmed(raw);
    }
  }

  predicate IsQuery(lexicon: Lexicon, s: string) {
    lexicon.lower(FirstWord(s)) in {"select", "with"}
  }

  /** `keyword` is the first of the forbidden words, in the order of their list, that occurs as
      a whole word in the code of the statement. */
  ghost predicate IsFirstForbidden(lexicon: Lexicon, s: string, keyword: string) {
    var scan := lexicon.lower(Strip(s));
    exists i :: 0 <= i < |FORBIDDEN_KEYWORDS| && FORBIDDEN_KEYWORDS[i] == keyword
      && HasWholeWord(lexicon, scan, keyword)
      && forall j :: 0 <= j < i ==> !HasWholeWord(lexicon, scan, FORBIDDEN_KEYWORDS[j])
  }

  /** A query is refused for a forbidden word exactly when its one statement is a query in
      whose code this word is the first forbidden one. */
  lemma RefusesExactlyForbiddenWords(lexicon: Lexicon, raw: string, keyword: string)
    ensures ValidateSingleSelect(lexicon, raw) == Failure(ForbiddenKeyword(keyword)) <==>
            exists s :: s != [] && IsStatement(raw, s) && IsQuery(lexicon, s) && IsFirstForbidden(lexicon, s, keyword)
  {
    var statement := WithoutSemicolon(Trim(raw));
    StatementOf(raw, statement);
    RefusalNamesFirstKeyword(lexicon, lexicon.lower(Strip(statement)), FORBIDDEN_KEYWORDS, keyword);
    if s :| s != [] && IsStatement(raw, s) && IsQuery(lexicon, s) && IsFirstForbidden(lexicon, s, keyword) {
      StatementOf(raw, s);
    }
  }

  /** The other refusals: a query has no single statement, a blank one, or one that does not
      begin with a query word. */
  lemma RefusesExactlyOtherStatements(lexicon: Lexicon, raw: string)
    ensures ValidateSingleSelect(lexicon, raw) == Failure(MultipleStatements) <==> forall s :: !IsStatement(raw, s)
    ensures ValidateSingleSelect(lexicon, raw) == Failure(EmptyQuery) <==> IsStatement(raw, [])
    ensures ValidateSingleSelect(lexicon, raw) == Failure(NotASelect) <==>
            exists s :: s != [] && IsStatement(raw, s) && !IsQuery(lexicon, s)
  {
    var statement := WithoutSemicolon(Trim(raw));
    StatementOf(raw, statement);
    forall s | IsStatement(raw, s)
      ensures s == statement && ';' !in statement
    {
      StatementOf(raw, s);
    }
  }

  /** Checking an accepted statement again accepts it unchanged. */
  lemma ValidationIsAFixpoint(lexicon: Lexicon, raw: string)
    requires ValidateSingleSelect(lexicon, raw).Success?
    ensures var s := ValidateSingleSelect(lexicon, raw).value;
            ValidateSingleSelect(lexicon, s) == Success(s)
  {
    var s := ValidateSingleSelect(lexicon, raw).value;
    ValidatesExactlySingleSelects(lexicon, raw, s);
    assert PaddedBy(s, s, [], [], []);
    ValidatesExactlySingleSelects(lexicon, s, s);
  }

  /** Only code is searched for forbidden words: statements whose readings have the same
      code get the same verdict on their words, whatever their literals and comments say. */
  lemma HiddenTextIsIgnored(lexicon: Lexicon, a: seq<SqlGrammar.Segment>, b: seq<SqlGrammar.Segment>)
    requires SqlGrammar.WellFormed(a) && SqlGrammar.WellFormed(b)
    requires |a| == |b| && forall i :: 0 <= i < |a| ==> BlankOne(a[i]) == BlankOne(b[i])
    ensures FirstForbidden(lexicon, lexicon.lower(Strip(SqlGrammar.Render(a))), FORBIDDEN_KEYWORDS)
         == FirstForbidden(lexicon, lexicon.lower(Strip(SqlGrammar.Render(b))), FORBIDDEN_KEYWORDS)
  {
    StripOfRender(a);
    StripOfRender(b);
    BlankPointwise(a, b);
  }

  lemma {:induction false} BlankPointwise(a: seq<SqlGrammar.Segment>, b: seq<SqlGrammar.Segment>)
    requires |a| == |b| && forall i :: 0 <= i < |a| ==> BlankOne(a[i]) == BlankOne(b[i])
    ensures Blank(a) == Blank(b)
  {
    if a != [] {
      BlankPointwise(a[1..], b[1..]);
    }
  }

  // ---- Running the query ----

  /** A row, as its columns and their values in order. */
  type Row = seq<(string, string)>

  /** How the database answers: with all rows that the statement selects, or an exception. */
  datatype Answer =
    | Selects(table: seq<Row>)
    | TimeoutError
    | InsufficientPrivilegeError
    | PostgresSyntaxError
    | PostgresError

  datatype QueryOutput = QueryOutput(columns: seq<string>, rows: seq<Row>, rowCount: nat, truncated: bool)

  function AtMost(rows: seq<Row>, n: nat): seq<Row> {
    if |rows| <= n then rows else rows[..n]
  }

  function ColumnsOf(row: Row): (columns: seq<string>)
    ensures |columns| == |row| && forall i :: 0 <= i < |row| ==> columns[i] == row[i].0
  {
    seq(|row|, i requires 0 <= i < |row| => row[i].0)
  }

  /** The first `maxRows` rows of the table, whether there are more, and the first row's columns. */
  predicate IsPageOf(output: QueryOutput, table: seq<Row>, maxRows: nat) {
    && output.rows <= table && output.rowCount == |output.rows| <= maxRows
    && (output.truncated <==> |table| > maxRows)
    && (output.truncated ==> output.rowCount == maxRows)
    && (!output.truncated ==> output.rows == table)
    && |output.columns| == (if output.rows == [] then 0 else |output.rows[0]|)
    && forall i :: 0 <= i < |output.columns| ==> output.columns[i] == output.rows[0][i].0
  }

  predicate FailsWith(result: Result<QueryOutput, ToolError>, code: ToolErrorCode) {
    result.Failure? && CodeOf(result.error) == code
  }

  /** What the tool reports of an answer: the page, or an error of the exception's code. */
  predicate Reports(result: Result<QueryOutput, ToolError>, answer: Answer, maxRows: nat) {
    match answer
    case Selects(table) => result.Success? && IsPageOf(result.value, table, maxRows)
    case TimeoutError => FailsWith(result, TIMEOUT) && result.error == TimedOut
    case InsufficientPrivilegeError => FailsWith(result, UNAUTHORIZED) && result.error == InsufficientPrivileges
    case PostgresSyntaxError => FailsWith(result, INVALID_INPUT) && result.error == InvalidSyntax
    case PostgresError => FailsWith(result, INTERNAL_ERROR) && result.error == ExecutionFailed
  }

  function Report(answer: Answer, maxRows: nat): (result: Result<QueryOutput, ToolError>)
    ensures Reports(result, answer, maxRows)
  {
    match answer
    case TimeoutError => Failure(TimedOut)
    case InsufficientPrivilegeError => Failure(InsufficientPrivileges)
    case PostgresSyntaxError => Failure(InvalidSyntax)
    case PostgresError => Failure(ExecutionFailed)
    case Selects(table) =>
      var records := AtMost(table, maxRows + 1);
      var limited := AtMost(records, maxRows);
      var columns := if limited == [] then [] else ColumnsOf(limited[0]);
      Success(QueryOutput(columns, limited, |limited|, |records| > maxRows))
  }

  /** `database` answers the checked statement; its wrapping asks for one row more than the
      limit. No other statement reaches the database. */
  function RunQuery(lexicon: Lexicon, query: string, database: string -> Answer, maxRows: nat)
    : (result: Result<QueryOutput, ToolError>)
    ensures forall s :: IsSingleSelect(lexicon, s) && IsPadded(query, s) ==> Reports(result, database(s), maxRows)
    ensures (forall s :: !(IsSingleSelect(lexicon, s) && IsPadded(query, s))) ==> FailsWith(result, INVALID_INPUT)
  {
    match ValidateSingleSelect(lexicon, query)
    case Failure(error) =>
      RefusedIsNoSelect(lexicon, query);
      Failure(error)
    case Success(statement) =>
      AcceptedIsTheSelect(lexicon, query, statement);
      Report(database(statement), maxRows)
  }

  lemma RefusedIsNoSelect(lexicon: Lexicon, query: string)
    requires ValidateSingleSelect(lexicon, query).Failure?
    ensures forall s :: !(IsSingleSelect(lexicon, s) && IsPadded(query, s))
    ensures CodeOf(ValidateSingleSelect(lexicon, query).error) == INVALID_INPUT
  {
    forall s
      ensures !(IsSingleSelect(lexicon, s) && IsPadded(query, s))
    {
      ValidatesExactlySingleSelects(lexicon, query, s);
    }
  }

  lemma AcceptedIsTheSelect(lexicon: Lexicon, query: string, statement: string)
    requires ValidateSingleSelect(lexicon, query) == Success(statement)
    ensures IsSingleSelect(lexicon, statement) && IsPadded(query, statement)
    ensures forall s :: IsSingleSelect(lexicon, s) && IsPadded(query, s) ==> s == statement
  {
    ValidatesExactlySingleSelects(lexicon, query, statement);
    forall s | IsSingleSelect(lexicon, s) && IsPadded(query, s)
      ensures s == statement
    {
      ValidatesExactlySingleSelects(lexicon, query, s);
    }
  }
}
