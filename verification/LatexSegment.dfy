/**
 Rewriting LaTeX delimiters in a plain piece of Markdown: the text is cut into copied
 characters, currency markers and equations, each equation ending at its first unescaped closer.
 */
module LatexSegment {

  // ----- escapes --------------------------------------------------------------------------

  /** How many backslashes stand directly before the index. */
  function Slashes(text: string, index: nat): (n: nat)
    requires index <= |text|
    ensures n <= index
  {
    if index > 0 && text[index - 1] == '\\' then Slashes(text, index - 1) + 1 else 0
  }

  predicate Escaped(text: string, index: nat)
    requires index <= |text|
  {
    Slashes(text, index) % 2 == 1
  }

  method IsEscaped(text: string, index: nat) returns (escaped: bool)
    requires index <= |text|
    ensures escaped <==> Escaped(text, index)
  {
    var slashes: nat := 0;
    var cursor := index - 1;
    while cursor >= 0 && text[cursor] == '\\'
      invariant -1 <= cursor < index && slashes == index - 1 - cursor
      invariant Slashes(text, index) == slashes + Slashes(text, cursor + 1)
    {
      slashes := slashes + 1;
      cursor := cursor - 1;
    }
    escaped := slashes % 2 == 1;
  }

  /** An index is escaped exactly if a maximal odd run of backslashes ends before it. */
  lemma {:induction false} SlashesAreMaximal(text: string, index: nat)
    requires index <= |text|
    ensures forall k :: index - Slashes(text, index) <= k < index ==> text[k] == '\\'
    ensures Slashes(text, index) < index ==> text[index - Slashes(text, index) - 1] != '\\'
  {
    if index > 0 && text[index - 1] == '\\' { SlashesAreMaximal(text, index - 1); }
  }

  // ----- closers ----------------------------------------------------------------------------

  /** The delimiter stands at the index. */
  predicate At(text: string, index: nat, delimiter: string) {
    index + |delimiter| <= |text| && forall k :: 0 <= k < |delimiter| ==> text[index + k] == delimiter[k]
  }

  predicate Closes(text: string, index: nat, delimiter: string) {
    At(text, index, delimiter) && !Escaped(text, index)
  }

  /** The first unescaped closer at or after the index, or the end of the text. */
  function FirstCloser(text: string, from: nat, delimiter: string): (i: nat)
    requires from <= |text|
    ensures from <= i <= |text|
    decreases |text| - from
  {
    if from == |text| then |text|
    else if Closes(text, from, delimiter) then from
    else FirstCloser(text, from + 1, delimiter)
  }

  lemma {:induction false} FirstCloserIsFirst(text: string, from: nat, delimiter: string)
    requires from <= |text|
    ensures var i := FirstCloser(text, from, delimiter);
            && (i < |text| ==> Closes(text, i, delimiter))
            && forall k :: from <= k < i ==> !Closes(text, k, delimiter)
    decreases |text| - from
  {
    if from < |text| && !Closes(text, from, delimiter) { FirstCloserIsFirst(text, from + 1, delimiter); }
  }

  /** Where the delimiter occurs next, or the end of the text. */
  method IndexOf(text: string, delimiter: string, from: nat) returns (i: nat)
    requires from <= |text|
    ensures from <= i <= |text| && (i < |text| ==> At(text, i, delimiter))
    ensures forall k :: from <= k < i ==> !At(text, k, delimiter)
  {
    i := from;
    while i < |text| && !At(text, i, delimiter)
      invariant from <= i <= |text| && forall k :: from <= k < i ==> !At(text, k, delimiter)
    {
      i := i + 1;
    }
  }

  lemma {:induction false} FirstCloserIs(text: string, from: nat, delimiter: string, i: nat)
    requires from <= i <= |text|
    requires i < |text| ==> Closes(text, i, delimiter)
    requires forall k :: from <= k < i ==> !Closes(text, k, delimiter)
    ensures FirstCloser(text, from, delimiter) == i
    decreases |text| - from
  {
    if from < i { FirstCloserIs(text, from + 1, delimiter, i); }
  }

  /** The search resumes behind an escaped closer; no closer can begin inside one. */
  method FindClosingDelimiter(text: string, from: nat, delimiter: string) returns (at: nat)
    requires from <= |text| && (delimiter == "\\)" || delimiter == "\\]")
    ensures at == FirstCloser(text, from, delimiter)
  {
    var cursor := IndexOf(text, delimiter, from);
    while cursor < |text|
      invariant from <= cursor <= |text| && (cursor < |text| ==> At(text, cursor, delimiter))
      invariant forall k :: from <= k < cursor ==> !Closes(text, k, delimiter)
      decreases |text| - cursor
    {
      var escaped := IsEscaped(text, cursor);
      if !escaped {
        FirstCloserIs(text, from, delimiter, cursor);
        return cursor;
      }
      assert text[cursor + 1] == delimiter[1] && delimiter[0] == '\\';
      assert At(text, cursor + 1, delimiter) ==> text[cursor + 1 + 0] == delimiter[0];
      cursor := IndexOf(text, delimiter, cursor + 2);
    }
    FirstCloserIs(text, from, delimiter, |text|);
    return |text|;
  }

  // ----- currency ---------------------------------------------------------------------------

  predicate IsDigit(c: char) {
    '0' <= c <= '9'
  }

  predicate IsLetter(c: char) {
    'a' <= c <= 'z' || 'A' <= c <= 'Z'
  }

  predicate DigitAt(text: string, i: nat) {
    i < |text| && IsDigit(text[i])
  }

  predicate HasMathOperator(s: string) {
    exists k :: 0 <= k < |s| && s[k] in "=+*/^<>"
  }

  predicate HasProseWord(s: string) {
    exists k :: 0 <= k < |s| - 2 && IsLetter(s[k]) && IsLetter(s[k + 1]) && IsLetter(s[k + 2])
  }

  predicate ClosesMoney(text: string, i: nat) {
    i < |text| && text[i] == '$' && !Escaped(text, i)
  }

  /** The first unescaped dollar at or after the index, or the end of the text. */
  function FirstDollar(text: string, from: nat): (i: nat)
    requires from <= |text|
    ensures from <= i <= |text|
    decreases |text| - from
  {
    if from == |text| then |text|
    else if ClosesMoney(text, from) then from
    else FirstDollar(text, from + 1)
  }

  lemma {:induction false} FirstDollarIs(text: string, from: nat, i: nat)
    requires from <= i <= |text|
    requires i < |text| ==> ClosesMoney(text, i)
    requires forall k :: from <= k < i ==> !ClosesMoney(text, k)
    ensures FirstDollar(text, from) == i
    decreases |text| - from
  {
    if from < i { FirstDollarIs(text, from + 1, i); }
  }

  method IndexOfDollar(text: string, from: nat) returns (i: nat)
    requires from <= |text|
    ensures from <= i <= |text| && (i < |text| ==> text[i] == '$')
    ensures forall k :: from <= k < i ==> text[k] != '$'
  {
    i := from;
    while i < |text| && text[i] != '$'
      invariant from <= i <= |text| && forall k :: from <= k < i ==> text[k] != '$'
    {
      i := i + 1;
    }
  }

  /** A dollar before a digit marks money unless the next unescaped dollar closes a clear equation. */
  predicate IsCurrency(text: string, cursor: nat)
    requires cursor < |text|
  {
    && text[cursor] == '$' && DigitAt(text, cursor + 1) && !Escaped(text, cursor)
    && var closeAt := FirstDollar(text, cursor + 1);
       || closeAt == |text| || DigitAt(text, closeAt + 1)
       || var candidate := text[cursor + 1..closeAt];
          '\\' !in candidate && (!HasMathOperator(candidate) || HasProseWord(candidate))
  }

  // ----- pieces --------------------------------------------------------------------------------

  datatype Piece = Copied(c: char) | Currency | Inline(equation: string) | Display(equation: string)

  /** What the piece replaces. */
  function Source(p: Piece): string {
    match p
    case Copied(c) => [c]
    case Currency => "$"
    case Inline(equation) => "\\(" + equation + "\\)"
    case Display(equation) => "\\[" + equation + "\\]"
  }

  function Render(p: Piece): string {
    match p
    case Copied(c) => [c]
    case Currency => "\\$"
    case Inline(equation) => "$" + equation + "$"
    case Display(equation) =>
      "\n\n$$" + (if equation != "" && equation[0] == '\n' then "" else "\n") + equation
      + (if equation != "" && equation[|equation| - 1] == '\n' then "" else "\n") + "$$\n\n"
  }

  function CloserFor(display: bool): string {
    if display then "\\]" else "\\)"
  }

  predicate Opens(text: string, cursor: nat, display: bool) {
    At(text, cursor, if display then "\\[" else "\\(") && !Escaped(text, cursor)
  }

  /** An opener with a closer somewhere behind it. */
  predicate OpensEquation(text: string, cursor: nat, display: bool) {
    Opens(text, cursor, display) && FirstCloser(text, cursor + 2, CloserFor(display)) < |text|
  }

  function EquationAt(text: string, cursor: nat, display: bool): string
    requires OpensEquation(text, cursor, display)
  {
    text[cursor + 2..FirstCloser(text, cursor + 2, CloserFor(display))]
  }

  function PieceAt(text: string, cursor: nat): Piece
    requires cursor < |text|
  {
    if IsCurrency(text, cursor) then Currency
    else if OpensEquation(text, cursor, false) then Inline(EquationAt(text, cursor, false))
    else if OpensEquation(text, cursor, true) then Display(EquationAt(text, cursor, true))
    else Copied(text[cursor])
  }

  lemma EquationCoversText(text: string, cursor: nat, opener: string, close: nat, closer: string)
    requires |opener| == 2 && At(text, cursor, opener) && cursor + 2 <= close && At(text, close, closer)
    ensures At(text, cursor, opener + text[cursor + 2..close] + closer)
  {
  }

  lemma PieceCoversText(text: string, cursor: nat)
    requires cursor < |text|
    ensures At(text, cursor, Source(PieceAt(text, cursor))) && |Source(PieceAt(text, cursor))| > 0
  {
    if OpensEquation(text, cursor, false) {
      FirstCloserIsFirst(text, cursor + 2, "\\)");
      EquationCoversText(text, cursor, "\\(", FirstCloser(text, cursor + 2, "\\)"), "\\)");
    }
    if OpensEquation(text, cursor, true) {
      FirstCloserIsFirst(text, cursor + 2, "\\]");
      EquationCoversText(text, cursor, "\\[", FirstCloser(text, cursor + 2, "\\]"), "\\]");
    }
  }

  /** The piece that would start at each index. */
  function TableFrom(text: string, i: nat): (table: seq<Piece>)
    requires i <= |text|
    ensures |table| == |text| - i
    decreases |text| - i
  {
    if i == |text| then [] else [PieceAt(text, i)] + TableFrom(text, i + 1)
  }

  lemma {:induction false} TableAt(text: string, i: nat, k: nat)
    requires i <= k < |text|
    ensures TableFrom(text, i)[k - i] == PieceAt(text, k)
    decreases k - i
  {
    if i < k {
      TableAt(text, i + 1, k);
      assert TableFrom(text, i)[k - i] == TableFrom(text, i + 1)[k - i - 1];
    }
  }

  datatype PieceList = Nil | Cons(head: Piece, tail: PieceList)

  /** Each piece starts where the one before ends. */
  function Pieces(table: seq<Piece>, cursor: nat): PieceList
    decreases |table| - cursor
  {
    if cursor >= |table| then Nil else Cons(table[cursor], Pieces(table, cursor + |Source(table[cursor])|))
  }

  function Sources(ps: PieceList): string {
    match ps case Nil => "" case Cons(p, rest) => Source(p) + Sources(rest)
  }

  function Rendered(ps: PieceList): string {
    match ps case Nil => "" case Cons(p, rest) => Render(p) + Rendered(rest)
  }

  function Cut(text: string): PieceList {
    Pieces(TableFrom(text, 0), 0)
  }

  /** The normalized segment. */
  function Normalized(text: string): string {
    Rendered(Cut(text))
  }

  lemma AtSlice(text: string, index: nat, s: string)
    requires At(text, index, s)
    ensures text[index..index + |s|] == s
  {
  }

  /** The table's pieces cover the text they stand for. */
  ghost predicate Covers(text: string, table: seq<Piece>) {
    |table| == |text| && forall i :: 0 <= i < |text| ==> At(text, i, Source(table[i]))
  }

  lemma TableCovers(text: string)
    ensures Covers(text, TableFrom(text, 0))
  {
    forall i | 0 <= i < |text| ensures At(text, i, Source(TableFrom(text, 0)[i])) {
      TableAt(text, 0, i);
      PieceCoversText(text, i);
    }
  }

  /** The currency rule as it is checked. */
  method MarksCurrency(text: string, cursor: nat) returns (currency: bool)
    requires cursor < |text|
    ensures currency <==> IsCurrency(text, cursor)
  {
    if text[cursor] != '$' || !DigitAt(text, cursor + 1) { return false; }
    var escaped := IsEscaped(text, cursor);
    if escaped { return false; }
    var closeAt := IndexOfDollar(text, cursor + 1);
    while closeAt < |text|
      invariant cursor + 1 <= closeAt <= |text| && (closeAt < |text| ==> text[closeAt] == '$')
      invariant forall k :: cursor + 1 <= k < closeAt ==> !ClosesMoney(text, k)
      decreases |text| - closeAt
    {
      var behindSlash := IsEscaped(text, closeAt);
      if !behindSlash { break; }
      closeAt := IndexOfDollar(text, closeAt + 1);
    }
    FirstDollarIs(text, cursor + 1, closeAt);
    if closeAt == |text| || DigitAt(text, closeAt + 1) { return true; }
    var candidate := text[cursor + 1..closeAt];
    return '\\' !in candidate && (!HasMathOperator(candidate) || HasProseWord(candidate));
  }

  /** The output for an equation whose closer was found. */
  method EquationOutput(equation: string, display: bool) returns (output: string)
    ensures output == Render(if display then Display(equation) else Inline(equation))
  {
    if !display { return "$" + equation + "$"; }
    var leading := if equation != "" && equation[0] == '\n' then "" else "\n";
    var trailing := if equation != "" && equation[|equation| - 1] == '\n' then "" else "\n";
    return "\n\n$$" + leading + equation + trailing + "$$\n\n";
  }

  lemma PieceIs(text: string, cursor: nat, display: bool)
    requires cursor < |text| && !IsCurrency(text, cursor) && OpensEquation(text, cursor, display)
    ensures PieceAt(text, cursor) == if display then Display(EquationAt(text, cursor, true)) else Inline(EquationAt(text, cursor, false))
    ensures cursor + |Source(PieceAt(text, cursor))| == FirstCloser(text, cursor + 2, CloserFor(display)) + 2
  {
    OneOpener(text, cursor);
  }

  /** One round of the loop: what is appended and where the cursor moves. */
  method NextOutput(text: string, cursor: nat) returns (more: string, next: nat)
    requires cursor < |text|
    ensures more == Render(PieceAt(text, cursor)) && next == cursor + |Source(PieceAt(text, cursor))|
  {
    var currency := MarksCurrency(text, cursor);
    if currency { return "\\$", cursor + 1; }
    var escaped := IsEscaped(text, cursor);
    OneOpener(text, cursor);
    if !escaped && (At(text, cursor, "\\(") || At(text, cursor, "\\[")) {
      var display := At(text, cursor, "\\[");
      var closer := if display then "\\]" else "\\)";
      var closeAt := FindClosingDelimiter(text, cursor + 2, closer);
      if closeAt < |text| {
        PieceIs(text, cursor, display);
        more := EquationOutput(text[cursor + 2..closeAt], display);
        return more, closeAt + 2;
      }
    }
    return [text[cursor]], cursor + 1;
  }

  /** The two openers exclude each other. */
  lemma OneOpener(text: string, cursor: nat)
    ensures At(text, cursor, "\\(") ==> !At(text, cursor, "\\[")
  {
    if At(text, cursor, "\\(") { AtTwo(text, cursor, "\\("); }
    if At(text, cursor, "\\[") { AtTwo(text, cursor, "\\["); }
  }

  lemma AtTwo(text: string, index: nat, delimiter: string)
    requires |delimiter| == 2 && At(text, index, delimiter)
    ensures text[index] == delimiter[0] && text[index + 1] == delimiter[1]
  {
    assert text[index + 0] == delimiter[0];
  }

  // ----- what the pieces guarantee --------------------------------------------------------------

  lemma PiecesUnfold(table: seq<Piece>, cursor: nat, p: Piece, next: nat)
    requires cursor < |table| && p == table[cursor] && next == cursor + |Source(p)|
    ensures Pieces(table, cursor) == Cons(p, Pieces(table, next))
  {
  }

  lemma CoveredPiece(text: string, table: seq<Piece>, cursor: nat) returns (p: Piece, next: nat)
    requires Covers(text, table) && cursor < |text|
    ensures p == table[cursor] && next == cursor + |Source(p)|
    ensures cursor < next <= |text| && text[cursor..next] == Source(p)
  {
    p := table[cursor];
    next := cursor + |Source(p)|;
    AtSlice(text, cursor, Source(p));
  }

  lemma SourcesFollow(text: string, cursor: nat, p: Piece, next: nat, rest: PieceList)
    requires cursor <= next <= |text| && text[cursor..next] == Source(p) && Sources(rest) == text[next..]
    ensures Sources(Cons(p, rest)) == text[cursor..]
  {
    assert text[cursor..] == text[cursor..next] + text[next..];
  }

  lemma {:induction false} PiecesCover(text: string, table: seq<Piece>, cursor: nat)
    requires Covers(text, table) && cursor <= |text|
    ensures Sources(Pieces(table, cursor)) == text[cursor..]
    decreases |text| - cursor
  {
    if cursor < |text| {
      var p, next := CoveredPiece(text, table, cursor);
      PiecesUnfold(table, cursor, p, next);
      PiecesCover(text, table, next);
      SourcesFollow(text, cursor, p, next, Pieces(table, next));
    }
  }

  /** Nothing is lost or invented: the sources of the pieces concatenate to the text. */
  lemma PiecesCoverText(text: string)
    ensures Sources(Cut(text)) == text
  {
    TableCovers(text);
    PiecesCover(text, TableFrom(text, 0), 0);
  }

  /** An equation is copied unchanged up to its first unescaped closer. */
  lemma EquationClosesFirst(text: string, cursor: nat)
    requires cursor < |text| && (PieceAt(text, cursor).Inline? || PieceAt(text, cursor).Display?)
    ensures var p := PieceAt(text, cursor); var close := cursor + 2 + |p.equation|;
            && Opens(text, cursor, p.Display?)
            && text[cursor + 2..close] == p.equation
            && Closes(text, close, CloserFor(p.Display?))
            && forall k :: cursor + 2 <= k < close ==> !Closes(text, k, CloserFor(p.Display?))
  {
    FirstCloserIsFirst(text, cursor + 2, CloserFor(PieceAt(text, cursor).Display?));
  }

  /** An opener is rewritten exactly if it is unescaped and some unescaped closer follows. */
  lemma OpenerIsRewrittenExactly(text: string, cursor: nat, display: bool)
    requires cursor < |text|
    ensures OpensEquation(text, cursor, display)
       <==> if display then PieceAt(text, cursor).Display? else PieceAt(text, cursor).Inline?
  {
    OneOpener(text, cursor);
    if At(text, cursor, "\\(") { AtTwo(text, cursor, "\\("); }
    if At(text, cursor, "\\[") { AtTwo(text, cursor, "\\["); }
  }

  lemma OrdinaryCharacterIsCopied(text: string, cursor: nat)
    requires cursor < |text| && '$' !in text && '\\' !in text
    ensures PieceAt(text, cursor) == Copied(text[cursor])
  {
    assert text[cursor] in text;
    if At(text, cursor, "\\(") { AtTwo(text, cursor, "\\("); }
    if At(text, cursor, "\\[") { AtTwo(text, cursor, "\\["); }
  }

  lemma {:induction false} CopiedThrough(text: string, table: seq<Piece>, cursor: nat)
    requires |table| == |text| && cursor <= |text| && forall i :: 0 <= i < |text| ==> table[i] == Copied(text[i])
    ensures Rendered(Pieces(table, cursor)) == text[cursor..]
    decreases |text| - cursor
  {
    if cursor < |text| {
      CopiedThrough(text, table, cursor + 1);
      assert text[cursor..] == [text[cursor]] + text[cursor + 1..];
    }
  }

  /** Text without dollars and backslashes passes through unchanged. */
  lemma OrdinaryTextIsUnchanged(text: string)
    requires '$' !in text && '\\' !in text
    ensures Normalized(text) == text
  {
    forall i | 0 <= i < |text| ensures TableFrom(text, 0)[i] == Copied(text[i]) {
      TableAt(text, 0, i);
      OrdinaryCharacterIsCopied(text, i);
    }
    CopiedThrough(text, TableFrom(text, 0), 0);
  }
}
