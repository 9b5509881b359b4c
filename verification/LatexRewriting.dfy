/**
 What the segment pass puts out, said without its pieces: the text is read step by step, an equation
 becoming dollar math, a currency dollar an escaped dollar, and every other character itself.
 */
module LatexRewriting {
  import opened LatexSegment

  /** An equation: an unescaped opener at the index, and the first unescaped closer behind it. */
  ghost predicate IsEquation(text: string, p: nat, close: nat, opener: string, closer: string) {
    && p + 2 <= close && At(text, p, opener) && p <= |text| && !Escaped(text, p)
    && Closes(text, close, closer) && forall k :: p + 2 <= k < close ==> !Closes(text, k, closer)
  }

  /** The next unescaped dollar. */
  ghost predicate IsNextDollar(text: string, p: nat, close: nat) {
    p < close && ClosesMoney(text, close) && forall k :: p < k < close ==> !ClosesMoney(text, k)
  }

  /** An unescaped dollar before a digit, unless the next unescaped dollar ends something that can only be math:
      no further amount starts there, and between the two stands a backslash, or an operator and no word. */
  ghost predicate IsMoney(text: string, p: nat) {
    && p < |text| && text[p] == '$' && DigitAt(text, p + 1) && !Escaped(text, p)
    && forall close: nat :: IsNextDollar(text, p, close) ==>
         || DigitAt(text, close + 1)
         || ('\\' !in text[p + 1..close] && (!HasMathOperator(text[p + 1..close]) || HasProseWord(text[p + 1..close])))
  }

  /** The equation on lines of its own, with a line break put in front or behind only where it has none. */
  ghost predicate IsBlock(out: string, equation: string) {
    exists lead, trail :: out == "\n\n$$" + lead + equation + trail + "$$\n\n"
                       && lead == (if "\n" <= equation then "" else "\n")
                       && trail == (if equation != "" && equation[|equation| - 1] == '\n' then "" else "\n")
  }

  ghost predicate RewritesInline(text: string, p: nat, next: nat, out: string) {
    exists close: nat :: IsEquation(text, p, close, "\\(", "\\)") && next == close + 2 && out == "$" + text[p + 2..close] + "$"
  }

  ghost predicate RewritesDisplay(text: string, p: nat, next: nat, out: string) {
    exists close: nat :: IsEquation(text, p, close, "\\[", "\\]") && next == close + 2 && IsBlock(out, text[p + 2..close])
  }

  ghost predicate StartsEquation(text: string, p: nat) {
    exists close: nat :: IsEquation(text, p, close, "\\(", "\\)") || IsEquation(text, p, close, "\\[", "\\]")
  }

  /** One step from `p` to `next` with its output. */
  ghost predicate IsStep(text: string, p: nat, next: nat, out: string) {
    && p < |text|
    && if IsMoney(text, p) then next == p + 1 && out == "\\$"
       else if StartsEquation(text, p) then RewritesInline(text, p, next, out) || RewritesDisplay(text, p, next, out)
       else next == p + 1 && out == [text[p]]
  }

  function Joined(outs: seq<string>): string {
    if outs == [] then "" else outs[0] + Joined(outs[1..])
  }

  /** Steps from one position to another. */
  ghost predicate AreSteps(text: string, from: nat, cuts: seq<nat>, outs: seq<string>) {
    && |cuts| == |outs| + 1 && cuts[0] == from
    && forall k :: 0 <= k < |outs| ==> IsStep(text, cuts[k], cuts[k + 1], outs[k])
  }

  /** The output of reading the whole text in steps. */
  ghost predicate Rewrites(text: string, output: string) {
    exists cuts, outs :: AreSteps(text, 0, cuts, outs) && cuts[|outs|] == |text| && output == Joined(outs)
  }

  // ----- one step -------------------------------------------------------------------------------

  lemma {:induction false} FirstDollarIsFirst(text: string, from: nat)
    requires from <= |text|
    ensures var i := FirstDollar(text, from);
            (i < |text| ==> ClosesMoney(text, i)) && forall k :: from <= k < i ==> !ClosesMoney(text, k)
    decreases |text| - from
  {
    if from < |text| && !ClosesMoney(text, from) { FirstDollarIsFirst(text, from + 1); }
  }

  lemma NextDollarIs(text: string, p: nat, close: nat)
    requires p < |text|
    ensures IsNextDollar(text, p, close) <==> close < |text| && close == FirstDollar(text, p + 1)
  {
    FirstDollarIsFirst(text, p + 1);
  }

  lemma CurrencyIsMoney(text: string, p: nat)
    requires p < |text|
    ensures IsCurrency(text, p) <==> IsMoney(text, p)
  {
    var first := FirstDollar(text, p + 1);
    NextDollarIs(text, p, first);
    forall close: nat ensures IsNextDollar(text, p, close) <==> close < |text| && close == first { NextDollarIs(text, p, close); }
  }

  lemma InlineIs(text: string, p: nat, close: nat)
    requires p < |text|
    ensures IsEquation(text, p, close, "\\(", "\\)") <==> OpensEquation(text, p, false) && close == FirstCloser(text, p + 2, "\\)")
  {
    if At(text, p, "\\(") { FirstCloserIsFirst(text, p + 2, "\\)"); }
  }

  lemma DisplayIs(text: string, p: nat, close: nat)
    requires p < |text|
    ensures IsEquation(text, p, close, "\\[", "\\]") <==> OpensEquation(text, p, true) && close == FirstCloser(text, p + 2, "\\]")
  {
    if At(text, p, "\\[") { FirstCloserIsFirst(text, p + 2, "\\]"); }
  }

  lemma EquationsOpen(text: string, p: nat)
    requires p < |text|
    ensures StartsEquation(text, p) <==> OpensEquation(text, p, false) || OpensEquation(text, p, true)
  {
    forall close: nat
      ensures IsEquation(text, p, close, "\\(", "\\)") <==> OpensEquation(text, p, false) && close == FirstCloser(text, p + 2, "\\)")
      ensures IsEquation(text, p, close, "\\[", "\\]") <==> OpensEquation(text, p, true) && close == FirstCloser(text, p + 2, "\\]")
    {
      InlineIs(text, p, close);
      DisplayIs(text, p, close);
    }
    if OpensEquation(text, p, false) { InlineIs(text, p, FirstCloser(text, p + 2, "\\)")); }
    if OpensEquation(text, p, true) { DisplayIs(text, p, FirstCloser(text, p + 2, "\\]")); }
  }

  lemma DisplayIsBlock(equation: string)
    ensures IsBlock(Render(Display(equation)), equation)
  {
    var lead := if equation != "" && equation[0] == '\n' then "" else "\n";
    var trail := if equation != "" && equation[|equation| - 1] == '\n' then "" else "\n";
    assert "\n" <= equation <==> equation != "" && equation[0] == '\n';
    assert Render(Display(equation)) == "\n\n$$" + lead + equation + trail + "$$\n\n";
  }

  lemma InlineIsRewritten(text: string, p: nat)
    requires p < |text| && OpensEquation(text, p, false)
    ensures var eq := EquationAt(text, p, false); RewritesInline(text, p, p + 4 + |eq|, "$" + eq + "$")
  {
    InlineIs(text, p, FirstCloser(text, p + 2, "\\)"));
  }

  lemma DisplayIsRewritten(text: string, p: nat)
    requires p < |text| && OpensEquation(text, p, true)
    ensures var eq := EquationAt(text, p, true); RewritesDisplay(text, p, p + 4 + |eq|, Render(Display(eq)))
  {
    DisplayIs(text, p, FirstCloser(text, p + 2, "\\]"));
    DisplayIsBlock(EquationAt(text, p, true));
  }

  /** The pass takes exactly the step there is. */
  lemma PieceIsStep(text: string, p: nat)
    requires p < |text|
    ensures IsStep(text, p, p + |Source(PieceAt(text, p))|, Render(PieceAt(text, p)))
  {
    CurrencyIsMoney(text, p);
    EquationsOpen(text, p);
    if IsCurrency(text, p) {
    } else if OpensEquation(text, p, false) {
      InlineIsRewritten(text, p);
      assert |Source(Inline(EquationAt(text, p, false)))| == 4 + |EquationAt(text, p, false)|;
    } else if OpensEquation(text, p, true) {
      DisplayIsRewritten(text, p);
      assert |Source(Display(EquationAt(text, p, true)))| == 4 + |EquationAt(text, p, true)|;
    }
  }

  lemma EquationOnce(text: string, p: nat, opener: string, closer: string, close: nat, close': nat)
    requires IsEquation(text, p, close, opener, closer) && IsEquation(text, p, close', opener, closer)
    ensures close == close'
  {
  }

  lemma BlockOnce(out: string, out': string, equation: string)
    requires IsBlock(out, equation) && IsBlock(out', equation)
    ensures out == out'
  {
  }

  lemma OneKind(text: string, p: nat, close: nat, close': nat)
    ensures !(IsEquation(text, p, close, "\\(", "\\)") && IsEquation(text, p, close', "\\[", "\\]"))
  {
    OneOpener(text, p);
  }

  /** There is at most one step. */
  lemma StepOnce(text: string, p: nat, next: nat, out: string, next': nat, out': string)
    requires IsStep(text, p, next, out) && IsStep(text, p, next', out')
    ensures next == next' && out == out'
  {
    if !IsMoney(text, p) && StartsEquation(text, p) {
      if RewritesInline(text, p, next, out) {
        var c: nat :| IsEquation(text, p, c, "\\(", "\\)") && next == c + 2 && out == "$" + text[p + 2..c] + "$";
        forall c': nat ensures !IsEquation(text, p, c', "\\[", "\\]") { OneKind(text, p, c, c'); }
        var c': nat :| IsEquation(text, p, c', "\\(", "\\)") && next' == c' + 2 && out' == "$" + text[p + 2..c'] + "$";
        EquationOnce(text, p, "\\(", "\\)", c, c');
      } else {
        var c: nat :| IsEquation(text, p, c, "\\[", "\\]") && next == c + 2 && IsBlock(out, text[p + 2..c]);
        forall c': nat ensures !IsEquation(text, p, c', "\\(", "\\)") { OneKind(text, p, c', c); }
        var c': nat :| IsEquation(text, p, c', "\\[", "\\]") && next' == c' + 2 && IsBlock(out', text[p + 2..c']);
        EquationOnce(text, p, "\\[", "\\]", c, c');
        BlockOnce(out, out', text[p + 2..c]);
      }
    }
  }

  // ----- all steps ------------------------------------------------------------------------------

  lemma StepsPrepend(text: string, from: nat, next: nat, out: string, cuts: seq<nat>, outs: seq<string>)
    requires IsStep(text, from, next, out) && AreSteps(text, next, cuts, outs)
    ensures AreSteps(text, from, [from] + cuts, [out] + outs)
    ensures Joined([out] + outs) == out + Joined(outs) && ([from] + cuts)[|outs| + 1] == cuts[|outs|]
  {
    assert ([out] + outs)[1..] == outs;
    forall k | 0 <= k < |outs| + 1 ensures IsStep(text, ([from] + cuts)[k], ([from] + cuts)[k + 1], ([out] + outs)[k]) {
      if k > 0 { assert IsStep(text, cuts[k - 1], cuts[k], outs[k - 1]); }
    }
  }

  lemma StepOfPiece(text: string, cursor: nat, p: Piece)
    requires cursor < |text| && p == PieceAt(text, cursor)
    ensures IsStep(text, cursor, cursor + |Source(p)|, Render(p))
  {
    PieceIsStep(text, cursor);
  }

  /** The table holds the piece of every index. */
  ghost predicate IsTable(text: string, table: seq<Piece>) {
    |table| == |text| && forall i: nat :: i < |table| ==> table[i] == PieceAt(text, i)
  }

  lemma TableIs(text: string)
    ensures IsTable(text, TableFrom(text, 0))
  {
    forall i: nat | i < |text| ensures TableFrom(text, 0)[i] == PieceAt(text, i) { TableAt(text, 0, i); }
  }

  lemma RenderedHead(table: seq<Piece>, cursor: nat, p: Piece, next: nat)
    requires cursor < |table| && p == table[cursor] && next == cursor + |Source(p)|
    ensures Rendered(Pieces(table, cursor)) == Render(p) + Rendered(Pieces(table, next))
  {
    PiecesUnfold(table, cursor, p, next);
  }

  lemma StepOfTable(text: string, table: seq<Piece>, cursor: nat) returns (next: nat, out: string)
    requires IsTable(text, table) && Covers(text, table) && cursor < |text|
    ensures cursor < next <= |text| && IsStep(text, cursor, next, out)
    ensures Rendered(Pieces(table, cursor)) == out + Rendered(Pieces(table, next))
  {
    var p;
    p, next := CoveredPiece(text, table, cursor);
    StepOfPiece(text, cursor, p);
    RenderedHead(table, cursor, p, next);
    out := Render(p);
  }

  lemma {:induction false} PiecesAreSteps(text: string, table: seq<Piece>, cursor: nat) returns (cuts: seq<nat>, outs: seq<string>)
    requires IsTable(text, table) && Covers(text, table) && cursor <= |text|
    ensures AreSteps(text, cursor, cuts, outs) && cuts[|outs|] == |text| && Joined(outs) == Rendered(Pieces(table, cursor))
    decreases |text| - cursor
  {
    if cursor == |text| {
      cuts, outs := [cursor], [];
    } else {
      var next, out := StepOfTable(text, table, cursor);
      var restCuts, restOuts := PiecesAreSteps(text, table, next);
      StepsPrepend(text, cursor, next, out, restCuts, restOuts);
      cuts, outs := [cursor] + restCuts, [out] + restOuts;
    }
  }

  lemma StepsDrop(text: string, from: nat, cuts: seq<nat>, outs: seq<string>)
    requires AreSteps(text, from, cuts, outs) && outs != []
    ensures IsStep(text, from, cuts[1], outs[0]) && AreSteps(text, cuts[1], cuts[1..], outs[1..])
  {
    forall k | 0 <= k < |outs[1..]| ensures IsStep(text, cuts[1..][k], cuts[1..][k + 1], outs[1..][k]) {
      assert IsStep(text, cuts[k + 1], cuts[k + 2], outs[k + 1]);
    }
  }

  /** Reading in steps from one position to the end of the text has one outcome. */
  lemma {:induction false} StepsOnce(text: string, from: nat, cuts: seq<nat>, outs: seq<string>, cuts': seq<nat>, outs': seq<string>)
    requires AreSteps(text, from, cuts, outs) && cuts[|outs|] == |text|
    requires AreSteps(text, from, cuts', outs') && cuts'[|outs'|] == |text|
    ensures outs == outs'
    decreases |outs|
  {
    if outs == [] {
      if outs' != [] { StepsDrop(text, from, cuts', outs'); }
    } else {
      StepsDrop(text, from, cuts, outs);
      if outs' != [] {
        StepsDrop(text, from, cuts', outs');
        StepOnce(text, from, cuts[1], outs[0], cuts'[1], outs'[0]);
        StepsOnce(text, cuts[1], cuts[1..], outs[1..], cuts'[1..], outs'[1..]);
        assert outs == [outs[0]] + outs[1..] && outs' == [outs'[0]] + outs'[1..];
      }
    }
  }

  /** What the pass puts out is what reading the text in steps puts out, and nothing else is. */
  lemma NormalizedIsRewriting(text: string, output: string)
    ensures Rewrites(text, output) <==> output == Normalized(text)
  {
    TableCovers(text);
    TableIs(text);
    var cuts, outs := PiecesAreSteps(text, TableFrom(text, 0), 0);
    if Rewrites(text, output) {
      var cuts', outs' :| AreSteps(text, 0, cuts', outs') && cuts'[|outs'|] == |text| && output == Joined(outs');
      StepsOnce(text, 0, cuts, outs, cuts', outs');
    }
  }

  method NextFromTable(text: string, ghost table: seq<Piece>, cursor: nat) returns (more: string, next: nat)
    requires cursor < |text| && table == TableFrom(text, 0)
    ensures more == Render(table[cursor]) && next == cursor + |Source(table[cursor])| && cursor < next <= |text|
  {
    TableAt(text, 0, cursor);
    PieceCoversText(text, cursor);
    more, next := NextOutput(text, cursor);
  }

  method NormalizeLatexSegment(text: string) returns (output: string)
    ensures output == Normalized(text) && Rewrites(text, output)
  {
    NormalizedIsRewriting(text, Normalized(text));
    output := "";
    var cursor := 0;
    ghost var table := TableFrom(text, 0);
    while cursor < |text|
      invariant cursor <= |text|
      invariant output + Rendered(Pieces(table, cursor)) == Normalized(text)
      decreases |text| - cursor
    {
      var more, next := NextFromTable(text, table, cursor);
      assert output + (more + Rendered(Pieces(table, next))) == (output + more) + Rendered(Pieces(table, next));
      output, cursor := output + more, next;
    }
  }

  // ----- single equations -----------------------------------------------------------------------

  /** Behind its opener, the first unescaped closer is the one at the end. */
  ghost predicate ClosesAtEnd(text: string, closer: string) {
    && |text| >= 4 && Closes(text, |text| - 2, closer)
    && forall k :: 2 <= k < |text| - 2 ==> !Closes(text, k, closer)
  }

  lemma OneStepRewrites(text: string, out: string)
    requires IsStep(text, 0, |text|, out)
    ensures Normalized(text) == out
  {
    assert AreSteps(text, 0, [0, |text|], [out]);
    assert [out][1..] == [];
    NormalizedIsRewriting(text, out);
  }

  /** An inline equation without an unescaped closer inside becomes dollar math around the same equation. */
  lemma InlineEquation(equation: string)
    requires ClosesAtEnd("\\(" + equation + "\\)", "\\)")
    ensures Normalized("\\(" + equation + "\\)") == "$" + equation + "$"
  {
    var text := "\\(" + equation + "\\)";
    assert text[2..|text| - 2] == equation;
    assert IsEquation(text, 0, |text| - 2, "\\(", "\\)");
    assert RewritesInline(text, 0, |text|, "$" + equation + "$");
    OneStepRewrites(text, "$" + equation + "$");
  }

  /** A display equation becomes a block of its own. */
  lemma DisplayEquation(equation: string)
    requires ClosesAtEnd("\\[" + equation + "\\]", "\\]")
    ensures IsBlock(Normalized("\\[" + equation + "\\]"), equation)
  {
    var text := "\\[" + equation + "\\]";
    assert text[2..|text| - 2] == equation;
    assert IsEquation(text, 0, |text| - 2, "\\[", "\\]");
    DisplayIsBlock(equation);
    assert RewritesDisplay(text, 0, |text|, Render(Display(equation)));
    OneStepRewrites(text, Render(Display(equation)));
  }

  // ----- in context -----------------------------------------------------------------------------

  lemma {:induction false} JoinedAt(outs: seq<string>, k: nat)
    requires k < |outs|
    ensures Joined(outs) == Joined(outs[..k]) + outs[k] + Joined(outs[k + 1..])
  {
    if k > 0 {
      JoinedAt(outs[1..], k - 1);
      assert outs[..k][1..] == outs[1..][..k - 1] && outs[1..][k..] == outs[k + 1..];
    } else {
      assert outs[..0] == [];
    }
  }

  /** At every cut of the text the output is what came out before, then the step taken there, then what comes out behind. */
  lemma OutputAtCut(text: string, cuts: seq<nat>, outs: seq<string>, k: nat)
    requires AreSteps(text, 0, cuts, outs) && cuts[|outs|] == |text| && k < |outs|
    ensures IsStep(text, cuts[k], cuts[k + 1], outs[k])
    ensures Normalized(text) == Joined(outs[..k]) + outs[k] + Joined(outs[k + 1..])
  {
    NormalizedIsRewriting(text, Joined(outs));
    JoinedAt(outs, k);
  }
}
