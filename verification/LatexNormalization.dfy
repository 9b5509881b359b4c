/**
 The whole pass over a Markdown text, said without its scan: plain slices and code slices alternate and
 cover the text, a plain slice is rewritten and holds no code, and a code slice is kept as it is.
 */
module LatexNormalization {
  import opened Wrappers
  import opened LatexSegment
  import opened LatexRewriting
  import opened LatexScanner

  /** Code of the kind stands exactly there: a fenced block before an indented line before a span. */
  ghost predicate IsCode(text: string, kind: Kind, from: nat, to: nat) {
    && from < |text|
    && var fenced := AtLineStart(text, from) && OpeningFence(text, from).Some?;
       var indented := AtLineStart(text, from) && Indented(text, from);
       match kind
       case Plain => false
       case Fenced => fenced && IsBlockEnd(text, LineAfter(text, from), OpeningFence(text, from).value, to)
       case IndentedLine => !fenced && indented && to == LineAfter(text, from)
       case Span => !fenced && !indented && BacktickRunAt(text, from)
                    && IsFirstRunEnd(text, from + Run(text, '`', from), Run(text, '`', from), Some(to))
  }

  ghost predicate IsPart(text: string, s: Slice, part: string) {
    && Within(text, s)
    && if s.kind == Plain then HoldsNoCode(text, s) && Rewrites(text[s.from..s.to], part)
       else IsCode(text, s.kind, s.from, s.to) && part == text[s.from..s.to]
  }

  /** Plain slices, empty ones included, take turns with code slices. */
  ghost predicate Alternates(slices: seq<Slice>) {
    |slices| % 2 == 1 && forall i :: 0 <= i < |slices| ==> (slices[i].kind == Plain <==> i % 2 == 0)
  }

  ghost predicate AreParts(text: string, from: nat, slices: seq<Slice>, parts: seq<string>) {
    && Tile(text, slices, from) && Alternates(slices) && |parts| == |slices|
    && forall i :: 0 <= i < |slices| ==> IsPart(text, slices[i], parts[i])
  }

  ghost predicate IsNormalization(text: string, output: string) {
    exists slices, parts :: AreParts(text, 0, slices, parts) && output == Joined(parts)
  }

  // ----- there is one normalization --------------------------------------------------------------

  lemma OneRunEnd(text: string, from: nat, length: nat, end: nat, end': nat)
    requires IsFirstRunEnd(text, from, length, Some(end)) && IsFirstRunEnd(text, from, length, Some(end'))
    ensures end == end'
  {
  }

  lemma OneBlockEnd(text: string, first: nat, fence: Fence, end: nat, end': nat)
    requires first <= |text| && IsBlockEnd(text, first, fence, end) && IsBlockEnd(text, first, fence, end')
    ensures end == end'
  {
  }

  lemma OneCode(text: string, kind: Kind, from: nat, to: nat, kind': Kind, to': nat)
    requires IsCode(text, kind, from, to) && IsCode(text, kind', from, to')
    ensures kind == kind' && to == to'
  {
    if kind == Fenced && kind' == Fenced { OneBlockEnd(text, LineAfter(text, from), OpeningFence(text, from).value, to, to'); }
    if kind == Span && kind' == Span { OneRunEnd(text, from + Run(text, '`', from), Run(text, '`', from), to, to'); }
  }

  lemma SpanIsPaired(text: string, from: nat, to: nat)
    requires from < |text| && IsFirstRunEnd(text, from + Run(text, '`', from), Run(text, '`', from), Some(to))
    ensures !Unpaired(text, from)
  {
    assert IsRun(text, from + Run(text, '`', from), to - Run(text, '`', from), Run(text, '`', from));
  }

  lemma NoCodeInside(text: string, s: Slice, kind: Kind, from: nat, to: nat)
    requires HoldsNoCode(text, s) && s.from <= from < s.to
    ensures !IsCode(text, kind, from, to)
  {
    if from < |text| && IsFirstRunEnd(text, from + Run(text, '`', from), Run(text, '`', from), Some(to)) {
      SpanIsPaired(text, from, to);
    }
  }

  lemma TileDrop(text: string, from: nat, slices: seq<Slice>)
    requires Tile(text, slices, from) && Alternates(slices) && |slices| > 1
    ensures |slices| > 2 && Tile(text, slices[2..], slices[1].to) && Alternates(slices[2..])
  {
    var rest := slices[2..];
    forall i | 0 <= i < |rest| ensures Within(text, rest[i]) && (rest[i].kind == Plain <==> i % 2 == 0) {
      assert rest[i] == slices[i + 2] && (i + 2) % 2 == i % 2;
    }
    forall i | 0 < i < |rest| ensures rest[i].from == rest[i - 1].to { assert slices[i + 2].from == slices[i + 1].to; }
  }

  lemma PartsDrop(text: string, from: nat, slices: seq<Slice>, parts: seq<string>)
    requires AreParts(text, from, slices, parts) && |slices| > 1
    ensures |slices| > 2 && AreParts(text, slices[1].to, slices[2..], parts[2..])
  {
    TileDrop(text, from, slices);
    forall i | 0 <= i < |slices[2..]| ensures IsPart(text, slices[2..][i], parts[2..][i]) {
      assert IsPart(text, slices[i + 2], parts[i + 2]);
    }
  }

  /** A plain slice cannot end before another one that starts with it. */
  lemma PlainEndsNoEarlier(text: string, from: nat, slices: seq<Slice>, parts: seq<string>, slices': seq<Slice>, parts': seq<string>)
    requires AreParts(text, from, slices, parts) && AreParts(text, from, slices', parts')
    ensures slices[0].to >= slices'[0].to
  {
    assert IsPart(text, slices'[0], parts'[0]);
    if slices[0].to < slices'[0].to {
      assert |slices| > 1;
      assert IsPart(text, slices[1], parts[1]);
      NoCodeInside(text, slices'[0], slices[1].kind, slices[1].from, slices[1].to);
    }
  }

  lemma OnePlain(text: string, s: Slice, part: string, part': string)
    requires s.kind == Plain && IsPart(text, s, part) && IsPart(text, s, part')
    ensures part == part'
  {
    NormalizedIsRewriting(text[s.from..s.to], part);
    NormalizedIsRewriting(text[s.from..s.to], part');
  }

  lemma FirstPlain(text: string, from: nat, slices: seq<Slice>, parts: seq<string>, slices': seq<Slice>, parts': seq<string>)
    requires AreParts(text, from, slices, parts) && AreParts(text, from, slices', parts')
    ensures slices[0] == slices'[0] && parts[0] == parts'[0]
    ensures |slices| == 1 <==> |slices'| == 1
  {
    PlainEndsNoEarlier(text, from, slices, parts, slices', parts');
    PlainEndsNoEarlier(text, from, slices', parts', slices, parts);
    OnePlain(text, slices[0], parts[0], parts'[0]);
    if |slices| > 1 { assert IsPart(text, slices[1], parts[1]); }
    if |slices'| > 1 { assert IsPart(text, slices'[1], parts'[1]); }
  }

  lemma FirstCode(text: string, from: nat, slices: seq<Slice>, parts: seq<string>, slices': seq<Slice>, parts': seq<string>)
    requires AreParts(text, from, slices, parts) && AreParts(text, from, slices', parts')
    requires slices[0] == slices'[0] && |slices| > 1 && |slices'| > 1
    ensures slices[1].to == slices'[1].to && parts[1] == parts'[1]
  {
    assert IsPart(text, slices[1], parts[1]) && IsPart(text, slices'[1], parts'[1]);
    assert slices[1].from == slices[0].to && slices'[1].from == slices'[0].to;
    OneCode(text, slices[1].kind, slices[1].from, slices[1].to, slices'[1].kind, slices'[1].to);
  }

  lemma SameTwoAndRest(a: seq<string>, b: seq<string>)
    requires |a| > 1 && |b| > 1 && a[0] == b[0] && a[1] == b[1] && a[2..] == b[2..]
    ensures a == b
  {
    assert a == [a[0], a[1]] + a[2..] && b == [b[0], b[1]] + b[2..];
  }

  lemma {:induction false} OneWay(text: string, from: nat, slices: seq<Slice>, parts: seq<string>, slices': seq<Slice>, parts': seq<string>)
    requires AreParts(text, from, slices, parts) && AreParts(text, from, slices', parts')
    ensures parts == parts'
    decreases |slices|
  {
    FirstPlain(text, from, slices, parts, slices', parts');
    if |slices| > 1 {
      FirstCode(text, from, slices, parts, slices', parts');
      PartsDrop(text, from, slices, parts);
      PartsDrop(text, from, slices', parts');
      OneWay(text, slices[1].to, slices[2..], parts[2..], slices'[2..], parts'[2..]);
      SameTwoAndRest(parts, parts');
    }
  }

  // ----- the pass computes it ----------------------------------------------------------------------

  /** Where the scan stops, no run of backticks is cut in two. */
  predicate RunStarts(text: string, cursor: nat) {
    cursor < |text| && text[cursor] == '`' ==> BacktickRunAt(text, cursor)
  }

  lemma LineStartsRun(text: string, start: nat)
    requires start <= |text|
    ensures RunStarts(text, LineAfter(text, start)) || LineAfter(text, start) == start
  {
  }

  lemma BlockEndStartsRun(text: string, first: nat, fence: Fence, end: nat)
    requires first <= |text| && IsBlockEnd(text, first, fence, end)
    ensures RunStarts(text, end)
  {
    if line: nat :| ClosingLine(text, first, fence, line) && end == LineAfter(text, line) { LineStartsRun(text, line); }
  }

  lemma RunEndStartsRun(text: string, from: nat, length: nat, end: nat)
    requires IsFirstRunEnd(text, from, length, Some(end))
    ensures RunStarts(text, end)
  {
    RunRepeats(text, '`', end - length);
  }

  lemma FenceIsCode(text: string, cursor: nat)
    requires cursor < |text| && AtLineStart(text, cursor) && OpeningFence(text, cursor).Some?
    ensures TokenAt(text, cursor).Code? && TokenAt(text, cursor).kind == Fenced
    ensures var end := TokenAt(text, cursor).end; IsCode(text, Fenced, cursor, end) && RunStarts(text, end)
  {
    var fence := OpeningFence(text, cursor).value;
    FenceEndsBlock(text, LineAfter(text, cursor), fence);
    BlockEndStartsRun(text, LineAfter(text, cursor), fence, FenceEnd(text, LineAfter(text, cursor), fence));
  }

  lemma SpanIsCode(text: string, cursor: nat)
    requires BacktickRunAt(text, cursor)
    requires AtLineStart(text, cursor) ==> OpeningFence(text, cursor).None? && !Indented(text, cursor)
    ensures match TokenAt(text, cursor)
            case Code(kind, end) => kind == Span && IsCode(text, Span, cursor, end) && RunStarts(text, end)
            case Skip(next) => RunStarts(text, next)
  {
    var run := Run(text, '`', cursor);
    RunRepeats(text, '`', cursor);
    InlineEndIsFirstRun(text, cursor + run, run);
    var end := InlineEnd(text, cursor + run, run);
    if end.Some? { RunEndStartsRun(text, cursor + run, run, end.value); }
  }

  /** The token at a position is the code that stands there, if any does. */
  lemma TokenIsCode(text: string, cursor: nat)
    requires cursor < |text| && RunStarts(text, cursor)
    ensures match TokenAt(text, cursor)
            case Code(kind, end) => IsCode(text, kind, cursor, end) && RunStarts(text, end)
            case Skip(next) => RunStarts(text, next)
  {
    if AtLineStart(text, cursor) && OpeningFence(text, cursor).Some? {
      FenceIsCode(text, cursor);
    } else if AtLineStart(text, cursor) && Indented(text, cursor) {
      LineStartsRun(text, cursor);
    } else if text[cursor] == '`' {
      SpanIsCode(text, cursor);
    }
  }

  lemma {:induction false} TilesAreCode(text: string, plainStart: nat, cursor: nat, i: nat)
    requires plainStart <= cursor <= |text| && RunStarts(text, cursor) && i < |Tiles(text, plainStart, cursor)|
    ensures |Tiles(text, plainStart, cursor)| % 2 == 1
    ensures var s := Tiles(text, plainStart, cursor)[i];
            if i % 2 == 0 then s.kind == Plain else IsCode(text, s.kind, s.from, s.to)
    decreases |text| - cursor
  {
    if cursor < |text| {
      TokenIsCode(text, cursor);
      match TokenAt(text, cursor)
      case Skip(next) => TilesAreCode(text, plainStart, next, i);
      case Code(kind, end) =>
        var rest := Tiles(text, end, end);
        TilesCoverText(text, end, end);
        if i < 2 {
          TilesAreCode(text, end, end, 0);
        } else {
          TilesAreCode(text, end, end, i - 2);
          assert Tiles(text, plainStart, cursor)[i] == rest[i - 2] && (i - 2) % 2 == i % 2;
        }
    }
  }

  lemma {:induction false} OutputsAreJoined(text: string, slices: seq<Slice>) returns (parts: seq<string>)
    requires forall i :: 0 <= i < |slices| ==> Within(text, slices[i])
    ensures |parts| == |slices| && Joined(parts) == Outputs(text, slices)
    ensures forall i :: 0 <= i < |slices| ==> parts[i] == Output(text, slices[i])
    decreases |slices|
  {
    if slices == [] {
      parts := [];
    } else {
      var rest := OutputsAreJoined(text, slices[1..]);
      parts := [Output(text, slices[0])] + rest;
      assert parts[1..] == rest;
    }
  }

  lemma SliceIsPart(text: string, i: nat)
    requires i < |Tiles(text, 0, 0)|
    ensures var s := Tiles(text, 0, 0)[i]; Within(text, s) && IsPart(text, s, Output(text, s)) && (s.kind == Plain <==> i % 2 == 0)
  {
    var s := Tiles(text, 0, 0)[i];
    TilesCoverText(text, 0, 0);
    TilesAreCode(text, 0, 0, i);
    if i % 2 == 0 {
      PlainSlicesHoldNoCode(text, s);
      NormalizedIsRewriting(text[s.from..s.to], Output(text, s));
    }
  }

  lemma TilesAreParts(text: string) returns (parts: seq<string>)
    ensures AreParts(text, 0, Tiles(text, 0, 0), parts) && Joined(parts) == NormalizedText(text)
  {
    var slices := Tiles(text, 0, 0);
    TilesCoverText(text, 0, 0);
    TilesAreCode(text, 0, 0, 0);
    parts := OutputsAreJoined(text, slices);
    forall i | 0 <= i < |slices| ensures IsPart(text, slices[i], parts[i]) && (slices[i].kind == Plain <==> i % 2 == 0) { SliceIsPart(text, i); }
  }

  /** The pass puts out the one normalization of the text. */
  lemma NormalizedIsNormalization(text: string, output: string)
    ensures IsNormalization(text, output) <==> output == NormalizedText(text)
  {
    var parts := TilesAreParts(text);
    if IsNormalization(text, output) {
      var slices', parts' :| AreParts(text, 0, slices', parts') && output == Joined(parts');
      OneWay(text, 0, Tiles(text, 0, 0), parts, slices', parts');
    }
  }

  /** What the loop finds at its cursor. */
  method ReadToken(text: string, cursor: nat) returns (t: Token)
    requires cursor < |text|
    ensures t == TokenAt(text, cursor)
  {
    if cursor == 0 || text[cursor - 1] == '\n' {
      var fenceEnd := FencedCodeEnd(text, cursor);
      if fenceEnd.Some? { return Code(Fenced, fenceEnd.value); }
      var indent := RunLength(text, ' ', cursor);
      if text[cursor] == '\t' || indent >= 4 { return Code(IndentedLine, LineAfter(text, cursor)); }
    }
    if text[cursor] == '`' {
      var runLength := BacktickRunLength(text, cursor);
      var codeEnd := FindInlineCodeEnd(text, cursor + runLength, runLength);
      if codeEnd.Some? { return Code(Span, codeEnd.value); }
      return Skip(cursor + runLength);
    }
    return Skip(cursor + 1);
  }

  method NormalizeLatexMath(text: string) returns (output: string)
    ensures output == NormalizedText(text) && IsNormalization(text, output)
  {
    NormalizedIsNormalization(text, NormalizedText(text));
    output := "";
    var plainStart, cursor := 0, 0;
    while cursor < |text|
      invariant plainStart <= cursor <= |text|
      invariant output + Remaining(text, plainStart, cursor) == NormalizedText(text)
      decreases |text| - cursor
    {
      var t := ReadToken(text, cursor);
      match t
      case Skip(next) => cursor := next;
      case Code(kind, end) =>
        RemainingAtCode(text, plainStart, cursor, kind, end);
        var plain := NormalizeLatexSegment(text[plainStart..cursor]);
        Reassociate(output, plain, text[cursor..end], Remaining(text, end, end));
        output := output + plain;
        output := output + text[cursor..end];
        plainStart, cursor := end, end;
    }
    RemainingAtEnd(text, plainStart);
    var last := NormalizeLatexSegment(text[plainStart..]);
    output := output + last;
  }

  lemma Reassociate(a: string, b: string, c: string, d: string)
    ensures a + (b + c + d) == (a + b) + c + d
  {
  }
}
