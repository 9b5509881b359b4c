/**
 Normalizing LaTeX in Markdown without touching code: the text is tiled by plain slices and code
 slices (fenced blocks, indented lines, code spans), and only plain slices are rewritten.
 */
module LatexScanner {
  import opened Wrappers
  import opened LatexSegment

  // ----- runs and lines -------------------------------------------------------------------

  /** How often the character repeats from the index on. */
  function Run(text: string, c: char, from: nat): (n: nat)
    requires from <= |text|
    ensures from + n <= |text|
    decreases |text| - from
  {
    if from < |text| && text[from] == c then Run(text, c, from + 1) + 1 else 0
  }

  lemma {:induction false} RunIs(text: string, c: char, from: nat, n: nat)
    requires from + n <= |text|
    requires forall k :: from <= k < from + n ==> text[k] == c
    requires from + n < |text| ==> text[from + n] != c
    ensures Run(text, c, from) == n
    decreases n
  {
    if n > 0 { RunIs(text, c, from + 1, n - 1); }
  }

  lemma {:induction false} RunRepeats(text: string, c: char, from: nat)
    requires from <= |text|
    ensures forall k :: from <= k < from + Run(text, c, from) ==> text[k] == c
    ensures from + Run(text, c, from) < |text| ==> text[from + Run(text, c, from)] != c
    decreases |text| - from
  {
    if from < |text| && text[from] == c { RunRepeats(text, c, from + 1); }
  }

  method RunLength(text: string, c: char, from: nat) returns (n: nat)
    requires from <= |text|
    ensures n == Run(text, c, from)
  {
    var cursor := from;
    while cursor < |text| && text[cursor] == c
      invariant from <= cursor <= |text| && forall k :: from <= k < cursor ==> text[k] == c
    {
      cursor := cursor + 1;
    }
    n := cursor - from;
    RunIs(text, c, from, n);
  }

  method BacktickRunLength(text: string, index: nat) returns (n: nat)
    requires index <= |text|
    ensures n == Run(text, '`', index)
  {
    n := RunLength(text, '`', index);
  }

  /** The next index of the character, or the end of the text. */
  function Next(text: string, c: char, from: nat): (i: nat)
    requires from <= |text|
    ensures from <= i <= |text| && (i < |text| ==> text[i] == c)
    ensures forall k :: from <= k < i ==> text[k] != c
    decreases |text| - from
  {
    if from == |text| || text[from] == c then from else Next(text, c, from + 1)
  }

  /** The start of the following line, or the end of the text. */
  function LineAfter(text: string, start: nat): (after: nat)
    requires start <= |text|
    ensures start <= after <= |text| && (start < |text| ==> start < after)
  {
    var end := Next(text, '\n', start);
    if end == |text| then |text| else end + 1
  }

  predicate AtLineStart(text: string, i: nat)
    requires i <= |text|
  {
    i == 0 || text[i - 1] == '\n'
  }

  // ----- fenced code ------------------------------------------------------------------------

  predicate IsMarker(c: char) {
    c == '`' || c == '~'
  }

  datatype Fence = Fence(marker: char, length: nat)

  /** A line that opens a fence: at most three spaces, then at least three markers. */
  function OpeningFence(text: string, start: nat): Option<Fence>
    requires start <= |text|
  {
    var spaces := Run(text, ' ', start);
    if spaces > 3 || start + spaces == |text| || !IsMarker(text[start + spaces]) then None
    else
      var marker := text[start + spaces];
      var length := Run(text, marker, start + spaces);
      if length >= 3 then Some(Fence(marker, length)) else None
  }

  /** Where the line ends without its line break. */
  function ContentEnd(text: string, start: nat): (end: nat)
    requires start <= |text|
    ensures start <= end <= LineAfter(text, start)
  {
    var after := LineAfter(text, start);
    if after > start && text[after - 1] == '\n' then
      if after - 1 > start && text[after - 2] == '\r' then after - 2 else after - 1
    else after
  }

  predicate AllBlank(text: string, from: nat, to: nat)
    requires to <= |text|
  {
    forall k :: from <= k < to ==> text[k] == ' ' || text[k] == '\t'
  }

  /** At most three spaces, at least as many markers of the same kind, then only blanks. */
  predicate ClosesFence(text: string, start: nat, fence: Fence)
    requires start <= |text|
  {
    var spaces := Run(text, ' ', start);
    && spaces <= 3 && start + spaces < |text| && text[start + spaces] == fence.marker
    && var length := Run(text, fence.marker, start + spaces);
       length >= fence.length && AllBlank(text, start + spaces + length, ContentEnd(text, start))
  }

  /** Behind the first closing line, or the end of the text. */
  function FenceEnd(text: string, lineStart: nat, fence: Fence): (end: nat)
    requires lineStart <= |text|
    ensures lineStart <= end <= |text|
    decreases |text| - lineStart
  {
    if lineStart == |text| then |text|
    else if ClosesFence(text, lineStart, fence) then LineAfter(text, lineStart)
    else FenceEnd(text, LineAfter(text, lineStart), fence)
  }

  /** A line between the first one and the end of the text that closes the fence. */
  ghost predicate ClosingLine(text: string, first: nat, fence: Fence, line: nat)
    requires first <= |text|
  {
    first <= line < |text| && AtLineStart(text, line) && ClosesFence(text, line, fence)
  }

  /** Where a block ends that has its first line there: behind the first closing line, or with the text if no line closes it. */
  ghost predicate IsBlockEnd(text: string, first: nat, fence: Fence, end: nat)
    requires first <= |text|
  {
    if exists line: nat :: ClosingLine(text, first, fence, line) then
      exists line: nat :: ClosingLine(text, first, fence, line) && end == LineAfter(text, line)
                     && forall k: nat :: first <= k < line ==> !ClosingLine(text, first, fence, k)
    else end == |text|
  }

  /** The next line start is where the following line begins. */
  lemma LinesFollow(text: string, start: nat, line: nat)
    requires start < line < |text| && AtLineStart(text, line)
    ensures LineAfter(text, start) <= line
    ensures LineAfter(text, start) < |text| ==> AtLineStart(text, LineAfter(text, start))
  {
    var end := Next(text, '\n', start);
    assert text[line - 1] == '\n';
  }

  lemma ClosingLinesFollow(text: string, first: nat, fence: Fence, line: nat)
    requires first < |text| && AtLineStart(text, first)
    ensures ClosingLine(text, first, fence, line) <==>
              (line == first && ClosesFence(text, first, fence)) || ClosingLine(text, LineAfter(text, first), fence, line)
  {
    if ClosingLine(text, first, fence, line) && line != first { LinesFollow(text, first, line); }
  }

  lemma {:induction false} FenceEndsBlock(text: string, first: nat, fence: Fence)
    requires first <= |text| && (first < |text| ==> AtLineStart(text, first))
    ensures IsBlockEnd(text, first, fence, FenceEnd(text, first, fence))
    decreases |text| - first
  {
    if first < |text| {
      var next := LineAfter(text, first);
      forall line: nat ensures ClosingLine(text, first, fence, line) <==>
                                 (line == first && ClosesFence(text, first, fence)) || ClosingLine(text, next, fence, line)
      {
        ClosingLinesFollow(text, first, fence, line);
      }
      if ClosesFence(text, first, fence) {
        assert ClosingLine(text, first, fence, first);
      } else {
        FenceEndsBlock(text, next, fence);
      }
    }
  }

  function FencedEnd(text: string, start: nat): (end: Option<nat>)
    requires start <= |text|
    ensures end.Some? ==> start < end.value <= |text|
  {
    match OpeningFence(text, start)
    case None => None
    case Some(fence) => Some(FenceEnd(text, LineAfter(text, start), fence))
  }

  method LineClosesFence(text: string, lineStart: nat, fence: Fence) returns (closes: bool)
    requires lineStart <= |text|
    ensures closes == ClosesFence(text, lineStart, fence)
  {
    var spaces := RunLength(text, ' ', lineStart);
    if spaces > 3 || lineStart + spaces == |text| || text[lineStart + spaces] != fence.marker { return false; }
    var length := RunLength(text, fence.marker, lineStart + spaces);
    return length >= fence.length && AllBlank(text, lineStart + spaces + length, ContentEnd(text, lineStart));
  }

  method FencedCodeEnd(text: string, start: nat) returns (end: Option<nat>)
    requires start <= |text|
    ensures end == FencedEnd(text, start)
    ensures end.Some? <==> OpeningFence(text, start).Some?
    ensures end.Some? ==> IsBlockEnd(text, LineAfter(text, start), OpeningFence(text, start).value, end.value)
  {
    var opening := OpeningFence(text, start);
    if opening.None? { return None; }
    var fence, lineStart := opening.value, LineAfter(text, start);
    ghost var first := lineStart;
    FenceEndsBlock(text, first, fence);
    while lineStart < |text|
      invariant first <= lineStart <= |text|
      invariant FenceEnd(text, first, fence) == FenceEnd(text, lineStart, fence)
      decreases |text| - lineStart
    {
      var closes := LineClosesFence(text, lineStart, fence);
      if closes { return Some(LineAfter(text, lineStart)); }
      lineStart := LineAfter(text, lineStart);
    }
    return Some(|text|);
  }

  // ----- code spans -----------------------------------------------------------------------------

  /** Behind the first run of exactly this many backticks, if there is one. */
  function InlineEnd(text: string, from: nat, length: nat): (end: Option<nat>)
    requires from <= |text|
    ensures end.Some? ==> from < end.value <= |text|
    decreases |text| - from
  {
    var start := Next(text, '`', from);
    if start == |text| then None
    else
      var run := Run(text, '`', start);
      if run == length then Some(start + run) else InlineEnd(text, start + run, length)
  }

  /** A run of exactly this many backticks begins there, counted from where the search starts. */
  predicate IsRun(text: string, from: nat, k: nat, length: nat) {
    from <= k < |text| && text[k] == '`' && (k == from || text[k - 1] != '`') && Run(text, '`', k) == length
  }

  ghost predicate NoRun(text: string, from: nat, length: nat) {
    forall k: nat :: !IsRun(text, from, k, length)
  }

  /** None if no such run begins from there on, else the end of the first one. */
  ghost predicate IsFirstRunEnd(text: string, from: nat, length: nat, end: Option<nat>) {
    match end
    case None => NoRun(text, from, length)
    case Some(e) => e >= length && IsRun(text, from, e - length, length) && forall k: nat :: from <= k < e - length ==> !IsRun(text, from, k, length)
  }

  lemma RunsBehind(text: string, from: nat, start: nat, k: nat, length: nat)
    requires from <= start < |text| && text[start] == '`' && forall j :: from <= j < start ==> text[j] != '`'
    ensures var next := start + Run(text, '`', start);
            IsRun(text, from, k, length) <==> (k == start && Run(text, '`', start) == length) || (k >= next && IsRun(text, next, k, length))
  {
    RunRepeats(text, '`', start);
  }

  lemma {:induction false} InlineEndIsFirstRun(text: string, from: nat, length: nat)
    requires from <= |text|
    ensures IsFirstRunEnd(text, from, length, InlineEnd(text, from, length))
    decreases |text| - from
  {
    var start := Next(text, '`', from);
    if start < |text| {
      var run := Run(text, '`', start);
      forall k: nat
        ensures IsRun(text, from, k, length) <==> (k == start && run == length) || (k >= start + run && IsRun(text, start + run, k, length))
      {
        RunsBehind(text, from, start, k, length);
      }
      if run != length { InlineEndIsFirstRun(text, start + run, length); }
    }
  }

  method FindInlineCodeEnd(text: string, from: nat, runLength: nat) returns (end: Option<nat>)
    requires from <= |text|
    ensures end == InlineEnd(text, from, runLength)
    ensures IsFirstRunEnd(text, from, runLength, end)
  {
    InlineEndIsFirstRun(text, from, runLength);
    var cursor := Next(text, '`', from);
    ghost var searched := from;
    while cursor < |text|
      invariant searched <= |text| && cursor == Next(text, '`', searched)
      invariant InlineEnd(text, from, runLength) == InlineEnd(text, searched, runLength)
      decreases |text| - searched
    {
      var candidateLength := BacktickRunLength(text, cursor);
      if candidateLength == runLength { return Some(cursor + candidateLength); }
      searched := cursor + candidateLength;
      cursor := Next(text, '`', cursor + candidateLength);
    }
    return None;
  }

  // ----- tiling ---------------------------------------------------------------------------------

  predicate Indented(text: string, start: nat)
    requires start <= |text|
  {
    start < |text| && (text[start] == '\t' || Run(text, ' ', start) >= 4)
  }

  datatype Kind = Plain | Fenced | IndentedLine | Span

  /** What starts at the cursor: code up to an end, or a number of plain characters. */
  datatype Token = Code(kind: Kind, end: nat) | Skip(next: nat)

  function TokenAt(text: string, cursor: nat): (t: Token)
    requires cursor < |text|
    ensures t.Code? ==> t.kind != Plain && cursor < t.end <= |text|
    ensures t.Skip? ==> cursor < t.next <= |text|
  {
    if AtLineStart(text, cursor) && FencedEnd(text, cursor).Some? then Code(Fenced, FencedEnd(text, cursor).value)
    else if AtLineStart(text, cursor) && Indented(text, cursor) then Code(IndentedLine, LineAfter(text, cursor))
    else if text[cursor] == '`' then
      var run := Run(text, '`', cursor);
      match InlineEnd(text, cursor + run, run)
      case Some(end) => Code(Span, end)
      case None => Skip(cursor + run)
    else Skip(cursor + 1)
  }

  datatype Slice = Slice(kind: Kind, from: nat, to: nat)

  /** The slices from the last code on; a plain slice may be empty. */
  function Tiles(text: string, plainStart: nat, cursor: nat): seq<Slice>
    requires plainStart <= cursor <= |text|
    decreases |text| - cursor
  {
    if cursor == |text| then [Slice(Plain, plainStart, cursor)]
    else
      match TokenAt(text, cursor)
      case Code(kind, end) => [Slice(Plain, plainStart, cursor), Slice(kind, cursor, end)] + Tiles(text, end, end)
      case Skip(next) => Tiles(text, plainStart, next)
  }

  predicate Within(text: string, s: Slice) {
    s.from <= s.to <= |text|
  }

  function Output(text: string, s: Slice): string
    requires Within(text, s)
  {
    if s.kind == Plain then Normalized(text[s.from..s.to]) else text[s.from..s.to]
  }

  /** The slices follow one another without gap or overlap. */
  ghost predicate Tile(text: string, slices: seq<Slice>, from: nat) {
    && slices != [] && slices[0].from == from && slices[|slices| - 1].to == |text|
    && (forall i :: 0 <= i < |slices| ==> Within(text, slices[i]))
    && (forall i :: 0 < i < |slices| ==> slices[i].from == slices[i - 1].to)
  }

  function Outputs(text: string, slices: seq<Slice>): string
    requires forall i :: 0 <= i < |slices| ==> Within(text, slices[i])
    decreases |slices|
  {
    if slices == [] then "" else Output(text, slices[0]) + Outputs(text, slices[1..])
  }

  /** Consecutive slices of the text, plain and code, cover it once. */
  lemma {:induction false} TilesCoverText(text: string, plainStart: nat, cursor: nat)
    requires plainStart <= cursor <= |text|
    ensures Tile(text, Tiles(text, plainStart, cursor), plainStart)
    decreases |text| - cursor
  {
    if cursor < |text| {
      match TokenAt(text, cursor)
      case Skip(next) => TilesCoverText(text, plainStart, next);
      case Code(kind, end) =>
        TilesCoverText(text, end, end);
        TilePrepends(text, plainStart, cursor, kind, end, Tiles(text, end, end));
    }
  }

  lemma TilePrepends(text: string, plainStart: nat, cursor: nat, kind: Kind, end: nat, rest: seq<Slice>)
    requires plainStart <= cursor <= end <= |text| && Tile(text, rest, end)
    ensures Tile(text, [Slice(Plain, plainStart, cursor), Slice(kind, cursor, end)] + rest, plainStart)
  {
    var all := [Slice(Plain, plainStart, cursor), Slice(kind, cursor, end)] + rest;
    forall i | 0 < i < |all| ensures all[i].from == all[i - 1].to {
      if i > 2 { assert all[i] == rest[i - 2] && all[i - 1] == rest[i - 3]; }
    }
  }

  function SourceText(text: string, slices: seq<Slice>): string
    requires forall i :: 0 <= i < |slices| ==> Within(text, slices[i])
    decreases |slices|
  {
    if slices == [] then ""
    else
      assert Within(text, slices[0]);
      text[slices[0].from..slices[0].to] + SourceText(text, slices[1..])
  }

  /** Tiled slices concatenate to the text they cover. */
  lemma {:induction false} TilesConcatenate(text: string, slices: seq<Slice>, from: nat)
    requires Tile(text, slices, from)
    ensures SourceText(text, slices) == text[from..]
    decreases |slices|
  {
    var s := slices[0];
    assert Within(text, s);
    if |slices| > 1 {
      var rest := slices[1..];
      assert rest[0] == slices[1] && slices[1].from == slices[0].to;
      forall i | 0 < i < |rest| ensures rest[i].from == rest[i - 1].to { assert slices[i + 1].from == slices[i].to; }
      TilesConcatenate(text, rest, s.to);
      assert text[from..] == text[from..s.to] + text[s.to..];
    } else {
      assert slices[1..] == [];
      assert text[s.from..s.to] + "" == text[from..];
    }
  }

  /** The normalized text: plain slices rewritten, code slices as they are. */
  function NormalizedText(text: string): string {
    TilesCoverText(text, 0, 0);
    Outputs(text, Tiles(text, 0, 0))
  }

  lemma OutputsOfTwo(text: string, a: Slice, b: Slice, rest: seq<Slice>)
    requires Within(text, a) && Within(text, b) && forall i :: 0 <= i < |rest| ==> Within(text, rest[i])
    ensures forall i :: 0 <= i < |[a, b] + rest| ==> Within(text, ([a, b] + rest)[i])
    ensures Outputs(text, [a, b] + rest) == Output(text, a) + Output(text, b) + Outputs(text, rest)
  {
    var all := [a, b] + rest;
    assert all[1..] == [b] + rest;
    assert ([b] + rest)[1..] == rest;
  }

  /** What the loop still has to append. */
  function Remaining(text: string, plainStart: nat, cursor: nat): string
    requires plainStart <= cursor <= |text|
  {
    TilesCoverText(text, plainStart, cursor);
    Outputs(text, Tiles(text, plainStart, cursor))
  }

  lemma RemainingAtCode(text: string, plainStart: nat, cursor: nat, kind: Kind, end: nat)
    requires plainStart <= cursor < |text| && TokenAt(text, cursor) == Code(kind, end)
    ensures Remaining(text, plainStart, cursor)
         == Normalized(text[plainStart..cursor]) + text[cursor..end] + Remaining(text, end, end)
  {
    TilesCoverText(text, end, end);
    OutputsOfTwo(text, Slice(Plain, plainStart, cursor), Slice(kind, cursor, end), Tiles(text, end, end));
  }

  lemma RemainingAtEnd(text: string, plainStart: nat)
    requires plainStart <= |text|
    ensures Remaining(text, plainStart, |text|) == Normalized(text[plainStart..])
  {
    var s := Slice(Plain, plainStart, |text|);
    assert Tiles(text, plainStart, |text|) == [s];
    assert [s][1..] == [];
    assert Outputs(text, [s]) == Output(text, s) + Outputs(text, []);
    assert text[plainStart..|text|] == text[plainStart..];
    assert Output(text, s) + "" == Output(text, s);
  }

  // ----- what the slices are ------------------------------------------------------------------------

  /** Every code slice is code that starts where the slice starts. */
  lemma {:induction false} CodeSlicesAreCode(text: string, plainStart: nat, cursor: nat, s: Slice)
    requires plainStart <= cursor <= |text| && s in Tiles(text, plainStart, cursor) && s.kind != Plain
    ensures s.from < |text| && TokenAt(text, s.from) == Code(s.kind, s.to)
    decreases |text| - cursor
  {
    if cursor < |text| {
      match TokenAt(text, cursor)
      case Skip(next) => CodeSlicesAreCode(text, plainStart, next, s);
      case Code(kind, end) =>
        if s != Slice(kind, cursor, end) { CodeSlicesAreCode(text, end, end, s); }
    }
  }

  /** A fenced slice starts a line with an opening fence and ends behind the first line that closes it, or
      with the text if none does. */
  lemma FencedSliceShape(text: string, s: Slice)
    requires s.from < |text| && TokenAt(text, s.from) == Code(Fenced, s.to)
    ensures AtLineStart(text, s.from) && OpeningFence(text, s.from).Some?
    ensures IsBlockEnd(text, LineAfter(text, s.from), OpeningFence(text, s.from).value, s.to)
  {
    FenceEndsBlock(text, LineAfter(text, s.from), OpeningFence(text, s.from).value);
  }

  /** A later line lies between the start and the end, at the start of a line. */
  ghost predicate IsLineOf(text: string, first: nat, line: nat)
    requires first <= |text|
  {
    line < |text| && first <= line && AtLineStart(text, line)
  }

  lemma {:induction false} FenceClosesFirst(text: string, lineStart: nat, fence: Fence, line: nat)
    requires lineStart <= |text| && AtLineStart(text, lineStart) && IsLineOf(text, lineStart, line)
    requires line < FenceEnd(text, lineStart, fence)
    ensures ClosesFence(text, line, fence) ==> LineAfter(text, line) == FenceEnd(text, lineStart, fence)
    decreases |text| - lineStart
  {
    if !ClosesFence(text, lineStart, fence) && line != lineStart {
      LinesFollow(text, lineStart, line);
      FenceClosesFirst(text, LineAfter(text, lineStart), fence, line);
    } else if line != lineStart {
      LinesFollow(text, lineStart, line);
    }
  }

  /** A code span opens and closes with runs of equally many backticks, and no such run lies between. */
  lemma SpanShape(text: string, s: Slice)
    requires s.from < |text| && TokenAt(text, s.from) == Code(Span, s.to)
    ensures var n := Run(text, '`', s.from);
            && n > 0 && s.from + 2 * n <= s.to
            && Run(text, '`', s.to - n) == n && text[s.to - n - 1] != '`'
            && forall k :: s.from + n < k < s.to - n && text[k - 1] != '`' ==> Run(text, '`', k) != n
  {
    RunRepeats(text, '`', s.from);
    SpanCloses(text, s.from + Run(text, '`', s.from), Run(text, '`', s.from));
  }

  lemma {:induction false} SpanCloses(text: string, from: nat, n: nat)
    requires 0 < from <= |text| && n > 0 && InlineEnd(text, from, n).Some?
    requires from < |text| ==> text[from] != '`'
    ensures var end := InlineEnd(text, from, n).value;
            && from < end - n && Run(text, '`', end - n) == n && text[end - n - 1] != '`'
            && forall k :: from < k < end - n && text[k - 1] != '`' ==> Run(text, '`', k) != n
    decreases |text| - from
  {
    var start := Next(text, '`', from);
    var run := Run(text, '`', start);
    RunRepeats(text, '`', start);
    if run != n {
      SpanCloses(text, start + run, n);
      RunIsSkipped(text, from, start, n, InlineEnd(text, start + run, n).value - n);
    }
  }

  /** Up to the end of a run of another length, no run has length `n`. */
  lemma RunIsSkipped(text: string, from: nat, start: nat, n: nat, to: nat)
    requires from <= start < |text| && n > 0 && to <= |text|
    requires forall k :: from <= k < start ==> text[k] != '`'
    requires Run(text, '`', start) != n
    requires forall k :: start + Run(text, '`', start) < k < to && text[k - 1] != '`' ==> Run(text, '`', k) != n
    ensures forall k :: from < k < to && text[k - 1] != '`' ==> Run(text, '`', k) != n
  {
    RunRepeats(text, '`', start);
    forall k | from < k < to && text[k - 1] != '`' ensures Run(text, '`', k) != n {
      assert k <= start || k > start + Run(text, '`', start);
    }
  }

  /** No code starts inside a plain slice: its line starts open no fence and are not indented. */
  lemma {:induction false} PlainSlicesHoldNoBlocks(text: string, plainStart: nat, cursor: nat, s: Slice, i: nat)
    requires plainStart <= cursor <= |text| && s in Tiles(text, plainStart, cursor) && s.kind == Plain
    requires s.from <= i < s.to && cursor <= i < |text| && AtLineStart(text, i)
    ensures FencedEnd(text, i).None? && !Indented(text, i)
    decreases |text| - cursor
  {
    if cursor < |text| {
      match TokenAt(text, cursor)
      case Skip(next) =>
        if next <= i {
          PlainSlicesHoldNoBlocks(text, plainStart, next, s, i);
        } else {
          SkippedIsOneLine(text, cursor, i);
        }
      case Code(kind, end) =>
        if s != Slice(Plain, plainStart, cursor) {
          PlainStartsLater(text, end, end, s);
          PlainSlicesHoldNoBlocks(text, end, end, s, i);
        }
    }
  }

  lemma {:induction false} PlainStartsLater(text: string, plainStart: nat, cursor: nat, s: Slice)
    requires plainStart <= cursor <= |text| && s in Tiles(text, plainStart, cursor)
    ensures s.from >= plainStart
    decreases |text| - cursor
  {
    if cursor < |text| {
      match TokenAt(text, cursor)
      case Skip(next) => PlainStartsLater(text, plainStart, next, s);
      case Code(kind, end) =>
        if s != Slice(Plain, plainStart, cursor) && s != Slice(kind, cursor, end) { PlainStartsLater(text, end, end, s); }
    }
  }

  /** Only the first of the skipped characters can start a line. */
  lemma SkippedIsOneLine(text: string, cursor: nat, i: nat)
    requires cursor < |text| && TokenAt(text, cursor).Skip? && cursor <= i < TokenAt(text, cursor).next && AtLineStart(text, i)
    ensures i == cursor
  {
    if text[cursor] == '`' { RunRepeats(text, '`', cursor); }
  }

  lemma {:induction false} PlainBackticksStayOpen(text: string, plainStart: nat, cursor: nat, s: Slice, i: nat)
    requires plainStart <= cursor <= |text| && s in Tiles(text, plainStart, cursor) && s.kind == Plain
    requires s.from <= i < s.to && cursor <= i < |text| && text[i] == '`' && (i == cursor || text[i - 1] != '`')
    ensures InlineEnd(text, i + Run(text, '`', i), Run(text, '`', i)).None?
    decreases |text| - cursor
  {
    if cursor < |text| {
      match TokenAt(text, cursor)
      case Skip(next) =>
        if next <= i {
          PlainBackticksStayOpen(text, plainStart, next, s, i);
        } else if i != cursor {
          RunRepeats(text, '`', cursor);
        }
      case Code(kind, end) =>
        if s != Slice(Plain, plainStart, cursor) {
          PlainStartsLater(text, end, end, s);
          PlainBackticksStayOpen(text, end, end, s, i);
        }
    }
  }

  predicate BacktickRunAt(text: string, i: nat) {
    i < |text| && text[i] == '`' && (i == 0 || text[i - 1] != '`')
  }

  /** No later run has the length of the run that begins there. */
  ghost predicate Unpaired(text: string, i: nat)
    requires i < |text|
  {
    NoRun(text, i + Run(text, '`', i), Run(text, '`', i))
  }

  /** No run of backticks inside a plain slice is followed anywhere by a run of the same length. */
  lemma PlainBackticksAreUnpaired(text: string, s: Slice, i: nat)
    requires s in Tiles(text, 0, 0) && s.kind == Plain && s.from <= i < s.to && BacktickRunAt(text, i)
    ensures Unpaired(text, i)
  {
    PlainBackticksStayOpen(text, 0, 0, s, i);
    InlineEndIsFirstRun(text, i + Run(text, '`', i), Run(text, '`', i));
  }

  /** Nothing in the slice is code. */
  ghost predicate HoldsNoCode(text: string, s: Slice) {
    && (forall i: nat :: s.from <= i < s.to && i < |text| && AtLineStart(text, i) ==> OpeningFence(text, i).None? && !Indented(text, i))
    && (forall i: nat :: s.from <= i < s.to && BacktickRunAt(text, i) ==> Unpaired(text, i))
  }

  lemma PlainSlicesHoldNoCode(text: string, s: Slice)
    requires s in Tiles(text, 0, 0) && s.kind == Plain
    ensures HoldsNoCode(text, s)
  {
    forall i: nat | s.from <= i < s.to && i < |text| && AtLineStart(text, i) ensures OpeningFence(text, i).None? && !Indented(text, i) {
      PlainSlicesHoldNoBlocks(text, 0, 0, s, i);
    }
    forall i: nat | s.from <= i < s.to && BacktickRunAt(text, i) ensures Unpaired(text, i) {
      PlainBackticksAreUnpaired(text, s, i);
    }
  }

  /** The whole result: the slices tile the text, code slices are code and reach the output as they are,
      and plain slices hold no code. */
  lemma NormalizationKeepsCode(text: string)
    ensures Tile(text, Tiles(text, 0, 0), 0) && SourceText(text, Tiles(text, 0, 0)) == text
    ensures NormalizedText(text) == Outputs(text, Tiles(text, 0, 0))
    ensures forall s :: s in Tiles(text, 0, 0) && s.kind != Plain ==>
      Within(text, s) && Output(text, s) == text[s.from..s.to] && s.from < |text| && TokenAt(text, s.from) == Code(s.kind, s.to)
    ensures forall s :: s in Tiles(text, 0, 0) && s.kind == Plain ==> HoldsNoCode(text, s)
  {
    TilesCoverText(text, 0, 0);
    TilesConcatenate(text, Tiles(text, 0, 0), 0);
    assert text[0..] == text;
    forall s | s in Tiles(text, 0, 0) && s.kind != Plain
      ensures Within(text, s) && s.from < |text| && TokenAt(text, s.from) == Code(s.kind, s.to)
    {
      CodeSlicesAreCode(text, 0, 0, s);
    }
    forall s | s in Tiles(text, 0, 0) && s.kind == Plain ensures HoldsNoCode(text, s) {
      PlainSlicesHoldNoCode(text, s);
    }
  }

  /** Three equal characters begin behind so many spaces. */
  ghost predicate SpacesThenMarkers(text: string, start: nat, n: nat) {
    && start + n + 3 <= |text| && (forall k :: start <= k < start + n ==> text[k] == ' ')
    && text[start + n] in {'`', '~'} && text[start + n + 1] == text[start + n] && text[start + n + 2] == text[start + n]
  }

  lemma MarkersRun(text: string, at: nat, c: char)
    requires at <= |text|
    ensures Run(text, c, at) >= 3 <==> at + 3 <= |text| && text[at] == c && text[at + 1] == c && text[at + 2] == c
  {
    RunRepeats(text, c, at);
    if at + 3 <= |text| && text[at] == c && text[at + 1] == c && text[at + 2] == c {
      assert Run(text, c, at) == Run(text, c, at + 1) + 1 && Run(text, c, at + 1) == Run(text, c, at + 2) + 1;
    }
  }

  /** A line opens a fence exactly if three backticks or tildes stand behind at most three spaces. */
  lemma FenceOpensExactly(text: string, start: nat)
    requires start <= |text|
    ensures OpeningFence(text, start).Some? <==> exists n: nat :: n <= 3 && SpacesThenMarkers(text, start, n)
  {
    var spaces := Run(text, ' ', start);
    RunRepeats(text, ' ', start);
    if start + spaces < |text| { MarkersRun(text, start + spaces, text[start + spaces]); }
    if OpeningFence(text, start).Some? { assert SpacesThenMarkers(text, start, spaces); }
    if n: nat :| n <= 3 && SpacesThenMarkers(text, start, n) { RunIs(text, ' ', start, n); }
  }

  /** A line is indented code exactly if it begins with a tab or four spaces. */
  lemma IndentedExactly(text: string, start: nat)
    requires start <= |text|
    ensures Indented(text, start) <==>
              || (start < |text| && text[start] == '\t')
              || (start + 4 <= |text| && text[start] == text[start + 1] == text[start + 2] == text[start + 3] == ' ')
  {
    RunRepeats(text, ' ', start);
    if start + 4 <= |text| && text[start] == text[start + 1] == text[start + 2] == text[start + 3] == ' ' {
      assert Run(text, ' ', start) == Run(text, ' ', start + 1) + 1 && Run(text, ' ', start + 1) == Run(text, ' ', start + 2) + 1;
      assert Run(text, ' ', start + 2) == Run(text, ' ', start + 3) + 1;
    }
  }

  /** The line ends there: at its line break, whose carriage return belongs to it, or with the text. */
  predicate IsLineEnd(text: string, start: nat, end: nat) {
    && start <= end <= |text| && (forall k :: start <= k < end ==> text[k] != '\n')
    && (end == |text| || (text[end] == '\n' && (end == start || text[end - 1] != '\r')) || (text[end] == '\r' && end + 1 < |text| && text[end + 1] == '\n'))
  }

  lemma ContentEndIs(text: string, start: nat)
    requires start <= |text|
    ensures IsLineEnd(text, start, ContentEnd(text, start))
  {
  }

  lemma LineEndOnce(text: string, start: nat, end: nat, end': nat)
    requires IsLineEnd(text, start, end) && IsLineEnd(text, start, end')
    ensures end == end'
  {
  }

  /** So many spaces, then so many markers, then only blanks up to the end of the line. */
  ghost predicate ClosesAs(text: string, start: nat, marker: char, n: nat, m: nat, end: nat) {
    && IsLineEnd(text, start, end) && start + n + m <= end && m > 0
    && (forall k :: start <= k < start + n ==> text[k] == ' ') && (forall k :: start + n <= k < start + n + m ==> text[k] == marker)
    && (forall k :: start + n + m <= k < end ==> text[k] == ' ' || text[k] == '\t')
  }

  lemma MarkersEndInLine(text: string, start: nat, c: char, at: nat)
    requires start <= at <= |text| && c != '\n' && c != '\r' && forall k :: start <= k < at ==> text[k] == ' '
    ensures at + Run(text, c, at) <= ContentEnd(text, start)
  {
    RunRepeats(text, c, at);
    ContentEndIs(text, start);
  }

  lemma ClosingLineCloses(text: string, start: nat, fence: Fence)
    requires start <= |text| && IsMarker(fence.marker) && fence.length > 0 && ClosesFence(text, start, fence)
    ensures exists n: nat, m: nat, end: nat :: n <= 3 && m >= fence.length && ClosesAs(text, start, fence.marker, n, m, end)
  {
    var spaces := Run(text, ' ', start);
    RunRepeats(text, ' ', start);
    ContentEndIs(text, start);
    RunRepeats(text, fence.marker, start + spaces);
    MarkersEndInLine(text, start, fence.marker, start + spaces);
    assert ClosesAs(text, start, fence.marker, spaces, Run(text, fence.marker, start + spaces), ContentEnd(text, start));
  }

  lemma CloserIsClosing(text: string, start: nat, fence: Fence, n: nat, m: nat, end: nat)
    requires start <= |text| && IsMarker(fence.marker) && n <= 3 && m >= fence.length && ClosesAs(text, start, fence.marker, n, m, end)
    ensures ClosesFence(text, start, fence)
  {
    ContentEndIs(text, start);
    LineEndOnce(text, start, end, ContentEnd(text, start));
    RunIs(text, ' ', start, n);
    RunIs(text, fence.marker, start + n, m);
  }

  /** A line closes a fence exactly if behind at most three spaces it holds at least as many of its markers, and no more
      than blanks behind them. */
  lemma FenceClosesExactly(text: string, start: nat, fence: Fence)
    requires start <= |text| && IsMarker(fence.marker) && fence.length > 0
    ensures ClosesFence(text, start, fence) <==>
              exists n: nat, m: nat, end: nat :: n <= 3 && m >= fence.length && ClosesAs(text, start, fence.marker, n, m, end)
  {
    if ClosesFence(text, start, fence) { ClosingLineCloses(text, start, fence); }
    if n: nat, m: nat, end: nat :| n <= 3 && m >= fence.length && ClosesAs(text, start, fence.marker, n, m, end) {
      CloserIsClosing(text, start, fence, n, m, end);
    }
  }
}
