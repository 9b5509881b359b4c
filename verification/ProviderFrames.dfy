/**
 The provider frame log of a transcript and the assistant text derived from it:
 the fragments of the active frames of one row, by frame order and then by arrival,
 joined from the left.
 */
module ProviderFrames {
  import opened Wrappers
  import opened FrameText

  datatype FrameKey = FrameKey(session: string, provider: string, providerSession: string, uuid: string)

  datatype RowKey = RowKey(session: string, seqNo: int)

  datatype FrameKind = Assistant | ResultText | ToolResult

  /** One normalized provider frame as it is delivered. */
  datatype FrameInput = FrameInput(key: FrameKey, assistantSeq: int, order: int, kind: FrameKind,
                                   text: Option<string>, toolStarts: seq<string>, toolResults: seq<string>)
  {
    function Row(): RowKey { RowKey(key.session, assistantSeq) }
  }

  /** A stored frame; its position in the log is its row id. */
  datatype Frame = Frame(input: FrameInput, retracted: bool) {
    function Row(): RowKey { input.Row() }
  }

  /** The frames a row's text is read from, in arrival order. */
  function TextFrames(frames: seq<Frame>, row: RowKey, provider: string): (r: seq<Frame>)
    ensures forall f :: f in r <==> f in frames && IsTextFrame(f, row, provider)
  {
    if frames == [] then []
    else
      var rest := TextFrames(frames[..|frames| - 1], row, provider);
      var last := frames[|frames| - 1];
      assert frames == frames[..|frames| - 1] + [last];
      if IsTextFrame(last, row, provider) then rest + [last] else rest
  }

  predicate IsTextFrame(f: Frame, row: RowKey, provider: string) {
    f.Row() == row && f.input.key.provider == provider && f.input.kind != ToolResult && !f.retracted
  }

  /** Put a frame behind every frame of the same or an earlier order. */
  function InsertByOrder(sorted: seq<Frame>, f: Frame): (r: seq<Frame>)
    ensures multiset(r) == multiset(sorted) + multiset{f}
  {
    if sorted == [] || sorted[|sorted| - 1].input.order <= f.input.order then sorted + [f]
    else
      assert sorted == sorted[..|sorted| - 1] + [sorted[|sorted| - 1]];
      InsertByOrder(sorted[..|sorted| - 1], f) + [sorted[|sorted| - 1]]
  }

  /** ORDER BY frame_order, id over frames that are listed by id. */
  function OrderFrames(frames: seq<Frame>): (r: seq<Frame>)
    ensures multiset(r) == multiset(frames)
  {
    if frames == [] then []
    else
      assert frames == frames[..|frames| - 1] + [frames[|frames| - 1]];
      InsertByOrder(OrderFrames(frames[..|frames| - 1]), frames[|frames| - 1])
  }

  function JoinAll(frames: seq<Frame>): string {
    if frames == [] then ""
    else
      var canonical := JoinAll(frames[..|frames| - 1]);
      match frames[|frames| - 1].input.text
      case Some(fragment) => if fragment == "" then canonical else JoinFrameText(canonical, fragment)
      case None => canonical
  }

  function CanonicalText(frames: seq<Frame>, row: RowKey, provider: string): string {
    JoinAll(OrderFrames(TextFrames(frames, row, provider)))
  }

  predicate SortedByOrder(frames: seq<Frame>) {
    forall i, j | 0 <= i < j < |frames| :: frames[i].input.order <= frames[j].input.order
  }

  predicate StrictlyByOrder(frames: seq<Frame>) {
    forall i, j | 0 <= i < j < |frames| :: frames[i].input.order < frames[j].input.order
  }

  lemma {:induction false} InsertKeepsSorted(sorted: seq<Frame>, f: Frame)
    requires SortedByOrder(sorted)
    ensures SortedByOrder(InsertByOrder(sorted, f))
  {
    if sorted != [] && sorted[|sorted| - 1].input.order > f.input.order {
      var init, last := sorted[..|sorted| - 1], sorted[|sorted| - 1];
      InsertKeepsSorted(init, f);
      var r := InsertByOrder(init, f);
      forall i | 0 <= i < |r| ensures r[i].input.order <= last.input.order {
        assert r[i] in multiset(r);
        assert r[i] in multiset(init) + multiset{f};
      }
    }
  }

  lemma {:induction false} OrderFramesSorts(frames: seq<Frame>)
    ensures SortedByOrder(OrderFrames(frames))
  {
    if frames != [] {
      OrderFramesSorts(frames[..|frames| - 1]);
      InsertKeepsSorted(OrderFrames(frames[..|frames| - 1]), frames[|frames| - 1]);
    }
  }

  /** Frames of one list that share an order number are one and the same entry. */
  predicate DistinctOrders(frames: seq<Frame>) {
    forall i, j | 0 <= i < j < |frames| :: frames[i].input.order != frames[j].input.order
  }

  lemma {:induction false} InsertKeepsStrict(sorted: seq<Frame>, f: Frame)
    requires StrictlyByOrder(sorted)
    requires forall g | g in sorted :: g.input.order != f.input.order
    ensures StrictlyByOrder(InsertByOrder(sorted, f))
  {
    if sorted != [] && sorted[|sorted| - 1].input.order > f.input.order {
      var init, last := sorted[..|sorted| - 1], sorted[|sorted| - 1];
      InsertKeepsStrict(init, f);
      var r := InsertByOrder(init, f);
      forall i | 0 <= i < |r| ensures r[i].input.order < last.input.order {
        assert r[i] in multiset(r);
        assert r[i] in multiset(init) + multiset{f};
      }
    }
  }

  lemma {:induction false} DistinctOrdersSortStrictly(frames: seq<Frame>)
    requires DistinctOrders(frames)
    ensures StrictlyByOrder(OrderFrames(frames))
  {
    if frames != [] {
      var init, last := frames[..|frames| - 1], frames[|frames| - 1];
      DistinctOrdersSortStrictly(init);
      forall g | g in OrderFrames(init) ensures g.input.order != last.input.order {
        assert g in multiset(OrderFrames(init));
        assert g in init;
      }
      InsertKeepsStrict(OrderFrames(init), last);
    }
  }

  lemma LastSplits(s: seq<Frame>)
    requires s != []
    ensures forall f :: f in s <==> f in s[..|s| - 1] || f == s[|s| - 1]
  {
    assert s == s[..|s| - 1] + [s[|s| - 1]];
  }

  lemma StrictLast(xs: seq<Frame>, f: Frame)
    requires StrictlyByOrder(xs) && f in xs
    ensures f.input.order <= xs[|xs| - 1].input.order
    ensures f != xs[|xs| - 1] ==> f.input.order < xs[|xs| - 1].input.order
    ensures xs[|xs| - 1] !in xs[..|xs| - 1]
  {
  }

  /** A strictly ordered list is determined by its entries. */
  lemma {:induction false} StrictOrderUnique(xs: seq<Frame>, ys: seq<Frame>)
    requires StrictlyByOrder(xs) && StrictlyByOrder(ys)
    requires forall f :: f in xs <==> f in ys
    ensures xs == ys
  {
    assert |ys| > 0 ==> ys[0] in ys;
    if xs != [] {
      var x := xs[|xs| - 1];
      assert x in ys;
      var y := ys[|ys| - 1];
      StrictLast(xs, y);
      StrictLast(ys, x);
      assert x == y;
      LastSplits(xs);
      LastSplits(ys);
      StrictLast(xs, x);
      StrictLast(ys, y);
      var xs', ys' := xs[..|xs| - 1], ys[..|ys| - 1];
      forall f ensures f in xs' <==> f in ys' {
        if f in xs' { assert f in xs; }
        if f in ys' { assert f in ys; }
      }
      StrictOrderUnique(xs', ys');
      assert xs == xs' + [x] && ys == ys' + [x];
    }
  }

  /** Any two logs with the same text frames for a row, no two of one order, read the
      same text, whatever order the frames arrived in. */
  lemma CanonicalTextIsOrderFree(frames: seq<Frame>, frames': seq<Frame>, row: RowKey, provider: string)
    requires forall f :: f in TextFrames(frames, row, provider) <==> f in TextFrames(frames', row, provider)
    requires DistinctOrders(TextFrames(frames, row, provider))
    requires DistinctOrders(TextFrames(frames', row, provider))
    ensures CanonicalText(frames, row, provider) == CanonicalText(frames', row, provider)
  {
    var xs, ys := TextFrames(frames, row, provider), TextFrames(frames', row, provider);
    DistinctOrdersSortStrictly(xs);
    DistinctOrdersSortStrictly(ys);
    forall f ensures f in OrderFrames(xs) <==> f in OrderFrames(ys) {
      assert f in OrderFrames(xs) <==> f in multiset(OrderFrames(xs));
      assert f in OrderFrames(ys) <==> f in multiset(OrderFrames(ys));
      assert f in xs <==> f in multiset(xs);
      assert f in ys <==> f in multiset(ys);
    }
    StrictOrderUnique(OrderFrames(xs), OrderFrames(ys));
  }
}
