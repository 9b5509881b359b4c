/**
 What an assistant row shows: the non-empty fragments of its frames, whole and in order, with a
 blank line between neighbours and no newline more than that takes.
 */
module FrameLayout {
  import opened Wrappers
  import opened FrameText
  import opened ProviderFrames

  /** A run of `n` newlines that takes in the seam from `end` to `start`. */
  ghost predicate HasRun(text: string, end: nat, start: nat, n: nat) {
    exists a: nat, b: nat {:trigger text[a..b]} :: a <= end <= start <= b <= |text| && b - a == n && AllNewlines(text[a..b])
  }

  /** Between two neighbours stand newlines only, two with those they bring; more only if they bring them. */
  ghost predicate IsSeam(text: string, end: nat, start: nat) {
    && end <= start <= |text| && AllNewlines(text[end..start])
    && HasRun(text, end, start, 2) && (end < start ==> !HasRun(text, end, start, 3))
  }

  /** The fragment stands whole at the position. */
  predicate Holds(text: string, fragment: string, p: nat) {
    p + |fragment| <= |text| && text[p..p + |fragment|] == fragment
  }

  /** In the text up to it, the k-th fragment is set off from the one before. */
  ghost predicate IsSetOff(text: string, fragments: seq<string>, at: seq<nat>, k: nat)
    requires 0 < k < |at| == |fragments| && at[k] + |fragments[k]| <= |text|
  {
    IsSeam(text[..at[k] + |fragments[k]|], at[k - 1] + |fragments[k - 1]|, at[k])
  }

  /** The fragments fill the text, the k-th standing at `at[k]`. */
  ghost predicate IsLaidOut(text: string, fragments: seq<string>, at: seq<nat>) {
    && |at| == |fragments|
    && (fragments == [] ==> text == "")
    && (forall k :: 0 <= k < |at| ==> Holds(text, fragments[k], at[k]))
    && (at != [] ==> at[0] == 0 && at[|at| - 1] + |fragments[|at| - 1]| == |text|)
    && (forall k :: 0 < k < |at| ==> IsSetOff(text, fragments, at, k))
  }

  /** The fragments are the non-empty texts of the frames, those at the positions `from`. */
  ghost predicate AreFragments(frames: seq<Frame>, from: seq<nat>, fragments: seq<string>) {
    && |from| == |fragments|
    && (forall k :: 0 <= k < |from| ==> from[k] < |frames| && frames[from[k]].input.text == Some(fragments[k]) && fragments[k] != "")
    && (forall k, l :: 0 <= k < l < |from| ==> from[k] < from[l])
    && (forall i :: 0 <= i < |frames| && HasText(frames[i]) ==> i in from)
  }

  predicate HasText(f: Frame) {
    f.input.text.Some? && f.input.text.value != ""
  }

  /** The text lays out the non-empty fragments of the frames. */
  ghost predicate LaysOut(text: string, frames: seq<Frame>) {
    exists from, fragments, at :: AreFragments(frames, from, fragments) && IsLaidOut(text, fragments, at)
  }

  // ----- the join is the layout -----------------------------------------------------------

  lemma JoinIsSeam(previous: string, next: string)
    requires previous != "" && next != ""
    ensures var joined := JoinFrameText(previous, next);
            |joined| >= |previous| + |next| && IsSeam(joined, |previous|, |joined| - |next|)
  {
    var joined := JoinFrameText(previous, next);
    JoinSeparatesFragments(previous, next);
    TrailingNewlinesMeaning(previous);
    LeadingNewlinesMeaning(next);
    var t, l, end, start := TrailingNewlines(previous), LeadingNewlines(next), |previous|, |joined| - |next|;
    assert joined[..end] == previous && joined[start..] == next;
    forall i | end - t <= i < end ensures joined[i] == '\n' { assert joined[i] == previous[i]; }
    forall i | start <= i < start + l ensures joined[i] == '\n' { assert joined[i] == next[i - start]; }
    SeamRun(joined, end, start, t, l);
    if end < start {
      forall a: nat, b: nat | a <= end <= start <= b <= |joined| && AllNewlines(joined[a..b]) ensures b - a <= 2 {
        RunIsBounded(joined, previous, next, a, b);
      }
    }
  }

  /** Two newlines around a seam that has at least two in a row. */
  lemma SeamRun(text: string, end: nat, start: nat, t: nat, l: nat)
    requires t <= end <= start && start + l <= |text| && start - end <= 2 && t + (start - end) + l >= 2
    requires forall i :: end - t <= i < start + l ==> text[i] == '\n'
    ensures HasRun(text, end, start, 2)
  {
    var need := 2 - (start - end);
    var a: nat := if t >= need then end - need else end - t;
    var b: nat := a + 2;
    assert AllNewlines(text[a..b]);
  }

  lemma RunIsBounded(text: string, previous: string, next: string, a: nat, b: nat)
    requires |previous| + |next| <= |text| && text[..|previous|] == previous && text[|text| - |next|..] == next
    requires a <= |previous| && |text| - |next| <= b <= |text| && AllNewlines(text[a..b])
    ensures |previous| - a <= TrailingNewlines(previous) && b - (|text| - |next|) <= LeadingNewlines(next)
  {
    TrailingNewlinesMeaning(previous);
    LeadingNewlinesMeaning(next);
    var t, l, start := TrailingNewlines(previous), LeadingNewlines(next), |text| - |next|;
    forall i | a <= i < |previous| ensures previous[i] == '\n' { assert text[a..b][i - a] == text[i] == previous[i]; }
    forall i | 0 <= i < b - start ensures next[i] == '\n' { assert text[a..b][start + i - a] == text[start + i] == next[i]; }
  }

  lemma HoldsLonger(text: string, longer: string, fragment: string, p: nat)
    requires text <= longer && Holds(text, fragment, p)
    ensures Holds(longer, fragment, p) && longer[..p + |fragment|] == text[..p + |fragment|]
  {
    assert longer[p..p + |fragment|] == text[p..p + |fragment|];
  }

  lemma SetOffLonger(text: string, longer: string, fragments: seq<string>, at: seq<nat>, next: string, p: nat, k: nat)
    requires 0 < k < |at| == |fragments| && text <= longer && Holds(text, fragments[k], at[k]) && IsSetOff(text, fragments, at, k)
    ensures at[k] + |fragments[k]| <= |longer| && IsSetOff(longer, fragments + [next], at + [p], k)
  {
    HoldsLonger(text, longer, fragments[k], at[k]);
  }

  lemma AppendedLaysOut(previous: string, fragments: seq<string>, at: seq<nat>, next: string, joined: string, p: nat)
    requires IsLaidOut(previous, fragments, at) && fragments != [] && previous <= joined
    requires Holds(joined, next, p) && p + |next| == |joined| && IsSeam(joined, |previous|, p)
    ensures IsLaidOut(joined, fragments + [next], at + [p])
  {
    var at' := at + [p];
    forall k | 0 <= k < |at| ensures Holds(joined, fragments[k], at[k]) { HoldsLonger(previous, joined, fragments[k], at[k]); }
    forall k | 0 < k < |at| ensures IsSetOff(joined, fragments + [next], at', k) {
      assert Holds(previous, fragments[k], at[k]);
      SetOffLonger(previous, joined, fragments, at, next, p, k);
    }
    assert joined[..p + |next|] == joined;
  }

  lemma JoinLaysOut(previous: string, fragments: seq<string>, at: seq<nat>, next: string) returns (at': seq<nat>)
    requires IsLaidOut(previous, fragments, at) && (previous == "" <==> fragments == []) && next != ""
    ensures IsLaidOut(JoinFrameText(previous, next), fragments + [next], at')
  {
    var joined := JoinFrameText(previous, next);
    if fragments == [] {
      at' := [0];
      assert joined[0..0 + |next|] == next;
    } else {
      JoinIsSeam(previous, next);
      at' := at + [|joined| - |next|];
      AppendedLaysOut(previous, fragments, at, next, joined, |joined| - |next|);
    }
  }

  lemma LaidOutIsEmptyExactly(text: string, fragments: seq<string>, at: seq<nat>)
    requires IsLaidOut(text, fragments, at) && forall k :: 0 <= k < |fragments| ==> fragments[k] != ""
    ensures text == "" <==> fragments == []
  {
    if fragments != [] { assert Holds(text, fragments[0], at[0]); }
  }

  lemma FragmentAppended(frames: seq<Frame>, from: seq<nat>, fragments: seq<string>, f: Frame) returns (from': seq<nat>, fragments': seq<string>)
    requires AreFragments(frames, from, fragments)
    ensures AreFragments(frames + [f], from', fragments')
    ensures fragments' == if HasText(f) then fragments + [f.input.text.value] else fragments
  {
    from', fragments' := from, fragments;
    if HasText(f) { from', fragments' := from + [|frames|], fragments + [f.input.text.value]; }
    forall i | 0 <= i < |frames + [f]| && HasText((frames + [f])[i]) ensures i in from' {
      if i < |frames| { assert HasText(frames[i]) && i in from; } else { assert from'[|from|] == i; }
    }
  }

  /** The joined text of a list of frames lays out their fragments. */
  lemma {:induction false} JoinAllLaysOut(frames: seq<Frame>) returns (from: seq<nat>, fragments: seq<string>, at: seq<nat>)
    ensures AreFragments(frames, from, fragments) && IsLaidOut(JoinAll(frames), fragments, at)
  {
    from, fragments, at := [], [], [];
    if frames != [] {
      var init, last := frames[..|frames| - 1], frames[|frames| - 1];
      assert frames == init + [last];
      from, fragments, at := JoinAllLaysOut(init);
      LaidOutIsEmptyExactly(JoinAll(init), fragments, at);
      if HasText(last) { at := JoinLaysOut(JoinAll(init), fragments, at, last.input.text.value); }
      from, fragments := FragmentAppended(init, from, fragments, last);
    }
  }

  // ----- a layout leaves no choice ----------------------------------------------------------

  lemma LaidOutInit(text: string, fragments: seq<string>, at: seq<nat>)
    requires IsLaidOut(text, fragments, at) && |fragments| > 1
    ensures var n := |fragments| - 1;
            at[n - 1] + |fragments[n - 1]| <= |text| && IsLaidOut(text[..at[n - 1] + |fragments[n - 1]|], fragments[..n], at[..n])
  {
    var n := |fragments| - 1;
    assert Holds(text, fragments[n - 1], at[n - 1]);
    var init := text[..at[n - 1] + |fragments[n - 1]|];
    EndsIncrease(text, fragments, at, n - 1);
    forall k | 0 <= k < n ensures Holds(init, fragments[..n][k], at[..n][k]) {
      assert Holds(text, fragments[k], at[k]);
      EndsIncrease(text, fragments, at, k);
      EndsIncreaseTo(text, fragments, at, k, n - 1);
      assert init[at[k]..at[k] + |fragments[k]|] == text[at[k]..at[k] + |fragments[k]|];
    }
    forall k | 0 < k < n ensures IsSetOff(init, fragments[..n], at[..n], k) {
      EndsIncreaseTo(text, fragments, at, k, n - 1);
      assert IsSetOff(text, fragments, at, k);
      assert init[..at[k] + |fragments[k]|] == text[..at[k] + |fragments[k]|];
    }
  }

  lemma EndsIncrease(text: string, fragments: seq<string>, at: seq<nat>, k: nat)
    requires IsLaidOut(text, fragments, at) && k < |at|
    ensures at[k] + |fragments[k]| <= |text|
    ensures k > 0 ==> at[k - 1] + |fragments[k - 1]| <= at[k]
  {
    assert Holds(text, fragments[k], at[k]);
    if k > 0 { assert IsSetOff(text, fragments, at, k); }
  }

  lemma {:induction false} EndsIncreaseTo(text: string, fragments: seq<string>, at: seq<nat>, k: nat, n: nat)
    requires IsLaidOut(text, fragments, at) && k <= n < |at|
    ensures at[k] + |fragments[k]| <= at[n] + |fragments[n]| <= |text|
  {
    EndsIncrease(text, fragments, at, n);
    if k < n { EndsIncreaseTo(text, fragments, at, k, n - 1); }
  }

  /** A longer gap would put a third newline around the seam. */
  lemma LongerSeamHasThree(text: string, text': string, end: nat, start: nat, start': nat)
    requires end <= start < start' <= |text'| && IsSeam(text, end, start) && start' <= end + 2 && AllNewlines(text'[end..start'])
    requires text[..end] == text'[..end] && text[start..] == text'[start'..]
    ensures HasRun(text', end, start', 3)
  {
    var a: nat, b: nat :| a <= end && start <= b <= |text| && b - a == 2 && AllNewlines(text[a..b]);
    var b' := b + (start' - start);
    forall i | a <= i < b' ensures text'[i] == '\n' {
      if i < end { assert text'[i] == text'[..end][i] == text[..end][i] == text[a..b][i - a]; }
      else if i < start' { assert text'[i] == text'[end..start'][i - end]; }
      else { assert text'[i] == text'[start'..][i - start'] == text[start..][i - start'] == text[a..b][i - start' + start - a]; }
    }
    var c: nat := if end - a <= 3 - (start' - end) then a else end - (3 - (start' - end));
    assert AllNewlines(text'[c..c + 3]);
  }

  lemma SeamIsNotLonger(text: string, text': string, end: nat, start: nat, start': nat)
    requires IsSeam(text, end, start) && IsSeam(text', end, start')
    requires text[..end] == text'[..end] && text[start..] == text'[start'..]
    ensures start' <= start
  {
    if start < start' { LongerSeamHasThree(text, text', end, start, start'); }
  }

  lemma WholeText(text: string, last: string, p: nat)
    requires Holds(text, last, p) && p + |last| == |text|
    ensures text[..p + |last|] == text && text[p..] == last
  {
  }

  lemma SameText(text: string, text': string, end: nat, start: nat)
    requires end <= start <= |text| && start <= |text'| && text[..end] == text'[..end] && text[start..] == text'[start..]
    requires AllNewlines(text[end..start]) && AllNewlines(text'[end..start])
    ensures text == text'
  {
    assert text[end..start] == text'[end..start];
    assert text == text[..end] + text[end..start] + text[start..];
    assert text' == text'[..end] + text'[end..start] + text'[start..];
  }

  lemma LastFragmentOnce(text: string, text': string, last: string, e: nat, p: nat, p': nat)
    requires e <= |text| && e <= |text'| && text[..e] == text'[..e]
    requires Holds(text, last, p) && p + |last| == |text| && IsSeam(text, e, p)
    requires Holds(text', last, p') && p' + |last| == |text'| && IsSeam(text', e, p')
    ensures text == text'
  {
    WholeText(text, last, p);
    WholeText(text', last, p');
    SeamIsNotLonger(text, text', e, p, p');
    SeamIsNotLonger(text', text, e, p', p);
    SameText(text, text', e, p);
  }

  lemma LastIsSetOff(text: string, fragments: seq<string>, at: seq<nat>)
    requires IsLaidOut(text, fragments, at) && |fragments| > 1
    ensures var n := |fragments| - 1;
            && Holds(text, fragments[n], at[n]) && at[n] + |fragments[n]| == |text|
            && IsSeam(text, at[n - 1] + |fragments[n - 1]|, at[n])
  {
    var n := |fragments| - 1;
    assert Holds(text, fragments[n], at[n]) && IsSetOff(text, fragments, at, n);
    assert text[..|text|] == text;
  }

  /** So the fragments determine the text. */
  lemma {:induction false} LaidOutOnce(text: string, text': string, fragments: seq<string>, at: seq<nat>, at': seq<nat>)
    requires IsLaidOut(text, fragments, at) && IsLaidOut(text', fragments, at')
    ensures text == text'
    decreases |fragments|
  {
    var n := |fragments| - 1;
    if n == 0 {
      assert Holds(text, fragments[0], at[0]) && Holds(text', fragments[0], at'[0]);
    } else if n > 0 {
      LaidOutInit(text, fragments, at);
      LaidOutInit(text', fragments, at');
      var e, e' := at[n - 1] + |fragments[n - 1]|, at'[n - 1] + |fragments[n - 1]|;
      LaidOutOnce(text[..e], text'[..e'], fragments[..n], at[..n], at'[..n]);
      assert e == |text[..e]| == |text'[..e']| == e';
      LastIsSetOff(text, fragments, at);
      LastIsSetOff(text', fragments, at');
      LastFragmentOnce(text, text', fragments[n], e, at[n], at'[n]);
    }
  }

  ghost predicate Increasing(xs: seq<nat>) {
    forall i, j :: 0 <= i < j < |xs| ==> xs[i] < xs[j]
  }

  lemma LastIsGreatest(xs: seq<nat>, n: nat)
    requires Increasing(xs) && xs != []
    ensures n in xs[..|xs| - 1] <==> n in xs && n != xs[|xs| - 1]
    ensures n in xs ==> n <= xs[|xs| - 1]
  {
    assert xs == xs[..|xs| - 1] + [xs[|xs| - 1]];
  }

  lemma SameGreatest(xs: seq<nat>, ys: seq<nat>, xs': seq<nat>, ys': seq<nat>)
    requires Increasing(xs) && Increasing(ys) && xs != [] && ys != [] && forall n :: n in xs <==> n in ys
    requires xs' == xs[..|xs| - 1] && ys' == ys[..|ys| - 1]
    ensures xs[|xs| - 1] == ys[|ys| - 1] && forall n :: n in xs' <==> n in ys'
  {
    var x, y := xs[|xs| - 1], ys[|ys| - 1];
    assert x in xs && y in ys;
    LastIsGreatest(xs, y);
    LastIsGreatest(ys, x);
    forall n ensures n in xs' <==> n in ys' {
      LastIsGreatest(xs, n);
      LastIsGreatest(ys, n);
    }
  }

  lemma {:induction false} IncreasingOnce(xs: seq<nat>, ys: seq<nat>)
    requires Increasing(xs) && Increasing(ys) && forall n :: n in xs <==> n in ys
    ensures xs == ys
  {
    assert |ys| > 0 ==> ys[0] in ys;
    if xs != [] {
      assert xs[0] in xs;
      var xs', ys' := xs[..|xs| - 1], ys[..|ys| - 1];
      SameGreatest(xs, ys, xs', ys');
      IncreasingOnce(xs', ys');
      assert xs == xs' + [xs[|xs| - 1]] && ys == ys' + [ys[|ys| - 1]];
    }
  }

  lemma FragmentsOnce(frames: seq<Frame>, from: seq<nat>, fragments: seq<string>, from': seq<nat>, fragments': seq<string>)
    requires AreFragments(frames, from, fragments) && AreFragments(frames, from', fragments')
    ensures fragments == fragments'
  {
    forall n: nat ensures n in from <==> n in from' {
      assert n in from ==> n < |frames| && HasText(frames[n]);
      assert n in from' ==> n < |frames| && HasText(frames[n]);
    }
    IncreasingOnce(from, from');
    forall k | 0 <= k < |from| ensures fragments[k] == fragments'[k] {
      assert frames[from[k]].input.text == Some(fragments[k]);
    }
  }

  /** The joined text is the only one that lays out the fragments, and it is empty exactly if there are none. */
  lemma JoinAllIsLayout(frames: seq<Frame>, text: string)
    ensures LaysOut(text, frames) <==> text == JoinAll(frames)
    ensures JoinAll(frames) == "" <==> forall i :: 0 <= i < |frames| ==> !HasText(frames[i])
  {
    var from, fragments, at := JoinAllLaysOut(frames);
    LaidOutIsEmptyExactly(JoinAll(frames), fragments, at);
    if fragments != [] { assert HasText(frames[from[0]]); }
    if i :| 0 <= i < |frames| && HasText(frames[i]) { assert i in from; }
    if from', fragments', at' :| AreFragments(frames, from', fragments') && IsLaidOut(text, fragments', at') {
      FragmentsOnce(frames, from, fragments, from', fragments');
      LaidOutOnce(text, JoinAll(frames), fragments, at', at);
    }
  }

  /** A frame without text changes nothing. */
  lemma {:induction false} TextlessFrameChangesNothing(before: seq<Frame>, f: Frame, after: seq<Frame>)
    requires !HasText(f)
    ensures JoinAll(before + [f] + after) == JoinAll(before + after)
    decreases |after|
  {
    if after == [] {
      assert before + [f] + after == before + [f] && before + after == before;
      assert (before + [f])[..|before|] == before;
    } else {
      var init := after[..|after| - 1];
      assert (before + [f] + after)[..|before + [f] + after| - 1] == before + [f] + init;
      assert (before + after)[..|before + after| - 1] == before + init;
      TextlessFrameChangesNothing(before, f, init);
    }
  }
}
