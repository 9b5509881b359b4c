/**
 How the text fragments of one assistant row are joined: fragments are separated by
 at least one blank line, and newlines already present at the seam are counted in.
 */
module FrameText {

  function LeadingNewlines(s: string): nat {
    if s != "" && s[0] == '\n' then 1 + LeadingNewlines(s[1..]) else 0
  }

  function TrailingNewlines(s: string): nat {
    if s != "" && s[|s| - 1] == '\n' then 1 + TrailingNewlines(s[..|s| - 1]) else 0
  }

  function Newlines(n: nat): string {
    seq(n, _ => '\n')
  }

  function MissingNewlines(trailing: nat, leading: nat): nat {
    if trailing + leading >= 2 then 0 else 2 - trailing - leading
  }

  function JoinFrameText(previous: string, next: string): string {
    if previous == "" || next == "" then
      if previous != "" then previous else next
    else
      previous + Newlines(MissingNewlines(TrailingNewlines(previous), LeadingNewlines(next))) + next
  }

  predicate AllNewlines(s: string) {
    forall i | 0 <= i < |s| :: s[i] == '\n'
  }

  lemma {:induction false} LeadingNewlinesMeaning(s: string)
    ensures LeadingNewlines(s) <= |s|
    ensures forall i | 0 <= i < LeadingNewlines(s) :: s[i] == '\n'
    ensures LeadingNewlines(s) < |s| ==> s[LeadingNewlines(s)] != '\n'
  {
    if s != "" && s[0] == '\n' {
      LeadingNewlinesMeaning(s[1..]);
      var k := LeadingNewlines(s[1..]);
      forall i | 0 <= i < LeadingNewlines(s) ensures s[i] == '\n' {
        if i > 0 { assert s[i] == s[1..][i - 1]; }
      }
      if k + 1 < |s| { assert s[k + 1] == s[1..][k]; }
    }
  }

  lemma {:induction false} TrailingNewlinesMeaning(s: string)
    ensures TrailingNewlines(s) <= |s|
    ensures forall i | |s| - TrailingNewlines(s) <= i < |s| :: s[i] == '\n'
    ensures TrailingNewlines(s) < |s| ==> s[|s| - 1 - TrailingNewlines(s)] != '\n'
  {
    if s != "" && s[|s| - 1] == '\n' {
      TrailingNewlinesMeaning(s[..|s| - 1]);
    }
  }

  /** The two counters are determined by where the first and last non-newline stand. */
  lemma LeadingNewlinesUnique(s: string, k: nat)
    requires k <= |s|
    requires forall i | 0 <= i < k :: s[i] == '\n'
    requires k < |s| ==> s[k] != '\n'
    ensures LeadingNewlines(s) == k
  {
    LeadingNewlinesMeaning(s);
  }

  lemma TrailingNewlinesUnique(s: string, k: nat)
    requires k <= |s|
    requires forall i | |s| - k <= i < |s| :: s[i] == '\n'
    requires k < |s| ==> s[|s| - 1 - k] != '\n'
    ensures TrailingNewlines(s) == k
  {
    TrailingNewlinesMeaning(s);
    var t := TrailingNewlines(s);
    assert t < |s| ==> s[|s| - 1 - t] != '\n';
    assert k < |s| ==> s[|s| - 1 - k] != '\n';
  }

  /** Joining keeps both fragments whole and leaves at least a blank line at the seam,
      adding no newline when the fragments already bring two. */
  lemma JoinSeparatesFragments(previous: string, next: string)
    requires previous != "" && next != ""
    ensures var joined := JoinFrameText(previous, next);
            var added := |joined| - |previous| - |next|;
            && 0 <= added <= 2
            && previous <= joined
            && joined[|joined| - |next|..] == next
            && AllNewlines(joined[|previous|..|previous| + added])
            && TrailingNewlines(previous) + added + LeadingNewlines(next) >= 2
            && (added > 0 ==> TrailingNewlines(previous) + added + LeadingNewlines(next) == 2)
  {
  }

  /** Text in front of a fragment that is not all newlines does not reach its trailing newlines. */
  lemma TrailingOfSuffix(front: string, b: string)
    requires !AllNewlines(b)
    ensures TrailingNewlines(front + b) == TrailingNewlines(b) < |b|
  {
    TrailingNewlinesMeaning(b);
    var k := TrailingNewlines(b);
    assert (front + b)[|front + b| - 1 - k] == b[|b| - 1 - k];
    TrailingNewlinesUnique(front + b, k);
  }

  lemma JoinAfterOpenFragment(a: string, b: string)
    requires a != "" && b != "" && !AllNewlines(b)
    ensures TrailingNewlines(JoinFrameText(a, b)) == TrailingNewlines(b)
    ensures LeadingNewlines(b) < |b| && TrailingNewlines(b) < |b|
  {
    LeadingNewlinesMeaning(b);
    TrailingOfSuffix(a + Newlines(MissingNewlines(TrailingNewlines(a), LeadingNewlines(b))), b);
  }

  lemma JoinBeforeOpenFragment(b: string, c: string)
    requires b != "" && c != "" && !AllNewlines(b)
    ensures LeadingNewlines(JoinFrameText(b, c)) == LeadingNewlines(b)
  {
    LeadingNewlinesMeaning(b);
    LeadingNewlinesUnique(JoinFrameText(b, c), LeadingNewlines(b));
  }

  /** Newline counts when the middle fragment holds nothing but newlines. */
  lemma JoinNewlineFragment(a: string, n: nat, c: string)
    requires a != "" && c != "" && n > 0
    ensures TrailingNewlines(JoinFrameText(a, Newlines(n)))
         == TrailingNewlines(a) + MissingNewlines(TrailingNewlines(a), n) + n
    ensures LeadingNewlines(JoinFrameText(Newlines(n), c))
         == n + MissingNewlines(n, LeadingNewlines(c)) + LeadingNewlines(c)
  {
    var b := Newlines(n);
    TrailingNewlinesUnique(b, n);
    LeadingNewlinesUnique(b, n);
    TrailingNewlinesMeaning(a);
    LeadingNewlinesMeaning(c);
    var m := MissingNewlines(TrailingNewlines(a), n);
    TrailingNewlinesUnique(a + Newlines(m) + b, TrailingNewlines(a) + m + n);
    var l := MissingNewlines(n, LeadingNewlines(c));
    LeadingNewlinesUnique(b + Newlines(l) + c, n + l + LeadingNewlines(c));
  }

  /** Whether a lone newline fragment sits between one open and one closed seam. */
  predicate LopsidedNewline(a: string, b: string, c: string) {
    && a != "" && c != "" && b == "\n"
    && (TrailingNewlines(a) == 0) != (LeadingNewlines(c) == 0)
  }

  lemma PaddingAddsUp(m: nat, n: nat)
    ensures Newlines(m) + Newlines(n) == Newlines(m + n)
  {
  }

  /** Padding with different amounts gives different texts. */
  lemma PaddingIsInjective(a: string, m: nat, l: nat, c: string)
    ensures a + Newlines(m) + c == a + Newlines(l) + c <==> m == l
  {
    assert |a + Newlines(m) + c| == |a| + m + |c|;
    assert |a + Newlines(l) + c| == |a| + l + |c|;
  }

  /** The join by how many newlines are missing at the seam. */
  lemma JoinPads(previous: string, next: string, missing: nat)
    requires previous != "" && next != ""
    requires MissingNewlines(TrailingNewlines(previous), LeadingNewlines(next)) == missing
    ensures JoinFrameText(previous, next) == previous + Newlines(missing) + next
    ensures missing == 0 ==> JoinFrameText(previous, next) == previous + next
  {
    if missing == 0 { assert previous + Newlines(0) == previous; }
  }

  lemma ConcatAssociative(a: string, b: string, c: string)
    ensures a + (b + c) == (a + b) + c
  {
  }

  lemma PaddedTwice(a: string, m: nat, n: nat)
    ensures a + Newlines(m) + Newlines(n) == a + Newlines(m + n)
    ensures Newlines(m) + Newlines(n) + a == Newlines(m + n) + a
  {
    PaddingAddsUp(m, n);
    ConcatAssociative(a, Newlines(m), Newlines(n));
  }

  lemma JoinLeftOfNewlines(a: string, n: nat, c: string, ab: string)
    requires a != "" && c != "" && n > 0 && ab == JoinFrameText(a, Newlines(n))
    ensures JoinFrameText(ab, c) == a + Newlines(MissingNewlines(TrailingNewlines(a), n) + n) + c
  {
    var m := MissingNewlines(TrailingNewlines(a), n);
    LeadingNewlinesUnique(Newlines(n), n);
    JoinPads(a, Newlines(n), m);
    PaddedTwice(a, m, n);
    JoinNewlineFragment(a, n, c);
    JoinPads(ab, c, 0);
  }

  lemma JoinRightOfNewlines(a: string, n: nat, c: string, bc: string)
    requires a != "" && c != "" && n > 0 && bc == JoinFrameText(Newlines(n), c)
    ensures JoinFrameText(a, bc) == a + Newlines(n + MissingNewlines(n, LeadingNewlines(c))) + c
  {
    var l := MissingNewlines(n, LeadingNewlines(c));
    TrailingNewlinesUnique(Newlines(n), n);
    JoinPads(Newlines(n), c, l);
    PaddedTwice(c, n, l);
    JoinNewlineFragment(a, n, c);
    JoinPads(a, bc, 0);
    ConcatAssociative(a, Newlines(n + l), c);
  }

  lemma OnlyNewlines(b: string)
    requires AllNewlines(b)
    ensures b == Newlines(|b|)
  {
  }

  lemma RegroupAroundNewlines(a: string, b: string, c: string, ab: string, bc: string)
    requires a != "" && b != "" && c != "" && AllNewlines(b)
    requires ab == JoinFrameText(a, b) && bc == JoinFrameText(b, c)
    ensures JoinFrameText(ab, c) == JoinFrameText(a, bc)
       <==> MissingNewlines(TrailingNewlines(a), |b|) == MissingNewlines(|b|, LeadingNewlines(c))
  {
    var n := |b|;
    OnlyNewlines(b);
    JoinLeftOfNewlines(a, n, c, ab);
    JoinRightOfNewlines(a, n, c, bc);
    PaddingIsInjective(a, MissingNewlines(TrailingNewlines(a), n) + n,
                       n + MissingNewlines(n, LeadingNewlines(c)), c);
  }

  lemma RegroupAroundOpenFragment(a: string, b: string, c: string)
    requires a != "" && b != "" && c != "" && !AllNewlines(b)
    ensures JoinFrameText(JoinFrameText(a, b), c) == JoinFrameText(a, JoinFrameText(b, c))
  {
    JoinAfterOpenFragment(a, b);
    JoinBeforeOpenFragment(b, c);
    var m := Newlines(MissingNewlines(TrailingNewlines(a), LeadingNewlines(b)));
    var l := Newlines(MissingNewlines(TrailingNewlines(b), LeadingNewlines(c)));
    assert JoinFrameText(JoinFrameText(a, b), c) == (a + m + b) + l + c;
    assert JoinFrameText(a, JoinFrameText(b, c)) == a + m + (b + l + c);
    assert (a + m + b) + l + c == a + m + (b + l + c);
  }

  /** Regrouping the joins changes the text exactly for a lone newline fragment whose
      neighbours bring a newline on one side only; so the fold has to run from the left. */
  lemma JoinAssociativeExactly(a: string, b: string, c: string)
    ensures JoinFrameText(JoinFrameText(a, b), c) == JoinFrameText(a, JoinFrameText(b, c))
       <==> !LopsidedNewline(a, b, c)
  {
    if a != "" && b != "" && c != "" {
      if AllNewlines(b) {
        RegroupAroundNewlines(a, b, c, JoinFrameText(a, b), JoinFrameText(b, c));
        assert |b| == 1 <==> b == "\n";
      } else {
        RegroupAroundOpenFragment(a, b, c);
        assert b != "\n";
      }
    }
  }

  /** The concrete failure: "x\n", "\n", "y". */
  lemma JoinNotAssociative()
    ensures JoinFrameText(JoinFrameText("x\n", "\n"), "y") == "x\n\ny"
    ensures JoinFrameText("x\n", JoinFrameText("\n", "y")) == "x\n\n\ny"
  {
    TrailingNewlinesUnique("x\n", 1);
    LeadingNewlinesUnique("\n", 1);
    TrailingNewlinesUnique("\n", 1);
    LeadingNewlinesUnique("y", 0);
    assert JoinFrameText("x\n", "\n") == "x\n\n";
    TrailingNewlinesUnique("x\n\n", 2);
    assert JoinFrameText("\n", "y") == "\n\ny";
    LeadingNewlinesUnique("\n\ny", 2);
  }
}
