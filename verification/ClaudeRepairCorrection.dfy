/**
 Which stored Claude queries are repaired, and to what: a query is planned exactly if one prompt started in its window,
 its stored usage is that of the prompt's own calls, and child messages that only this prompt owns add something.
 */
module ClaudeRepairCorrection {
  import opened Wrappers
  import opened Rollouts
  import opened Sums
  import opened RepairVerdicts
  import opened UsageRows
  import opened ClaudeChildEvidence
  import opened ClaudeRepairPlan

  /** The tokens of the calls, in one bucket. */
  function Spent(calls: seq<Call>, b: Bucket): nat {
    Total(Mapped(calls, (c: Call) => c.usage.In(b)))
  }

  /** A child transcript of the root's session with this one prompt holds the call, and the root transcript does not. */
  ghost predicate IsOffered(root: ParsedRoot, children: seq<ParsedChild>, prompt: string, call: Call) {
    call.id !in root.rootMessageIds
    && exists c :: c in children && c.sessionId == root.sessionId && c.promptIds == [prompt] && call in c.calls
  }

  /** The message is offered for a prompt. */
  ghost predicate Owns(root: ParsedRoot, children: seq<ParsedChild>, prompt: string, m: string) {
    exists call: Call :: call.id == m && IsOffered(root, children, prompt, call)
  }

  /** No message offered for the prompt is offered for another one. */
  ghost predicate SharesNothing(root: ParsedRoot, children: seq<ParsedChild>, prompt: string) {
    forall m, other :: Owns(root, children, prompt, m) && Owns(root, children, other, m) ==> other == prompt
  }

  /** The newest of the message's copies, the last scanned of equally new ones. */
  ghost predicate IsNewestCopy(es: seq<Entry>, call: Call) {
    exists k :: 0 <= k < |es| && es[k].call == call && IsNewestAt(es, call, k)
  }

  ghost predicate IsNewestAt(es: seq<Entry>, call: Call, k: int) {
    forall j :: 0 <= j < |es| && es[j].call.id == call.id ==> es[j].call.atMs < call.atMs || (es[j].call.atMs == call.atMs && j <= k)
  }

  /** One call for each message that the prompt owns, its newest copy. */
  ghost predicate AreCounted(root: ParsedRoot, children: seq<ParsedChild>, prompt: string, calls: seq<Call>) {
    && (forall a, b :: 0 <= a < b < |calls| ==> calls[a].id != calls[b].id)
    && (forall c :: c in calls ==> Owns(root, children, prompt, c.id) && IsNewestCopy(Entries(root, children), c))
    && (forall m :: Owns(root, children, prompt, m) ==> exists c :: c in calls && c.id == m)
  }

  /** No other session claims the native session. */
  ghost predicate ClaimedOnce(sessions: seq<ClaudeSession>, id: string) {
    exists a :: 0 <= a < |sessions| && OnlyClaim(sessions, id, a)
  }

  ghost predicate OnlyClaim(sessions: seq<ClaudeSession>, id: string, a: int) {
    forall b :: 0 <= b < |sessions| ==> (sessions[b].providerSessionId == Some(id) <==> b == a)
  }

  /** The one prompt that started in the query's window. */
  ghost predicate IsSolePrompt(s: ClaudeSession, i: nat, prompts: seq<Prompt>, p: Prompt)
    requires i < |s.queries|
  {
    exists a :: 0 <= a < |prompts| && prompts[a] == p && OnlyStart(s, i, prompts, a)
  }

  ghost predicate OnlyStart(s: ClaudeSession, i: nat, prompts: seq<Prompt>, a: int)
    requires i < |s.queries|
  {
    var from := if i == 0 then s.startedAt * 1000.0 - 2000.0 else s.queries[i - 1].timestamp * 1000.0 + 2000.0;
    forall b :: 0 <= b < |prompts| ==> (from <= prompts[b].startedAtMs as real <= s.queries[i].timestamp * 1000.0 + 1999.0 <==> b == a)
  }

  ghost predicate Repairable(t: Transcripts, sessions: seq<ClaudeSession>, s: ClaudeSession, i: nat, root: ParsedRoot, p: Prompt, calls: seq<Call>)
    requires i < |s.queries|
  {
    && s.providerSessionId.Some? && s.providerSessionId.value != "" && ClaimedOnce(sessions, s.providerSessionId.value)
    && s.providerSessionId.value in t.roots && t.roots[s.providerSessionId.value] == [root]
    && |s.queries| == |s.ledger| && Mirrored(s)
    && IsSolePrompt(s, i, root.prompts, p) && SharesNothing(root, t.children, p.id) && AreCounted(root, t.children, p.id, calls)
    && (forall b: Bucket :: s.queries[i].usage.In(b) == Spent(p.rootCalls, b))
    && (exists b: Bucket :: Spent(calls, b) > 0)
  }

  /** What a planned row says, in terms of the transcripts alone. */
  ghost predicate IsCorrection(s: ClaudeSession, i: nat, p: Prompt, calls: seq<Call>, row: ClaudeRow)
    requires i < |s.queries| == |s.ledger|
  {
    && row.sessionId == s.id && s.providerSessionId == Some(row.providerSessionId) && row.query == s.queries[i] && row.usageQuery == s.ledger[i]
    && row.promptId == p.id && |row.rootMessageIds| == |p.rootCalls| && |row.childMessageIds| == |calls|
    && (forall k :: 0 <= k < |p.rootCalls| ==> row.rootMessageIds[k] == p.rootCalls[k].id)
    && (forall k :: 0 <= k < |calls| ==> row.childMessageIds[k] == calls[k].id)
    && (forall b: Bucket :: row.corrected.In(b) == Spent(p.rootCalls, b) + Spent(calls, b))
  }

  // ----- sums ---------------------------------------------------------------------------------

  lemma SameUsage(u: Usage, v: Usage)
    ensures u == v <==> forall b: Bucket :: u.In(b) == v.In(b)
  {
    if forall b: Bucket :: u.In(b) == v.In(b) {
      assert u.In(Input) == v.In(Input) && u.In(Output) == v.In(Output);
      assert u.In(CacheRead) == v.In(CacheRead) && u.In(CacheCreation) == v.In(CacheCreation);
    }
  }

  lemma PositiveExactly(u: Usage)
    ensures u.Positive() <==> exists b: Bucket :: u.In(b) > 0
  {
    if u.Positive() {
      assert u.In(Input) > 0 || u.In(Output) > 0 || u.In(CacheRead) > 0 || u.In(CacheCreation) > 0;
    }
  }

  lemma {:induction false} CallsAddUp(calls: seq<Call>, b: Bucket)
    ensures CallsUsage(calls).In(b) == Spent(calls, b)
  {
    if calls != [] {
      var init, last := calls[..|calls| - 1], calls[|calls| - 1];
      CallsAddUp(init, b);
      assert calls == init + [last];
      MappedSplits(init, [last], (c: Call) => c.usage.In(b));
      MappedOne(last, (c: Call) => c.usage.In(b));
    }
  }

  // ----- the counted calls ----------------------------------------------------------------------

  /** The copies that count, in the order the planner lists them. */
  ghost predicate AreLatest(es: seq<Entry>, ids: seq<string>, calls: seq<Call>) {
    && |calls| == |ids|
    && forall k :: 0 <= k < |ids| ==> OffersOf(es, ids[k]) != [] && calls[k] == Latest(OffersOf(es, ids[k])).call
  }

  lemma {:induction false} SumLatestAddsUp(es: seq<Entry>, ids: seq<string>, calls: seq<Call>, b: Bucket)
    requires AreLatest(es, ids, calls)
    ensures SumLatest(es, ids).In(b) == Spent(calls, b)
  {
    if ids != [] {
      var n := |ids| - 1;
      SumLatestAddsUp(es, ids[..n], calls[..n], b);
      assert LatestUsage(es, ids[n]) == calls[n].usage;
      assert calls == calls[..n] + [calls[n]];
      MappedSplits(calls[..n], [calls[n]], (c: Call) => c.usage.In(b));
      MappedOne(calls[n], (c: Call) => c.usage.In(b));
    }
  }

  lemma NewestStays(init: seq<Entry>, last: Entry, call: Call)
    requires IsNewestCopy(init, call) && (last.call.id != call.id || last.call.atMs < call.atMs)
    ensures IsNewestCopy(init + [last], call)
  {
    var k :| 0 <= k < |init| && init[k].call == call && IsNewestAt(init, call, k);
    assert (init + [last])[k].call == call && IsNewestAt(init + [last], call, k);
  }

  lemma LastIsNewest(init: seq<Entry>, last: Entry)
    requires forall e :: e in init && e.call.id == last.call.id ==> e.call.atMs <= last.call.atMs
    ensures IsNewestCopy(init + [last], last.call)
  {
    var es := init + [last];
    forall j | 0 <= j < |es| && es[j].call.id == last.call.id ensures es[j].call.atMs <= last.call.atMs {
      if j < |init| { assert init[j] in init; }
    }
    assert es[|init|].call == last.call && IsNewestAt(es, last.call, |init|);
  }

  lemma LatestOfGrown(offers: seq<Entry>, last: Entry)
    requires offers != []
    ensures Latest(offers + [last]) == if last.call.atMs >= Latest(offers).call.atMs then last else Latest(offers)
  {
    assert (offers + [last])[..|offers|] == offers;
  }

  /** The newest offer is the newest copy. */
  lemma {:induction false} LatestIsNewestCopy(es: seq<Entry>, m: string)
    requires OffersOf(es, m) != []
    ensures Latest(OffersOf(es, m)).call.id == m && IsNewestCopy(es, Latest(OffersOf(es, m)).call)
  {
    var init, last := es[..|es| - 1], es[|es| - 1];
    assert es == init + [last];
    OfferAppended(init, last, m);
    var before := OffersOf(init, m);
    if before != [] {
      LatestIsNewestCopy(init, m);
      LatestIsNewest(before);
    }
    if last.call.id != m {
      NewestStays(init, last, Latest(before).call);
    } else if before == [] || last.call.atMs >= Latest(before).call.atMs {
      forall e | e in init && e.call.id == m ensures e.call.atMs <= last.call.atMs { assert e in before; }
      LastIsNewest(init, last);
      if before != [] { LatestOfGrown(before, last); }
    } else {
      LatestOfGrown(before, last);
      NewestStays(init, last, Latest(before).call);
    }
  }

  /** There is one newest copy of a message. */
  lemma NewestCopyOnce(es: seq<Entry>, c: Call, c': Call)
    requires IsNewestCopy(es, c) && IsNewestCopy(es, c') && c.id == c'.id
    ensures c == c'
  {
    var k :| 0 <= k < |es| && es[k].call == c && IsNewestAt(es, c, k);
    var k' :| 0 <= k' < |es| && es[k'].call == c' && IsNewestAt(es, c', k');
  }

  lemma OffersAre(root: ParsedRoot, children: seq<ParsedChild>, e: Entry)
    ensures e in Entries(root, children) <==> IsOffered(root, children, e.promptId, e.call)
  {
    EntriesAre(root, children, e);
    if Offers(root, children, e) {
      var c :| c in children && Belongs(root, c) && c.promptIds[0] == e.promptId && e.call in c.calls && e.call.id !in root.rootMessageIds;
      assert c.promptIds == [e.promptId];
    }
  }

  lemma OwnsIs(root: ParsedRoot, children: seq<ParsedChild>, prompt: string, m: string)
    ensures Owns(root, children, prompt, m) <==> OwnsOne(Entries(root, children), m, prompt)
  {
    var es := Entries(root, children);
    if call: Call :| call.id == m && IsOffered(root, children, prompt, call) {
      OffersAre(root, children, Entry(prompt, call));
      assert Entry(prompt, call) in es;
    }
    if e :| e in es && e.call.id == m && e.promptId == prompt {
      OffersAre(root, children, e);
    }
  }

  lemma SharesIs(root: ParsedRoot, children: seq<ParsedChild>, prompt: string)
    ensures SharesNothing(root, children, prompt) <==> !Ambiguous(Entries(root, children), prompt)
  {
    var es := Entries(root, children);
    forall m, p ensures Owns(root, children, p, m) <==> OwnsOne(es, m, p) { OwnsIs(root, children, p, m); }
    if SharesNothing(root, children, prompt) {
      forall e | e in es && e.promptId == prompt ensures SoleOwner(es, e.call.id, prompt) {
        forall e' | e' in es && e'.call.id == e.call.id ensures e'.promptId == prompt {
          assert OwnsOne(es, e.call.id, e'.promptId) && OwnsOne(es, e.call.id, prompt);
        }
      }
    }
    if !Ambiguous(es, prompt) {
      forall m, other | Owns(root, children, prompt, m) && Owns(root, children, other, m) ensures other == prompt {
        var e :| e in es && e.call.id == m && e.promptId == prompt;
        assert SoleOwner(es, e.call.id, prompt);
        var e' :| e' in es && e'.call.id == m && e'.promptId == other;
      }
    }
  }

  lemma CountedAreOwned(root: ParsedRoot, children: seq<ParsedChild>, prompt: string, m: string)
    requires !Ambiguous(Entries(root, children), prompt)
    ensures m in CountedIds(Entries(root, children), prompt) <==> Owns(root, children, prompt, m)
  {
    var es := Entries(root, children);
    OwnsIs(root, children, prompt, m);
    if e :| e in es && e.call.id == m && e.promptId == prompt { assert SoleOwner(es, e.call.id, prompt); }
  }

  /** The calls the planner adds up are the counted ones. */
  lemma CountedCalls(root: ParsedRoot, children: seq<ParsedChild>, prompt: string) returns (calls: seq<Call>)
    requires !Ambiguous(Entries(root, children), prompt)
    ensures AreLatest(Entries(root, children), CountedIds(Entries(root, children), prompt), calls)
    ensures AreCounted(root, children, prompt, calls)
    ensures forall k :: 0 <= k < |calls| ==> CountedIds(Entries(root, children), prompt)[k] == calls[k].id
  {
    var es := Entries(root, children);
    var ids := CountedIds(es, prompt);
    forall k | 0 <= k < |ids| ensures OffersOf(es, ids[k]) != [] {
      assert ids[k] in ids;
      OfferedMessage(es, ids[k]);
    }
    calls := seq(|ids|, k requires 0 <= k < |ids| => Latest(OffersOf(es, ids[k])).call);
    forall k | 0 <= k < |ids| ensures calls[k].id == ids[k] && IsNewestCopy(es, calls[k]) && Owns(root, children, prompt, calls[k].id) {
      LatestIsNewestCopy(es, ids[k]);
      assert ids[k] in ids;
      CountedAreOwned(root, children, prompt, ids[k]);
    }
    forall a, b | 0 <= a < b < |calls| ensures calls[a].id != calls[b].id { CountedIdsAreDistinct(es, prompt, a, b); }
    forall m | Owns(root, children, prompt, m) ensures exists c :: c in calls && c.id == m {
      CountedAreOwned(root, children, prompt, m);
      var k :| 0 <= k < |ids| && ids[k] == m;
      assert calls[k] in calls;
    }
  }

  lemma CountedOnce(root: ParsedRoot, children: seq<ParsedChild>, prompt: string, calls: seq<Call>, calls': seq<Call>, c: Call)
    requires AreCounted(root, children, prompt, calls) && AreCounted(root, children, prompt, calls') && c in calls
    ensures c in calls'
  {
    assert Owns(root, children, prompt, c.id);
    var c' :| c' in calls' && c'.id == c.id;
    NewestCopyOnce(Entries(root, children), c, c');
  }

  /** Whichever way the counted calls are listed, they add up to the same. */
  lemma ListingDoesNotMatter(root: ParsedRoot, children: seq<ParsedChild>, prompt: string, calls: seq<Call>, calls': seq<Call>, b: Bucket)
    requires AreCounted(root, children, prompt, calls) && AreCounted(root, children, prompt, calls')
    ensures Spent(calls, b) == Spent(calls', b)
  {
    forall c ensures c in calls <==> c in calls' {
      if c in calls { CountedOnce(root, children, prompt, calls, calls', c); }
      if c in calls' { CountedOnce(root, children, prompt, calls', calls, c); }
    }
    SameItemsSameSum(calls, calls', (c: Call) => c.usage.In(b));
  }

  // ----- the one session and the one prompt -----------------------------------------------------

  lemma {:induction false} NoClaims(sessions: seq<ClaudeSession>, id: string)
    requires forall b :: 0 <= b < |sessions| ==> sessions[b].providerSessionId != Some(id)
    ensures ProviderCount(sessions, id) == 0
  {
    if sessions != [] { NoClaims(sessions[..|sessions| - 1], id); }
  }

  lemma {:induction false} OnlyClaimCounts(sessions: seq<ClaudeSession>, id: string, a: nat)
    requires a < |sessions| && OnlyClaim(sessions, id, a)
    ensures ProviderCount(sessions, id) == 1
  {
    var init := sessions[..|sessions| - 1];
    assert forall b :: 0 <= b < |init| ==> init[b] == sessions[b];
    if a < |init| { OnlyClaimCounts(init, id, a); } else { NoClaims(init, id); }
  }

  lemma {:induction false} CountedClaim(sessions: seq<ClaudeSession>, id: string) returns (a: nat)
    requires ProviderCount(sessions, id) == 1
    ensures a < |sessions| && OnlyClaim(sessions, id, a)
  {
    var n := |sessions| - 1;
    if sessions[n].providerSessionId == Some(id) {
      a := n;
      forall b | 0 <= b < n ensures sessions[b].providerSessionId != Some(id) {
        if sessions[b].providerSessionId == Some(id) { ClaimantCounts(sessions[..n], id, b); }
      }
    } else {
      a := CountedClaim(sessions[..n], id);
      forall b | 0 <= b < n ensures sessions[b].providerSessionId == Some(id) <==> b == a { assert sessions[..n][b] == sessions[b]; }
    }
  }

  lemma ClaimedOnceIs(sessions: seq<ClaudeSession>, id: string)
    ensures ClaimedOnce(sessions, id) <==> ProviderCount(sessions, id) == 1
  {
    if a :| 0 <= a < |sessions| && OnlyClaim(sessions, id, a) { OnlyClaimCounts(sessions, id, a); }
    if ProviderCount(sessions, id) == 1 { var a := CountedClaim(sessions, id); }
  }

  ghost predicate OnlyIn(lower: real, upper: real, prompts: seq<Prompt>, a: int) {
    forall b :: 0 <= b < |prompts| ==> (InWindow(lower, upper, prompts[b]) <==> b == a)
  }

  lemma {:induction false} NoCandidate(lower: real, upper: real, prompts: seq<Prompt>)
    requires forall b :: 0 <= b < |prompts| ==> !InWindow(lower, upper, prompts[b])
    ensures CandidatesIn(lower, upper, prompts) == []
  {
    if prompts != [] { NoCandidate(lower, upper, prompts[..|prompts| - 1]); }
  }

  lemma {:induction false} OnlyCandidate(lower: real, upper: real, prompts: seq<Prompt>, a: nat)
    requires a < |prompts| && OnlyIn(lower, upper, prompts, a)
    ensures CandidatesIn(lower, upper, prompts) == [prompts[a]]
  {
    var init := prompts[..|prompts| - 1];
    assert forall b :: 0 <= b < |init| ==> init[b] == prompts[b];
    if a < |init| { OnlyCandidate(lower, upper, init, a); } else { NoCandidate(lower, upper, init); }
  }

  lemma {:induction false} CandidateIsOnly(lower: real, upper: real, prompts: seq<Prompt>) returns (a: nat)
    requires |CandidatesIn(lower, upper, prompts)| == 1
    ensures a < |prompts| && OnlyIn(lower, upper, prompts, a)
  {
    var n := |prompts| - 1;
    var init := prompts[..n];
    if InWindow(lower, upper, prompts[n]) {
      a := n;
      assert CandidatesIn(lower, upper, init) == [];
      forall b | 0 <= b < n ensures !InWindow(lower, upper, prompts[b]) { assert init[b] == prompts[b] && init[b] in init; }
    } else {
      a := CandidateIsOnly(lower, upper, init);
      forall b | 0 <= b < n ensures InWindow(lower, upper, prompts[b]) <==> b == a { assert init[b] == prompts[b]; }
    }
  }

  lemma SolePromptIs(s: ClaudeSession, i: nat, prompts: seq<Prompt>, p: Prompt)
    requires i < |s.queries|
    ensures IsSolePrompt(s, i, prompts, p) <==> CandidatesIn(LowerBoundMs(s, i), UpperBoundMs(s.queries[i]), prompts) == [p]
  {
    var lower, upper := LowerBoundMs(s, i), UpperBoundMs(s.queries[i]);
    if a :| 0 <= a < |prompts| && prompts[a] == p && OnlyStart(s, i, prompts, a) {
      assert OnlyIn(lower, upper, prompts, a);
      OnlyCandidate(lower, upper, prompts, a);
    }
    if CandidatesIn(lower, upper, prompts) == [p] {
      var a := CandidateIsOnly(lower, upper, prompts);
      OnlyCandidate(lower, upper, prompts, a);
      assert OnlyStart(s, i, prompts, a);
    }
  }

  // ----- the verdict ------------------------------------------------------------------------------

  lemma ChildUsageAddsUp(root: ParsedRoot, children: seq<ParsedChild>, prompt: string, calls: seq<Call>, b: Bucket)
    requires !Ambiguous(Entries(root, children), prompt) && AreCounted(root, children, prompt, calls)
    ensures ChildUsage(Entries(root, children), prompt).In(b) == Spent(calls, b)
  {
    var listed := CountedCalls(root, children, prompt);
    SumLatestAddsUp(Entries(root, children), CountedIds(Entries(root, children), prompt), listed, b);
    ListingDoesNotMatter(root, children, prompt, calls, listed, b);
  }

  /** When the planner plans the prompt's row. */
  lemma PromptIsPlannedExactly(s: ClaudeSession, i: nat, root: ParsedRoot, children: seq<ParsedChild>, p: Prompt, calls: seq<Call>)
    requires i < |s.queries| == |s.ledger| && s.providerSessionId.Some?
    requires SharesNothing(root, children, p.id) ==> AreCounted(root, children, p.id, calls)
    ensures JudgePrompt(s, i, Entries(root, children), p).Planned? <==>
              && SharesNothing(root, children, p.id) && (forall b: Bucket :: s.queries[i].usage.In(b) == Spent(p.rootCalls, b))
              && (exists b: Bucket :: Spent(calls, b) > 0)
  {
    var es := Entries(root, children);
    SharesIs(root, children, p.id);
    if SharesNothing(root, children, p.id) {
      forall b: Bucket ensures ChildUsage(es, p.id).In(b) == Spent(calls, b) && CallsUsage(p.rootCalls).In(b) == Spent(p.rootCalls, b) {
        ChildUsageAddsUp(root, children, p.id, calls, b);
        CallsAddUp(p.rootCalls, b);
      }
      PositiveExactly(ChildUsage(es, p.id));
      SameUsage(s.queries[i].usage, CallsUsage(p.rootCalls));
      if ChildUsage(es, p.id).Positive() { PlusPositive(CallsUsage(p.rootCalls), ChildUsage(es, p.id)); }
    }
  }

  lemma PlusPositive(u: Usage, v: Usage)
    requires v.Positive()
    ensures u.Plus(v) != u
  {
  }

  lemma RepairableIsJudged(t: Transcripts, sessions: seq<ClaudeSession>, s: ClaudeSession, i: nat, root: ParsedRoot, p: Prompt, calls: seq<Call>)
    requires i < |s.queries| && Repairable(t, sessions, s, i, root, p, calls)
    ensures Judge(t, sessions, s, i).Planned?
  {
    ClaimedOnceIs(sessions, s.providerSessionId.value);
    assert RootsOf(t, s.providerSessionId.value) == [root];
    JudgeIsInSession(t, sessions, s, root, i);
    SolePromptIs(s, i, root.prompts, p);
    PromptIsPlannedExactly(s, i, root, t.children, p, calls);
  }

  lemma PlannedHasOneCandidate(s: ClaudeSession, i: nat, root: ParsedRoot, children: seq<ParsedChild>)
    requires i < |s.queries| == |s.ledger| && s.providerSessionId.Some? && JudgeInSession(s, i, root, children).Planned?
    ensures |CandidatesIn(LowerBoundMs(s, i), UpperBoundMs(s.queries[i]), root.prompts)| == 1
  {
  }

  lemma OnlyPromptIsPlanned(s: ClaudeSession, i: nat, root: ParsedRoot, p: Prompt)
    requires i < |s.queries| && |CandidatesIn(LowerBoundMs(s, i), UpperBoundMs(s.queries[i]), root.prompts)| == 1
    requires InWindow(LowerBoundMs(s, i), UpperBoundMs(s.queries[i]), p) && p in root.prompts
    ensures IsSolePrompt(s, i, root.prompts, p)
  {
    assert p in CandidatesIn(LowerBoundMs(s, i), UpperBoundMs(s.queries[i]), root.prompts);
    assert CandidatesIn(LowerBoundMs(s, i), UpperBoundMs(s.queries[i]), root.prompts) == [p];
    SolePromptIs(s, i, root.prompts, p);
  }

  lemma PlannedIsRowFor(s: ClaudeSession, i: nat, es: seq<Entry>, p: Prompt, row: ClaudeRow)
    requires i < |s.queries| == |s.ledger| && s.providerSessionId.Some? && JudgePrompt(s, i, es, p) == Planned(row)
    ensures row.corrected == CallsUsage(p.rootCalls).Plus(ChildUsage(es, p.id)) && row.rootMessageIds == CallIds(p.rootCalls)
  {
  }

  lemma CorrectedAddsUp(root: ParsedRoot, children: seq<ParsedChild>, p: Prompt, calls: seq<Call>, corrected: Usage, b: Bucket)
    requires !Ambiguous(Entries(root, children), p.id) && AreCounted(root, children, p.id, calls)
    requires corrected == CallsUsage(p.rootCalls).Plus(ChildUsage(Entries(root, children), p.id))
    ensures corrected.In(b) == Spent(p.rootCalls, b) + Spent(calls, b)
  {
    CallsAddUp(p.rootCalls, b);
    ChildUsageAddsUp(root, children, p.id, calls, b);
  }

  /** What the row of a planned prompt says. */
  lemma PromptRowIsCorrection(s: ClaudeSession, i: nat, root: ParsedRoot, children: seq<ParsedChild>, p: Prompt, row: ClaudeRow)
    returns (calls: seq<Call>)
    requires i < |s.queries| == |s.ledger| && s.providerSessionId.Some? && JudgePrompt(s, i, Entries(root, children), p) == Planned(row)
    ensures SharesNothing(root, children, p.id) && AreCounted(root, children, p.id, calls)
    ensures (forall b: Bucket :: s.queries[i].usage.In(b) == Spent(p.rootCalls, b)) && exists b: Bucket :: Spent(calls, b) > 0
    ensures IsCorrection(s, i, p, calls, row)
  {
    PlannedRowIs(s, i, Entries(root, children), p, row);
    PlannedIsRowFor(s, i, Entries(root, children), p, row);
    SharesIs(root, children, p.id);
    calls := CountedCalls(root, children, p.id);
    PromptIsPlannedExactly(s, i, root, children, p, calls);
    forall b: Bucket ensures row.corrected.In(b) == Spent(p.rootCalls, b) + Spent(calls, b) {
      CorrectedAddsUp(root, children, p, calls, row.corrected, b);
    }
  }

  lemma RowIsCorrection(t: Transcripts, sessions: seq<ClaudeSession>, s: ClaudeSession, i: nat, row: ClaudeRow)
    returns (root: ParsedRoot, p: Prompt, calls: seq<Call>)
    requires RowFrom(t, sessions, s, i, row)
    ensures Repairable(t, sessions, s, i, root, p, calls) && IsCorrection(s, i, p, calls, row)
  {
    PlannedHasNoReason(t, sessions, s, i);
    root := SoundSession(t, sessions, s);
    ClaimedOnceIs(sessions, s.providerSessionId.value);
    JudgeIsInSession(t, sessions, s, root, i);
    p := PlannedPrompt(s, i, root, t.children, row);
    PlannedHasOneCandidate(s, i, root, t.children);
    OnlyPromptIsPlanned(s, i, root, p);
    calls := PromptRowIsCorrection(s, i, root, t.children, p, row);
  }

  /** A query is repaired exactly if no other session claims its native session, one prompt of its one root transcript
      started in its window, what is stored is the usage of that prompt's own calls, and the child messages it alone
      owns add something. */
  lemma QueryIsRepairedExactly(t: Transcripts, sessions: seq<ClaudeSession>, s: ClaudeSession, i: nat)
    requires s in sessions && i < |s.queries|
    ensures (exists row :: row in PlanRows(t, sessions) && RowFrom(t, sessions, s, i, row))
       <==> exists root, p, calls :: Repairable(t, sessions, s, i, root, p, calls)
  {
    if row :| row in PlanRows(t, sessions) && RowFrom(t, sessions, s, i, row) {
      var root, p, calls := RowIsCorrection(t, sessions, s, i, row);
    }
    if root, p, calls :| Repairable(t, sessions, s, i, root, p, calls) {
      RepairableIsJudged(t, sessions, s, i, root, p, calls);
      JudgedIsRow(t, sessions, s, i);
      assert RowFrom(t, sessions, s, i, Judge(t, sessions, s, i).row);
    }
  }

  lemma {:induction false} JudgedIsListed(t: Transcripts, sessions: seq<ClaudeSession>, n: nat, a: nat, i: nat) returns (k: nat)
    requires a < n <= |sessions| && i < |sessions[a].queries|
    ensures k < |AllJudged(t, sessions, n)|
    ensures AllJudged(t, sessions, n)[k] == Judged(sessions[a].queries[i].id, Judge(t, sessions, sessions[a], i))
  {
    if a == n - 1 {
      k := |AllJudged(t, sessions, n - 1)| + i;
      JudgedAt(t, sessions, sessions[a], i);
    } else {
      k := JudgedIsListed(t, sessions, n - 1, a, i);
    }
  }

  lemma JudgedIsRow(t: Transcripts, sessions: seq<ClaudeSession>, s: ClaudeSession, i: nat)
    requires s in sessions && i < |s.queries| && Judge(t, sessions, s, i).Planned?
    ensures Judge(t, sessions, s, i).row in PlanRows(t, sessions)
  {
    var a :| 0 <= a < |sessions| && sessions[a] == s;
    var k := JudgedIsListed(t, sessions, |sessions|, a, i);
    RowsAre(AllJudged(t, sessions, |sessions|), Judge(t, sessions, s, i).row);
  }

  /** Every row of the manifest corrects its query to the usage of its prompt's own calls and of the child messages
      that only this prompt owns, each once with its newest usage. */
  lemma PlannedRowIsCorrected(t: Transcripts, sessions: seq<ClaudeSession>, row: ClaudeRow)
    returns (s: ClaudeSession, i: nat, root: ParsedRoot, p: Prompt, calls: seq<Call>)
    requires row in PlanRows(t, sessions)
    ensures s in sessions && i < |s.queries| && Repairable(t, sessions, s, i, root, p, calls)
    ensures IsCorrection(s, i, p, calls, row)
  {
    s, i := RowOrigin(t, sessions, row);
    root, p, calls := RowIsCorrection(t, sessions, s, i, row);
  }
}
