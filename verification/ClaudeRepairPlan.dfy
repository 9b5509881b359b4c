/**
 Planning the repair of Claude usage: a stored query is matched with the one prompt that
 started in its time window, and the usage of that prompt's child messages is added.
 */
module ClaudeRepairPlan {
  import opened Wrappers
  import opened Rollouts
  import opened RepairVerdicts
  import opened UsageRows
  import opened ClaudeChildEvidence

  datatype ClaudeSession = ClaudeSession(id: string, providerSessionId: Option<string>, startedAt: real,
                                         queries: seq<StoredQuery>, ledger: seq<StoredUsageQuery>)

  /** Parsed root transcripts by native session, copies with equal content dropped. */
  datatype Transcripts = Transcripts(roots: map<string, seq<ParsedRoot>>, children: seq<ParsedChild>)

  datatype ClaudeRow = ClaudeRow(sessionId: string, providerSessionId: string, query: StoredQuery, usageQuery: StoredUsageQuery,
                                 corrected: Usage, promptId: string, rootMessageIds: seq<string>, childMessageIds: seq<string>)

  datatype Reason =
    | MissingProviderSession | DuplicateProviderSession | MissingTranscript | AmbiguousRootTranscript
    | LedgerRowCountMismatch | LedgerRowMismatch | NoPromptCandidate | AmbiguousPromptCandidate
    | RootFingerprintMismatch | AmbiguousChildMessage

  type RowVerdict = Verdict<ClaudeRow, Reason>

  type Report = Unresolved<Reason>

  predicate RowsMirror(q: StoredQuery, u: StoredUsageQuery) {
    && u.session == Some(q.session) && u.timestamp == q.timestamp && u.cost == q.cost
    && u.estimatedCost == q.estimatedCost && u.costKnown == q.costKnown && u.turns == q.turns
    && u.provider == "claude" && u.usage == q.usage
  }

  predicate Mirrored(s: ClaudeSession)
    requires |s.queries| == |s.ledger|
  {
    forall i :: 0 <= i < |s.queries| ==> RowsMirror(s.queries[i], s.ledger[i])
  }

  function LowerBoundMs(s: ClaudeSession, i: nat): real
    requires i <= |s.queries|
  {
    if i == 0 then s.startedAt * 1000.0 - 2000.0 else s.queries[i - 1].timestamp * 1000.0 + 2000.0
  }

  function UpperBoundMs(q: StoredQuery): real {
    q.timestamp * 1000.0 + 1999.0
  }

  predicate InWindow(lower: real, upper: real, p: Prompt) {
    lower <= p.startedAtMs as real <= upper
  }

  function CandidatesIn(lower: real, upper: real, prompts: seq<Prompt>): (r: seq<Prompt>)
    ensures forall p :: p in r <==> p in prompts && InWindow(lower, upper, p)
  {
    if prompts == [] then []
    else
      var last := prompts[|prompts| - 1];
      assert prompts == prompts[..|prompts| - 1] + [last];
      CandidatesIn(lower, upper, prompts[..|prompts| - 1]) + if InWindow(lower, upper, last) then [last] else []
  }

  function CallsUsage(calls: seq<Call>): Usage {
    if calls == [] then NO_USAGE else CallsUsage(calls[..|calls| - 1]).Plus(calls[|calls| - 1].usage)
  }

  function CallIds(calls: seq<Call>): seq<string> {
    seq(|calls|, i requires 0 <= i < |calls| => calls[i].id)
  }

  function RowFor(s: ClaudeSession, i: nat, es: seq<Entry>, p: Prompt): ClaudeRow
    requires i < |s.queries| == |s.ledger| && s.providerSessionId.Some?
  {
    ClaudeRow(s.id, s.providerSessionId.value, s.queries[i], s.ledger[i],
              CallsUsage(p.rootCalls).Plus(ChildUsage(es, p.id)), p.id, CallIds(p.rootCalls), CountedIds(es, p.id))
  }

  /** What becomes of a query whose only candidate is this prompt. */
  function JudgePrompt(s: ClaudeSession, i: nat, es: seq<Entry>, p: Prompt): RowVerdict
    requires i < |s.queries| == |s.ledger| && s.providerSessionId.Some?
  {
    var rootUsage, childUsage := CallsUsage(p.rootCalls), ChildUsage(es, p.id);
    if Ambiguous(es, p.id) then Rejected(AmbiguousChildMessage)
    else if childUsage.Positive() && s.queries[i].usage == rootUsage.Plus(childUsage) then Clean
    else if s.queries[i].usage != rootUsage then Rejected(RootFingerprintMismatch)
    else if !childUsage.Positive() then Clean
    else Planned(RowFor(s, i, es, p))
  }

  function JudgeInSession(s: ClaudeSession, i: nat, root: ParsedRoot, children: seq<ParsedChild>): RowVerdict
    requires i < |s.queries| == |s.ledger| && s.providerSessionId.Some?
  {
    var candidates := CandidatesIn(LowerBoundMs(s, i), UpperBoundMs(s.queries[i]), root.prompts);
    if |candidates| == 0 then Rejected(NoPromptCandidate)
    else if |candidates| > 1 then Rejected(AmbiguousPromptCandidate)
    else JudgePrompt(s, i, Entries(root, children), candidates[0])
  }

  /** How many of the sessions claim the native session. */
  function ProviderCount(sessions: seq<ClaudeSession>, id: string): nat {
    if sessions == [] then 0
    else ProviderCount(sessions[..|sessions| - 1], id) + if sessions[|sessions| - 1].providerSessionId == Some(id) then 1 else 0
  }

  function RootsOf(t: Transcripts, id: string): seq<ParsedRoot> {
    if id in t.roots then t.roots[id] else []
  }

  function SessionReason(t: Transcripts, sessions: seq<ClaudeSession>, s: ClaudeSession): Option<Reason> {
    if s.providerSessionId.None? || s.providerSessionId.value == "" then Some(MissingProviderSession)
    else if ProviderCount(sessions, s.providerSessionId.value) != 1 then Some(DuplicateProviderSession)
    else if |RootsOf(t, s.providerSessionId.value)| == 0 then Some(MissingTranscript)
    else if |RootsOf(t, s.providerSessionId.value)| > 1 then Some(AmbiguousRootTranscript)
    else if |s.queries| != |s.ledger| then Some(LedgerRowCountMismatch)
    else if !Mirrored(s) then Some(LedgerRowMismatch)
    else None
  }

  function Judge(t: Transcripts, sessions: seq<ClaudeSession>, s: ClaudeSession, i: nat): RowVerdict
    requires i < |s.queries|
  {
    match SessionReason(t, sessions, s)
    case Some(reason) => Rejected(reason)
    case None => JudgeInSession(s, i, RootsOf(t, s.providerSessionId.value)[0], t.children)
  }

  // ----- the whole plan --------------------------------------------------------------------

  /** The verdicts on the queries of a session, in their order. */
  function JudgedSession(t: Transcripts, sessions: seq<ClaudeSession>, s: ClaudeSession): (js: seq<Judged<ClaudeRow, Reason>>)
    ensures |js| == |s.queries|
  {
    seq(|s.queries|, i requires 0 <= i < |s.queries| => Judged(s.queries[i].id, Judge(t, sessions, s, i)))
  }

  function AllJudged(t: Transcripts, sessions: seq<ClaudeSession>, n: nat): seq<Judged<ClaudeRow, Reason>>
    requires n <= |sessions|
  {
    if n == 0 then [] else AllJudged(t, sessions, n - 1) + JudgedSession(t, sessions, sessions[n - 1])
  }

  function PlanRows(t: Transcripts, sessions: seq<ClaudeSession>): seq<ClaudeRow> {
    RowsIn(AllJudged(t, sessions, |sessions|))
  }

  function PlanReports(t: Transcripts, sessions: seq<ClaudeSession>): seq<Report> {
    ReportsIn(AllJudged(t, sessions, |sessions|))
  }

  // ----- the planner as it runs ---------------------------------------------------------------

  method ProviderCounts(sessions: seq<ClaudeSession>) returns (counts: map<string, nat>)
    ensures forall id :: (if id in counts then counts[id] else 0) == ProviderCount(sessions, id)
  {
    counts := map[];
    for n := 0 to |sessions|
      invariant forall id :: (if id in counts then counts[id] else 0) == ProviderCount(sessions[..n], id)
    {
      assert sessions[..n + 1][..n] == sessions[..n];
      if sessions[n].providerSessionId.Some? {
        var id := sessions[n].providerSessionId.value;
        counts := counts[id := (if id in counts then counts[id] else 0) + 1];
      }
    }
    assert sessions[..|sessions|] == sessions;
  }

  lemma JudgedAt(t: Transcripts, sessions: seq<ClaudeSession>, s: ClaudeSession, i: nat)
    requires i < |s.queries|
    ensures JudgedSession(t, sessions, s)[i] == Judged(s.queries[i].id, Judge(t, sessions, s, i))
  {
  }

  method RejectAll(t: Transcripts, sessions: seq<ClaudeSession>, s: ClaudeSession, reason: Reason) returns (unresolved: seq<Report>)
    requires SessionReason(t, sessions, s) == Some(reason)
    ensures RowsIn(JudgedSession(t, sessions, s)) == [] && unresolved == ReportsIn(JudgedSession(t, sessions, s))
  {
    ghost var js := JudgedSession(t, sessions, s);
    unresolved := [];
    for i := 0 to |s.queries|
      invariant RowsIn(js[..i]) == [] && unresolved == ReportsIn(js[..i])
    {
      Next(js, i);
      JudgedAt(t, sessions, s, i);
      unresolved := unresolved + [Unresolved(s.queries[i].id, reason)];
    }
    assert js[..|s.queries|] == js;
  }

  /** The checks on one candidate prompt, against the collected child evidence. */
  method CheckPrompt(s: ClaudeSession, i: nat, ghost es: seq<Entry>, ev: Assignment, p: Prompt) returns (v: RowVerdict)
    requires i < |s.queries| == |s.ledger| && s.providerSessionId.Some?
    requires GetIds(ev.idsByPrompt, p.id) == CountedIds(es, p.id) && GetUsage(ev.usageByPrompt, p.id) == ChildUsage(es, p.id)
    requires p.id in ev.ambiguous <==> Ambiguous(es, p.id)
    ensures v == JudgePrompt(s, i, es, p)
  {
    var rootUsage := NO_USAGE;
    for c := 0 to |p.rootCalls|
      invariant rootUsage == CallsUsage(p.rootCalls[..c])
    {
      assert p.rootCalls[..c + 1][..c] == p.rootCalls[..c];
      rootUsage := rootUsage.Plus(p.rootCalls[c].usage);
    }
    assert p.rootCalls[..|p.rootCalls|] == p.rootCalls;
    if p.id in ev.ambiguous { return Rejected(AmbiguousChildMessage); }
    var childUsage := GetUsage(ev.usageByPrompt, p.id);
    var corrected := rootUsage.Plus(childUsage);
    if childUsage.Positive() && s.queries[i].usage == corrected { return Clean; }
    if s.queries[i].usage != rootUsage { return Rejected(RootFingerprintMismatch); }
    if !childUsage.Positive() { return Clean; }
    return Planned(ClaudeRow(s.id, s.providerSessionId.value, s.queries[i], s.ledger[i], corrected, p.id,
                             CallIds(p.rootCalls), GetIds(ev.idsByPrompt, p.id)));
  }

  method PlanSession(t: Transcripts, sessions: seq<ClaudeSession>, counts: map<string, nat>, s: ClaudeSession)
    returns (rows: seq<ClaudeRow>, unresolved: seq<Report>)
    requires forall id :: (if id in counts then counts[id] else 0) == ProviderCount(sessions, id)
    ensures rows == RowsIn(JudgedSession(t, sessions, s))
    ensures unresolved == ReportsIn(JudgedSession(t, sessions, s))
  {
    rows, unresolved := [], [];
    if s.providerSessionId.None? || s.providerSessionId.value == "" {
      unresolved := RejectAll(t, sessions, s, MissingProviderSession);
      return;
    }
    var id := s.providerSessionId.value;
    if (if id in counts then counts[id] else 0) != 1 {
      unresolved := RejectAll(t, sessions, s, DuplicateProviderSession);
      return;
    }
    var found := RootsOf(t, id);
    if |found| != 1 {
      unresolved := RejectAll(t, sessions, s, if |found| == 0 then MissingTranscript else AmbiguousRootTranscript);
      return;
    }
    if |s.queries| != |s.ledger| {
      unresolved := RejectAll(t, sessions, s, LedgerRowCountMismatch);
      return;
    }
    if !Mirrored(s) {
      unresolved := RejectAll(t, sessions, s, LedgerRowMismatch);
      return;
    }
    rows, unresolved := PlanQueries(t, sessions, s, found[0]);
  }

  method JudgeQuery(s: ClaudeSession, i: nat, root: ParsedRoot, ghost children: seq<ParsedChild>, ev: Assignment, lower: real)
    returns (v: RowVerdict)
    requires i < |s.queries| == |s.ledger| && s.providerSessionId.Some? && lower == LowerBoundMs(s, i)
    requires forall p :: GetIds(ev.idsByPrompt, p) == CountedIds(Entries(root, children), p)
    requires forall p :: GetUsage(ev.usageByPrompt, p) == ChildUsage(Entries(root, children), p)
    requires forall p :: p in ev.ambiguous <==> Ambiguous(Entries(root, children), p)
    ensures v == JudgeInSession(s, i, root, children)
  {
    var candidates := CandidatesIn(lower, s.queries[i].timestamp * 1000.0 + 1999.0, root.prompts);
    if |candidates| != 1 { return Rejected(if |candidates| == 0 then NoPromptCandidate else AmbiguousPromptCandidate); }
    v := CheckPrompt(s, i, Entries(root, children), ev, candidates[0]);
  }

  method PlanQueries(t: Transcripts, ghost sessions: seq<ClaudeSession>, s: ClaudeSession, root: ParsedRoot)
    returns (rows: seq<ClaudeRow>, unresolved: seq<Report>)
    requires |s.queries| == |s.ledger| && s.providerSessionId.Some?
    requires forall i :: 0 <= i < |s.queries| ==> Judge(t, sessions, s, i) == JudgeInSession(s, i, root, t.children)
    ensures rows == RowsIn(JudgedSession(t, sessions, s))
    ensures unresolved == ReportsIn(JudgedSession(t, sessions, s))
  {
    rows, unresolved := [], [];
    ghost var js := JudgedSession(t, sessions, s);
    var ev := ChildEvidence(root, t.children);
    var lower := s.startedAt * 1000.0 - 2000.0;
    for i := 0 to |s.queries|
      invariant rows == RowsIn(js[..i]) && unresolved == ReportsIn(js[..i])
      invariant lower == LowerBoundMs(s, i)
    {
      Next(js, i);
      JudgedAt(t, sessions, s, i);
      var v := JudgeQuery(s, i, root, t.children, ev, lower);
      lower := s.queries[i].timestamp * 1000.0 + 2000.0;
      rows, unresolved := rows + PlannedBy(v), unresolved + ReportedBy(Judged(s.queries[i].id, v));
    }
    assert js[..|s.queries|] == js;
  }

  method PlanClaudeUsageRepair(t: Transcripts, sessions: seq<ClaudeSession>) returns (rows: seq<ClaudeRow>, unresolved: seq<Report>)
    ensures rows == PlanRows(t, sessions)
    ensures unresolved == PlanReports(t, sessions)
  {
    var counts := ProviderCounts(sessions);
    rows, unresolved := [], [];
    for n := 0 to |sessions|
      invariant rows == RowsIn(AllJudged(t, sessions, n)) && unresolved == ReportsIn(AllJudged(t, sessions, n))
    {
      RowsAppended(AllJudged(t, sessions, n), JudgedSession(t, sessions, sessions[n]));
      ReportsAppended(AllJudged(t, sessions, n), JudgedSession(t, sessions, sessions[n]));
      var more, rejected := PlanSession(t, sessions, counts, sessions[n]);
      rows, unresolved := rows + more, unresolved + rejected;
    }
  }

  // ----- evidence is used once ---------------------------------------------------------------------

  /** Sessions as the database holds them, and transcripts as the parser builds them. */
  ghost predicate WellStored(sessions: seq<ClaudeSession>) {
    && (forall a, b :: 0 <= a < b < |sessions| ==> sessions[a] != sessions[b])
    && (forall s :: s in sessions ==> InTimeOrder(s.queries))
    && (forall s, i :: s in sessions && 0 <= i < |s.queries| ==> s.queries[i].session == s.id)
  }

  ghost predicate DistinctPrompts(t: Transcripts) {
    forall id, r, i, j :: id in t.roots && r in t.roots[id] && 0 <= i < j < |r.prompts| ==> r.prompts[i].id != r.prompts[j].id
  }

  /** No prompt starts in the windows of two queries of one session. */
  lemma WindowsAreDisjoint(s: ClaudeSession, i: nat, j: nat, p: Prompt)
    requires InTimeOrder(s.queries) && i < j < |s.queries|
    ensures !(InWindow(LowerBoundMs(s, i), UpperBoundMs(s.queries[i]), p) && InWindow(LowerBoundMs(s, j), UpperBoundMs(s.queries[j]), p))
  {
    assert i < j - 1 ==> s.queries[i].timestamp <= s.queries[j - 1].timestamp;
  }

  ghost predicate RowFrom(t: Transcripts, sessions: seq<ClaudeSession>, s: ClaudeSession, i: nat, row: ClaudeRow) {
    i < |s.queries| && Judge(t, sessions, s, i) == Planned(row)
  }

  lemma {:induction false} JudgedHasOrigin(t: Transcripts, sessions: seq<ClaudeSession>, n: nat, k: nat)
    returns (s: ClaudeSession, i: nat)
    requires n <= |sessions| && k < |AllJudged(t, sessions, n)|
    ensures s in sessions && i < |s.queries|
    ensures AllJudged(t, sessions, n)[k] == Judged(s.queries[i].id, Judge(t, sessions, s, i))
  {
    var before := AllJudged(t, sessions, n - 1);
    if k < |before| {
      s, i := JudgedHasOrigin(t, sessions, n - 1, k);
    } else {
      s, i := sessions[n - 1], k - |before|;
      JudgedAt(t, sessions, s, i);
    }
  }

  lemma RowOrigin(t: Transcripts, sessions: seq<ClaudeSession>, row: ClaudeRow) returns (s: ClaudeSession, i: nat)
    requires row in PlanRows(t, sessions)
    ensures s in sessions && RowFrom(t, sessions, s, i, row)
  {
    var js := AllJudged(t, sessions, |sessions|);
    RowsAre(js, row);
    var k :| 0 <= k < |js| && js[k].verdict == Planned(row);
    s, i := JudgedHasOrigin(t, sessions, |sessions|, k);
  }

  lemma PlannedHasNoReason(t: Transcripts, sessions: seq<ClaudeSession>, s: ClaudeSession, i: nat)
    requires i < |s.queries| && Judge(t, sessions, s, i).Planned?
    ensures SessionReason(t, sessions, s) == None
  {
  }

  lemma SoundSession(t: Transcripts, sessions: seq<ClaudeSession>, s: ClaudeSession) returns (root: ParsedRoot)
    requires SessionReason(t, sessions, s) == None
    ensures s.providerSessionId.Some? && ProviderCount(sessions, s.providerSessionId.value) == 1
    ensures s.providerSessionId.value in t.roots && t.roots[s.providerSessionId.value] == [root]
    ensures RootsOf(t, s.providerSessionId.value) == [root]
    ensures |s.queries| == |s.ledger| && Mirrored(s)
  {
    var roots := RootsOf(t, s.providerSessionId.value);
    root := roots[0];
    assert roots == [root];
  }

  lemma JudgeIsInSession(t: Transcripts, sessions: seq<ClaudeSession>, s: ClaudeSession, root: ParsedRoot, j: nat)
    requires SessionReason(t, sessions, s) == None && RootsOf(t, s.providerSessionId.value) == [root] && j < |s.queries|
    ensures Judge(t, sessions, s, j) == JudgeInSession(s, j, root, t.children)
  {
  }

  lemma PlannedPrompt(s: ClaudeSession, i: nat, root: ParsedRoot, children: seq<ParsedChild>, row: ClaudeRow) returns (p: Prompt)
    requires i < |s.queries| == |s.ledger| && s.providerSessionId.Some?
    requires JudgeInSession(s, i, root, children) == Planned(row)
    ensures p in root.prompts && InWindow(LowerBoundMs(s, i), UpperBoundMs(s.queries[i]), p)
    ensures JudgePrompt(s, i, Entries(root, children), p) == Planned(row)
  {
    var candidates := CandidatesIn(LowerBoundMs(s, i), UpperBoundMs(s.queries[i]), root.prompts);
    p := candidates[0];
    assert p in candidates;
  }

  lemma PlannedRowIs(s: ClaudeSession, i: nat, es: seq<Entry>, p: Prompt, row: ClaudeRow)
    requires i < |s.queries| == |s.ledger| && s.providerSessionId.Some? && JudgePrompt(s, i, es, p) == Planned(row)
    ensures Some(row.providerSessionId) == s.providerSessionId && row.sessionId == s.id
    ensures row.query == s.queries[i] && row.usageQuery == s.ledger[i] && row.promptId == p.id
    ensures !Ambiguous(es, p.id) && row.childMessageIds == CountedIds(es, p.id)
    ensures row.corrected == row.query.usage.Plus(ChildUsage(es, p.id))
  {
  }

  /** The prompt behind a planned row. */
  lemma RowHasPrompt(t: Transcripts, sessions: seq<ClaudeSession>, s: ClaudeSession, i: nat, row: ClaudeRow)
    returns (root: ParsedRoot, p: Prompt)
    requires RowFrom(t, sessions, s, i, row)
    ensures |s.queries| == |s.ledger| && RowsMirror(s.queries[i], s.ledger[i])
    ensures s.providerSessionId == Some(row.providerSessionId) && ProviderCount(sessions, row.providerSessionId) == 1
    ensures row.sessionId == s.id && row.query == s.queries[i] && row.usageQuery == s.ledger[i]
    ensures row.providerSessionId in t.roots && t.roots[row.providerSessionId] == [root]
    ensures p in root.prompts && p.id == row.promptId && InWindow(LowerBoundMs(s, i), UpperBoundMs(s.queries[i]), p)
    ensures !Ambiguous(Entries(root, t.children), p.id) && row.childMessageIds == CountedIds(Entries(root, t.children), p.id)
    ensures row.corrected == row.query.usage.Plus(ChildUsage(Entries(root, t.children), p.id))
  {
    PlannedHasNoReason(t, sessions, s, i);
    root := SoundSession(t, sessions, s);
    JudgeIsInSession(t, sessions, s, root, i);
    p := PlannedPrompt(s, i, root, t.children, row);
    PlannedRowIs(s, i, Entries(root, t.children), p, row);
  }

  lemma {:induction false} OneClaimant(sessions: seq<ClaudeSession>, id: string, a: nat, b: nat)
    requires a < b < |sessions| && sessions[a].providerSessionId == Some(id) && sessions[b].providerSessionId == Some(id)
    ensures ProviderCount(sessions, id) >= 2
  {
    var init := sessions[..|sessions| - 1];
    if b < |init| {
      OneClaimant(init, id, a, b);
    } else {
      ClaimantCounts(init, id, a);
    }
  }

  lemma {:induction false} ClaimantCounts(sessions: seq<ClaudeSession>, id: string, a: nat)
    requires a < |sessions| && sessions[a].providerSessionId == Some(id)
    ensures ProviderCount(sessions, id) >= 1
  {
    if a < |sessions| - 1 { ClaimantCounts(sessions[..|sessions| - 1], id, a); }
  }

  lemma SoleClaimant(sessions: seq<ClaudeSession>, id: string, s: ClaudeSession, s': ClaudeSession)
    requires ProviderCount(sessions, id) == 1 && s in sessions && s' in sessions
    requires s.providerSessionId == Some(id) && s'.providerSessionId == Some(id)
    ensures s == s'
  {
    var a :| 0 <= a < |sessions| && sessions[a] == s;
    var b :| 0 <= b < |sessions| && sessions[b] == s';
    if a < b { OneClaimant(sessions, id, a, b); }
    if b < a { OneClaimant(sessions, id, b, a); }
  }

  lemma SamePromptId(prompts: seq<Prompt>, p: Prompt, p': Prompt)
    requires forall i, j :: 0 <= i < j < |prompts| ==> prompts[i].id != prompts[j].id
    requires p in prompts && p' in prompts && p.id == p'.id
    ensures p == p'
  {
    var i :| 0 <= i < |prompts| && prompts[i] == p;
    var j :| 0 <= j < |prompts| && prompts[j] == p';
  }

  /** No prompt backs two rows of the manifest. */
  lemma PromptBacksOneRow(t: Transcripts, sessions: seq<ClaudeSession>, row: ClaudeRow, row': ClaudeRow)
    requires WellStored(sessions) && DistinctPrompts(t)
    requires row in PlanRows(t, sessions) && row' in PlanRows(t, sessions)
    requires row.providerSessionId == row'.providerSessionId && row.promptId == row'.promptId
    ensures row == row'
  {
    var s, i := RowOrigin(t, sessions, row);
    var s', i' := RowOrigin(t, sessions, row');
    var root, p := RowHasPrompt(t, sessions, s, i, row);
    var root', p' := RowHasPrompt(t, sessions, s', i', row');
    SoleClaimant(sessions, row.providerSessionId, s, s');
    assert root in t.roots[row.providerSessionId];
    SamePromptId(root.prompts, p, p');
    if i < i' { WindowsAreDisjoint(s, i, i', p); }
    if i' < i { WindowsAreDisjoint(s, i', i, p); }
  }

  /** Within one native session no child message is added to two rows. */
  lemma ChildMessageBacksOneRow(t: Transcripts, sessions: seq<ClaudeSession>, row: ClaudeRow, row': ClaudeRow, m: string)
    requires WellStored(sessions) && DistinctPrompts(t)
    requires row in PlanRows(t, sessions) && row' in PlanRows(t, sessions)
    requires row.providerSessionId == row'.providerSessionId && m in row.childMessageIds && m in row'.childMessageIds
    ensures row == row'
  {
    var s, i := RowOrigin(t, sessions, row);
    var s', i' := RowOrigin(t, sessions, row');
    var root, p := RowHasPrompt(t, sessions, s, i, row);
    var root', p' := RowHasPrompt(t, sessions, s', i', row');
    assert SoleOwner(Entries(root, t.children), m, p.id) && SoleOwner(Entries(root, t.children), m, p'.id);
    PromptBacksOneRow(t, sessions, row, row');
  }

  /** Planned rows name a query and the ledger row that mirrors it, in the session they repair. */
  lemma PlannedRowsMirror(t: Transcripts, sessions: seq<ClaudeSession>, row: ClaudeRow)
    requires WellStored(sessions) && row in PlanRows(t, sessions)
    ensures row.query.session == row.sessionId && row.usageQuery.session == Some(row.sessionId)
    ensures row.usageQuery.timestamp == row.query.timestamp && row.usageQuery.usage == row.query.usage
    ensures row.usageQuery.cost == row.query.cost && row.usageQuery.costKnown == row.query.costKnown && row.usageQuery.turns == row.query.turns
    ensures row.query.estimatedCost == row.usageQuery.estimatedCost && row.usageQuery.provider == "claude"
  {
    var s, i := RowOrigin(t, sessions, row);
    var _, _ := RowHasPrompt(t, sessions, s, i, row);
  }

  // ----- a repaired row stays clean --------------------------------------------------------------------

  function Repaired(s: ClaudeSession, i: nat, corrected: Usage): ClaudeSession
    requires i < |s.queries| == |s.ledger|
  {
    s.(queries := s.queries[i := s.queries[i].(usage := corrected)], ledger := s.ledger[i := s.ledger[i].(usage := corrected)])
  }

  lemma RepairedPromptIsClean(s: ClaudeSession, i: nat, es: seq<Entry>, p: Prompt, row: ClaudeRow)
    requires i < |s.queries| == |s.ledger| && s.providerSessionId.Some? && JudgePrompt(s, i, es, p) == Planned(row)
    ensures JudgePrompt(Repaired(s, i, row.corrected), i, es, p) == Clean
  {
  }

  lemma OtherPromptIsSame(s: ClaudeSession, i: nat, corrected: Usage, j: nat, es: seq<Entry>, p: Prompt)
    requires i < |s.queries| == |s.ledger| && j < |s.queries| && j != i && s.providerSessionId.Some?
    ensures JudgePrompt(Repaired(s, i, corrected), j, es, p) == JudgePrompt(s, j, es, p)
  {
  }

  lemma RepairKeepsSessionReason(t: Transcripts, sessions: seq<ClaudeSession>, sessions': seq<ClaudeSession>, s: ClaudeSession, i: nat, corrected: Usage)
    requires i < |s.queries| == |s.ledger| && SessionReason(t, sessions, s) == None
    requires forall id :: ProviderCount(sessions', id) == ProviderCount(sessions, id)
    ensures SessionReason(t, sessions', Repaired(s, i, corrected)) == None
  {
    var s' := Repaired(s, i, corrected);
    forall j | 0 <= j < |s'.queries| ensures RowsMirror(s'.queries[j], s'.ledger[j]) { assert RowsMirror(s.queries[j], s.ledger[j]); }
  }

  /** A repair moves no window. */
  lemma RepairKeepsWindows(s: ClaudeSession, i: nat, corrected: Usage, j: nat)
    requires i < |s.queries| == |s.ledger| && j < |s.queries|
    ensures LowerBoundMs(Repaired(s, i, corrected), j) == LowerBoundMs(s, j)
    ensures UpperBoundMs(Repaired(s, i, corrected).queries[j]) == UpperBoundMs(s.queries[j])
  {
  }

  lemma RepairedQueryInSession(s: ClaudeSession, i: nat, root: ParsedRoot, children: seq<ParsedChild>, row: ClaudeRow, j: nat)
    requires i < |s.queries| == |s.ledger| && j < |s.queries| && s.providerSessionId.Some?
    requires JudgeInSession(s, i, root, children) == Planned(row)
    ensures j == i ==> JudgeInSession(Repaired(s, i, row.corrected), j, root, children) == Clean
    ensures j != i ==> JudgeInSession(Repaired(s, i, row.corrected), j, root, children) == JudgeInSession(s, j, root, children)
  {
    RepairKeepsWindows(s, i, row.corrected, j);
    var candidates := CandidatesIn(LowerBoundMs(s, j), UpperBoundMs(s.queries[j]), root.prompts);
    if |candidates| == 1 {
      if j == i {
        RepairedPromptIsClean(s, i, Entries(root, children), candidates[0], row);
      } else {
        OtherPromptIsSame(s, i, row.corrected, j, Entries(root, children), candidates[0]);
      }
    }
  }

  /** Once a planned row is repaired, planning again finds its query clean and every other query of
      the session judged as before. */
  lemma RepairedRowIsClean(t: Transcripts, sessions: seq<ClaudeSession>, s: ClaudeSession, i: nat, row: ClaudeRow,
                           sessions': seq<ClaudeSession>, j: nat)
    requires RowFrom(t, sessions, s, i, row) && j < |s.queries| == |s.ledger|
    requires forall id :: ProviderCount(sessions', id) == ProviderCount(sessions, id)
    ensures j == i ==> Judge(t, sessions', Repaired(s, i, row.corrected), j) == Clean
    ensures j != i ==> Judge(t, sessions', Repaired(s, i, row.corrected), j) == Judge(t, sessions, s, j)
  {
    PlannedHasNoReason(t, sessions, s, i);
    var root := SoundSession(t, sessions, s);
    var s' := Repaired(s, i, row.corrected);
    RepairKeepsSessionReason(t, sessions, sessions', s, i, row.corrected);
    JudgeIsInSession(t, sessions, s, root, i);
    JudgeIsInSession(t, sessions, s, root, j);
    JudgeIsInSession(t, sessions', s', root, j);
    RepairedQueryInSession(s, i, root, t.children, row, j);
  }
}
