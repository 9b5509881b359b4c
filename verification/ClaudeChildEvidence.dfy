/**
 Which prompt a Claude child message counts for: its only owner, once, with its latest usage;
 a message with several owners makes all of them ambiguous instead.
 */
module ClaudeChildEvidence {
  import opened Wrappers
  import opened Rollouts

  datatype Call = Call(id: string, atMs: int, usage: Usage)

  datatype Prompt = Prompt(id: string, startedAtMs: int, rootCalls: seq<Call>)

  datatype ParsedRoot = ParsedRoot(sessionId: string, prompts: seq<Prompt>, rootMessageIds: set<string>)

  /** The prompt ids of a child transcript are those of its user records, each once. */
  datatype ParsedChild = ParsedChild(sessionId: string, promptIds: seq<string>, calls: seq<Call>)

  /** A child transcript offers a message for its prompt. */
  datatype Entry = Entry(promptId: string, call: Call)

  function CallEntries(root: ParsedRoot, promptId: string, calls: seq<Call>): seq<Entry> {
    if calls == [] then []
    else
      var last := calls[|calls| - 1];
      CallEntries(root, promptId, calls[..|calls| - 1])
      + if last.id in root.rootMessageIds then [] else [Entry(promptId, last)]
  }

  predicate Belongs(root: ParsedRoot, child: ParsedChild) {
    child.sessionId == root.sessionId && |child.promptIds| == 1
  }

  /** Every offer, in the order the transcripts are scanned. */
  function Entries(root: ParsedRoot, children: seq<ParsedChild>): seq<Entry> {
    if children == [] then []
    else
      var last := children[|children| - 1];
      Entries(root, children[..|children| - 1]) + if Belongs(root, last) then CallEntries(root, last.promptIds[0], last.calls) else []
  }

  // ----- what is offered for one message ---------------------------------------------------

  function OffersOf(es: seq<Entry>, m: string): (r: seq<Entry>)
    ensures forall e :: e in r <==> e in es && e.call.id == m
  {
    if es == [] then []
    else
      assert es == es[..|es| - 1] + [es[|es| - 1]];
      OffersOf(es[..|es| - 1], m) + if es[|es| - 1].call.id == m then [es[|es| - 1]] else []
  }

  /** Messages in order of their first offer. */
  function MessageIds(es: seq<Entry>): (ids: seq<string>)
    ensures forall m :: m in ids <==> exists e :: e in es && e.call.id == m
    ensures forall i, j :: 0 <= i < j < |ids| ==> ids[i] != ids[j]
  {
    if es == [] then []
    else
      var rest, m := MessageIds(es[..|es| - 1]), es[|es| - 1].call.id;
      assert es == es[..|es| - 1] + [es[|es| - 1]];
      if m in rest then rest else rest + [m]
  }

  predicate SoleOwner(es: seq<Entry>, m: string, p: string) {
    (exists e :: e in es && e.call.id == m) && forall e :: e in es && e.call.id == m ==> e.promptId == p
  }

  predicate OwnsOne(es: seq<Entry>, m: string, p: string) {
    exists e :: e in es && e.call.id == m && e.promptId == p
  }

  /** The prompt shares a message with another prompt. */
  predicate Ambiguous(es: seq<Entry>, p: string) {
    exists e :: e in es && e.promptId == p && !SoleOwner(es, e.call.id, p)
  }

  /** The last of the newest offers. */
  function Latest(offers: seq<Entry>): Entry
    requires offers != []
  {
    if |offers| == 1 then offers[0]
    else
      var best := Latest(offers[..|offers| - 1]);
      if offers[|offers| - 1].call.atMs >= best.call.atMs then offers[|offers| - 1] else best
  }

  lemma {:induction false} LatestIsNewest(offers: seq<Entry>)
    requires offers != []
    ensures Latest(offers) in offers && forall e :: e in offers ==> e.call.atMs <= Latest(offers).call.atMs
  {
    if |offers| > 1 {
      LatestIsNewest(offers[..|offers| - 1]);
      assert offers == offers[..|offers| - 1] + [offers[|offers| - 1]];
    }
  }

  function LatestUsage(es: seq<Entry>, m: string): Usage {
    var offers := OffersOf(es, m);
    if offers == [] then NO_USAGE else Latest(offers).call.usage
  }

  /** The messages of the list that count for the prompt. */
  function SoleIds(es: seq<Entry>, ids: seq<string>, p: string): (r: seq<string>)
    ensures forall m :: m in r <==> m in ids && SoleOwner(es, m, p)
  {
    if ids == [] then []
    else
      var last := ids[|ids| - 1];
      assert ids == ids[..|ids| - 1] + [last];
      SoleIds(es, ids[..|ids| - 1], p) + if SoleOwner(es, last, p) then [last] else []
  }

  function SumLatest(es: seq<Entry>, ids: seq<string>): Usage {
    if ids == [] then NO_USAGE else SumLatest(es, ids[..|ids| - 1]).Plus(LatestUsage(es, ids[|ids| - 1]))
  }

  function CountedIds(es: seq<Entry>, p: string): seq<string> {
    SoleIds(es, MessageIds(es), p)
  }

  function ChildUsage(es: seq<Entry>, p: string): Usage {
    SumLatest(es, CountedIds(es, p))
  }

  // ----- the two loops -------------------------------------------------------------------------

  ghost predicate IsIndex(es: seq<Entry>, candidates: map<string, seq<Entry>>, order: seq<string>) {
    && order == MessageIds(es)
    && (forall m :: m in candidates <==> m in order)
    && (forall m :: m in candidates ==> candidates[m] == OffersOf(es, m))
  }

  lemma OfferAppended(es: seq<Entry>, e: Entry, m: string)
    ensures OffersOf(es + [e], m) == (if e.call.id == m then OffersOf(es, m) + [e] else OffersOf(es, m))
  {
    assert (es + [e])[..|es + [e]| - 1] == es;
  }

  lemma MessageAppended(es: seq<Entry>, e: Entry)
    ensures MessageIds(es + [e]) == (if e.call.id in MessageIds(es) then MessageIds(es) else MessageIds(es) + [e.call.id])
  {
    assert (es + [e])[..|es + [e]| - 1] == es;
  }

  lemma NoOffer(es: seq<Entry>, m: string)
    requires m !in MessageIds(es)
    ensures OffersOf(es, m) == []
  {
    if OffersOf(es, m) != [] { SomeOffer(es, m); }
  }

  method AddOffer(ghost es: seq<Entry>, candidates: map<string, seq<Entry>>, order: seq<string>, e: Entry)
    returns (candidates': map<string, seq<Entry>>, order': seq<string>)
    requires IsIndex(es, candidates, order)
    ensures IsIndex(es + [e], candidates', order')
  {
    ghost var es' := es + [e];
    forall m ensures OffersOf(es', m) == (if e.call.id == m then OffersOf(es, m) + [e] else OffersOf(es, m)) {
      OfferAppended(es, e, m);
    }
    MessageAppended(es, e);
    var m := e.call.id;
    if m in candidates {
      candidates', order' := candidates[m := candidates[m] + [e]], order;
    } else {
      NoOffer(es, m);
      candidates', order' := candidates[m := [e]], order + [m];
    }
  }

  lemma SomeOffer(es: seq<Entry>, m: string)
    requires OffersOf(es, m) != []
    ensures m in MessageIds(es)
  {
    assert OffersOf(es, m)[0] in OffersOf(es, m);
  }

  method AddCalls(root: ParsedRoot, promptId: string, calls: seq<Call>, ghost es: seq<Entry>,
                  candidates0: map<string, seq<Entry>>, order0: seq<string>)
    returns (candidates: map<string, seq<Entry>>, order: seq<string>)
    requires IsIndex(es, candidates0, order0)
    ensures IsIndex(es + CallEntries(root, promptId, calls), candidates, order)
  {
    candidates, order := candidates0, order0;
    assert es + [] == es;
    for i := 0 to |calls|
      invariant IsIndex(es + CallEntries(root, promptId, calls[..i]), candidates, order)
    {
      assert calls[..i + 1][..i] == calls[..i];
      var call := calls[i];
      ghost var now := CallEntries(root, promptId, calls[..i]);
      if call.id in root.rootMessageIds {
        assert now + [] == now;
        continue;
      }
      assert es + (now + [Entry(promptId, call)]) == (es + now) + [Entry(promptId, call)];
      candidates, order := AddOffer(es + now, candidates, order, Entry(promptId, call));
    }
    assert calls[..|calls|] == calls;
  }

  method CollectCandidates(root: ParsedRoot, children: seq<ParsedChild>)
    returns (candidates: map<string, seq<Entry>>, order: seq<string>)
    ensures IsIndex(Entries(root, children), candidates, order)
  {
    candidates, order := map[], [];
    for n := 0 to |children|
      invariant IsIndex(Entries(root, children[..n]), candidates, order)
    {
      assert children[..n + 1][..n] == children[..n];
      var child := children[n];
      if child.sessionId != root.sessionId || |child.promptIds| != 1 {
        assert Entries(root, children[..n]) + [] == Entries(root, children[..n]);
        continue;
      }
      candidates, order := AddCalls(root, child.promptIds[0], child.calls, Entries(root, children[..n]), candidates, order);
    }
    assert children[..|children|] == children;
  }

  datatype Assignment = Assignment(usageByPrompt: map<string, Usage>, idsByPrompt: map<string, seq<string>>, ambiguous: set<string>)

  function GetIds(idsByPrompt: map<string, seq<string>>, p: string): seq<string> {
    if p in idsByPrompt then idsByPrompt[p] else []
  }

  function GetUsage(usageByPrompt: map<string, Usage>, p: string): Usage {
    if p in usageByPrompt then usageByPrompt[p] else NO_USAGE
  }

  ghost predicate IdsAssigned(es: seq<Entry>, ids: seq<string>, idsByPrompt: map<string, seq<string>>) {
    forall p :: GetIds(idsByPrompt, p) == SoleIds(es, ids, p)
  }

  ghost predicate UsageAssigned(es: seq<Entry>, ids: seq<string>, usageByPrompt: map<string, Usage>) {
    forall p :: GetUsage(usageByPrompt, p) == SumLatest(es, SoleIds(es, ids, p))
  }

  ghost predicate AmbiguityAssigned(es: seq<Entry>, ids: seq<string>, ambiguous: set<string>) {
    forall p :: p in ambiguous <==> exists m :: m in ids && OwnsOne(es, m, p) && !SoleOwner(es, m, p)
  }

  /** The evidence after the messages of `ids` were assigned. */
  ghost predicate Assigned(es: seq<Entry>, ids: seq<string>, ev: Assignment) {
    && IdsAssigned(es, ids, ev.idsByPrompt)
    && UsageAssigned(es, ids, ev.usageByPrompt)
    && AmbiguityAssigned(es, ids, ev.ambiguous)
  }

  method LatestOffer(offers: seq<Entry>) returns (latest: Entry)
    requires offers != []
    ensures latest == Latest(offers)
  {
    latest := offers[0];
    assert offers[..1] == [offers[0]];
    for i := 1 to |offers|
      invariant latest == Latest(offers[..i])
    {
      assert offers[..i + 1][..i] == offers[..i];
      if offers[i].call.atMs >= latest.call.atMs { latest := offers[i]; }
    }
    assert offers[..|offers|] == offers;
  }

  lemma SoleIdsOf(es: seq<Entry>, ids: seq<string>, m: string, p: string)
    ensures SoleIds(es, ids + [m], p) == (if SoleOwner(es, m, p) then SoleIds(es, ids, p) + [m] else SoleIds(es, ids, p))
  {
    assert (ids + [m])[..|ids + [m]| - 1] == ids;
  }

  lemma SumLatestOf(es: seq<Entry>, ids: seq<string>, m: string)
    ensures SumLatest(es, ids + [m]) == SumLatest(es, ids).Plus(LatestUsage(es, m))
  {
    assert (ids + [m])[..|ids + [m]| - 1] == ids;
  }

  lemma OwnersDecide(es: seq<Entry>, m: string, offers: seq<Entry>, owners: set<string>, p: string)
    requires offers == OffersOf(es, m) && owners == set e | e in offers :: e.promptId
    ensures p in owners <==> OwnsOne(es, m, p)
    ensures SoleOwner(es, m, p) <==> owners == {p}
  {
    if SoleOwner(es, m, p) {
      var e :| e in es && e.call.id == m;
      assert e in offers;
      forall q | q in owners ensures q == p {
        var e' :| e' in offers && e'.promptId == q;
      }
    }
    if owners == {p} {
      assert p in owners;
      var e :| e in offers && e.promptId == p;
      forall e' | e' in es && e'.call.id == m ensures e'.promptId == p {
        assert e' in offers;
        assert e'.promptId in owners;
      }
    }
  }

  lemma AssignAmbiguous(es: seq<Entry>, ids: seq<string>, m: string, owners: set<string>, ev: Assignment)
    requires Assigned(es, ids, ev)
    requires forall p :: p in owners <==> OwnsOne(es, m, p)
    requires forall p :: !SoleOwner(es, m, p)
    ensures Assigned(es, ids + [m], ev.(ambiguous := ev.ambiguous + owners))
  {
    forall p ensures SoleIds(es, ids + [m], p) == SoleIds(es, ids, p) { SoleIdsOf(es, ids, m, p); }
  }

  function Credit(ev: Assignment, p: string, m: string, usage: Usage): Assignment {
    ev.(usageByPrompt := ev.usageByPrompt[p := GetUsage(ev.usageByPrompt, p).Plus(usage)],
        idsByPrompt := ev.idsByPrompt[p := GetIds(ev.idsByPrompt, p) + [m]])
  }

  lemma CreditIds(es: seq<Entry>, ids: seq<string>, m: string, p: string, idsByPrompt: map<string, seq<string>>)
    requires IdsAssigned(es, ids, idsByPrompt) && SoleOwner(es, m, p)
    ensures IdsAssigned(es, ids + [m], idsByPrompt[p := GetIds(idsByPrompt, p) + [m]])
  {
    forall q ensures SoleIds(es, ids + [m], q) == (if q == p then SoleIds(es, ids, q) + [m] else SoleIds(es, ids, q)) {
      SoleIdsOf(es, ids, m, q);
    }
  }

  lemma CreditUsage(es: seq<Entry>, ids: seq<string>, m: string, p: string, usageByPrompt: map<string, Usage>)
    requires UsageAssigned(es, ids, usageByPrompt) && SoleOwner(es, m, p)
    ensures UsageAssigned(es, ids + [m], usageByPrompt[p := GetUsage(usageByPrompt, p).Plus(LatestUsage(es, m))])
  {
    var usage' := usageByPrompt[p := GetUsage(usageByPrompt, p).Plus(LatestUsage(es, m))];
    forall q ensures GetUsage(usage', q) == SumLatest(es, SoleIds(es, ids + [m], q)) {
      SoleIdsOf(es, ids, m, q);
      SumLatestOf(es, SoleIds(es, ids, q), m);
    }
  }

  lemma SoleIsUnambiguous(es: seq<Entry>, ids: seq<string>, m: string, p: string, ambiguous: set<string>)
    requires AmbiguityAssigned(es, ids, ambiguous) && SoleOwner(es, m, p)
    ensures AmbiguityAssigned(es, ids + [m], ambiguous)
  {
    assert forall q :: OwnsOne(es, m, q) ==> SoleOwner(es, m, q);
  }

  lemma AssignSole(es: seq<Entry>, ids: seq<string>, m: string, p: string, ev: Assignment)
    requires Assigned(es, ids, ev) && SoleOwner(es, m, p)
    ensures Assigned(es, ids + [m], Credit(ev, p, m, LatestUsage(es, m)))
  {
    CreditIds(es, ids, m, p, ev.idsByPrompt);
    CreditUsage(es, ids, m, p, ev.usageByPrompt);
    SoleIsUnambiguous(es, ids, m, p, ev.ambiguous);
  }

  method AssignMessage(ghost es: seq<Entry>, ghost ids: seq<string>, m: string, offers: seq<Entry>, ev: Assignment) returns (ev': Assignment)
    requires Assigned(es, ids, ev) && offers == OffersOf(es, m) && offers != []
    ensures Assigned(es, ids + [m], ev')
  {
    var owners := set e | e in offers :: e.promptId;
    forall p ensures (p in owners <==> OwnsOne(es, m, p)) && (SoleOwner(es, m, p) <==> owners == {p}) {
      OwnersDecide(es, m, offers, owners, p);
    }
    var promptId := offers[0].promptId;
    assert promptId in owners;
    if |owners| != 1 {
      AssignAmbiguous(es, ids, m, owners, ev);
      ev' := ev.(ambiguous := ev.ambiguous + owners);
    } else {
      SingletonIs(owners, promptId);
      AssignSole(es, ids, m, promptId, ev);
      var latest := LatestOffer(offers);
      ev' := Credit(ev, promptId, m, latest.call.usage);
    }
  }

  lemma SingletonIs(owners: set<string>, p: string)
    requires |owners| == 1 && p in owners
    ensures owners == {p}
  {
    assert |owners - {p}| == 0;
    assert owners == (owners - {p}) + {p};
  }

  /** The evidence the planner reads for a root transcript. */
  method ChildEvidence(root: ParsedRoot, children: seq<ParsedChild>) returns (ev: Assignment)
    ensures var es := Entries(root, children);
            && (forall p :: GetIds(ev.idsByPrompt, p) == CountedIds(es, p))
            && (forall p :: GetUsage(ev.usageByPrompt, p) == ChildUsage(es, p))
            && (forall p :: p in ev.ambiguous <==> Ambiguous(es, p))
  {
    var candidates, order := CollectCandidates(root, children);
    ghost var es := Entries(root, children);
    ev := Assignment(map[], map[], {});
    for i := 0 to |order|
      invariant Assigned(es, order[..i], ev)
    {
      assert order[..i + 1] == order[..i] + [order[i]];
      assert order[i] in order;
      OfferedMessage(es, order[i]);
      ev := AssignMessage(es, order[..i], order[i], candidates[order[i]], ev);
    }
    assert order[..|order|] == order;
    forall p ensures p in ev.ambiguous <==> Ambiguous(es, p) {
      if Ambiguous(es, p) {
        var e :| e in es && e.promptId == p && !SoleOwner(es, e.call.id, p);
        assert e.call.id in order && OwnsOne(es, e.call.id, p);
      }
    }
  }

  lemma OfferedMessage(es: seq<Entry>, m: string)
    requires m in MessageIds(es)
    ensures OffersOf(es, m) != []
  {
    var e :| e in es && e.call.id == m;
    assert e in OffersOf(es, m);
  }

  // ----- counting once ---------------------------------------------------------------------------

  ghost predicate Offers(root: ParsedRoot, children: seq<ParsedChild>, e: Entry) {
    exists c :: c in children && Belongs(root, c) && c.promptIds[0] == e.promptId && e.call in c.calls && e.call.id !in root.rootMessageIds
  }

  lemma {:induction false} CallEntriesAre(root: ParsedRoot, promptId: string, calls: seq<Call>, e: Entry)
    ensures e in CallEntries(root, promptId, calls) <==> e.promptId == promptId && e.call in calls && e.call.id !in root.rootMessageIds
  {
    if calls != [] {
      CallEntriesAre(root, promptId, calls[..|calls| - 1], e);
      assert calls == calls[..|calls| - 1] + [calls[|calls| - 1]];
    }
  }

  lemma {:induction false} EntriesAre(root: ParsedRoot, children: seq<ParsedChild>, e: Entry)
    ensures e in Entries(root, children) <==> Offers(root, children, e)
  {
    if children != [] {
      var init, last := children[..|children| - 1], children[|children| - 1];
      EntriesAre(root, init, e);
      if Belongs(root, last) { CallEntriesAre(root, last.promptIds[0], last.calls, e); }
      assert forall c :: c in children <==> c in init || c == last by { assert children == init + [last]; }
    }
  }

  lemma {:induction false} SoleIdsAreDistinct(es: seq<Entry>, ids: seq<string>, p: string, i: nat, j: nat)
    requires forall a, b :: 0 <= a < b < |ids| ==> ids[a] != ids[b]
    requires i < j < |SoleIds(es, ids, p)|
    ensures SoleIds(es, ids, p)[i] != SoleIds(es, ids, p)[j]
  {
    var init := ids[..|ids| - 1];
    if j < |SoleIds(es, init, p)| {
      SoleIdsAreDistinct(es, init, p, i, j);
    } else {
      assert SoleIds(es, init, p)[i] in SoleIds(es, init, p);
    }
  }

  /** Each child message either counts for exactly one prompt, once, or makes every prompt it is
      offered for ambiguous; messages of the root transcript never count. */
  lemma ChildMessageCountsOnce(root: ParsedRoot, children: seq<ParsedChild>, e: Entry)
    requires Offers(root, children, e)
    ensures var es := Entries(root, children);
            && e.call.id !in root.rootMessageIds
            && (e.call.id in CountedIds(es, e.promptId) || Ambiguous(es, e.promptId))
            && (forall p :: e.call.id in CountedIds(es, p) ==> p == e.promptId)
            && (e.call.id in CountedIds(es, e.promptId) <==> forall e' :: Offers(root, children, e') && e'.call.id == e.call.id ==> e'.promptId == e.promptId)
  {
    var es := Entries(root, children);
    forall e' ensures e' in es <==> Offers(root, children, e') { EntriesAre(root, children, e'); }
    assert e.call.id in MessageIds(es);
  }

  lemma CountedIdsAreDistinct(es: seq<Entry>, p: string, i: nat, j: nat)
    requires i < j < |CountedIds(es, p)|
    ensures CountedIds(es, p)[i] != CountedIds(es, p)[j]
  {
    SoleIdsAreDistinct(es, MessageIds(es), p, i, j);
  }

  /** A counted message counts with its newest usage. */
  lemma CountedUsageIsNewest(es: seq<Entry>, p: string, m: string) returns (e: Entry)
    requires m in CountedIds(es, p)
    ensures e in es && e.promptId == p && e.call.id == m && LatestUsage(es, m) == e.call.usage
    ensures forall e' :: e' in es && e'.call.id == m ==> e'.call.atMs <= e.call.atMs
  {
    OfferedMessage(es, m);
    LatestIsNewest(OffersOf(es, m));
    e := Latest(OffersOf(es, m));
    forall e' | e' in es && e'.call.id == m ensures e'.call.atMs <= e.call.atMs { assert e' in OffersOf(es, m); }
  }
}
