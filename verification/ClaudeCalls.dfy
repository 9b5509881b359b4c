/**
 Who owns a Claude message: within a session the parent transcript's copy, across sessions the
 first owner by a fixed order, and never a second owner once it was imported.
 */
module ClaudeCalls {
  import opened Wrappers
  import opened Rollouts

  /** A message snapshot; copies in subagent files name their file. */
  datatype Call = Call(id: string, atMs: int, childFile: Option<string>, usage: Usage)

  // ----- copies within one session ---------------------------------------------------------

  datatype Copy = Copy(promptKey: string, call: Call)

  predicate Prefers(previous: Call, call: Call) {
    || (previous.childFile.Some? && call.childFile.None?)
    || (previous.childFile == call.childFile && call.atMs >= previous.atMs)
  }

  function Keep(kept: map<string, Copy>, c: Copy): map<string, Copy> {
    if c.call.id !in kept || Prefers(kept[c.call.id].call, c.call) then kept[c.call.id := c] else kept
  }

  function UniqueCalls(copies: seq<Copy>): map<string, Copy> {
    if copies == [] then map[] else Keep(UniqueCalls(copies[..|copies| - 1]), copies[|copies| - 1])
  }

  method DedupeSession(copies: seq<Copy>) returns (kept: map<string, Copy>)
    ensures kept == UniqueCalls(copies)
  {
    kept := map[];
    for i := 0 to |copies|
      invariant kept == UniqueCalls(copies[..i])
    {
      assert copies[..i + 1][..i] == copies[..i];
      var c := copies[i];
      if c.call.id !in kept || Prefers(kept[c.call.id].call, c.call) { kept := kept[c.call.id := c]; }
    }
    assert copies[..|copies|] == copies;
  }

  /** Every message is kept once, from one of its copies; a parent copy beats every child copy, and
      no later copy lies in the same file. */
  lemma {:induction false} ParentCopyIsKept(copies: seq<Copy>, id: string)
    ensures id in UniqueCalls(copies) <==> exists c :: c in copies && c.call.id == id
    ensures id in UniqueCalls(copies) ==>
      var kept := UniqueCalls(copies)[id];
      && kept in copies && kept.call.id == id
      && (kept.call.childFile.Some? ==> forall c :: c in copies && c.call.id == id ==> c.call.childFile.Some?)
      && (forall c :: c in copies && c.call.id == id && c.call.childFile == kept.call.childFile ==> c.call.atMs <= kept.call.atMs)
  {
    if copies != [] {
      assert copies == copies[..|copies| - 1] + [copies[|copies| - 1]];
      ParentCopyIsKept(copies[..|copies| - 1], id);
    }
  }

  predicate IsCopyOf(copies: seq<Copy>, id: string, c: Copy) {
    c in copies && c.call.id == id
  }

  predicate IsParentCopy(copies: seq<Copy>, id: string, c: Copy) {
    IsCopyOf(copies, id, c) && c.call.childFile.None?
  }

  function FirstCopy(copies: seq<Copy>, id: string): (c: Option<Copy>)
    ensures c.Some? ==> IsCopyOf(copies, id, c.value)
    ensures c.None? <==> forall x :: x in copies ==> x.call.id != id
  {
    if copies == [] then None
    else
      var init := copies[..|copies| - 1];
      assert copies == init + [copies[|copies| - 1]];
      if FirstCopy(init, id).Some? then FirstCopy(init, id)
      else if copies[|copies| - 1].call.id == id then Some(copies[|copies| - 1])
      else None
  }

  /** The kept copy is a parent copy exactly if there is one; otherwise it lies in the first-seen copy's file. */
  lemma {:induction false} KeptFile(copies: seq<Copy>, id: string)
    requires id in UniqueCalls(copies)
    ensures FirstCopy(copies, id).Some?
    ensures var kept := UniqueCalls(copies)[id].call.childFile;
            if exists c :: IsParentCopy(copies, id, c) then kept == None else kept == FirstCopy(copies, id).value.call.childFile
  {
    ParentCopyIsKept(copies, id);
    assert IsCopyOf(copies, id, UniqueCalls(copies)[id]);
    var init, last := copies[..|copies| - 1], copies[|copies| - 1];
    assert copies == init + [last];
    if id in UniqueCalls(init) {
      KeptFile(init, id);
      if c :| IsParentCopy(init, id, c) { assert IsParentCopy(copies, id, c); }
      if last.call.id == id && last.call.childFile.None? { assert IsParentCopy(copies, id, last); }
    } else {
      ParentCopyIsKept(init, id);
      assert FirstCopy(init, id).None?;
    }
  }

  /** What the code sets out to keep: the newest parent copy, or the newest copy of all if no copy is the parent's. */
  ghost predicate IsLatest(copies: seq<Copy>, id: string, kept: Copy) {
    if exists c :: IsParentCopy(copies, id, c) then
      IsParentCopy(copies, id, kept) && forall c :: IsParentCopy(copies, id, c) ==> c.call.atMs <= kept.call.atMs
    else
      IsCopyOf(copies, id, kept) && forall c :: IsCopyOf(copies, id, c) ==> c.call.atMs <= kept.call.atMs
  }

  predicate HasAsNew(copies: seq<Copy>, id: string, file: Option<string>, atMs: int) {
    exists d :: d in copies && d.call.id == id && d.call.childFile == file && atMs <= d.call.atMs
  }

  /** No copy is newer than all copies in the file that was seen first. */
  ghost predicate FirstFileIsCurrent(copies: seq<Copy>, id: string)
    requires FirstCopy(copies, id).Some?
  {
    forall c :: IsCopyOf(copies, id, c) ==> HasAsNew(copies, id, FirstCopy(copies, id).value.call.childFile, c.call.atMs)
  }

  lemma NewestOfFirstFile(copies: seq<Copy>, id: string, kept: Copy)
    requires FirstCopy(copies, id).Some? && IsCopyOf(copies, id, kept)
    requires kept.call.childFile == FirstCopy(copies, id).value.call.childFile
    requires forall c :: IsCopyOf(copies, id, c) && c.call.childFile == kept.call.childFile ==> c.call.atMs <= kept.call.atMs
    ensures (forall c :: IsCopyOf(copies, id, c) ==> c.call.atMs <= kept.call.atMs) <==> FirstFileIsCurrent(copies, id)
  {
    if FirstFileIsCurrent(copies, id) {
      forall c | IsCopyOf(copies, id, c) ensures c.call.atMs <= kept.call.atMs {
        var d :| d in copies && d.call.id == id && d.call.childFile == kept.call.childFile && c.call.atMs <= d.call.atMs;
        assert IsCopyOf(copies, id, d);
      }
    }
  }

  /** It keeps that copy exactly if the parent has a copy or no other file has a newer one than the first file. */
  lemma LatestIsKeptExactly(copies: seq<Copy>, id: string)
    requires id in UniqueCalls(copies)
    ensures FirstCopy(copies, id).Some?
    ensures IsLatest(copies, id, UniqueCalls(copies)[id])
       <==> (exists c :: IsParentCopy(copies, id, c)) || FirstFileIsCurrent(copies, id)
  {
    ParentCopyIsKept(copies, id);
    KeptFile(copies, id);
    var kept := UniqueCalls(copies)[id];
    assert IsCopyOf(copies, id, kept);
    if c :| IsParentCopy(copies, id, c) {
      assert IsLatest(copies, id, kept);
    } else {
      NewestOfFirstFile(copies, id, kept);
    }
  }

  /** Two child files are not compared by time: the first file's copy stays, also if it is older. */
  lemma OlderChildCopyCanBeKept(id: string, usage: Usage)
    ensures var older, newer := Copy("p", Call(id, 1, Some("a.jsonl"), usage)), Copy("p", Call(id, 2, Some("b.jsonl"), usage));
            id in UniqueCalls([older, newer]) && UniqueCalls([older, newer])[id] == older
  {
    var older, newer := Copy("p", Call(id, 1, Some("a.jsonl"), usage)), Copy("p", Call(id, 2, Some("b.jsonl"), usage));
    assert [older, newer][..1] == [older] && [older][..0] == [];
    assert UniqueCalls([older]) == Keep(map[], older);
  }

  // ----- owners across sessions ---------------------------------------------------------------

  datatype Source = Source(session: string, promptKey: string)

  /** A query candidate: a prompt with its measured duration, if any, and the calls its session gave it. */
  datatype Candidate = Candidate(source: Source, path: string, startedMs: int, durationMs: nat, calls: seq<Call>)

  function LatestMs(calls: seq<Call>, from: int): int {
    if calls == [] then from
    else
      var rest := LatestMs(calls[..|calls| - 1], from);
      if calls[|calls| - 1].atMs > rest then calls[|calls| - 1].atMs else rest
  }

  /** When the candidate ended. */
  function EndMs(c: Candidate): int {
    LatestMs(c.calls, c.startedMs + c.durationMs)
  }

  lemma {:induction false} LatestIsLatest(calls: seq<Call>, from: int)
    ensures from <= LatestMs(calls, from) && forall c :: c in calls ==> c.atMs <= LatestMs(calls, from)
    ensures LatestMs(calls, from) == from || exists c :: c in calls && c.atMs == LatestMs(calls, from)
  {
    if calls != [] {
      LatestIsLatest(calls[..|calls| - 1], from);
      assert calls == calls[..|calls| - 1] + [calls[|calls| - 1]];
    }
  }

  /** A candidate ends with its measured duration or with a call, whichever is last. */
  lemma EndIsLast(c: Candidate)
    ensures c.startedMs <= c.startedMs + c.durationMs <= EndMs(c) && forall call :: call in c.calls ==> call.atMs <= EndMs(c)
    ensures EndMs(c) == c.startedMs + c.durationMs || exists call :: call in c.calls && call.atMs == EndMs(c)
  {
    LatestIsLatest(c.calls, c.startedMs + c.durationMs);
  }

  /** How strings sort; strings of equal rank compare as equal. */
  type Collation = string -> int

  datatype OwnerKey = OwnerKey(started: int, ended: int, calls: int, session: int, promptKey: int, path: int)

  function KeyOf(rank: Collation, c: Candidate): OwnerKey {
    OwnerKey(c.startedMs, EndMs(c), |c.calls|, rank(c.source.session), rank(c.source.promptKey), rank(c.path))
  }

  /** The sign of the comparison of two ownership keys. */
  function Compare(a: OwnerKey, b: OwnerKey): int {
    if a.started != b.started then a.started - b.started
    else if a.ended != b.ended then a.ended - b.ended
    else if a.calls != b.calls then a.calls - b.calls
    else if a.session != b.session then a.session - b.session
    else if a.promptKey != b.promptKey then a.promptKey - b.promptKey
    else a.path - b.path
  }

  /** A message offered by the candidate at the index. */
  datatype Occurrence = Occurrence(index: nat, call: Call)

  function IsChildCopy(c: Call): int {
    if c.childFile.Some? then 1 else 0
  }

  function CompareOccurrences(rank: Collation, cs: seq<Candidate>, a: Occurrence, b: Occurrence): int
    requires a.index < |cs| && b.index < |cs|
  {
    var owner := Compare(KeyOf(rank, cs[a.index]), KeyOf(rank, cs[b.index]));
    if owner != 0 then owner
    else if IsChildCopy(a.call) != IsChildCopy(b.call) then IsChildCopy(a.call) - IsChildCopy(b.call)
    else b.call.atMs - a.call.atMs
  }

  /** Earlier imports of messages: the query source that owns each, if it is known. */
  type Imported = map<string, Option<Source>>

  predicate Eligible(imported: Imported, c: Candidate, id: string) {
    id in imported ==> imported[id] == Some(c.source)
  }

  function OccurrencesIn(calls: seq<Call>, index: nat, id: string): (os: seq<Occurrence>)
    ensures forall o :: o in os <==> o.index == index && o.call in calls && o.call.id == id
  {
    if calls == [] then []
    else
      assert calls == calls[..|calls| - 1] + [calls[|calls| - 1]];
      OccurrencesIn(calls[..|calls| - 1], index, id) + if calls[|calls| - 1].id == id then [Occurrence(index, calls[|calls| - 1])] else []
  }

  /** All eligible occurrences of a message, in scan order. */
  function Offers(imported: Imported, cs: seq<Candidate>, n: nat, id: string): (os: seq<Occurrence>)
    requires n <= |cs|
    ensures forall o :: o in os <==> o.index < n && Eligible(imported, cs[o.index], id) && o.call in cs[o.index].calls && o.call.id == id
  {
    if n == 0 then []
    else Offers(imported, cs, n - 1, id) + if Eligible(imported, cs[n - 1], id) then OccurrencesIn(cs[n - 1].calls, n - 1, id) else []
  }

  /** The first of a stable sort. */
  function Least(rank: Collation, cs: seq<Candidate>, os: seq<Occurrence>): (o: Occurrence)
    requires os != [] && forall i :: 0 <= i < |os| ==> os[i].index < |cs|
    ensures o in os
  {
    if |os| == 1 then os[0]
    else
      var best, last := Least(rank, cs, os[..|os| - 1]), os[|os| - 1];
      if CompareOccurrences(rank, cs, last, best) < 0 then last else best
  }

  lemma CompareIsTransitive(rank: Collation, cs: seq<Candidate>, a: Occurrence, b: Occurrence, c: Occurrence)
    requires a.index < |cs| && b.index < |cs| && c.index < |cs|
    requires CompareOccurrences(rank, cs, a, b) <= 0 && CompareOccurrences(rank, cs, b, c) <= 0
    ensures CompareOccurrences(rank, cs, a, c) <= 0
  {
  }

  lemma CompareIsReflexive(rank: Collation, cs: seq<Candidate>, a: Occurrence)
    requires a.index < |cs|
    ensures CompareOccurrences(rank, cs, a, a) == 0
  {
  }

  lemma {:induction false} LeastIsLeast(rank: Collation, cs: seq<Candidate>, os: seq<Occurrence>, o: Occurrence)
    requires os != [] && forall i :: 0 <= i < |os| ==> os[i].index < |cs|
    requires o in os
    ensures CompareOccurrences(rank, cs, Least(rank, cs, os), o) <= 0
  {
    if |os| > 1 {
      var init, last := os[..|os| - 1], os[|os| - 1];
      assert os == init + [last];
      var best := Least(rank, cs, init);
      if o in init {
        LeastIsLeast(rank, cs, init, o);
        if CompareOccurrences(rank, cs, last, best) < 0 { CompareIsTransitive(rank, cs, last, best, o); }
      } else {
        assert o == last;
        CompareIsReflexive(rank, cs, o);
      }
    }
  }

  /** Who gets the message. */
  function Winner(rank: Collation, imported: Imported, cs: seq<Candidate>, id: string): (o: Option<Occurrence>)
    ensures o.Some? ==> o.value.index < |cs| && o.value.call in cs[o.value.index].calls && o.value.call.id == id
  {
    var os := Offers(imported, cs, |cs|, id);
    if os == [] then None
    else
      assert forall i :: 0 <= i < |os| ==> os[i] in os;
      Some(Least(rank, cs, os))
  }

  /** A message no candidate may claim: it was imported from a source outside the scan. */
  ghost predicate OwnedOutside(imported: Imported, cs: seq<Candidate>, id: string) {
    id in imported && forall i :: 0 <= i < |cs| ==> !(imported[id] == Some(cs[i].source) && exists c :: c in cs[i].calls && c.id == id)
  }

  ghost predicate Occurs(cs: seq<Candidate>, id: string) {
    exists i, c :: 0 <= i < |cs| && c in cs[i].calls && c.id == id
  }

  /** Every scanned message goes to one candidate, and to none exactly if it is owned outside the scan. */
  lemma MessagesArePartitioned(rank: Collation, imported: Imported, cs: seq<Candidate>, id: string)
    requires Occurs(cs, id)
    ensures Winner(rank, imported, cs, id).None? <==> OwnedOutside(imported, cs, id)
    ensures Winner(rank, imported, cs, id).Some? && id in imported ==>
      imported[id] == Some(cs[Winner(rank, imported, cs, id).value.index].source)
  {
    var os := Offers(imported, cs, |cs|, id);
    var i, c :| 0 <= i < |cs| && c in cs[i].calls && c.id == id;
    if id !in imported {
      assert Occurrence(i, c) in os;
    } else if !OwnedOutside(imported, cs, id) {
      var j :| 0 <= j < |cs| && imported[id] == Some(cs[j].source) && exists d :: d in cs[j].calls && d.id == id;
      var d :| d in cs[j].calls && d.id == id;
      assert Occurrence(j, d) in os;
    }
    if os != [] { assert Least(rank, cs, os) in os by { assert forall k :: 0 <= k < |os| ==> os[k] in os; } }
  }

  // ----- independence of the scan order --------------------------------------------------------

  /** The same candidates, scanned in any order, none of them equal in its ownership key. */
  ghost predicate SameCandidates(rank: Collation, cs: seq<Candidate>, ds: seq<Candidate>) {
    && (forall c :: c in cs <==> c in ds)
    && (forall a, b :: a in cs && b in cs && a != b ==> Compare(KeyOf(rank, a), KeyOf(rank, b)) != 0)
  }

  /** Within a session every message was kept once. */
  ghost predicate CallsOnce(cs: seq<Candidate>) {
    forall i, a, b :: 0 <= i < |cs| && a in cs[i].calls && b in cs[i].calls && a.id == b.id ==> a == b
  }

  lemma WinnerBeats(rank: Collation, imported: Imported, cs: seq<Candidate>, id: string, c: Candidate, call: Call)
    requires c in cs && Eligible(imported, c, id) && call in c.calls && call.id == id
    ensures Winner(rank, imported, cs, id).Some?
    ensures var w := Winner(rank, imported, cs, id).value; Compare(KeyOf(rank, cs[w.index]), KeyOf(rank, c)) <= 0
    ensures var w := Winner(rank, imported, cs, id).value; Eligible(imported, cs[w.index], id)
  {
    var os := Offers(imported, cs, |cs|, id);
    var i :| 0 <= i < |cs| && cs[i] == c;
    assert Occurrence(i, call) in os;
    assert forall k :: 0 <= k < |os| ==> os[k] in os;
    LeastIsLeast(rank, cs, os, Occurrence(i, call));
  }

  /** With distinct ownership keys the owner and its copy do not depend on the scan order. */
  lemma OwnerIsOrderFree(rank: Collation, imported: Imported, cs: seq<Candidate>, ds: seq<Candidate>, id: string)
    requires SameCandidates(rank, cs, ds) && CallsOnce(cs)
    ensures Winner(rank, imported, cs, id).Some? <==> Winner(rank, imported, ds, id).Some?
    ensures Winner(rank, imported, cs, id).Some? ==>
      var v, w := Winner(rank, imported, cs, id).value, Winner(rank, imported, ds, id).value;
      cs[v.index] == ds[w.index] && v.call == w.call
  {
    var v, w := Winner(rank, imported, cs, id), Winner(rank, imported, ds, id);
    if v.Some? {
      WinnerIsEligible(rank, imported, cs, id);
      WinnerBeats(rank, imported, ds, id, cs[v.value.index], v.value.call);
    }
    if w.Some? {
      WinnerIsEligible(rank, imported, ds, id);
      WinnerBeats(rank, imported, cs, id, ds[w.value.index], w.value.call);
    }
    if v.Some? && w.Some? {
      CompareIsAntisymmetric(KeyOf(rank, cs[v.value.index]), KeyOf(rank, ds[w.value.index]));
      assert cs[v.value.index] in cs && ds[w.value.index] in ds;
    }
  }

  // ----- who comes first, in plain terms ----------------------------------------------------------

  /** The candidate at the index could be given this copy of the message. */
  predicate MayClaim(imported: Imported, cs: seq<Candidate>, i: nat, c: Call, id: string) {
    i < |cs| && c in cs[i].calls && c.id == id && (id in imported ==> imported[id] == Some(cs[i].source))
  }

  /** Started, ended, called, or sorts before the other, in that order. */
  predicate SameSpan(a: Candidate, b: Candidate) {
    a.startedMs == b.startedMs && EndMs(a) == EndMs(b) && |a.calls| == |b.calls|
  }

  predicate SameNames(rank: Collation, a: Candidate, b: Candidate) {
    rank(a.source.session) == rank(b.source.session) && rank(a.source.promptKey) == rank(b.source.promptKey) && rank(a.path) == rank(b.path)
  }

  ghost predicate ComesFirst(rank: Collation, a: Candidate, b: Candidate) {
    && a.startedMs <= b.startedMs
    && (a.startedMs == b.startedMs ==> EndMs(a) <= EndMs(b))
    && (a.startedMs == b.startedMs && EndMs(a) == EndMs(b) ==> |a.calls| <= |b.calls|)
    && (SameSpan(a, b) ==> rank(a.source.session) <= rank(b.source.session))
    && (SameSpan(a, b) && rank(a.source.session) == rank(b.source.session) ==> rank(a.source.promptKey) <= rank(b.source.promptKey))
    && (SameSpan(a, b) && rank(a.source.session) == rank(b.source.session) && rank(a.source.promptKey) == rank(b.source.promptKey) ==>
          rank(a.path) <= rank(b.path))
  }

  /** Of the copies that could be given, this one's candidate comes first; between candidates that tie a parent
      copy comes before a child copy, then the newer copy, then the one scanned first. */
  ghost predicate OwnsFirst(rank: Collation, imported: Imported, cs: seq<Candidate>, i: nat, c: Call) {
    && MayClaim(imported, cs, i, c, c.id)
    && forall j: nat, d :: MayClaim(imported, cs, j, d, c.id) ==>
         && ComesFirst(rank, cs[i], cs[j])
         && (SameSpan(cs[i], cs[j]) && SameNames(rank, cs[i], cs[j]) ==>
               && (c.childFile.Some? ==> d.childFile.Some?)
               && (c.childFile.Some? == d.childFile.Some? ==> d.atMs <= c.atMs)
               && (c.childFile.Some? == d.childFile.Some? && d.atMs == c.atMs ==> i <= j))
  }

  ghost predicate InScanOrder(os: seq<Occurrence>) {
    forall a, b :: 0 <= a < b < |os| ==> os[a].index <= os[b].index
  }

  lemma MoreInScanOrder(os: seq<Occurrence>, more: seq<Occurrence>, n: nat)
    requires InScanOrder(os) && (forall a :: 0 <= a < |os| ==> os[a].index < n) && forall a :: 0 <= a < |more| ==> more[a].index == n
    ensures InScanOrder(os + more)
  {
  }

  lemma OffersAreScanned(imported: Imported, cs: seq<Candidate>, n: nat, id: string)
    requires n <= |cs|
    ensures var os := Offers(imported, cs, n, id); forall a :: 0 <= a < |os| ==> os[a].index < n
  {
    var os := Offers(imported, cs, n, id);
    forall a | 0 <= a < |os| ensures os[a].index < n { assert os[a] in os; }
  }

  lemma OccurrencesStandThere(calls: seq<Call>, index: nat, id: string)
    ensures var os := OccurrencesIn(calls, index, id); forall a :: 0 <= a < |os| ==> os[a].index == index
  {
    var os := OccurrencesIn(calls, index, id);
    forall a | 0 <= a < |os| ensures os[a].index == index { assert os[a] in os; }
  }

  lemma OffersOfOneMore(imported: Imported, cs: seq<Candidate>, n: nat, id: string) returns (before: seq<Occurrence>, more: seq<Occurrence>)
    requires n < |cs|
    ensures before == Offers(imported, cs, n, id) && Offers(imported, cs, n + 1, id) == before + more
    ensures (forall a :: 0 <= a < |before| ==> before[a].index < n) && forall a :: 0 <= a < |more| ==> more[a].index == n
  {
    before := Offers(imported, cs, n, id);
    more := if Eligible(imported, cs[n], id) then OccurrencesIn(cs[n].calls, n, id) else [];
    OffersAreScanned(imported, cs, n, id);
    OccurrencesStandThere(cs[n].calls, n, id);
  }

  lemma {:induction false} OffersInScanOrder(imported: Imported, cs: seq<Candidate>, n: nat, id: string, os: seq<Occurrence>)
    requires n <= |cs| && os == Offers(imported, cs, n, id)
    ensures InScanOrder(os)
  {
    if n > 0 {
      var before, more := OffersOfOneMore(imported, cs, n - 1, id);
      OffersInScanOrder(imported, cs, n - 1, id, before);
      MoreInScanOrder(before, more, n - 1);
    }
  }

  /** Ties go to the occurrence scanned first. */
  lemma {:induction false} TiesGoFirst(rank: Collation, cs: seq<Candidate>, os: seq<Occurrence>, o: Occurrence)
    requires os != [] && forall i :: 0 <= i < |os| ==> os[i].index < |cs|
    requires InScanOrder(os) && o in os && CompareOccurrences(rank, cs, Least(rank, cs, os), o) == 0
    ensures Least(rank, cs, os).index <= o.index
  {
    if |os| > 1 {
      var init, last := os[..|os| - 1], os[|os| - 1];
      assert os == init + [last];
      var best := Least(rank, cs, init);
      var b :| 0 <= b < |init| && init[b] == best;
      assert os[b].index <= os[|os| - 1].index;
      if o in init {
        LeastIsLeast(rank, cs, init, o);
        TieBreaks(rank, cs, last, best, o);
        if CompareOccurrences(rank, cs, last, best) >= 0 { TiesGoFirst(rank, cs, init, o); }
      }
    }
  }

  lemma TieBreaks(rank: Collation, cs: seq<Candidate>, a: Occurrence, b: Occurrence, c: Occurrence)
    requires a.index < |cs| && b.index < |cs| && c.index < |cs|
    ensures CompareOccurrences(rank, cs, a, b) < 0 && CompareOccurrences(rank, cs, b, c) <= 0 ==> CompareOccurrences(rank, cs, a, c) < 0
  {
  }

  lemma ComparedInPlainTerms(rank: Collation, cs: seq<Candidate>, a: Occurrence, b: Occurrence)
    requires a.index < |cs| && b.index < |cs| && CompareOccurrences(rank, cs, a, b) <= 0
    requires CompareOccurrences(rank, cs, a, b) == 0 ==> a.index <= b.index
    ensures ComesFirst(rank, cs[a.index], cs[b.index])
    ensures SameSpan(cs[a.index], cs[b.index]) && SameNames(rank, cs[a.index], cs[b.index]) ==>
              && (a.call.childFile.Some? ==> b.call.childFile.Some?)
              && (a.call.childFile.Some? == b.call.childFile.Some? ==> b.call.atMs <= a.call.atMs)
              && (a.call.childFile.Some? == b.call.childFile.Some? && b.call.atMs == a.call.atMs ==> a.index <= b.index)
  {
  }

  /** The winner is the first owner. */
  lemma WinnerOwnsFirst(rank: Collation, imported: Imported, cs: seq<Candidate>, id: string)
    requires Winner(rank, imported, cs, id).Some?
    ensures var w := Winner(rank, imported, cs, id).value; w.call.id == id && OwnsFirst(rank, imported, cs, w.index, w.call)
  {
    var w, os := Winner(rank, imported, cs, id).value, Offers(imported, cs, |cs|, id);
    assert forall k :: 0 <= k < |os| ==> os[k] in os;
    OffersInScanOrder(imported, cs, |cs|, id, os);
    assert MayClaim(imported, cs, w.index, w.call, id);
    forall j: nat, d | MayClaim(imported, cs, j, d, id)
      ensures ComesFirst(rank, cs[w.index], cs[j])
      ensures SameSpan(cs[w.index], cs[j]) && SameNames(rank, cs[w.index], cs[j]) ==>
                && (w.call.childFile.Some? ==> d.childFile.Some?)
                && (w.call.childFile.Some? == d.childFile.Some? ==> d.atMs <= w.call.atMs)
                && (w.call.childFile.Some? == d.childFile.Some? && d.atMs == w.call.atMs ==> w.index <= j)
    {
      var o := Occurrence(j, d);
      assert o in os;
      LeastIsLeast(rank, cs, os, o);
      if CompareOccurrences(rank, cs, w, o) == 0 { TiesGoFirst(rank, cs, os, o); }
      ComparedInPlainTerms(rank, cs, w, o);
    }
  }

  lemma WinnerIsEligible(rank: Collation, imported: Imported, cs: seq<Candidate>, id: string)
    requires Winner(rank, imported, cs, id).Some?
    ensures Eligible(imported, cs[Winner(rank, imported, cs, id).value.index], id)
  {
    var os := Offers(imported, cs, |cs|, id);
    assert forall k :: 0 <= k < |os| ==> os[k] in os;
  }

  lemma CompareIsAntisymmetric(a: OwnerKey, b: OwnerKey)
    requires Compare(a, b) <= 0 && Compare(b, a) <= 0
    ensures Compare(a, b) == 0
  {
  }

  // ----- the reconciliation as it runs --------------------------------------------------------------

  /** Messages in the order they are first seen. */
  function MessageIds(calls: seq<Call>, seen: seq<string>): seq<string> {
    if calls == [] then seen
    else
      var before := MessageIds(calls[..|calls| - 1], seen);
      if calls[|calls| - 1].id in before then before else before + [calls[|calls| - 1].id]
  }

  function ScannedIds(cs: seq<Candidate>, n: nat): seq<string>
    requires n <= |cs|
  {
    if n == 0 then [] else MessageIds(cs[n - 1].calls, ScannedIds(cs, n - 1))
  }

  function GivenTo(winner: Option<Occurrence>, index: nat): seq<Call> {
    if winner.Some? && winner.value.index == index then [winner.value.call] else []
  }

  function GivenBy(winners: seq<Option<Occurrence>>, index: nat): seq<Call> {
    if winners == [] then [] else GivenBy(winners[..|winners| - 1], index) + GivenTo(winners[|winners| - 1], index)
  }

  function Winners(rank: Collation, imported: Imported, cs: seq<Candidate>, ids: seq<string>): (winners: seq<Option<Occurrence>>)
    ensures |winners| == |ids| && forall i :: 0 <= i < |ids| ==> winners[i] == Winner(rank, imported, cs, ids[i])
  {
    seq(|ids|, i requires 0 <= i < |ids| => Winner(rank, imported, cs, ids[i]))
  }

  /** The calls a candidate ends up with, of the given messages. */
  function AssignedTo(rank: Collation, imported: Imported, cs: seq<Candidate>, ids: seq<string>, index: nat): seq<Call> {
    GivenBy(Winners(rank, imported, cs, ids), index)
  }

  method CollectIds(cs: seq<Candidate>) returns (ids: seq<string>)
    ensures ids == ScannedIds(cs, |cs|)
  {
    ids := [];
    for n := 0 to |cs|
      invariant ids == ScannedIds(cs, n)
    {
      var calls := cs[n].calls;
      ghost var before := ids;
      for i := 0 to |calls|
        invariant ids == MessageIds(calls[..i], before)
      {
        assert calls[..i + 1][..i] == calls[..i];
        if calls[i].id !in ids { ids := ids + [calls[i].id]; }
      }
      assert calls[..|calls|] == calls;
    }
  }

  /** Sorts the eligible occurrences and takes the first. */
  method FirstOf(rank: Collation, cs: seq<Candidate>, eligible: seq<Occurrence>) returns (best: Occurrence)
    requires eligible != [] && forall i :: 0 <= i < |eligible| ==> eligible[i].index < |cs|
    ensures best == Least(rank, cs, eligible)
  {
    best := eligible[0];
    for i := 1 to |eligible|
      invariant best == Least(rank, cs, eligible[..i])
    {
      assert eligible[..i + 1][..i] == eligible[..i];
      if CompareOccurrences(rank, cs, eligible[i], best) < 0 { best := eligible[i]; }
    }
    assert eligible[..|eligible|] == eligible;
  }

  method PickWinner(rank: Collation, imported: Imported, cs: seq<Candidate>, id: string) returns (winner: Option<Occurrence>)
    ensures winner == Winner(rank, imported, cs, id)
  {
    var eligible := Offers(imported, cs, |cs|, id);
    if eligible == [] { return None; }
    assert forall k :: 0 <= k < |eligible| ==> eligible[k] in eligible;
    var best := FirstOf(rank, cs, eligible);
    return Some(best);
  }

  method Give(given: seq<seq<Call>>, winner: Option<Occurrence>) returns (next: seq<seq<Call>>)
    requires winner.Some? ==> winner.value.index < |given|
    ensures |next| == |given| && forall i :: 0 <= i < |given| ==> next[i] == given[i] + GivenTo(winner, i)
  {
    next := given;
    if winner.Some? {
      var w := winner.value;
      next := given[w.index := given[w.index] + [w.call]];
    }
  }

  ghost predicate Gave(given: seq<seq<Call>>, winners: seq<Option<Occurrence>>, n: nat) {
    n <= |winners| && forall i :: 0 <= i < |given| ==> given[i] == GivenBy(winners[..n], i)
  }

  lemma GaveNext(given: seq<seq<Call>>, next: seq<seq<Call>>, winners: seq<Option<Occurrence>>, n: nat)
    requires n < |winners| && Gave(given, winners, n)
    requires |next| == |given| && forall i :: 0 <= i < |given| ==> next[i] == given[i] + GivenTo(winners[n], i)
    ensures Gave(next, winners, n + 1)
  {
    assert winners[..n + 1][..n] == winners[..n];
  }

  method GiveMessages(rank: Collation, imported: Imported, cs: seq<Candidate>, ids: seq<string>) returns (given: seq<seq<Call>>)
    ensures |given| == |cs|
    ensures forall i :: 0 <= i < |cs| ==> given[i] == AssignedTo(rank, imported, cs, ids, i)
  {
    ghost var winners := Winners(rank, imported, cs, ids);
    given := seq(|cs|, _ => []);
    for n := 0 to |ids|
      invariant |given| == |cs|
      invariant Gave(given, winners, n)
    {
      var winner := PickWinner(rank, imported, cs, ids[n]);
      var next := Give(given, winner);
      GaveNext(given, next, winners, n);
      given := next;
    }
    assert winners[..|ids|] == winners;
  }

  /** Every call a candidate is given it owns first, and it is given no message twice. */
  ghost predicate GivenToOwner(rank: Collation, imported: Imported, cs: seq<Candidate>, i: nat, given: seq<Call>) {
    && (forall c :: c in given ==> OwnsFirst(rank, imported, cs, i, c))
    && (forall a, b :: 0 <= a < b < |given| ==> given[a].id != given[b].id)
  }

  method ReconcileClaudeCallsGlobally(rank: Collation, imported: Imported, cs: seq<Candidate>) returns (given: seq<seq<Call>>)
    ensures |given| == |cs|
    ensures forall i :: 0 <= i < |cs| ==> given[i] == AssignedTo(rank, imported, cs, ScannedIds(cs, |cs|), i)
    ensures forall i :: 0 <= i < |cs| ==> GivenToOwner(rank, imported, cs, i, given[i])
  {
    var ids := CollectIds(cs);
    given := GiveMessages(rank, imported, cs, ids);
    forall i | 0 <= i < |cs| ensures GivenToOwner(rank, imported, cs, i, given[i]) { AssignedToOwner(rank, imported, cs, i); }
  }

  // ----- the assignment is a partition -----------------------------------------------------------------

  ghost predicate DistinctIds(ids: seq<string>) {
    forall i, j :: 0 <= i < j < |ids| ==> ids[i] != ids[j]
  }

  lemma {:induction false} MessageIdsAre(calls: seq<Call>, seen: seq<string>)
    requires DistinctIds(seen)
    ensures DistinctIds(MessageIds(calls, seen))
    ensures forall id :: id in MessageIds(calls, seen) <==> id in seen || exists c :: c in calls && c.id == id
  {
    if calls != [] {
      MessageIdsAre(calls[..|calls| - 1], seen);
      assert calls == calls[..|calls| - 1] + [calls[|calls| - 1]];
    }
  }

  ghost predicate OccursBefore(cs: seq<Candidate>, n: nat, id: string)
    requires n <= |cs|
  {
    exists i :: 0 <= i < n && exists c :: c in cs[i].calls && c.id == id
  }

  lemma {:induction false} ScannedIdsAre(cs: seq<Candidate>, n: nat)
    requires n <= |cs|
    ensures DistinctIds(ScannedIds(cs, n))
    ensures forall id :: id in ScannedIds(cs, n) <==> OccursBefore(cs, n, id)
  {
    if n > 0 {
      ScannedIdsAre(cs, n - 1);
      MessageIdsAre(cs[n - 1].calls, ScannedIds(cs, n - 1));
      forall id ensures OccursBefore(cs, n, id) <==> OccursBefore(cs, n - 1, id) || exists c :: c in cs[n - 1].calls && c.id == id {
        if i :| 0 <= i < n && exists c :: c in cs[i].calls && c.id == id {
          assert i < n - 1 || i == n - 1;
        }
      }
    }
  }

  lemma {:induction false} GivenAreWinners(winners: seq<Option<Occurrence>>, index: nat, c: Call)
    ensures c in GivenBy(winners, index) <==> Some(Occurrence(index, c)) in winners
  {
    if winners != [] {
      var init, last := winners[..|winners| - 1], winners[|winners| - 1];
      GivenAreWinners(init, index, c);
      assert winners == init + [last];
    }
  }

  lemma GivenOfOneMore(winners: seq<Option<Occurrence>>, last: Option<Occurrence>, index: nat)
    ensures GivenBy(winners + [last], index) == GivenBy(winners, index) + GivenTo(last, index)
  {
    assert (winners + [last])[..|winners|] == winners;
  }

  lemma WinnersOfOneMore(rank: Collation, imported: Imported, cs: seq<Candidate>, init: seq<string>, last: string)
    ensures Winners(rank, imported, cs, init + [last]) == Winners(rank, imported, cs, init) + [Winner(rank, imported, cs, last)]
  {
    var more, all := Winners(rank, imported, cs, init) + [Winner(rank, imported, cs, last)], Winners(rank, imported, cs, init + [last]);
    forall k | 0 <= k < |all| ensures all[k] == more[k] { assert k < |init| ==> (init + [last])[k] == init[k]; }
  }

  lemma AssignedOfOneMore(rank: Collation, imported: Imported, cs: seq<Candidate>, init: seq<string>, last: string, index: nat)
    ensures AssignedTo(rank, imported, cs, init + [last], index)
         == AssignedTo(rank, imported, cs, init, index) + GivenTo(Winner(rank, imported, cs, last), index)
  {
    WinnersOfOneMore(rank, imported, cs, init, last);
    GivenOfOneMore(Winners(rank, imported, cs, init), Winner(rank, imported, cs, last), index);
  }

  ghost predicate GivenOnce(given: seq<Call>, ids: seq<string>) {
    && (forall a :: 0 <= a < |given| ==> given[a].id in ids)
    && (forall a, b :: 0 <= a < b < |given| ==> given[a].id != given[b].id)
  }

  lemma OneMoreIsGivenOnce(before: seq<Call>, winner: Option<Occurrence>, index: nat, init: seq<string>, last: string)
    requires GivenOnce(before, init) && last !in init && (winner.Some? ==> winner.value.call.id == last)
    ensures GivenOnce(before + GivenTo(winner, index), init + [last])
  {
    var more := GivenTo(winner, index);
    assert last == (init + [last])[|init|];
    forall a | 0 <= a < |before + more| ensures (before + more)[a].id in init + [last] {
      if a < |before| { assert before[a].id in init; }
    }
  }

  /** No candidate is given a message twice. */
  lemma {:induction false} WinnersAreGivenOnce(rank: Collation, imported: Imported, cs: seq<Candidate>, ids: seq<string>, index: nat, given: seq<Call>)
    requires DistinctIds(ids) && given == AssignedTo(rank, imported, cs, ids, index)
    ensures GivenOnce(given, ids)
  {
    if ids != [] {
      var init, last := ids[..|ids| - 1], ids[|ids| - 1];
      assert ids == init + [last] && last !in init;
      WinnersAreGivenOnce(rank, imported, cs, init, index, AssignedTo(rank, imported, cs, init, index));
      AssignedOfOneMore(rank, imported, cs, init, last, index);
      OneMoreIsGivenOnce(AssignedTo(rank, imported, cs, init, index), Winner(rank, imported, cs, last), index, init, last);
    }
  }

  lemma AssignedToOwner(rank: Collation, imported: Imported, cs: seq<Candidate>, i: nat)
    requires i < |cs|
    ensures GivenToOwner(rank, imported, cs, i, AssignedTo(rank, imported, cs, ScannedIds(cs, |cs|), i))
  {
    var ids := ScannedIds(cs, |cs|);
    var given := AssignedTo(rank, imported, cs, ids, i);
    ScannedIdsAre(cs, |cs|);
    WinnersAreGivenOnce(rank, imported, cs, ids, i, given);
    forall c | c in given ensures OwnsFirst(rank, imported, cs, i, c) {
      AssignedAreWinners(rank, imported, cs, ids, i, c);
      WinnerOwnsFirst(rank, imported, cs, c.id);
    }
  }

  lemma AssignedAreWinners(rank: Collation, imported: Imported, cs: seq<Candidate>, ids: seq<string>, index: nat, c: Call)
    ensures c in AssignedTo(rank, imported, cs, ids, index)
       <==> c.id in ids && Winner(rank, imported, cs, c.id) == Some(Occurrence(index, c))
  {
    GivenAreWinners(Winners(rank, imported, cs, ids), index, c);
  }

  /** No message is assigned to two candidates, and each candidate gets only calls it has. */
  lemma AssignmentIsPartition(rank: Collation, imported: Imported, cs: seq<Candidate>, i: nat, j: nat, c: Call, d: Call)
    requires i < |cs| && j < |cs|
    requires c in AssignedTo(rank, imported, cs, ScannedIds(cs, |cs|), i) && d in AssignedTo(rank, imported, cs, ScannedIds(cs, |cs|), j)
    ensures c in cs[i].calls
    ensures c.id == d.id ==> i == j && c == d
  {
    AssignedAreWinners(rank, imported, cs, ScannedIds(cs, |cs|), i, c);
    AssignedAreWinners(rank, imported, cs, ScannedIds(cs, |cs|), j, d);
  }

  ghost predicate IsAssigned(rank: Collation, imported: Imported, cs: seq<Candidate>, ids: seq<string>, id: string) {
    exists i, c: Call :: 0 <= i < |cs| && c.id == id && c in AssignedTo(rank, imported, cs, ids, i)
  }

  lemma AssignedIfWon(rank: Collation, imported: Imported, cs: seq<Candidate>, ids: seq<string>, id: string)
    requires id in ids
    ensures IsAssigned(rank, imported, cs, ids, id) <==> Winner(rank, imported, cs, id).Some?
  {
    var w := Winner(rank, imported, cs, id);
    if w.Some? { AssignedAreWinners(rank, imported, cs, ids, w.value.index, w.value.call); }
    if i, c: Call :| 0 <= i < |cs| && c.id == id && c in AssignedTo(rank, imported, cs, ids, i) {
      AssignedAreWinners(rank, imported, cs, ids, i, c);
    }
  }

  /** A scanned message is assigned to some candidate unless it is owned outside the scan. */
  lemma MessageIsAssigned(rank: Collation, imported: Imported, cs: seq<Candidate>, id: string)
    requires Occurs(cs, id)
    ensures IsAssigned(rank, imported, cs, ScannedIds(cs, |cs|), id) <==> !OwnedOutside(imported, cs, id)
  {
    ScannedIdsAre(cs, |cs|);
    assert OccursBefore(cs, |cs|, id);
    MessagesArePartitioned(rank, imported, cs, id);
    AssignedIfWon(rank, imported, cs, ScannedIds(cs, |cs|), id);
  }
}
