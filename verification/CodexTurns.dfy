/**
 What a parsed Codex turn shows, said by the records alone: when it started and ended, which child threads and searches it
 lists, what it last reported, and where its increments come from.
 */
module CodexTurns {
  import opened Wrappers
  import opened Rollouts
  import opened CodexCounters

  /** The next record is read inside the turn. */
  ghost predicate IsCurrent(legacy: bool, rs: seq<Record>, k: nat) {
    InTurn(legacy, rs, |rs|) && Openers(legacy, rs) == k + 1
  }

  /** The record is read inside the turn: after its opener and before any later opener or task end. */
  ghost predicate ReadIn(legacy: bool, rs: seq<Record>, i: int, k: nat) {
    0 <= i < |rs| && InTurn(legacy, rs, i) && Openers(legacy, rs[..i]) == k + 1
  }

  lemma {:induction false} InTurnOfGrown(legacy: bool, rs: seq<Record>, r: Record, i: nat)
    requires i <= |rs|
    ensures InTurn(legacy, rs + [r], i) <==> InTurn(legacy, rs, i)
  {
    var rs' := rs + [r];
    if InTurn(legacy, rs, i) {
      var j :| 0 <= j < i && Opens(legacy, rs[j]) && forall k :: j < k < i ==> !rs[k].TaskEnded?;
      assert Opens(legacy, rs'[j]) && forall k :: j < k < i ==> !rs'[k].TaskEnded?;
    }
    if InTurn(legacy, rs', i) {
      var j :| 0 <= j < i && Opens(legacy, rs'[j]) && forall k :: j < k < i ==> !rs'[k].TaskEnded?;
      assert Opens(legacy, rs[j]) && forall k :: j < k < i ==> !rs[k].TaskEnded? by {
        forall k | j < k < i ensures !rs[k].TaskEnded? { assert !rs'[k].TaskEnded?; }
      }
    }
  }

  lemma ReadInGrown(legacy: bool, rs: seq<Record>, r: Record, i: int, k: nat)
    ensures ReadIn(legacy, rs + [r], i, k) <==> ReadIn(legacy, rs, i, k) || (i == |rs| && IsCurrent(legacy, rs, k))
  {
    if 0 <= i <= |rs| {
      InTurnOfGrown(legacy, rs, r, i);
      assert (rs + [r])[..i] == rs[..i];
      assert rs[..|rs|] == rs;
    }
  }

  // ----- lists ----------------------------------------------------------------------------------

  ghost predicate NamesChild(legacy: bool, rs: seq<Record>, k: nat, id: string) {
    exists i :: ReadIn(legacy, rs, i, k) && rs[i] == SubAgentStarted(id)
  }

  ghost predicate CompletesSearch(legacy: bool, rs: seq<Record>, k: nat, id: string) {
    exists i :: ReadIn(legacy, rs, i, k) && rs[i].WebSearch? && rs[i].completedId == Some(id)
  }

  lemma NamesChildGrown(legacy: bool, rs: seq<Record>, r: Record, k: nat, id: string)
    ensures NamesChild(legacy, rs + [r], k, id) <==> NamesChild(legacy, rs, k, id) || (IsCurrent(legacy, rs, k) && r == SubAgentStarted(id))
  {
    var rs' := rs + [r];
    forall i ensures ReadIn(legacy, rs', i, k) <==> ReadIn(legacy, rs, i, k) || (i == |rs| && IsCurrent(legacy, rs, k)) { ReadInGrown(legacy, rs, r, i, k); }
    if i :| ReadIn(legacy, rs, i, k) && rs[i] == SubAgentStarted(id) { assert rs'[i] == rs[i]; }
    if IsCurrent(legacy, rs, k) && r == SubAgentStarted(id) { assert rs'[|rs|] == r; }
  }

  lemma CompletesSearchGrown(legacy: bool, rs: seq<Record>, r: Record, k: nat, id: string)
    ensures CompletesSearch(legacy, rs + [r], k, id) <==>
              CompletesSearch(legacy, rs, k, id) || (IsCurrent(legacy, rs, k) && r.WebSearch? && r.completedId == Some(id))
  {
    var rs' := rs + [r];
    forall i ensures ReadIn(legacy, rs', i, k) <==> ReadIn(legacy, rs, i, k) || (i == |rs| && IsCurrent(legacy, rs, k)) { ReadInGrown(legacy, rs, r, i, k); }
    if i :| ReadIn(legacy, rs, i, k) && rs[i].WebSearch? && rs[i].completedId == Some(id) { assert rs'[i] == rs[i]; }
    if IsCurrent(legacy, rs, k) && r.WebSearch? && r.completedId == Some(id) { assert rs'[|rs|] == r; }
  }

  // ----- the last report --------------------------------------------------------------------------

  /** A counter record of the turn that carries a usage of its own. */
  ghost predicate Reports(legacy: bool, rs: seq<Record>, i: int, k: nat) {
    ReadIn(legacy, rs, i, k) && rs[i].TokenCount? && rs[i].total.Some? && rs[i].last.Some?
  }

  ghost predicate ReportsLast(legacy: bool, rs: seq<Record>, i: int, k: nat) {
    Reports(legacy, rs, i, k) && forall j :: Reports(legacy, rs, j, k) ==> j <= i
  }

  /** The record reports this usage, and the context it filled comes last. */
  predicate ReportIs(r: Record, usage: Usage, contexts: seq<Context>) {
    && r.TokenCount? && r.last == Some(usage) && contexts != []
    && contexts[|contexts| - 1] == Context(r.atMs, usage.input + usage.cacheRead + usage.cacheCreation,
                                           if r.window == Some(0) then None else r.window)
  }

  /** The turn's last reported usage, and the context it filled. */
  ghost predicate ShowsReport(legacy: bool, rs: seq<Record>, k: nat, usage: Usage, contexts: seq<Context>) {
    if exists i :: Reports(legacy, rs, i, k) then exists i :: ReportsLast(legacy, rs, i, k) && ReportIs(rs[i], usage, contexts)
    else usage == NO_USAGE && contexts == []
  }

  lemma ReportsGrown(legacy: bool, rs: seq<Record>, r: Record, i: int, k: nat)
    ensures Reports(legacy, rs + [r], i, k) <==>
              Reports(legacy, rs, i, k) || (i == |rs| && IsCurrent(legacy, rs, k) && r.TokenCount? && r.total.Some? && r.last.Some?)
  {
    ReadInGrown(legacy, rs, r, i, k);
  }

  lemma ReportStays(legacy: bool, rs: seq<Record>, r: Record, k: nat, usage: Usage, contexts: seq<Context>)
    requires ShowsReport(legacy, rs, k, usage, contexts)
    requires !(IsCurrent(legacy, rs, k) && r.TokenCount? && r.total.Some? && r.last.Some?)
    ensures ShowsReport(legacy, rs + [r], k, usage, contexts)
  {
    var rs' := rs + [r];
    forall i ensures Reports(legacy, rs', i, k) <==> Reports(legacy, rs, i, k) { ReportsGrown(legacy, rs, r, i, k); }
    if i :| ReportsLast(legacy, rs, i, k) && ReportIs(rs[i], usage, contexts) {
      assert rs'[i] == rs[i] && ReportsLast(legacy, rs', i, k);
    }
  }

  lemma ReportIsNew(legacy: bool, rs: seq<Record>, r: Record, k: nat, contexts: seq<Context>)
    requires IsCurrent(legacy, rs, k) && r.TokenCount? && r.total.Some? && r.last.Some?
    ensures var u := r.last.value; var window := if r.window == Some(0) then None else r.window;
            ShowsReport(legacy, rs + [r], k, u, contexts + [Context(r.atMs, u.input + u.cacheRead + u.cacheCreation, window)])
  {
    var rs' := rs + [r];
    forall i ensures Reports(legacy, rs', i, k) <==> Reports(legacy, rs, i, k) || i == |rs| { ReportsGrown(legacy, rs, r, i, k); }
    assert rs'[|rs|] == r && ReportsLast(legacy, rs', |rs|, k);
  }

  // ----- increments -------------------------------------------------------------------------------

  /** The last model set before the record. */
  ghost predicate IsModelAt(rs: seq<Record>, i: nat, model: Option<string>)
    requires i <= |rs|
  {
    match model
    case None => forall j :: 0 <= j < i && rs[j].TurnContext? ==> rs[j].model.None?
    case Some(m) => exists j :: 0 <= j < i && SetsModel(rs, j, i, m)
  }

  ghost predicate SetsModel(rs: seq<Record>, j: int, i: int, m: string)
    requires 0 <= j < i <= |rs|
  {
    rs[j] == TurnContext(Some(m)) && forall l :: j < l < i && rs[l].TurnContext? ==> rs[l].model.None?
  }

  /** The increment was taken at a counter record of the turn, under the model set then. */
  ghost predicate IsTaken(legacy: bool, rs: seq<Record>, k: nat, inc: Increment) {
    inc.usage.Positive() && exists i: nat :: i < |rs| && ReadIn(legacy, rs, i, k) && rs[i].TokenCount? && rs[i].total.Some?
                                       && inc.atMs == rs[i].atMs && IsModelAt(rs, i, inc.model)
  }

  lemma ModelAtGrown(rs: seq<Record>, r: Record, i: nat, model: Option<string>)
    requires i <= |rs|
    ensures IsModelAt(rs + [r], i, model) <==> IsModelAt(rs, i, model)
  {
    var rs' := rs + [r];
    assert forall j :: 0 <= j < i ==> rs'[j] == rs[j];
    if model.Some? {
      forall j | 0 <= j < i ensures SetsModel(rs', j, i, model.value) <==> SetsModel(rs, j, i, model.value) {}
    }
  }

  lemma ModelAfter(rs: seq<Record>, r: Record, model: Option<string>)
    requires IsModelAt(rs, |rs|, model)
    ensures IsModelAt(rs + [r], |rs| + 1, if r.TurnContext? && r.model.Some? then r.model else model)
  {
    var rs' := rs + [r];
    assert forall j :: 0 <= j < |rs| ==> rs'[j] == rs[j];
    if r.TurnContext? && r.model.Some? {
      assert SetsModel(rs', |rs|, |rs| + 1, r.model.value);
    } else if model.Some? {
      var j :| 0 <= j < |rs| && SetsModel(rs, j, |rs|, model.value);
      assert SetsModel(rs', j, |rs| + 1, model.value);
    }
  }

  lemma TakenStays(legacy: bool, rs: seq<Record>, r: Record, k: nat, inc: Increment)
    requires IsTaken(legacy, rs, k, inc)
    ensures IsTaken(legacy, rs + [r], k, inc)
  {
    var i: nat :| i < |rs| && ReadIn(legacy, rs, i, k) && rs[i].TokenCount? && rs[i].total.Some? && inc.atMs == rs[i].atMs && IsModelAt(rs, i, inc.model);
    ReadInGrown(legacy, rs, r, i, k);
    ModelAtGrown(rs, r, i, inc.model);
    assert (rs + [r])[i] == rs[i];
  }

  lemma TakenNow(legacy: bool, rs: seq<Record>, r: Record, k: nat, inc: Increment)
    requires IsCurrent(legacy, rs, k) && r.TokenCount? && r.total.Some? && inc.usage.Positive() && inc.atMs == r.atMs && IsModelAt(rs, |rs|, inc.model)
    ensures IsTaken(legacy, rs + [r], k, inc)
  {
    ReadInGrown(legacy, rs, r, |rs|, k);
    ModelAtGrown(rs, r, |rs|, inc.model);
    assert (rs + [r])[|rs|] == r;
  }

  // ----- start ------------------------------------------------------------------------------------

  /** The turn's opener: the record before which as many turns were opened as come before this one. */
  ghost predicate IsOpener(legacy: bool, rs: seq<Record>, j: int, k: nat) {
    0 <= j < |rs| && Opens(legacy, rs[j]) && Openers(legacy, rs[..j]) == k
  }

  /** A task starts at its own time in seconds, or when it was recorded; a user message when it was recorded, or with the rollout. */
  ghost predicate ShowsStart(legacy: bool, createdAtMs: int, rs: seq<Record>, k: nat, id: TurnId, startedAtMs: int) {
    exists j :: IsOpener(legacy, rs, j, k) && StartsAs(createdAtMs, rs[j], k, id, startedAtMs)
  }

  predicate StartsAs(createdAtMs: int, r: Record, k: nat, id: TurnId, startedAtMs: int) {
    match r
    case TaskStarted(atMs, seconds, turnId) =>
      && startedAtMs == (if seconds > 0 then 1000 * seconds else atMs)
      && id == (match turnId case Some(x) => Given(x) case None => Numbered(k + 1))
    case UserMessage(atMs) => startedAtMs == (if atMs == 0 then createdAtMs else atMs) && id == LegacyId(startedAtMs, k + 1)
    case _ => false
  }

  lemma StartStays(legacy: bool, createdAtMs: int, rs: seq<Record>, r: Record, k: nat, id: TurnId, startedAtMs: int)
    requires ShowsStart(legacy, createdAtMs, rs, k, id, startedAtMs)
    ensures ShowsStart(legacy, createdAtMs, rs + [r], k, id, startedAtMs)
  {
    var j :| IsOpener(legacy, rs, j, k) && StartsAs(createdAtMs, rs[j], k, id, startedAtMs);
    assert (rs + [r])[j] == rs[j] && (rs + [r])[..j] == rs[..j];
  }

  lemma StartIsNew(legacy: bool, createdAtMs: int, rs: seq<Record>, r: Record, k: nat, id: TurnId, startedAtMs: int)
    requires Opens(legacy, r) && Openers(legacy, rs) == k && StartsAs(createdAtMs, r, k, id, startedAtMs)
    ensures ShowsStart(legacy, createdAtMs, rs + [r], k, id, startedAtMs)
  {
    assert (rs + [r])[|rs|] == r && (rs + [r])[..|rs|] == rs;
  }

  // ----- all of it ----------------------------------------------------------------------------------

  ghost predicate Shows(legacy: bool, createdAtMs: int, rs: seq<Record>, k: nat, t: ParsedTurn) {
    && ShowsStart(legacy, createdAtMs, rs, k, t.id, t.startedAtMs)
    && (forall id :: id in t.childIds <==> NamesChild(legacy, rs, k, id))
    && (forall id :: id in t.webSearchIds <==> CompletesSearch(legacy, rs, k, id))
    && ShowsReport(legacy, rs, k, t.legacyUsage, t.contexts)
    && (forall inc :: inc in t.increments ==> IsTaken(legacy, rs, k, inc))
  }

  /** The turn after the next record. */
  ghost predicate Follows(r: Record, current: bool, model: Option<string>, t: ParsedTurn, t': ParsedTurn) {
    && t'.id == t.id && t'.startedAtMs == t.startedAtMs
    && t'.childIds == (if current && r.SubAgentStarted? then t.childIds + {r.thread} else t.childIds)
    && t'.webSearchIds == (if current && r.WebSearch? && r.completedId.Some? then t.webSearchIds + {r.completedId.value} else t.webSearchIds)
    && (if current && r.TokenCount? && r.total.Some? then
          && (if r.last.Some? then
                t'.legacyUsage == r.last.value
                && t'.contexts == t.contexts + [Context(r.atMs, ContextTokens(r.last.value), if r.window == Some(0) then None else r.window)]
              else t'.legacyUsage == t.legacyUsage && t'.contexts == t.contexts)
          && (t'.increments == t.increments
              || exists u: Usage :: u.Positive() && t'.increments == t.increments + [Increment(r.atMs, u, model)])
        else t'.legacyUsage == t.legacyUsage && t'.contexts == t.contexts && t'.increments == t.increments)
  }

  lemma ListsFollow(legacy: bool, rs: seq<Record>, r: Record, k: nat, model: Option<string>, t: ParsedTurn, t': ParsedTurn)
    requires Follows(r, IsCurrent(legacy, rs, k), model, t, t')
    requires forall id :: id in t.childIds <==> NamesChild(legacy, rs, k, id)
    requires forall id :: id in t.webSearchIds <==> CompletesSearch(legacy, rs, k, id)
    ensures forall id :: id in t'.childIds <==> NamesChild(legacy, rs + [r], k, id)
    ensures forall id :: id in t'.webSearchIds <==> CompletesSearch(legacy, rs + [r], k, id)
  {
    forall id ensures id in t'.childIds <==> NamesChild(legacy, rs + [r], k, id) { NamesChildGrown(legacy, rs, r, k, id); }
    forall id ensures id in t'.webSearchIds <==> CompletesSearch(legacy, rs + [r], k, id) { CompletesSearchGrown(legacy, rs, r, k, id); }
  }

  lemma CountsFollow(legacy: bool, rs: seq<Record>, r: Record, k: nat, model: Option<string>, t: ParsedTurn, t': ParsedTurn)
    requires Follows(r, IsCurrent(legacy, rs, k), model, t, t') && IsModelAt(rs, |rs|, model)
    requires ShowsReport(legacy, rs, k, t.legacyUsage, t.contexts) && forall inc :: inc in t.increments ==> IsTaken(legacy, rs, k, inc)
    ensures ShowsReport(legacy, rs + [r], k, t'.legacyUsage, t'.contexts)
    ensures forall inc :: inc in t'.increments ==> IsTaken(legacy, rs + [r], k, inc)
  {
    if IsCurrent(legacy, rs, k) && r.TokenCount? && r.total.Some? && r.last.Some? {
      ReportIsNew(legacy, rs, r, k, t.contexts);
    } else {
      ReportStays(legacy, rs, r, k, t.legacyUsage, t.contexts);
    }
    forall inc | inc in t'.increments ensures IsTaken(legacy, rs + [r], k, inc) {
      if inc in t.increments {
        TakenStays(legacy, rs, r, k, inc);
      } else {
        TakenNow(legacy, rs, r, k, inc);
      }
    }
  }

  lemma ShowsFollows(legacy: bool, createdAtMs: int, rs: seq<Record>, r: Record, k: nat, model: Option<string>, t: ParsedTurn, t': ParsedTurn)
    requires Shows(legacy, createdAtMs, rs, k, t) && Follows(r, IsCurrent(legacy, rs, k), model, t, t') && IsModelAt(rs, |rs|, model)
    ensures Shows(legacy, createdAtMs, rs + [r], k, t')
  {
    StartStays(legacy, createdAtMs, rs, r, k, t.id, t.startedAtMs);
    ListsFollow(legacy, rs, r, k, model, t, t');
    CountsFollow(legacy, rs, r, k, model, t, t');
  }

  lemma {:induction false} NothingReadYet(legacy: bool, rs: seq<Record>, i: int, k: nat)
    requires Openers(legacy, rs) <= k
    ensures !ReadIn(legacy, rs, i, k)
  {
    if 0 <= i < |rs| { OpenersGrow(legacy, rs, i); }
  }

  lemma {:induction false} OpenersGrow(legacy: bool, rs: seq<Record>, i: nat)
    requires i <= |rs|
    ensures Openers(legacy, rs[..i]) <= Openers(legacy, rs)
  {
    if i == |rs| {
      assert rs[..i] == rs;
    } else {
      OpenersGrow(legacy, rs[..|rs| - 1], i);
      assert rs[..|rs| - 1][..i] == rs[..i];
    }
  }

  /** A turn that was just opened. */
  lemma OpenedShows(legacy: bool, createdAtMs: int, rs: seq<Record>, r: Record, k: nat, id: TurnId, startedAtMs: int)
    requires Opens(legacy, r) && Openers(legacy, rs) == k && StartsAs(createdAtMs, r, k, id, startedAtMs)
    ensures Shows(legacy, createdAtMs, rs + [r], k, NewTurn(id, startedAtMs))
  {
    StartIsNew(legacy, createdAtMs, rs, r, k, id, startedAtMs);
    forall i ensures !ReadIn(legacy, rs + [r], i, k) {
      ReadInGrown(legacy, rs, r, i, k);
      NothingReadYet(legacy, rs, i, k);
    }
  }

  lemma InTurnFollows(p: Parser, r: Record, k: nat)
    requires p.inTurn && p.turns != [] && !r.TaskStarted? && !r.TurnContext? && k < |p.turns|
    ensures var p' := InTurnStep(p, r);
            |p'.turns| == |p.turns| && p'.model == p.model && Follows(r, k == |p.turns| - 1, p.model, p.turns[k], p'.turns[k])
  {
  }

  /** One record of the fold: every turn follows, and an opener adds one. */
  lemma StepFollows(legacy: bool, createdAtMs: int, p: Parser, r: Record, k: nat)
    requires p.inTurn ==> p.turns != []
    requires k < |p.turns|
    ensures var p' := Step(legacy, createdAtMs, p, r);
            && k < |p'.turns| && Follows(r, p.inTurn && k == |p.turns| - 1, p.model, p.turns[k], p'.turns[k])
  {
    if legacy && r.UserMessage? {
    } else if p.inTurn && !r.TaskStarted? && !r.TurnContext? {
      InTurnFollows(Note(legacy, p, r), r, k);
    }
  }

  lemma StepOpens(legacy: bool, createdAtMs: int, p: Parser, r: Record)
    requires p.inTurn ==> p.turns != []
    ensures var p' := Step(legacy, createdAtMs, p, r);
            && p'.model == (if r.TurnContext? && r.model.Some? then r.model else p.model)
            && |p'.turns| == |p.turns| + (if Opens(legacy, r) then 1 else 0)
            && (Opens(legacy, r) ==> exists id, at :: StartsAs(createdAtMs, r, |p.turns|, id, at) && p'.turns[|p.turns|] == NewTurn(id, at))
  {
    if legacy && r.UserMessage? {
      var at := OrElse(r.atMs, createdAtMs);
      assert StartsAs(createdAtMs, r, |p.turns|, LegacyId(at, |p.turns| + 1), at);
    } else if r.TaskStarted? {
      var id := if r.turnId.Some? then Given(r.turnId.value) else Numbered(|p.turns| + 1);
      var at := if r.startedSeconds > 0 then r.startedSeconds * 1000 else r.atMs;
      assert StartsAs(createdAtMs, r, |p.turns|, id, at);
    }
  }

  lemma {:induction false} FoldShows(legacy: bool, createdAtMs: int, rs: seq<Record>)
    ensures var p := Fold(legacy, createdAtMs, rs);
            && |p.turns| == Openers(legacy, rs) && IsModelAt(rs, |rs|, p.model)
            && forall k: nat :: k < |p.turns| ==> Shows(legacy, createdAtMs, rs, k, p.turns[k])
  {
    if rs != [] {
      var init, r := rs[..|rs| - 1], rs[|rs| - 1];
      assert rs == init + [r];
      FoldShows(legacy, createdAtMs, init);
      FoldAgrees(legacy, createdAtMs, init);
      var p, p' := Fold(legacy, createdAtMs, init), Fold(legacy, createdAtMs, rs);
      StepOpens(legacy, createdAtMs, p, r);
      ModelAfter(init, r, p.model);
      forall k: nat | k < |p'.turns| ensures Shows(legacy, createdAtMs, rs, k, p'.turns[k]) {
        if k < |p.turns| {
          StepFollows(legacy, createdAtMs, p, r, k);
          ShowsFollows(legacy, createdAtMs, init, r, k, p.model, p.turns[k], p'.turns[k]);
        } else {
          var id, at :| StartsAs(createdAtMs, r, |p.turns|, id, at) && p'.turns[|p.turns|] == NewTurn(id, at);
          OpenedShows(legacy, createdAtMs, init, r, k, id, at);
        }
      }
    }
  }

  // ----- ends ---------------------------------------------------------------------------------------

  ghost predicate EndsAt(legacy: bool, rs: seq<Record>, i: int, k: nat) {
    ReadIn(legacy, rs, i, k) && rs[i].TaskEnded?
  }

  predicate EndIs(r: Record, terminal: Terminal, endedAtMs: Option<int>) {
    && r.TaskEnded? && terminal == (if r.completed then Completed else Aborted)
    && endedAtMs == Some(if r.completedSeconds > 0 then 1000 * r.completedSeconds else r.atMs)
  }

  /** A turn is over exactly if a task end was read in it, completed or aborted as that one says, at its own time in
      seconds or when it was recorded. */
  ghost predicate ShowsEnd(legacy: bool, rs: seq<Record>, k: nat, terminal: Terminal, endedAtMs: Option<int>) {
    if exists i :: EndsAt(legacy, rs, i, k) then exists i :: EndsAt(legacy, rs, i, k) && EndIs(rs[i], terminal, endedAtMs)
    else terminal == Open && endedAtMs == None
  }

  lemma EndsAtGrown(legacy: bool, rs: seq<Record>, r: Record, i: int, k: nat)
    ensures EndsAt(legacy, rs + [r], i, k) <==> EndsAt(legacy, rs, i, k) || (i == |rs| && IsCurrent(legacy, rs, k) && r.TaskEnded?)
  {
    ReadInGrown(legacy, rs, r, i, k);
  }

  lemma EndFollows(rs: seq<Record>, r: Record, k: nat, t: ParsedTurn, t': ParsedTurn)
    requires ShowsEnd(false, rs, k, t.terminal, t.endedAtMs)
    requires if IsCurrent(false, rs, k) && r.TaskEnded? then t' == EndTurn(t, r) else t'.terminal == t.terminal && t'.endedAtMs == t.endedAtMs
    ensures ShowsEnd(false, rs + [r], k, t'.terminal, t'.endedAtMs)
  {
    var rs' := rs + [r];
    forall i ensures EndsAt(false, rs', i, k) <==> EndsAt(false, rs, i, k) || (i == |rs| && IsCurrent(false, rs, k) && r.TaskEnded?) {
      EndsAtGrown(false, rs, r, i, k);
    }
    if IsCurrent(false, rs, k) && r.TaskEnded? {
      assert EndsAt(false, rs', |rs|, k) && EndIs(rs'[|rs|], t'.terminal, t'.endedAtMs);
    } else if exists i :: EndsAt(false, rs, i, k) {
      var i :| EndsAt(false, rs, i, k) && EndIs(rs[i], t.terminal, t.endedAtMs);
      assert EndsAt(false, rs', i, k) && rs'[i] == rs[i];
    }
  }

  lemma StepEnds(createdAtMs: int, p: Parser, r: Record, k: nat)
    requires (p.inTurn ==> p.turns != []) && k < |p.turns|
    ensures var p' := Step(false, createdAtMs, p, r);
            && k < |p'.turns|
            && if p.inTurn && k == |p.turns| - 1 && r.TaskEnded? then p'.turns[k] == EndTurn(p.turns[k], r)
               else p'.turns[k].terminal == p.turns[k].terminal && p'.turns[k].endedAtMs == p.turns[k].endedAtMs
  {
  }

  lemma OpenedIsOpen(rs: seq<Record>, r: Record, k: nat)
    requires Openers(false, rs) <= k && r.TaskStarted?
    ensures ShowsEnd(false, rs + [r], k, Open, None)
  {
    forall i ensures !EndsAt(false, rs + [r], i, k) {
      EndsAtGrown(false, rs, r, i, k);
      NothingReadYet(false, rs, i, k);
    }
  }

  lemma {:induction false} FoldEnds(createdAtMs: int, rs: seq<Record>)
    ensures forall k: nat :: k < |Fold(false, createdAtMs, rs).turns| ==>
              ShowsEnd(false, rs, k, Fold(false, createdAtMs, rs).turns[k].terminal, Fold(false, createdAtMs, rs).turns[k].endedAtMs)
  {
    if rs != [] {
      var init, r := rs[..|rs| - 1], rs[|rs| - 1];
      assert rs == init + [r];
      FoldEnds(createdAtMs, init);
      FoldAgrees(false, createdAtMs, init);
      var p, p' := Fold(false, createdAtMs, init), Fold(false, createdAtMs, rs);
      StepOpens(false, createdAtMs, p, r);
      forall k: nat | k < |p'.turns| ensures ShowsEnd(false, rs, k, p'.turns[k].terminal, p'.turns[k].endedAtMs) {
        if k < |p.turns| {
          StepEnds(createdAtMs, p, r, k);
          EndFollows(init, r, k, p.turns[k], p'.turns[k]);
        } else {
          OpenedIsOpen(init, r, k);
        }
      }
    }
  }

  // ----- ends of legacy turns -------------------------------------------------------------------------

  /** The agent answered in the turn. */
  ghost predicate IsAnswered(rs: seq<Record>, k: nat) {
    exists i :: ReadIn(true, rs, i, k) && rs[i].AgentMessage?
  }

  /** The time of the turn's last response evidence, or of its start. */
  ghost predicate IsLatest(rs: seq<Record>, k: nat, startedAtMs: int, at: int) {
    && at >= startedAtMs && (forall i :: ReadIn(true, rs, i, k) && IsEvidence(rs[i]) ==> at >= rs[i].atMs)
    && (at == startedAtMs || exists i :: ReadIn(true, rs, i, k) && IsEvidence(rs[i]) && at == rs[i].atMs)
  }

  /** A legacy turn is completed exactly if the agent answered, and then ends with its last response evidence. */
  ghost predicate ShowsLegacyEnd(rs: seq<Record>, k: nat, t: ParsedTurn) {
    if IsAnswered(rs, k) then t.terminal == Completed && t.endedAtMs.Some? && IsLatest(rs, k, t.startedAtMs, t.endedAtMs.value)
    else t.terminal == Open && t.endedAtMs == None
  }

  /** A rollout without task records. */
  predicate NoTasks(rs: seq<Record>) {
    forall i :: 0 <= i < |rs| ==> !rs[i].TaskStarted? && !rs[i].TaskEnded?
  }

  lemma AnsweredGrown(rs: seq<Record>, r: Record, k: nat)
    ensures IsAnswered(rs + [r], k) <==> IsAnswered(rs, k) || (IsCurrent(true, rs, k) && r.AgentMessage?)
  {
    var rs' := rs + [r];
    forall i ensures ReadIn(true, rs', i, k) <==> ReadIn(true, rs, i, k) || (i == |rs| && IsCurrent(true, rs, k)) { ReadInGrown(true, rs, r, i, k); }
    if i :| ReadIn(true, rs, i, k) && rs[i].AgentMessage? { assert rs'[i] == rs[i]; }
    if IsCurrent(true, rs, k) && r.AgentMessage? { assert rs'[|rs|] == r; }
  }

  lemma LatestGrown(rs: seq<Record>, r: Record, k: nat, startedAtMs: int, at: int)
    requires IsLatest(rs, k, startedAtMs, at)
    ensures IsLatest(rs + [r], k, startedAtMs, if IsCurrent(true, rs, k) && IsEvidence(r) then Max(at, r.atMs) else at)
  {
    var rs' := rs + [r];
    forall i ensures ReadIn(true, rs', i, k) <==> ReadIn(true, rs, i, k) || (i == |rs| && IsCurrent(true, rs, k)) { ReadInGrown(true, rs, r, i, k); }
    if i :| ReadIn(true, rs, i, k) && IsEvidence(rs[i]) && at == rs[i].atMs { assert rs'[i] == rs[i]; }
    if IsCurrent(true, rs, k) && IsEvidence(r) { assert rs'[|rs|] == r; }
  }

  lemma LegacyEndStays(rs: seq<Record>, r: Record, k: nat, t: ParsedTurn)
    requires ShowsLegacyEnd(rs, k, t) && !IsCurrent(true, rs, k)
    ensures ShowsLegacyEnd(rs + [r], k, t)
  {
    AnsweredGrown(rs, r, k);
    if IsAnswered(rs, k) { LatestGrown(rs, r, k, t.startedAtMs, t.endedAtMs.value); }
  }

  /** The turn that is being read. */
  ghost predicate ReadsLegacy(rs: seq<Record>, k: nat, t: ParsedTurn, answered: bool, lastEventAtMs: int) {
    t.terminal == Open && t.endedAtMs == None && (answered <==> IsAnswered(rs, k)) && IsLatest(rs, k, t.startedAtMs, lastEventAtMs)
  }

  ghost predicate LegacySound(rs: seq<Record>, p: Parser) {
    && (p.inTurn <==> p.turns != []) && (!p.inTurn ==> !p.sawAgentMessage)
    && (forall k: nat :: k < |p.turns| - 1 ==> ShowsLegacyEnd(rs, k, p.turns[k]))
    && (p.turns != [] ==> ReadsLegacy(rs, |p.turns| - 1, p.turns[|p.turns| - 1], p.sawAgentMessage, p.lastEventAtMs))
  }

  lemma FinishIsLegacyEnd(rs: seq<Record>, k: nat, t: ParsedTurn, answered: bool, lastEventAtMs: int)
    requires ReadsLegacy(rs, k, t, answered, lastEventAtMs)
    ensures ShowsLegacyEnd(rs, k, if answered then t.(endedAtMs := Some(Max(t.startedAtMs, lastEventAtMs)), terminal := Completed) else t)
  {
  }

  lemma AllFinished(rs: seq<Record>, p: Parser)
    requires LegacySound(rs, p)
    ensures |FinishLegacy(p).turns| == |p.turns| && forall k: nat :: k < |p.turns| ==> ShowsLegacyEnd(rs, k, FinishLegacy(p).turns[k])
  {
    if p.turns != [] { FinishIsLegacyEnd(rs, |p.turns| - 1, p.turns[|p.turns| - 1], p.sawAgentMessage, p.lastEventAtMs); }
  }

  lemma JustOpened(rs: seq<Record>, r: Record, k: nat, id: TurnId, at: int)
    requires Openers(true, rs) <= k && r.UserMessage?
    ensures ReadsLegacy(rs + [r], k, NewTurn(id, at), false, at)
  {
    forall i ensures !ReadIn(true, rs + [r], i, k) {
      ReadInGrown(true, rs, r, i, k);
      NothingReadYet(true, rs, i, k);
    }
  }

  lemma LegacyOpens(createdAtMs: int, rs: seq<Record>, r: Record, p: Parser)
    requires LegacySound(rs, p) && r.UserMessage? && |p.turns| == Openers(true, rs)
    ensures LegacySound(rs + [r], Step(true, createdAtMs, p, r))
  {
    var p' := Step(true, createdAtMs, p, r);
    var n := |p.turns|;
    AllFinished(rs, p);
    JustOpened(rs, r, n, p'.turns[n].id, p'.turns[n].startedAtMs);
    forall k: nat | k < n ensures ShowsLegacyEnd(rs + [r], k, p'.turns[k]) {
      assert p'.turns[k] == FinishLegacy(p).turns[k];
      FinishedStays(rs, r, k, p'.turns[k]);
    }
  }

  /** The record that opens the next turn changes nothing about how the turns before it ended. */
  lemma FinishedStays(rs: seq<Record>, r: Record, k: nat, t: ParsedTurn)
    requires ShowsLegacyEnd(rs, k, t) && r.UserMessage?
    ensures ShowsLegacyEnd(rs + [r], k, t)
  {
    AnsweredGrown(rs, r, k);
    if IsAnswered(rs, k) { LatestGrown(rs, r, k, t.startedAtMs, t.endedAtMs.value); }
  }

  lemma ReadingGoesOn(rs: seq<Record>, r: Record, k: nat, t: ParsedTurn, t': ParsedTurn, answered: bool, lastEventAtMs: int)
    requires ReadsLegacy(rs, k, t, answered, lastEventAtMs) && IsCurrent(true, rs, k)
    requires t'.terminal == t.terminal && t'.endedAtMs == t.endedAtMs && t'.startedAtMs == t.startedAtMs
    ensures ReadsLegacy(rs + [r], k, t', answered || r.AgentMessage?, if IsEvidence(r) then Max(lastEventAtMs, r.atMs) else lastEventAtMs)
  {
    AnsweredGrown(rs, r, k);
    LatestGrown(rs, r, k, t.startedAtMs, lastEventAtMs);
  }

  /** What a record that is no user message does to the parser of a rollout without task records. */
  ghost predicate LegacyStepped(p: Parser, r: Record, p': Parser) {
    && p'.inTurn == p.inTurn && |p'.turns| == |p.turns|
    && p'.sawAgentMessage == (p.sawAgentMessage || (p.inTurn && r.AgentMessage?))
    && p'.lastEventAtMs == (if p.inTurn && IsEvidence(r) then Max(p.lastEventAtMs, r.atMs) else p.lastEventAtMs)
    && (forall k :: 0 <= k < |p.turns| - 1 ==> p'.turns[k] == p.turns[k])
    && (p.turns != [] ==>
          var k := |p.turns| - 1;
          p'.turns[k].terminal == p.turns[k].terminal && p'.turns[k].endedAtMs == p.turns[k].endedAtMs
          && p'.turns[k].startedAtMs == p.turns[k].startedAtMs)
  }

  lemma LegacyReads(rs: seq<Record>, r: Record, p: Parser, p': Parser)
    requires LegacySound(rs, p) && LegacyStepped(p, r, p')
    requires forall k: nat :: IsCurrent(true, rs, k) <==> p.inTurn && k == |p.turns| - 1
    ensures LegacySound(rs + [r], p')
  {
    forall k: nat | k < |p.turns| - 1 ensures ShowsLegacyEnd(rs + [r], k, p'.turns[k]) { LegacyEndStays(rs, r, k, p.turns[k]); }
    if p.turns != [] {
      var k: nat := |p.turns| - 1;
      ReadingGoesOn(rs, r, k, p.turns[k], p'.turns[k], p.sawAgentMessage, p.lastEventAtMs);
    }
  }

  lemma LegacyStep(createdAtMs: int, p: Parser, r: Record)
    requires (p.inTurn <==> p.turns != []) && !r.UserMessage? && !r.TaskStarted? && !r.TaskEnded?
    ensures LegacyStepped(p, r, Step(true, createdAtMs, p, r))
  {
  }

  lemma {:induction false} FoldLegacySound(createdAtMs: int, rs: seq<Record>)
    requires NoTasks(rs)
    ensures LegacySound(rs, Fold(true, createdAtMs, rs))
  {
    if rs != [] {
      var init, r := rs[..|rs| - 1], rs[|rs| - 1];
      assert rs == init + [r];
      FoldLegacySound(createdAtMs, init);
      FoldAgrees(true, createdAtMs, init);
      var p := Fold(true, createdAtMs, init);
      FoldShows(true, createdAtMs, init);
      if r.UserMessage? { LegacyOpens(createdAtMs, init, r, p); } else {
        LegacyStep(createdAtMs, p, r);
        LegacyReads(init, r, p, Step(true, createdAtMs, p, r));
      }
    }
  }

  // ----- the parsed rollout ---------------------------------------------------------------------------

  lemma FinishKeepsFields(p: Parser, k: nat)
    requires p.turns != [] && k < |p.turns|
    ensures |FinishLegacy(p).turns| == |p.turns|
    ensures FinishLegacy(p).turns[k] == p.turns[k].(terminal := FinishLegacy(p).turns[k].terminal, endedAtMs := FinishLegacy(p).turns[k].endedAtMs)
  {
  }

  lemma EndsAreNotShown(legacy: bool, createdAtMs: int, rs: seq<Record>, k: nat, t: ParsedTurn, t': ParsedTurn)
    requires Shows(legacy, createdAtMs, rs, k, t) && t' == t.(terminal := t'.terminal, endedAtMs := t'.endedAtMs)
    ensures Shows(legacy, createdAtMs, rs, k, t')
  {
  }

  /** Every parsed turn starts with its opener, lists the child threads, searches and increments of exactly the records read
      in it, and shows what it last reported; one turn for each opener. */
  lemma TurnsShowRecords(legacy: bool, createdAtMs: int, rs: seq<Record>, k: nat)
    ensures var turns := Finished(legacy, Fold(legacy, createdAtMs, rs));
            |turns| == Openers(legacy, rs) && (k < |turns| ==> Shows(legacy, createdAtMs, rs, k, turns[k]))
  {
    FoldShows(legacy, createdAtMs, rs);
    var p := Fold(legacy, createdAtMs, rs);
    if legacy && k < |p.turns| {
      FinishKeepsFields(p, k);
      EndsAreNotShown(legacy, createdAtMs, rs, k, p.turns[k], FinishLegacy(p).turns[k]);
    }
  }

  /** Turns of a rollout with task records end with their task, turns of one without with their last response evidence. */
  lemma TurnsEndWithRecords(legacy: bool, createdAtMs: int, rs: seq<Record>, k: nat)
    requires legacy ==> NoTasks(rs)
    requires k < |Finished(legacy, Fold(legacy, createdAtMs, rs))|
    ensures var t := Finished(legacy, Fold(legacy, createdAtMs, rs))[k];
            if legacy then ShowsLegacyEnd(rs, k, t) else ShowsEnd(false, rs, k, t.terminal, t.endedAtMs)
  {
    if legacy {
      FoldLegacySound(createdAtMs, rs);
      AllFinished(rs, Fold(true, createdAtMs, rs));
    } else {
      FoldEnds(createdAtMs, rs);
    }
  }
}
