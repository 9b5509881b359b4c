/**
 Reading one Codex rollout: its records are cut into turns, and the cumulative token counters
 seen inside turns become increments.
 */
module CodexCounters {
  import opened Wrappers
  import opened Rollouts

  datatype Record =
    | UserMessage(atMs: int)
    | AgentMessage(atMs: int)
    | ResponseItem(atMs: int)
    | TurnContext(model: Option<string>)
    | TaskStarted(atMs: int, startedSeconds: int, turnId: Option<string>)
    | SubAgentStarted(thread: string)
    | TokenCount(atMs: int, total: Option<Usage>, last: Option<Usage>, window: Option<nat>)
    | WebSearch(atMs: int, completedId: Option<string>)
    | TaskEnded(atMs: int, completedSeconds: int, completed: bool)
    | OtherRecord

  datatype TurnId = Given(id: string) | Numbered(n: nat) | LegacyId(atMs: int, n: nat)

  datatype Increment = Increment(atMs: int, usage: Usage, model: Option<string>)

  datatype Context = Context(atMs: int, tokens: nat, window: Option<nat>)

  datatype ParsedTurn = ParsedTurn(id: TurnId, startedAtMs: int, endedAtMs: Option<int>, terminal: Terminal,
                                   increments: seq<Increment>, legacyUsage: Usage, contexts: seq<Context>,
                                   webSearchIds: set<string>, childIds: set<string>)

  function NewTurn(id: TurnId, startedAtMs: int): ParsedTurn {
    ParsedTurn(id, startedAtMs, None, Open, [], NO_USAGE, [], {}, {})
  }

  datatype Parser = Parser(turns: seq<ParsedTurn>, inTurn: bool, model: Option<string>, previousTotal: Option<Usage>,
                           sawAgentMessage: bool, lastEventAtMs: int)

  const FRESH := Parser([], false, None, None, false, 0)

  predicate Opens(legacy: bool, r: Record) {
    r.TaskStarted? || (legacy && r.UserMessage?)
  }

  /** Response evidence moves the end of a legacy turn. */
  predicate IsEvidence(r: Record) {
    r.AgentMessage? || r.TokenCount? || r.ResponseItem? || r.WebSearch?
  }

  function Max(a: int, b: int): int {
    if a >= b then a else b
  }

  function OrElse(atMs: int, fallback: int): int {
    if atMs != 0 then atMs else fallback
  }

  /** What a counter adds: its growth, or its own value after a reset. */
  function GainOver(previous: Option<Usage>, total: Usage, last: Option<Usage>): Usage {
    if previous.Some? && total.Covers(previous.value) then total.Minus(previous.value)
    else if last.Some? then last.value
    else total
  }

  function ContextTokens(u: Usage): nat {
    u.input + u.cacheRead + u.cacheCreation
  }

  function CountTokens(t: ParsedTurn, r: Record, gain: Usage, model: Option<string>): ParsedTurn
    requires r.TokenCount?
  {
    var t1 :=
      if r.last.None? then t
      else t.(legacyUsage := r.last.value,
              contexts := t.contexts + [Context(r.atMs, ContextTokens(r.last.value), if r.window == Some(0) then None else r.window)]);
    if gain.Positive() then t1.(increments := t1.increments + [Increment(r.atMs, gain, model)]) else t1
  }

  function EndTurn(t: ParsedTurn, r: Record): ParsedTurn
    requires r.TaskEnded?
  {
    t.(endedAtMs := Some(if r.completedSeconds > 0 then r.completedSeconds * 1000 else r.atMs),
       terminal := if r.completed then Completed else Aborted)
  }

  // ----- the fold -------------------------------------------------------------------------

  function WithCurrent(p: Parser, t: ParsedTurn): Parser
    requires p.turns != []
  {
    p.(turns := p.turns[|p.turns| - 1 := t])
  }

  /** A legacy turn ends at its last response evidence, if the agent answered at all. */
  function FinishLegacy(p: Parser): Parser
    requires p.inTurn ==> p.turns != []
  {
    if !p.inTurn then p
    else
      var t := p.turns[|p.turns| - 1];
      var t1 := if p.sawAgentMessage then t.(endedAtMs := Some(Max(t.startedAtMs, p.lastEventAtMs)), terminal := Completed) else t;
      WithCurrent(p, t1).(inTurn := false, sawAgentMessage := false, lastEventAtMs := 0)
  }

  function StartTurn(p: Parser, t: ParsedTurn): Parser {
    p.(turns := p.turns + [t], inTurn := true)
  }

  function Note(legacy: bool, p: Parser, r: Record): Parser {
    if legacy && p.inTurn && IsEvidence(r) then
      p.(lastEventAtMs := Max(p.lastEventAtMs, r.atMs),
         sawAgentMessage := p.sawAgentMessage || r.AgentMessage?)
    else p
  }

  function InTurnStep(p: Parser, r: Record): Parser
    requires p.inTurn && p.turns != []
  {
    var t := p.turns[|p.turns| - 1];
    match r
    case SubAgentStarted(thread) => WithCurrent(p, t.(childIds := t.childIds + {thread}))
    case TokenCount(_, total, last, _) =>
      if total.None? then p
      else WithCurrent(p, CountTokens(t, r, GainOver(p.previousTotal, total.value, last), p.model)).(previousTotal := total)
    case WebSearch(_, Some(id)) => WithCurrent(p, t.(webSearchIds := t.webSearchIds + {id}))
    case TaskEnded(_, _, _) => WithCurrent(p, EndTurn(t, r)).(inTurn := false)
    case _ => p
  }

  function Step(legacy: bool, createdAtMs: int, p: Parser, r: Record): Parser
    requires p.inTurn ==> p.turns != []
  {
    if legacy && r.UserMessage? then
      var at := OrElse(r.atMs, createdAtMs);
      StartTurn(FinishLegacy(p), NewTurn(LegacyId(at, |p.turns| + 1), at)).(lastEventAtMs := at)
    else
      var p1 := Note(legacy, p, r);
      match r
      case TurnContext(model) => if model.Some? then p1.(model := model) else p1
      case TaskStarted(atMs, seconds, turnId) =>
        StartTurn(p1, NewTurn(if turnId.Some? then Given(turnId.value) else Numbered(|p1.turns| + 1),
                              if seconds > 0 then seconds * 1000 else atMs))
      case _ => if p1.inTurn then InTurnStep(p1, r) else p1
  }

  function Fold(legacy: bool, createdAtMs: int, rs: seq<Record>): (p: Parser)
    ensures p.inTurn ==> p.turns != []
  {
    if rs == [] then FRESH else Step(legacy, createdAtMs, Fold(legacy, createdAtMs, rs[..|rs| - 1]), rs[|rs| - 1])
  }

  /** A rollout without task records is cut at its user messages. */
  predicate IsLegacy(rs: seq<Record>) {
    forall i :: 0 <= i < |rs| ==> !rs[i].TaskStarted?
  }

  /** The first task this thread started itself, not one copied from its parent. */
  predicate StartsOwned(r: Record, createdAtMs: int) {
    r.TaskStarted? && r.startedSeconds >= createdAtMs / 1000 - 1
  }

  ghost predicate IsOwnedStart(rs: seq<Record>, createdAtMs: int, start: nat) {
    && start <= |rs|
    && (forall i :: 0 <= i < start ==> !StartsOwned(rs[i], createdAtMs))
    && if start < |rs| && StartsOwned(rs[start], createdAtMs) then true
       else start == 0 && forall i :: 0 <= i < |rs| ==> !StartsOwned(rs[i], createdAtMs)
  }

  function Finished(legacy: bool, p: Parser): seq<ParsedTurn>
    requires p.inTurn ==> p.turns != []
  {
    if legacy then FinishLegacy(p).turns else p.turns
  }

  /** The first owned start from the index on, or the first record. */
  function StartFrom(rs: seq<Record>, createdAtMs: int, i: nat): (start: nat)
    requires i <= |rs|
    ensures start <= |rs|
    decreases |rs| - i
  {
    if i == |rs| then 0 else if StartsOwned(rs[i], createdAtMs) then i else StartFrom(rs, createdAtMs, i + 1)
  }

  method OwnedStartIndex(rs: seq<Record>, createdAtMs: int) returns (start: nat)
    ensures IsOwnedStart(rs, createdAtMs, start) && start == StartFrom(rs, createdAtMs, 0)
  {
    for i := 0 to |rs|
      invariant forall j :: 0 <= j < i ==> !StartsOwned(rs[j], createdAtMs)
      invariant StartFrom(rs, createdAtMs, 0) == StartFrom(rs, createdAtMs, i)
    {
      if StartsOwned(rs[i], createdAtMs) { return i; }
    }
    return 0;
  }

  /** The variables of the parsing loop. */
  class TurnReader {
    var turns: seq<ParsedTurn>
    var inTurn: bool
    var model: Option<string>
    var previousTotal: Option<Usage>
    var sawAgentMessage: bool
    var lastEventAtMs: int

    ghost function State(): Parser
      reads this
    {
      Parser(turns, inTurn, model, previousTotal, sawAgentMessage, lastEventAtMs)
    }

    ghost predicate Valid()
      reads this
    {
      inTurn ==> turns != []
    }

    constructor ()
      ensures State() == FRESH
    {
      turns, inTurn, model, previousTotal := [], false, None, None;
      sawAgentMessage, lastEventAtMs := false, 0;
    }

    method FinishLegacyTurn()
      requires Valid()
      modifies this
      ensures State() == FinishLegacy(old(State()))
    {
      if !inTurn { return; }
      if sawAgentMessage {
        var t := turns[|turns| - 1];
        turns := turns[|turns| - 1 := t.(endedAtMs := Some(Max(t.startedAtMs, lastEventAtMs)), terminal := Completed)];
      }
      inTurn, sawAgentMessage, lastEventAtMs := false, false, 0;
      assert old(sawAgentMessage) || turns == turns[|turns| - 1 := turns[|turns| - 1]];
    }

    method ReadInTurn(r: Record)
      requires Valid() && inTurn
      modifies this
      ensures State() == InTurnStep(old(State()), r)
    {
      var t := turns[|turns| - 1];
      if r.SubAgentStarted? {
        turns := turns[|turns| - 1 := t.(childIds := t.childIds + {r.thread})];
      } else if r.TokenCount? {
        if r.total.Some? {
          var gain := GainOver(previousTotal, r.total.value, r.last);
          previousTotal := r.total;
          turns := turns[|turns| - 1 := CountTokens(t, r, gain, model)];
        }
      } else if r.WebSearch? {
        if r.completedId.Some? { turns := turns[|turns| - 1 := t.(webSearchIds := t.webSearchIds + {r.completedId.value})]; }
      } else if r.TaskEnded? {
        turns := turns[|turns| - 1 := EndTurn(t, r)];
        inTurn := false;
      }
    }

    method Read(legacy: bool, createdAtMs: int, r: Record)
      requires Valid()
      modifies this
      ensures State() == Step(legacy, createdAtMs, old(State()), r) && Valid()
    {
      if legacy && r.UserMessage? {
        FinishLegacyTurn();
        var at := OrElse(r.atMs, createdAtMs);
        turns := turns + [NewTurn(LegacyId(at, |turns| + 1), at)];
        inTurn, lastEventAtMs := true, at;
        return;
      }
      if legacy && inTurn && IsEvidence(r) {
        lastEventAtMs := Max(lastEventAtMs, r.atMs);
        if r.AgentMessage? { sawAgentMessage := true; }
      }
      if r.TurnContext? {
        if r.model.Some? { model := r.model; }
      } else if r.TaskStarted? {
        var id := if r.turnId.Some? then Given(r.turnId.value) else Numbered(|turns| + 1);
        turns := turns + [NewTurn(id, if r.startedSeconds > 0 then r.startedSeconds * 1000 else r.atMs)];
        inTurn := true;
      } else if inTurn {
        ReadInTurn(r);
      }
    }
  }

  method ParseCodexRollout(rs: seq<Record>, createdAtMs: int) returns (turns: seq<ParsedTurn>)
    ensures turns == Finished(IsLegacy(rs), Fold(IsLegacy(rs), createdAtMs, rs[StartFrom(rs, createdAtMs, 0)..]))
  {
    var first := OwnedStartIndex(rs, createdAtMs);
    var owned, legacy := rs[first..], IsLegacy(rs);
    var reader := new TurnReader();
    for i := 0 to |owned|
      invariant reader.Valid() && reader.State() == Fold(legacy, createdAtMs, owned[..i])
    {
      assert owned[..i + 1][..i] == owned[..i];
      reader.Read(legacy, createdAtMs, owned[i]);
    }
    assert owned[..|owned|] == owned;
    if legacy { reader.FinishLegacyTurn(); }
    turns := reader.turns;
  }

  // ----- which counters are read -------------------------------------------------------------

  /** A turn was opened and has not ended since. */
  ghost predicate InTurn(legacy: bool, rs: seq<Record>, i: nat)
    requires i <= |rs|
  {
    exists j :: 0 <= j < i && Opens(legacy, rs[j]) && forall k :: j < k < i ==> !rs[k].TaskEnded?
  }

  function Openers(legacy: bool, rs: seq<Record>): nat {
    if rs == [] then 0 else Openers(legacy, rs[..|rs| - 1]) + if Opens(legacy, rs[|rs| - 1]) then 1 else 0
  }

  /** A cumulative counter seen inside a turn. */
  datatype Reading = Reading(total: Usage, last: Option<Usage>, turn: int)

  ghost function Readings(legacy: bool, rs: seq<Record>): seq<Reading> {
    if rs == [] then []
    else
      var init, r := rs[..|rs| - 1], rs[|rs| - 1];
      if r.TokenCount? && r.total.Some? && InTurn(legacy, rs, |rs| - 1)
      then Readings(legacy, init) + [Reading(r.total.value, r.last, Openers(legacy, init) - 1)]
      else Readings(legacy, init)
  }

  // ----- increments ------------------------------------------------------------------------------

  function IncrementSum(xs: seq<Increment>): Usage {
    if xs == [] then NO_USAGE else IncrementSum(xs[..|xs| - 1]).Plus(xs[|xs| - 1].usage)
  }

  /** The recorded usage of each turn. */
  function Recorded(ts: seq<ParsedTurn>): (us: seq<Usage>)
    ensures |us| == |ts|
  {
    seq(|ts|, i requires 0 <= i < |ts| => IncrementSum(ts[i].increments))
  }

  function Sum(us: seq<Usage>): Usage {
    if us == [] then NO_USAGE else Sum(us[..|us| - 1]).Plus(us[|us| - 1])
  }

  function Gain(s: seq<Reading>, i: nat): Usage
    requires i < |s|
  {
    GainOver(if i == 0 then None else Some(s[i - 1].total), s[i].total, s[i].last)
  }

  /** What the readings inside one turn add. */
  function TurnGains(s: seq<Reading>, t: int): Usage {
    if s == [] then NO_USAGE
    else
      var rest := TurnGains(s[..|s| - 1], t);
      if s[|s| - 1].turn == t then rest.Plus(Gain(s, |s| - 1)) else rest
  }

  function TotalGains(s: seq<Reading>): Usage {
    if s == [] then NO_USAGE else TotalGains(s[..|s| - 1]).Plus(Gain(s, |s| - 1))
  }

  lemma AppendedIncrement(xs: seq<Increment>, x: Increment)
    ensures IncrementSum(xs + [x]) == IncrementSum(xs).Plus(x.usage)
  {
    assert (xs + [x])[..|xs + [x]| - 1] == xs;
  }

  /** Counting tokens adds exactly the gain, whether or not an increment is recorded. */
  lemma CountAddsGain(t: ParsedTurn, r: Record, gain: Usage, model: Option<string>)
    requires r.TokenCount?
    ensures IncrementSum(CountTokens(t, r, gain, model).increments) == IncrementSum(t.increments).Plus(gain)
  {
    if gain.Positive() { AppendedIncrement(t.increments, Increment(r.atMs, gain, model)); }
  }

  /** What a record does to the recorded usage. */
  ghost predicate Effect(legacy: bool, p: Parser, r: Record, p': Parser)
    requires p.inTurn ==> p.turns != []
  {
    if Opens(legacy, r) then
      p'.inTurn && p'.previousTotal == p.previousTotal && Recorded(p'.turns) == Recorded(p.turns) + [NO_USAGE]
    else if r.TokenCount? && r.total.Some? && p.inTurn then
      && p'.inTurn && p'.previousTotal == r.total && |p'.turns| == |p.turns|
      && Recorded(p'.turns) == AddToLast(Recorded(p.turns), GainOver(p.previousTotal, r.total.value, r.last))
    else
      && (p'.inTurn <==> p.inTurn && !r.TaskEnded?) && p'.previousTotal == p.previousTotal
      && Recorded(p'.turns) == Recorded(p.turns)
  }

  function AddToLast(us: seq<Usage>, u: Usage): seq<Usage>
    requires us != []
  {
    us[|us| - 1 := us[|us| - 1].Plus(u)]
  }

  lemma ReplacedLast(ts: seq<ParsedTurn>, t: ParsedTurn)
    requires ts != []
    ensures Recorded(ts[|ts| - 1 := t]) == Recorded(ts)[|ts| - 1 := IncrementSum(t.increments)]
  {
  }

  lemma CountingEffect(p: Parser, r: Record, gain: Usage)
    requires p.turns != [] && r.TokenCount?
    ensures Recorded(WithCurrent(p, CountTokens(p.turns[|p.turns| - 1], r, gain, p.model)).turns) == AddToLast(Recorded(p.turns), gain)
  {
    var t := p.turns[|p.turns| - 1];
    CountAddsGain(t, r, gain, p.model);
    ReplacedLast(p.turns, CountTokens(t, r, gain, p.model));
  }

  lemma KeepingEffect(p: Parser, t: ParsedTurn)
    requires p.turns != [] && t.increments == p.turns[|p.turns| - 1].increments
    ensures Recorded(WithCurrent(p, t).turns) == Recorded(p.turns)
  {
    ReplacedLast(p.turns, t);
  }

  lemma InTurnStepEffect(p: Parser, r: Record)
    requires p.inTurn && p.turns != [] && !r.TaskStarted?
    ensures Effect(false, p, r, InTurnStep(p, r))
  {
    var t := p.turns[|p.turns| - 1];
    match r
    case SubAgentStarted(thread) => KeepingEffect(p, t.(childIds := t.childIds + {thread}));
    case TokenCount(_, total, last, _) =>
      if total.Some? { CountingEffect(p, r, GainOver(p.previousTotal, total.value, last)); }
    case WebSearch(_, Some(id)) => KeepingEffect(p, t.(webSearchIds := t.webSearchIds + {id}));
    case TaskEnded(_, _, _) => KeepingEffect(p, EndTurn(t, r));
    case _ =>
  }

  lemma StepEffect(legacy: bool, createdAtMs: int, p: Parser, r: Record)
    requires p.inTurn ==> p.turns != []
    ensures Effect(legacy, p, r, Step(legacy, createdAtMs, p, r))
  {
    if legacy && r.UserMessage? {
      assert Recorded(FinishLegacy(p).turns) == Recorded(p.turns);
    } else if p.inTurn && !r.TaskStarted? && !r.TurnContext? {
      InTurnStepEffect(Note(legacy, p, r), r);
    }
  }

  // ----- conservation of increments ----------------------------------------------------------------

  /** The recorded usage agrees with the readings so far. */
  ghost predicate Agrees(s: seq<Reading>, openers: nat, us: seq<Usage>, previousTotal: Option<Usage>) {
    && |us| == openers
    && previousTotal == (if s == [] then None else Some(s[|s| - 1].total))
    && (forall i :: 0 <= i < |s| ==> 0 <= s[i].turn < openers)
    && (forall t :: 0 <= t < openers ==> us[t] == TurnGains(s, t))
    && Sum(us) == TotalGains(s)
  }

  lemma {:induction false} NoGains(s: seq<Reading>, t: int)
    requires forall i :: 0 <= i < |s| ==> s[i].turn != t
    ensures TurnGains(s, t) == NO_USAGE
  {
    if s != [] { NoGains(s[..|s| - 1], t); }
  }

  lemma OpenAgrees(s: seq<Reading>, openers: nat, us: seq<Usage>, previousTotal: Option<Usage>)
    requires Agrees(s, openers, us, previousTotal)
    ensures Agrees(s, openers + 1, us + [NO_USAGE], previousTotal)
  {
    assert (us + [NO_USAGE])[..|us + [NO_USAGE]| - 1] == us;
    NoGains(s, openers);
  }

  lemma AddedToLast(us: seq<Usage>, g: Usage)
    requires us != []
    ensures Sum(AddToLast(us, g)) == Sum(us).Plus(g)
  {
    assert AddToLast(us, g)[..|us| - 1] == us[..|us| - 1];
    var a, b := Sum(us[..|us| - 1]), us[|us| - 1];
    assert a.Plus(b).Plus(g) == a.Plus(b.Plus(g));
  }

  lemma AppendedReading(s: seq<Reading>, r: Reading, t: int)
    ensures var g := GainOver(if s == [] then None else Some(s[|s| - 1].total), r.total, r.last);
            && TurnGains(s + [r], t) == (if r.turn == t then TurnGains(s, t).Plus(g) else TurnGains(s, t))
            && TotalGains(s + [r]) == TotalGains(s).Plus(g)
  {
    assert (s + [r])[..|s + [r]| - 1] == s;
  }

  lemma CountAgrees(s: seq<Reading>, openers: nat, us: seq<Usage>, previousTotal: Option<Usage>, total: Usage, last: Option<Usage>)
    requires Agrees(s, openers, us, previousTotal) && openers > 0
    ensures Agrees(s + [Reading(total, last, openers - 1)], openers, AddToLast(us, GainOver(previousTotal, total, last)), Some(total))
  {
    var r := Reading(total, last, openers - 1);
    var g := GainOver(previousTotal, total, last);
    AddedToLast(us, g);
    AppendedReading(s, r, openers - 1);
    forall t | 0 <= t < openers ensures AddToLast(us, g)[t] == TurnGains(s + [r], t) {
      AppendedReading(s, r, t);
    }
  }

  lemma InTurnAfter(legacy: bool, rs: seq<Record>, r: Record)
    ensures InTurn(legacy, rs + [r], |rs| + 1) <==> Opens(legacy, r) || (InTurn(legacy, rs, |rs|) && !r.TaskEnded?)
  {
    var rs' := rs + [r];
    if InTurn(legacy, rs, |rs|) && !r.TaskEnded? {
      var j :| 0 <= j < |rs| && Opens(legacy, rs[j]) && forall k :: j < k < |rs| ==> !rs[k].TaskEnded?;
      assert Opens(legacy, rs'[j]);
    }
    if Opens(legacy, r) { assert Opens(legacy, rs'[|rs|]); }
    if InTurn(legacy, rs', |rs| + 1) && !Opens(legacy, r) {
      var j :| 0 <= j < |rs| + 1 && Opens(legacy, rs'[j]) && forall k :: j < k < |rs| + 1 ==> !rs'[k].TaskEnded?;
      assert Opens(legacy, rs[j]);
      assert !rs'[|rs|].TaskEnded?;
      forall k | j < k < |rs| ensures !rs[k].TaskEnded? { assert !rs'[k].TaskEnded?; }
    }
  }

  lemma InTurnOfPrefix(legacy: bool, rs: seq<Record>, r: Record)
    ensures InTurn(legacy, rs + [r], |rs|) <==> InTurn(legacy, rs, |rs|)
  {
    var rs' := rs + [r];
    if InTurn(legacy, rs, |rs|) {
      var j :| 0 <= j < |rs| && Opens(legacy, rs[j]) && forall k :: j < k < |rs| ==> !rs[k].TaskEnded?;
      assert Opens(legacy, rs'[j]);
    }
    if InTurn(legacy, rs', |rs|) {
      var j :| 0 <= j < |rs| && Opens(legacy, rs'[j]) && forall k :: j < k < |rs| ==> !rs'[k].TaskEnded?;
      assert Opens(legacy, rs[j]);
      forall k | j < k < |rs| ensures !rs[k].TaskEnded? { assert !rs'[k].TaskEnded?; }
    }
  }

  lemma {:induction false} FoldAgrees(legacy: bool, createdAtMs: int, rs: seq<Record>)
    ensures var p := Fold(legacy, createdAtMs, rs);
            && (p.inTurn <==> InTurn(legacy, rs, |rs|))
            && Agrees(Readings(legacy, rs), Openers(legacy, rs), Recorded(p.turns), p.previousTotal)
  {
    if rs != [] {
      var init, r := rs[..|rs| - 1], rs[|rs| - 1];
      assert rs == init + [r];
      FoldAgrees(legacy, createdAtMs, init);
      var p := Fold(legacy, createdAtMs, init);
      StepEffect(legacy, createdAtMs, p, r);
      InTurnAfter(legacy, init, r);
      InTurnOfPrefix(legacy, init, r);
      var s, n, us := Readings(legacy, init), Openers(legacy, init), Recorded(p.turns);
      if Opens(legacy, r) {
        OpenAgrees(s, n, us, p.previousTotal);
      } else if r.TokenCount? && r.total.Some? && p.inTurn {
        CountAgrees(s, n, us, p.previousTotal, r.total.value, r.last);
      }
    }
  }

  lemma FinishKeepsRecorded(legacy: bool, p: Parser)
    requires p.inTurn ==> p.turns != []
    ensures Recorded(Finished(legacy, p)) == Recorded(p.turns)
  {
  }

  /** Each reading's gain is recorded in exactly the turn it was seen in, and nothing else is recorded. */
  lemma GainsBelongToTheirTurn(legacy: bool, createdAtMs: int, rs: seq<Record>, t: nat)
    ensures var turns := Finished(legacy, Fold(legacy, createdAtMs, rs));
            && |turns| == Openers(legacy, rs)
            && (t < |turns| ==> IncrementSum(turns[t].increments) == TurnGains(Readings(legacy, rs), t))
  {
    FoldAgrees(legacy, createdAtMs, rs);
    var p := Fold(legacy, createdAtMs, rs);
    FinishKeepsRecorded(legacy, p);
    if t < |p.turns| { assert Recorded(Finished(legacy, p))[t] == Recorded(p.turns)[t]; }
  }

  // ----- telescoping ------------------------------------------------------------------------------

  function Own(r: Reading): Usage {
    if r.last.Some? then r.last.value else r.total
  }

  /** Where the last maximal nondecreasing run of counters begins. */
  function RunStart(s: seq<Reading>): (a: nat)
    requires s != []
    ensures a < |s|
    ensures a == 0 || !s[a].total.Covers(s[a - 1].total)
    ensures forall i :: a < i < |s| ==> s[i].total.Covers(s[i - 1].total)
    ensures s[|s| - 1].total.Covers(s[a].total)
  {
    if |s| == 1 || !s[|s| - 1].total.Covers(s[|s| - 2].total) then |s| - 1
    else RunStart(s[..|s| - 1])
  }

  /** Per run: the final counter less the first one plus the first one's own value. */
  function RunsTotal(s: seq<Reading>): Usage {
    if s == [] then NO_USAGE
    else
      var a := RunStart(s);
      RunsTotal(s[..a]).Plus(s[|s| - 1].total.Minus(s[a].total).Plus(Own(s[a])))
  }

  lemma {:induction false} GainsTelescope(s: seq<Reading>)
    ensures TotalGains(s) == RunsTotal(s)
  {
    if s != [] {
      var init, n := s[..|s| - 1], |s|;
      GainsTelescope(init);
      if n == 1 || !s[n - 1].total.Covers(s[n - 2].total) {
        assert s[..RunStart(s)] == init;
      } else {
        var a := RunStart(init);
        assert RunStart(s) == a;
        assert init[..a] == s[..a];
        var before, first, middle, final := RunsTotal(s[..a]), s[a].total, s[n - 2].total, s[n - 1].total;
        assert before.Plus(middle.Minus(first).Plus(Own(s[a]))).Plus(final.Minus(middle))
            == before.Plus(final.Minus(first).Plus(Own(s[a])));
      }
    }
  }

  /** Over all turns of a rollout the increments sum to the growth of its counters, run by run;
      counters seen outside turns play no part. */
  lemma IncrementsTelescope(legacy: bool, createdAtMs: int, rs: seq<Record>)
    ensures Sum(Recorded(Finished(legacy, Fold(legacy, createdAtMs, rs)))) == RunsTotal(Readings(legacy, rs))
  {
    FoldAgrees(legacy, createdAtMs, rs);
    FinishKeepsRecorded(legacy, Fold(legacy, createdAtMs, rs));
    GainsTelescope(Readings(legacy, rs));
  }

  /** A rollout whose counters never fall: the whole usage is the final counter, when the first
      counter reports no value of its own. */
  lemma SteadyCounterIsExact(s: seq<Reading>)
    requires s != [] && s[0].last.None?
    requires forall i :: 0 < i < |s| ==> s[i].total.Covers(s[i - 1].total)
    ensures RunsTotal(s) == s[|s| - 1].total
  {
    assert RunStart(s) == 0;
    assert s[..0] == [];
  }
}
