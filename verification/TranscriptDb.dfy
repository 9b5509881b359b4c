/**
 The transcript transactions as they run: row by row over mutable tables, each proved to
 take the tables where the transition function takes them. A transaction that throws
 leaves the tables as they were.
 */
module TranscriptDb {
  import opened Wrappers
  import opened FrameText
  import opened ProviderFrames
  import opened FrameLayout
  import opened Transcript
  import opened TranscriptInvariants

  /** The positions a deleted tool row had among the rows of its response. */
  function Positions(rows: seq<ToolEvent>, removed: set<nat>): seq<nat> {
    if rows == [] then []
    else
      Positions(rows[..|rows| - 1], removed) + if rows[|rows| - 1].id in removed then [|rows| - 1] else []
  }

  function CountBelow(positions: seq<nat>, index: int): nat {
    if positions == [] then 0
    else CountBelow(positions[..|positions| - 1], index) + if positions[|positions| - 1] < index then 1 else 0
  }

  lemma {:induction false} PositionsCount(rows: seq<ToolEvent>, removed: set<nat>, index: int)
    ensures CountBelow(Positions(rows, removed), index) == RemovedBefore(rows, removed, index)
  {
    if rows != [] {
      var init := rows[..|rows| - 1];
      PositionsCount(init, removed, index);
      var ps := Positions(init, removed);
      assert (ps + [|rows| - 1])[..|ps + [|rows| - 1]| - 1] == ps;
      assert ps + [] == ps;
    }
  }

  method RemovedPositions(rows: seq<ToolEvent>, removed: set<nat>) returns (positions: seq<nat>)
    ensures positions == Positions(rows, removed)
  {
    positions := [];
    for i := 0 to |rows|
      invariant positions == Positions(rows[..i], removed)
    {
      assert rows[..i + 1][..i] == rows[..i];
      if rows[i].id in removed { positions := positions + [i]; }
    }
    assert rows[..|rows|] == rows;
  }

  method CountPositionsBelow(positions: seq<nat>, index: int) returns (count: nat)
    ensures count == CountBelow(positions, index)
  {
    count := 0;
    for i := 0 to |positions|
      invariant count == CountBelow(positions[..i], index)
    {
      assert positions[..i + 1][..i] == positions[..i];
      if positions[i] < index { count := count + 1; }
    }
    assert positions[..|positions|] == positions;
  }

  /** The text of a row, folded from the left over the ordered fragments. */
  method FoldFrameText(frames: seq<Frame>) returns (canonical: string)
    ensures canonical == JoinAll(frames) && LaysOut(canonical, frames)
  {
    canonical := "";
    for i := 0 to |frames|
      invariant canonical == JoinAll(frames[..i])
    {
      assert frames[..i + 1][..i] == frames[..i];
      match frames[i].input.text
      case Some(fragment) =>
        if fragment != "" { canonical := JoinFrameText(canonical, fragment); }
      case None =>
    }
    assert frames[..|frames|] == frames;
    JoinAllIsLayout(frames, canonical);
  }

  /** The update loop over the addressed rows: the new cells, the contributions and the row count. */
  method DescribeRows(frames: seq<Frame>, events: seq<ToolEvent>, m: Metadata)
    returns (events': seq<ToolEvent>, added: seq<Contribution>, changes: nat)
    ensures events' == WithMetadata(frames, events, m)
    ensures added == ContributionsFor(frames, events, m)
    ensures changes > 0 <==> exists e :: e in events && Addressed(frames, e, m.session, m.toolId, m.frame)
  {
    events', added, changes := [], [], 0;
    for i := 0 to |events|
      invariant added == ContributionsFor(frames, events[..i], m)
      invariant events' == WithMetadata(frames, events[..i], m)
      invariant changes > 0 <==> exists e :: e in events[..i] && Addressed(frames, e, m.session, m.toolId, m.frame)
    {
      var e := events[i];
      assert events[..i + 1] == events[..i] + [e];
      assert events[..i + 1][..i] == events[..i];
      if Addressed(frames, e, m.session, m.toolId, m.frame) {
        added := added + [MetadataContribution(e, m)];
        events' := events' + [WithCell(e, m.column, Some(m.json))];
        changes := changes + 1;
        assert e in events[..i + 1];
      } else {
        assert added + [] == added;
        events' := events' + [e];
      }
    }
    assert events[..|events|] == events;
  }

  /** The tool rows with a contribution to a column from one of the retracted frames. */
  function AffectedBy(contributions: seq<Contribution>, changed: set<FrameKey>, column: Column): set<nat> {
    set c | c in contributions && c.Cell(column).Some? && c.frame.Some? && c.frame.value in changed :: c.event
  }

  /** The result of a retracted frame is cleared, and each affected column is read again from the
      contributions that are left. */
  method ReviseRow(ghost t: Tables, changed: set<FrameKey>, ghost removed: set<nat>, e: ToolEvent,
                   frames: seq<Frame>, contributions: seq<Contribution>,
                   subagentRows: set<nat>, activityRows: set<nat>) returns (next: ToolEvent)
    requires frames == MarkRetracted(t.frames, changed)
    requires contributions == KeptContributions(t.contributions, removed)
    requires subagentRows == AffectedBy(t.contributions, changed, Subagent)
    requires activityRows == AffectedBy(t.contributions, changed, Activity)
    requires e.id !in removed
    ensures next == Revised(t, e, changed)
  {
    next := if ResultIn(e, changed) then e.(result := None) else e;
    if e.id in subagentRows {
      next := next.(subagent := LatestSurviving(contributions, frames, e.id, Subagent));
    }
    if e.id in activityRows {
      next := next.(activity := LatestSurviving(contributions, frames, e.id, Activity));
    }
    LatestSurvivesCascade(t.contributions, removed, frames, e.id, Subagent);
    LatestSurvivesCascade(t.contributions, removed, frames, e.id, Activity);
  }

  /** The restore loop. */
  method ReviseRows(ghost t: Tables, changed: set<FrameKey>, ghost removed: set<nat>, rows: seq<ToolEvent>,
                    frames: seq<Frame>, contributions: seq<Contribution>,
                    subagentRows: set<nat>, activityRows: set<nat>) returns (revised: seq<ToolEvent>)
    requires frames == MarkRetracted(t.frames, changed)
    requires contributions == KeptContributions(t.contributions, removed)
    requires subagentRows == AffectedBy(t.contributions, changed, Subagent)
    requires activityRows == AffectedBy(t.contributions, changed, Activity)
    requires forall e :: e in rows ==> e.id !in removed
    ensures revised == RevisedAll(t, rows, changed)
  {
    revised := [];
    for i := 0 to |rows|
      invariant revised == RevisedAll(t, rows[..i], changed)
    {
      var next := ReviseRow(t, changed, removed, rows[i], frames, contributions, subagentRows, activityRows);
      assert rows[..i + 1] == rows[..i] + [rows[i]];
      revised := revised + [next];
    }
    assert rows[..|rows|] == rows;
  }

  function SteerMoved(k: RowKey, m: Message, row: RowKey, positions: seq<nat>): Message {
    if m.UserRow? && m.steer.Some? && RowKey(k.session, m.steer.value.target) == row then
      var next := m.steer.value.toolIndex - CountBelow(positions, m.steer.value.toolIndex);
      UserRow(Some(m.steer.value.(toolIndex := if next < 0 then 0 else next)))
    else m
  }

  /** The row whose revision a message waits for. */
  function WaitsFor(k: RowKey, m: Message): Option<RowKey> {
    match m
    case AssistantRow(_) => Some(k)
    case UserRow(steer) => if steer.Some? then Some(RowKey(k.session, steer.value.target)) else None
  }

  ghost predicate RevisedSoFar(t: Tables, r: Retraction, changed: set<FrameKey>, todo: set<RowKey>, k: RowKey, m: Message)
    requires k in t.messages
  {
    var w := WaitsFor(k, t.messages[k]);
    m == if w.Some? && w.value in todo then t.messages[k] else RevisedMessage(t, k, t.messages[k], r, changed)
  }

  function AffectedSeqs(frames: seq<Frame>, events: seq<ToolEvent>, changed: set<FrameKey>,
                        removed: set<nat>, subagentRows: set<nat>, activityRows: set<nat>): set<RowKey>
  {
    (set f | f in frames && f.input.key in changed :: f.Row())
    + (set e | e in events && (e.id in removed || ResultIn(e, changed) || e.id in subagentRows || e.id in activityRows) :: e.Row())
  }

  /** The id sets the statements collect are the ones of the transition function. */
  lemma AffectedByIds(t: Tables, changed: set<FrameKey>)
    requires EventsSound(t)
    ensures AffectedSeqs(t.frames, t.events, changed, RemovedIds(t, changed),
                         AffectedBy(t.contributions, changed, Subagent), AffectedBy(t.contributions, changed, Activity))
         == AffectedRows(t, changed)
  {
    var removed := RemovedIds(t, changed);
    var subagentRows, activityRows := AffectedBy(t.contributions, changed, Subagent), AffectedBy(t.contributions, changed, Activity);
    forall e | e in t.events
      ensures Touched(t, e, changed)
         <==> e.id in removed || ResultIn(e, changed) || e.id in subagentRows || e.id in activityRows
    {
      forall e2 | e2 in t.events && e2.id == e.id ensures e2 == e {}
      assert e.id in removed <==> Removed(t, e, changed);
      assert e.id in subagentRows <==> Contributes(t.contributions, e.id, changed, Subagent);
      assert e.id in activityRows <==> Contributes(t.contributions, e.id, changed, Activity);
    }
  }

  /** The deleted positions of every affected response, taken before anything is deleted. */
  method PositionsByRow(events: seq<ToolEvent>, affected: set<RowKey>, removed: set<nat>)
    returns (positions: map<RowKey, seq<nat>>)
    ensures positions.Keys == affected
    ensures forall row :: row in affected ==> positions[row] == Positions(RowEvents(events, row), removed)
  {
    positions := map[];
    var todo := affected;
    while todo != {}
      invariant todo <= affected && positions.Keys == affected - todo
      invariant forall row :: row in positions ==> positions[row] == Positions(RowEvents(events, row), removed)
    {
      var row :| row in todo;
      var ps := RemovedPositions(RowEvents(events, row), removed);
      positions := positions[row := ps];
      todo := todo - {row};
    }
  }

  /** A message that waits for no affected response is not revised. */
  lemma UnaffectedMessage(t: Tables, r: Retraction, changed: set<FrameKey>, k: RowKey)
    requires k in t.messages
    ensures RevisedSoFar(t, r, changed, AffectedRows(t, changed), k, t.messages[k])
  {
  }

  /** Moving a steer by the deleted positions remaps its index. */
  lemma MovedIsRemapped(k: RowKey, steer: Steer, row: RowKey, rows: seq<ToolEvent>, removed: set<nat>)
    requires RowKey(k.session, steer.target) == row
    ensures SteerMoved(k, UserRow(Some(steer)), row, Positions(rows, removed))
         == UserRow(Some(steer.(toolIndex := RemapIndex(rows, removed, steer.toolIndex))))
  {
    PositionsCount(rows, removed, steer.toolIndex);
  }

  ghost predicate Rewritten(t: Tables, r: Retraction, changed: set<FrameKey>, row: RowKey, k: RowKey, before: Message, between: Message) {
    between == if k == row && before.AssistantRow?
               then AssistantRow(CanonicalText(MarkRetracted(t.frames, changed), row, r.provider)) else before
  }

  /** An assistant row moves with its own response. */
  lemma AssistantRevised(t: Tables, r: Retraction, changed: set<FrameKey>, todo: set<RowKey>, row: RowKey,
                         k: RowKey, before: Message, between: Message)
    requires k in t.messages && t.messages[k].AssistantRow? && row in todo && todo <= AffectedRows(t, changed)
    requires RevisedSoFar(t, r, changed, todo, k, before) && Rewritten(t, r, changed, row, k, before, between)
    ensures between.AssistantRow? && RevisedSoFar(t, r, changed, todo - {row}, k, between)
  {
  }

  /** A steer moves with the response it targets. */
  lemma SteerRevised(t: Tables, r: Retraction, changed: set<FrameKey>, todo: set<RowKey>, row: RowKey, k: RowKey, before: Message)
    requires k in t.messages && t.messages[k].UserRow? && row in todo && todo <= AffectedRows(t, changed)
    requires RevisedSoFar(t, r, changed, todo, k, before)
    ensures before.UserRow?
    ensures RevisedSoFar(t, r, changed, todo - {row}, k,
                         SteerMoved(k, before, row, Positions(RowEvents(t.events, row), RemovedIds(t, changed))))
  {
    if t.messages[k].steer.Some? && RowKey(k.session, t.messages[k].steer.value.target) == row {
      MovedIsRemapped(k, t.messages[k].steer.value, row, RowEvents(t.events, row), RemovedIds(t, changed));
    }
  }

  /** Revising one response moves exactly the messages that waited for it. */
  lemma OneResponseRevised(t: Tables, r: Retraction, changed: set<FrameKey>, todo: set<RowKey>, row: RowKey,
                           k: RowKey, before: Message, between: Message)
    requires k in t.messages && row in todo && todo <= AffectedRows(t, changed)
    requires RevisedSoFar(t, r, changed, todo, k, before)
    requires Rewritten(t, r, changed, row, k, before, between)
    ensures RevisedSoFar(t, r, changed, todo - {row}, k,
                         SteerMoved(k, between, row, Positions(RowEvents(t.events, row), RemovedIds(t, changed))))
  {
    if t.messages[k].AssistantRow? {
      AssistantRevised(t, r, changed, todo, row, k, before, between);
    } else {
      SteerRevised(t, r, changed, todo, row, k, before);
    }
  }

  class Db {
    var sessions: map<string, Option<string>>
    var frames: seq<Frame>
    var tombstones: set<FrameKey>
    var events: seq<ToolEvent>
    var nextEvent: nat
    var lineage: set<(nat, FrameKey)>
    var contributions: seq<Contribution>
    var messages: map<RowKey, Message>

    ghost function State(): Tables
      reads this
    {
      Tables(sessions, frames, tombstones, events, nextEvent, lineage, contributions, messages)
    }

    constructor (sessions: map<string, Option<string>>, messages: map<RowKey, Message>)
      ensures State() == Tables(sessions, [], {}, [], 0, {}, [], messages)
      ensures Fresh(State())
    {
      this.sessions, this.messages := sessions, messages;
      frames, tombstones, events, nextEvent, lineage, contributions := [], {}, [], 0, {}, [];
    }

    method ReconcileProviderAssistantText(row: RowKey, provider: string) returns (text: string)
      modifies this`messages
      ensures text == CanonicalText(frames, row, provider) && LaysOut(text, OrderFrames(TextFrames(frames, row, provider)))
      ensures State() == Reconcile(old(State()), row, provider)
    {
      text := FoldFrameText(OrderFrames(TextFrames(frames, row, provider)));
      if row in messages && messages[row].AssistantRow? {
        messages := messages[row := AssistantRow(text)];
      }
    }

    method RecordProviderMessageFrame(input: FrameInput) returns (r: Result<RecordOutcome, Error>)
      modifies this`frames, this`messages
      ensures match RecordFrame(old(State()), input)
              case Ok(committed) => r == Ok(committed.1) && State() == committed.0
              case Err(e) => r == Err(e) && State() == old(State())
    {
      if input.key in tombstones { return Ok(WasRetracted); }
      match FindFrame(frames, input.key) {
        case Some(existing) =>
          if !SameContent(existing.input, input) { return Err(ContentCollision); }
          var _ := ReconcileProviderAssistantText(existing.Row(), input.key.provider);
          return Ok(Duplicate);
        case None =>
      }
      var row := input.Row();
      if !(row.session in sessions && row in messages && messages[row].AssistantRow?) {
        return Err(NoAssistantRow);
      }
      frames := frames + [Frame(input, false)];
      var _ := ReconcileProviderAssistantText(row, input.key.provider);
      return Ok(Recorded);
    }

    /** Links a tool row to the frames it starts from, or to none of them when one is not active. */
    method InsertLineage(e: ToolEvent, refs: seq<FrameRef>) returns (linked: bool)
      modifies this`lineage
      ensures linked <==> forall f :: f in refs ==> ActiveIn(frames, e.Key(f))
      ensures lineage == old(lineage) + if linked then (set f | f in refs :: (e.id, e.Key(f))) else {}
    {
      var lineage0 := lineage;
      for i := 0 to |refs|
        invariant lineage == lineage0 + set f | f in refs[..i] :: (e.id, e.Key(f))
        invariant forall f :: f in refs[..i] ==> ActiveIn(frames, e.Key(f))
      {
        if !ActiveIn(frames, e.Key(refs[i])) {
          lineage := lineage0;
          assert refs[i] in refs;
          return false;
        }
        lineage := lineage + {(e.id, e.Key(refs[i]))};
        assert refs[..i + 1] == refs[..i] + [refs[i]];
      }
      assert refs[..|refs|] == refs;
      return true;
    }

    /** A tool row, its start lineage frame by frame, and its first metadata contribution. */
    method AppendToolEvent(s: ToolStart) returns (r: Result<(), Error>)
      modifies this`events, this`nextEvent, this`lineage, this`contributions
      ensures match AppendTool(old(State()), s)
              case Ok(t') => r == Ok(()) && State() == t'
              case Err(e) => r == Err(e) && State() == old(State())
    {
      if s.session !in sessions { return Err(NoSession); }
      var e := ToolEvent(nextEvent, s.session, s.assistantSeq, s.toolId,
                         s.provider.GetOr(sessions[s.session].GetOr("claude")), s.start, None, s.subagent, s.activity);
      var refs := if s.start.Some? then [s.start.value] + s.lineage else [];
      var linked := InsertLineage(e, refs);
      if !linked { return Err(FrameUnavailable); }
      events := events + [e];
      nextEvent := nextEvent + 1;
      if s.subagent.Some? || s.activity.Some? {
        contributions := contributions
                       + [Contribution(e.id, if s.start.Some? then Some(e.Key(s.start.value)) else None, s.subagent, s.activity)];
      }
      return Ok(());
    }

    /** One contribution and one column update per addressed tool row. */
    method SetToolEventMetadata(m: Metadata) returns (r: Result<(), Error>)
      modifies this`events, this`contributions
      ensures match SetMetadata(old(State()), m)
              case Ok(t') => r == Ok(()) && State() == t'
              case Err(e) => r == Err(e) && State() == old(State())
    {
      var events', added, changes := DescribeRows(frames, events, m);
      if changes == 0 { return Err(NoToolRow); }
      events, contributions := events', contributions + added;
      return Ok(());
    }

    /** One UPDATE; the frame a result names is stored unchecked. */
    method SetToolEventResult(u: ResultUpdate) returns (r: Result<(), Error>)
      modifies this`events
      ensures match SetResult(old(State()), u)
              case Ok(t') => r == Ok(()) && State() == t'
              case Err(e) => r == Err(e) && State() == old(State())
    {
      if !exists e :: e in events && Answered(e, u) { return Err(NoToolRow); }
      var rows := events;
      events := seq(|rows|, i requires 0 <= i < |rows| =>
        if Answered(rows[i], u)
        then rows[i].(result := Some(ResultCell(u.text, u.isError, u.frame))) else rows[i]);
      return Ok(());
    }

    /** The steers of one response, one UPDATE each. */
    method RemapSteers(row: RowKey, positions: seq<nat>)
      modifies this`messages
      ensures messages.Keys == old(messages).Keys
      ensures forall k :: k in messages ==> messages[k] == SteerMoved(k, old(messages)[k], row, positions)
    {
      ghost var before := messages;
      var steerRows := set k | k in messages && messages[k].UserRow? && messages[k].steer.Some?
                            && RowKey(k.session, messages[k].steer.value.target) == row;
      ghost var all := steerRows;
      while steerRows != {}
        invariant steerRows <= all && messages.Keys == before.Keys
        invariant forall k :: k in messages ==>
                    messages[k] == if k in steerRows then before[k] else SteerMoved(k, before[k], row, positions)
      {
        var k :| k in steerRows;
        var steer := messages[k].steer.value;
        var below := CountPositionsBelow(positions, steer.toolIndex);
        var next := if steer.toolIndex - below < 0 then 0 else steer.toolIndex - below;
        messages := messages[k := UserRow(Some(steer.(toolIndex := next)))];
        steerRows := steerRows - {k};
      }
    }

    /** Tombstones first, frame by frame, so that a frame retracted before it arrives stays out. */
    method InsertTombstones(r: Retraction) returns (keys: set<FrameKey>)
      modifies this`tombstones
      ensures keys == RetractionKeys(r)
      ensures State() == AddTombstones(old(State()), r)
    {
      keys := {};
      for i := 0 to |r.uuids|
        invariant keys == RetractionKeys(r.(uuids := r.uuids[..i]))
        invariant State() == AddTombstones(old(State()), r.(uuids := r.uuids[..i]))
      {
        assert r.uuids[..i + 1] == r.uuids[..i] + [r.uuids[i]];
        if r.uuids[i] != "" {
          var key := FrameKey(r.session, r.provider, r.providerSession, r.uuids[i]);
          keys := keys + {key};
          if r.session in sessions { tombstones := tombstones + {key}; }
          assert RetractionKeys(r.(uuids := r.uuids[..i + 1])) == RetractionKeys(r.(uuids := r.uuids[..i])) + {key};
        } else {
          assert RetractionKeys(r.(uuids := r.uuids[..i + 1])) == RetractionKeys(r.(uuids := r.uuids[..i]));
        }
      }
      assert r.uuids[..|r.uuids|] == r.uuids;
    }

    /** Text and steers of one response. */
    method ReviseResponse(ghost t: Tables, r: Retraction, ghost changed: set<FrameKey>, ghost todo: set<RowKey>,
                          row: RowKey, positions: seq<nat>)
      requires frames == MarkRetracted(t.frames, changed) && messages.Keys == t.messages.Keys
      requires row in todo && todo <= AffectedRows(t, changed)
      requires positions == Positions(RowEvents(t.events, row), RemovedIds(t, changed))
      requires forall k :: k in messages ==> RevisedSoFar(t, r, changed, todo, k, messages[k])
      modifies this`messages
      ensures messages.Keys == t.messages.Keys
      ensures forall k :: k in messages ==> RevisedSoFar(t, r, changed, todo - {row}, k, messages[k])
    {
      ghost var before := messages;
      var text := ReconcileProviderAssistantText(row, r.provider);
      ghost var between := messages;
      assert forall k :: k in before ==>
        between[k] == if k == row && before[k].AssistantRow? then AssistantRow(text) else before[k];
      RemapSteers(row, positions);
      forall k | k in messages ensures RevisedSoFar(t, r, changed, todo - {row}, k, messages[k]) {
        OneResponseRevised(t, r, changed, todo, row, k, before[k], between[k]);
      }
    }

    /** Text and steers of every affected response. */
    method ReviseResponses(ghost t: Tables, r: Retraction, ghost changed: set<FrameKey>, affected: set<RowKey>,
                           positions: map<RowKey, seq<nat>>)
      requires frames == MarkRetracted(t.frames, changed) && messages == t.messages
      requires affected == AffectedRows(t, changed) && positions.Keys == affected
      requires forall row :: row in affected ==> positions[row] == Positions(RowEvents(t.events, row), RemovedIds(t, changed))
      modifies this`messages
      ensures messages == RevisedMessages(t, r, changed)
    {
      var todo := affected;
      forall k | k in messages ensures RevisedSoFar(t, r, changed, todo, k, messages[k]) {
        UnaffectedMessage(t, r, changed, k);
      }
      while todo != {}
        invariant todo <= affected && messages.Keys == t.messages.Keys
        invariant forall k :: k in messages ==> RevisedSoFar(t, r, changed, todo, k, messages[k])
      {
        var row :| row in todo;
        ReviseResponse(t, r, changed, todo, row, positions[row]);
        todo := todo - {row};
      }
      assert forall k :: k in messages ==> RevisedSoFar(t, r, changed, {}, k, messages[k]);
    }

    /** The statements from the frame update on, over the tables `t` they started from. */
    method ReviseTables(ghost t: Tables, r: Retraction, changed: set<FrameKey>, removed: set<nat>, affected: set<RowKey>,
                        positions: map<RowKey, seq<nat>>, subagentRows: set<nat>, activityRows: set<nat>)
      requires t == State()
      requires removed == RemovedIds(t, changed) && affected == AffectedRows(t, changed) && positions.Keys == affected
      requires forall row :: row in affected ==> positions[row] == Positions(RowEvents(t.events, row), removed)
      requires subagentRows == AffectedBy(t.contributions, changed, Subagent)
      requires activityRows == AffectedBy(t.contributions, changed, Activity)
      modifies this
      ensures State() == ApplyRetraction(t, r, changed)
    {
      frames := MarkRetracted(frames, changed);
      var rows := Survivors(events, removed);
      lineage := set p | p in lineage && p.0 !in removed;
      contributions := KeptContributions(contributions, removed);
      events := ReviseRows(t, changed, removed, rows, frames, contributions, subagentRows, activityRows);
      ReviseResponses(t, r, changed, affected, positions);
    }

    method RetractProviderMessageFrames(r: Retraction)
      requires EventsSound(State())
      modifies this
      ensures State() == Retract(old(State()), r)
    {
      var keys := InsertTombstones(r);
      var changed := ChangedKeys(frames, keys);
      if changed == {} { return; }
      ghost var t := State();
      var removed := set e | e in events && (StartsIn(e, changed) || LineageIn(lineage, e.id, changed)) :: e.id;
      assert removed == RemovedIds(t, changed);
      var subagentRows := AffectedBy(contributions, changed, Subagent);
      var activityRows := AffectedBy(contributions, changed, Activity);
      var affected := AffectedSeqs(frames, events, changed, removed, subagentRows, activityRows);
      AffectedByIds(t, changed);
      var positions := PositionsByRow(events, affected, removed);
      ReviseTables(t, r, changed, removed, affected, positions, subagentRows, activityRows);
    }
  }
}
