/**
 The transcript tables that hang off the provider frame log, and what each committed
 transaction does to them: assistant text, tool rows, the start lineage and metadata
 contributions of a tool row, and the positions at which user steers cut a response.
 */
module Transcript {
  import opened Wrappers
  import opened ProviderFrames

  /** The part of a frame identity that a tool row stores; session and provider are the row's own. */
  datatype FrameRef = FrameRef(providerSession: string, uuid: string)

  datatype ResultCell = ResultCell(text: string, isError: bool, frame: Option<FrameRef>)

  datatype ToolEvent = ToolEvent(id: nat, session: string, assistantSeq: int, toolId: string, provider: string,
                                 start: Option<FrameRef>, result: Option<ResultCell>,
                                 subagent: Option<string>, activity: Option<string>)
  {
    function Row(): RowKey { RowKey(session, assistantSeq) }

    function Key(r: FrameRef): FrameKey { FrameKey(session, provider, r.providerSession, r.uuid) }
  }

  datatype Column = Subagent | Activity

  datatype Contribution = Contribution(event: nat, frame: Option<FrameKey>,
                                       subagent: Option<string>, activity: Option<string>)
  {
    function Cell(column: Column): Option<string> {
      if column == Subagent then subagent else activity
    }
  }

  function EventCell(e: ToolEvent, column: Column): Option<string> {
    if column == Subagent then e.subagent else e.activity
  }

  function WithCell(e: ToolEvent, column: Column, v: Option<string>): ToolEvent {
    if column == Subagent then e.(subagent := v) else e.(activity := v)
  }

  /** A steer splits the tool rows of its target response at toolIndex. */
  datatype Steer = Steer(target: int, toolIndex: int)

  datatype Message = AssistantRow(text: string) | UserRow(steer: Option<Steer>)

  datatype Tables = Tables(
    sessions: map<string, Option<string>>,
    frames: seq<Frame>,
    tombstones: set<FrameKey>,
    events: seq<ToolEvent>,
    nextEvent: nat,
    lineage: set<(nat, FrameKey)>,
    contributions: seq<Contribution>,
    messages: map<RowKey, Message>)

  datatype Error = ContentCollision | NoAssistantRow | NoSession | FrameUnavailable | NoToolRow

  datatype RecordOutcome = Recorded | Duplicate | WasRetracted

  predicate ActiveIn(frames: seq<Frame>, k: FrameKey) {
    exists f :: f in frames && f.input.key == k && !f.retracted
  }

  predicate StoredIn(frames: seq<Frame>, k: FrameKey) {
    exists i :: 0 <= i < |frames| && frames[i].input.key == k
  }

  // ----- assistant text -------------------------------------------------------------

  /** Rewrite one assistant row to the canonical text of the log. */
  function Reconcile(t: Tables, row: RowKey, provider: string): Tables {
    if row in t.messages && t.messages[row].AssistantRow? then
      t.(messages := t.messages[row := AssistantRow(CanonicalText(t.frames, row, provider))])
    else t
  }

  predicate SameContent(a: FrameInput, b: FrameInput) {
    a.kind == b.kind && a.text == b.text && a.toolStarts == b.toolStarts && a.toolResults == b.toolResults
  }

  /** The stored frame with a given identity. */
  function FindFrame(frames: seq<Frame>, k: FrameKey): (r: Option<Frame>)
    ensures r.None? <==> !StoredIn(frames, k)
    ensures r.Some? ==> r.value in frames && r.value.input.key == k
  {
    if frames == [] then None
    else if frames[0].input.key == k then Some(frames[0])
    else
      assert forall i | 1 <= i < |frames| :: frames[i] == frames[1..][i - 1];
      FindFrame(frames[1..], k)
  }

  predicate HasAssistantRow(t: Tables, row: RowKey) {
    row.session in t.sessions && row in t.messages && t.messages[row].AssistantRow?
  }

  function RecordFrame(t: Tables, input: FrameInput): Result<(Tables, RecordOutcome), Error> {
    if input.key in t.tombstones then Ok((t, WasRetracted))
    else
      match FindFrame(t.frames, input.key)
      case Some(existing) =>
        if SameContent(existing.input, input)
        then Ok((Reconcile(t, existing.Row(), input.key.provider), Duplicate))
        else Err(ContentCollision)
      case None =>
        if HasAssistantRow(t, input.Row())
        then Ok((Reconcile(t.(frames := t.frames + [Frame(input, false)]), input.Row(), input.key.provider), Recorded))
        else Err(NoAssistantRow)
  }

  // ----- tool rows ------------------------------------------------------------------

  /** The newest non-null contribution to a column whose frame, if it names one, is active. */
  function LatestSurviving(contributions: seq<Contribution>, frames: seq<Frame>, event: nat, column: Column): Option<string>
  {
    if contributions == [] then None
    else
      var c := contributions[|contributions| - 1];
      if c.event == event && c.Cell(column).Some? && (c.frame.None? || ActiveIn(frames, c.frame.value))
      then c.Cell(column)
      else LatestSurviving(contributions[..|contributions| - 1], frames, event, column)
  }

  /** A tool start as it is delivered. */
  datatype ToolStart = ToolStart(session: string, assistantSeq: int, toolId: string, provider: Option<string>,
                                 subagent: Option<string>, activity: Option<string>,
                                 start: Option<FrameRef>, lineage: seq<FrameRef>)

  function NewEvent(t: Tables, s: ToolStart): ToolEvent
    requires s.session in t.sessions
  {
    ToolEvent(t.nextEvent, s.session, s.assistantSeq, s.toolId,
              s.provider.GetOr(t.sessions[s.session].GetOr("claude")),
              s.start, None, s.subagent, s.activity)
  }

  function StartRefs(s: ToolStart): seq<FrameRef> {
    if s.start.Some? then [s.start.value] + s.lineage else []
  }

  function StartContribution(e: ToolEvent): seq<Contribution> {
    if e.subagent.Some? || e.activity.Some?
    then [Contribution(e.id, if e.start.Some? then Some(e.Key(e.start.value)) else None, e.subagent, e.activity)]
    else []
  }

  function AppendTool(t: Tables, s: ToolStart): Result<Tables, Error> {
    if s.session !in t.sessions then Err(NoSession)
    else
      var e := NewEvent(t, s);
      if exists r :: r in StartRefs(s) && !ActiveIn(t.frames, e.Key(r)) then Err(FrameUnavailable)
      else Ok(t.(events := t.events + [e],
                 nextEvent := t.nextEvent + 1,
                 lineage := t.lineage + (set r | r in StartRefs(s) :: (e.id, e.Key(r))),
                 contributions := t.contributions + StartContribution(e)))
  }

  /** The tool rows a metadata update addresses. A named frame has to be active and lie on the row. */
  predicate Addressed(frames: seq<Frame>, e: ToolEvent, session: string, toolId: string, frame: Option<FrameRef>) {
    && e.session == session && e.toolId == toolId
    && (frame.Some? ==>
          exists f :: f in frames && f.input.key == e.Key(frame.value)
                   && f.input.assistantSeq == e.assistantSeq && !f.retracted)
  }

  datatype Metadata = Metadata(session: string, toolId: string, column: Column, json: string, frame: Option<FrameRef>)

  function MetadataContribution(e: ToolEvent, m: Metadata): Contribution {
    var frame := if m.frame.Some? then Some(e.Key(m.frame.value)) else None;
    if m.column == Subagent then Contribution(e.id, frame, Some(m.json), None)
    else Contribution(e.id, frame, None, Some(m.json))
  }

  function ContributionsFor(frames: seq<Frame>, events: seq<ToolEvent>, m: Metadata): seq<Contribution> {
    if events == [] then []
    else
      var e := events[|events| - 1];
      ContributionsFor(frames, events[..|events| - 1], m)
      + if Addressed(frames, e, m.session, m.toolId, m.frame) then [MetadataContribution(e, m)] else []
  }

  function WithMetadata(frames: seq<Frame>, events: seq<ToolEvent>, m: Metadata): seq<ToolEvent> {
    seq(|events|, i requires 0 <= i < |events| =>
      if Addressed(frames, events[i], m.session, m.toolId, m.frame)
      then WithCell(events[i], m.column, Some(m.json)) else events[i])
  }

  function SetMetadata(t: Tables, m: Metadata): Result<Tables, Error> {
    if exists e :: e in t.events && Addressed(t.frames, e, m.session, m.toolId, m.frame) then
      Ok(t.(events := WithMetadata(t.frames, t.events, m),
            contributions := t.contributions + ContributionsFor(t.frames, t.events, m)))
    else Err(NoToolRow)
  }

  datatype ResultUpdate = ResultUpdate(session: string, toolId: string, text: string, isError: bool,
                                   frame: Option<FrameRef>, assistantSeq: Option<int>)

  predicate Answered(e: ToolEvent, r: ResultUpdate) {
    && e.session == r.session && e.toolId == r.toolId
    && (r.assistantSeq.None? || r.assistantSeq.value == e.assistantSeq)
  }

  function SetResult(t: Tables, r: ResultUpdate): Result<Tables, Error> {
    if exists e :: e in t.events && Answered(e, r) then
      Ok(t.(events := seq(|t.events|, i requires 0 <= i < |t.events| =>
        if Answered(t.events[i], r)
        then t.events[i].(result := Some(ResultCell(r.text, r.isError, r.frame))) else t.events[i])))
    else Err(NoToolRow)
  }

  // ----- retraction -----------------------------------------------------------------

  datatype Retraction = Retraction(session: string, provider: string, providerSession: string, uuids: seq<string>)

  function RetractionKeys(r: Retraction): set<FrameKey> {
    set u | u in r.uuids && u != "" :: FrameKey(r.session, r.provider, r.providerSession, u)
  }

  /** The named frames that are stored and still active. */
  function ChangedKeys(frames: seq<Frame>, keys: set<FrameKey>): set<FrameKey> {
    set f | f in frames && f.input.key in keys && !f.retracted :: f.input.key
  }

  function MarkRetracted(frames: seq<Frame>, changed: set<FrameKey>): seq<Frame> {
    seq(|frames|, i requires 0 <= i < |frames| =>
      if frames[i].input.key in changed then frames[i].(retracted := true) else frames[i])
  }

  predicate StartsIn(e: ToolEvent, changed: set<FrameKey>) {
    e.start.Some? && e.Key(e.start.value) in changed
  }

  predicate ResultIn(e: ToolEvent, changed: set<FrameKey>) {
    e.result.Some? && e.result.value.frame.Some? && e.Key(e.result.value.frame.value) in changed
  }

  predicate LineageIn(lineage: set<(nat, FrameKey)>, event: nat, changed: set<FrameKey>) {
    exists p :: p in lineage && p.0 == event && p.1 in changed
  }

  predicate Contributes(contributions: seq<Contribution>, event: nat, changed: set<FrameKey>, column: Column) {
    exists c :: c in contributions && c.event == event && c.Cell(column).Some?
             && c.frame.Some? && c.frame.value in changed
  }

  /** The tool rows a retraction deletes. */
  predicate Removed(t: Tables, e: ToolEvent, changed: set<FrameKey>) {
    StartsIn(e, changed) || LineageIn(t.lineage, e.id, changed)
  }

  /** The tool rows a retraction deletes or revises. */
  predicate Touched(t: Tables, e: ToolEvent, changed: set<FrameKey>) {
    || Removed(t, e, changed)
    || ResultIn(e, changed)
    || Contributes(t.contributions, e.id, changed, Subagent)
    || Contributes(t.contributions, e.id, changed, Activity)
  }

  function RemovedIds(t: Tables, changed: set<FrameKey>): set<nat> {
    set e | e in t.events && Removed(t, e, changed) :: e.id
  }

  function AffectedRows(t: Tables, changed: set<FrameKey>): set<RowKey> {
    (set f | f in t.frames && f.input.key in changed :: f.Row())
    + (set e | e in t.events && Touched(t, e, changed) :: e.Row())
  }

  /** DELETE ... WHERE id IN removed. */
  function Survivors(events: seq<ToolEvent>, removed: set<nat>): (r: seq<ToolEvent>)
    ensures forall e :: e in r <==> e in events && e.id !in removed
  {
    if events == [] then []
    else
      var e := events[|events| - 1];
      assert events == events[..|events| - 1] + [e];
      Survivors(events[..|events| - 1], removed) + if e.id in removed then [] else [e]
  }

  /** Contributions of deleted tool rows go with them. */
  function KeptContributions(contributions: seq<Contribution>, removed: set<nat>): (r: seq<Contribution>)
    ensures forall c :: c in r <==> c in contributions && c.event !in removed
  {
    if contributions == [] then []
    else
      var c := contributions[|contributions| - 1];
      assert contributions == contributions[..|contributions| - 1] + [c];
      KeptContributions(contributions[..|contributions| - 1], removed) + if c.event in removed then [] else [c]
  }

  function ClearResult(e: ToolEvent, changed: set<FrameKey>): ToolEvent {
    if ResultIn(e, changed) then e.(result := None) else e
  }

  function RestoredCell(t: Tables, e: ToolEvent, changed: set<FrameKey>, column: Column): Option<string> {
    if Contributes(t.contributions, e.id, changed, column)
    then LatestSurviving(t.contributions, MarkRetracted(t.frames, changed), e.id, column)
    else EventCell(e, column)
  }

  /** A surviving tool row after the retraction. */
  function Revised(t: Tables, e: ToolEvent, changed: set<FrameKey>): ToolEvent {
    ClearResult(e, changed).(subagent := RestoredCell(t, e, changed, Subagent),
                             activity := RestoredCell(t, e, changed, Activity))
  }

  function RevisedAll(t: Tables, events: seq<ToolEvent>, changed: set<FrameKey>): seq<ToolEvent> {
    seq(|events|, i requires 0 <= i < |events| => Revised(t, events[i], changed))
  }

  /** The tool rows of one response, by id. */
  function RowEvents(events: seq<ToolEvent>, row: RowKey): (r: seq<ToolEvent>)
    ensures forall e :: e in r <==> e in events && e.Row() == row
  {
    if events == [] then []
    else
      var e := events[|events| - 1];
      assert events == events[..|events| - 1] + [e];
      RowEvents(events[..|events| - 1], row) + if e.Row() == row then [e] else []
  }

  /** How many of the first `index` rows are deleted. */
  function RemovedBefore(rows: seq<ToolEvent>, removed: set<nat>, index: int): nat {
    if rows == [] then 0
    else
      RemovedBefore(rows[..|rows| - 1], removed, index)
      + if rows[|rows| - 1].id in removed && |rows| - 1 < index then 1 else 0
  }

  function RemapIndex(rows: seq<ToolEvent>, removed: set<nat>, index: int): int {
    var next := index - RemovedBefore(rows, removed, index);
    if next < 0 then 0 else next
  }

  function RevisedMessage(t: Tables, k: RowKey, m: Message, r: Retraction, changed: set<FrameKey>): Message {
    match m
    case AssistantRow(_) =>
      if k in AffectedRows(t, changed)
      then AssistantRow(CanonicalText(MarkRetracted(t.frames, changed), k, r.provider)) else m
    case UserRow(steer) =>
      if steer.Some? && RowKey(k.session, steer.value.target) in AffectedRows(t, changed)
      then
        var rows := RowEvents(t.events, RowKey(k.session, steer.value.target));
        UserRow(Some(steer.value.(toolIndex := RemapIndex(rows, RemovedIds(t, changed), steer.value.toolIndex))))
      else m
  }

  function RevisedMessages(t: Tables, r: Retraction, changed: set<FrameKey>): map<RowKey, Message> {
    map k | k in t.messages :: RevisedMessage(t, k, t.messages[k], r, changed)
  }

  function AddTombstones(t: Tables, r: Retraction): Tables {
    if r.session in t.sessions then t.(tombstones := t.tombstones + RetractionKeys(r)) else t
  }

  /** Everything a retraction does once it has found active frames to retract. */
  function ApplyRetraction(t: Tables, r: Retraction, changed: set<FrameKey>): Tables {
    var removed := RemovedIds(t, changed);
    t.(frames := MarkRetracted(t.frames, changed),
       events := RevisedAll(t, Survivors(t.events, removed), changed),
       lineage := (set p | p in t.lineage && p.0 !in removed),
       contributions := KeptContributions(t.contributions, removed),
       messages := RevisedMessages(t, r, changed))
  }

  function Retract(t: Tables, r: Retraction): Tables {
    var t' := AddTombstones(t, r);
    var changed := ChangedKeys(t.frames, RetractionKeys(r));
    if changed == {} then t' else ApplyRetraction(t', r, changed)
  }

  // ----- runs -----------------------------------------------------------------------

  datatype Op =
    | Record(input: FrameInput)
    | Retraction_(retraction: Retraction)
    | Append(start: ToolStart)
    | Describe(metadata: Metadata)
    | Answer(result: ResultUpdate)

  /** A transaction that throws is rolled back. */
  function Step(t: Tables, op: Op): Tables {
    match op
    case Record(input) => (match RecordFrame(t, input) case Ok(r) => r.0 case Err(_) => t)
    case Retraction_(r) => Retract(t, r)
    case Append(s) => (match AppendTool(t, s) case Ok(t') => t' case Err(_) => t)
    case Describe(m) => (match SetMetadata(t, m) case Ok(t') => t' case Err(_) => t)
    case Answer(r) => (match SetResult(t, r) case Ok(t') => t' case Err(_) => t)
  }

  function Run(t: Tables, ops: seq<Op>): Tables {
    if ops == [] then t else Step(Run(t, ops[..|ops| - 1]), ops[|ops| - 1])
  }
}
