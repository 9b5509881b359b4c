/**
 The assistant text converges: whatever the order in which frames arrive, replay and are
 retracted, a row ends with the ordered join of its frames that were never retracted.
 */
module TranscriptConvergence {
  import opened Wrappers
  import opened FrameText
  import opened ProviderFrames
  import opened FrameLayout
  import opened Transcript
  import opened TranscriptInvariants

  // ----- the text of a row under the log operations -------------------------------------

  lemma TextFramesOfAdded(frames: seq<Frame>, f: Frame, row: RowKey, provider: string)
    requires f.Row() != row
    ensures TextFrames(frames + [f], row, provider) == TextFrames(frames, row, provider)
  {
    assert (frames + [f])[..|frames + [f]| - 1] == frames;
  }

  lemma {:induction false} TextFramesOfMarked(frames: seq<Frame>, changed: set<FrameKey>, row: RowKey, provider: string)
    requires forall f :: f in frames && f.input.key in changed ==> f.Row() != row
    ensures TextFrames(MarkRetracted(frames, changed), row, provider) == TextFrames(frames, row, provider)
  {
    if frames != [] {
      var init, last := frames[..|frames| - 1], frames[|frames| - 1];
      assert last in frames;
      forall f | f in init ensures f in frames {}
      TextFramesOfMarked(init, changed, row, provider);
      assert MarkRetracted(frames, changed)[..|frames| - 1] == MarkRetracted(init, changed);
    }
  }

  lemma {:induction false} NoTextFromOthers(frames: seq<Frame>, row: RowKey, provider: string)
    requires forall f :: f in frames && f.Row() == row ==> f.input.key.provider != provider
    ensures CanonicalText(frames, row, provider) == ""
  {
    var texts := TextFrames(frames, row, provider);
    assert texts != [] ==> texts[0] in frames && IsTextFrame(texts[0], row, provider);
  }

  // ----- one provider per row -----------------------------------------------------------

  /** Each assistant row belongs to one provider: the one its frames and its tool rows name. */
  ghost predicate FramesOwned(t: Tables, owner: RowKey -> string) {
    forall f :: f in t.frames ==> f.input.key.provider == owner(f.Row())
  }

  ghost predicate EventsOwned(t: Tables, owner: RowKey -> string) {
    forall e :: e in t.events ==> e.provider == owner(e.Row())
  }

  ghost predicate RowAgrees(t: Tables, owner: RowKey -> string, row: RowKey) {
    row in t.messages && t.messages[row].AssistantRow? ==>
      t.messages[row].text == CanonicalText(t.frames, row, owner(row))
  }

  ghost predicate TextAgrees(t: Tables, owner: RowKey -> string) {
    forall row :: RowAgrees(t, owner, row)
  }

  /** The operation writes each row under the provider that owns it. */
  ghost predicate OpOwned(sessions: map<string, Option<string>>, op: Op, owner: RowKey -> string) {
    match op
    case Record(input) => input.key.provider == owner(input.Row())
    case Append(s) =>
      s.session in sessions ==>
        s.provider.GetOr(sessions[s.session].GetOr("claude")) == owner(RowKey(s.session, s.assistantSeq))
    case _ => true
  }

  /** Reconciling one row under its owner repairs that row and leaves the others alone. */
  lemma ReconcileRepairs(t: Tables, row: RowKey, owner: RowKey -> string)
    requires forall other :: other != row ==> RowAgrees(t, owner, other)
    ensures TextAgrees(Reconcile(t, row, owner(row)), owner)
  {
    forall other ensures RowAgrees(Reconcile(t, row, owner(row)), owner, other) {
      if other != row { assert RowAgrees(t, owner, other); }
    }
  }

  lemma AddedFrameKeepsOthers(t: Tables, f: Frame, owner: RowKey -> string)
    requires TextAgrees(t, owner)
    ensures forall other :: other != f.Row() ==> RowAgrees(t.(frames := t.frames + [f]), owner, other)
  {
    forall other | other != f.Row() ensures RowAgrees(t.(frames := t.frames + [f]), owner, other) {
      assert RowAgrees(t, owner, other);
      TextFramesOfAdded(t.frames, f, other, owner(other));
    }
  }

  lemma RecordKeepsText(t: Tables, input: FrameInput, owner: RowKey -> string)
    requires TextAgrees(t, owner) && FramesOwned(t, owner)
    requires input.key.provider == owner(input.Row())
    requires RecordFrame(t, input).Ok?
    ensures TextAgrees(RecordFrame(t, input).value.0, owner) && FramesOwned(RecordFrame(t, input).value.0, owner)
  {
    if input.key !in t.tombstones {
      match FindFrame(t.frames, input.key)
      case Some(existing) => ReconcileRepairs(t, existing.Row(), owner);
      case None =>
        var f := Frame(input, false);
        AddedFrameKeepsOthers(t, f, owner);
        ReconcileRepairs(t.(frames := t.frames + [f]), input.Row(), owner);
    }
  }

  /** An affected row of a retraction was touched through a frame or a tool row of the retracting
      provider, so it is that provider's row. */
  lemma AffectedRowsAreOwned(t: Tables, r: Retraction, changed: set<FrameKey>, owner: RowKey -> string, row: RowKey)
    requires ToolStateSound(t) && FramesOwned(t, owner) && EventsOwned(t, owner)
    requires forall k :: k in changed ==> k.provider == r.provider
    requires row in AffectedRows(t, changed)
    ensures owner(row) == r.provider
  {
    if e :| e in t.events && Touched(t, e, changed) && e.Row() == row {
      if LineageIn(t.lineage, e.id, changed) {
        var p :| p in t.lineage && p.0 == e.id && p.1 in changed;
        assert OwnedBy(t.events, p);
      } else if column :| Contributes(t.contributions, e.id, changed, column) {
        var c :| c in t.contributions && c.event == e.id && c.Cell(column).Some? && c.frame.Some? && c.frame.value in changed;
        assert FitsRow(t.events, c);
      }
    } else {
      var f :| f in t.frames && f.input.key in changed && f.Row() == row;
    }
  }

  /** The rows a retraction would overwrite with another provider's text. */
  ghost predicate ForeignRow(t: Tables, r: Retraction, owner: RowKey -> string, row: RowKey) {
    var changed := ChangedKeys(t.frames, RetractionKeys(r));
    && row in t.messages && t.messages[row].AssistantRow?
    && row in AffectedRows(t, changed)
    && owner(row) != r.provider
  }

  lemma UnreachedRowKeepsText(t: Tables, r: Retraction, owner: RowKey -> string, row: RowKey)
    requires RowAgrees(t, owner, row)
    requires row !in AffectedRows(t, ChangedKeys(t.frames, RetractionKeys(r)))
    ensures RowAgrees(Retract(t, r), owner, row)
  {
    var changed := ChangedKeys(t.frames, RetractionKeys(r));
    TextFramesOfMarked(t.frames, changed, row, owner(row));
    assert AffectedRows(AddTombstones(t, r), changed) == AffectedRows(t, changed);
  }

  /** What a retraction writes into a row of another provider. */
  lemma ForeignRowIsWiped(t: Tables, r: Retraction, owner: RowKey -> string, row: RowKey)
    requires FramesOwned(t, owner)
    requires ForeignRow(t, r, owner, row)
    requires ChangedKeys(t.frames, RetractionKeys(r)) != {}
    ensures Retract(t, r).messages[row] == AssistantRow("")
    ensures CanonicalText(Retract(t, r).frames, row, owner(row)) == CanonicalText(t.frames, row, owner(row))
  {
    var changed := ChangedKeys(t.frames, RetractionKeys(r));
    var marked := MarkRetracted(t.frames, changed);
    assert AffectedRows(AddTombstones(t, r), changed) == AffectedRows(t, changed);
    forall f | f in marked && f.Row() == row ensures f.input.key.provider != r.provider {
      var i :| 0 <= i < |marked| && marked[i] == f;
      assert t.frames[i] in t.frames;
    }
    NoTextFromOthers(marked, row, r.provider);
    forall f | f in t.frames && f.input.key in changed ensures f.Row() != row {
      assert f.input.key.provider == r.provider;
    }
    TextFramesOfMarked(t.frames, changed, row, owner(row));
  }

  const CODEX_ROW := RowKey("s", 1)
  const CLAUDE_FRAME := Frame(FrameInput(FrameKey("s", "claude", "p", "u"), 2, 1, Assistant, Some("later"), [], []), false)
  const CODEX_FRAME := Frame(FrameInput(FrameKey("s", "codex", "q", "v"), 1, 1, Assistant, Some("kept"), [], []), false)
  const LATE_TOOL := ToolEvent(0, "s", 1, "tool", "claude", Some(FrameRef("p", "u")), None, None, None)

  /** A Codex response on which a Claude frame started a tool row. */
  const SWITCHED := Tables(map["s" := Some("claude")], [CODEX_FRAME, CLAUDE_FRAME], {}, [LATE_TOOL], 1,
                           {(0, CLAUDE_FRAME.input.key)}, [],
                           map[CODEX_ROW := AssistantRow("kept"), RowKey("s", 2) := AssistantRow("later")])

  /** Retracting the Claude frame erases the Codex text, though no Codex frame is retracted. */
  lemma SwitchedProviderLosesText(owner: RowKey -> string)
    requires owner(CODEX_ROW) == "codex" && owner(RowKey("s", 2)) == "claude"
    ensures FramesOwned(SWITCHED, owner) && SWITCHED.messages[CODEX_ROW] == AssistantRow("kept")
    ensures Retract(SWITCHED, Retraction("s", "claude", "p", ["u"])).messages[CODEX_ROW] == AssistantRow("")
  {
    var r := Retraction("s", "claude", "p", ["u"]);
    var key := CLAUDE_FRAME.input.key;
    assert SWITCHED.frames[0] == CODEX_FRAME && SWITCHED.frames[1] == CLAUDE_FRAME && SWITCHED.events[0] == LATE_TOOL;
    assert CODEX_FRAME.Row() == CODEX_ROW && CLAUDE_FRAME.Row() == RowKey("s", 2) && LATE_TOOL.Row() == CODEX_ROW;
    assert key in RetractionKeys(r) && key in ChangedKeys(SWITCHED.frames, RetractionKeys(r)) by {
      assert "u" in r.uuids && CLAUDE_FRAME in SWITCHED.frames;
    }
    assert LATE_TOOL in SWITCHED.events && StartsIn(LATE_TOOL, ChangedKeys(SWITCHED.frames, RetractionKeys(r)));
    assert ForeignRow(SWITCHED, r, owner, CODEX_ROW);
    ForeignRowIsWiped(SWITCHED, r, owner, CODEX_ROW);
  }

  /** A retraction leaves an assistant row canonical, except that it wipes the text of a row of
      another provider when one of the tool rows it touches lies there. */
  lemma RetractedRowAgreesExactly(t: Tables, r: Retraction, owner: RowKey -> string, row: RowKey)
    requires TextAgrees(t, owner) && FramesOwned(t, owner)
    requires row in t.messages && t.messages[row].AssistantRow?
    ensures RowAgrees(Retract(t, r), owner, row)
       <==> !(ForeignRow(t, r, owner, row) && t.messages[row].text != "")
  {
    var changed := ChangedKeys(t.frames, RetractionKeys(r));
    assert RowAgrees(t, owner, row);
    if row !in AffectedRows(t, changed) {
      UnreachedRowKeepsText(t, r, owner, row);
    } else {
      assert changed != {};
      assert AffectedRows(AddTombstones(t, r), changed) == AffectedRows(t, changed);
      if ForeignRow(t, r, owner, row) {
        ForeignRowIsWiped(t, r, owner, row);
      }
    }
  }

  lemma RetractKeepsOwned(t: Tables, r: Retraction, owner: RowKey -> string)
    requires FramesOwned(t, owner) && EventsOwned(t, owner)
    ensures FramesOwned(Retract(t, r), owner) && EventsOwned(Retract(t, r), owner)
  {
    var t', changed := Retract(t, r), ChangedKeys(t.frames, RetractionKeys(r));
    forall f | f in t'.frames ensures f.input.key.provider == owner(f.Row()) {
      var i :| 0 <= i < |t'.frames| && t'.frames[i] == f;
      assert t.frames[i] in t.frames;
    }
    if changed != {} {
      forall e' | e' in t'.events ensures e'.provider == owner(e'.Row()) {
        var e := RevisedFrom(AddTombstones(t, r), r, changed, e');
      }
    }
  }

  lemma RetractKeepsText(t: Tables, r: Retraction, owner: RowKey -> string)
    requires ToolStateSound(t) && TextAgrees(t, owner) && FramesOwned(t, owner) && EventsOwned(t, owner)
    ensures TextAgrees(Retract(t, r), owner)
  {
    forall row ensures RowAgrees(Retract(t, r), owner, row) { RetractKeepsRow(t, r, owner, row); }
  }

  lemma RetractKeepsRow(t: Tables, r: Retraction, owner: RowKey -> string, row: RowKey)
    requires ToolStateSound(t) && TextAgrees(t, owner) && FramesOwned(t, owner) && EventsOwned(t, owner)
    ensures RowAgrees(Retract(t, r), owner, row)
  {
    if row in t.messages && t.messages[row].AssistantRow? {
      RetractedRowAgreesExactly(t, r, owner, row);
      if ForeignRow(t, r, owner, row) {
        AffectedRowsAreOwned(t, r, ChangedKeys(t.frames, RetractionKeys(r)), owner, row);
      }
    }
  }

  ghost predicate TranscriptSound(t: Tables, owner: RowKey -> string) {
    ToolStateSound(t) && SessionsKnown(t) && TextAgrees(t, owner) && FramesOwned(t, owner) && EventsOwned(t, owner)
  }

  lemma UpdateKeepsOwned(t: Tables, t': Tables, owner: RowKey -> string)
    requires TextAgrees(t, owner) && FramesOwned(t, owner) && EventsOwned(t, owner)
    requires t'.frames == t.frames && t'.messages == t.messages
    requires forall e' :: e' in t'.events ==> e'.provider == owner(e'.Row())
    ensures TextAgrees(t', owner) && FramesOwned(t', owner) && EventsOwned(t', owner)
  {
    forall row ensures RowAgrees(t', owner, row) { assert RowAgrees(t, owner, row); }
  }

  /** Metadata and result updates do not move tool rows. */
  lemma UpdateKeepsTranscript(t: Tables, op: Op, owner: RowKey -> string)
    requires TextAgrees(t, owner) && FramesOwned(t, owner) && EventsOwned(t, owner)
    requires op.Describe? || op.Answer?
    ensures var t' := Step(t, op);
            TextAgrees(t', owner) && FramesOwned(t', owner) && EventsOwned(t', owner)
  {
    var t' := Step(t, op);
    forall e' | e' in t'.events ensures e'.provider == owner(e'.Row()) {
      var i :| 0 <= i < |t'.events| && t'.events[i] == e';
      assert t.events[i] in t.events;
    }
    UpdateKeepsOwned(t, t', owner);
  }

  lemma AppendKeepsTranscript(t: Tables, s: ToolStart, owner: RowKey -> string)
    requires TextAgrees(t, owner) && FramesOwned(t, owner) && EventsOwned(t, owner)
    requires OpOwned(t.sessions, Append(s), owner) && AppendTool(t, s).Ok?
    ensures var t' := AppendTool(t, s).value;
            TextAgrees(t', owner) && FramesOwned(t', owner) && EventsOwned(t', owner)
  {
    UpdateKeepsOwned(t, AppendTool(t, s).value, owner);
  }

  lemma StepKeepsTranscript(t: Tables, op: Op, owner: RowKey -> string)
    requires TranscriptSound(t, owner) && OpOwned(t.sessions, op, owner)
    ensures TranscriptSound(Step(t, op), owner)
  {
    StepKeepsSound(t, op);
    match op
    case Record(input) =>
      if RecordFrame(t, input).Ok? { RecordKeepsText(t, input, owner); }
    case Retraction_(r) =>
      RetractKeepsText(t, r, owner);
      RetractKeepsOwned(t, r, owner);
    case Append(s) =>
      if AppendTool(t, s).Ok? { AppendKeepsTranscript(t, s, owner); }
    case Describe(m) => UpdateKeepsTranscript(t, op, owner);
    case Answer(r) => UpdateKeepsTranscript(t, op, owner);
  }

  /** No transaction here changes the sessions or which rows exist and whose they are. */
  lemma StepKeepsRows(t: Tables, op: Op)
    ensures Step(t, op).sessions == t.sessions && Step(t, op).messages.Keys == t.messages.Keys
    ensures forall row :: HasAssistantRow(Step(t, op), row) <==> HasAssistantRow(t, row)
  {
    if op.Retraction_? { RetractKeepsRows(t, op.retraction); }
  }

  lemma RetractKeepsRows(t: Tables, r: Retraction)
    ensures Retract(t, r).sessions == t.sessions && Retract(t, r).messages.Keys == t.messages.Keys
    ensures forall row :: HasAssistantRow(Retract(t, r), row) <==> HasAssistantRow(t, row)
  {
    var changed := ChangedKeys(t.frames, RetractionKeys(r));
    var t' := AddTombstones(t, r);
    assert RevisedMessages(t', r, changed).Keys == t.messages.Keys;
    forall k | k in t.messages ensures RevisedMessage(t', k, t.messages[k], r, changed).AssistantRow? <==> t.messages[k].AssistantRow? {}
  }

  /** A transcript whose assistant rows are still empty. */
  ghost predicate Blank(t: Tables) {
    Fresh(t) && forall row :: row in t.messages && t.messages[row].AssistantRow? ==> t.messages[row].text == ""
  }

  ghost predicate RunOwned(t: Tables, ops: seq<Op>, owner: RowKey -> string) {
    forall i :: 0 <= i < |ops| ==> OpOwned(t.sessions, ops[i], owner)
  }

  /** In every reachable state each assistant row reads the ordered join of its active frames. */
  lemma {:induction false} TextFollowsLog(t: Tables, ops: seq<Op>, owner: RowKey -> string)
    requires Blank(t) && RunOwned(t, ops, owner)
    ensures TranscriptSound(Run(t, ops), owner) && Run(t, ops).sessions == t.sessions
  {
    if ops == [] {
      forall row ensures RowAgrees(t, owner, row) {}
    } else {
      TextFollowsLog(t, ops[..|ops| - 1], owner);
      StepKeepsTranscript(Run(t, ops[..|ops| - 1]), ops[|ops| - 1], owner);
      StepKeepsRows(Run(t, ops[..|ops| - 1]), ops[|ops| - 1]);
    }
  }

  // ----- convergence --------------------------------------------------------------------

  ghost function RecordsOf(ops: seq<Op>): set<FrameInput> {
    set op | op in ops && op.Record? :: op.input
  }

  ghost function RetractedBy(ops: seq<Op>): set<FrameKey> {
    set op, k | op in ops && op.Retraction_? && k in RetractionKeys(op.retraction) :: k
  }

  /** Replays repeat the frame they replay, and no two frames of a row share an order number. */
  ghost predicate Consistent(records: set<FrameInput>) {
    && (forall a, b :: a in records && b in records && a.key == b.key ==> a == b)
    && (forall a, b :: a in records && b in records && a != b && a.Row() == b.Row() ==> a.order != b.order)
  }

  /** The log holds exactly the delivered frames that have an assistant row, minus those that were
      retracted before they came. */
  ghost predicate LogHolds(t: Tables, s: Tables, records: set<FrameInput>, retracted: set<FrameKey>) {
    && (forall f :: f in s.frames ==> f.input in records && HasAssistantRow(t, f.Row()))
    && (forall k :: k in s.tombstones <==> k in retracted && k.session in t.sessions)
    && (forall input :: input in records && HasAssistantRow(t, input.Row()) && input.key !in s.tombstones ==>
          Frame(input, false) in s.frames)
  }

  lemma RecordsSplit(ops: seq<Op>)
    requires ops != []
    ensures RecordsOf(ops) == RecordsOf(ops[..|ops| - 1])
                            + if ops[|ops| - 1].Record? then {ops[|ops| - 1].input} else {}
    ensures RetractedBy(ops) == RetractedBy(ops[..|ops| - 1])
                              + if ops[|ops| - 1].Retraction_? then RetractionKeys(ops[|ops| - 1].retraction) else {}
  {
    assert ops == ops[..|ops| - 1] + [ops[|ops| - 1]];
  }

  lemma RecordLogs(t: Tables, s: Tables, input: FrameInput, records: set<FrameInput>, retracted: set<FrameKey>)
    requires LogHolds(t, s, records, retracted)
    requires ToolStateSound(s)
    requires forall row :: HasAssistantRow(s, row) <==> HasAssistantRow(t, row)
    requires Consistent(records + {input})
    ensures LogHolds(t, Step(s, Record(input)), records + {input}, retracted)
  {
    if input.key !in s.tombstones {
      match FindFrame(s.frames, input.key)
      case Some(existing) =>
        assert existing.input == input;
        var i :| 0 <= i < |s.frames| && s.frames[i] == existing;
        assert existing == Frame(input, false);
      case None =>
    }
  }

  lemma UnretractedFrameStays(s: Tables, r: Retraction, input: FrameInput)
    requires Frame(input, false) in s.frames && input.key !in RetractionKeys(r)
    ensures Frame(input, false) in Retract(s, r).frames
  {
    var s' := Retract(s, r);
    var i :| 0 <= i < |s.frames| && s.frames[i] == Frame(input, false);
    assert s'.frames[i] == s.frames[i];
  }

  lemma RetractMarksFrames(s: Tables, r: Retraction, f: Frame) returns (g: Frame)
    requires f in Retract(s, r).frames
    ensures g in s.frames && g.input == f.input
  {
    var s' := Retract(s, r);
    var i :| 0 <= i < |s'.frames| && s'.frames[i] == f;
    g := s.frames[i];
  }

  lemma RetractBuries(s: Tables, r: Retraction, k: FrameKey)
    requires SessionsKnown(s)
    ensures k in Retract(s, r).tombstones <==> k in s.tombstones || (k in RetractionKeys(r) && r.session in s.sessions)
    ensures k in RetractionKeys(r) ==> k.session == r.session
  {
  }

  lemma RetractLogs(t: Tables, s: Tables, r: Retraction, records: set<FrameInput>, retracted: set<FrameKey>)
    requires LogHolds(t, s, records, retracted)
    requires ToolStateSound(s) && SessionsKnown(s) && s.sessions == t.sessions
    ensures LogHolds(t, Retract(s, r), records, retracted + RetractionKeys(r))
  {
    var s' := Retract(s, r);
    forall f | f in s'.frames ensures f.input in records && HasAssistantRow(t, f.Row()) {
      var g := RetractMarksFrames(s, r, f);
    }
    forall k ensures k in s'.tombstones <==> k in retracted + RetractionKeys(r) && k.session in t.sessions {
      RetractBuries(s, r, k);
    }
    forall input | input in records && HasAssistantRow(t, input.Row()) && input.key !in s'.tombstones
      ensures Frame(input, false) in s'.frames
    {
      RetractBuries(s, r, input.key);
      UnretractedFrameStays(s, r, input);
    }
  }

  lemma {:induction false} RunLogs(t: Tables, ops: seq<Op>)
    requires Fresh(t) && Consistent(RecordsOf(ops))
    ensures LogHolds(t, Run(t, ops), RecordsOf(ops), RetractedBy(ops))
    ensures forall row :: HasAssistantRow(Run(t, ops), row) <==> HasAssistantRow(t, row)
    ensures Run(t, ops).sessions == t.sessions && Run(t, ops).messages.Keys == t.messages.Keys
  {
    if ops != [] {
      var init, last := ops[..|ops| - 1], ops[|ops| - 1];
      RecordsSplit(ops);
      RunLogs(t, init);
      RunKeepsSound(t, init);
      var s := Run(t, init);
      StepKeepsRows(s, last);
      match last
      case Record(input) => RecordLogs(t, s, input, RecordsOf(init), RetractedBy(init));
      case Retraction_(r) => RetractLogs(t, s, r, RecordsOf(init), RetractedBy(init));
      case _ => assert Step(s, last).frames == s.frames && Step(s, last).tombstones == s.tombstones;
    }
  }

  /** The frames a row ends with: delivered on it, text-bearing, and never retracted. */
  ghost predicate LiveOn(records: set<FrameInput>, retracted: set<FrameKey>, row: RowKey, f: Frame) {
    !f.retracted && f.input in records && f.input.key !in retracted && f.Row() == row && f.input.kind != ToolResult
  }

  lemma TextFramesAreLive(t: Tables, ops: seq<Op>, owner: RowKey -> string, row: RowKey, f: Frame)
    requires Blank(t) && Consistent(RecordsOf(ops)) && RunOwned(t, ops, owner)
    requires HasAssistantRow(t, row)
    ensures f in TextFrames(Run(t, ops).frames, row, owner(row)) <==> LiveOn(RecordsOf(ops), RetractedBy(ops), row, f)
  {
    RunLogs(t, ops);
    TextFollowsLog(t, ops, owner);
    var s := Run(t, ops);
    if f in TextFrames(s.frames, row, owner(row)) {
      var i :| 0 <= i < |s.frames| && s.frames[i] == f;
      assert f.input.key !in s.tombstones;
      assert SessionsKnown(s);
    }
    if LiveOn(RecordsOf(ops), RetractedBy(ops), row, f) {
      assert f == Frame(f.input, false);
      assert f in s.frames;
    }
  }

  lemma {:induction false} TextFramesHaveDistinctOrders(frames: seq<Frame>, row: RowKey, provider: string)
    requires forall i, j :: 0 <= i < j < |frames| && frames[i].Row() == frames[j].Row() ==>
               frames[i].input.order != frames[j].input.order
    ensures DistinctOrders(TextFrames(frames, row, provider))
  {
    if frames != [] {
      var init, last := frames[..|frames| - 1], frames[|frames| - 1];
      TextFramesHaveDistinctOrders(init, row, provider);
      var rest := TextFrames(init, row, provider);
      if IsTextFrame(last, row, provider) {
        forall i | 0 <= i < |rest| ensures rest[i].input.order != last.input.order {
          assert rest[i] in rest;
          var j :| 0 <= j < |init| && init[j] == rest[i];
          assert frames[j] == rest[i] && rest[i].Row() == row;
        }
      }
    }
  }

  lemma RunHasDistinctOrders(t: Tables, ops: seq<Op>, row: RowKey, provider: string)
    requires Fresh(t) && Consistent(RecordsOf(ops))
    ensures DistinctOrders(TextFrames(Run(t, ops).frames, row, provider))
  {
    RunLogs(t, ops);
    RunKeepsSound(t, ops);
    var s := Run(t, ops);
    forall i, j | 0 <= i < j < |s.frames| && s.frames[i].Row() == s.frames[j].Row()
      ensures s.frames[i].input.order != s.frames[j].input.order
    {
      assert s.frames[i] in s.frames && s.frames[j] in s.frames;
    }
    TextFramesHaveDistinctOrders(s.frames, row, provider);
  }

  /** After any run a row reads the ordered join of the frames delivered on it and never retracted. */
  lemma TextIsJoinOfLive(t: Tables, ops: seq<Op>, owner: RowKey -> string, row: RowKey) returns (live: seq<Frame>)
    requires Blank(t) && Consistent(RecordsOf(ops)) && RunOwned(t, ops, owner)
    requires HasAssistantRow(t, row)
    ensures StrictlyByOrder(live)
    ensures forall f :: f in live <==> LiveOn(RecordsOf(ops), RetractedBy(ops), row, f)
    ensures row in Run(t, ops).messages && Run(t, ops).messages[row] == AssistantRow(JoinAll(live))
  {
    var s := Run(t, ops);
    RunLogs(t, ops);
    TextFollowsLog(t, ops, owner);
    assert RowAgrees(s, owner, row);
    assert HasAssistantRow(s, row);
    var texts := TextFrames(s.frames, row, owner(row));
    live := OrderFrames(texts);
    RunHasDistinctOrders(t, ops, row, owner(row));
    DistinctOrdersSortStrictly(texts);
    forall f ensures f in live <==> LiveOn(RecordsOf(ops), RetractedBy(ops), row, f) {
      TextFramesAreLive(t, ops, owner, row, f);
      assert f in live <==> f in multiset(live);
      assert f in texts <==> f in multiset(texts);
    }
  }

  /** What the row shows: the non-empty fragments of exactly those frames, whole and in frame order, set off by
      blank lines; nothing else does, and without fragments it is empty. */
  lemma TextShowsLiveFragments(t: Tables, ops: seq<Op>, owner: RowKey -> string, row: RowKey)
    returns (live: seq<Frame>, from: seq<nat>, fragments: seq<string>, at: seq<nat>)
    requires Blank(t) && Consistent(RecordsOf(ops)) && RunOwned(t, ops, owner)
    requires HasAssistantRow(t, row)
    ensures StrictlyByOrder(live) && forall f :: f in live <==> LiveOn(RecordsOf(ops), RetractedBy(ops), row, f)
    ensures AreFragments(live, from, fragments)
    ensures row in Run(t, ops).messages && Run(t, ops).messages[row].AssistantRow?
    ensures var text := Run(t, ops).messages[row].text;
            && IsLaidOut(text, fragments, at) && (text == "" <==> fragments == [])
            && forall text', at' :: IsLaidOut(text', fragments, at') ==> text' == text
  {
    live := TextIsJoinOfLive(t, ops, owner, row);
    from, fragments, at := JoinAllLaysOut(live);
    LaidOutIsEmptyExactly(JoinAll(live), fragments, at);
    forall text', at' | IsLaidOut(text', fragments, at') ensures text' == JoinAll(live) {
      LaidOutOnce(text', JoinAll(live), fragments, at', at);
    }
  }

  /** Two runs that deliver the same frames and the same retractions, in any two orders and with any
      replays and any tool traffic in between, end with the same text in every assistant row. */
  lemma TextConverges(t: Tables, ops: seq<Op>, ops': seq<Op>, owner: RowKey -> string, row: RowKey)
    requires Blank(t) && Consistent(RecordsOf(ops)) && RunOwned(t, ops, owner) && RunOwned(t, ops', owner)
    requires RecordsOf(ops) == RecordsOf(ops') && RetractedBy(ops) == RetractedBy(ops')
    requires HasAssistantRow(t, row)
    ensures row in Run(t, ops).messages && row in Run(t, ops').messages
    ensures Run(t, ops).messages[row] == Run(t, ops').messages[row]
  {
    var live := TextIsJoinOfLive(t, ops, owner, row);
    var live' := TextIsJoinOfLive(t, ops', owner, row);
    StrictOrderUnique(live, live');
  }

  // ----- where convergence and agreement stop -------------------------------------------

  lemma PairOrder(a: Frame, b: Frame)
    requires a.input.order == b.input.order
    ensures OrderFrames([a, b]) == [a, b]
  {
    assert [a, b][..1] == [a];
    assert [a][..0] == [];
    assert OrderFrames([a]) == InsertByOrder([], a) == [a];
    assert InsertByOrder([a], b) == [a] + [b];
  }

  lemma PairText(a: Frame, b: Frame)
    requires a.input.text.Some? && b.input.text.Some? && a.input.text.value != "" && b.input.text.value != ""
    ensures JoinAll([a, b]) == JoinFrameText(a.input.text.value, b.input.text.value)
  {
    assert [a, b][..1] == [a];
    assert [a][..0] == [];
    assert JoinAll([a]) == JoinFrameText("", a.input.text.value);
  }

  /** Two frames of one row that share an order number are joined in the order they arrived, so
      without distinct orders two interleavings can leave different texts. */
  lemma SharedOrderDiverges(a: Frame, b: Frame)
    requires a.input.order == b.input.order
    requires a.input.text == Some("A") && b.input.text == Some("B")
    ensures JoinAll(OrderFrames([a, b])) != JoinAll(OrderFrames([b, a]))
  {
    PairOrder(a, b);
    PairOrder(b, a);
    PairText(a, b);
    PairText(b, a);
    assert JoinFrameText("A", "B")[0] == 'A' && JoinFrameText("B", "A")[0] == 'B';
  }

  // ----- what a record does -----------------------------------------------------------------------

  /** A frame enters the log exactly if it was not retracted before, no stored frame has its identity, and its session has
      the assistant row; no other record changes the log. */
  lemma RecordIsLoggedExactly(t: Tables, input: FrameInput)
    ensures var taken := && input.key !in t.tombstones && (forall i :: 0 <= i < |t.frames| ==> t.frames[i].input.key != input.key)
                         && input.key.session in t.sessions && RowKey(input.key.session, input.assistantSeq) in t.messages
                         && t.messages[RowKey(input.key.session, input.assistantSeq)].AssistantRow?;
            Step(t, Record(input)).frames == if taken then t.frames + [Frame(input, false)] else t.frames
  {
  }

  /** Of a frame that is stored already a replay is a duplicate exactly if kind, text, tool starts and tool results are
      the same; anything else under its identity is refused. */
  lemma ReplayIsDuplicateExactly(t: Tables, f: Frame, input: FrameInput)
    requires FramesSound(t) && f in t.frames && f.input.key == input.key && input.key !in t.tombstones
    ensures var same := f.input.kind == input.kind && f.input.text == input.text
                        && f.input.toolStarts == input.toolStarts && f.input.toolResults == input.toolResults;
            if same then RecordFrame(t, input).Ok? && RecordFrame(t, input).value.1 == Duplicate
            else RecordFrame(t, input) == Err(ContentCollision) && Step(t, Record(input)) == t
  {
    var i :| 0 <= i < |t.frames| && t.frames[i] == f;
    var found := FindFrame(t.frames, input.key).value;
    var j :| 0 <= j < |t.frames| && t.frames[j] == found;
  }
}
