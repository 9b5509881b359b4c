/**
 What becomes of a tool row over a run: it shows what it was started with, lives exactly until a frame of its start
 lineage is retracted, and shows the newest answer and metadata that were not.
 */
module ToolRows {
  import opened Wrappers
  import opened ProviderFrames
  import opened Transcript
  import opened TranscriptInvariants

  /** The row was started from one of the retracted frames. */
  ghost predicate Uproots(t: Tables, op: Op, id: nat) {
    op.Retraction_? && exists k :: (id, k) in t.lineage && k in RetractionKeys(op.retraction)
  }

  /** What no transaction changes in a tool row. */
  predicate SameIdentity(e: ToolEvent, e': ToolEvent) {
    && e'.id == e.id && e'.session == e.session && e'.assistantSeq == e.assistantSeq && e'.toolId == e.toolId
    && e'.provider == e.provider && e'.start == e.start
  }

  /** The answer is for this tool: of its session and tool id, and of its response if it names one. */
  predicate Answers(op: Op, e: ToolEvent) {
    && op.Answer? && op.result.session == e.session && op.result.toolId == e.toolId
    && (op.result.assistantSeq.Some? ==> op.result.assistantSeq.value == e.assistantSeq)
  }

  /** The retraction takes back the frame the result came from. */
  ghost predicate TakesBack(t: Tables, op: Op, e: ToolEvent) {
    && op.Retraction_? && e.result.Some? && e.result.value.frame.Some?
    && var k := FrameKey(e.session, e.provider, e.result.value.frame.value.providerSession, e.result.value.frame.value.uuid);
       k in RetractionKeys(op.retraction) && ActiveIn(t.frames, k)
  }

  /** A retraction names frames of its own session and provider session by their ids. */
  lemma RetractionNames(r: Retraction, k: FrameKey)
    ensures k in RetractionKeys(r) <==>
              && k.session == r.session && k.provider == r.provider && k.providerSession == r.providerSession && k.uuid != "" && k.uuid in r.uuids
  {
  }

  lemma ChangedAreActive(frames: seq<Frame>, keys: set<FrameKey>, k: FrameKey)
    ensures k in ChangedKeys(frames, keys) <==> k in keys && ActiveIn(frames, k)
  {
  }

  /** With a sound lineage a row is deleted exactly if a frame of its lineage is named. */
  lemma RemovedExactly(t: Tables, r: Retraction, e: ToolEvent)
    requires LineageSound(t) && e in t.events
    ensures Removed(t, e, ChangedKeys(t.frames, RetractionKeys(r))) <==> Uproots(t, Retraction_(r), e.id)
  {
    var changed := ChangedKeys(t.frames, RetractionKeys(r));
    forall k ensures k in changed <==> k in RetractionKeys(r) && ActiveIn(t.frames, k) { ChangedAreActive(t.frames, RetractionKeys(r), k); }
    if k :| (e.id, k) in t.lineage && k in RetractionKeys(r) {
      assert ActiveIn(t.frames, (e.id, k).1);
      assert LineageIn(t.lineage, e.id, changed);
    }
    if LineageIn(t.lineage, e.id, changed) {
      var p :| p in t.lineage && p.0 == e.id && p.1 in changed;
      assert (e.id, p.1) in t.lineage;
    }
  }

  lemma OneRowEach(t: Tables, e: ToolEvent, d: ToolEvent)
    requires EventsSound(t) && e in t.events && d in t.events && e.id == d.id
    ensures e == d
  {
    var i :| 0 <= i < |t.events| && t.events[i] == e;
    var j :| 0 <= j < |t.events| && t.events[j] == d;
  }

  lemma RemovedIdsAre(t: Tables, e: ToolEvent, changed: set<FrameKey>)
    requires EventsSound(t) && e in t.events
    ensures e.id in RemovedIds(t, changed) <==> Removed(t, e, changed)
  {
    if e.id in RemovedIds(t, changed) {
      var d :| d in t.events && Removed(t, d, changed) && d.id == e.id;
      OneRowEach(t, e, d);
    }
  }

  /** The row with this id, if the tables hold one. */
  ghost predicate HasRow(t: Tables, id: nat) {
    exists e :: e in t.events && e.id == id
  }

  /** How one transaction changes a row that it leaves in place. */
  ghost predicate Continues(t: Tables, op: Op, e: ToolEvent, e': ToolEvent) {
    && SameIdentity(e, e')
    && e'.result == (if Answers(op, e) then Some(ResultCell(op.result.text, op.result.isError, op.result.frame))
                     else if TakesBack(t, op, e) then None else e.result)
  }

  lemma RevisedContinues(t: Tables, u: Tables, r: Retraction, e: ToolEvent, changed: set<FrameKey>)
    requires changed == ChangedKeys(t.frames, RetractionKeys(r))
    ensures Continues(t, Retraction_(r), e, Revised(u, e, changed))
  {
    if e.result.Some? && e.result.value.frame.Some? { ChangedAreActive(t.frames, RetractionKeys(r), e.Key(e.result.value.frame.value)); }
  }

  lemma UntouchedContinues(t: Tables, r: Retraction, e: ToolEvent)
    requires ChangedKeys(t.frames, RetractionKeys(r)) == {}
    ensures Continues(t, Retraction_(r), e, e)
  {
    if e.result.Some? && e.result.value.frame.Some? { ChangedAreActive(t.frames, RetractionKeys(r), e.Key(e.result.value.frame.value)); }
  }

  lemma AppliedContinues(t: Tables, u: Tables, r: Retraction, e: ToolEvent, changed: set<FrameKey>, t': Tables)
    requires EventsSound(u) && e in u.events && changed == ChangedKeys(t.frames, RetractionKeys(r)) && t' == ApplyRetraction(u, r, changed)
    ensures HasRow(t', e.id) <==> !Removed(u, e, changed)
    ensures forall e' :: e' in t'.events && e'.id == e.id ==> Continues(t, Retraction_(r), e, e')
  {
    RemovedIdsAre(u, e, changed);
    if e.id !in RemovedIds(u, changed) {
      RevisedTo(u, r, changed, e);
      assert Revised(u, e, changed).id == e.id;
    }
    forall e' | e' in t'.events && e'.id == e.id ensures e.id !in RemovedIds(u, changed) && Continues(t, Retraction_(r), e, e') {
      var d := RevisedFrom(u, r, changed, e');
      OneRowEach(u, e, d);
      RevisedContinues(t, u, r, e, changed);
    }
  }

  lemma RetractionContinues(t: Tables, r: Retraction, e: ToolEvent)
    requires LineageSound(t) && EventsSound(t) && e in t.events
    ensures HasRow(Retract(t, r), e.id) <==> !Uproots(t, Retraction_(r), e.id)
    ensures forall e' :: e' in Retract(t, r).events && e'.id == e.id ==> Continues(t, Retraction_(r), e, e')
  {
    var u := AddTombstones(t, r);
    var changed := ChangedKeys(t.frames, RetractionKeys(r));
    RemovedExactly(t, r, e);
    assert Removed(t, e, changed) <==> Removed(u, e, changed);
    if changed == {} {
      UntouchedContinues(t, r, e);
      forall e' | e' in t.events && e'.id == e.id ensures e' == e { OneRowEach(t, e, e'); }
    } else {
      AppliedContinues(t, u, r, e, changed, Retract(t, r));
    }
  }

  // ----- the other transactions -----------------------------------------------------------------

  /** A transaction that rewrites rows where they stand. */
  lemma InPlaceContinues(t: Tables, t': Tables, op: Op, e: ToolEvent)
    requires EventsSound(t) && e in t.events && |t'.events| == |t.events|
    requires forall i :: 0 <= i < |t.events| ==> Continues(t, op, t.events[i], t'.events[i])
    ensures HasRow(t', e.id) && forall e' :: e' in t'.events && e'.id == e.id ==> Continues(t, op, e, e')
  {
    var i :| 0 <= i < |t.events| && t.events[i] == e;
    assert t'.events[i] in t'.events && t'.events[i].id == e.id;
    forall e' | e' in t'.events && e'.id == e.id ensures Continues(t, op, e, e') {
      var j :| 0 <= j < |t'.events| && t'.events[j] == e';
      assert t.events[j].id == e.id;
    }
  }

  lemma SameEventsContinue(t: Tables, t': Tables, op: Op, e: ToolEvent)
    requires EventsSound(t) && e in t.events && t'.events == t.events && !op.Retraction_? && (op.Answer? ==> forall d :: d in t.events ==> !Answers(op, d))
    ensures HasRow(t', e.id) && forall e' :: e' in t'.events && e'.id == e.id ==> Continues(t, op, e, e')
  {
    InPlaceContinues(t, t', op, e);
  }

  lemma AnsweredIs(e: ToolEvent, r: ResultUpdate)
    ensures Answered(e, r) <==> Answers(Answer(r), e)
  {
  }

  lemma AnsweredContinues(t: Tables, r: ResultUpdate, e: ToolEvent)
    ensures Continues(t, Answer(r), e, if Answered(e, r) then e.(result := Some(ResultCell(r.text, r.isError, r.frame))) else e)
  {
    AnsweredIs(e, r);
  }

  lemma AnswerContinues(t: Tables, r: ResultUpdate, e: ToolEvent)
    requires EventsSound(t) && e in t.events
    ensures HasRow(Step(t, Answer(r)), e.id) && forall e' :: e' in Step(t, Answer(r)).events && e'.id == e.id ==> Continues(t, Answer(r), e, e')
  {
    var t' := Step(t, Answer(r));
    if SetResult(t, r).Ok? {
      forall i | 0 <= i < |t.events| ensures Continues(t, Answer(r), t.events[i], t'.events[i]) { AnsweredContinues(t, r, t.events[i]); }
      InPlaceContinues(t, t', Answer(r), e);
    } else {
      forall d | d in t.events ensures !Answers(Answer(r), d) { AnsweredIs(d, r); }
      SameEventsContinue(t, t', Answer(r), e);
    }
  }

  lemma DescribeContinues(t: Tables, m: Metadata, e: ToolEvent)
    requires EventsSound(t) && e in t.events
    ensures HasRow(Step(t, Describe(m)), e.id) && forall e' :: e' in Step(t, Describe(m)).events && e'.id == e.id ==> Continues(t, Describe(m), e, e')
  {
    var t' := Step(t, Describe(m));
    if SetMetadata(t, m).Ok? {
      forall i | 0 <= i < |t.events| ensures Continues(t, Describe(m), t.events[i], t'.events[i]) {}
      InPlaceContinues(t, t', Describe(m), e);
    } else {
      SameEventsContinue(t, t', Describe(m), e);
    }
  }

  lemma AppendContinues(t: Tables, s: ToolStart, e: ToolEvent)
    requires EventsSound(t) && e in t.events
    ensures HasRow(Step(t, Append(s)), e.id) && forall e' :: e' in Step(t, Append(s)).events && e'.id == e.id ==> Continues(t, Append(s), e, e')
  {
    var t' := Step(t, Append(s));
    assert e in t'.events;
    forall e' | e' in t'.events && e'.id == e.id ensures e' == e {
      if e' in t.events { OneRowEach(t, e, e'); }
    }
  }

  /** One transaction: the row stays exactly unless it is uprooted, and changes at most its result and metadata. */
  lemma StepContinues(t: Tables, op: Op, e: ToolEvent)
    requires LineageSound(t) && EventsSound(t) && e in t.events
    ensures HasRow(Step(t, op), e.id) <==> !Uproots(t, op, e.id)
    ensures forall e' :: e' in Step(t, op).events && e'.id == e.id ==> Continues(t, op, e, e')
  {
    match op
    case Record(input) => SameEventsContinue(t, Step(t, op), op, e);
    case Retraction_(r) => RetractionContinues(t, r, e);
    case Append(s) => AppendContinues(t, s, e);
    case Describe(m) => DescribeContinues(t, m, e);
    case Answer(r) => AnswerContinues(t, r, e);
  }

  /** While the row stays, its lineage does. */
  lemma LineageContinues(t: Tables, op: Op, e: ToolEvent, k: FrameKey)
    requires EventsSound(t) && e in t.events && HasRow(Step(t, op), e.id)
    ensures (e.id, k) in Step(t, op).lineage <==> (e.id, k) in t.lineage
  {
    if op.Retraction_? {
      var u := AddTombstones(t, op.retraction);
      var changed := ChangedKeys(t.frames, RetractionKeys(op.retraction));
      if changed != {} { AppliedContinues(t, u, op.retraction, e, changed, Step(t, op)); RemovedIdsAre(u, e, changed); }
    }
  }

  /** Row ids are not given out again. */
  lemma NoRowReturns(t: Tables, op: Op, id: nat)
    requires id < t.nextEvent
    ensures id < Step(t, op).nextEvent && (!HasRow(t, id) ==> !HasRow(Step(t, op), id))
  {
    if HasRow(Step(t, op), id) {
      var e' :| e' in Step(t, op).events && e'.id == id;
      RowComesFrom(t, op, e');
    }
  }

  lemma RowComesFrom(t: Tables, op: Op, e': ToolEvent)
    requires e' in Step(t, op).events && e'.id < t.nextEvent
    ensures HasRow(t, e'.id)
  {
    var t' := Step(t, op);
    if op.Retraction_? && t'.events != t.events {
      var e := RevisedFrom(AddTombstones(t, op.retraction), op.retraction, ChangedKeys(t.frames, RetractionKeys(op.retraction)), e');
    } else if op.Append? {
      assert e' in t.events;
    } else {
      var i :| 0 <= i < |t'.events| && t'.events[i] == e';
      assert t.events[i] in t.events && t.events[i].id == e'.id;
    }
  }

  // ----- runs -----------------------------------------------------------------------------------

  lemma {:induction false} RunStaysSound(t: Tables, ops: seq<Op>)
    requires ToolStateSound(t) && SessionsKnown(t)
    ensures ToolStateSound(Run(t, ops)) && SessionsKnown(Run(t, ops))
  {
    if ops != [] {
      RunStaysSound(t, ops[..|ops| - 1]);
      StepKeepsSound(Run(t, ops[..|ops| - 1]), ops[|ops| - 1]);
    }
  }

  /** Some transaction of the run takes back a frame the row was started from. */
  ghost predicate Uprooted(s: Tables, ops: seq<Op>, id: nat) {
    exists i :: 0 <= i < |ops| && Uproots(s, ops[i], id)
  }

  /** The row's state after a part of the run. */
  ghost predicate Alive(s: Tables, u: Tables, e: ToolEvent) {
    && HasRow(u, e.id) && (forall e' :: e' in u.events && e'.id == e.id ==> SameIdentity(e, e'))
    && forall k :: (e.id, k) in u.lineage <==> (e.id, k) in s.lineage
  }

  ghost predicate Dead(u: Tables, id: nat) {
    !HasRow(u, id) && id < u.nextEvent
  }

  lemma AliveSteps(s: Tables, u: Tables, e: ToolEvent, op: Op)
    requires LineageSound(u) && EventsSound(u) && Alive(s, u, e)
    ensures Uproots(u, op, e.id) <==> Uproots(s, op, e.id)
    ensures if Uproots(s, op, e.id) then Dead(Step(u, op), e.id) else Alive(s, Step(u, op), e)
  {
    var d :| d in u.events && d.id == e.id;
    StepContinues(u, op, d);
    NoRowReturns(u, op, e.id);
    if op.Retraction_? {
      forall k ensures (e.id, k) in u.lineage && k in RetractionKeys(op.retraction) <==> (e.id, k) in s.lineage && k in RetractionKeys(op.retraction) {}
    }
    if HasRow(Step(u, op), e.id) {
      forall k ensures (e.id, k) in Step(u, op).lineage <==> (e.id, k) in s.lineage { LineageContinues(u, op, d, k); }
    }
  }

  lemma UprootedSplits(s: Tables, init: seq<Op>, last: Op, id: nat)
    ensures Uprooted(s, init + [last], id) <==> Uprooted(s, init, id) || Uproots(s, last, id)
  {
    var ops := init + [last];
    if i :| 0 <= i < |ops| && Uproots(s, ops[i], id) { assert i < |init| ==> ops[i] == init[i]; }
    if i :| 0 <= i < |init| && Uproots(s, init[i], id) { assert ops[i] == init[i]; }
    assert ops[|init|] == last;
  }

  lemma {:induction false} RowContinues(s: Tables, ops: seq<Op>, e: ToolEvent)
    requires ToolStateSound(s) && SessionsKnown(s) && e in s.events
    ensures if Uprooted(s, ops, e.id) then Dead(Run(s, ops), e.id) else Alive(s, Run(s, ops), e)
  {
    if ops == [] {
      forall e' | e' in s.events && e'.id == e.id ensures e' == e { OneRowEach(s, e, e'); }
    } else {
      var init, last := ops[..|ops| - 1], ops[|ops| - 1];
      assert ops == init + [last];
      RowContinues(s, init, e);
      RunStaysSound(s, init);
      UprootedSplits(s, init, last, e.id);
      if Uprooted(s, init, e.id) {
        NoRowReturns(Run(s, init), last, e.id);
      } else {
        AliveSteps(s, Run(s, init), e, last);
      }
    }
  }

  /** In every run a tool row lives exactly until a frame of its start lineage is retracted, whatever else happens, and
      keeps its session, response, tool id and provider. */
  lemma RowLivesUntilUprooted(t: Tables, before: seq<Op>, ops: seq<Op>, e: ToolEvent)
    requires Fresh(t) && e in Run(t, before).events
    ensures HasRow(Run(Run(t, before), ops), e.id) <==> !Uprooted(Run(t, before), ops, e.id)
    ensures forall e' :: e' in Run(Run(t, before), ops).events && e'.id == e.id ==> SameIdentity(e, e')
  {
    RunKeepsSound(t, before);
    RowContinues(Run(t, before), ops, e);
  }

  /** The transaction leaves a result with this frame alone. */
  predicate LeavesResult(op: Op, e: ToolEvent, frame: Option<FrameRef>) {
    && !Answers(op, e)
    && (op.Retraction_? && frame.Some? ==> FrameKey(e.session, e.provider, frame.value.providerSession, frame.value.uuid) !in RetractionKeys(op.retraction))
  }

  lemma {:induction false} ResultContinues(s: Tables, ops: seq<Op>, e: ToolEvent, e': ToolEvent)
    requires ToolStateSound(s) && SessionsKnown(s) && e in s.events && e.result.Some?
    requires forall i :: 0 <= i < |ops| ==> LeavesResult(ops[i], e, e.result.value.frame)
    requires e' in Run(s, ops).events && e'.id == e.id
    ensures e'.result == e.result
  {
    if ops == [] {
      OneRowEach(s, e, e');
    } else {
      var init, last := ops[..|ops| - 1], ops[|ops| - 1];
      RunStaysSound(s, init);
      RowContinues(s, init, e);
      var u := Run(s, init);
      assert e.id < u.nextEvent;
      RowComesFrom(u, last, e');
      var d :| d in u.events && d.id == e.id;
      forall i | 0 <= i < |init| ensures LeavesResult(init[i], e, e.result.value.frame) { assert init[i] == ops[i]; }
      ResultContinues(s, init, e, d);
      StepContinues(u, last, d);
      assert LeavesResult(last, e, e.result.value.frame);
    }
  }

  /** An answer is what every row of its tool shows, text and error flag alike, until the tool is answered again or the
      frame the answer names is retracted. */
  lemma AnswerIsShown(t: Tables, before: seq<Op>, answer: Op, ops: seq<Op>, e: ToolEvent, e': ToolEvent)
    requires Fresh(t) && e in Run(t, before).events && Answers(answer, e)
    requires forall i :: 0 <= i < |ops| ==> LeavesResult(ops[i], e, answer.result.frame)
    requires e' in Run(Step(Run(t, before), answer), ops).events && e'.id == e.id
    ensures e'.result == Some(ResultCell(answer.result.text, answer.result.isError, answer.result.frame))
  {
    var s := Run(t, before);
    RunKeepsSound(t, before);
    StepContinues(s, answer, e);
    StepKeepsSound(s, answer);
    var d :| d in Step(s, answer).events && d.id == e.id;
    forall i | 0 <= i < |ops| ensures LeavesResult(ops[i], d, d.result.value.frame) { assert LeavesResult(ops[i], e, answer.result.frame); }
    ResultContinues(Step(s, answer), ops, d, e');
  }

  /** No row is answered by an answer for another tool or response; then nothing changes. */
  lemma AnswerNeedsRow(t: Tables, r: ResultUpdate)
    ensures Step(t, Answer(r)) == t || exists e :: e in t.events && Answers(Answer(r), e)
    ensures Step(t, Answer(r)).(events := t.events) == t && |Step(t, Answer(r)).events| == |t.events|
  {
    if e :| e in t.events && Answered(e, r) { AnsweredIs(e, r); }
  }

  // ----- how a row starts -------------------------------------------------------------------------

  function ProviderOf(t: Tables, s: ToolStart): string {
    if s.provider.Some? then s.provider.value
    else if s.session in t.sessions && t.sessions[s.session].Some? then t.sessions[s.session].value
    else "claude"
  }

  /** The frames a tool start names: its start frame and, with one, the lineage behind it. */
  ghost predicate StartsFrom(t: Tables, s: ToolStart, k: FrameKey) {
    s.start.Some? && exists r :: (r == s.start.value || r in s.lineage) && k == FrameKey(s.session, ProviderOf(t, s), r.providerSession, r.uuid)
  }

  ghost predicate CanStart(t: Tables, s: ToolStart) {
    s.session in t.sessions && forall k :: StartsFrom(t, s, k) ==> ActiveIn(t.frames, k)
  }

  lemma StartRefsAre(t: Tables, s: ToolStart, k: FrameKey)
    requires s.session in t.sessions
    ensures StartsFrom(t, s, k) <==> exists r :: r in StartRefs(s) && k == NewEvent(t, s).Key(r)
  {
    if s.start.Some? { assert s.start.value in StartRefs(s) && forall r :: r in s.lineage ==> r in StartRefs(s); }
  }

  lemma LineageIsOlder(t: Tables, p: (nat, FrameKey))
    requires LineageSound(t) && EventsSound(t) && p in t.lineage
    ensures p.0 < t.nextEvent
  {
    assert OwnedBy(t.events, p);
    var d :| d in t.events && d.id == p.0;
    var i :| 0 <= i < |t.events| && t.events[i] == d;
  }

  lemma CanStartExactly(t: Tables, s: ToolStart)
    requires s.session in t.sessions
    ensures CanStart(t, s) <==> AppendTool(t, s).Ok?
  {
    var e := NewEvent(t, s);
    forall k ensures StartsFrom(t, s, k) <==> exists r :: r in StartRefs(s) && k == e.Key(r) { StartRefsAre(t, s, k); }
    forall r | r in StartRefs(s) ensures StartsFrom(t, s, e.Key(r)) {}
  }

  /** A tool start is refused exactly if its session is missing or a frame it names is not active; otherwise one row is
      added that shows what was delivered, and its lineage is the frames named. */
  lemma StartShowsRow(t: Tables, s: ToolStart)
    requires LineageSound(t) && EventsSound(t)
    ensures var t' := Step(t, Append(s));
            if CanStart(t, s) then
              && t'.events == t.events + [ToolEvent(t.nextEvent, s.session, s.assistantSeq, s.toolId, ProviderOf(t, s), s.start, None, s.subagent, s.activity)]
              && (forall k :: (t.nextEvent, k) in t'.lineage <==> StartsFrom(t, s, k))
            else t' == t
  {
    if s.session in t.sessions {
      CanStartExactly(t, s);
      forall p | p in t.lineage ensures p.0 != t.nextEvent { LineageIsOlder(t, p); }
      forall k ensures StartsFrom(t, s, k) <==> exists r :: r in StartRefs(s) && k == NewEvent(t, s).Key(r) { StartRefsAre(t, s, k); }
    }
  }

  /** The update is for this tool, and the frame it names, if any, is active and lies on the tool's response. */
  ghost predicate Describes(t: Tables, m: Metadata, e: ToolEvent) {
    && m.session == e.session && m.toolId == e.toolId
    && (m.frame.Some? ==> exists f :: f in t.frames && !f.retracted && f.input.assistantSeq == e.assistantSeq
                                && f.input.key == FrameKey(e.session, e.provider, m.frame.value.providerSession, m.frame.value.uuid))
  }

  /** A metadata update puts its text in the named column of exactly the rows it is for, and changes no other cell. */
  lemma DescribeShows(t: Tables, m: Metadata, i: nat)
    requires i < |t.events|
    ensures |Step(t, Describe(m)).events| == |t.events|
    ensures var e, e' := t.events[i], Step(t, Describe(m)).events[i];
            && e'.subagent == (if Describes(t, m, e) && m.column == Subagent then Some(m.json) else e.subagent)
            && e'.activity == (if Describes(t, m, e) && m.column == Activity then Some(m.json) else e.activity)
            && e' == e.(subagent := e'.subagent, activity := e'.activity)
  {
    assert t.events[i] in t.events;
  }
}
