/**
 What every run of transcript transactions keeps: tool rows never outlive a frame they
 started from, and the metadata columns always equal the newest contribution whose
 frame has not been retracted.
 */
module TranscriptInvariants {
  import opened Wrappers
  import opened ProviderFrames
  import opened Transcript

  /** One stored frame per identity; a frame is retracted exactly when its identity is tombstoned. */
  ghost predicate FramesSound(t: Tables) {
    && (forall i, j :: 0 <= i < j < |t.frames| ==> t.frames[i].input.key != t.frames[j].input.key)
    && (forall i :: 0 <= i < |t.frames| ==> (t.frames[i].retracted <==> t.frames[i].input.key in t.tombstones))
  }

  ghost predicate EventsSound(t: Tables) {
    && (forall i, j :: 0 <= i < j < |t.events| ==> t.events[i].id < t.events[j].id)
    && (forall i :: 0 <= i < |t.events| ==> t.events[i].id < t.nextEvent)
  }

  ghost predicate OwnedBy(events: seq<ToolEvent>, p: (nat, FrameKey)) {
    exists e :: e in events && e.id == p.0 && e.session == p.1.session && e.provider == p.1.provider
  }

  /** Every start-lineage entry belongs to a tool row and names an active frame; a start frame is in the lineage. */
  ghost predicate LineageSound(t: Tables) {
    && (forall p :: p in t.lineage ==> OwnedBy(t.events, p) && ActiveIn(t.frames, p.1))
    && (forall e :: e in t.events && e.start.Some? ==> (e.id, e.Key(e.start.value)) in t.lineage)
  }

  /** A contribution that names a frame names a stored one of its tool row's session and provider. */
  ghost predicate ContributionsSound(t: Tables) {
    forall c :: c in t.contributions ==>
      c.event < t.nextEvent && (c.frame.Some? ==> StoredIn(t.frames, c.frame.value) && FitsRow(t.events, c))
  }

  ghost predicate FitsRow(events: seq<ToolEvent>, c: Contribution)
    requires c.frame.Some?
  {
    forall e :: e in events && e.id == c.event ==>
      e.session == c.frame.value.session && e.provider == c.frame.value.provider
  }

  ghost predicate CellAgrees(t: Tables, e: ToolEvent, column: Column) {
    EventCell(e, column) == LatestSurviving(t.contributions, t.frames, e.id, column)
  }

  ghost predicate CellsAgree(t: Tables) {
    forall e, column :: e in t.events ==> CellAgrees(t, e, column)
  }

  ghost predicate ToolStateSound(t: Tables) {
    FramesSound(t) && EventsSound(t) && LineageSound(t) && ContributionsSound(t) && CellsAgree(t)
  }

  // ----- the newest surviving contribution --------------------------------------------

  /** Which activity facts a column reads. */
  lemma {:induction false} LatestReadsActivity(cs: seq<Contribution>, frames: seq<Frame>, frames': seq<Frame>,
                                               event: nat, column: Column)
    requires forall c :: c in cs && c.event == event && c.Cell(column).Some? && c.frame.Some? ==>
               (ActiveIn(frames, c.frame.value) <==> ActiveIn(frames', c.frame.value))
    ensures LatestSurviving(cs, frames, event, column) == LatestSurviving(cs, frames', event, column)
  {
    if cs != [] {
      assert cs[|cs| - 1] in cs;
      forall c | c in cs[..|cs| - 1] ensures c in cs {}
      LatestReadsActivity(cs[..|cs| - 1], frames, frames', event, column);
    }
  }

  lemma {:induction false} LatestSkipsOthers(cs: seq<Contribution>, frames: seq<Frame>, event: nat, column: Column)
    requires forall c :: c in cs ==> c.event != event
    ensures LatestSurviving(cs, frames, event, column) == None
  {
    if cs != [] {
      assert cs[|cs| - 1] in cs;
      forall c | c in cs[..|cs| - 1] ensures c in cs {}
      LatestSkipsOthers(cs[..|cs| - 1], frames, event, column);
    }
  }

  /** Newer contributions win, older ones stay as the fallback. */
  lemma {:induction false} LatestOfConcat(cs: seq<Contribution>, ds: seq<Contribution>, frames: seq<Frame>,
                                          event: nat, column: Column)
    ensures LatestSurviving(cs + ds, frames, event, column)
         == if LatestSurviving(ds, frames, event, column).Some? then LatestSurviving(ds, frames, event, column)
            else LatestSurviving(cs, frames, event, column)
  {
    if ds == [] {
      assert cs + ds == cs;
    } else {
      assert (cs + ds)[..|cs + ds| - 1] == cs + ds[..|ds| - 1];
      LatestOfConcat(cs, ds[..|ds| - 1], frames, event, column);
    }
  }

  lemma {:induction false} LatestSurvivesCascade(cs: seq<Contribution>, removed: set<nat>, frames: seq<Frame>,
                                                 event: nat, column: Column)
    requires event !in removed
    ensures LatestSurviving(KeptContributions(cs, removed), frames, event, column)
         == LatestSurviving(cs, frames, event, column)
  {
    if cs != [] {
      var init, c := cs[..|cs| - 1], cs[|cs| - 1];
      LatestSurvivesCascade(init, removed, frames, event, column);
      if c.event !in removed {
        var kept := KeptContributions(init, removed);
        assert (kept + [c])[..|kept + [c]| - 1] == kept;
      } else {
        assert KeptContributions(cs, removed) == KeptContributions(init, removed);
      }
    }
  }

  // ----- activity under the log operations --------------------------------------------

  lemma AddedFrameActivity(frames: seq<Frame>, f: Frame)
    ensures forall k :: k != f.input.key ==> (ActiveIn(frames + [f], k) <==> ActiveIn(frames, k))
    ensures forall k :: StoredIn(frames, k) ==> StoredIn(frames + [f], k)
  {
    forall k | StoredIn(frames, k) ensures StoredIn(frames + [f], k) {
      var i :| 0 <= i < |frames| && frames[i].input.key == k;
      assert (frames + [f])[i] == frames[i];
    }
  }

  lemma MarkedActivity(frames: seq<Frame>, changed: set<FrameKey>)
    ensures forall k :: ActiveIn(MarkRetracted(frames, changed), k) <==> ActiveIn(frames, k) && k !in changed
    ensures forall k :: StoredIn(frames, k) ==> StoredIn(MarkRetracted(frames, changed), k)
  {
    var marked := MarkRetracted(frames, changed);
    forall k ensures ActiveIn(marked, k) <==> ActiveIn(frames, k) && k !in changed {
      if ActiveIn(marked, k) {
        var f :| f in marked && f.input.key == k && !f.retracted;
        var i :| 0 <= i < |marked| && marked[i] == f;
        assert frames[i] in frames;
      }
      if ActiveIn(frames, k) && k !in changed {
        var f :| f in frames && f.input.key == k && !f.retracted;
        var i :| 0 <= i < |frames| && frames[i] == f;
        assert marked[i] == f;
        assert f in marked;
      }
    }
    forall k | StoredIn(frames, k) ensures StoredIn(marked, k) {
      var i :| 0 <= i < |frames| && frames[i].input.key == k;
      assert marked[i].input.key == k;
    }
  }

  lemma ActiveIsStored(frames: seq<Frame>, k: FrameKey)
    requires ActiveIn(frames, k)
    ensures StoredIn(frames, k)
  {
    var f :| f in frames && f.input.key == k && !f.retracted;
    var i :| 0 <= i < |frames| && frames[i] == f;
  }

  // ----- each transaction keeps the tool state sound ------------------------------------

  lemma AddedFrameKeepsCells(t: Tables, t': Tables, f: Frame)
    requires ToolStateSound(t) && !StoredIn(t.frames, f.input.key) && t'.frames == t.frames + [f]
    requires t'.events == t.events && t'.contributions == t.contributions
    ensures CellsAgree(t')
  {
    AddedFrameActivity(t.frames, f);
    forall e, column | e in t'.events ensures CellAgrees(t', e, column) {
      assert CellAgrees(t, e, column);
      LatestReadsActivity(t.contributions, t.frames, t'.frames, e.id, column);
    }
  }

  lemma AddedFrameKeepsSound(t: Tables, t': Tables, f: Frame)
    requires ToolStateSound(t) && !StoredIn(t.frames, f.input.key) && !f.retracted && f.input.key !in t.tombstones
    requires t'.frames == t.frames + [f] && t'.tombstones == t.tombstones && t'.events == t.events && t'.nextEvent == t.nextEvent
    requires t'.contributions == t.contributions && t'.lineage == t.lineage
    ensures ToolStateSound(t')
  {
    AddedFrameActivity(t.frames, f);
    forall p | p in t.lineage ensures ActiveIn(t'.frames, p.1) { ActiveIsStored(t.frames, p.1); }
    AddedFrameKeepsCells(t, t', f);
  }

  lemma SameToolsStaySound(t: Tables, t': Tables)
    requires ToolStateSound(t)
    requires t'.frames == t.frames && t'.tombstones == t.tombstones && t'.events == t.events && t'.nextEvent == t.nextEvent
    requires t'.contributions == t.contributions && t'.lineage == t.lineage
    ensures ToolStateSound(t')
  {
    forall e, column | e in t'.events ensures CellAgrees(t', e, column) { assert CellAgrees(t, e, column); }
  }

  lemma RecordKeepsSound(t: Tables, input: FrameInput)
    requires ToolStateSound(t)
    requires RecordFrame(t, input).Ok?
    ensures ToolStateSound(RecordFrame(t, input).value.0)
  {
    var t' := RecordFrame(t, input).value.0;
    if t'.frames != t.frames {
      AddedFrameKeepsSound(t, t', Frame(input, false));
    } else {
      SameToolsStaySound(t, t');
    }
  }

  lemma AppendKeepsCells(t: Tables, s: ToolStart, e: ToolEvent, column: Column)
    requires ToolStateSound(t) && AppendTool(t, s).Ok?
    requires e in AppendTool(t, s).value.events
    ensures CellAgrees(AppendTool(t, s).value, e, column)
  {
    var n := NewEvent(t, s);
    var added := StartContribution(n);
    LatestOfConcat(t.contributions, added, t.frames, e.id, column);
    if e == n {
      LatestSkipsOthers(t.contributions, t.frames, n.id, column);
      if added != [] {
        assert added[..|added| - 1] == [];
        if n.start.Some? {
          assert n.start.value in StartRefs(s);
        }
      }
    } else {
      assert e in t.events;
      assert CellAgrees(t, e, column);
      LatestSkipsOthers(added, t.frames, e.id, column);
    }
  }

  lemma AppendKeepsContributions(t: Tables, s: ToolStart)
    requires EventsSound(t) && ContributionsSound(t) && AppendTool(t, s).Ok?
    ensures ContributionsSound(AppendTool(t, s).value)
  {
    var t' := AppendTool(t, s).value;
    var n := NewEvent(t, s);
    forall c | c in t'.contributions
      ensures c.event < t'.nextEvent && (c.frame.Some? ==> StoredIn(t'.frames, c.frame.value) && FitsRow(t'.events, c))
    {
      if c in t.contributions {
        assert n.id != c.event;
      } else {
        assert c in StartContribution(n);
        if c.frame.Some? {
          assert s.start.value in StartRefs(s);
          ActiveIsStored(t.frames, n.Key(s.start.value));
          forall e | e in t'.events && e.id == c.event ensures e == n {}
        }
      }
    }
  }

  lemma AppendKeepsLineage(t: Tables, s: ToolStart)
    requires LineageSound(t) && AppendTool(t, s).Ok?
    ensures LineageSound(AppendTool(t, s).value)
  {
    var t' := AppendTool(t, s).value;
    var n := NewEvent(t, s);
    assert n in t'.events;
    forall p | p in t'.lineage ensures OwnedBy(t'.events, p) && ActiveIn(t'.frames, p.1) {
      if p in t.lineage {
        assert OwnedBy(t.events, p);
        var e :| e in t.events && e.id == p.0 && e.session == p.1.session && e.provider == p.1.provider;
        assert e in t'.events;
      }
    }
    if s.start.Some? { assert s.start.value in StartRefs(s); }
  }

  lemma AppendKeepsSound(t: Tables, s: ToolStart)
    requires ToolStateSound(t) && AppendTool(t, s).Ok?
    ensures ToolStateSound(AppendTool(t, s).value)
  {
    var t' := AppendTool(t, s).value;
    AppendKeepsContributions(t, s);
    AppendKeepsLineage(t, s);
    forall e, column | e in t'.events ensures CellAgrees(t', e, column) {
      AppendKeepsCells(t, s, e, column);
    }
  }

  /** An update in place leaves the identity of every tool row alone. */
  ghost predicate SameRows(events: seq<ToolEvent>, events': seq<ToolEvent>) {
    && |events| == |events'|
    && forall i :: 0 <= i < |events| ==>
         && events[i].id == events'[i].id && events[i].session == events'[i].session
         && events[i].provider == events'[i].provider && events[i].start == events'[i].start
  }

  lemma UpdateKeepsLineage(t: Tables, t': Tables)
    requires LineageSound(t) && SameRows(t.events, t'.events)
    requires t'.lineage == t.lineage && t'.frames == t.frames
    ensures LineageSound(t')
  {
    forall p | p in t'.lineage ensures OwnedBy(t'.events, p) {
      assert OwnedBy(t.events, p);
      var e :| e in t.events && e.id == p.0 && e.session == p.1.session && e.provider == p.1.provider;
      var i :| 0 <= i < |t.events| && t.events[i] == e;
      assert t'.events[i] in t'.events;
    }
    forall e | e in t'.events && e.start.Some? ensures (e.id, e.Key(e.start.value)) in t'.lineage {
      var i :| 0 <= i < |t'.events| && t'.events[i] == e;
      assert t.events[i] in t.events;
    }
  }

  lemma UpdateKeepsFits(events: seq<ToolEvent>, events': seq<ToolEvent>, c: Contribution)
    requires SameRows(events, events') && c.frame.Some? && FitsRow(events, c)
    ensures FitsRow(events', c)
  {
    forall e | e in events' && e.id == c.event
      ensures e.session == c.frame.value.session && e.provider == c.frame.value.provider
    {
      var i :| 0 <= i < |events'| && events'[i] == e;
      assert events[i] in events;
    }
  }

  /** A metadata update adds one contribution per addressed row and none for the others. */
  lemma {:induction false} LatestOfAdded(frames: seq<Frame>, events: seq<ToolEvent>, m: Metadata, e: ToolEvent, column: Column)
    requires forall i, j :: 0 <= i < j < |events| ==> events[i].id < events[j].id
    requires e in events
    ensures LatestSurviving(ContributionsFor(frames, events, m), frames, e.id, column)
         == if Addressed(frames, e, m.session, m.toolId, m.frame) && column == m.column then Some(m.json) else None
  {
    var init, last := events[..|events| - 1], events[|events| - 1];
    var old_ := ContributionsFor(frames, init, m);
    var added := if Addressed(frames, last, m.session, m.toolId, m.frame) then [MetadataContribution(last, m)] else [];
    LatestOfConcat(old_, added, frames, e.id, column);
    if added != [] { assert added[..0] == []; }
    if e == last {
      AddedNameTheirRows(frames, init, m);
      LatestSkipsOthers(old_, frames, e.id, column);
    } else {
      assert e in init;
      LatestOfAdded(frames, init, m, e, column);
      var i :| 0 <= i < |init| && init[i] == e;
      assert events[i].id < last.id;
    }
  }

  lemma {:induction false} AddedNameTheirRows(frames: seq<Frame>, events: seq<ToolEvent>, m: Metadata)
    ensures forall c :: c in ContributionsFor(frames, events, m) ==>
              exists e :: e in events && c == MetadataContribution(e, m) && Addressed(frames, e, m.session, m.toolId, m.frame)
  {
    if events != [] {
      AddedNameTheirRows(frames, events[..|events| - 1], m);
      forall c | c in ContributionsFor(frames, events, m)
        ensures exists e :: e in events && c == MetadataContribution(e, m) && Addressed(frames, e, m.session, m.toolId, m.frame)
      {
        if c in ContributionsFor(frames, events[..|events| - 1], m) {
          var e :| e in events[..|events| - 1] && c == MetadataContribution(e, m) && Addressed(frames, e, m.session, m.toolId, m.frame);
          assert e in events;
        } else {
          assert events[|events| - 1] in events;
        }
      }
    }
  }

  ghost predicate ContributionFits(t: Tables, c: Contribution) {
    c.event < t.nextEvent && (c.frame.Some? ==> StoredIn(t.frames, c.frame.value) && FitsRow(t.events, c))
  }

  /** A contribution for an addressed row names that row's frame, which is active. */
  lemma AddedContributionFits(t: Tables, m: Metadata, e: ToolEvent)
    requires EventsSound(t) && e in t.events && Addressed(t.frames, e, m.session, m.toolId, m.frame)
    ensures ContributionFits(t, MetadataContribution(e, m))
  {
    var c := MetadataContribution(e, m);
    if c.frame.Some? {
      ActiveIsStored(t.frames, c.frame.value);
      forall e1 | e1 in t.events && e1.id == c.event ensures e1 == e {}
    }
  }

  lemma DescribeKeepsContributions(t: Tables, m: Metadata)
    requires EventsSound(t) && ContributionsSound(t) && SetMetadata(t, m).Ok?
    ensures ContributionsSound(SetMetadata(t, m).value)
  {
    var t' := SetMetadata(t, m).value;
    AddedNameTheirRows(t.frames, t.events, m);
    assert SameRows(t.events, t'.events);
    forall c | c in t'.contributions ensures ContributionFits(t', c) {
      if c !in t.contributions {
        var e :| e in t.events && c == MetadataContribution(e, m) && Addressed(t.frames, e, m.session, m.toolId, m.frame);
        AddedContributionFits(t, m, e);
      }
      assert ContributionFits(t, c);
      if c.frame.Some? { UpdateKeepsFits(t.events, t'.events, c); }
    }
  }

  lemma DescribeKeepsCells(t: Tables, m: Metadata)
    requires EventsSound(t) && CellsAgree(t) && SetMetadata(t, m).Ok?
    ensures CellsAgree(SetMetadata(t, m).value)
  {
    var t' := SetMetadata(t, m).value;
    forall e, column | e in t'.events ensures CellAgrees(t', e, column) {
      var i :| 0 <= i < |t'.events| && t'.events[i] == e;
      assert CellAgrees(t, t.events[i], column);
      LatestOfConcat(t.contributions, ContributionsFor(t.frames, t.events, m), t.frames, e.id, column);
      LatestOfAdded(t.frames, t.events, m, t.events[i], column);
    }
  }

  lemma DescribeKeepsSound(t: Tables, m: Metadata)
    requires ToolStateSound(t) && SetMetadata(t, m).Ok?
    ensures ToolStateSound(SetMetadata(t, m).value)
  {
    var t' := SetMetadata(t, m).value;
    assert SameRows(t.events, t'.events);
    UpdateKeepsLineage(t, t');
    DescribeKeepsContributions(t, m);
    DescribeKeepsCells(t, m);
  }

  lemma AnswerKeepsCells(t: Tables, r: ResultUpdate)
    requires CellsAgree(t) && SetResult(t, r).Ok?
    ensures CellsAgree(SetResult(t, r).value)
  {
    var t' := SetResult(t, r).value;
    forall e, column | e in t'.events ensures CellAgrees(t', e, column) {
      var i :| 0 <= i < |t'.events| && t'.events[i] == e;
      assert CellAgrees(t, t.events[i], column);
    }
  }

  lemma UpdateKeepsContributions(t: Tables, t': Tables)
    requires ContributionsSound(t) && SameRows(t.events, t'.events)
    requires t'.contributions == t.contributions && t'.frames == t.frames && t'.nextEvent == t.nextEvent
    ensures ContributionsSound(t')
  {
    forall c | c in t'.contributions && c.frame.Some? ensures FitsRow(t'.events, c) {
      UpdateKeepsFits(t.events, t'.events, c);
    }
  }

  lemma AnswerKeepsSound(t: Tables, r: ResultUpdate)
    requires ToolStateSound(t) && SetResult(t, r).Ok?
    ensures ToolStateSound(SetResult(t, r).value)
  {
    var t' := SetResult(t, r).value;
    assert SameRows(t.events, t'.events);
    UpdateKeepsLineage(t, t');
    UpdateKeepsContributions(t, t');
    AnswerKeepsCells(t, r);
  }

  ghost predicate ById(events: seq<ToolEvent>) {
    forall i, j :: 0 <= i < j < |events| ==> events[i].id < events[j].id
  }

  lemma {:induction false} SurvivorsStayOrdered(events: seq<ToolEvent>, removed: set<nat>)
    requires ById(events)
    ensures ById(Survivors(events, removed))
  {
    if events != [] {
      var init, last := events[..|events| - 1], events[|events| - 1];
      SurvivorsStayOrdered(init, removed);
      var kept := Survivors(init, removed);
      forall i | 0 <= i < |kept| ensures kept[i].id < last.id {
        assert kept[i] in init;
      }
      assert Survivors(events, removed) == kept + if last.id in removed then [] else [last];
    }
  }

  /** A restored cell is the newest surviving contribution whether or not the retraction recomputed it. */
  lemma RestoredCellAgrees(t: Tables, e: ToolEvent, changed: set<FrameKey>, column: Column)
    requires CellAgrees(t, e, column)
    ensures RestoredCell(t, e, changed, column)
         == LatestSurviving(t.contributions, MarkRetracted(t.frames, changed), e.id, column)
  {
    if !Contributes(t.contributions, e.id, changed, column) {
      MarkedActivity(t.frames, changed);
      LatestReadsActivity(t.contributions, t.frames, MarkRetracted(t.frames, changed), e.id, column);
    }
  }

  /** Where a tool row of the retracted tables comes from. */
  lemma RevisedFrom(t: Tables, r: Retraction, changed: set<FrameKey>, e': ToolEvent) returns (e: ToolEvent)
    requires e' in ApplyRetraction(t, r, changed).events
    ensures e in t.events && e.id !in RemovedIds(t, changed) && e' == Revised(t, e, changed)
  {
    var kept := Survivors(t.events, RemovedIds(t, changed));
    var i :| 0 <= i < |kept| && RevisedAll(t, kept, changed)[i] == e';
    e := kept[i];
  }

  /** And where a tool row that is not deleted goes to. */
  lemma RevisedTo(t: Tables, r: Retraction, changed: set<FrameKey>, e: ToolEvent)
    requires e in t.events && e.id !in RemovedIds(t, changed)
    ensures Revised(t, e, changed) in ApplyRetraction(t, r, changed).events
  {
    var kept := Survivors(t.events, RemovedIds(t, changed));
    assert e in kept;
    var i :| 0 <= i < |kept| && kept[i] == e;
    assert RevisedAll(t, kept, changed)[i] == Revised(t, e, changed);
  }

  lemma RetractKeepsFrames(t: Tables, r: Retraction)
    requires FramesSound(t)
    requires r.session in t.sessions || ChangedKeys(t.frames, RetractionKeys(r)) == {}
    requires SessionsKnown(t)
    ensures FramesSound(Retract(t, r))
  {
    var t' := Retract(t, r);
    var keys := RetractionKeys(r);
    var changed := ChangedKeys(t.frames, keys);
    forall i | 0 <= i < |t'.frames|
      ensures t'.frames[i].retracted <==> t'.frames[i].input.key in t'.tombstones
    {
      var f := t.frames[i];
      assert f in t.frames;
      assert f.input.key in changed <==> f.input.key in keys && !f.retracted;
      if f.input.key in keys { assert f.input.key.session == r.session; }
    }
  }

  lemma RetractKeepsLineage(t: Tables, r: Retraction, changed: set<FrameKey>)
    requires LineageSound(t)
    ensures LineageSound(ApplyRetraction(t, r, changed))
  {
    var t' := ApplyRetraction(t, r, changed);
    MarkedActivity(t.frames, changed);
    forall p | p in t'.lineage ensures OwnedBy(t'.events, p) && ActiveIn(t'.frames, p.1) {
      assert OwnedBy(t.events, p);
      var e :| e in t.events && e.id == p.0 && e.session == p.1.session && e.provider == p.1.provider;
      RevisedTo(t, r, changed, e);
      assert !Removed(t, e, changed);
      assert LineageIn(t.lineage, e.id, {p.1});
    }
    forall e' | e' in t'.events && e'.start.Some? ensures (e'.id, e'.Key(e'.start.value)) in t'.lineage {
      var e := RevisedFrom(t, r, changed, e');
    }
  }

  lemma RetractKeepsCells(t: Tables, r: Retraction, changed: set<FrameKey>)
    requires CellsAgree(t)
    ensures CellsAgree(ApplyRetraction(t, r, changed))
  {
    var t' := ApplyRetraction(t, r, changed);
    forall e', column | e' in t'.events ensures CellAgrees(t', e', column) {
      var e := RevisedFrom(t, r, changed, e');
      assert CellAgrees(t, e, column);
      RestoredCellAgrees(t, e, changed, column);
      LatestSurvivesCascade(t.contributions, RemovedIds(t, changed), t'.frames, e.id, column);
    }
  }

  lemma RetractKeepsEvents(t: Tables, r: Retraction, changed: set<FrameKey>)
    requires EventsSound(t) && ContributionsSound(t)
    ensures EventsSound(ApplyRetraction(t, r, changed)) && ContributionsSound(ApplyRetraction(t, r, changed))
  {
    var t' := ApplyRetraction(t, r, changed);
    SurvivorsStayOrdered(t.events, RemovedIds(t, changed));
    MarkedActivity(t.frames, changed);
    forall i | 0 <= i < |t'.events| ensures t'.events[i].id < t'.nextEvent {
      var e := RevisedFrom(t, r, changed, t'.events[i]);
    }
    forall c | c in t'.contributions && c.frame.Some? ensures FitsRow(t'.events, c) {
      assert FitsRow(t.events, c);
      forall e' | e' in t'.events && e'.id == c.event
        ensures e'.session == c.frame.value.session && e'.provider == c.frame.value.provider
      {
        var e := RevisedFrom(t, r, changed, e');
      }
    }
  }

  /** Frames only exist in stored sessions. */
  ghost predicate SessionsKnown(t: Tables) {
    forall i :: 0 <= i < |t.frames| ==> t.frames[i].input.key.session in t.sessions
  }

  lemma ChangedInSession(t: Tables, r: Retraction)
    requires SessionsKnown(t)
    requires ChangedKeys(t.frames, RetractionKeys(r)) != {}
    ensures r.session in t.sessions
  {
    var k :| k in ChangedKeys(t.frames, RetractionKeys(r));
    var f :| f in t.frames && f.input.key == k && k in RetractionKeys(r);
    var i :| 0 <= i < |t.frames| && t.frames[i] == f;
  }

  lemma RetractKeepsSound(t: Tables, r: Retraction)
    requires ToolStateSound(t) && SessionsKnown(t)
    ensures ToolStateSound(Retract(t, r))
  {
    var u := AddTombstones(t, r);
    var changed := ChangedKeys(t.frames, RetractionKeys(r));
    forall e, column | e in u.events ensures CellAgrees(u, e, column) {
      assert CellAgrees(t, e, column);
    }
    if changed == {} {
      RetractKeepsFrames(t, r);
    } else {
      ChangedInSession(t, r);
      RetractKeepsFrames(t, r);
      RetractKeepsEvents(u, r, changed);
      RetractKeepsLineage(u, r, changed);
      RetractKeepsCells(u, r, changed);
    }
  }

  lemma StepKeepsSessions(t: Tables, op: Op)
    requires SessionsKnown(t)
    ensures SessionsKnown(Step(t, op))
  {
  }

  /** One transaction, committed or rolled back. */
  lemma StepKeepsSound(t: Tables, op: Op)
    requires ToolStateSound(t) && SessionsKnown(t)
    ensures ToolStateSound(Step(t, op)) && SessionsKnown(Step(t, op))
  {
    StepKeepsSessions(t, op);
    match op
    case Record(input) =>
      if RecordFrame(t, input).Ok? { RecordKeepsSound(t, input); }
    case Retraction_(r) => RetractKeepsSound(t, r);
    case Append(s) =>
      if AppendTool(t, s).Ok? { AppendKeepsSound(t, s); }
    case Describe(m) =>
      if SetMetadata(t, m).Ok? { DescribeKeepsSound(t, m); }
    case Answer(r) =>
      if SetResult(t, r).Ok? { AnswerKeepsSound(t, r); }
  }

  /** Tables that hold messages but no provider frame and no tool row yet. */
  ghost predicate Fresh(t: Tables) {
    t.frames == [] && t.events == [] && t.lineage == {} && t.contributions == [] && t.tombstones == {}
  }

  lemma {:induction false} RunKeepsSound(t: Tables, ops: seq<Op>)
    requires Fresh(t)
    ensures ToolStateSound(Run(t, ops)) && SessionsKnown(Run(t, ops))
  {
    if ops != [] {
      RunKeepsSound(t, ops[..|ops| - 1]);
      StepKeepsSound(Run(t, ops[..|ops| - 1]), ops[|ops| - 1]);
    }
  }

  /** In every reachable state no tool row has a retracted frame in its start lineage, and its two
      metadata columns equal the newest contribution whose frame was never retracted. */
  lemma ToolStateFollowsLog(t: Tables, ops: seq<Op>, e: ToolEvent)
    requires Fresh(t)
    requires e in Run(t, ops).events
    ensures var s := Run(t, ops);
            && (forall p :: p in s.lineage && p.0 == e.id ==> p.1 !in s.tombstones)
            && (e.start.Some? ==> e.Key(e.start.value) !in s.tombstones)
            && e.subagent == LatestSurviving(s.contributions, s.frames, e.id, Subagent)
            && e.activity == LatestSurviving(s.contributions, s.frames, e.id, Activity)
  {
    RunKeepsSound(t, ops);
    var s := Run(t, ops);
    assert CellAgrees(s, e, Subagent) && CellAgrees(s, e, Activity);
    forall p | p in s.lineage ensures p.1 !in s.tombstones {
      var f :| f in s.frames && f.input.key == p.1 && !f.retracted;
      var i :| 0 <= i < |s.frames| && s.frames[i] == f;
    }
  }

  // ----- result attribution -----------------------------------------------------------

  ghost predicate ResultActive(t: Tables, e: ToolEvent) {
    e.result.Some? && e.result.value.frame.Some? ==> ActiveIn(t.frames, e.Key(e.result.value.frame.value))
  }

  /** Every result that names a frame names an active one. */
  ghost predicate ResultsActive(t: Tables) {
    forall e :: e in t.events ==> ResultActive(t, e)
  }

  /** The frame a result names is active for every tool row the result is written to. */
  ghost predicate ResultFrameActive(t: Tables, r: ResultUpdate) {
    r.frame.Some? ==> forall e :: e in t.events && Answered(e, r) ==> ActiveIn(t.frames, e.Key(r.frame.value))
  }

  /** Writing a result does not check its frame; the attribution stays sound exactly when a caller
      has made sure the frame is active. */
  lemma AnswerAttributesExactly(t: Tables, r: ResultUpdate)
    requires ResultsActive(t)
    ensures ResultsActive(Step(t, Answer(r))) <==> ResultFrameActive(t, r)
  {
    var t' := Step(t, Answer(r));
    assert |t'.events| == |t.events|;
    if ResultFrameActive(t, r) {
      forall e' | e' in t'.events ensures ResultActive(t', e') {
        var i :| 0 <= i < |t'.events| && t'.events[i] == e';
        assert t.events[i] in t.events;
        assert ResultActive(t, t.events[i]);
      }
    }
    if ResultsActive(t') && r.frame.Some? {
      forall e | e in t.events && Answered(e, r) ensures ActiveIn(t.frames, e.Key(r.frame.value)) {
        var i :| 0 <= i < |t.events| && t.events[i] == e;
        assert t'.events[i] in t'.events;
        assert ResultActive(t', t'.events[i]);
      }
    }
  }

  lemma RetractKeepsResults(t: Tables, r: Retraction)
    requires ResultsActive(t)
    ensures ResultsActive(Retract(t, r))
  {
    var u := AddTombstones(t, r);
    var changed := ChangedKeys(t.frames, RetractionKeys(r));
    if changed != {} {
      var t' := Retract(t, r);
      MarkedActivity(t.frames, changed);
      forall e' | e' in t'.events ensures ResultActive(t', e') {
        var e := RevisedFrom(u, r, changed, e');
        assert ResultActive(t, e);
      }
    } else {
      forall e | e in t.events ensures ResultActive(u, e) { assert ResultActive(t, e); }
    }
  }

  /** All other transactions keep the attribution sound: a retraction clears what it orphans. */
  lemma StepKeepsResults(t: Tables, op: Op)
    requires ResultsActive(t)
    requires op.Answer? ==> ResultFrameActive(t, op.result)
    ensures ResultsActive(Step(t, op))
  {
    var t' := Step(t, op);
    match op
    case Answer(r) => AnswerAttributesExactly(t, r);
    case Retraction_(r) => RetractKeepsResults(t, r);
    case Describe(m) =>
      forall e' | e' in t'.events ensures ResultActive(t', e') {
        var i :| 0 <= i < |t'.events| && t'.events[i] == e';
        assert t.events[i] in t.events;
        assert ResultActive(t, t.events[i]);
      }
    case Append(s) =>
      forall e' | e' in t'.events ensures ResultActive(t', e') {
        if e' in t.events { assert ResultActive(t, e'); }
      }
    case Record(input) =>
      assert t'.events == t.events;
      forall e' | e' in t'.events ensures ResultActive(t', e') {
        assert ResultActive(t, e');
        FramesOnlyGrow(t, input);
      }
  }

  lemma FramesOnlyGrow(t: Tables, input: FrameInput)
    ensures var t' := Step(t, Record(input)); t'.frames == t.frames || t'.frames == t.frames + [Frame(input, false)]
    ensures forall k :: ActiveIn(t.frames, k) ==> ActiveIn(Step(t, Record(input)).frames, k)
  {
  }
}
