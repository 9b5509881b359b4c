/**
 Retractions compose: steer positions keep splitting the surviving tool rows where they
 split them before, and retracting in two calls is the same as retracting in one.
 */
module TranscriptRetraction {
  import opened Wrappers
  import opened ProviderFrames
  import opened Transcript
  import opened TranscriptInvariants
  import opened TranscriptConvergence

  // ----- one steer position ---------------------------------------------------------------

  function Min(a: int, b: int): int { if a < b then a else b }

  lemma {:induction false} RemovedBeforeCounts(rows: seq<ToolEvent>, removed: set<nat>, index: int)
    ensures 0 <= index <= |rows| ==>
              RemovedBefore(rows, removed, index) == index - |Survivors(rows[..index], removed)|
    ensures index > |rows| ==> RemovedBefore(rows, removed, index) == |rows| - |Survivors(rows, removed)|
    ensures index < 0 ==> RemovedBefore(rows, removed, index) == 0
    ensures |Survivors(rows, removed)| <= |rows|
  {
    if rows != [] {
      var init := rows[..|rows| - 1];
      RemovedBeforeCounts(init, removed, index);
      RemovedBeforeCounts(init, removed, |init|);
      assert init[..|init|] == init;
      if 0 <= index <= |init| {
        assert rows[..index] == init[..index];
      } else if index == |rows| {
        assert rows[..index] == rows;
        RemovedBeforeCounts(init, removed, |init| + 1);
      }
    }
  }

  lemma {:induction false} SurvivorsOfConcat(xs: seq<ToolEvent>, ys: seq<ToolEvent>, removed: set<nat>)
    ensures Survivors(xs + ys, removed) == Survivors(xs, removed) + Survivors(ys, removed)
  {
    if ys == [] {
      assert xs + ys == xs;
    } else {
      assert (xs + ys)[..|xs + ys| - 1] == xs + ys[..|ys| - 1];
      SurvivorsOfConcat(xs, ys[..|ys| - 1], removed);
    }
  }

  lemma SurvivorsSplit(rows: seq<ToolEvent>, removed: set<nat>, cut: nat)
    requires cut <= |rows|
    ensures var kept, before := Survivors(rows, removed), Survivors(rows[..cut], removed);
            |before| <= |kept| && kept[..|before|] == before && kept[|before|..] == Survivors(rows[cut..], removed)
  {
    assert rows == rows[..cut] + rows[cut..];
    SurvivorsOfConcat(rows[..cut], rows[cut..], removed);
  }

  /** Capped at the length, the remapped position counts the survivors in front of the old one. */
  lemma RemappedCut(rows: seq<ToolEvent>, removed: set<nat>, index: int)
    requires index >= 0
    ensures RemovedBefore(rows, removed, index) <= index
    ensures Min(RemapIndex(rows, removed, index), |Survivors(rows, removed)|) == |Survivors(rows[..Min(index, |rows|)], removed)|
  {
    var cut := Min(index, |rows|);
    SurvivorsSplit(rows, removed, cut);
    if index <= |rows| {
      RemovedWithin(rows, removed, index);
      SurvivorCount(rows[..index], removed);
    } else {
      RemovedBeyond(rows, removed, index);
      SurvivorCount(rows, removed);
      assert rows[..cut] == rows;
    }
  }

  lemma SurvivorCount(rows: seq<ToolEvent>, removed: set<nat>)
    ensures |Survivors(rows, removed)| <= |rows|
  {
    RemovedBeforeCounts(rows, removed, 0);
  }

  lemma RemovedWithin(rows: seq<ToolEvent>, removed: set<nat>, index: int)
    requires 0 <= index <= |rows|
    ensures RemovedBefore(rows, removed, index) == index - |Survivors(rows[..index], removed)|
  {
    RemovedBeforeCounts(rows, removed, index);
  }

  lemma RemovedBeyond(rows: seq<ToolEvent>, removed: set<nat>, index: int)
    requires index > |rows|
    ensures RemovedBefore(rows, removed, index) == |rows| - |Survivors(rows, removed)|
  {
    RemovedBeforeCounts(rows, removed, index);
  }

  /** The remapped position splits the surviving rows exactly where the old one split all rows, and
      the clamp at zero only ever catches a position that was negative to begin with. */
  lemma RemapSplitsSurvivors(rows: seq<ToolEvent>, removed: set<nat>, index: int)
    ensures index - RemovedBefore(rows, removed, index) < 0 <==> index < 0
    ensures index >= 0 ==>
              var kept := Survivors(rows, removed);
              var cut, cut' := Min(index, |rows|), Min(RemapIndex(rows, removed, index), |kept|);
              && 0 <= cut'
              && kept[..cut'] == Survivors(rows[..cut], removed)
              && kept[cut'..] == Survivors(rows[cut..], removed)
  {
    RemovedBeforeCounts(rows, removed, index);
    if index >= 0 {
      SurvivorsSplit(rows, removed, Min(index, |rows|));
      RemappedCut(rows, removed, index);
    }
  }

  // ----- tool rows by identity --------------------------------------------------------------

  function Ids(rows: seq<ToolEvent>): seq<nat> {
    seq(|rows|, i requires 0 <= i < |rows| => rows[i].id)
  }

  /** Same rows up to their revisable cells. */
  ghost predicate Aligned(xs: seq<ToolEvent>, ys: seq<ToolEvent>) {
    && |xs| == |ys|
    && forall i :: 0 <= i < |xs| ==> xs[i].id == ys[i].id && xs[i].Row() == ys[i].Row()
  }

  lemma {:induction false} AlignedRowEvents(xs: seq<ToolEvent>, ys: seq<ToolEvent>, row: RowKey)
    requires Aligned(xs, ys)
    ensures Aligned(RowEvents(xs, row), RowEvents(ys, row))
  {
    if xs != [] {
      AlignedRowEvents(xs[..|xs| - 1], ys[..|ys| - 1], row);
    }
  }

  lemma {:induction false} AlignedRemoved(xs: seq<ToolEvent>, ys: seq<ToolEvent>, removed: set<nat>, index: int)
    requires Aligned(xs, ys)
    ensures RemovedBefore(xs, removed, index) == RemovedBefore(ys, removed, index)
  {
    if xs != [] {
      AlignedRemoved(xs[..|xs| - 1], ys[..|ys| - 1], removed, index);
    }
  }

  lemma {:induction false} RowEventsOfSurvivors(events: seq<ToolEvent>, removed: set<nat>, row: RowKey)
    ensures RowEvents(Survivors(events, removed), row) == Survivors(RowEvents(events, row), removed)
  {
    if events != [] {
      var init, last := events[..|events| - 1], events[|events| - 1];
      RowEventsOfSurvivors(init, removed, row);
      var kept := Survivors(init, removed);
      assert (kept + [last])[..|kept + [last]| - 1] == kept;
      var rows := RowEvents(init, row);
      assert (rows + [last])[..|rows + [last]| - 1] == rows;
      assert kept + [] == kept && rows + [] == rows;
    }
  }

  /** The rows of a response after a retraction are its surviving rows. */
  lemma ResponseAfterRetraction(t: Tables, r: Retraction, changed: set<FrameKey>, row: RowKey)
    ensures Aligned(RowEvents(ApplyRetraction(t, r, changed).events, row),
                    Survivors(RowEvents(t.events, row), RemovedIds(t, changed)))
  {
    var kept := Survivors(t.events, RemovedIds(t, changed));
    AlignedRowEvents(RevisedAll(t, kept, changed), kept, row);
    RowEventsOfSurvivors(t.events, RemovedIds(t, changed), row);
  }

  // ----- retraction as one uniform step -------------------------------------------------------

  /** No stored steer position is negative. */
  ghost predicate SteersSane(t: Tables) {
    forall k :: k in t.messages && t.messages[k].UserRow? && t.messages[k].steer.Some? ==>
      t.messages[k].steer.value.toolIndex >= 0
  }

  lemma {:induction false} SurvivorsOfNone(events: seq<ToolEvent>, removed: set<nat>)
    requires forall i :: 0 <= i < |events| ==> events[i].id !in removed
    ensures Survivors(events, removed) == events
  {
    if events != [] {
      var init, last := events[..|events| - 1], events[|events| - 1];
      assert events == init + [last] && last.id !in removed;
      SurvivorsOfNone(init, removed);
      assert Survivors(events, removed) == Survivors(init, removed) + [last];
    }
  }

  lemma {:induction false} KeptOfNone(cs: seq<Contribution>, removed: set<nat>)
    requires removed == {}
    ensures KeptContributions(cs, removed) == cs
  {
    if cs != [] { KeptOfNone(cs[..|cs| - 1], removed); }
  }

  lemma NothingChanged(t: Tables)
    ensures RemovedIds(t, {}) == {} && AffectedRows(t, {}) == {}
    ensures forall e, column :: !Contributes(t.contributions, e, {}, column)
  {
    forall e | e in t.events ensures !Touched(t, e, {}) {}
  }

  lemma NothingMarked(frames: seq<Frame>)
    ensures MarkRetracted(frames, {}) == frames
  {
  }

  lemma NothingRevised(t: Tables, r: Retraction)
    ensures RevisedAll(t, t.events, {}) == t.events && RevisedMessages(t, r, {}) == t.messages
  {
    NothingChanged(t);
    forall i | 0 <= i < |t.events| ensures Revised(t, t.events[i], {}) == t.events[i] {}
  }

  /** Retracting no active frame revises nothing. */
  lemma ApplyNothing(t: Tables, r: Retraction)
    ensures ApplyRetraction(t, r, {}) == t
  {
    NothingChanged(t);
    NothingMarked(t.frames);
    NothingRevised(t, r);
    SurvivorsOfNone(t.events, {});
    KeptOfNone(t.contributions, {});
  }

  lemma RetractIsUniform(t: Tables, r: Retraction)
    ensures Retract(t, r) == ApplyRetraction(AddTombstones(t, r), r, ChangedKeys(t.frames, RetractionKeys(r)))
  {
    if ChangedKeys(t.frames, RetractionKeys(r)) == {} {
      ApplyNothing(AddTombstones(t, r), r);
    }
  }

  /** A response the retraction does not affect loses no tool row. */
  lemma UnaffectedLosesNothing(t: Tables, changed: set<FrameKey>, row: RowKey, index: int)
    requires EventsSound(t)
    requires row !in AffectedRows(t, changed)
    ensures RemovedBefore(RowEvents(t.events, row), RemovedIds(t, changed), index) == 0
  {
    var rows, removed := RowEvents(t.events, row), RemovedIds(t, changed);
    forall e | e in rows ensures e.id !in removed {
      assert !Touched(t, e, changed);
      forall e2 | e2 in t.events && e2.id == e.id ensures e2 == e {}
    }
    NoneRemovedBefore(rows, removed, index);
  }

  lemma {:induction false} NoneRemovedBefore(rows: seq<ToolEvent>, removed: set<nat>, index: int)
    requires forall e :: e in rows ==> e.id !in removed
    ensures RemovedBefore(rows, removed, index) == 0
  {
    if rows != [] {
      assert rows[|rows| - 1] in rows;
      forall e | e in rows[..|rows| - 1] ensures e in rows {}
      NoneRemovedBefore(rows[..|rows| - 1], removed, index);
    }
  }

  /** Where a steer points once `removed` rows of its response are gone. */
  function Resteered(rows: seq<ToolEvent>, removed: set<nat>, steer: Steer): Message {
    UserRow(Some(steer.(toolIndex := steer.toolIndex - RemovedBefore(rows, removed, steer.toolIndex))))
  }

  function Response(t: Tables, k: RowKey, steer: Steer): seq<ToolEvent> {
    RowEvents(t.events, RowKey(k.session, steer.target))
  }

  ghost predicate Steers(t: Tables, k: RowKey, steer: Steer) {
    k in t.messages && t.messages[k] == UserRow(Some(steer))
  }

  lemma RemapNeedsNoClamp(rows: seq<ToolEvent>, removed: set<nat>, index: int)
    requires index >= 0
    ensures RemapIndex(rows, removed, index) == index - RemovedBefore(rows, removed, index)
  {
    RemapSplitsSurvivors(rows, removed, index);
  }

  lemma MessageAfterRetraction(t: Tables, r: Retraction, changed: set<FrameKey>, k: RowKey)
    requires k in t.messages
    ensures k in ApplyRetraction(t, r, changed).messages
    ensures ApplyRetraction(t, r, changed).messages[k] == RevisedMessage(t, k, t.messages[k], r, changed)
  {
  }

  lemma AffectedSteer(t: Tables, r: Retraction, changed: set<FrameKey>, k: RowKey, steer: Steer)
    ensures RowKey(k.session, steer.target) in AffectedRows(t, changed) ==>
      RevisedMessage(t, k, UserRow(Some(steer)), r, changed)
      == UserRow(Some(steer.(toolIndex := RemapIndex(Response(t, k, steer), RemovedIds(t, changed), steer.toolIndex))))
    ensures RowKey(k.session, steer.target) !in AffectedRows(t, changed) ==>
      RevisedMessage(t, k, UserRow(Some(steer)), r, changed) == UserRow(Some(steer))
  {
  }

  lemma RemapsSteer(m: Message, affected: bool, rows: seq<ToolEvent>, removed: set<nat>, steer: Steer)
    requires steer.toolIndex >= 0
    requires affected ==> m == UserRow(Some(steer.(toolIndex := RemapIndex(rows, removed, steer.toolIndex))))
    requires !affected ==> m == UserRow(Some(steer)) && RemovedBefore(rows, removed, steer.toolIndex) == 0
    ensures m == Resteered(rows, removed, steer)
  {
    RemapNeedsNoClamp(rows, removed, steer.toolIndex);
  }

  /** Every steer, affected or not, is remapped the same way. */
  lemma SteerIsRemapped(t: Tables, r: Retraction, changed: set<FrameKey>, k: RowKey, steer: Steer)
    requires EventsSound(t) && steer.toolIndex >= 0
    ensures RevisedMessage(t, k, UserRow(Some(steer)), r, changed) == Resteered(Response(t, k, steer), RemovedIds(t, changed), steer)
  {
    AffectedSteer(t, r, changed, k, steer);
    var row, rows, removed := RowKey(k.session, steer.target), Response(t, k, steer), RemovedIds(t, changed);
    if row !in AffectedRows(t, changed) { UnaffectedLosesNothing(t, changed, row, steer.toolIndex); }
    RemapsSteer(RevisedMessage(t, k, UserRow(Some(steer)), r, changed), row in AffectedRows(t, changed), rows, removed, steer);
  }

  lemma SteerAfterRetraction(t: Tables, r: Retraction, changed: set<FrameKey>, k: RowKey, steer: Steer)
    requires EventsSound(t) && Steers(t, k, steer) && steer.toolIndex >= 0
    ensures k in ApplyRetraction(t, r, changed).messages
    ensures ApplyRetraction(t, r, changed).messages[k] == Resteered(Response(t, k, steer), RemovedIds(t, changed), steer)
  {
    MessageAfterRetraction(t, r, changed, k);
    SteerIsRemapped(t, r, changed, k, steer);
  }

  lemma AlignedIds(xs: seq<ToolEvent>, ys: seq<ToolEvent>)
    requires Aligned(xs, ys)
    ensures Ids(xs) == Ids(ys)
  {
  }

  lemma IdsOfParts(rows: seq<ToolEvent>, cut: nat)
    requires cut <= |rows|
    ensures Ids(rows[..cut]) == Ids(rows)[..cut] && Ids(rows[cut..]) == Ids(rows)[cut..]
  {
  }

  /** The rows before and after a position, by identity, once `removed` rows are gone. */
  ghost predicate SplitsAlike(before: seq<ToolEvent>, after: seq<ToolEvent>, removed: set<nat>, index: int, index': int) {
    && 0 <= index && 0 <= index'
    && var cut, cut' := Min(index, |before|), Min(index', |after|);
       && Ids(after)[..cut'] == Ids(Survivors(before[..cut], removed))
       && Ids(after)[cut'..] == Ids(Survivors(before[cut..], removed))
  }

  lemma RemapSplitsAlike(before: seq<ToolEvent>, after: seq<ToolEvent>, removed: set<nat>, index: int, index': int)
    requires index >= 0 && Aligned(after, Survivors(before, removed))
    requires index' == index - RemovedBefore(before, removed, index)
    ensures SplitsAlike(before, after, removed, index, index')
  {
    var kept := Survivors(before, removed);
    AlignedIds(after, kept);
    RemapSplitsSurvivors(before, removed, index);
    assert index' == RemapIndex(before, removed, index);
    IdsOfParts(kept, Min(index', |kept|));
  }

  lemma ResteeredIndex(rows: seq<ToolEvent>, removed: set<nat>, steer: Steer) returns (index: int)
    ensures index == steer.toolIndex - RemovedBefore(rows, removed, steer.toolIndex)
    ensures Resteered(rows, removed, steer) == UserRow(Some(steer.(toolIndex := index)))
  {
    index := steer.toolIndex - RemovedBefore(rows, removed, steer.toolIndex);
  }

  lemma SplitBetween(t: Tables, t': Tables, removed: set<nat>, k: RowKey, steer: Steer, rows: seq<ToolEvent>) returns (index: int)
    requires steer.toolIndex >= 0 && rows == Response(t, k, steer)
    requires k in t'.messages && t'.messages[k] == Resteered(rows, removed, steer)
    requires Aligned(Response(t', k, steer), Survivors(rows, removed))
    ensures Steers(t', k, steer.(toolIndex := index))
    ensures SplitsAlike(rows, Response(t', k, steer), removed, steer.toolIndex, index)
  {
    index := ResteeredIndex(rows, removed, steer);
    RemapSplitsAlike(rows, Response(t', k, steer), removed, steer.toolIndex, index);
  }

  lemma SplitAfterRetraction(t: Tables, r: Retraction, changed: set<FrameKey>, k: RowKey, steer: Steer) returns (index: nat)
    requires EventsSound(t) && Steers(t, k, steer) && steer.toolIndex >= 0
    ensures Steers(ApplyRetraction(t, r, changed), k, steer.(toolIndex := index))
    ensures SplitsAlike(Response(t, k, steer), Response(ApplyRetraction(t, r, changed), k, steer),
                        RemovedIds(t, changed), steer.toolIndex, index)
  {
    SteerAfterRetraction(t, r, changed, k, steer);
    ResponseAfterRetraction(t, r, changed, RowKey(k.session, steer.target));
    index := SplitBetween(t, ApplyRetraction(t, r, changed), RemovedIds(t, changed), k, steer, Response(t, k, steer));
  }

  /** A steer keeps splitting its response at the same place: the tool rows in front of it afterwards
      are exactly the survivors of the tool rows in front of it before. */
  lemma SteerSplitSurvives(t: Tables, r: Retraction, k: RowKey, steer: Steer) returns (index: nat, removed: set<nat>)
    requires EventsSound(t) && Steers(t, k, steer) && steer.toolIndex >= 0
    ensures removed == RemovedIds(t, ChangedKeys(t.frames, RetractionKeys(r)))
    ensures Steers(Retract(t, r), k, steer.(toolIndex := index))
    ensures SplitsAlike(Response(t, k, steer), Response(Retract(t, r), k, steer), removed, steer.toolIndex, index)
  {
    var u := AddTombstones(t, r);
    var changed := ChangedKeys(t.frames, RetractionKeys(r));
    RetractIsUniform(t, r);
    index := SplitAfterRetraction(u, r, changed, k, steer);
    removed := RemovedIds(u, changed);
    assert removed == RemovedIds(t, changed);
  }

  // ----- two retractions are one --------------------------------------------------------------

  /** The same provider session retracts the frames of both calls at once. */
  function Both(r1: Retraction, r2: Retraction): Retraction {
    r1.(uuids := r1.uuids + r2.uuids)
  }

  ghost predicate SameSource(r1: Retraction, r2: Retraction) {
    r1.session == r2.session && r1.provider == r2.provider && r1.providerSession == r2.providerSession
  }

  lemma BothKeys(r1: Retraction, r2: Retraction)
    requires SameSource(r1, r2)
    ensures RetractionKeys(Both(r1, r2)) == RetractionKeys(r1) + RetractionKeys(r2)
  {
    var both := RetractionKeys(Both(r1, r2));
    forall k | k in both ensures k in RetractionKeys(r1) + RetractionKeys(r2) {
      var u :| u in r1.uuids + r2.uuids && u != "" && k == FrameKey(r1.session, r1.provider, r1.providerSession, u);
    }
    forall k | k in RetractionKeys(r1) + RetractionKeys(r2) ensures k in both {
      var u :| (u in r1.uuids || u in r2.uuids) && u != "" && k == FrameKey(r1.session, r1.provider, r1.providerSession, u);
      assert u in Both(r1, r2).uuids;
    }
  }

  lemma MarkTwice(frames: seq<Frame>, c1: set<FrameKey>, c2: set<FrameKey>)
    ensures MarkRetracted(MarkRetracted(frames, c1), c2) == MarkRetracted(frames, c1 + c2)
  {
  }

  /** The frames the second call still finds active are those the first one left. */
  lemma ChangedAfterMark(t: Tables, keys1: set<FrameKey>, keys2: set<FrameKey>)
    requires FramesSound(t)
    ensures var c1 := ChangedKeys(t.frames, keys1);
            ChangedKeys(t.frames, keys1 + keys2) == c1 + ChangedKeys(MarkRetracted(t.frames, c1), keys2)
  {
    var c1 := ChangedKeys(t.frames, keys1);
    var marked := MarkRetracted(t.frames, c1);
    var c2 := ChangedKeys(marked, keys2);
    forall k | k in c2 ensures k in ChangedKeys(t.frames, keys1 + keys2) {
      var f :| f in marked && f.input.key in keys2 && !f.retracted && f.input.key == k;
      var i :| 0 <= i < |marked| && marked[i] == f;
      assert t.frames[i] in t.frames;
    }
    forall k | k in ChangedKeys(t.frames, keys1 + keys2) ensures k in c1 + c2 {
      var f :| f in t.frames && f.input.key in keys1 + keys2 && !f.retracted && f.input.key == k;
      if k !in c1 {
        var i :| 0 <= i < |t.frames| && t.frames[i] == f;
        assert marked[i] == f && f in marked;
      }
    }
  }

  lemma {:induction false} SurvivorsTwice(events: seq<ToolEvent>, r1: set<nat>, r2: set<nat>)
    ensures Survivors(Survivors(events, r1), r2) == Survivors(events, r1 + r2)
  {
    if events != [] {
      var init, last := events[..|events| - 1], events[|events| - 1];
      SurvivorsTwice(init, r1, r2);
      var kept := Survivors(init, r1);
      if last.id !in r1 {
        assert (kept + [last])[..|kept + [last]| - 1] == kept;
      } else {
        assert kept + [] == kept;
      }
    }
  }

  lemma {:induction false} KeptTwice(cs: seq<Contribution>, r1: set<nat>, r2: set<nat>)
    ensures KeptContributions(KeptContributions(cs, r1), r2) == KeptContributions(cs, r1 + r2)
  {
    if cs != [] {
      var init, last := cs[..|cs| - 1], cs[|cs| - 1];
      KeptTwice(init, r1, r2);
      var kept := KeptContributions(init, r1);
      if last.event !in r1 {
        assert (kept + [last])[..|kept + [last]| - 1] == kept;
      } else {
        assert kept + [] == kept;
      }
    }
  }

  lemma RevisedAllAppend(t: Tables, events: seq<ToolEvent>, e: ToolEvent, changed: set<FrameKey>)
    ensures RevisedAll(t, events + [e], changed) == RevisedAll(t, events, changed) + [Revised(t, e, changed)]
    ensures Revised(t, e, changed).id == e.id
  {
  }

  lemma {:induction false} SurvivorsOfRevised(t: Tables, events: seq<ToolEvent>, changed: set<FrameKey>, removed: set<nat>)
    ensures Survivors(RevisedAll(t, events, changed), removed) == RevisedAll(t, Survivors(events, removed), changed)
  {
    if events != [] {
      var init, last := events[..|events| - 1], events[|events| - 1];
      SurvivorsOfRevised(t, init, changed, removed);
      assert events == init + [last];
      RevisedAllAppend(t, init, last, changed);
      var all := RevisedAll(t, init, changed);
      var last' := Revised(t, last, changed);
      assert (all + [last'])[..|all + [last']| - 1] == all;
      RevisedAllAppend(t, Survivors(init, removed), last, changed);
      assert Survivors(init, removed) + [] == Survivors(init, removed);
    }
  }

  /** One tool row is removed by the joint call iff one of the two calls removes it. */
  lemma RemovedTwice(t: Tables, r: Retraction, c1: set<FrameKey>, c2: set<FrameKey>)
    requires EventsSound(t)
    ensures RemovedIds(t, c1 + c2) == RemovedIds(t, c1) + RemovedIds(ApplyRetraction(t, r, c1), c2)
  {
    var t1 := ApplyRetraction(t, r, c1);
    var first, second, joint := RemovedIds(t, c1), RemovedIds(t1, c2), RemovedIds(t, c1 + c2);
    forall id | id in joint ensures id in first + second {
      var e :| e in t.events && Removed(t, e, c1 + c2) && e.id == id;
      if id !in first { RemovedLater(t, r, c1, c2, e, t1); }
    }
    forall id | id in first ensures id in joint {
      var e :| e in t.events && Removed(t, e, c1) && e.id == id;
      assert Removed(t, e, c1 + c2);
    }
    forall id | id in second ensures id in joint { RemovedJointly(t, r, c1, c2, t1, id); }
  }

  lemma RemovedLater(t: Tables, r: Retraction, c1: set<FrameKey>, c2: set<FrameKey>, e: ToolEvent, t1: Tables)
    requires EventsSound(t) && t1 == ApplyRetraction(t, r, c1)
    requires e in t.events && Removed(t, e, c1 + c2) && e.id !in RemovedIds(t, c1)
    ensures e.id in RemovedIds(t1, c2)
  {
    assert !Removed(t, e, c1);
    RevisedTo(t, r, c1, e);
    var e1 := Revised(t, e, c1);
    if StartsIn(e, c1 + c2) {
      assert StartsIn(e1, c2);
    } else {
      var p :| p in t.lineage && p.0 == e.id && p.1 in c1 + c2;
      assert p in t1.lineage && p.1 in c2;
    }
    assert Removed(t1, e1, c2);
  }

  lemma RemovedJointly(t: Tables, r: Retraction, c1: set<FrameKey>, c2: set<FrameKey>, t1: Tables, id: nat)
    requires EventsSound(t) && t1 == ApplyRetraction(t, r, c1) && id in RemovedIds(t1, c2)
    ensures id in RemovedIds(t, c1 + c2)
  {
    var e1 :| e1 in t1.events && Removed(t1, e1, c2) && e1.id == id;
    var e := RevisedFrom(t, r, c1, e1);
    assert Removed(t, e, c1 + c2);
  }

  /** A tool row that survives both calls ends up as after the joint call. */
  lemma RevisedTwice(t: Tables, r: Retraction, c1: set<FrameKey>, c2: set<FrameKey>, e: ToolEvent)
    requires CellsAgree(t) && e in t.events
    requires e.id !in RemovedIds(t, c1)
    ensures Revised(ApplyRetraction(t, r, c1), Revised(t, e, c1), c2) == Revised(t, e, c1 + c2)
  {
    var t1 := ApplyRetraction(t, r, c1);
    var e1 := Revised(t, e, c1);
    RevisedTo(t, r, c1, e);
    RetractKeepsCells(t, r, c1);
    forall column ensures RestoredCell(t1, e1, c2, column) == RestoredCell(t, e, c1 + c2, column) {
      assert CellAgrees(t, e, column) && CellAgrees(t1, e1, column);
      RestoredCellAgrees(t, e, c1 + c2, column);
      RestoredCellAgrees(t1, e1, c2, column);
      MarkTwice(t.frames, c1, c2);
      LatestSurvivesCascade(t.contributions, RemovedIds(t, c1), MarkRetracted(t.frames, c1 + c2), e.id, column);
    }
    assert RestoredCell(t1, e1, c2, Subagent) == RestoredCell(t, e, c1 + c2, Subagent);
    assert RestoredCell(t1, e1, c2, Activity) == RestoredCell(t, e, c1 + c2, Activity);
    assert ClearResult(e1, c2).result == ClearResult(e, c1 + c2).result;
  }

  lemma EventsTwice(t: Tables, r: Retraction, c1: set<FrameKey>, c2: set<FrameKey>)
    requires EventsSound(t) && CellsAgree(t)
    ensures ApplyRetraction(ApplyRetraction(t, r, c1), r, c2).events == ApplyRetraction(t, r, c1 + c2).events
  {
    var t1 := ApplyRetraction(t, r, c1);
    var r1, r2 := RemovedIds(t, c1), RemovedIds(t1, c2);
    RemovedTwice(t, r, c1, c2);
    SurvivorsOfRevised(t, Survivors(t.events, r1), c1, r2);
    SurvivorsTwice(t.events, r1, r2);
    var kept := Survivors(t.events, r1 + r2);
    assert Survivors(t1.events, r2) == RevisedAll(t, kept, c1);
    forall i | 0 <= i < |kept|
      ensures Revised(t1, RevisedAll(t, kept, c1)[i], c2) == Revised(t, kept[i], c1 + c2)
    {
      assert kept[i] in kept;
      RevisedTwice(t, r, c1, c2, kept[i]);
    }
    assert RevisedAll(t1, RevisedAll(t, kept, c1), c2) == RevisedAll(t, kept, c1 + c2);
  }

  lemma RemovedWithinTwice(rows: seq<ToolEvent>, kept: seq<ToolEvent>, r1: set<nat>, r2: set<nat>, index: int, index1: int)
    requires 0 <= index <= |rows| && kept == Survivors(rows, r1)
    requires index1 == index - RemovedBefore(rows, r1, index)
    ensures RemovedBefore(rows, r1 + r2, index) == RemovedBefore(rows, r1, index) + RemovedBefore(kept, r2, index1)
  {
    var front := Survivors(rows[..index], r1);
    RemovedWithin(rows, r1, index);
    SurvivorsSplit(rows, r1, index);
    SurvivorsTwice(rows[..index], r1, r2);
    WithinTwice(rows, kept, front, r1, r2, index);
  }

  lemma WithinTwice(rows: seq<ToolEvent>, kept: seq<ToolEvent>, front: seq<ToolEvent>, r1: set<nat>, r2: set<nat>, index: int)
    requires 0 <= index <= |rows| && |front| <= |kept| && kept[..|front|] == front
    requires Survivors(front, r2) == Survivors(rows[..index], r1 + r2)
    ensures RemovedBefore(rows, r1 + r2, index) == index - |front| + RemovedBefore(kept, r2, |front|)
  {
    RemovedWithin(rows, r1 + r2, index);
    RemovedWithin(kept, r2, |front|);
  }

  lemma RemovedBeyondTwice(rows: seq<ToolEvent>, kept: seq<ToolEvent>, r1: set<nat>, r2: set<nat>, index: int, index1: int)
    requires index > |rows| && kept == Survivors(rows, r1)
    requires index1 == index - RemovedBefore(rows, r1, index)
    ensures RemovedBefore(rows, r1 + r2, index) == RemovedBefore(rows, r1, index) + RemovedBefore(kept, r2, index1)
  {
    RemovedBeyond(rows, r1, index);
    SurvivorCount(rows, r1);
    SurvivorsTwice(rows, r1, r2);
    BeyondTwice(rows, kept, r1, r2, index, index1);
  }

  lemma BeyondTwice(rows: seq<ToolEvent>, kept: seq<ToolEvent>, r1: set<nat>, r2: set<nat>, index: int, index1: int)
    requires index > |rows| && |kept| <= |rows| && index1 == index - (|rows| - |kept|)
    requires Survivors(kept, r2) == Survivors(rows, r1 + r2)
    ensures RemovedBefore(rows, r1 + r2, index) == |rows| - |kept| + RemovedBefore(kept, r2, index1)
  {
    RemovedBeyond(rows, r1 + r2, index);
    RemovedBeyond(kept, r2, index1);
  }

  lemma RemovedBeforeTwice(rows: seq<ToolEvent>, r1: set<nat>, r2: set<nat>, index: int)
    requires index >= 0
    ensures RemovedBefore(rows, r1, index) <= index
    ensures RemovedBefore(rows, r1 + r2, index)
         == RemovedBefore(rows, r1, index)
            + RemovedBefore(Survivors(rows, r1), r2, index - RemovedBefore(rows, r1, index))
  {
    RemovedBeforeCounts(rows, r1, index);
    var kept, index1 := Survivors(rows, r1), index - RemovedBefore(rows, r1, index);
    if index <= |rows| {
      RemovedWithinTwice(rows, kept, r1, r2, index, index1);
    } else {
      RemovedBeyondTwice(rows, kept, r1, r2, index, index1);
    }
  }

  /** Removing in two steps moves an index as far as removing at once, when the second step sees the
      rows the first one left. */
  lemma IndexChain(rows: seq<ToolEvent>, rows1: seq<ToolEvent>, r1: set<nat>, r2: set<nat>, index: int, index1: int)
    requires index >= 0 && index1 == index - RemovedBefore(rows, r1, index)
    requires Aligned(rows1, Survivors(rows, r1))
    ensures index1 >= 0
    ensures RemovedBefore(rows1, r2, index1) + RemovedBefore(rows, r1, index) == RemovedBefore(rows, r1 + r2, index)
  {
    RemovedBeforeTwice(rows, r1, r2, index);
    AlignedRemoved(rows1, Survivors(rows, r1), r2, index1);
  }

  /** A steer remapped by both calls points where the joint call points it. */
  lemma ResteeredTwice(rows: seq<ToolEvent>, rows1: seq<ToolEvent>, r1: set<nat>, r2: set<nat>, steer: Steer)
    requires steer.toolIndex >= 0
    requires Aligned(rows1, Survivors(rows, r1))
    ensures Resteered(rows, r1, steer).steer.value.toolIndex >= 0
    ensures Resteered(rows1, r2, Resteered(rows, r1, steer).steer.value) == Resteered(rows, r1 + r2, steer)
  {
    var index1 := steer.toolIndex - RemovedBefore(rows, r1, steer.toolIndex);
    IndexChain(rows, rows1, r1, r2, steer.toolIndex, index1);
  }

  lemma SteerTwice(t: Tables, r: Retraction, c1: set<FrameKey>, c2: set<FrameKey>, k: RowKey, steer: Steer)
    requires EventsSound(t) && ContributionsSound(t) && Steers(t, k, steer) && steer.toolIndex >= 0
    ensures k in ApplyRetraction(ApplyRetraction(t, r, c1), r, c2).messages && k in ApplyRetraction(t, r, c1 + c2).messages
    ensures ApplyRetraction(ApplyRetraction(t, r, c1), r, c2).messages[k] == ApplyRetraction(t, r, c1 + c2).messages[k]
  {
    var t1 := ApplyRetraction(t, r, c1);
    var rows, rows1 := Response(t, k, steer), Response(t1, k, steer);
    var r1, r2 := RemovedIds(t, c1), RemovedIds(t1, c2);
    SteerAfterRetraction(t, r, c1, k, steer);
    ResponseAfterRetraction(t, r, c1, RowKey(k.session, steer.target));
    ResteeredTwice(rows, rows1, r1, r2, steer);
    RetractKeepsEvents(t, r, c1);
    SteerAfterRetraction(t1, r, c2, k, Resteered(rows, r1, steer).steer.value);
    SteerAfterRetraction(t, r, c1 + c2, k, steer);
    RemovedTwice(t, r, c1, c2);
  }

  /** Deleting rows and revising cells reads the tables and the provider, not the tombstones. */
  lemma ApplyReadsLittle(t: Tables, tombstones: set<FrameKey>, r: Retraction, r': Retraction, c: set<FrameKey>)
    requires r.provider == r'.provider
    ensures ApplyRetraction(t.(tombstones := tombstones), r', c)
         == ApplyRetraction(t, r, c).(tombstones := tombstones)
  {
    var t' := t.(tombstones := tombstones);
    assert RemovedIds(t', c) == RemovedIds(t, c);
    assert AffectedRows(t', c) == AffectedRows(t, c);
    var kept := Survivors(t.events, RemovedIds(t, c));
    assert RevisedAll(t', kept, c) == RevisedAll(t, kept, c);
    assert RevisedMessages(t', r', c) == RevisedMessages(t, r, c) by {
      forall k | k in t.messages
        ensures RevisedMessage(t', k, t.messages[k], r', c) == RevisedMessage(t, k, t.messages[k], r, c) {}
    }
  }

  /** The log and the tool rows after two steps are those after the joint step. */
  lemma LogTwice(t: Tables, r: Retraction, c1: set<FrameKey>, c2: set<FrameKey>)
    requires EventsSound(t) && CellsAgree(t)
    ensures var twice, once := ApplyRetraction(ApplyRetraction(t, r, c1), r, c2), ApplyRetraction(t, r, c1 + c2);
            twice.(messages := map[]) == once.(messages := map[])
  {
    var twice, once := ApplyRetraction(ApplyRetraction(t, r, c1), r, c2), ApplyRetraction(t, r, c1 + c2);
    MarkTwice(t.frames, c1, c2);
    EventsTwice(t, r, c1, c2);
    RemovedTwice(t, r, c1, c2);
    KeptTwice(t.contributions, RemovedIds(t, c1), RemovedIds(ApplyRetraction(t, r, c1), c2));
    assert twice.lineage == once.lineage;
  }

  /** Two sound states with the same log that agree on their user rows agree on every row. */
  lemma SameLogSameText(s: Tables, s': Tables, owner: RowKey -> string)
    requires TextAgrees(s, owner) && TextAgrees(s', owner) && s.frames == s'.frames
    requires s.messages.Keys == s'.messages.Keys
    requires forall k :: k in s.messages ==>
               (s.messages[k].AssistantRow? <==> s'.messages[k].AssistantRow?)
               && (s.messages[k].UserRow? ==> s.messages[k] == s'.messages[k])
    ensures s.messages == s'.messages
  {
    forall k | k in s.messages ensures s.messages[k] == s'.messages[k] {
      assert RowAgrees(s, owner, k) && RowAgrees(s', owner, k);
    }
  }

  lemma UserRowsTwice(t: Tables, r: Retraction, c1: set<FrameKey>, c2: set<FrameKey>, k: RowKey)
    requires EventsSound(t) && ContributionsSound(t) && SteersSane(t)
    requires k in t.messages
    ensures var twice, once := ApplyRetraction(ApplyRetraction(t, r, c1), r, c2), ApplyRetraction(t, r, c1 + c2);
            && k in twice.messages && k in once.messages
            && (twice.messages[k].AssistantRow? <==> once.messages[k].AssistantRow?)
            && (twice.messages[k].UserRow? ==> twice.messages[k] == once.messages[k])
  {
    MessageAfterRetraction(t, r, c1, k);
    MessageAfterRetraction(ApplyRetraction(t, r, c1), r, c2, k);
    MessageAfterRetraction(t, r, c1 + c2, k);
    if t.messages[k].UserRow? && t.messages[k].steer.Some? {
      SteerTwice(t, r, c1, c2, k, t.messages[k].steer.value);
    }
  }

  /** Both ways of retracting, written over the same tombstones. */
  lemma BothAsSteps(t: Tables, r1: Retraction, r2: Retraction) returns (u: Tables, c1: set<FrameKey>, c2: set<FrameKey>)
    requires FramesSound(t) && SameSource(r1, r2)
    ensures u == AddTombstones(t, Both(r1, r2))
    ensures Retract(Retract(t, r1), r2) == ApplyRetraction(ApplyRetraction(u, r1, c1), r1, c2)
    ensures Retract(t, Both(r1, r2)) == ApplyRetraction(u, r1, c1 + c2)
  {
    var both := Both(r1, r2);
    BothKeys(r1, r2);
    u := AddTombstones(t, both);
    c1 := ChangedKeys(t.frames, RetractionKeys(r1));
    var u1 := AddTombstones(t, r1);
    var t1 := Retract(t, r1);
    RetractIsUniform(t, r1);
    RetractIsUniform(t, both);
    RetractIsUniform(t1, r2);
    c2 := ChangedKeys(t1.frames, RetractionKeys(r2));
    ChangedAfterMark(t, RetractionKeys(r1), RetractionKeys(r2));
    ApplyReadsLittle(u, u.tombstones, r1, both, c1 + c2);
    ApplyReadsLittle(u1, u.tombstones, r1, r1, c1);
    assert u == u1.(tombstones := u.tombstones);
    assert AddTombstones(t1, r2) == t1.(tombstones := u.tombstones);
    ApplyReadsLittle(AddTombstones(t1, r2), u.tombstones, r1, r2, c2);
  }

  lemma TombstonesKeepCells(t: Tables, tombstones: set<FrameKey>)
    requires CellsAgree(t)
    ensures CellsAgree(t.(tombstones := tombstones))
  {
    forall e, column | e in t.events ensures CellAgrees(t.(tombstones := tombstones), e, column) {
      assert CellAgrees(t, e, column);
    }
  }

  lemma AllUserRowsTwice(t: Tables, r: Retraction, c1: set<FrameKey>, c2: set<FrameKey>)
    requires EventsSound(t) && ContributionsSound(t) && SteersSane(t)
    ensures var twice, once := ApplyRetraction(ApplyRetraction(t, r, c1), r, c2), ApplyRetraction(t, r, c1 + c2);
            && twice.messages.Keys == once.messages.Keys
            && forall k :: k in twice.messages ==>
                 (twice.messages[k].AssistantRow? <==> once.messages[k].AssistantRow?)
                 && (twice.messages[k].UserRow? ==> twice.messages[k] == once.messages[k])
  {
    forall k | k in t.messages
      ensures var twice, once := ApplyRetraction(ApplyRetraction(t, r, c1), r, c2), ApplyRetraction(t, r, c1 + c2);
              && k in twice.messages && k in once.messages
              && (twice.messages[k].AssistantRow? <==> once.messages[k].AssistantRow?)
              && (twice.messages[k].UserRow? ==> twice.messages[k] == once.messages[k])
    {
      UserRowsTwice(t, r, c1, c2, k);
    }
  }

  /** Retracting in two calls leaves the tables exactly as retracting everything in one call. */
  lemma RetractionsCompose(t: Tables, r1: Retraction, r2: Retraction, owner: RowKey -> string)
    requires TranscriptSound(t, owner) && SteersSane(t) && SameSource(r1, r2)
    ensures Retract(Retract(t, r1), r2) == Retract(t, Both(r1, r2))
  {
    var twice, once := Retract(Retract(t, r1), r2), Retract(t, Both(r1, r2));
    StepKeepsTranscript(t, Retraction_(r1), owner);
    StepKeepsTranscript(Retract(t, r1), Retraction_(r2), owner);
    StepKeepsTranscript(t, Retraction_(Both(r1, r2)), owner);
    assert TextAgrees(twice, owner) && TextAgrees(once, owner);
    var u, c1, c2 := BothAsSteps(t, r1, r2);
    TombstonesKeepCells(t, u.tombstones);
    assert u == t.(tombstones := u.tombstones);
    LogTwice(u, r1, c1, c2);
    AllUserRowsTwice(u, r1, c1, c2);
    SameLogSameText(twice, once, owner);
  }

  /** So the order of two retractions does not matter, and repeating one changes nothing. */
  lemma RetractionsCommute(t: Tables, r1: Retraction, r2: Retraction, owner: RowKey -> string)
    requires TranscriptSound(t, owner) && SteersSane(t) && SameSource(r1, r2)
    ensures Retract(Retract(t, r1), r2) == Retract(Retract(t, r2), r1)
    ensures Retract(Retract(t, r1), r1) == Retract(t, r1)
  {
    RetractionsCompose(t, r1, r2, owner);
    RetractionsCompose(t, r2, r1, owner);
    RetractionsCompose(t, r1, r1, owner);
    SameKeysSameEffect(t, Both(r1, r2), Both(r2, r1));
    SameKeysSameEffect(t, Both(r1, r1), r1);
  }

  lemma SameKeysSameEffect(t: Tables, r: Retraction, r': Retraction)
    requires SameSource(r, r') && forall u :: u in r.uuids <==> u in r'.uuids
    ensures Retract(t, r) == Retract(t, r')
  {
    assert RetractionKeys(r) == RetractionKeys(r');
    var u := AddTombstones(t, r);
    ApplyReadsLittle(u, u.tombstones, r, r', ChangedKeys(t.frames, RetractionKeys(r)));
    assert u.(tombstones := u.tombstones) == u;
  }

  lemma StepKeepsSteersSane(t: Tables, op: Op)
    requires ToolStateSound(t) && SteersSane(t)
    ensures SteersSane(Step(t, op))
  {
    if op.Retraction_? {
      var r := op.retraction;
      var changed := ChangedKeys(t.frames, RetractionKeys(r));
      RetractIsUniform(t, r);
      forall k | k in t.messages && t.messages[k].UserRow? && t.messages[k].steer.Some?
        ensures var m := Retract(t, r).messages[k]; m.UserRow? && m.steer.Some? && m.steer.value.toolIndex >= 0
      {
        var index, removed := SteerSplitSurvives(t, r, k, t.messages[k].steer.value);
      }
    }
  }

  lemma {:induction false} RunKeepsSteersSane(t: Tables, ops: seq<Op>)
    requires Fresh(t) && SteersSane(t)
    ensures SteersSane(Run(t, ops))
  {
    if ops != [] {
      RunKeepsSteersSane(t, ops[..|ops| - 1]);
      RunKeepsSound(t, ops[..|ops| - 1]);
      StepKeepsSteersSane(Run(t, ops[..|ops| - 1]), ops[|ops| - 1]);
    }
  }

  /** In every reachable state retractions of one provider session compose and commute. */
  lemma ReachableRetractionsCompose(t: Tables, ops: seq<Op>, r1: Retraction, r2: Retraction, owner: RowKey -> string)
    requires Blank(t) && SteersSane(t) && RunOwned(t, ops, owner) && SameSource(r1, r2)
    ensures var s := Run(t, ops);
            && Retract(Retract(s, r1), r2) == Retract(s, Both(r1, r2))
            && Retract(Retract(s, r1), r2) == Retract(Retract(s, r2), r1)
            && Retract(Retract(s, r1), r1) == Retract(s, r1)
  {
    TextFollowsLog(t, ops, owner);
    RunKeepsSteersSane(t, ops);
    RetractionsCompose(Run(t, ops), r1, r2, owner);
    RetractionsCommute(Run(t, ops), r1, r2, owner);
  }
}
