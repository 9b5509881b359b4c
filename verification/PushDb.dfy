/** The notification tables under their writers; several writers interleave one call at a time. */
module PushDb {
  import opened Wrappers
  import opened PushPolicies

  /** The deliveries with every key outside `todo` rewritten. */
  function Rewritten(before: map<Key, Delivery>, todo: set<Key>, f: (Key, Delivery) -> Delivery): map<Key, Delivery> {
    map k | k in before :: if k in todo then before[k] else f(k, before[k])
  }

  lemma NextRewritten(before: map<Key, Delivery>, todo: set<Key>, f: (Key, Delivery) -> Delivery, k: Key)
    requires k in todo && todo <= before.Keys
    ensures k in Rewritten(before, todo, f) && Rewritten(before, todo, f)[k] == before[k]
    ensures Rewritten(before, todo - {k}, f) == Rewritten(before, todo, f)[k := f(k, before[k])]
  {
  }

  class Db {
    var counter: int
    var policies: map<string, Policy>
    var deliveries: map<Key, Delivery>
    var markers: set<Marker>

    ghost function State(): State
      reads this
    {
      PushPolicies.State(counter, policies, deliveries, markers)
    }

    constructor ()
      ensures State() == PushPolicies.State(0, map[], map[], {})
    {
      counter, policies, deliveries, markers := 0, map[], map[], {};
    }

    method NextPushPolicyRevision(now: int) returns (revision: int)
      modifies this`counter
      ensures revision == counter == NextRevision(old(counter), now)
    {
      var next := if IsSafe(counter) then counter + 1 else 1;
      revision := if now >= next then now else next;
      counter := revision;
    }

    /** The `default` mode leaves the override and cancels what it still authorizes. */
    method SetPushSessionPolicy(session: string, mode: Option<Mode>, now: int)
      modifies this
      ensures State() == Step(old(State()), if mode.Some? then SetPolicy(session, mode.value) else SetDefault(session), now)
    {
      if mode.None? {
        policies := policies - {session};
        var _ := CancelPushNotificationOneShotDeliveries(session);
      } else {
        var revision := NextPushPolicyRevision(now);
        policies := policies[session := Policy(mode.value, revision)];
      }
    }

    method InsertInitialPushSessionPolicy(session: string, mode: Mode, now: int) returns (inserted: bool)
      modifies this
      ensures State() == Step(old(State()), InsertInitial(session, mode), now)
      ensures inserted <==> session !in old(policies)
    {
      inserted := session !in policies;
      if inserted {
        var revision := NextPushPolicyRevision(now);
        policies := policies[session := Policy(mode, revision)];
      }
    }

    method RecordPushNotificationDecision(key: Key, oneShot: Option<OneShot>, status: DeliveryStatus, reason: Reason,
                                          nextAttemptAt: Option<int>, now: int)
      modifies this`deliveries
      ensures State() == Step(old(State()), Decide(key, oneShot, status, reason, nextAttemptAt), now)
    {
      var stale := false;
      if oneShot.Some? {
        var o := oneShot.value;
        var live := o.session in policies && policies[o.session].mode == OneShotMode(o.mode)
                    && (o.revision.None? || policies[o.session].revision == o.revision.value);
        var retained := key in deliveries && deliveries[key].oneShot.Some? && SameOneShot(deliveries[key].oneShot.value, o);
        stale := !live && !retained;
      }
      var snapshot := if oneShot.Some? then Some(Retain(oneShot.value)) else None;
      var decided := if stale then Delivery(snapshot, Suppressed, OneShotCancelled, None) else Delivery(snapshot, status, reason, nextAttemptAt);
      if key !in deliveries {
        deliveries := deliveries[key := decided];
      } else {
        var d := deliveries[key];
        if d.reason == OneShotCancelled || d.reason == ConsumedByOther {
          assert deliveries == deliveries[key := d];
        } else {
          deliveries := deliveries[key := decided.(status := if d.status == Sent then Sent else decided.status)];
        }
      }
    }

    method RecordPushNotificationReceipt(key: Key, status: DeliveryStatus, reason: Reason, nextAttemptAt: Option<int>,
                                         oneShot: Option<OneShot>, now: int) returns (changed: bool)
      modifies this`deliveries, this`markers
      ensures State() == Step(old(State()), Receipt(key, status, reason, nextAttemptAt, oneShot), now)
      ensures changed <==> && (oneShot.Some? ==> Acceptable(oneShot.value))
                           && key in old(deliveries) && (status == Sent || !Closed(old(deliveries)[key].reason))
    {
      if oneShot.Some? && !Acceptable(oneShot.value) { return false; }
      changed := key in deliveries
                 && (status == Sent || (deliveries[key].reason != OneShotCancelled && deliveries[key].reason != ConsumedByOther));
      if changed {
        deliveries := deliveries[key := deliveries[key].(status := status, reason := reason, nextAttemptAt := nextAttemptAt)];
        if status == Sent && oneShot.Some? {
          markers := markers + {Marker(key.event, oneShot.value.session, oneShot.value.mode, RevisionOf(oneShot.value))};
        }
      }
    }

    method ConsumePushNotificationOneShot(session: string, mode: OneShotMode, revision: Option<int>, now: int) returns (cleared: bool)
      modifies this
      ensures State() == Step(old(State()), Consume(session, mode, revision), now)
      ensures cleared <==> session in old(policies) && Clears(old(policies)[session], mode, revision)
    {
      var o := OneShot(session, mode, revision);
      var events := set m | m in markers && m.session == session && m.mode == mode && m.revision == RevisionOf(o) :: m.event;
      CloseOtherDeliveries(events, o);
      cleared := session in policies && policies[session].mode == OneShotMode(mode)
                 && (revision.Some? && revision.value != 0 ==> policies[session].revision == revision.value);
      if cleared { policies := policies - {session}; }
      markers := set m | m in markers
                         && !(m.session == session && m.mode == mode
                              && (revision.Some? && revision.value != 0 ==> m.revision == revision.value));
    }

    method CloseOtherDeliveries(events: set<string>, o: OneShot)
      modifies this`deliveries
      ensures deliveries == map k | k in old(deliveries) :: CloseOthers(events, o, k, old(deliveries)[k])
    {
      var f := (k: Key, d: Delivery) => CloseOthers(events, o, k, d);
      ghost var before := deliveries;
      var todo := deliveries.Keys;
      assert Rewritten(before, todo, f) == before;
      while todo != {}
        invariant todo <= before.Keys && deliveries == Rewritten(before, todo, f)
        decreases todo
      {
        var k :| k in todo;
        NextRewritten(before, todo, f, k);
        deliveries := deliveries[k := CloseOthers(events, o, k, deliveries[k])];
        todo := todo - {k};
      }
    }

    method CancelPushNotificationOneShotDeliveries(session: string) returns (cancelled: nat)
      modifies this`deliveries
      ensures deliveries == CancelAll(session, old(deliveries))
    {
      var f := (k: Key, d: Delivery) => CancelDelivery(session, d);
      ghost var before := deliveries;
      var todo := deliveries.Keys;
      cancelled := 0;
      assert Rewritten(before, todo, f) == before;
      while todo != {}
        invariant todo <= before.Keys && deliveries == Rewritten(before, todo, f)
        decreases todo
      {
        var k :| k in todo;
        NextRewritten(before, todo, f, k);
        var d := deliveries[k];
        if StillOpen(d) && d.oneShot.Some? && d.oneShot.value.session == session {
          deliveries := deliveries[k := d.(status := Suppressed, reason := OneShotCancelled, nextAttemptAt := None)];
          cancelled := cancelled + 1;
        } else {
          assert deliveries == deliveries[k := d];
        }
        todo := todo - {k};
      }
    }
  }
}
