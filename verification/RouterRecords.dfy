/** Items, step hashes and instance records: what they say about each other in every reachable state. */
module RouterRecords {
  import opened Prelude
  import opened WorkerSelection
  import opened RouterModel
  import opened RouterCalls
  import opened RouterInvariants

  // ----- Each call's items, queue by queue -----

  ghost predicate ItemsOf(s: State, c: Call) {
    && c.pos <= |c.steps| && c.pos <= |c.seen|
    && forall q :: OfInstance(At(s.pushed, q), c.wid) == Items(c.wid, c.steps, c.seen, c.pos, q)
  }

  ghost predicate Owned(s: State, wid: string) {
    exists i :: 0 <= i < |s.calls| && s.calls[i].wid == wid && wid != "" && wid in s.minted
  }

  ghost predicate Ordered(s: State) {
    && (forall q, k :: 0 <= k < |At(s.pushed, q)| ==> Owned(s, At(s.pushed, q)[k].workflowInstanceId))
    && (!s.collided ==> forall i :: 0 <= i < |s.calls| && s.calls[i].wid != "" ==> ItemsOf(s, s.calls[i]))
  }

  /** A lookup adds no item: a skipped step has no queue. */
  lemma LookupItems(s: State, c: Call, uuid: string, q: string)
    requires c.phase.Lookup? && InLoop(c)
    ensures var c' := LookupStep(s, c, uuid).call;
      && c'.wid == c.wid && c'.pos <= |c'.steps| && c'.pos <= |c'.seen|
      && Items(c'.wid, c'.steps, c'.seen, c'.pos, q) == Items(c.wid, c.steps, c.seen, c.pos, q)
  {
    LookupShape(s, c, uuid);
    hide LookupStep, Traced, StepKey, DefinitionName, WorkflowKey, Get;
    var c' := LookupStep(s, c, uuid).call;
    ItemsFrame(c.wid, c.steps, c.seen, c'.steps, c'.seen, c.pos, q);
  }

  lemma OwnedMonotone(s: State, s': State, wid: string)
    requires Owned(s, wid)
    requires |s'.calls| >= |s.calls| && s.minted <= s'.minted
    requires forall i :: 0 <= i < |s.calls| && s.calls[i].wid != "" ==> s'.calls[i].wid == s.calls[i].wid
    ensures Owned(s', wid)
  {
    var i :| 0 <= i < |s.calls| && s.calls[i].wid == wid && wid != "" && wid in s.minted;
    assert s'.calls[i].wid == wid;
  }

  lemma UnmintedHasNoItems(s: State, wid: string)
    requires Ordered(s) && wid !in s.minted
    ensures forall q :: OfInstance(At(s.pushed, q), wid) == []
  {
    forall q ensures OfInstance(At(s.pushed, q), wid) == [] {
      forall k | 0 <= k < |At(s.pushed, q)| ensures At(s.pushed, q)[k].workflowInstanceId != wid {
        assert Owned(s, At(s.pushed, q)[k].workflowInstanceId);
      }
      OfInstanceNone(At(s.pushed, q), wid);
    }
  }

  lemma FetchItems(s: State, c: Call, uuid: string, rid: string, now: string)
    requires c.phase.Fetch? && InLoop(c) && CallOk(c) && Ordered(s)
    ensures var e := FetchStep(s, c, uuid, rid, now);
      e.rest.pushed == s.pushed && (!e.rest.collided && e.call.wid != "" ==> ItemsOf(e.rest, e.call))
  {
    var e := FetchStep(s, c, uuid, rid, now);
    var wid := InstanceKey(uuid);
    FetchKeepsStore(s, c, uuid, rid, now);
    assert e.call.pos == 0 && (e.call.wid == "" || e.call.wid == wid) by {
      hide InstanceData, InstanceMetadata, NamespaceOf, InstanceKey, Ordered;
    }
    assert e.call.wid != "" ==> e.rest == Mint(s, wid) by {
      hide InstanceData, InstanceMetadata, NamespaceOf, InstanceKey, Ordered;
    }
    hide FetchStep, InstanceKey, Ordered, CallOk;
    if !e.rest.collided && e.call.wid != "" { UnmintedHasNoItems(s, wid); }
  }

  lemma PushShape(s: State, c: Call)
    requires c.phase.Push? && InLoop(c)
    ensures var e := PushStep(s, c); var queue := Route(c.seen[c.pos]).value;
      || (e.rest == s && e.call == c.(phase := e.call.phase))
      || (e.call == c.(pos := c.pos + 1, phase := e.call.phase)
          && e.rest.pushed == s.pushed[queue := At(s.pushed, queue) + [Item(c.wid, c.steps[c.pos].id)]])
  {
    hide QueueKey, Select, LoopPhase;
  }

  /** Pushing a routed step extends its own queue's items, and no other queue's. */
  lemma PushedItemsAt(s: State, c: Call, queue: string, q: string)
    requires ItemsOf(s, c) && c.pos < |c.steps| && c.pos < |c.seen| && Route(c.seen[c.pos]) == Some(queue)
    ensures var item := Item(c.wid, c.steps[c.pos].id);
      OfInstance(At(s.pushed[queue := At(s.pushed, queue) + [item]], q), c.wid)
      == Items(c.wid, c.steps, c.seen, c.pos + 1, q)
  {
    hide Route;
    OfInstanceLast(At(s.pushed, queue), Item(c.wid, c.steps[c.pos].id), c.wid);
  }

  lemma {:induction false} PushItems(s: State, c: Call)
    requires c.phase.Push? && InLoop(c) && c.wid != "" && ItemsOf(s, c)
    ensures var e := PushStep(s, c); ItemsOf(e.rest, e.call)
  {
    PushShape(s, c);
    hide PushStep, QueueKey, Select, Items, OfInstance, At;
    var e := PushStep(s, c);
    if e.rest != s {
      forall q ensures OfInstance(At(e.rest.pushed, q), c.wid) == Items(c.wid, c.steps, c.seen, c.pos + 1, q) {
        PushedItemsAt(s, c, Route(c.seen[c.pos]).value, q);
      }
    }
  }

  lemma PushHistory(s: State, c: Call)
    requires c.phase.Push? && InLoop(c)
    ensures forall q ::
      || At(PushStep(s, c).rest.pushed, q) == At(s.pushed, q)
      || At(PushStep(s, c).rest.pushed, q) == At(s.pushed, q) + [Item(c.wid, c.steps[c.pos].id)]
  {
    hide QueueKey, Select;
  }

  /** A push by one call adds nothing to another instance's items. */
  lemma PushOthers(s: State, c: Call, other: Call)
    requires c.phase.Push? && InLoop(c) && other.wid != c.wid && ItemsOf(s, other)
    ensures ItemsOf(PushStep(s, c).rest, other)
  {
    PushHistory(s, c);
    hide PushStep, Items;
    var e := PushStep(s, c);
    forall q ensures OfInstance(At(e.rest.pushed, q), other.wid) == OfInstance(At(s.pushed, q), other.wid) {
      OfInstanceLast(At(s.pushed, q), Item(c.wid, c.steps[c.pos].id), other.wid);
    }
  }

  lemma AdvanceOwnItems(s: State, i: nat, uuid: string, rid: string, now: string)
    requires Sane(s) && i < |s.calls| && CallOk(s.calls[i]) && Ordered(s)
    ensures var e := AdvanceStep(s, i, uuid, rid, now);
      !e.rest.collided && e.call.wid != "" ==> ItemsOf(e.rest, e.call)
  {
    hide FetchStep, LookupStep, PushStep, CallOk;
    var c := s.calls[i];
    var e := AdvanceStep(s, i, uuid, rid, now);
    if c.phase.Fetch? {
      FetchItems(s, c, uuid, rid, now);
    } else if c.phase.Lookup? {
      LookupKeepsStore(s, c, uuid);
      assert e.call.wid == c.wid && e.call.pos <= |e.call.steps| && e.call.pos <= |e.call.seen| by {
        LookupItems(s, c, uuid, "");
      }
      forall q
        ensures Items(e.call.wid, e.call.steps, e.call.seen, e.call.pos, q) == Items(c.wid, c.steps, c.seen, c.pos, q)
      {
        LookupItems(s, c, uuid, q);
      }
    } else if c.phase.Push? {
      PushWrites(s, c);
      if c.wid != "" && !s.collided { PushItems(s, c); }
    } else {
      AdvanceQuiet(s, i, uuid, rid, now);
      AdvanceWrites(s, i, uuid, rid, now);
      AdvanceKeepsPlace(s, i, uuid, rid, now);
      hide AdvanceStep;
    }
  }

  lemma AdvanceKeepsPlace(s: State, i: nat, uuid: string, rid: string, now: string)
    requires Sane(s) && i < |s.calls|
    requires var p := s.calls[i].phase; p.SaveStep? || p.SaveInstance? || p.Done? || p.Failed?
    ensures AdvanceStep(s, i, uuid, rid, now).call.pos == s.calls[i].pos
  {
    hide StepFields, InstanceFields;
  }

  /** What an advance pushes belongs to its own instance. */
  lemma AdvancePushed(s: State, i: nat, uuid: string, rid: string, now: string)
    requires Sane(s) && i < |s.calls|
    ensures var e := AdvanceStep(s, i, uuid, rid, now);
      forall q ::
        || At(e.rest.pushed, q) == At(s.pushed, q)
        || (s.calls[i].phase.Push? && |s.calls[i].seen| > s.calls[i].pos &&
         At(e.rest.pushed, q) == At(s.pushed, q) + [Item(s.calls[i].wid, s.calls[i].steps[s.calls[i].pos].id)])
  {
    if s.calls[i].phase.Push? {
      PushHistory(s, s.calls[i]);
      hide PushStep;
    } else {
      AdvanceQuiet(s, i, uuid, rid, now);
      hide AdvanceStep;
    }
  }

  lemma AdvanceKeepsOwners(s: State, s': State, i: nat, e: Effect)
    requires Sane(s) && CallsOk(s) && Fresh(s) && Ordered(s) && i < |s.calls|
    requires s' == e.rest.(calls := s.calls[i := e.call]) && s.minted <= s'.minted
    requires s.calls[i].wid != "" ==> e.call.wid == s.calls[i].wid
    requires forall q ::
      || At(e.rest.pushed, q) == At(s.pushed, q)
      || (s.calls[i].phase.Push? && |s.calls[i].seen| > s.calls[i].pos &&
          At(e.rest.pushed, q) == At(s.pushed, q) + [Item(s.calls[i].wid, s.calls[i].steps[s.calls[i].pos].id)])
    ensures forall q, k :: 0 <= k < |At(s'.pushed, q)| ==> Owned(s', At(s'.pushed, q)[k].workflowInstanceId)
  {
    hide CallsOk, Fresh, ItemsOf;
    forall q, k | 0 <= k < |At(s'.pushed, q)| ensures Owned(s', At(s'.pushed, q)[k].workflowInstanceId) {
      if k < |At(s.pushed, q)| {
        OwnedMonotone(s, s', At(s.pushed, q)[k].workflowInstanceId);
      } else {
        PushOwner(s, s', i, e);
      }
    }
  }

  lemma {:induction false} AdvanceKeepsItems(s: State, l: Label)
    requires Sane(s) && CallsOk(s) && Fresh(s) && Ordered(s) && l.Advance? && l.call < |s.calls|
    requires !Next(s, l).collided && !s.collided
    ensures var s' := Next(s, l);
      forall a :: 0 <= a < |s'.calls| && s'.calls[a].wid != "" ==> ItemsOf(s', s'.calls[a])
  {
    var s' := Next(s, l);
    var i := l.call;
    var e := AdvanceIs(s, l);
    assert CallOk(s.calls[i]);
    AdvanceOwnItems(s, i, l.uuid, l.rid, l.now);
    hide AdvanceStep, Next, CallOk, ItemsOf;
    forall a | 0 <= a < |s'.calls| && s'.calls[a].wid != "" ensures ItemsOf(s', s'.calls[a]) {
      if a == i {
        ItemsOfSame(e.rest, s', e.call);
      } else {
        assert ItemsOf(s, s.calls[a]);
        assert s.calls[a].wid != s.calls[i].wid;
        AdvanceOthersItems(s, i, l.uuid, l.rid, l.now, s.calls[a]);
        ItemsOfSame(e.rest, s', s.calls[a]);
      }
    }
  }

  lemma {:induction false} AdvanceKeepsOrdered(s: State, l: Label)
    requires Sane(s) && CallsOk(s) && Fresh(s) && Ordered(s) && l.Advance? && l.call < |s.calls|
    ensures Ordered(Next(s, l))
  {
    var s' := Next(s, l);
    var i := l.call;
    var e := AdvanceIs(s, l);
    assert CallOk(s.calls[i]);
    var id := AdvanceIds(s, i, l.uuid, l.rid, l.now);
    AdvancePushed(s, i, l.uuid, l.rid, l.now);
    hide AdvanceStep, Next, CallOk, Fresh, CallsOk, ItemsOf, Owned, Generated;
    AdvanceKeepsOwners(s, s', i, e);
    if !s'.collided { AdvanceKeepsItems(s, l); }
  }

  lemma ItemsOfSame(s: State, s': State, c: Call)
    requires ItemsOf(s, c) && s'.pushed == s.pushed
    ensures ItemsOf(s', c)
  {
  }

  lemma {:induction false} AdvanceOthersItems(s: State, i: nat, uuid: string, rid: string, now: string, other: Call)
    requires Sane(s) && i < |s.calls| && ItemsOf(s, other) && other.wid != "" && other.wid != s.calls[i].wid
    ensures ItemsOf(AdvanceStep(s, i, uuid, rid, now).rest, other)
  {
    assert InLoop(s.calls[i]);
    hide ItemsOf, InLoop;
    if s.calls[i].phase.Push? {
      PushOthers(s, s.calls[i], other);
      hide PushStep;
    } else {
      AdvanceQuiet(s, i, uuid, rid, now);
      hide AdvanceStep;
      ItemsOfSame(s, AdvanceStep(s, i, uuid, rid, now).rest, other);
    }
  }

  lemma PushOwner(s: State, s': State, i: nat, e: Effect)
    requires Sane(s) && CallsOk(s) && Fresh(s) && i < |s.calls| && s.calls[i].phase.Push?
    requires s' == e.rest.(calls := s.calls[i := e.call]) && s.minted <= s'.minted
    requires s.calls[i].wid != "" ==> e.call.wid == s.calls[i].wid
    ensures Owned(s', s.calls[i].wid)
  {
    assert CallOk(s.calls[i]) && Minted(s, s.calls[i]);
    assert s'.calls[i].wid == s.calls[i].wid;
  }

  lemma {:induction false} NextKeepsOrdered(s: State, l: Label)
    requires Sane(s) && CallsOk(s) && Fresh(s) && Ordered(s)
    ensures Ordered(Next(s, l))
  {
    if l.Advance? && l.call < |s.calls| {
      AdvanceKeepsOrdered(s, l);
    } else {
      var s' := Next(s, l);
      OthersPush(s, l);
      hide Next, ItemsOf, Owned, CallsOk, Fresh;
      forall q, k | 0 <= k < |At(s'.pushed, q)| ensures Owned(s', At(s'.pushed, q)[k].workflowInstanceId) {
        OwnedMonotone(s, s', At(s.pushed, q)[k].workflowInstanceId);
      }
      forall i | 0 <= i < |s'.calls| && s'.calls[i].wid != "" && !s'.collided ensures ItemsOf(s', s'.calls[i]) {
        ItemsOfSame(s, s', s.calls[i]);
      }
    }
  }

  /** Only a call pushes, generates an id, or moves a call. */
  lemma OthersPush(s: State, l: Label)
    requires Sane(s) && !(l.Advance? && l.call < |s.calls|)
    ensures var s' := Next(s, l);
      && s'.pushed == s.pushed && s'.minted == s.minted && s'.collided == s.collided
      && |s.calls| <= |s'.calls| && (forall i :: 0 <= i < |s.calls| ==> s'.calls[i] == s.calls[i])
      && forall i :: |s.calls| <= i < |s'.calls| ==> s'.calls[i].wid == ""
  {
    hide AdvanceStep, PresetIds, RPop, WorkflowKey;
  }
}
