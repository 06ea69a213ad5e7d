/** Instance records, and the invariant of every reachable state. */
module RouterReachable {
  import opened Prelude
  import opened WorkerSelection
  import opened RouterModel
  import opened RouterCalls
  import opened RouterInvariants
  import opened RouterRecords
  import opened RouterHashes

  // ----- Instance records -----

  ghost predicate RecordOk(s: State, c: Call) {
    && (c.wid in s.store <==> c.phase.Done?)
    && (c.phase.Done? ==> s.store[c.wid] == Hash(InstanceFields(c)))
  }

  ghost predicate Records(s: State) {
    !s.stray && !s.collided ==> forall i :: 0 <= i < |s.calls| && s.calls[i].wid != "" ==> RecordOk(s, s.calls[i])
  }

  ghost predicate Inv(s: State) {
    && Sane(s) && CallsOk(s) && Fifo(s) && Installed(s) && Fresh(s) && Ordered(s)
    && (!s.stray ==> Hashes(s))
    && Records(s)
  }

  lemma InvCall(s: State, i: nat)
    requires Inv(s) && i < |s.calls|
    ensures InLoop(s.calls[i]) && CallOk(s.calls[i])
  {
    hide CallOk, InLoop, Fifo, Installed, Fresh, Ordered, Hashes, Records;
  }

  ghost predicate SameAt(a: Store, b: Store, k: string) {
    (k in a <==> k in b) && (k in a ==> a[k] == b[k])
  }

  /** A definition, or the record of another instance. */
  predicate Foreign(c: Call, k: string) {
    NamespaceOf(k) == Definitions || (NamespaceOf(k) == Instances && k != c.wid)
  }

  lemma SaveStepLeavesKey(s: State, i: nat, k: string)
    requires Inv(s) && i < |s.calls| && !s.stray && s.calls[i].phase.SaveStep? && NamespaceOf(k) != Steps
    ensures SameAt(s.store, SaveStepStep(s, i, s.calls[i]).rest.store, k)
  {
    hide Fifo, Installed, Fresh, Ordered, Hashes, Records, CallOk, NamespaceOf, StepFields;
    assert CallOk(s.calls[i]);
    SaveStepWritesHash(s, i);
    hide SaveStepStep;
  }

  lemma PushLeavesKey(s: State, c: Call, k: string)
    requires c.phase.Push? && InLoop(c) && NamespaceOf(k) != Queues
    ensures SameAt(s.store, PushStep(s, c).rest.store, k)
  {
    KeyNamespaces(Select(c.seen[c.pos]).instanceId);
    var queue, item := Route(c.seen[c.pos]).value, Item(c.wid, c.steps[c.pos].id);
    if LPush(s.store, queue, item).Some? { LPushLeavesKey(s.store, queue, item, k); }
    hide NamespaceOf, QueueKey, Select, LPush, SameAt, At;
  }

  lemma LPushLeavesKey(store: Store, queue: string, item: Item, k: string)
    requires LPush(store, queue, item).Some? && k != queue
    ensures SameAt(store, LPush(store, queue, item).value, k)
  {
  }

  lemma HSetLeavesKey(store: Store, key: string, fields: map<string, Json>, k: string)
    requires HSet(store, key, fields).Some? && k != key
    ensures SameAt(store, HSet(store, key, fields).value, k)
  {
  }

  lemma SaveInstanceLeavesKey(s: State, c: Call, k: string)
    requires c.phase.SaveInstance? && k != c.wid
    ensures SameAt(s.store, SaveInstanceStep(s, c).rest.store, k)
  {
    if HSet(s.store, c.wid, InstanceFields(c)).Some? { HSetLeavesKey(s.store, c.wid, InstanceFields(c), k); }
    hide InstanceFields, HSet;
  }

  lemma WidIsInstance(c: Call)
    requires CallOk(c) && c.phase.SaveInstance?
    ensures NamespaceOf(c.wid) == Instances
  {
    hide NamespaceOf, InstanceData, InstanceMetadata;
  }

  /** A segment leaves the definitions and every instance record but its own alone. */
  lemma {:induction false} AdvanceLeavesKey(s: State, i: nat, uuid: string, rid: string, now: string, k: string)
    requires Inv(s) && i < |s.calls| && !s.stray && Foreign(s.calls[i], k)
    ensures SameAt(s.store, AdvanceStep(s, i, uuid, rid, now).rest.store, k)
  {
    var c := s.calls[i];
    assert Sane(s) && InLoop(c) && CallOk(c) by { hide Fifo, Installed, Fresh, Ordered, Hashes, Records, CallOk; }
    hide Inv, CallOk, InLoop, FetchStep, LookupStep, SaveStepStep, PushStep, SaveInstanceStep, NamespaceOf, Mint;
    match c.phase
    case Fetch => FetchKeepsStore(s, c, uuid, rid, now); MintKeepsStore(s, InstanceKey(uuid));
    case Lookup => LookupKeepsStore(s, c, uuid); MintKeepsStore(s, StepKey(uuid));
    case SaveStep => SaveStepLeavesKey(s, i, k);
    case Push => PushLeavesKey(s, c, k);
    case SaveInstance => WidIsInstance(c); SaveInstanceLeavesKey(s, c, k);
    case _ =>
  }

  lemma MintKeepsStore(s: State, id: string)
    ensures Mint(s, id).store == s.store
  {
  }

  lemma UnmintedNotStored(s: State, wid: string)
    requires Fifo(s) && Hashes(s) && NamespaceOf(wid) == Instances && wid !in s.minted
    ensures wid !in s.store
  {
    hide NamespaceOf;
    assert wid in s.store && s.store[wid].Hash? ==> HashKey(s, wid);
  }

  lemma FetchRecord(s: State, c: Call, uuid: string, rid: string, now: string)
    requires c.phase.Fetch? && InLoop(c) && CallOk(c) && Fifo(s) && Hashes(s)
    ensures var e := FetchStep(s, c, uuid, rid, now);
      !e.rest.collided && e.call.wid != "" ==> RecordOk(e.rest, e.call)
  {
    hide InstanceData, InstanceMetadata, InstanceFields, NamespaceOf, Fifo, Hashes;
    KeyNamespaces(uuid);
    if InstanceKey(uuid) !in s.minted { UnmintedNotStored(s, InstanceKey(uuid)); }
  }

  lemma SaveInstanceRecord(s: State, c: Call)
    requires c.phase.SaveInstance? && RecordOk(s, c)
    ensures var e := SaveInstanceStep(s, c); RecordOk(e.rest, e.call)
  {
    HSetKnown(s.store, c.wid, InstanceFields(c), map[]);
  }

  lemma {:induction false} AdvanceOwnRecord(s: State, i: nat, uuid: string, rid: string, now: string)
    requires Inv(s) && i < |s.calls| && !s.stray
    ensures var e := AdvanceStep(s, i, uuid, rid, now);
      !e.rest.collided && e.call.wid != "" ==> RecordOk(e.rest, e.call)
  {
    var c := s.calls[i];
    assert CallOk(c);
    if c.phase.Fetch? {
      FetchRecord(s, c, uuid, rid, now);
      hide FetchStep, Inv, CallOk;
    } else {
      var id := AdvanceIds(s, i, uuid, rid, now);
      if c.wid != "" && !s.collided {
        assert RecordOk(s, c);
        AdvanceStartedRecord(s, i, uuid, rid, now);
      }
      hide AdvanceStep, Inv, CallOk;
    }
  }

  lemma {:induction false} AdvanceStartedRecord(s: State, i: nat, uuid: string, rid: string, now: string)
    requires Inv(s) && i < |s.calls| && !s.stray
    requires !s.calls[i].phase.Fetch? && s.calls[i].wid != "" && RecordOk(s, s.calls[i])
    ensures var e := AdvanceStep(s, i, uuid, rid, now);
      RecordOk(e.rest, e.call)
  {
    hide LookupStep, SaveStepStep, PushStep, SaveInstanceStep, NamespaceOf, InstanceFields, StepFields;
    hide Fifo, Installed, Fresh, Ordered, Hashes, Records;
    var c := s.calls[i];
    assert CallOk(c) && NamespaceOf(c.wid) == Instances;
    hide CallOk;
    match c.phase
    case Lookup => LookupKeepsStore(s, c, uuid); LookupNotDone(s, c, uuid);
    case SaveStep => SaveStepWritesHash(s, i);
    case Push => PushLeavesKey(s, c, c.wid); PushNotDone(s, c);
    case SaveInstance => SaveInstanceRecord(s, c);
    case _ =>
  }

  lemma LookupNotDone(s: State, c: Call, uuid: string)
    requires c.phase.Lookup? && InLoop(c)
    ensures LookupStep(s, c, uuid).call.wid == c.wid && !LookupStep(s, c, uuid).call.phase.Done?
  {
    hide Traced, StepKey, WorkflowKey, DefinitionName;
  }

  lemma PushNotDone(s: State, c: Call)
    requires c.phase.Push? && InLoop(c)
    ensures PushStep(s, c).call.wid == c.wid && !PushStep(s, c).call.phase.Done?
  {
    hide QueueKey, Select;
  }

  lemma RecordFrame(s: State, s': State, c: Call)
    requires RecordOk(s, c) && SameAt(s.store, s'.store, c.wid)
    ensures RecordOk(s', c)
  {
  }

  lemma {:induction false} AdvanceKeepsRecords(s: State, l: Label)
    requires Inv(s) && l.Advance? && l.call < |s.calls| && !Next(s, l).stray && !Next(s, l).collided
    requires Fresh(Next(s, l))
    ensures Records(Next(s, l))
  {
    var s' := Next(s, l);
    var i := l.call;
    var e := AdvanceIs(s, l);
    AdvanceKeepsDocuments(s, i, l.uuid, l.rid, l.now);
    assert CallOk(s.calls[i]);
    var id := AdvanceIds(s, i, l.uuid, l.rid, l.now);
    assert !s.stray && !s.collided;
    AdvanceOwnRecord(s, i, l.uuid, l.rid, l.now);
    forall a | 0 <= a < |s'.calls| && s'.calls[a].wid != "" ensures RecordOk(s', s'.calls[a]) {
      if a == i {
        RecordFrame(e.rest, s', e.call);
      } else {
        assert RecordOk(s, s.calls[a]) && CallOk(s.calls[a]);
        assert s.calls[a].wid != s.calls[i].wid;
        AdvanceLeavesKey(s, i, l.uuid, l.rid, l.now, s.calls[a].wid);
        RecordFrame(s, s', s.calls[a]);
      }
    }
  }

  lemma InstallKeepsRecords(s: State, name: string, raw: Raw)
    requires Inv(s)
    ensures Records(InstallStep(s, name, raw))
  {
    hide NamespaceOf, PresetIds, Fifo, Installed, Fresh, Ordered, Hashes;
    var s' := InstallStep(s, name, raw);
    KeyNamespaces(name);
    forall a | 0 <= a < |s'.calls| && s'.calls[a].wid != "" && !s'.stray && !s'.collided
        ensures RecordOk(s', s'.calls[a])
      {
      assert CallOk(s.calls[a]) && RecordOk(s, s.calls[a]);
      RecordFrame(s, s', s.calls[a]);
    }
  }

  lemma PopKeepsRecords(s: State, queue: string)
    requires Inv(s)
    ensures Records(PopStep(s, queue))
  {
    hide NamespaceOf, Installed, Fresh, Ordered, Hashes, InstanceFields;
    var s' := PopStep(s, queue);
    forall a | 0 <= a < |s'.calls| && s'.calls[a].wid != "" && !s'.stray && !s'.collided
        ensures RecordOk(s', s'.calls[a])
      {
      assert CallOk(s.calls[a]) && RecordOk(s, s.calls[a]);
      RecordFrame(s, s', s.calls[a]);
    }
  }

  lemma {:induction false} NextKeepsRecords(s: State, l: Label)
    requires Inv(s) && Fresh(Next(s, l))
    ensures Records(Next(s, l))
  {
    match l
    case Install(name, raw) => InstallKeepsRecords(s, name, raw);
    case Pop(queue) => PopKeepsRecords(s, queue);
    case Start(event, payload) =>
      hide Fifo, Installed, Ordered, Hashes, CallsOk;
      var s' := Next(s, l);
      forall a | 0 <= a < |s'.calls| && s'.calls[a].wid != "" && !s'.stray && !s'.collided
        ensures RecordOk(s', s'.calls[a])
      {
        RecordFrame(s, s', s.calls[a]);
      }
    case Advance(i, _, _, _) =>
      if i < |s.calls| {
        if !Next(s, l).stray && !Next(s, l).collided { AdvanceKeepsRecords(s, l); }
      }
  }

  lemma {:induction false} NextStray(s: State, l: Label)
    requires Sane(s)
    ensures s.stray ==> Next(s, l).stray
  {
    if l.Advance? && l.call < |s.calls| {
      AdvanceKeepsDocuments(s, l.call, l.uuid, l.rid, l.now);
      hide AdvanceStep;
    }
  }

  /** Every step keeps the invariant. */
  lemma {:induction false} NextKeepsInv(s: State, l: Label)
    requires Inv(s)
    ensures Inv(Next(s, l))
  {
    hide Next, CallsOk, Fifo, Installed, Fresh, Ordered, Hashes, Records;
    NextKeepsCalls(s, l);
    NextKeepsFifo(s, l);
    NextKeepsInstalled(s, l);
    NextKeepsFresh(s, l);
    NextKeepsOrdered(s, l);
    NextStray(s, l);
    if !Next(s, l).stray { NextKeepsHashes(s, l); }
    NextKeepsRecords(s, l);
  }

  lemma {:induction false} RunKeepsInv(s: State, trace: seq<Label>)
    requires Sane(s) && Inv(s)
    ensures Inv(Run(s, trace))
  {
    hide Inv, Next;
    if trace != [] {
      RunKeepsInv(s, trace[..|trace| - 1]);
      NextKeepsInv(Run(s, trace[..|trace| - 1]), trace[|trace| - 1]);
    }
  }

  lemma {:induction false} ReachableInv(trace: seq<Label>)
    ensures Inv(Run(INITIAL, trace))
  {
    RunKeepsInv(INITIAL, trace);
  }
}
