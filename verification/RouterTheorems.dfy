/**
 * What routing guarantees under every interleaving of calls, queue pops and definition changes.
 * `!collided` says generated uuids were fresh; `!stray` says installed templates preset only ids
 * in the `step_instance:` namespace; `!reused` says no template presets an id generated before.
 */
module RouterTheorems {
  import opened Prelude
  import opened WorkerSelection
  import opened RouterModel
  import opened RouterCalls
  import opened RouterInvariants
  import opened RouterRecords
  import opened RouterHashes
  import opened RouterReachable
  import opened RouterOutcomes

  /** Nothing is lost, duplicated or reordered between a queue and the workers that pop it. */
  lemma {:induction false} QueueIsFifo(trace: seq<Label>, q: string)
    ensures var s := Run(INITIAL, trace);
      At(s.popped, q) + Reverse(Queue(s.store, q)) == At(s.pushed, q)
  {
    ReachableInv(trace);
  }

  /**
   * For each queue and each instance: the items popped, then the items left read tail to head,
   * are the routed steps of the instance's call so far, in template order.
   */
  lemma InstanceItemsInOrder(trace: seq<Label>, q: string, i: nat)
    requires var s := Run(INITIAL, trace); !s.collided && i < |s.calls| && s.calls[i].wid != ""
    ensures var s := Run(INITIAL, trace); var c := s.calls[i];
      && c.pos <= |c.steps| && c.pos <= |c.seen|
      && OfInstance(At(s.popped, q), c.wid) + OfInstance(Reverse(Queue(s.store, q)), c.wid)
         == Items(c.wid, c.steps, c.seen, c.pos, q)
  {
    ReachableInv(trace);
    var s := Run(INITIAL, trace);
    assert ItemsOf(s, s.calls[i]);
    OfInstanceSplit(At(s.popped, q), Reverse(Queue(s.store, q)), s.calls[i].wid);
  }

  /** `Items` lists exactly the steps among the first `n` whose chosen worker has this queue. */
  lemma {:induction false} ItemsAreRoutedSteps(wid: string, steps: seq<Step>, seen: seq<seq<Worker>>,
                                              n: nat, queue: string, x: Item)
    requires n <= |steps| && n <= |seen|
    ensures x in Items(wid, steps, seen, n, queue) <==>
            exists j, k: nat :: 0 <= j < n && Chosen(seen[j], k) && x == Item(wid, steps[j].id)
              && queue == "worker_instance:" + seen[j][k].instanceId + ":queue"
  {
    ItemsByRoute(wid, steps, seen, n, queue, x);
    hide Items, Route, Chosen;
    if x in Items(wid, steps, seen, n, queue) {
      var j :| 0 <= j < n && Route(seen[j]) == Some(queue) && x == Item(wid, steps[j].id);
      var k := RouteIs(seen[j]);
      assert Chosen(seen[j], k);
    }
    if j, k: nat :| 0 <= j < n && Chosen(seen[j], k) && x == Item(wid, steps[j].id)
                    && queue == "worker_instance:" + seen[j][k].instanceId + ":queue" {
      ChosenIsOne(seen[j], k);
      var k' := RouteIs(seen[j]);
      ChosenIsOne(seen[j], k');
    }
  }

  lemma ChosenIsOne(workers: seq<Worker>, k: nat)
    requires Chosen(workers, k)
    ensures workers != [] && Select(workers) == workers[k]
  {
    var k' := SelectIsChosen(workers);
  }

  lemma {:induction false} ItemsByRoute(wid: string, steps: seq<Step>, seen: seq<seq<Worker>>,
                                       n: nat, queue: string, x: Item)
    requires n <= |steps| && n <= |seen|
    ensures x in Items(wid, steps, seen, n, queue) <==>
            exists j :: 0 <= j < n && Route(seen[j]) == Some(queue) && x == Item(wid, steps[j].id)
  {
    if n > 0 { ItemsByRoute(wid, steps, seen, n - 1, queue, x); }
  }

  /**
   * Every item ever queued names a stored step hash with its three fields, and belongs to a call;
   * its instance record is stored exactly when that call has completed.
   */
  lemma {:induction false} ItemsAreReferenced(trace: seq<Label>, q: string, k: nat) returns (i: nat)
    requires var s := Run(INITIAL, trace); !s.stray && !s.collided && k < |At(s.pushed, q)|
    ensures var s := Run(INITIAL, trace); var item := At(s.pushed, q)[k];
      && item.stepInstanceId in s.store && s.store[item.stepInstanceId].Hash?
      && s.store[item.stepInstanceId].fields.Keys == {"definition", "data", "metadata"}
      && i < |s.calls| && s.calls[i].wid == item.workflowInstanceId
      && (item.workflowInstanceId in s.store <==> s.calls[i].phase.Done?)
  {
    var s := Run(INITIAL, trace);
    var item := At(s.pushed, q)[k];
    ReachableInv(trace);
    ItemHash(s, item.stepInstanceId);
    i := ItemOwner(s, q, k);
  }

  lemma ItemHash(s: State, id: string)
    requires Hashes(s) && id in s.writer
    ensures id in s.store && s.store[id].Hash? && s.store[id].fields.Keys == {"definition", "data", "metadata"}
  {
    hide NamespaceOf;
    assert WriterOk(s, id);
  }

  lemma {:induction false} ItemOwner(s: State, q: string, k: nat) returns (i: nat)
    requires Inv(s) && !s.stray && !s.collided && k < |At(s.pushed, q)|
    ensures i < |s.calls| && s.calls[i].wid == At(s.pushed, q)[k].workflowInstanceId
    ensures At(s.pushed, q)[k].workflowInstanceId in s.store <==> s.calls[i].phase.Done?
  {
    hide CallsOk, Fifo, Installed, Fresh, Hashes;
    var wid := At(s.pushed, q)[k].workflowInstanceId;
    assert Owned(s, wid);
    i :| 0 <= i < |s.calls| && s.calls[i].wid == wid && wid != "";
    assert RecordOk(s, s.calls[i]);
  }

  /**
   * A completed call kept the installed template's length, order and per-step definition and
   * metadata, gave every step an id, and noted a worker of an installed definition on exactly the
   * steps that found one.
   */
  lemma {:induction false} CompletedSteps(trace: seq<Label>, i: nat)
    requires var s := Run(INITIAL, trace); i < |s.calls| && s.calls[i].phase.Done?
    ensures var s := Run(INITIAL, trace); var c := s.calls[i];
      && ("workflow:" + c.event, Parsed(c.template)) in s.installed
      && c.template.steps.Some? && |c.steps| == |c.template.steps.value| == |c.seen| == c.pos
      && forall j :: 0 <= j < |c.steps| ==>
           var t, x := c.template.steps.value[j], c.steps[j];
           && x.definition == t.definition && x.metadata == t.metadata && x.id != ""
           && (t.id != "" ==> x.id == t.id) && x.definition.Some?
           && x.data == Traced(t.data, c.seen[j])
           && (c.seen[j] != [] ==> Listed(s, x.definition.value, c.seen[j]))
  {
    ReachableInv(trace);
    var s := Run(INITIAL, trace);
    assert CallOk(s.calls[i]) && Reads(s, s.calls[i]);
    hide NamespaceOf, InstanceData, InstanceMetadata, Traced, Listed, Fifo, Installed, Fresh, Ordered, Hashes, Records;
    forall j | 0 <= j < |s.calls[i].steps|
      ensures Handled(s.calls[i].template.steps.value[j], s.calls[i].steps[j], s.calls[i].seen[j]) {}
  }

  /** The worker list under a step's definition key: empty without a definition or without workers. */
  function WorkersAt(store: Store, d: StepDef): seq<Worker> {
    var key := WorkflowKey(DefinitionName(d));
    if key in store && store[key].Text? && store[key].raw.Parsed? then store[key].raw.doc.workers else []
  }

  /**
   * The worker list a step was routed by is exactly what was stored, at the moment the call looked
   * it up, under the first given of the three names of its definition; a step is skipped iff there
   * was no worker to find then. A step without an id got its own with that lookup.
   */
  lemma {:induction false} SeenWasStored(trace: seq<Label>, i: nat, j: nat) returns (k: nat)
    requires var s := Run(INITIAL, trace); i < |s.calls| && j < |s.calls[i].seen|
    ensures k < |trace| && trace[k].Advance? && trace[k].call == i
    ensures var c, was := Run(INITIAL, trace).calls[i], Run(INITIAL, trace[..k]);
      && i < |was.calls| && was.calls[i].phase.Lookup? && was.calls[i].pos == j
      && c.template.steps.Some? && j < |c.template.steps.value| == |c.steps| && c.steps[j].definition.Some?
      && var d, preset := c.steps[j].definition.value, c.template.steps.value[j].id;
      && var key := if d.workflowKey != "" then "workflow:" + d.workflowKey
                    else if d.kind != "" then "workflow:" + d.kind
                    else if d.cls.Some? then "workflow:" + d.cls.value
                    else "workflow:undefined";
      && c.seen[j] == (if key in was.store && was.store[key].Text? && was.store[key].raw.Parsed?
                       then was.store[key].raw.doc.workers else [])
      && c.steps[j].id == (if preset != "" then preset else "step_instance:" + trace[k].uuid)
  {
    k := SeenWas(trace, i, j);
    var c := Run(INITIAL, trace).calls[i];
    ReachableInv(trace);
    InvCall(Run(INITIAL, trace), i);
    HandledStep(c, j);
    SameLength(c, j);
    DefinitionKeyIs(c.steps[j].definition.value);
    hide Run, Inv, CallOk, InLoop, DefinitionName;
  }

  lemma SameLength(c: Call, j: nat)
    requires CallOk(c) && j < |c.seen|
    ensures c.template.steps.Some? && |c.steps| == |c.template.steps.value|
  {
    hide NamespaceOf, InstanceData, InstanceMetadata, Handled;
  }

  lemma {:induction false} SeenWas(trace: seq<Label>, i: nat, j: nat) returns (k: nat)
    requires var s := Run(INITIAL, trace); i < |s.calls| && j < |s.calls[i].seen|
    ensures k < |trace| && trace[k].Advance? && trace[k].call == i
    ensures var c, was := Run(INITIAL, trace).calls[i], Run(INITIAL, trace[..k]);
      && i < |was.calls| && was.calls[i].phase.Lookup? && was.calls[i].pos == j
      && j < |c.steps| && c.steps[j].definition.Some?
      && c.seen[j] == WorkersAt(was.store, c.steps[j].definition.value)
      && was.calls[i].template == c.template && NewId(c, j, trace[k].uuid, c.steps[j].id)
  {
    hide Next, Inv, NewId;
    if trace == [] {
      assert false;
    }
    var init, l := trace[..|trace| - 1], trace[|trace| - 1];
    var s := Run(INITIAL, init);
    ReachableInv(init);
    hide WorkersAt;
    if i < |s.calls| && j < |s.calls[i].seen| {
      k := SeenWas(init, i, j);
      assert init[..k] == trace[..k];
      SeenStays(s, l, i, j);
      InvCall(s, i);
      SeenHasWid(s.calls[i]);
      IdentityStays(s, l, i);
      hide CallOk, InLoop;
      SameId(s.calls[i], Run(INITIAL, trace).calls[i], j, trace[k].uuid);
    } else {
      k := |trace| - 1;
      SeenNow(s, l, i, j);
      IdNow(s, l, i);
    }
  }

  lemma SameId(c: Call, c': Call, j: nat, uuid: string)
    requires c'.template == c.template && j < |c.steps| && j < |c'.steps| && c'.steps[j] == c.steps[j]
    requires NewId(c, j, uuid, c.steps[j].id)
    ensures NewId(c', j, uuid, c'.steps[j].id)
  {
  }

  /** What identifies a running instance never changes. */
  predicate SameIdentity(c: Call, c': Call) {
    && c'.event == c.event && c'.payload == c.payload && c'.wid == c.wid && c'.rid == c.rid
    && c'.startTime == c.startTime && c'.template == c.template
  }

  lemma {:induction false} IdentityStays(s: State, l: Label, i: nat)
    requires Sane(s) && i < |s.calls| && CallOk(s.calls[i]) && s.calls[i].wid != ""
    ensures i < |Next(s, l).calls| && SameIdentity(s.calls[i], Next(s, l).calls[i])
  {
    if l.Advance? && l.call == i {
      assert InLoop(s.calls[i]) && !s.calls[i].phase.Fetch? by { hide Started, NamespaceOf; assert Started(s.calls[i]); }
      if s.calls[i].phase.Lookup? {
        LookupOutcome(s, i, l.uuid, l.rid, l.now);
        LookupEvent(s, s.calls[i], l.uuid);
        var e := AdvanceIs(s, l);
        hide Next, LookupStep, CallOk, OnlyCall, InLoop;
      } else {
        AdvanceWrites(s, i, l.uuid, l.rid, l.now);
        var e := AdvanceIs(s, l);
        hide Next, AdvanceStep, CallOk, InLoop;
      }
    } else {
      NextLeavesCall(s, l, i);
      hide Next, CallOk;
    }
  }

  lemma LookupEvent(s: State, c: Call, uuid: string)
    requires c.phase.Lookup? && InLoop(c)
    ensures LookupStep(s, c, uuid).call.event == c.event && LookupStep(s, c, uuid).call.payload == c.payload
  {
    hide Traced, StepKey, WorkflowKey, DefinitionName, Get, Mint;
  }

  /** The step looked up by this label has its own id from now on. */
  lemma IdNow(s: State, l: Label, i: nat)
    requires Inv(s) && l.Advance? && l.call == i && i < |s.calls| && s.calls[i].phase.Lookup?
    ensures var c, c' := s.calls[i], Next(s, l).calls[i];
      c'.template == c.template && c.pos < |c'.steps| && NewId(c', c.pos, l.uuid, c'.steps[c.pos].id)
  {
    InvCall(s, i);
    LookupOutcome(s, i, l.uuid, l.rid, l.now);
    LookupHasWid(s.calls[i]);
    RawStep(s.calls[i]);
    hide Next, Inv, CallOk, OnlyCall, InLoop;
  }

  lemma RawStep(c: Call)
    requires CallOk(c) && c.wid != "" && c.phase.Lookup? && InLoop(c)
    ensures c.template.steps.Some? && c.pos < |c.template.steps.value|
    ensures c.steps[c.pos].id == c.template.steps.value[c.pos].id
  {
    hide NamespaceOf, InstanceData, InstanceMetadata, Handled;
  }

  /** The id that step `j` of a call at that step gets. */
  predicate NewId(c: Call, j: nat, uuid: string, id: string) {
    c.template.steps.Some? && j < |c.template.steps.value| &&
    id == (if c.template.steps.value[j].id != "" then c.template.steps.value[j].id else "step_instance:" + uuid)
  }

  lemma {:induction false} SeenStays(s: State, l: Label, i: nat, j: nat)
    requires Inv(s) && i < |s.calls| && j < |s.calls[i].seen| && j < |s.calls[i].steps|
    ensures var s' := Next(s, l);
      && i < |s'.calls| && j < |s'.calls[i].seen| && j < |s'.calls[i].steps|
      && s'.calls[i].steps[j] == s.calls[i].steps[j] && s'.calls[i].seen[j] == s.calls[i].seen[j]
  {
    InvCall(s, i);
    hide Inv, CallOk, Next, InLoop;
    if l.Advance? && l.call == i {
      OwnSeenStays(s, l, j);
    } else {
      NextLeavesCall(s, l, i);
    }
  }

  lemma {:induction false} OwnSeenStays(s: State, l: Label, j: nat)
    requires Sane(s) && l.Advance? && l.call < |s.calls| && CallOk(s.calls[l.call])
    requires j < |s.calls[l.call].seen| && j < |s.calls[l.call].steps|
    ensures var c, c' := s.calls[l.call], Next(s, l).calls[l.call];
      && j < |c'.seen| && j < |c'.steps| && c'.steps[j] == c.steps[j] && c'.seen[j] == c.seen[j]
  {
    SeenHasWid(s.calls[l.call]);
    AdvanceExtends(s, l.call, l.uuid, l.rid, l.now);
    var e := AdvanceIs(s, l);
    hide AdvanceStep, Next, CallOk, NoNewWrite;
  }

  lemma SeenHasWid(c: Call)
    requires CallOk(c)
    ensures c.seen != [] ==> c.wid != ""
  {
    hide NamespaceOf, Started;
  }

  /** A new entry in `seen` is the lookup of the step at hand. */
  lemma {:induction false} SeenNow(s: State, l: Label, i: nat, j: nat)
    requires Inv(s) && i < |Next(s, l).calls| && j < |Next(s, l).calls[i].seen|
    requires i < |s.calls| ==> j >= |s.calls[i].seen|
    ensures l.Advance? && l.call == i && i < |s.calls| && s.calls[i].phase.Lookup? && s.calls[i].pos == j
    ensures var c' := Next(s, l).calls[i];
      j < |c'.steps| && c'.steps[j].definition.Some? && c'.seen[j] == WorkersAt(s.store, c'.steps[j].definition.value)
  {
    hide FetchStep, LookupStep, InstallStep, PopStep, NamespaceOf, Fifo, Installed, Fresh, Ordered, Hashes, Records;
    if i >= |s.calls| { NewCallsAreNew(s, l, i); }
    if i < |s.calls| && !(l.Advance? && l.call == i) { NextLeavesCall(s, l, i); }
    hide CallOk;
    if l.Advance? && l.call == i && i < |s.calls| {
      var c := s.calls[i];
      if c.phase.Fetch? {
        FetchKeepsSeen(s, c, l.uuid, l.rid, l.now);
      } else if c.phase.Lookup? {
        LookupReadsStore(s, c, l.uuid);
      } else {
        AdvanceWrites(s, i, l.uuid, l.rid, l.now);
      }
    }
  }

  lemma FetchKeepsSeen(s: State, c: Call, uuid: string, rid: string, now: string)
    requires c.phase.Fetch? && InLoop(c)
    ensures FetchStep(s, c, uuid, rid, now).call.seen == c.seen
  {
    hide InstanceData, InstanceMetadata;
  }

  lemma LookupReadsStore(s: State, c: Call, uuid: string)
    requires c.phase.Lookup? && InLoop(c)
    ensures var c' := LookupStep(s, c, uuid).call;
      c'.seen == c.seen ||
      (c.pos < |c'.steps| && c'.steps[c.pos].definition.Some? &&
       c'.seen == c.seen + [WorkersAt(s.store, c'.steps[c.pos].definition.value)])
  {
    hide Traced, StepKey, WorkflowKey, DefinitionName, Mint;
    if c.steps[c.pos].definition.Some? {
      GetWorkers(s.store, c.steps[c.pos].definition.value);
      hide Get, WorkersAt;
    }
  }

  lemma GetWorkers(store: Store, d: StepDef)
    ensures match Get(store, WorkflowKey(DefinitionName(d)))
      case Some(Parsed(doc)) => WorkersAt(store, d) == doc.workers
      case _ => WorkersAt(store, d) == []
  {
    hide WorkflowKey, DefinitionName;
  }

  /**
   * An instance is what the call's start and one later segment made it: its event and payload are
   * those the call was started with; its template is what was then stored under the event's key; its
   * ids and its start time are the uuids and the time supplied to that segment.
   */
  lemma {:induction false} InstantiatedFrom(trace: seq<Label>, i: nat) returns (m: nat, k: nat)
    requires var s := Run(INITIAL, trace); i < |s.calls| && s.calls[i].wid != ""
    ensures m < k < |trace| && trace[k].Advance? && trace[k].call == i
    ensures |Run(INITIAL, trace[..m]).calls| == i
    ensures var c, was := Run(INITIAL, trace).calls[i], Run(INITIAL, trace[..k]);
      && trace[m] == Start(c.event, c.payload) && i < |was.calls| && was.calls[i].phase.Fetch?
      && var key := "workflow:" + c.event;
      && key in was.store && was.store[key] == Text(Parsed(c.template))
      && c.wid == "workflow_instance:" + trace[k].uuid && c.rid == "req-" + trace[k].rid && c.startTime == trace[k].now
  {
    hide Next, Inv, SameIdentity;
    var init, l := trace[..|trace| - 1], trace[|trace| - 1];
    var s := Run(INITIAL, init);
    ReachableInv(init);
    if i < |s.calls| && s.calls[i].wid != "" {
      m, k := InstantiatedFrom(init, i);
      InvCall(s, i);
      IdentityStays(s, l, i);
      assert init[..k] == trace[..k] && init[..m] == trace[..m];
      assert SameIdentity(s.calls[i], Run(INITIAL, trace).calls[i]);
      SameOrigin(s.calls[i], Run(INITIAL, trace).calls[i]);
    } else {
      k := |trace| - 1;
      InstantiatedNow(s, l, i);
      m := StartedBy(init, i);
      assert init[..m] == trace[..m];
    }
  }

  lemma SameOrigin(c: Call, c': Call)
    requires SameIdentity(c, c')
    ensures c'.event == c.event && c'.payload == c.payload && c'.wid == c.wid && c'.rid == c.rid
    ensures c'.startTime == c.startTime && c'.template == c.template
  {
  }

  lemma {:induction false} InstantiatedNow(s: State, l: Label, i: nat)
    requires Inv(s) && i < |Next(s, l).calls| && Next(s, l).calls[i].wid != "" && (i < |s.calls| ==> s.calls[i].wid == "")
    ensures l.Advance? && l.call == i && i < |s.calls| && s.calls[i].phase.Fetch?
    ensures var c, c' := s.calls[i], Next(s, l).calls[i]; var key := "workflow:" + c.event;
      && c'.event == c.event && c'.payload == c.payload
      && key in s.store && s.store[key] == Text(Parsed(c'.template))
      && c'.wid == "workflow_instance:" + l.uuid && c'.rid == "req-" + l.rid && c'.startTime == l.now
  {
    if i >= |s.calls| { NewCallsAreNew(s, l, i); }
    else if !(l.Advance? && l.call == i) { NextLeavesCall(s, l, i); }
    else {
      InvCall(s, i);
      StillFetching(s, l, i);
      FetchOutcome(s, i, l.uuid, l.rid, l.now);
    }
    hide Next, Inv, CallOk, OnlyCall;
  }

  lemma StillFetching(s: State, l: Label, i: nat)
    requires Sane(s) && i < |s.calls| && CallOk(s.calls[i]) && s.calls[i].wid == ""
    requires l.Advance? && l.call == i && Next(s, l).calls[i].wid != ""
    ensures s.calls[i].phase.Fetch?
  {
    hide FetchStep, LookupStep, SaveStepStep, PushStep, SaveInstanceStep, Started, NamespaceOf;
  }

  /** The `i`th call was started with its event and payload. */
  lemma {:induction false} StartedBy(trace: seq<Label>, i: nat) returns (m: nat)
    requires i < |Run(INITIAL, trace).calls|
    ensures var c := Run(INITIAL, trace).calls[i];
      m < |trace| && trace[m] == Start(c.event, c.payload) && |Run(INITIAL, trace[..m]).calls| == i
  {
    hide Next;
    var init, l := trace[..|trace| - 1], trace[|trace| - 1];
    var s := Run(INITIAL, init);
    OriginStays(s, l, i);
    if i < |s.calls| {
      m := StartedBy(init, i);
      assert init[..m] == trace[..m];
    } else {
      m := |trace| - 1;
    }
  }

  lemma {:induction false} OriginStays(s: State, l: Label, i: nat)
    requires Sane(s) && i < |Next(s, l).calls|
    ensures var c' := Next(s, l).calls[i];
      if i < |s.calls| then c'.event == s.calls[i].event && c'.payload == s.calls[i].payload
      else i == |s.calls| && l == Start(c'.event, c'.payload)
  {
    if i < |s.calls| && l.Advance? && l.call == i {
      var e := AdvanceIs(s, l);
      OriginKept(s, i, l.uuid, l.rid, l.now);
      hide AdvanceStep, Next;
    } else {
      hide AdvanceStep, PresetIds, RPop;
    }
  }

  lemma {:induction false} OriginKept(s: State, i: nat, uuid: string, rid: string, now: string)
    requires Sane(s) && i < |s.calls|
    ensures var c' := AdvanceStep(s, i, uuid, rid, now).call;
      c'.event == s.calls[i].event && c'.payload == s.calls[i].payload
  {
    var c := s.calls[i];
    assert InLoop(c);
    if c.phase.Fetch? {
      hide InstanceData, InstanceMetadata, InstanceKey, WorkflowKey, LookupStep, SaveStepStep, PushStep, SaveInstanceStep;
    } else if c.phase.Lookup? {
      LookupEvent(s, c, uuid);
      hide LookupStep;
    } else {
      AdvanceWrites(s, i, uuid, rid, now);
      hide AdvanceStep;
    }
  }

  /** The stored record of a completed call is its final template, and all routed steps were pushed. */
  lemma CompletedRecord(trace: seq<Label>, i: nat, q: string)
    requires var s := Run(INITIAL, trace); !s.stray && !s.collided && i < |s.calls| && s.calls[i].phase.Done?
    ensures var s := Run(INITIAL, trace); var c := s.calls[i];
      && c.template.steps.Some? && |c.seen| == |c.steps|
      && c.wid in s.store && s.store[c.wid] == Hash(map[
           "definition" := WorkflowDefinition(c.steps, c.template.hooks),
           "data" := Fields(InstanceData(c.template, c.payload, c.wid, c.rid)),
           "metadata" := Fields(InstanceMetadata(c.template, c.startTime))])
      && OfInstance(At(s.pushed, q), c.wid) == Items(c.wid, c.steps, c.seen, |c.steps|, q)
  {
    ReachableInv(trace);
    var s := Run(INITIAL, trace);
    assert CallOk(s.calls[i]) && RecordOk(s, s.calls[i]) && ItemsOf(s, s.calls[i]);
    hide NamespaceOf, InstanceData, InstanceMetadata, Fifo, Installed, Fresh, Ordered, Hashes;
  }

  /** The instance's own fields are this call's; every other field of data and metadata is the template's. */
  lemma {:induction false} RecordContents(trace: seq<Label>, i: nat, k: string)
    requires var s := Run(INITIAL, trace); i < |s.calls| && s.calls[i].wid != ""
    ensures var c := Run(INITIAL, trace).calls[i];
      && {"payload", "workflow_instance_id", "request_id"} <= c.data.Keys
      && c.data["payload"] == c.payload && c.data["workflow_instance_id"] == c.wid && c.data["request_id"] == c.rid
      && {"start_time", "end_time", "status", "current_step"} <= c.metadata.Keys
      && c.metadata["start_time"] == c.startTime && c.metadata["end_time"] == "" && c.metadata["status"] == "pending"
      && (k !in {"payload", "workflow_instance_id", "request_id"} ==>
            (k in c.data <==> k in c.template.data) && (k in c.data ==> c.data[k] == c.template.data[k]))
      && (k !in {"start_time", "end_time", "status", "current_step"} ==>
            (k in c.metadata <==> k in c.template.metadata) && (k in c.metadata ==> c.metadata[k] == c.template.metadata[k]))
  {
    ReachableInv(trace);
    var c := Run(INITIAL, trace).calls[i];
    assert CallOk(c);
    hide Inv, NamespaceOf, CallOk, Run;
    InstanceDataIs(c.template, c.payload, c.wid, c.rid, k);
    InstanceMetadataIs(c.template, c.startTime, k);
  }

  lemma {:induction false} InstanceDataIs(template: Doc, payload: string, wid: string, rid: string, k: string)
    ensures var d := InstanceData(template, payload, wid, rid);
      && {"payload", "workflow_instance_id", "request_id"} <= d.Keys
      && d["payload"] == payload && d["workflow_instance_id"] == wid && d["request_id"] == rid
      && (k !in {"payload", "workflow_instance_id", "request_id"} ==>
            (k in d <==> k in template.data) && (k in d ==> d[k] == template.data[k]))
  {
  }

  lemma {:induction false} InstanceMetadataIs(template: Doc, startTime: string, k: string)
    requires template.steps.Some?
    ensures var d := InstanceMetadata(template, startTime);
      && {"start_time", "end_time", "status", "current_step"} <= d.Keys
      && d["start_time"] == startTime && d["end_time"] == "" && d["status"] == "pending"
      && (k !in {"start_time", "end_time", "status", "current_step"} ==>
            (k in d <==> k in template.metadata) && (k in d ==> d[k] == template.metadata[k]))
  {
  }

  /** A routed step carries the one chosen worker of the list it found, a skipped step nothing new. */
  lemma {:induction false} RoutedStepData(trace: seq<Label>, i: nat, j: nat, key: string) returns (k: nat)
    requires var s := Run(INITIAL, trace); i < |s.calls| && j < |s.calls[i].seen|
    ensures var c := Run(INITIAL, trace).calls[i];
      && c.template.steps.Some? && j < |c.steps| && j < |c.template.steps.value|
      && (c.seen[j] == [] ==> c.steps[j].data == c.template.steps.value[j].data)
      && (c.seen[j] != [] ==>
            && Chosen(c.seen[j], k) && {"worker_instance_id", "worker_id"} <= c.steps[j].data.Keys
            && c.steps[j].data["worker_instance_id"] == c.seen[j][k].instanceId
            && c.steps[j].data["worker_id"] == c.seen[j][k].workerId)
      && (key !in {"worker_instance_id", "worker_id"} ==>
            && (key in c.steps[j].data <==> key in c.template.steps.value[j].data)
            && (key in c.steps[j].data ==> c.steps[j].data[key] == c.template.steps.value[j].data[key]))
  {
    ReachableInv(trace);
    var c := Run(INITIAL, trace).calls[i];
    HandledStep(c, j);
    hide Inv, CallOk, Run;
    k := TracedIs(c.template.steps.value[j].data, c.seen[j], key);
    hide Chosen, Traced;
  }

  lemma TracedIs(data: map<string, string>, seen: seq<Worker>, key: string) returns (k: nat)
    ensures var d := Traced(data, seen);
      && (seen == [] ==> d == data)
      && (seen != [] ==>
            && Chosen(seen, k) && {"worker_instance_id", "worker_id"} <= d.Keys
            && d["worker_instance_id"] == seen[k].instanceId && d["worker_id"] == seen[k].workerId)
      && (key !in {"worker_instance_id", "worker_id"} ==>
            (key in d <==> key in data) && (key in d ==> d[key] == data[key]))
  {
    k := 0;
    if seen != [] { k := SelectIsChosen(seen); }
    hide Chosen, Select;
  }

  lemma {:induction false} HandledStep(c: Call, j: nat)
    requires CallOk(c) && j < |c.seen|
    ensures c.template.steps.Some? && j < |c.steps| && j < |c.template.steps.value|
    ensures Handled(c.template.steps.value[j], c.steps[j], c.seen[j])
  {
    hide NamespaceOf, InstanceData, InstanceMetadata, Traced;
  }

  /**
   * The hash of a step that was written, by whatever call, is the one written by the last writer
   * of its id: a step of some call, with that id and that step's definition, data and metadata.
   */
  lemma {:induction false} HashIsLastWriters(trace: seq<Label>, i: nat, j: nat)
    requires var s := Run(INITIAL, trace); !s.stray && i < |s.calls| && WrittenStep(s.calls[i], j)
    ensures var s := Run(INITIAL, trace); var id := s.calls[i].steps[j].id;
      && id in s.writer && id in s.store && var (i', j') := s.writer[id];
      && i' < |s.calls| && j' < |s.calls[i'].seen| && j' < |s.calls[i'].steps| && s.calls[i'].seen[j'] != []
      && var x := s.calls[i'].steps[j'];
      && x.id == id && x.definition.Some?
      && s.store[id] == Hash(map["definition" := StepDefinition(x.definition.value), "data" := Fields(x.data),
                                 "metadata" := Blob(x.metadata)])
  {
    ReachableInv(trace);
    var s := Run(INITIAL, trace);
    assert Recorded(s, s.calls[i]);
    hide NamespaceOf, CallsOk, Fifo, Installed, Fresh, Ordered, Records;
    assert WriterOk(s, s.calls[i].steps[j].id);
  }

  /**
   * For steps whose id was generated, and is not preset by a later template, the last writer is the
   * call itself: no concurrent call separates the record from the hash, and the hash names the
   * queue that was pushed to.
   */
  lemma {:induction false} GeneratedStepsAgree(trace: seq<Label>, i: nat, j: nat)
    requires var s := Run(INITIAL, trace);
      && !s.stray && !s.collided && !s.reused && i < |s.calls| && s.calls[i].phase.Done?
      && j < |s.calls[i].seen| && s.calls[i].seen[j] != [] && Generated(s.calls[i], j)
    ensures var s := Run(INITIAL, trace); var c := s.calls[i]; var x := c.steps[j];
      && x.definition.Some? && x.id in s.store
      && s.store[x.id] == Hash(map["definition" := StepDefinition(x.definition.value), "data" := Fields(x.data),
                                   "metadata" := Blob(x.metadata)])
      && "worker_instance_id" in x.data
      && Item(c.wid, x.id) in At(s.pushed, "worker_instance:" + x.data["worker_instance_id"] + ":queue")
  {
    ReachableInv(trace);
    var s := Run(INITIAL, trace);
    var c := s.calls[i];
    OnlyWriter(s, i, j);
    assert WriterOk(s, c.steps[j].id);
    assert CallOk(c) && ItemsOf(s, c);
    hide Inv, StepFields, NamespaceOf;
    RoutedStep(c, j);
    RoutedItemPushed(s, c, j);
  }

  lemma RoutedStep(c: Call, j: nat)
    requires CallOk(c) && j < |c.seen| && c.seen[j] != []
    ensures j < |c.steps| && "worker_instance_id" in c.steps[j].data
    ensures c.steps[j].data["worker_instance_id"] == Select(c.seen[j]).instanceId
  {
    hide NamespaceOf, InstanceData, InstanceMetadata, Select;
    assert Handled(c.template.steps.value[j], c.steps[j], c.seen[j]);
  }

  lemma RoutedItemPushed(s: State, c: Call, j: nat)
    requires ItemsOf(s, c) && j < c.pos && c.seen[j] != []
    ensures Item(c.wid, c.steps[j].id) in At(s.pushed, QueueKey(Select(c.seen[j]).instanceId))
  {
    var q := QueueKey(Select(c.seen[j]).instanceId);
    hide QueueKey, Select;
    var x := Item(c.wid, c.steps[j].id);
    ItemsByRoute(c.wid, c.steps, c.seen, c.pos, q, x);
    assert x in OfInstance(At(s.pushed, q), c.wid);
    OfInstanceSubset(At(s.pushed, q), c.wid);
  }

  lemma {:induction false} OfInstanceSubset(items: seq<Item>, wid: string)
    ensures forall x :: x in OfInstance(items, wid) ==> x in items
  {
    if items != [] { OfInstanceSubset(items[..|items| - 1], wid); }
  }

  /** A generated id is carried by one step of one call. */
  lemma {:induction false} OnlyWriter(s: State, i: nat, j: nat)
    requires Inv(s) && !s.stray && !s.collided && !s.reused && i < |s.calls| && s.calls[i].phase.Done?
    requires j < |s.calls[i].seen| && s.calls[i].seen[j] != [] && Generated(s.calls[i], j)
    ensures s.calls[i].steps[j].id in s.writer && s.writer[s.calls[i].steps[j].id] == (i, j)
  {
    var c := s.calls[i];
    assert CallOk(c) && Recorded(s, c) && WrittenStep(c, j);
    assert WriterOk(s, c.steps[j].id);
    var (i', j') := s.writer[c.steps[j].id];
    var c' := s.calls[i'];
    assert CallOk(c') && Reads(s, c') && Minted(s, c);
    hide NamespaceOf, InstanceData, InstanceMetadata, StepFields, Fifo, Ordered, Hashes, Records;
    assert Handled(c'.template.steps.value[j'], c'.steps[j'], c'.seen[j']);
    if c'.template.steps.value[j'].id == "" {
      assert Generated(c', j') && DistinctSteps(c, c', i == i');
    } else {
      PresetIdIsKnown(s, c', j');
    }
  }

  lemma PresetIdIsKnown(s: State, c: Call, j: nat)
    requires CallOk(c) && Reads(s, c) && c.wid != "" && j < |c.seen| && c.template.steps.value[j].id != ""
    requires forall p :: p in s.installed ==> PresetIds(p.1) <= s.presets
    ensures c.steps[j].id in s.presets
  {
    hide NamespaceOf, InstanceData, InstanceMetadata;
    assert Handled(c.template.steps.value[j], c.steps[j], c.seen[j]);
    assert c.steps[j].id in PresetIds(Parsed(c.template));
    assert PresetIds((WorkflowKey(c.event), Parsed(c.template)).1) <= s.presets;
  }

  /** Every key keeps the one value type of its namespace, and no call fails on a wrong type. */
  lemma {:induction false} KeysKeepTheirType(trace: seq<Label>)
    requires !Run(INITIAL, trace).stray
    ensures var s := Run(INITIAL, trace);
      && (forall k :: k in s.store ==> match NamespaceOf(k)
            case Definitions => s.store[k].Text?
            case Instances => s.store[k].Hash?
            case Steps => s.store[k].Hash?
            case Queues => s.store[k].List?
            case Other => false)
      && (forall i :: 0 <= i < |s.calls| ==> s.calls[i].phase != Failed(WrongType))
  {
    ReachableInv(trace);
    hide NamespaceOf, CallsOk, Installed, Fresh, Ordered, Records;
    var s := Run(INITIAL, trace);
    forall k | k in s.store && s.store[k].Hash? ensures NamespaceOf(k) == Steps || NamespaceOf(k) == Instances {
      assert HashKey(s, k);
    }
  }

  /** Routing never writes a definition it reads. */
  lemma {:induction false} RoutingKeepsDefinitions(trace: seq<Label>, l: Label, key: string)
    requires !Run(INITIAL, trace).stray && l.Advance? && NamespaceOf(key) == Definitions
    ensures SameAt(Run(INITIAL, trace).store, Next(Run(INITIAL, trace), l).store, key)
  {
    var s := Run(INITIAL, trace);
    ReachableInv(trace);
    hide NamespaceOf, AdvanceStep, Inv;
    if l.call < |s.calls| { AdvanceLeavesKey(s, l.call, l.uuid, l.rid, l.now, key); }
  }

  /**
   * The recorded `current_step` names the first step exactly when the template already carried its
   * id; when the id was generated the record says "".
   */
  lemma {:induction false} CurrentStepIsPreset(trace: seq<Label>, i: nat)
    requires var s := Run(INITIAL, trace); i < |s.calls| && s.calls[i].phase.Done? && |s.calls[i].steps| > 0
    ensures var c := Run(INITIAL, trace).calls[i];
      && c.template.steps.Some? && |c.template.steps.value| > 0
      && "current_step" in c.metadata
      && (c.metadata["current_step"] == c.steps[0].id <==> c.template.steps.value[0].id != "")
      && (c.template.steps.value[0].id == "" ==> c.metadata["current_step"] == "")
  {
    ReachableInv(trace);
    var s := Run(INITIAL, trace);
    assert CallOk(s.calls[i]);
    hide NamespaceOf, InstanceData, Fifo, Installed, Fresh, Ordered, Hashes, Records;
    assert Handled(s.calls[i].template.steps.value[0], s.calls[i].steps[0], s.calls[i].seen[0]);
  }
}
