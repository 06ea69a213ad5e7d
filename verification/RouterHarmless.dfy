/** Documents that leave no queued item without an instance record, whatever else happens. */
module RouterHarmless {
  import opened Prelude
  import opened WorkerSelection
  import opened RouterModel
  import opened RouterCalls
  import opened RouterInvariants
  import opened RouterRecords
  import opened RouterHashes
  import opened RouterReachable

  // ----- Which documents are harmful -----

  ghost predicate IsQueueKey(k: string) {
    exists x :: k == QueueKey(x)
  }

  /**
   * The step presets the key of its own template, stored under `key`, or of its own definition as
   * its id. Both hold text, so writing its hash always fails.
   */
  predicate Blocked(key: string, step: Step) {
    step.id == key || (step.definition.Some? && step.id == WorkflowKey(DefinitionName(step.definition.value)))
  }

  /** The step presets another definition's key, or a queue's, as its id: its hash can take that key. */
  ghost predicate Misplaced(key: string, step: Step) {
    (NamespaceOf(step.id) == Definitions || IsQueueKey(step.id)) && !Blocked(key, step)
  }

  /** The first `n` steps all have a definition. */
  predicate Defined(steps: seq<Step>, n: nat) {
    n <= |steps| && forall k :: 0 <= k < n ==> steps[k].definition.Some?
  }

  /** A call can push step `a` and throw at the later step `b`. */
  predicate TrapAt(key: string, steps: seq<Step>, a: nat, b: nat) {
    && a < b < |steps| && Defined(steps, b) && !Blocked(key, steps[a])
    && (steps[b].definition.None? || Blocked(key, steps[b]))
  }

  ghost predicate MisplacedAt(key: string, steps: seq<Step>, j: nat) {
    j < |steps| && Defined(steps, j + 1) && Misplaced(key, steps[j])
  }

  ghost predicate HarmfulSteps(key: string, steps: seq<Step>) {
    (exists j: nat :: MisplacedAt(key, steps, j)) || (exists a: nat, b: nat :: TrapAt(key, steps, a, b))
  }

  /**
   * A document stored under `key` that is text `JSON.parse` refuses, or `null`, or a template with a
   * step that takes the key of a definition or queue, or that throws where an earlier one was pushed.
   */
  ghost predicate Harmful(key: string, raw: Raw) {
    raw.Malformed? || (raw.Parsed? && raw.doc.steps.Some? && HarmfulSteps(key, raw.doc.steps.value))
  }

  ghost predicate AllHarmless(s: State) {
    forall p :: p in s.installed ==> !Harmful(p.0, p.1)
  }

  // ----- Harmless documents keep the key types -----

  ghost predicate Typed(s: State) {
    && (forall k :: k in s.store && s.store[k].Hash? ==> NamespaceOf(k) != Definitions && !IsQueueKey(k))
    && (forall k :: k in s.store && s.store[k].List? ==> IsQueueKey(k))
    && (forall p :: p in s.installed ==> p.0 in s.store && s.store[p.0].Text?)
  }

  /** A call throws before its first push, and the steps it wrote were not blocked. */
  ghost predicate Tidy(c: Call) {
    && (c.phase.Failed? && c.wid != "" ==> forall j :: 0 <= j < c.pos && j < |c.seen| ==> c.seen[j] == [])
    && forall j: nat :: WrittenStep(c, j) ==> !Blocked(WorkflowKey(c.event), c.steps[j])
  }

  ghost predicate AllTidy(s: State) {
    Typed(s) && forall i :: 0 <= i < |s.calls| ==> Tidy(s.calls[i])
  }

  lemma QueueKeysAreQueues(k: string)
    requires IsQueueKey(k)
    ensures NamespaceOf(k) == Queues
  {
    var x :| k == QueueKey(x);
    KeyNamespaces(x);
  }

  lemma DefinitionKeys(x: string)
    ensures NamespaceOf(WorkflowKey(x)) == Definitions && !IsQueueKey(WorkflowKey(x))
  {
    KeyNamespaces(x);
    if IsQueueKey(WorkflowKey(x)) { QueueKeysAreQueues(WorkflowKey(x)); }
    hide NamespaceOf, WorkflowKey, QueueKey;
  }

  /** The steps a running call has looked up, against its template. */
  lemma StepOf(c: Call, j: nat)
    requires CallOk(c) && c.wid != "" && j < |c.seen|
    ensures c.template.steps.Some? && j < |c.steps| == |c.template.steps.value|
    ensures var t := c.template.steps.value[j];
      && c.steps[j].definition == t.definition && t.definition.Some?
      && (if t.id != "" then c.steps[j].id == t.id else "step_instance:" <= c.steps[j].id)
  {
    hide NamespaceOf, InstanceData, InstanceMetadata, Traced;
    assert Handled(c.template.steps.value[j], c.steps[j], c.seen[j]);
  }

  lemma SeenDefined(c: Call)
    requires CallOk(c) && c.wid != ""
    ensures c.template.steps.Some? && Defined(c.template.steps.value, |c.seen|)
  {
    assert c.template.steps.Some? && |c.seen| <= |c.template.steps.value| by {
      hide NamespaceOf, InstanceData, InstanceMetadata, Handled;
    }
    hide CallOk;
    forall k | 0 <= k < |c.seen| ensures c.template.steps.value[k].definition.Some? { StepOf(c, k); }
  }

  /** A generated id is nobody else's key, so a call's step is blocked iff the template's is. */
  lemma SameBlocked(c: Call, j: nat)
    requires CallOk(c) && c.wid != "" && j < |c.seen|
    ensures c.template.steps.Some? && j < |c.template.steps.value| && j < |c.steps|
    ensures var t, x, key := c.template.steps.value[j], c.steps[j], WorkflowKey(c.event);
      && (Blocked(key, x) <==> Blocked(key, t)) && (Misplaced(key, x) <==> Misplaced(key, t))
  {
    StepOf(c, j);
    hide CallOk;
    var x, t := c.steps[j], c.template.steps.value[j];
    if t.id == "" { GeneratedIsNeither(c.event, x); GeneratedIsNeither(c.event, t); }
    hide NamespaceOf, IsQueueKey, DefinitionName, WorkflowKey;
  }

  lemma GeneratedIsNeither(event: string, x: Step)
    requires x.id == "" || "step_instance:" <= x.id
    ensures !Blocked(WorkflowKey(event), x) && !Misplaced(WorkflowKey(event), x)
  {
    DefinitionKeys(event);
    if x.definition.Some? { DefinitionKeys(DefinitionName(x.definition.value)); }
    if IsQueueKey(x.id) { QueueKeysAreQueues(x.id); }
    if x.id != "" { PrefixedStepKey(x.id); }
    hide DefinitionName, WorkflowKey, QueueKey;
  }

  /** When the template is harmless, a step that throws comes before everything that was written. */
  lemma NothingPushed(c: Call, b: nat)
    requires CallOk(c) && c.wid != "" && Tidy(c) && !Harmful(WorkflowKey(c.event), Parsed(c.template))
    requires b == c.pos <= |c.seen| && c.template.steps.Some? && b < |c.template.steps.value|
    requires var t := c.template.steps.value[b]; t.definition.None? || Blocked(WorkflowKey(c.event), t)
    ensures forall j :: 0 <= j < b ==> c.seen[j] == []
  {
    SeenDefined(c);
    hide CallOk;
    forall a | 0 <= a < b ensures c.seen[a] == [] {
      StepOf(c, a);
      SameBlocked(c, a);
      hide Blocked;
      assert !TrapAt(WorkflowKey(c.event), c.template.steps.value, a, b);
      assert c.seen[a] != [] ==> WrittenStep(c, a);
    }
  }

  // ----- Segment by segment -----

  lemma LookupFailure(s: State, c: Call, uuid: string)
    requires c.phase.Lookup? && InLoop(c) && LookupStep(s, c, uuid).call.phase.Failed?
    ensures c.steps[c.pos].definition.Some? ==>
      var raw := Get(s.store, WorkflowKey(DefinitionName(c.steps[c.pos].definition.value)));
      raw.None? || raw == Some(Malformed)
    ensures var c' := LookupStep(s, c, uuid).call; c'.pos == c.pos && c'.seen == c.seen
  {
    hide Traced, StepKey, WorkflowKey, DefinitionName, Get, Mint;
  }

  /** In a typed state without harmful documents, definitions can be read. */
  lemma ReadsDefinition(s: State, name: string)
    requires Fifo(s) && Installed(s) && Typed(s) && AllHarmless(s)
    ensures var raw := Get(s.store, WorkflowKey(name)); raw.Some? && !raw.value.Malformed?
  {
    DefinitionKeys(name);
    hide NamespaceOf, IsQueueKey, WorkflowKey;
    var key := WorkflowKey(name);
    if key in s.store && s.store[key].Text? { assert (key, s.store[key].raw) in s.installed; }
  }

  lemma LookupDefinition(c: Call)
    requires CallOk(c) && c.wid != "" && c.phase.Lookup? && InLoop(c)
    ensures c.template.steps.Some? && c.pos < |c.template.steps.value| && c.pos == |c.seen|
    ensures c.steps[c.pos].definition == c.template.steps.value[c.pos].definition
  {
    hide NamespaceOf, InstanceData, InstanceMetadata, Handled;
  }

  lemma TemplateHarmless(s: State, c: Call)
    requires AllHarmless(s) && Reads(s, c) && c.wid != ""
    ensures !Harmful(WorkflowKey(c.event), Parsed(c.template))
  {
    hide Harmful, Listed;
    assert (WorkflowKey(c.event), Parsed(c.template)) in s.installed;
  }

  lemma {:induction false} LookupTidy(s: State, c: Call, uuid: string)
    requires c.phase.Lookup? && InLoop(c) && CallOk(c) && Reads(s, c) && Tidy(c)
    requires Fifo(s) && Installed(s) && Typed(s) && AllHarmless(s)
    ensures Tidy(LookupStep(s, c, uuid).call)
  {
    var c' := LookupStep(s, c, uuid).call;
    LookupHasWid(c);
    LookupGrows(s, c, uuid);
    if c'.phase.Failed? {
      LookupFailure(s, c, uuid);
      if c.steps[c.pos].definition.Some? { ReadsDefinition(s, DefinitionName(c.steps[c.pos].definition.value)); }
      TemplateHarmless(s, c);
      LookupDefinition(c);
      NothingPushed(c, c.pos);
    }
    LookupKeepsEvent(s, c, uuid);
    hide LookupStep, CallOk, Reads, Typed, Fifo, Installed, AllHarmless, Blocked, Get;
    forall j: nat | WrittenStep(c', j) ensures WrittenStep(c, j) && c'.steps[j] == c.steps[j] {}
  }

  lemma LookupKeepsEvent(s: State, c: Call, uuid: string)
    requires c.phase.Lookup? && InLoop(c)
    ensures LookupStep(s, c, uuid).call.event == c.event
  {
    hide Traced, StepKey, WorkflowKey, DefinitionName, Get, Mint;
  }

  lemma BlockedKeyIsText(s: State, c: Call)
    requires Typed(s) && Reads(s, c) && c.wid != "" && c.phase.SaveStep? && InLoop(c)
    requires Blocked(WorkflowKey(c.event), c.steps[c.pos])
    ensures var id := c.steps[c.pos].id; id in s.store && s.store[id].Text?
  {
    hide NamespaceOf, IsQueueKey, WorkflowKey, DefinitionName;
    assert (WorkflowKey(c.event), Parsed(c.template)).0 in s.store;
    var d := c.steps[c.pos].definition.value;
    assert Listed(s, d, c.seen[c.pos]);
    var doc :| (WorkflowKey(DefinitionName(d)), Parsed(doc)) in s.installed && doc.workers == c.seen[c.pos];
    assert (WorkflowKey(DefinitionName(d)), Parsed(doc)).0 in s.store;
  }

  /** The id of the step at hand is its own, or its hash cannot be written. */
  lemma {:induction false} WritableId(s: State, c: Call)
    requires Fifo(s) && Typed(s) && AllHarmless(s) && Reads(s, c) && CallOk(c) && Tidy(c)
    requires c.phase.SaveStep? && InLoop(c) && c.wid != ""
    ensures var x := c.steps[c.pos];
      if x.id in s.store && !s.store[x.id].Hash? then forall j :: 0 <= j < c.pos ==> c.seen[j] == []
      else !Blocked(WorkflowKey(c.event), x) && NamespaceOf(x.id) != Definitions && !IsQueueKey(x.id)
  {
    var x, key := c.steps[c.pos], WorkflowKey(c.event);
    TemplateHarmless(s, c);
    SeenDefined(c);
    SameBlocked(c, c.pos);
    assert !MisplacedAt(key, c.template.steps.value, c.pos);
    if Blocked(key, x) {
      BlockedKeyIsText(s, c);
      NothingPushed(c, c.pos);
    }
    hide CallOk, Reads, AllHarmless, IsQueueKey, Blocked, NamespaceOf, WorkflowKey;
  }

  lemma HSetTyped(s: State, s': State, key: string, fields: map<string, Json>)
    requires Typed(s) && NamespaceOf(key) != Definitions && !IsQueueKey(key)
    requires HSet(s.store, key, fields) == Some(s'.store) && s'.installed == s.installed
    ensures Typed(s')
  {
    hide NamespaceOf, IsQueueKey;
  }

  lemma LPushTyped(s: State, s': State, key: string, item: Item)
    requires Typed(s) && IsQueueKey(key) && LPush(s.store, key, item) == Some(s'.store) && s'.installed == s.installed
    ensures Typed(s')
  {
    hide NamespaceOf, IsQueueKey;
  }

  /** A call that moves on over a written or skipped step, or throws before having pushed. */
  lemma MovedTidy(c: Call, c': Call)
    requires Tidy(c) && c' == c.(phase := c'.phase, pos := c'.pos) && !c'.phase.Failed?
    requires forall j: nat :: WrittenStep(c', j) && !WrittenStep(c, j) ==> !Blocked(WorkflowKey(c.event), c.steps[j])
    ensures Tidy(c')
  {
    hide Blocked, WorkflowKey;
  }

  lemma {:induction false} SaveStepTidy(s: State, i: nat)
    requires i < |s.calls| && s.calls[i].phase.SaveStep? && InLoop(s.calls[i]) && CallOk(s.calls[i]) && s.calls[i].wid != ""
    requires Fifo(s) && Typed(s) && AllHarmless(s) && Reads(s, s.calls[i]) && Tidy(s.calls[i])
    ensures var e := SaveStepStep(s, i, s.calls[i]); Tidy(e.call) && Typed(e.rest)
  {
    var c := s.calls[i];
    var x := c.steps[c.pos];
    var e := SaveStepStep(s, i, c);
    WritableId(s, c);
    hide CallOk, Reads, AllHarmless, IsQueueKey, Blocked, NamespaceOf, WorkflowKey, StepFields, Fifo, Typed;
    if HSet(s.store, x.id, StepFields(x)).Some? {
      HSetTyped(s, e.rest, x.id, StepFields(x));
      hide HSet;
      MovedTidy(c, e.call);
    }
  }

  lemma {:induction false} PushTidy(s: State, c: Call)
    requires c.phase.Push? && InLoop(c) && c.wid != "" && Fifo(s) && Typed(s) && Tidy(c)
    ensures var e := PushStep(s, c); Tidy(e.call) && Typed(e.rest)
  {
    var q, item := Route(c.seen[c.pos]).value, Item(c.wid, c.steps[c.pos].id);
    assert IsQueueKey(QueueKey(Select(c.seen[c.pos]).instanceId));
    QueueAccepts(s, q, item);
    var e := PushStep(s, c);
    hide IsQueueKey, Blocked, NamespaceOf, WorkflowKey, QueueKey, Select, At, Fifo, Typed, LPush;
    LPushTyped(s, e.rest, q, item);
    MovedTidy(c, e.call);
  }

  lemma QueueAccepts(s: State, q: string, item: Item)
    requires IsQueueKey(q) && Fifo(s) && Typed(s)
    ensures LPush(s.store, q, item).Some?
  {
    QueueKeysAreQueues(q);
    hide NamespaceOf, IsQueueKey;
  }

  lemma RecordAccepts(s: State, c: Call)
    requires c.phase.SaveInstance? && CallOk(c) && Fifo(s) && Typed(s)
    ensures NamespaceOf(c.wid) == Instances && !IsQueueKey(c.wid) && HSet(s.store, c.wid, InstanceFields(c)).Some?
  {
    WidIsInstance(c);
    if IsQueueKey(c.wid) { QueueKeysAreQueues(c.wid); }
    hide CallOk, NamespaceOf, IsQueueKey, InstanceFields;
  }

  lemma {:induction false} SaveInstanceTidy(s: State, c: Call)
    requires c.phase.SaveInstance? && CallOk(c) && Fifo(s) && Typed(s) && Tidy(c)
    ensures var e := SaveInstanceStep(s, c); Tidy(e.call) && Typed(e.rest)
  {
    RecordAccepts(s, c);
    var e := SaveInstanceStep(s, c);
    hide CallOk, IsQueueKey, Blocked, NamespaceOf, WorkflowKey, InstanceFields, Fifo, Typed, HSet;
    HSetTyped(s, e.rest, c.wid, InstanceFields(c));
    MovedTidy(c, e.call);
  }

  lemma FetchTidy(s: State, c: Call, uuid: string, rid: string, now: string)
    requires c.phase.Fetch? && InLoop(c) && CallOk(c)
    ensures Tidy(FetchStep(s, c, uuid, rid, now).call)
  {
    hide InstanceData, InstanceMetadata, InstanceKey, WorkflowKey, NamespaceOf, Blocked, Started, Mint;
  }

  lemma SameStoreTyped(s: State, s': State)
    requires Typed(s) && s'.store == s.store && s'.installed == s.installed
    ensures Typed(s')
  {
  }

  /** What the segments below need of a running call. */
  lemma Running(c: Call)
    requires CallOk(c) && !c.phase.Fetch? && !c.phase.Failed?
    ensures c.wid != ""
  {
    hide Started, NamespaceOf;
  }

  lemma {:induction false} AdvanceTidy(s: State, i: nat, uuid: string, rid: string, now: string)
    requires Sane(s) && i < |s.calls| && CallOk(s.calls[i]) && Fifo(s) && Installed(s) && Typed(s)
    requires AllHarmless(s) && Tidy(s.calls[i])
    ensures var e := AdvanceStep(s, i, uuid, rid, now); Tidy(e.call) && Typed(e.rest)
  {
    var c := s.calls[i];
    assert InLoop(c) && Reads(s, c);
    hide CallOk, InLoop, Fifo, Installed, Typed, AllHarmless, Tidy, Reads, Mint;
    hide FetchStep, LookupStep, SaveStepStep, PushStep, SaveInstanceStep;
    if !c.phase.Fetch? && !c.phase.Failed? { Running(c); }
    match c.phase
    case Fetch =>
      FetchTidy(s, c, uuid, rid, now);
      FetchKeepsStore(s, c, uuid, rid, now);
      MintTyped(s, InstanceKey(uuid));
    case Lookup =>
      LookupTidy(s, c, uuid);
      LookupKeepsStore(s, c, uuid);
      MintTyped(s, StepKey(uuid));
    case SaveStep => SaveStepTidy(s, i);
    case Push => PushTidy(s, c);
    case SaveInstance => SaveInstanceTidy(s, c);
    case _ =>
  }

  lemma MintTyped(s: State, id: string)
    requires Typed(s)
    ensures Typed(Mint(s, id))
  {
    hide NamespaceOf, IsQueueKey;
  }

  // ----- Every run -----

  lemma InstallTyped(s: State, name: string, raw: Raw)
    requires Typed(s)
    ensures Typed(InstallStep(s, name, raw))
  {
    DefinitionKeys(name);
    hide NamespaceOf, IsQueueKey, WorkflowKey, PresetIds;
  }

  lemma PopTyped(s: State, queue: string)
    requires Typed(s)
    ensures Typed(PopStep(s, queue))
  {
    hide NamespaceOf, IsQueueKey;
  }

  lemma {:induction false} NextTidy(s: State, l: Label)
    requires Inv(s) && AllTidy(s) && AllHarmless(s)
    ensures AllTidy(Next(s, l))
  {
    var s' := Next(s, l);
    hide Tidy, Typed, CallOk, Fifo, Installed, Fresh, Ordered, Hashes, Records, AllHarmless;
    match l
    case Install(name, raw) => InstallTyped(s, name, raw);
    case Pop(queue) => PopTyped(s, queue);
    case Start(event, payload) =>
      SameStoreTyped(s, s');
      NewTidy(event, payload);
    case Advance(i, uuid, rid, now) =>
      if i < |s.calls| {
        var e := AdvanceIs(s, l);
        AdvanceTidy(s, i, uuid, rid, now);
        SameStoreTyped(e.rest, s');
        hide AdvanceStep;
      }
  }

  lemma NewTidy(event: string, payload: string)
    ensures Tidy(NewCall(event, payload))
  {
    hide Blocked;
  }

  lemma {:induction false} NextInstalled(s: State, l: Label)
    requires Sane(s)
    ensures s.installed <= Next(s, l).installed
  {
    if l.Advance? && l.call < |s.calls| {
      AdvanceKeepsDocuments(s, l.call, l.uuid, l.rid, l.now);
      hide AdvanceStep;
    }
  }

  lemma {:induction false} RunsAreTidy(trace: seq<Label>)
    requires AllHarmless(Run(INITIAL, trace))
    ensures AllTidy(Run(INITIAL, trace))
  {
    hide Next, Tidy, Typed, Inv, Harmful;
    if trace == [] {
      EmptyTyped();
    } else {
      var init, l := trace[..|trace| - 1], trace[|trace| - 1];
      NextInstalled(Run(INITIAL, init), l);
      RunsAreTidy(init);
      ReachableInv(init);
      NextTidy(Run(INITIAL, init), l);
    }
  }

  lemma EmptyTyped()
    ensures Typed(INITIAL)
  {
  }

  /** Call `i` threw after an item of its instance was queued. */
  ghost predicate ThrewAfterPush(s: State, i: nat) {
    && i < |s.calls| && s.calls[i].phase.Failed? && s.calls[i].wid != ""
    && exists q :: OfInstance(At(s.pushed, q), s.calls[i].wid) != []
  }

  lemma {:induction false} NoItems(wid: string, steps: seq<Step>, seen: seq<seq<Worker>>, n: nat, q: string)
    requires n <= |steps| && n <= |seen| && forall j :: 0 <= j < n ==> seen[j] == []
    ensures Items(wid, steps, seen, n, q) == []
  {
    if n > 0 { NoItems(wid, steps, seen, n - 1, q); }
  }

  /** While only harmless documents were installed, no call throws after a push. */
  lemma {:induction false} NoOrphans(trace: seq<Label>, i: nat)
    requires var s := Run(INITIAL, trace); !s.collided && AllHarmless(s)
    ensures !ThrewAfterPush(Run(INITIAL, trace), i)
  {
    var s := Run(INITIAL, trace);
    RunsAreTidy(trace);
    ReachableInv(trace);
    hide Run, CallsOk, Fifo, Installed, Fresh, Hashes, Records, OfInstance, AllHarmless, Typed, Blocked;
    if i < |s.calls| && s.calls[i].phase.Failed? && s.calls[i].wid != "" {
      var c := s.calls[i];
      assert ItemsOf(s, c) && Tidy(c);
      forall q ensures OfInstance(At(s.pushed, q), c.wid) == [] { NoItems(c.wid, c.steps, c.seen, c.pos, q); }
    }
  }

  // ----- Lists, with any documents -----

  ghost predicate OnlyQueuesAreLists(s: State) {
    forall k :: k in s.store && s.store[k].List? ==> IsQueueKey(k)
  }

  lemma PushedLists(s: State, c: Call)
    requires c.phase.Push? && InLoop(c) && OnlyQueuesAreLists(s)
    ensures OnlyQueuesAreLists(PushStep(s, c).rest)
  {
    assert IsQueueKey(QueueKey(Select(c.seen[c.pos]).instanceId));
    hide IsQueueKey, QueueKey, Select;
  }

  lemma {:induction false} NextLists(s: State, l: Label)
    requires Sane(s) && OnlyQueuesAreLists(s)
    ensures OnlyQueuesAreLists(Next(s, l))
  {
    hide IsQueueKey;
    if l.Advance? && l.call < |s.calls| {
      var e := AdvanceIs(s, l);
      if s.calls[l.call].phase.Push? { PushedLists(s, s.calls[l.call]); }
      else { AdvanceQuiet(s, l.call, l.uuid, l.rid, l.now); }
      hide AdvanceStep;
    }
  }

  /** Whatever was installed, only keys of worker queues hold lists. */
  lemma {:induction false} ListsAreQueues(trace: seq<Label>)
    ensures OnlyQueuesAreLists(Run(INITIAL, trace))
  {
    hide Next;
    if trace != [] {
      ListsAreQueues(trace[..|trace| - 1]);
      NextLists(Run(INITIAL, trace[..|trace| - 1]), trace[|trace| - 1]);
    }
  }
}
