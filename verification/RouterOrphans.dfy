/** Every harmful document can leave a queued item whose instance record is never written. */
module RouterOrphans {
  import opened Prelude
  import opened WorkerSelection
  import opened RouterModel
  import opened RouterCalls
  import opened RouterInvariants
  import opened RouterRecords
  import opened RouterHashes
  import opened RouterReachable
  import opened RouterSegments
  import opened RouterRuns
  import opened RouterHarmless

  /** Call `i` threw after an item of its instance was queued; the instance record is missing. */
  ghost predicate Orphaned(s: State, i: nat) {
    ThrewAfterPush(s, i) && s.calls[i].wid !in s.store
  }

  // ----- Where a call is -----

  /** Call `n` is in `phase` at step `p`; the steps after it are still those of the template. */
  predicate Underway(s: State, n: nat, steps: seq<Step>, p: nat, phase: Phase) {
    && !s.collided && n < |s.calls| && p < |steps|
    && var c := s.calls[n];
    && c.phase == phase && c.pos == p && NamespaceOf(c.wid) == Instances && c.wid !in s.store
    && |c.steps| == |steps| && c.steps[p].definition == steps[p].definition && c.steps[p].id != c.wid
    && forall k :: p < k < |steps| ==>
         c.steps[k].definition == steps[k].definition && c.steps[k].id == steps[k].id != c.wid
  }

  predicate OnStep(s: State, n: nat, steps: seq<Step>, p: nat) {
    Underway(s, n, steps, p, Lookup) && s.calls[n].steps[p].id == steps[p].id
  }

  /** Step `p` of call `n` has this id and was routed to this worker. */
  predicate RoutedTo(s: State, n: nat, p: nat, id: string, w: Worker) {
    n < |s.calls| && p < |s.calls[n].steps| && s.calls[n].steps[p].id == id
    && |s.calls[n].seen| == p + 1 && s.calls[n].seen[p] == [w]
  }

  /** An item of the call's instance was queued to `q`. */
  predicate Queued(s: State, n: nat, q: string) {
    n < |s.calls| && OfInstance(At(s.pushed, q), s.calls[n].wid) != []
  }

  /** Besides the documents of `a`, those of `b` are harmless. */
  ghost predicate Tame(a: set<(string, Raw)>, b: set<(string, Raw)>) {
    forall p :: p in b ==> p in a || !Harmful(p.0, p.1)
  }

  /** From `s` to `s'` only call `n` moved, nothing was pushed, and no instance record was written. */
  predicate Apart(s: State, s': State, n: nat) {
    && |s.calls| <= |s'.calls| && (forall i :: 0 <= i < |s.calls| && i != n ==> s'.calls[i] == s.calls[i])
    && (n < |s.calls| && s.calls[n].wid != "" ==> s'.calls[n].wid == s.calls[n].wid)
    && s'.pushed == s.pushed && !s'.collided
    && forall k :: k in s'.store && NamespaceOf(k) == Instances ==> k in s.store
  }

  lemma ApartTrans(a: State, b: State, c: State, n: nat)
    requires Apart(a, b, n) && Apart(b, c, n)
    ensures Apart(a, c, n)
  {
    hide NamespaceOf;
  }

  lemma TameTrans(a: set<(string, Raw)>, b: set<(string, Raw)>, c: set<(string, Raw)>)
    requires Tame(a, b) && Tame(b, c)
    ensures Tame(a, c)
  {
    hide Harmful;
  }

  /** A call others leave alone stays where it is. */
  lemma StaysUnderway(s: State, s': State, m: nat, n: nat, steps: seq<Step>, p: nat, q: string)
    requires Apart(s, s', m) && m != n && OnStep(s, n, steps, p) && Queued(s, n, q)
    ensures OnStep(s', n, steps, p) && Queued(s', n, q)
  {
    hide NamespaceOf, OfInstance;
  }

  lemma StaysQueued(s: State, s': State, n: nat, steps: seq<Step>, p: nat, q: string)
    requires Apart(s, s', n) && OnStep(s, n, steps, p) && Queued(s, n, q)
    ensures Queued(s', n, q)
  {
    hide OfInstance;
  }

  // ----- Single steps -----

  lemma PlainInstalled(s: State, n: nat, name: string, raw: Raw)
    requires Sane(s) && PresetIds(raw) == {} && !s.collided
    ensures var s' := Next(s, Install(name, raw));
      && s'.calls == s.calls && Apart(s, s', n) && s'.store == s.store[WorkflowKey(name) := Text(raw)]
      && s'.installed == s.installed + {(WorkflowKey(name), raw)}
  {
    InstallPlain(s, name, raw);
    DefinitionKeys(name);
    hide WorkflowKey, PresetIds, Next, NamespaceOf, IsQueueKey;
  }

  lemma CallStays(s: State, s': State, n: nat, steps: seq<Step>, p: nat)
    requires OnStep(s, n, steps, p) && s'.calls == s.calls && Apart(s, s', n)
    ensures OnStep(s', n, steps, p)
  {
    hide NamespaceOf;
  }

  lemma Fetched(s: State, n: nat, l: Label, doc: Doc)
    requires Sane(s) && n < |s.calls| && s.calls[n].phase.Fetch? && l.Advance? && l.call == n && !s.collided
    requires s.calls[n].wid == ""
    requires Get(s.store, WorkflowKey(s.calls[n].event)) == Some(Parsed(doc)) && doc.steps.Some? && doc.steps.value != []
    requires InstanceKey(l.uuid) !in s.minted + s.presets + s.store.Keys && PresetIds(Parsed(doc)) <= s.presets
    ensures var s' := Next(s, l);
      OnStep(s', n, doc.steps.value, 0) && s'.installed == s.installed && Apart(s, s', n) && s'.store == s.store
  {
    Known(s, n);
    FetchSucceeds(s, n, l, doc);
    KeyNamespaces(l.uuid);
    assert InstanceKey(l.uuid) != "";
    forall k | 0 <= k < |doc.steps.value| ensures doc.steps.value[k].id != InstanceKey(l.uuid) {
      assert doc.steps.value[k].id != "" ==> doc.steps.value[k].id in PresetIds(Parsed(doc));
    }
    hide WorkflowKey, InstanceKey, InstanceData, InstanceMetadata, Next, NamespaceOf, PresetIds;
  }

  function NewId(step: Step, uuid: string): string {
    if step.id != "" then step.id else StepKey(uuid)
  }

  lemma NamedStep(s: State, c: Call, uuid: string)
    requires c.pos < |c.steps| && StepKey(uuid) !in s.minted + s.presets
    ensures var s', c' := AfterNaming(s, c, uuid), Named(c, uuid);
      && s' == s.(minted := s'.minted) && c' == c.(steps := c.steps[c.pos := c'.steps[c.pos]])
      && c'.steps[c.pos] == c.steps[c.pos].(id := NewId(c.steps[c.pos], uuid))
  {
    hide StepKey;
  }

  lemma StepKeyIsNot(uuid: string, key: string)
    requires NamespaceOf(key) != Steps
    ensures StepKey(uuid) != key
  {
    KeyNamespaces(uuid);
  }

  lemma LookupRouted(s: State, n: nat, steps: seq<Step>, p: nat, w: Worker, l: Label)
    requires Sane(s) && OnStep(s, n, steps, p) && l.Advance? && l.call == n && steps[p].definition.Some?
    requires Get(s.store, WorkflowKey(DefinitionName(steps[p].definition.value))) == Some(Parsed(Pool(w)))
    requires StepKey(l.uuid) !in s.minted + s.presets
    ensures var s' := Next(s, l);
      && Underway(s', n, steps, p, SaveStep) && RoutedTo(s', n, p, NewId(steps[p], l.uuid), w)
      && s'.installed == s.installed && s'.store == s.store && Apart(s, s', n)
  {
    Known(s, n);
    LookupRoutes(s, n, Pool(w), w, l);
    NamedStep(s, s.calls[n], l.uuid);
    StepKeyIsNot(l.uuid, s.calls[n].wid);
    hide WorkflowKey, DefinitionName, Traced, Next, Named, AfterNaming, StepKey, NamespaceOf, Get;
  }

  lemma StepSaved(s: State, n: nat, steps: seq<Step>, p: nat, id: string, w: Worker, l: Label)
    requires Sane(s) && Underway(s, n, steps, p, SaveStep) && RoutedTo(s, n, p, id, w) && l.Advance? && l.call == n
    requires id in s.store ==> s.store[id].Hash?
    ensures var s' := Next(s, l);
      && Underway(s', n, steps, p, Push) && RoutedTo(s', n, p, id, w) && s'.installed == s.installed
      && id in s'.store && s'.store[id].Hash? && s'.store == s.store[id := s'.store[id]] && s'.pushed == s.pushed
      && (NamespaceOf(id) != Instances ==> Apart(s, s', n))
  {
    Known(s, n);
    SaveStepSegment(s, n, l);
    hide Next, StepFields, NamespaceOf;
  }

  lemma SaveThrows(s: State, n: nat, steps: seq<Step>, p: nat, q: string, id: string, w: Worker, l: Label)
    requires Sane(s) && Underway(s, n, steps, p, SaveStep) && RoutedTo(s, n, p, id, w) && Queued(s, n, q)
    requires l.Advance? && l.call == n && id in s.store && !s.store[id].Hash?
    ensures var s' := Next(s, l); Orphaned(s', n) && !s'.collided && s'.installed == s.installed
  {
    Known(s, n);
    SaveStepSegment(s, n, l);
    hide Next, StepFields, NamespaceOf, Orphaned, OfInstance;
    assert Next(s, l) == Put(s, n, s.calls[n].(phase := Failed(WrongType)));
    NowOrphaned(s, Next(s, l), n, q);
  }

  lemma NowOrphaned(s: State, s': State, n: nat, q: string)
    requires Queued(s, n, q) && s'.pushed == s.pushed && n < |s'.calls| && s'.calls[n].wid == s.calls[n].wid
    requires s'.calls[n].phase.Failed? && s'.calls[n].wid !in s'.store && NamespaceOf(s'.calls[n].wid) == Instances
    ensures Orphaned(s', n)
  {
    assert OfInstance(At(s'.pushed, q), s'.calls[n].wid) != [];
    hide OfInstance;
  }

  lemma NowQueued(s: State, s': State, n: nat, q: string, item: Item)
    requires n < |s'.calls| && item.workflowInstanceId == s'.calls[n].wid
    requires s'.pushed == s.pushed[q := At(s.pushed, q) + [item]]
    ensures Queued(s', n, q)
  {
    OfInstanceLast(At(s.pushed, q), item, s'.calls[n].wid);
    hide OfInstance;
  }

  lemma QueueIsNot(x: string, key: string)
    requires NamespaceOf(key) == Instances
    ensures QueueKey(x) != key
  {
    KeyNamespaces(x);
  }

  lemma StepPushed(s: State, n: nat, steps: seq<Step>, p: nat, id: string, w: Worker, l: Label)
    requires Sane(s) && Underway(s, n, steps, p, Push) && RoutedTo(s, n, p, id, w) && l.Advance? && l.call == n
    requires p + 1 < |steps| && QueueKey(w.instanceId) !in s.store
    ensures var s', q := Next(s, l), QueueKey(w.instanceId);
      && OnStep(s', n, steps, p + 1) && Queued(s', n, q) && s'.installed == s.installed
      && q in s'.store && s'.store == s.store[q := s'.store[q]]
  {
    var q, item := QueueKey(w.instanceId), Item(s.calls[n].wid, id);
    Known(s, n);
    PushSegment(s, n, l);
    QueueIsNot(w.instanceId, s.calls[n].wid);
    assert Select([w]) == w;
    hide Next, QueueKey, NamespaceOf, Select, Queued, OnStep;
    assert Next(s, l) == Put(ItemPushed(s, q, item), n, s.calls[n].(pos := p + 1, phase := Lookup));
    NowQueued(s, Next(s, l), n, q, item);
    hide At, InLoop, Sane;
    NextOnStep(s, Next(s, l), n, steps, p);
  }

  lemma NextOnStep(s: State, s': State, n: nat, steps: seq<Step>, p: nat)
    requires Underway(s, n, steps, p, Push) && p + 1 < |steps| && n < |s'.calls| && !s'.collided
    requires s'.calls[n] == s.calls[n].(pos := p + 1, phase := Lookup) && s.calls[n].wid !in s'.store
    ensures OnStep(s', n, steps, p + 1)
  {
    hide NamespaceOf;
  }

  lemma PushThrows(s: State, n: nat, steps: seq<Step>, p: nat, q: string, id: string, w: Worker, l: Label)
    requires Sane(s) && Underway(s, n, steps, p, Push) && RoutedTo(s, n, p, id, w) && Queued(s, n, q)
    requires l.Advance? && l.call == n
    requires QueueKey(w.instanceId) in s.store && !s.store[QueueKey(w.instanceId)].List?
    ensures var s' := Next(s, l); Orphaned(s', n) && !s'.collided && s'.installed == s.installed
  {
    Known(s, n);
    PushSegment(s, n, l);
    assert Select([w]) == w;
    hide Next, QueueKey, NamespaceOf, Select, Orphaned, OfInstance;
    assert Next(s, l) == Put(s, n, s.calls[n].(phase := Failed(WrongType)));
    NowOrphaned(s, Next(s, l), n, q);
  }

  lemma LookupSkipped(s: State, n: nat, steps: seq<Step>, p: nat, l: Label)
    requires Sane(s) && OnStep(s, n, steps, p) && p + 1 < |steps| && steps[p].definition.Some?
    requires l.Advance? && l.call == n && StepKey(l.uuid) !in s.minted + s.presets
    requires Get(s.store, WorkflowKey(DefinitionName(steps[p].definition.value))) == Some(Empty)
    ensures var s' := Next(s, l);
      OnStep(s', n, steps, p + 1) && s'.installed == s.installed && s'.store == s.store && Apart(s, s', n)
  {
    Known(s, n);
    NamedStep(s, s.calls[n], l.uuid);
    hide WorkflowKey, DefinitionName, Next, Named, AfterNaming, NamespaceOf, StepKey, NewId;
    LookupSegment(s, n, l, Skip(Named(s.calls[n], l.uuid)));
  }

  lemma LookupThrows(s: State, n: nat, steps: seq<Step>, p: nat, q: string, l: Label)
    requires Sane(s) && OnStep(s, n, steps, p) && Queued(s, n, q)
    requires l.Advance? && l.call == n && StepKey(l.uuid) !in s.minted + s.presets
    requires steps[p].definition.Some? ==>
      var raw := Get(s.store, WorkflowKey(DefinitionName(steps[p].definition.value)));
      raw.None? || raw == Some(Malformed)
    ensures var s' := Next(s, l); Orphaned(s', n) && !s'.collided && s'.installed == s.installed
  {
    Known(s, n);
    NamedStep(s, s.calls[n], l.uuid);
    hide WorkflowKey, DefinitionName, Next, Named, AfterNaming, NamespaceOf, StepKey, NewId, Orphaned, OfInstance, Get;
    var error := if steps[p].definition.None? then BadShape
                 else if Get(s.store, WorkflowKey(DefinitionName(steps[p].definition.value))).None? then WrongType
                 else BadJson;
    var c' := Named(s.calls[n], l.uuid).(phase := Failed(error));
    LookupSegment(s, n, l, c');
    NowOrphaned(s, Next(s, l), n, q);
  }

  // ----- Building the runs -----

  /** Install a template, start a call on it, and let it reach its first lookup. */
  lemma {:induction false} Begin(trace: seq<Label>, name: string, doc: Doc) returns (run: seq<Label>, n: nat)
    requires !Run(INITIAL, trace).collided && doc.steps.Some? && doc.steps.value != []
    ensures trace <= run && Inv(Run(INITIAL, run))
    ensures var s, s' := Run(INITIAL, trace), Run(INITIAL, run);
      && n == |s.calls| && OnStep(s', n, doc.steps.value, 0) && Apart(s, s', n)
      && s'.installed == s.installed + {(WorkflowKey(name), Parsed(doc))}
      && s'.store == s.store[WorkflowKey(name) := Text(Parsed(doc))]
  {
    hide Run, WorkflowKey, Inv, PresetIds, Next, OnStep, Apart;
    n := |Run(INITIAL, trace).calls|;
    run := Extend(trace, Install(name, Parsed(doc)));
    run := Extend(run, Start(name, ""));
    TemplateStarted(Run(INITIAL, trace), name, doc);
    var s := Run(INITIAL, run);
    var uuid := FreshUuid(s.minted + s.presets + s.store.Keys);
    Fetched(s, n, Advance(n, uuid, "r", "t"), doc);
    run := Extend(run, Advance(n, uuid, "r", "t"));
    ApartTrans(Run(INITIAL, trace), s, Run(INITIAL, run), n);
  }

  lemma TemplateStarted(s: State, name: string, doc: Doc)
    requires Sane(s) && !s.collided
    ensures var s' := Next(Next(s, Install(name, Parsed(doc))), Start(name, ""));
      && s'.calls == s.calls + [NewCall(name, "")] && Apart(s, s', |s.calls|) && !s'.collided
      && Get(s'.store, WorkflowKey(name)) == Some(Parsed(doc)) && PresetIds(Parsed(doc)) <= s'.presets
      && s'.installed == s.installed + {(WorkflowKey(name), Parsed(doc))}
      && s'.store == s.store[WorkflowKey(name) := Text(Parsed(doc))]
  {
    DefinitionKeys(name);
    hide WorkflowKey, PresetIds, NamespaceOf, IsQueueKey;
  }

  /** From `s` to `s'` only harmless documents were installed, and only call `n` moved. */
  ghost predicate Calm(s: State, s': State, n: nat) {
    Apart(s, s', n) && Tame(s.installed, s'.installed)
  }

  lemma CalmTrans(a: State, b: State, c: State, n: nat)
    requires Calm(a, b, n) && Calm(b, c, n)
    ensures Calm(a, c, n)
  {
    ApartTrans(a, b, c, n);
    TameTrans(a.installed, b.installed, c.installed);
    hide Apart, Tame;
  }

  lemma HelpersAreHarmless(key: string, w: Worker)
    ensures !Harmful(key, Empty) && PresetIds(Empty) == {}
    ensures !Harmful(key, Parsed(Pool(w))) && PresetIds(Parsed(Pool(w))) == {}
  {
  }

  lemma HelperInstalled(s: State, n: nat, name: string, raw: Raw)
    requires Sane(s) && PresetIds(raw) == {} && !s.collided && !Harmful(WorkflowKey(name), raw)
    ensures var s' := Next(s, Install(name, raw));
      && s'.calls == s.calls && Calm(s, s', n) && s'.store == s.store[WorkflowKey(name) := Text(raw)]
  {
    PlainInstalled(s, n, name, raw);
    hide WorkflowKey, PresetIds, Next, Apart, Harmful;
  }

  /** Calm is kept by a segment that installs nothing. */
  lemma CalmSegment(s: State, s': State, n: nat)
    requires Apart(s, s', n) && s'.installed == s.installed
    ensures Calm(s, s', n)
  {
    hide Apart, Harmful;
  }

  /** A step is skipped when its definition is emptied just before its lookup, or was never there. */
  lemma {:induction false} RunSkip(trace: seq<Label>, n: nat, steps: seq<Step>, p: nat, free: string)
    returns (run: seq<Label>)
    requires OnStep(Run(INITIAL, trace), n, steps, p) && p + 1 < |steps| && steps[p].definition.Some?
    ensures trace <= run && Inv(Run(INITIAL, run)) && Calm(Run(INITIAL, trace), Run(INITIAL, run), n)
    ensures OnStep(Run(INITIAL, run), n, steps, p + 1)
    ensures free !in Run(INITIAL, trace).store ==> free !in Run(INITIAL, run).store
  {
    var s := Run(INITIAL, trace);
    var name := DefinitionName(steps[p].definition.value);
    run := trace;
    HelpersAreHarmless(WorkflowKey(name), Worker("", "", None));
    if WorkflowKey(name) != free || free in s.store {
      run := Extend(trace, Install(name, Empty));
      HelperInstalled(s, n, name, Empty);
      CallStays(s, Run(INITIAL, run), n, steps, p);
    } else {
      ReachableInv(trace);
      CalmSegment(s, s, n);
    }
    var s1 := Run(INITIAL, run);
    hide Run, WorkflowKey, Inv, PresetIds, Next, DefinitionName, OnStep, Harmful, Apart, Tame;
    var uuid := FreshUuid(s1.minted + s1.presets);
    LookupSkipped(s1, n, steps, p, Advance(n, uuid, "r", "t"));
    run := Extend(run, Advance(n, uuid, "r", "t"));
    CalmSegment(s1, Run(INITIAL, run), n);
    CalmTrans(s, s1, Run(INITIAL, run), n);
  }

  lemma {:induction false} RunSkipTo(trace: seq<Label>, n: nat, steps: seq<Step>, p: nat, m: nat, free: string)
    returns (run: seq<Label>)
    requires OnStep(Run(INITIAL, trace), n, steps, p) && p <= m < |steps| && Defined(steps, m)
    ensures trace <= run && Calm(Run(INITIAL, trace), Run(INITIAL, run), n) && OnStep(Run(INITIAL, run), n, steps, m)
    ensures free !in Run(INITIAL, trace).store ==> free !in Run(INITIAL, run).store
    decreases m - p
  {
    run := trace;
    var s := Run(INITIAL, trace);
    if p < m {
      hide Run, OnStep, Inv, Calm;
      run := RunSkip(trace, n, steps, p, free);
      var s1 := Run(INITIAL, run);
      run := RunSkipTo(run, n, steps, p + 1, m, free);
      CalmTrans(s, s1, Run(INITIAL, run), n);
    } else {
      assert Apart(s, s, n) by { hide NamespaceOf, Run; }
      CalmSegment(s, s, n);
    }
  }

  /** A step's definition gets one worker just before its lookup. */
  lemma {:induction false} RunRoute(trace: seq<Label>, n: nat, steps: seq<Step>, p: nat, w: Worker)
    returns (run: seq<Label>, id: string)
    requires OnStep(Run(INITIAL, trace), n, steps, p) && steps[p].definition.Some?
    ensures trace <= run && Inv(Run(INITIAL, run)) && Calm(Run(INITIAL, trace), Run(INITIAL, run), n)
    ensures Underway(Run(INITIAL, run), n, steps, p, SaveStep) && RoutedTo(Run(INITIAL, run), n, p, id, w)
    ensures if steps[p].id != "" then id == steps[p].id else NamespaceOf(id) == Steps
    ensures Run(INITIAL, run).store ==
      Run(INITIAL, trace).store[WorkflowKey(DefinitionName(steps[p].definition.value)) := Text(Parsed(Pool(w)))]
  {
    var s := Run(INITIAL, trace);
    var name := DefinitionName(steps[p].definition.value);
    HelpersAreHarmless(WorkflowKey(name), w);
    run := Extend(trace, Install(name, Parsed(Pool(w))));
    var s1 := Run(INITIAL, run);
    HelperInstalled(s, n, name, Parsed(Pool(w)));
    CallStays(s, s1, n, steps, p);
    hide Run, WorkflowKey, Inv, PresetIds, Next, DefinitionName, OnStep, Harmful, Apart, Tame, Underway, Pool;
    var uuid := FreshUuid(s1.minted + s1.presets);
    KeyNamespaces(uuid);
    hide NamespaceOf, StepKey;
    LookupRouted(s1, n, steps, p, w, Advance(n, uuid, "r", "t"));
    id := NewId(steps[p], uuid);
    run := Extend(run, Advance(n, uuid, "r", "t"));
    CalmSegment(s1, Run(INITIAL, run), n);
    CalmTrans(s, s1, Run(INITIAL, run), n);
  }

  lemma {:induction false} RunSave(trace: seq<Label>, n: nat, steps: seq<Step>, p: nat, id: string, w: Worker)
    returns (run: seq<Label>)
    requires Underway(Run(INITIAL, trace), n, steps, p, SaveStep) && RoutedTo(Run(INITIAL, trace), n, p, id, w)
    requires id in Run(INITIAL, trace).store ==> Run(INITIAL, trace).store[id].Hash?
    ensures trace <= run && Inv(Run(INITIAL, run))
    ensures Underway(Run(INITIAL, run), n, steps, p, Push) && RoutedTo(Run(INITIAL, run), n, p, id, w)
    ensures var s, s' := Run(INITIAL, trace), Run(INITIAL, run);
      && s'.installed == s.installed && (NamespaceOf(id) != Instances ==> Apart(s, s', n))
      && id in s'.store && s'.store[id].Hash? && s'.store == s.store[id := s'.store[id]]
  {
    hide Run, Inv, Next, RoutedTo;
    StepSaved(Run(INITIAL, trace), n, steps, p, id, w, Advance(n, "", "r", "t"));
    run := Extend(trace, Advance(n, "", "r", "t"));
    hide NamespaceOf;
  }

  lemma {:induction false} RunPush(trace: seq<Label>, n: nat, steps: seq<Step>, p: nat, id: string, w: Worker)
    returns (run: seq<Label>)
    requires Underway(Run(INITIAL, trace), n, steps, p, Push) && RoutedTo(Run(INITIAL, trace), n, p, id, w)
    requires p + 1 < |steps| && QueueKey(w.instanceId) !in Run(INITIAL, trace).store
    ensures trace <= run && Inv(Run(INITIAL, run))
    ensures var s, s', q := Run(INITIAL, trace), Run(INITIAL, run), QueueKey(w.instanceId);
      && OnStep(s', n, steps, p + 1) && Queued(s', n, q) && s'.installed == s.installed
      && q in s'.store && s'.store == s.store[q := s'.store[q]]
  {
    hide Run, Inv, Next, RoutedTo, Underway, QueueKey, Queued;
    StepPushed(Run(INITIAL, trace), n, steps, p, id, w, Advance(n, "", "r", "t"));
    run := Extend(trace, Advance(n, "", "r", "t"));
  }

  lemma FreshWorker(used: set<string>) returns (w: Worker)
    ensures QueueKey(w.instanceId) !in used
  {
    var m := LongerThanAll(used);
    w := Worker("A", seq(m, _ => '0'), None);
    assert |QueueKey(w.instanceId)| >= m;
  }

  /** In any state a key that is neither a definition's nor a queue's is absent or holds a hash. */
  lemma OrdinaryKey(trace: seq<Label>, id: string)
    requires NamespaceOf(id) != Definitions && !IsQueueKey(id)
    ensures id in Run(INITIAL, trace).store ==> Run(INITIAL, trace).store[id].Hash?
  {
    ListsAreQueues(trace);
    ReachableInv(trace);
    hide Run, NamespaceOf, IsQueueKey, CallsOk, Installed, Fresh, Ordered, Hashes, Records;
  }

  /** A routed step with an ordinary id is written and pushed to a new queue. */
  lemma {:induction false} RunWrite(trace: seq<Label>, n: nat, steps: seq<Step>, p: nat, id: string, w: Worker)
    returns (run: seq<Label>)
    requires Underway(Run(INITIAL, trace), n, steps, p, SaveStep) && RoutedTo(Run(INITIAL, trace), n, p, id, w)
    requires id in Run(INITIAL, trace).store ==> Run(INITIAL, trace).store[id].Hash?
    requires p + 1 < |steps| && QueueKey(w.instanceId) !in Run(INITIAL, trace).store && QueueKey(w.instanceId) != id
    ensures trace <= run && Inv(Run(INITIAL, run)) && Run(INITIAL, run).installed == Run(INITIAL, trace).installed
    ensures OnStep(Run(INITIAL, run), n, steps, p + 1) && Queued(Run(INITIAL, run), n, QueueKey(w.instanceId))
    ensures Run(INITIAL, run).store.Keys == Run(INITIAL, trace).store.Keys + {id, QueueKey(w.instanceId)}
  {
    hide Run, Inv, OnStep, Underway, RoutedTo, Queued, QueueKey;
    run := RunSave(trace, n, steps, p, id, w);
    run := RunPush(run, n, steps, p, id, w);
  }

  /** A step with an ordinary id, or none, is routed, written and pushed to a new worker's queue. */
  lemma {:induction false} RunStep(trace: seq<Label>, n: nat, steps: seq<Step>, p: nat, free: string)
    returns (run: seq<Label>, q: string)
    requires OnStep(Run(INITIAL, trace), n, steps, p) && p + 1 < |steps| && steps[p].definition.Some?
    requires NamespaceOf(steps[p].id) != Definitions && !IsQueueKey(steps[p].id)
    ensures trace <= run && Inv(Run(INITIAL, run)) && Tame(Run(INITIAL, trace).installed, Run(INITIAL, run).installed)
    ensures OnStep(Run(INITIAL, run), n, steps, p + 1) && Queued(Run(INITIAL, run), n, q)
    ensures (NamespaceOf(free) == Definitions || IsQueueKey(free)) && free !in Run(INITIAL, trace).store ==>
      free != WorkflowKey(DefinitionName(steps[p].definition.value)) ==> free !in Run(INITIAL, run).store
  {
    hide Run, Inv, OnStep, Underway, RoutedTo, Queued, Harmful, Apart, DefinitionName;
    hide NamespaceOf, IsQueueKey, WorkflowKey, QueueKey, Tame, Pool;
    var name := DefinitionName(steps[p].definition.value);
    var w := FreshWorker(Run(INITIAL, trace).store.Keys + {free});
    q := QueueKey(w.instanceId);
    var id;
    run, id := RunRoute(trace, n, steps, p, w);
    NewQueue(w.instanceId, name, id, steps[p].id);
    OrdinaryKey(run, id);
    run := RunWrite(run, n, steps, p, id, w);
  }

  lemma NewQueue(x: string, name: string, id: string, preset: string)
    requires if preset != "" then id == preset else NamespaceOf(id) == Steps
    requires NamespaceOf(preset) != Definitions && !IsQueueKey(preset)
    ensures NamespaceOf(id) != Definitions && !IsQueueKey(id) && QueueKey(x) != WorkflowKey(name) && QueueKey(x) != id
  {
    assert IsQueueKey(QueueKey(x));
    DefinitionKeys(name);
    if IsQueueKey(id) { QueueKeysAreQueues(id); }
    hide NamespaceOf, QueueKey, WorkflowKey;
  }

  // ----- Orphans -----

  /** The lookup throws, and the items queued so far belong to no instance record. */
  lemma {:induction false} RunThrow(trace: seq<Label>, n: nat, steps: seq<Step>, p: nat, q: string)
    returns (run: seq<Label>)
    requires OnStep(Run(INITIAL, trace), n, steps, p) && Queued(Run(INITIAL, trace), n, q)
    requires steps[p].definition.Some? ==>
      var raw := Get(Run(INITIAL, trace).store, WorkflowKey(DefinitionName(steps[p].definition.value)));
      raw.None? || raw == Some(Malformed)
    ensures trace <= run
    ensures var s, s' := Run(INITIAL, trace), Run(INITIAL, run);
      Orphaned(s', n) && !s'.collided && s'.installed == s.installed
  {
    hide Run, WorkflowKey, Inv, Next, DefinitionName, OnStep, Queued, Orphaned, Get;
    var s := Run(INITIAL, trace);
    var uuid := FreshUuid(s.minted + s.presets);
    run := Extend(trace, Advance(n, uuid, "r", "t"));
    LookupThrows(s, n, steps, p, q, Advance(n, uuid, "r", "t"));
  }

  lemma {:induction false} RunSaveThrow(trace: seq<Label>, n: nat, steps: seq<Step>, p: nat, q: string,
                                          id: string, w: Worker)
    returns (run: seq<Label>)
    requires var s := Run(INITIAL, trace);
      && Underway(s, n, steps, p, SaveStep) && RoutedTo(s, n, p, id, w) && Queued(s, n, q)
      && id in s.store && !s.store[id].Hash?
    ensures trace <= run
    ensures var s, s' := Run(INITIAL, trace), Run(INITIAL, run);
      Orphaned(s', n) && !s'.collided && s'.installed == s.installed
  {
    hide Run, Inv, Next, Underway, RoutedTo, Queued, Orphaned;
    run := Extend(trace, Advance(n, "", "r", "t"));
    SaveThrows(Run(INITIAL, trace), n, steps, p, q, id, w, Advance(n, "", "r", "t"));
  }

  lemma {:induction false} RunPushThrow(trace: seq<Label>, n: nat, steps: seq<Step>, p: nat, q: string,
                                          id: string, w: Worker)
    returns (run: seq<Label>)
    requires var s := Run(INITIAL, trace);
      && Underway(s, n, steps, p, Push) && RoutedTo(s, n, p, id, w) && Queued(s, n, q)
      && QueueKey(w.instanceId) in s.store && !s.store[QueueKey(w.instanceId)].List?
    ensures trace <= run
    ensures var s, s' := Run(INITIAL, trace), Run(INITIAL, run);
      Orphaned(s', n) && !s'.collided && s'.installed == s.installed
  {
    hide Run, Inv, Next, Underway, RoutedTo, Queued, Orphaned, QueueKey;
    run := Extend(trace, Advance(n, "", "r", "t"));
    PushThrows(Run(INITIAL, trace), n, steps, p, q, id, w, Advance(n, "", "r", "t"));
  }

  /** A step that presets the key of its template or definition throws once it is routed. */
  lemma {:induction false} RunBlocked(trace: seq<Label>, n: nat, steps: seq<Step>, p: nat, q: string, name: string)
    returns (run: seq<Label>)
    requires OnStep(Run(INITIAL, trace), n, steps, p) && Queued(Run(INITIAL, trace), n, q)
    requires steps[p].definition.Some? && Blocked(WorkflowKey(name), steps[p])
    ensures trace <= run
    ensures var s, s' := Run(INITIAL, trace), Run(INITIAL, run);
      Orphaned(s', n) && !s'.collided && Tame(s.installed, s'.installed)
  {
    hide Run, Inv, Next, Underway, RoutedTo, Queued, Orphaned, NamespaceOf, IsQueueKey, WorkflowKey, DefinitionName;
    hide Harmful, OnStep, Blocked, Apart;
    var s := Run(INITIAL, trace);
    InRange(s, n, steps, p);
    HelpersAreHarmless(WorkflowKey(name), Worker("", "", None));
    run := Extend(trace, Install(name, Empty));
    HelperInstalled(s, n, name, Empty);
    var s1 := Run(INITIAL, run);
    CallStays(s, s1, n, steps, p);
    StaysQueued(s, s1, n, steps, p, q);
    run := RunBlockedHere(run, n, steps, p, q, name);
    TameTrans(s.installed, s1.installed, Run(INITIAL, run).installed);
    hide Tame;
  }

  lemma {:induction false} RunBlockedHere(trace: seq<Label>, n: nat, steps: seq<Step>, p: nat, q: string, name: string)
    returns (run: seq<Label>)
    requires OnStep(Run(INITIAL, trace), n, steps, p) && Queued(Run(INITIAL, trace), n, q)
    requires steps[p].definition.Some? && Blocked(WorkflowKey(name), steps[p])
    requires Get(Run(INITIAL, trace).store, WorkflowKey(name)) == Some(Empty)
    requires WorkflowKey(name) in Run(INITIAL, trace).store
    ensures trace <= run
    ensures var s, s' := Run(INITIAL, trace), Run(INITIAL, run);
      Orphaned(s', n) && !s'.collided && Tame(s.installed, s'.installed)
  {
    assert steps[p].id != "";
    hide Run, Inv, Next, Underway, RoutedTo, Queued, Orphaned, NamespaceOf, IsQueueKey, WorkflowKey, DefinitionName;
    hide Harmful, OnStep, Apart;
    var w, id := Worker("A", "A", None), "";
    run, id := RunRoute(trace, n, steps, p, w);
    var s1 := Run(INITIAL, run);
    StaysQueued(Run(INITIAL, trace), s1, n, steps, p, q);
    run := RunSaveThrow(run, n, steps, p, q, id, w);
    hide Tame;
  }

  /** Up to the trap everything is skipped but the one step to be pushed. */
  lemma {:induction false} RunToTrap(trace: seq<Label>, n: nat, steps: seq<Step>, name: string, a: nat, b: nat)
    returns (run: seq<Label>, q: string)
    requires OnStep(Run(INITIAL, trace), n, steps, 0) && TrapAt(WorkflowKey(name), steps, a, b)
    requires !Misplaced(WorkflowKey(name), steps[a])
    ensures trace <= run && OnStep(Run(INITIAL, run), n, steps, b) && Queued(Run(INITIAL, run), n, q)
    ensures Tame(Run(INITIAL, trace).installed, Run(INITIAL, run).installed)
  {
    hide Run, Inv, OnStep, Queued, NamespaceOf, IsQueueKey, WorkflowKey, DefinitionName, Harmful, Apart, Blocked, Tame;
    run := RunSkipTo(trace, n, steps, 0, a, "");
    var s1 := Run(INITIAL, run);
    run, q := RunStep(run, n, steps, a, "");
    var s2 := Run(INITIAL, run);
    TameTrans(Run(INITIAL, trace).installed, s1.installed, s2.installed);
    run := RunSkipTo(run, n, steps, a + 1, b, "");
    StaysQueued(s2, Run(INITIAL, run), n, steps, a + 1, q);
    TameTrans(Run(INITIAL, trace).installed, s2.installed, Run(INITIAL, run).installed);
  }

  /** A template with a trap. */
  lemma {:induction false} TrapCanOrphan(trace: seq<Label>, name: string, doc: Doc, a: nat, b: nat)
    returns (run: seq<Label>)
    requires !Run(INITIAL, trace).collided && doc.steps.Some? && TrapAt(WorkflowKey(name), doc.steps.value, a, b)
    requires !Misplaced(WorkflowKey(name), doc.steps.value[a])
    ensures trace <= run
    ensures var s, s' := Run(INITIAL, trace), Run(INITIAL, run);
      && !s'.collided && Orphaned(s', |s.calls|)
      && Tame(s.installed + {(WorkflowKey(name), Parsed(doc))}, s'.installed)
  {
    var steps := doc.steps.value;
    hide Run, Inv, OnStep, Queued, Orphaned, WorkflowKey, DefinitionName, Harmful, Apart, Blocked, Misplaced, Tame;
    var n, q;
    run, n := Begin(trace, name, doc);
    var s1 := Run(INITIAL, run);
    run, q := RunToTrap(run, n, steps, name, a, b);
    var s2 := Run(INITIAL, run);
    if steps[b].definition.None? {
      run := RunThrow(run, n, steps, b, q);
    } else {
      run := RunBlocked(run, n, steps, b, q, name);
      TameTrans(s1.installed, s2.installed, Run(INITIAL, run).installed);
    }
  }

  /** Two steps without ids, defined by the documents `first` and `second`. */
  function Victim(first: string, second: string): Doc {
    Doc(Some([Step("", Some(StepDef("", "", Some(first), "")), map[], ""),
              Step("", Some(StepDef("", "", Some(second), "")), map[], "")]), "", map[], map[], [])
  }

  lemma VictimIs(key: string, first: string, second: string)
    ensures !Harmful(WorkflowKey(key), Parsed(Victim(first, second)))
    ensures var steps := Victim(first, second).steps;
      && steps.Some? && |steps.value| == 2 && steps.value[0].id == steps.value[1].id == ""
      && steps.value[0].definition.Some? && DefinitionName(steps.value[0].definition.value) == first
      && steps.value[1].definition.Some? && DefinitionName(steps.value[1].definition.value) == second
    ensures NamespaceOf("") == Other && !IsQueueKey("")
  {
    var steps := Victim(first, second).steps.value;
    if IsQueueKey("") { QueueKeysAreQueues(""); }
    GeneratedIsNeither(key, steps[0]);
    GeneratedIsNeither(key, steps[1]);
    hide NamespaceOf, IsQueueKey, WorkflowKey, DefinitionName, Blocked, Misplaced;
  }

  /** A call on a harmless template that has pushed its first step and waits at its second. */
  lemma {:induction false} Bait(trace: seq<Label>, name: string, first: string, second: string, free: string)
    returns (run: seq<Label>, n: nat, q: string)
    requires !Run(INITIAL, trace).collided
    ensures trace <= run && n == |Run(INITIAL, trace).calls| < |Run(INITIAL, run).calls|
    ensures Tame(Run(INITIAL, trace).installed, Run(INITIAL, run).installed)
    ensures Victim(first, second).steps.Some?
    ensures OnStep(Run(INITIAL, run), n, Victim(first, second).steps.value, 1) && Queued(Run(INITIAL, run), n, q)
    ensures (NamespaceOf(free) == Definitions || IsQueueKey(free)) && free !in Run(INITIAL, trace).store ==>
      free != WorkflowKey(name) && free != WorkflowKey(first) ==> free !in Run(INITIAL, run).store
  {
    VictimIs(name, first, second);
    hide Victim, NamespaceOf, IsQueueKey, WorkflowKey, DefinitionName, Run, Inv, OnStep, Queued, Harmful, Apart;
    var doc := Victim(first, second);
    run, n := Begin(trace, name, doc);
    var s1 := Run(INITIAL, run);
    TameOne(Run(INITIAL, trace).installed, (WorkflowKey(name), Parsed(doc)));
    run, q := RunStep(run, n, doc.steps.value, 0, free);
    TameTrans(Run(INITIAL, trace).installed, s1.installed, Run(INITIAL, run).installed);
    InRange(Run(INITIAL, run), n, doc.steps.value, 1);
    hide Tame;
  }

  lemma InRange(s: State, n: nat, steps: seq<Step>, p: nat)
    requires OnStep(s, n, steps, p)
    ensures n < |s.calls| && !s.collided
  {
    hide NamespaceOf;
  }

  lemma TameOne(a: set<(string, Raw)>, p: (string, Raw))
    requires !Harmful(p.0, p.1)
    ensures Tame(a, a + {p})
  {
    hide Harmful;
  }

  /** Malformed text under a definition key stops a call that has already pushed. */
  lemma {:induction false} TextCanOrphan(trace: seq<Label>, name: string) returns (run: seq<Label>)
    requires !Run(INITIAL, trace).collided
    ensures trace <= run
    ensures var s, s' := Run(INITIAL, trace), Run(INITIAL, run);
      && !s'.collided && Orphaned(s', |s.calls|) && Tame(s.installed + {(WorkflowKey(name), Malformed)}, s'.installed)
  {
    VictimIs("", "", name);
    assert PresetIds(Malformed) == {};
    hide Victim, NamespaceOf, IsQueueKey, WorkflowKey, DefinitionName, Run, Inv, OnStep;
    hide Queued, Harmful, Next, PresetIds, Orphaned;
    var steps := Victim("", name).steps.value;
    var n, q;
    run, n, q := Bait(trace, "", "", name, "");
    var s1 := Run(INITIAL, run);
    InRange(s1, n, steps, 1);
    PlainInstalled(s1, n, name, Malformed);
    run := Extend(run, Install(name, Malformed));
    var s2 := Run(INITIAL, run);
    CallStays(s1, s2, n, steps, 1);
    StaysQueued(s1, s2, n, steps, 1, q);
    run := RunThrow(run, n, steps, 1, q);
    hide Apart;
    TameWith(Run(INITIAL, trace).installed, s1.installed, (WorkflowKey(name), Malformed));
  }

  lemma TameWith(a: set<(string, Raw)>, b: set<(string, Raw)>, p: (string, Raw))
    requires Tame(a, b)
    ensures Tame(a + {p}, b + {p})
  {
    hide Harmful;
  }

  /** A call at its first step skips to a misplaced one, and writes its hash under that key. */
  lemma {:induction false} RunPollute(trace: seq<Label>, m: nat, steps: seq<Step>, j: nat) returns (run: seq<Label>)
    requires OnStep(Run(INITIAL, trace), m, steps, 0) && j < |steps| && Defined(steps, j + 1)
    requires var id := steps[j].id;
      && id !in Run(INITIAL, trace).store && id != "" && NamespaceOf(id) != Instances
      && id != WorkflowKey(DefinitionName(steps[j].definition.value))
    ensures trace <= run && Calm(Run(INITIAL, trace), Run(INITIAL, run), m)
    ensures steps[j].id in Run(INITIAL, run).store && Run(INITIAL, run).store[steps[j].id].Hash?
  {
    hide Run, Inv, OnStep, Underway, RoutedTo, NamespaceOf, WorkflowKey, DefinitionName, Harmful, Calm, Pool;
    var s, id, w := Run(INITIAL, trace), "", Worker("A", "A", None);
    run := RunSkipTo(trace, m, steps, 0, j, steps[j].id);
    var s1 := Run(INITIAL, run);
    run, id := RunRoute(run, m, steps, j, w);
    var s2 := Run(INITIAL, run);
    run := RunSave(run, m, steps, j, id, w);
    CalmSegment(s2, Run(INITIAL, run), m);
    CalmTrans(s, s1, s2, m);
    CalmTrans(s, s2, Run(INITIAL, run), m);
  }

  /** A call on a template with a misplaced id writes that step's hash under the key. */
  lemma {:induction false} RunMisplaced(trace: seq<Label>, name: string, doc: Doc, j: nat)
    returns (run: seq<Label>, m: nat)
    requires !Run(INITIAL, trace).collided && doc.steps.Some? && MisplacedAt(WorkflowKey(name), doc.steps.value, j)
    requires doc.steps.value[j].id !in Run(INITIAL, trace).store
    ensures trace <= run && m == |Run(INITIAL, trace).calls| && Apart(Run(INITIAL, trace), Run(INITIAL, run), m)
    ensures Tame(Run(INITIAL, trace).installed + {(WorkflowKey(name), Parsed(doc))}, Run(INITIAL, run).installed)
    ensures var s', key := Run(INITIAL, run), doc.steps.value[j].id; key in s'.store && s'.store[key].Hash?
  {
    MisplacedKey(WorkflowKey(name), doc.steps.value[j]);
    hide Run, Inv, OnStep, NamespaceOf, IsQueueKey, WorkflowKey, DefinitionName, Apart, Misplaced, Tame;
    run, m := Begin(trace, name, doc);
    var s1 := Run(INITIAL, run);
    run := RunPollute(run, m, doc.steps.value, j);
    ApartTrans(Run(INITIAL, trace), s1, Run(INITIAL, run), m);
  }

  lemma MisplacedKey(key: string, step: Step)
    requires Misplaced(key, step) && step.definition.Some?
    ensures step.id != "" && step.id != key && step.id != WorkflowKey(DefinitionName(step.definition.value))
    ensures NamespaceOf(step.id) != Instances && NamespaceOf(step.id) != Steps
    ensures NamespaceOf(step.id) == Definitions || IsQueueKey(step.id)
  {
    assert NamespaceOf("") == Other;
    if IsQueueKey(step.id) { QueueKeysAreQueues(step.id); }
    hide NamespaceOf, IsQueueKey, WorkflowKey, DefinitionName;
  }

  lemma {:induction false} TripAtPush(trace: seq<Label>, n: nat, steps: seq<Step>, q: string, id: string, w: Worker)
    returns (run: seq<Label>)
    requires Underway(Run(INITIAL, trace), n, steps, 1, SaveStep) && RoutedTo(Run(INITIAL, trace), n, 1, id, w)
    requires Queued(Run(INITIAL, trace), n, q) && NamespaceOf(id) == Steps
    requires var s := Run(INITIAL, trace); QueueKey(w.instanceId) in s.store && s.store[QueueKey(w.instanceId)].Hash?
    ensures trace <= run
    ensures var s, s' := Run(INITIAL, trace), Run(INITIAL, run);
      Orphaned(s', n) && !s'.collided && s'.installed == s.installed
  {
    hide Run, Inv, Underway, RoutedTo, Queued, Orphaned, NamespaceOf, IsQueueKey, QueueKey, Apart;
    StepKeyIsOrdinary(id, w.instanceId);
    OrdinaryKey(trace, id);
    run := RunSave(trace, n, steps, 1, id, w);
    StillQueued(Run(INITIAL, trace), Run(INITIAL, run), n, steps, 1, q);
    run := RunPushThrow(run, n, steps, 1, q, id, w);
  }

  /** A call that waits at its last step, whose worker's queue key holds a hash, throws at its push. */
  lemma {:induction false} TripOnQueue(trace: seq<Label>, n: nat, steps: seq<Step>, q: string, x: string)
    returns (run: seq<Label>)
    requires OnStep(Run(INITIAL, trace), n, steps, 1) && Queued(Run(INITIAL, trace), n, q)
    requires |steps| > 1 && steps[1].definition.Some? && steps[1].id == ""
    requires var s := Run(INITIAL, trace); QueueKey(x) in s.store && s.store[QueueKey(x)].Hash?
    ensures trace <= run
    ensures var s, s' := Run(INITIAL, trace), Run(INITIAL, run);
      Orphaned(s', n) && !s'.collided && Tame(s.installed, s'.installed)
  {
    hide Run, Inv, OnStep, Underway, RoutedTo, Queued, Orphaned, NamespaceOf;
    hide IsQueueKey, WorkflowKey, DefinitionName, QueueKey;
    hide Harmful, Apart, Tame, Pool;
    var id, w := "", Worker("A", x, None);
    QueueIsNoDefinition(x, DefinitionName(steps[1].definition.value));
    run, id := RunRoute(trace, n, steps, 1, w);
    StaysQueued(Run(INITIAL, trace), Run(INITIAL, run), n, steps, 1, q);
    run := TripAtPush(run, n, steps, q, id, w);
  }

  lemma QueueIsNoDefinition(x: string, name: string)
    ensures QueueKey(x) != WorkflowKey(name)
  {
    KeyNamespaces(x);
    KeyNamespaces(name);
  }

  lemma StepKeyIsOrdinary(id: string, x: string)
    requires NamespaceOf(id) == Steps
    ensures NamespaceOf(id) != Definitions && !IsQueueKey(id) && id != QueueKey(x)
  {
    if IsQueueKey(id) { QueueKeysAreQueues(id); }
    KeyNamespaces(x);
  }

  lemma StillQueued(s: State, s': State, n: nat, steps: seq<Step>, p: nat, q: string)
    requires Apart(s, s', n) && Underway(s, n, steps, p, SaveStep) && Queued(s, n, q)
    ensures Queued(s', n, q)
  {
    hide OfInstance;
  }

  /** A hash under the key that the call's last step reads or pushes to stops the call. */
  lemma {:induction false} Trip(trace: seq<Label>, n: nat, steps: seq<Step>, q: string, key: string)
    returns (run: seq<Label>)
    requires OnStep(Run(INITIAL, trace), n, steps, 1) && Queued(Run(INITIAL, trace), n, q)
    requires |steps| > 1 && steps[1].definition.Some? && steps[1].id == ""
    requires key in Run(INITIAL, trace).store && Run(INITIAL, trace).store[key].Hash?
    requires WorkflowKey(DefinitionName(steps[1].definition.value)) == key || IsQueueKey(key)
    ensures trace <= run
    ensures var s, s' := Run(INITIAL, trace), Run(INITIAL, run);
      Orphaned(s', n) && !s'.collided && Tame(s.installed, s'.installed)
  {
    hide Run, Inv, OnStep, Queued, Orphaned, WorkflowKey, DefinitionName, QueueKey, Harmful;
    if WorkflowKey(DefinitionName(steps[1].definition.value)) == key {
      run := RunThrow(trace, n, steps, 1, q);
    } else {
      var x :| key == QueueKey(x);
      run := TripOnQueue(trace, n, steps, q, x);
    }
  }

  /** A template whose hash write takes a free key stops a call of another template. */
  lemma {:induction false} MisplacedCanOrphan(trace: seq<Label>, name: string, doc: Doc, j: nat) returns (run: seq<Label>)
    requires !Run(INITIAL, trace).collided && doc.steps.Some? && MisplacedAt(WorkflowKey(name), doc.steps.value, j)
    requires doc.steps.value[j].id !in Run(INITIAL, trace).store
    ensures trace <= run
    ensures var s, s' := Run(INITIAL, trace), Run(INITIAL, run);
      && !s'.collided && Orphaned(s', |s.calls|)
      && Tame(s.installed + {(WorkflowKey(name), Parsed(doc))}, s'.installed)
  {
    var key := doc.steps.value[j].id;
    var second := if NamespaceOf(key) == Definitions then key[|"workflow:"|..] else key;
    MisplacedKey(WorkflowKey(name), doc.steps.value[j]);
    assert |WorkflowKey(key)| > |key|;
    assert NamespaceOf(key) == Definitions ==> WorkflowKey(second) == key;
    VictimIs(key, key, second);
    hide Run, Inv, OnStep, Queued, Orphaned, NamespaceOf, IsQueueKey, WorkflowKey, DefinitionName;
    hide Harmful, Apart, Tame, Victim, MisplacedAt;
    var n, q, m;
    var steps := Victim(key, second).steps.value;
    run, n, q := Bait(trace, key, key, second, key);
    var s1 := Run(INITIAL, run);
    InRange(s1, n, steps, 1);
    run, m := RunMisplaced(run, name, doc, j);
    var s2 := Run(INITIAL, run);
    StaysUnderway(s1, s2, m, n, steps, 1, q);
    run := Trip(run, n, steps, q, key);
    TameAll(Run(INITIAL, trace).installed, s1.installed, s2.installed, Run(INITIAL, run).installed,
            (WorkflowKey(name), Parsed(doc)));
  }

  lemma TameAll(a: set<(string, Raw)>, b: set<(string, Raw)>, c: set<(string, Raw)>, d: set<(string, Raw)>,
                p: (string, Raw))
    requires Tame(a, b) && Tame(b + {p}, c) && Tame(c, d)
    ensures Tame(a + {p}, d)
  {
    hide Harmful;
  }

  // ----- Exactly the harmful documents -----

  /**
   * A harmful document, installed in any reachable state with fresh uuids in which the keys its
   * misplaced steps take are free, has a continuation that leaves an orphan.
   */
  lemma {:induction false} HarmfulCanOrphan(trace: seq<Label>, name: string, raw: Raw) returns (run: seq<Label>)
    requires !Run(INITIAL, trace).collided && Harmful(WorkflowKey(name), raw)
    requires raw.Parsed? && raw.doc.steps.Some? ==>
      forall j: nat :: MisplacedAt(WorkflowKey(name), raw.doc.steps.value, j) ==>
        raw.doc.steps.value[j].id !in Run(INITIAL, trace).store
    ensures trace <= run
    ensures var s, s' := Run(INITIAL, trace), Run(INITIAL, run);
      && !s'.collided && Orphaned(s', |s.calls|) && Tame(s.installed + {(WorkflowKey(name), raw)}, s'.installed)
  {
    hide Run, Orphaned, Tame, WorkflowKey, Misplaced, Blocked;
    if raw.Malformed? {
      run := TextCanOrphan(trace, name);
    } else {
      var steps, key := raw.doc.steps.value, WorkflowKey(name);
      if j: nat :| MisplacedAt(key, steps, j) {
        run := MisplacedCanOrphan(trace, name, raw.doc, j);
      } else {
        var a: nat, b: nat :| TrapAt(key, steps, a, b);
        assert !MisplacedAt(key, steps, a);
        run := TrapCanOrphan(trace, name, raw.doc, a, b);
      }
    }
  }

  /** Besides harmless documents nothing but `raw`, under `name`, was installed; uuids were fresh. */
  ghost predicate OnlyHarm(run: seq<Label>, name: string, raw: Raw) {
    !Run(INITIAL, run).collided && Tame({(WorkflowKey(name), raw)}, Run(INITIAL, run).installed)
  }

  /** A document can leave an orphan among otherwise harmless ones iff it is harmful. */
  lemma {:induction false} OrphansIff(name: string, raw: Raw)
    ensures (exists run, i :: OnlyHarm(run, name, raw) && Orphaned(Run(INITIAL, run), i)) <==>
            Harmful(WorkflowKey(name), raw)
  {
    if Harmful(WorkflowKey(name), raw) {
      assert Run(INITIAL, []) == INITIAL;
      hide Harmful, Orphaned, WorkflowKey, MisplacedAt;
      var run := HarmfulCanOrphan([], name, raw);
      assert INITIAL.installed + {(WorkflowKey(name), raw)} == {(WorkflowKey(name), raw)};
      assert OnlyHarm(run, name, raw) && Orphaned(Run(INITIAL, run), 0);
    } else {
      forall run, i: nat | OnlyHarm(run, name, raw) ensures !Orphaned(Run(INITIAL, run), i) {
        hide Run, Harmful, ThrewAfterPush, WorkflowKey;
        NoOrphans(run, i);
      }
    }
  }
}
