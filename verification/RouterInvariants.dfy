/** What every interleaving of calls, workers and administrators keeps. */
module RouterInvariants {
  import opened Prelude
  import opened WorkerSelection
  import opened RouterModel
  import opened RouterCalls

  /** The step of a call being advanced, with the facts all the lemmas below start from. */
  lemma AdvanceIs(s: State, l: Label) returns (e: Effect)
    requires Sane(s) && l.Advance? && l.call < |s.calls|
    ensures e == AdvanceStep(s, l.call, l.uuid, l.rid, l.now)
    ensures Next(s, l) == e.rest.(calls := s.calls[l.call := e.call])
  {
    e := AdvanceStep(s, l.call, l.uuid, l.rid, l.now);
  }

  // ----- The shape of each segment -----

  lemma FetchKeepsStore(s: State, c: Call, uuid: string, rid: string, now: string)
    requires c.phase.Fetch? && InLoop(c)
    ensures var r := FetchStep(s, c, uuid, rid, now).rest;
      r == s || r == Mint(s, InstanceKey(uuid))
  {
    hide InstanceData, InstanceMetadata;
  }

  lemma LookupKeepsStore(s: State, c: Call, uuid: string)
    requires c.phase.Lookup? && InLoop(c)
    ensures LookupStep(s, c, uuid).rest == if c.steps[c.pos].id != "" then s else Mint(s, StepKey(uuid))
  {
    hide Traced;
  }

  /** A lookup either notes the step's worker list or leaves it for good. */
  lemma LookupShape(s: State, c: Call, uuid: string)
    requires c.phase.Lookup? && InLoop(c)
    ensures var c', c1 := LookupStep(s, c, uuid).call, Named(c, uuid);
      || (c'.phase.Failed? && c' == c1.(phase := c'.phase))
      || (c1.steps[c.pos].definition.Some? && c' == Skip(c1))
      || (c1.steps[c.pos].definition.Some? && exists doc: Doc ::
            && Get(s.store, WorkflowKey(DefinitionName(c1.steps[c.pos].definition.value))) == Some(Parsed(doc))
            && doc.workers != [] && c' == Assign(c1, doc.workers))
  {
    hide Skip, Assign, StepKey, DefinitionName, WorkflowKey;
  }

  /** The segments after a write keep everything but the store, its history and the place in the loop. */
  ghost predicate WritesOnly(s: State, c: Call, e: Effect) {
    && e.call == c.(phase := e.call.phase, pos := e.call.pos)
    && e.rest == s.(store := e.rest.store, pushed := e.rest.pushed, writer := e.rest.writer)
    && (forall k :: k in e.rest.store && e.rest.store[k].Text? ==> k in s.store && e.rest.store[k] == s.store[k])
  }

  lemma SaveStepWrites(s: State, i: nat, c: Call)
    requires c.phase.SaveStep? && InLoop(c)
    ensures WritesOnly(s, c, SaveStepStep(s, i, c))
  {
    hide StepFields;
  }

  lemma PushWrites(s: State, c: Call)
    requires c.phase.Push? && InLoop(c)
    ensures WritesOnly(s, c, PushStep(s, c))
  {
    hide QueueKey, Select;
  }

  lemma SaveInstanceWrites(s: State, c: Call)
    requires c.phase.SaveInstance?
    ensures WritesOnly(s, c, SaveInstanceStep(s, c))
  {
    hide InstanceFields;
  }

  lemma {:induction false} AdvanceWrites(s: State, i: nat, uuid: string, rid: string, now: string)
    requires Sane(s) && i < |s.calls| && !s.calls[i].phase.Fetch? && !s.calls[i].phase.Lookup?
    ensures WritesOnly(s, s.calls[i], AdvanceStep(s, i, uuid, rid, now))
  {
    hide SaveStepStep, PushStep, SaveInstanceStep;
    var c := s.calls[i];
    match c.phase
    case SaveStep => SaveStepWrites(s, i, c);
    case Push => PushWrites(s, c);
    case SaveInstance => SaveInstanceWrites(s, c);
    case _ =>
  }

  // ----- Queues are first in, first out -----

  ghost predicate Fifo(s: State) {
    && (forall q :: At(s.popped, q) + Reverse(Queue(s.store, q)) == At(s.pushed, q))
    && (forall k :: k in s.store && s.store[k].List? ==> NamespaceOf(k) == Queues)
    && (forall k :: k in s.store && s.store[k].Text? ==> NamespaceOf(k) == Definitions)
  }

  /** Between two stores only hashes changed. */
  ghost predicate OnlyHashes(a: Store, b: Store) {
    && (forall k :: k in b && !b[k].Hash? ==> k in a && a[k] == b[k])
    && (forall k :: k in a && !a[k].Hash? ==> k in b && b[k] == a[k])
  }

  ghost predicate Quiet(s: State, s': State) {
    s'.pushed == s.pushed && s'.popped == s.popped && OnlyHashes(s.store, s'.store)
  }

  lemma QuietKeepsFifo(s: State, s': State)
    requires Fifo(s) && Quiet(s, s')
    ensures Fifo(s')
  {
    hide NamespaceOf;
    forall q ensures At(s'.popped, q) + Reverse(Queue(s'.store, q)) == At(s'.pushed, q) {
      assert Queue(s'.store, q) == Queue(s.store, q);
    }
  }

  lemma HSetOnlyHashes(store: Store, key: string, fields: map<string, Json>)
    requires HSet(store, key, fields).Some?
    ensures OnlyHashes(store, HSet(store, key, fields).value)
  {
  }

  lemma SaveStepQuiet(s: State, i: nat, c: Call)
    requires c.phase.SaveStep? && InLoop(c)
    ensures Quiet(s, SaveStepStep(s, i, c).rest)
  {
    hide StepFields;
    var step := c.steps[c.pos];
    if HSet(s.store, step.id, StepFields(step)).Some? { HSetOnlyHashes(s.store, step.id, StepFields(step)); }
  }

  lemma SaveInstanceQuiet(s: State, c: Call)
    requires c.phase.SaveInstance?
    ensures Quiet(s, SaveInstanceStep(s, c).rest)
  {
    hide InstanceFields;
    if HSet(s.store, c.wid, InstanceFields(c)).Some? { HSetOnlyHashes(s.store, c.wid, InstanceFields(c)); }
  }

  /** Every segment except the push leaves queues and definitions alone. */
  lemma {:induction false} AdvanceQuiet(s: State, i: nat, uuid: string, rid: string, now: string)
    requires Sane(s) && i < |s.calls| && !s.calls[i].phase.Push?
    ensures Quiet(s, AdvanceStep(s, i, uuid, rid, now).rest)
  {
    hide FetchStep, LookupStep, SaveStepStep, PushStep, SaveInstanceStep;
    var c := s.calls[i];
    match c.phase
    case Fetch => FetchKeepsStore(s, c, uuid, rid, now);
    case Lookup => LookupKeepsStore(s, c, uuid);
    case SaveStep => SaveStepQuiet(s, i, c);
    case SaveInstance => SaveInstanceQuiet(s, c);
    case _ =>
  }

  lemma {:induction false} PopKeepsFifo(s: State, queue: string)
    requires Fifo(s)
    ensures Fifo(PopStep(s, queue))
  {
    hide NamespaceOf;
    var s' := PopStep(s, queue);
    forall q ensures At(s'.popped, q) + Reverse(Queue(s'.store, q)) == At(s'.pushed, q) { PopAt(s, queue, q); }
  }

  lemma PopShape(s: State, queue: string, q: string)
    requires Queue(s.store, queue) != []
    ensures var s', items := PopStep(s, queue), Queue(s.store, queue);
      && s'.popped == s.popped[queue := At(s.popped, queue) + [items[|items| - 1]]] && s'.pushed == s.pushed
      && Queue(s'.store, q) == if q == queue then items[..|items| - 1] else Queue(s.store, q)
  {
  }

  lemma PopAt(s: State, queue: string, q: string)
    requires At(s.popped, q) + Reverse(Queue(s.store, q)) == At(s.pushed, q)
    ensures var s' := PopStep(s, queue); At(s'.popped, q) + Reverse(Queue(s'.store, q)) == At(s'.pushed, q)
  {
    var items := Queue(s.store, queue);
    if items != [] {
      PopShape(s, queue, q);
      hide PopStep;
      if q == queue {
        ReverseFromTail(items);
        hide Reverse, Queue;
        MoveOver(At(s.popped, q), items[|items| - 1], Reverse(items[..|items| - 1]));
      }
    }
  }

  lemma LPushKeepsFifo(s: State, s': State, queue: string, item: Item)
    requires Fifo(s) && NamespaceOf(queue) == Queues
    requires LPush(s.store, queue, item) == Some(s'.store)
    requires s'.popped == s.popped && s'.pushed == s.pushed[queue := At(s.pushed, queue) + [item]]
    ensures Fifo(s')
  {
    hide NamespaceOf;
    forall q ensures At(s'.popped, q) + Reverse(Queue(s'.store, q)) == At(s'.pushed, q) {
      LPushAt(s, s', queue, item, q);
    }
  }

  lemma LPushAt(s: State, s': State, queue: string, item: Item, q: string)
    requires At(s.popped, q) + Reverse(Queue(s.store, q)) == At(s.pushed, q)
    requires LPush(s.store, queue, item) == Some(s'.store)
    requires s'.popped == s.popped && s'.pushed == s.pushed[queue := At(s.pushed, queue) + [item]]
    ensures At(s'.popped, q) + Reverse(Queue(s'.store, q)) == At(s'.pushed, q)
  {
    if q == queue {
      assert Queue(s'.store, q) == [item] + Queue(s.store, q);
      assert Queue(s'.store, q)[1..] == Queue(s.store, q);
      assert At(s.popped, q) + (Reverse(Queue(s.store, q)) + [item]) == At(s.pushed, q) + [item];
    } else {
      assert At(s'.pushed, q) == At(s.pushed, q) && Queue(s'.store, q) == Queue(s.store, q);
    }
  }

  lemma PushKeepsFifo(s: State, c: Call)
    requires c.phase.Push? && InLoop(c) && Fifo(s)
    ensures Fifo(PushStep(s, c).rest)
  {
    hide NamespaceOf, Fifo;
    var instanceId := Select(c.seen[c.pos]).instanceId;
    var item := Item(c.wid, c.steps[c.pos].id);
    KeyNamespaces(instanceId);
    if LPush(s.store, QueueKey(instanceId), item).Some? {
      LPushKeepsFifo(s, PushStep(s, c).rest, QueueKey(instanceId), item);
    }
  }

  lemma InstallKeepsFifo(s: State, name: string, raw: Raw)
    requires Fifo(s)
    ensures Fifo(InstallStep(s, name, raw))
  {
    hide NamespaceOf;
    KeyNamespaces(name);
    var s' := InstallStep(s, name, raw);
    forall q ensures At(s'.popped, q) + Reverse(Queue(s'.store, q)) == At(s'.pushed, q) {
      assert Queue(s'.store, q) == Queue(s.store, q);
    }
  }

  lemma {:induction false} NextKeepsFifo(s: State, l: Label)
    requires Sane(s) && Fifo(s)
    ensures Fifo(Next(s, l))
  {
    hide NamespaceOf;
    var s' := Next(s, l);
    match l
    case Install(name, raw) => InstallKeepsFifo(s, name, raw);
    case Start(_, _) => QuietKeepsFifo(s, s');
    case Pop(queue) => PopKeepsFifo(s, queue);
    case Advance(i, uuid, rid, now) =>
      if i < |s.calls| {
        var e := AdvanceIs(s, l);
        if s.calls[i].phase.Push? { PushKeepsFifo(s, s.calls[i]); }
        else {
          AdvanceQuiet(s, i, uuid, rid, now);
          QuietKeepsFifo(s, e.rest);
        }
        QuietKeepsFifo(e.rest, s');
      }
  }

  // ----- Documents read were installed -----

  /** Some document installed under the step's definition key lists exactly these workers. */
  ghost predicate Listed(s: State, d: StepDef, workers: seq<Worker>) {
    exists doc :: (WorkflowKey(DefinitionName(d)), Parsed(doc)) in s.installed && doc.workers == workers
  }

  ghost predicate Reads(s: State, c: Call) {
    && (c.wid != "" ==> (WorkflowKey(c.event), Parsed(c.template)) in s.installed)
    && (forall j :: 0 <= j < |c.seen| && j < |c.steps| && c.seen[j] != [] ==>
          c.steps[j].definition.Some? && Listed(s, c.steps[j].definition.value, c.seen[j]))
  }

  ghost predicate Installed(s: State) {
    && (forall k :: k in s.store && s.store[k].Text? ==> (k, s.store[k].raw) in s.installed)
    && (forall p :: p in s.installed ==> PresetIds(p.1) <= s.presets)
    && (forall i :: 0 <= i < |s.calls| ==> Reads(s, s.calls[i]))
  }

  lemma FetchReads(s: State, c: Call, uuid: string, rid: string, now: string)
    requires c.phase.Fetch? && InLoop(c) && Installed(s) && Reads(s, c)
    ensures Reads(s, FetchStep(s, c, uuid, rid, now).call)
  {
    hide InstanceData, InstanceMetadata, InstanceKey;
    var key := WorkflowKey(c.event);
    if Get(s.store, key).Some? && Get(s.store, key).value.Parsed? {
      assert key in s.store;
      assert (key, s.store[key].raw) in s.installed;
    }
  }

  lemma {:induction false} LookupReads(s: State, c: Call, uuid: string)
    requires c.phase.Lookup? && InLoop(c) && Installed(s) && Reads(s, c)
    ensures Reads(s, LookupStep(s, c, uuid).call)
  {
    LookupShape(s, c, uuid);
    hide LookupStep, Traced, StepKey, DefinitionName, WorkflowKey, Listed;
    var c1, c' := Named(c, uuid), LookupStep(s, c, uuid).call;
    assert c1.seen == c.seen && forall j :: 0 <= j < |c.steps| ==> c1.steps[j].definition == c.steps[j].definition;
    assert Reads(s, c1);
    if |c'.seen| > |c.seen| && c'.seen[c.pos] != [] {
      LookupListed(s, c, uuid);
    }
  }

  lemma LookupListed(s: State, c: Call, uuid: string)
    requires c.phase.Lookup? && InLoop(c) && Installed(s)
    requires var c' := LookupStep(s, c, uuid).call; |c'.seen| > |c.seen| && c'.seen[c.pos] != []
    ensures c.steps[c.pos].definition.Some?
    ensures Listed(s, c.steps[c.pos].definition.value, LookupStep(s, c, uuid).call.seen[c.pos])
  {
    LookupShape(s, c, uuid);
    hide LookupStep, Traced, StepKey, DefinitionName, WorkflowKey, Reads;
    var key := WorkflowKey(DefinitionName(c.steps[c.pos].definition.value));
    assert (key, Parsed(s.store[key].raw.doc)) in s.installed;
  }

  lemma {:induction false} AdvanceReads(s: State, i: nat, uuid: string, rid: string, now: string)
    requires Sane(s) && i < |s.calls| && Installed(s)
    ensures Reads(s, AdvanceStep(s, i, uuid, rid, now).call)
  {
    var c := s.calls[i];
    assert Reads(s, c) && InLoop(c);
    hide FetchStep, LookupStep, Installed, InLoop, Listed;
    match c.phase
    case Fetch => FetchReads(s, c, uuid, rid, now);
    case Lookup => LookupReads(s, c, uuid);
    case _ =>
      AdvanceWrites(s, i, uuid, rid, now);
      hide AdvanceStep;
  }

  lemma ReadsMonotone(s: State, s': State, c: Call)
    requires Reads(s, c) && s.installed <= s'.installed
    ensures Reads(s', c)
  {
    forall j | 0 <= j < |c.seen| && j < |c.steps| && c.seen[j] != []
      ensures c.steps[j].definition.Some? && Listed(s', c.steps[j].definition.value, c.seen[j])
    {
      assert Listed(s, c.steps[j].definition.value, c.seen[j]);
    }
  }

  ghost predicate DocumentsKept(s: State, s': State) {
    && s'.installed == s.installed && s'.presets == s.presets && s'.stray == s.stray
    && forall k :: k in s'.store && s'.store[k].Text? ==> k in s.store && s'.store[k] == s.store[k]
  }

  lemma MintKeepsDocuments(s: State, id: string)
    ensures DocumentsKept(s, s) && DocumentsKept(s, Mint(s, id))
  {
  }

  lemma WritesKeepDocuments(s: State, c: Call, e: Effect)
    requires WritesOnly(s, c, e)
    ensures DocumentsKept(s, e.rest)
  {
  }

  /** Segments never touch the installed documents, the presets, or the text keys. */
  lemma {:induction false} AdvanceKeepsDocuments(s: State, i: nat, uuid: string, rid: string, now: string)
    requires Sane(s) && i < |s.calls|
    ensures DocumentsKept(s, AdvanceStep(s, i, uuid, rid, now).rest)
  {
    var c := s.calls[i];
    assert InLoop(c);
    hide FetchStep, LookupStep, InLoop, Mint, DocumentsKept, WritesOnly;
    MintKeepsDocuments(s, if c.phase.Fetch? then InstanceKey(uuid) else StepKey(uuid));
    if c.phase.Fetch? {
      FetchKeepsStore(s, c, uuid, rid, now);
    } else if c.phase.Lookup? {
      LookupKeepsStore(s, c, uuid);
    } else {
      AdvanceWrites(s, i, uuid, rid, now);
      WritesKeepDocuments(s, c, AdvanceStep(s, i, uuid, rid, now));
      hide AdvanceStep;
    }
  }

  lemma InstallKeepsInstalled(s: State, name: string, raw: Raw)
    requires Sane(s) && Installed(s)
    ensures Installed(InstallStep(s, name, raw))
  {
    hide PresetIds;
    var s' := InstallStep(s, name, raw);
    forall i | 0 <= i < |s'.calls| ensures Reads(s', s'.calls[i]) {
      ReadsMonotone(s, s', s.calls[i]);
    }
  }

  lemma {:induction false} NextKeepsInstalled(s: State, l: Label)
    requires Sane(s) && CallsOk(s) && Installed(s)
    ensures Installed(Next(s, l))
  {
    var s' := Next(s, l);
    hide AdvanceStep, InstallStep, CallsOk, Listed, PresetIds, Sane;
    if l.Install? {
      InstallKeepsInstalled(s, l.name, l.raw);
    } else if l.Advance? && l.call < |s.calls| {
      AdvanceKeepsInstalled(s, l);
    } else {
      DocumentsUntouched(s, l);
      hide Next, Reads;
      forall i | 0 <= i < |s'.calls| ensures Reads(s', s'.calls[i]) {
        if i < |s.calls| { ReadsMonotone(s, s', s.calls[i]); } else { NewCallReads(s', s'.calls[i]); }
      }
    }
  }

  lemma NewCallReads(s: State, c: Call)
    requires c.seen == [] && c.wid == ""
    ensures Reads(s, c)
  {
  }

  lemma DocumentsUntouched(s: State, l: Label)
    requires Sane(s) && !l.Install? && !(l.Advance? && l.call < |s.calls|)
    ensures var s' := Next(s, l);
      && s'.installed == s.installed && s'.presets == s.presets && |s.calls| <= |s'.calls|
      && (forall k :: k in s'.store && s'.store[k].Text? ==> k in s.store && s'.store[k] == s.store[k])
      && (forall i :: 0 <= i < |s.calls| ==> s'.calls[i] == s.calls[i])
      && forall i :: |s.calls| <= i < |s'.calls| ==> s'.calls[i].seen == [] && s'.calls[i].wid == ""
  {
    hide AdvanceStep, PresetIds, InstallStep;
  }

  lemma {:induction false} AdvanceKeepsInstalled(s: State, l: Label)
    requires Sane(s) && Installed(s) && l.Advance? && l.call < |s.calls|
    ensures Installed(Next(s, l))
  {
    var s' := Next(s, l);
    AdvanceKeepsDocuments(s, l.call, l.uuid, l.rid, l.now);
    AdvanceReads(s, l.call, l.uuid, l.rid, l.now);
    var e := AdvanceIs(s, l);
    hide AdvanceStep, Next, Sane, PresetIds, Reads;
    forall i | 0 <= i < |s'.calls| ensures Reads(s', s'.calls[i]) { ReadsMonotone(s, s', s'.calls[i]); }
  }

  // ----- Generated ids -----

  /** Step `j` carries an id generated by this call. */
  predicate Generated(c: Call, j: nat) {
    c.template.steps.Some? && j < |c.steps| && j < |c.template.steps.value| &&
    c.template.steps.value[j].id == "" && c.steps[j].id != ""
  }

  ghost predicate DistinctSteps(a: Call, b: Call, same: bool) {
    forall j: nat, k: nat :: Generated(a, j) && Generated(b, k) && (same ==> j != k) ==> a.steps[j].id != b.steps[k].id
  }

  ghost predicate Minted(s: State, c: Call) {
    && (c.wid != "" ==> c.wid in s.minted)
    && (forall j: nat :: Generated(c, j) ==> c.steps[j].id in s.minted)
  }

  ghost predicate Distinct(s: State) {
    && (forall i, k :: 0 <= i < |s.calls| && 0 <= k < |s.calls| && i != k && s.calls[i].wid != "" ==>
          s.calls[i].wid != s.calls[k].wid)
    && (forall i, k :: 0 <= i < |s.calls| && 0 <= k < |s.calls| ==> DistinctSteps(s.calls[i], s.calls[k], i == k))
    && (!s.reused ==> s.minted !! s.presets)
  }

  ghost predicate Fresh(s: State) {
    && (forall i :: 0 <= i < |s.calls| ==> Minted(s, s.calls[i]))
    && (!s.collided ==> Distinct(s))
  }

  /** The ids of `e.call` are those of `c`, except a generated one, `id`. */
  ghost predicate NewIds(s: State, c: Call, e: Effect, id: string) {
    && (e.rest == Mint(s, id)
        || (e.rest.minted == s.minted && e.rest.presets == s.presets
            && e.rest.collided == s.collided && e.rest.reused == s.reused))
    && (e.call.wid != c.wid ==> c.wid == "" && e.rest == Mint(s, id) && e.call.wid == id)
    && (forall j: nat :: Generated(e.call, j) ==>
          || (Generated(c, j) && e.call.steps[j].id == c.steps[j].id)
          || (j == c.pos && c.wid == e.call.wid && e.rest == Mint(s, id) && e.call.steps[j].id == id))
  }

  lemma {:induction false} LookupIds(s: State, c: Call, uuid: string)
    requires c.phase.Lookup? && InLoop(c)
    ensures NewIds(s, c, LookupStep(s, c, uuid), StepKey(uuid))
  {
    LookupKeepsStore(s, c, uuid);
    LookupShape(s, c, uuid);
    hide LookupStep, Traced, StepKey, DefinitionName;
  }

  lemma FetchIds(s: State, c: Call, uuid: string, rid: string, now: string)
    requires c.phase.Fetch? && InLoop(c) && CallOk(c)
    ensures NewIds(s, c, FetchStep(s, c, uuid, rid, now), InstanceKey(uuid))
  {
    hide InstanceData, InstanceMetadata, NamespaceOf;
  }

  lemma AdvanceIds(s: State, i: nat, uuid: string, rid: string, now: string) returns (id: string)
    requires Sane(s) && i < |s.calls| && CallOk(s.calls[i])
    ensures NewIds(s, s.calls[i], AdvanceStep(s, i, uuid, rid, now), id)
  {
    var c := s.calls[i];
    id := if c.phase.Fetch? then InstanceKey(uuid) else StepKey(uuid);
    if c.phase.Fetch? {
      FetchIds(s, c, uuid, rid, now);
      hide FetchStep, CallOk, NewIds;
    } else if c.phase.Lookup? {
      LookupIds(s, c, uuid);
      hide LookupStep, CallOk, NewIds;
    } else {
      AdvanceWrites(s, i, uuid, rid, now);
      hide AdvanceStep, CallOk;
    }
  }

  lemma MintedAfter(s: State, c: Call, e: Effect, id: string)
    requires Minted(s, c) && NewIds(s, c, e, id)
    ensures Minted(e.rest, e.call)
  {
  }

  /** Advancing call `i` with a fresh id keeps all generated ids apart. */
  lemma DistinctAfter(s: State, s': State, i: nat, e: Effect, id: string)
    requires i < |s.calls| && NewIds(s, s.calls[i], e, id) && s' == e.rest.(calls := s.calls[i := e.call])
    requires Fresh(s) && !s'.collided
    ensures Distinct(s')
  {
    assert !s.collided;
    forall a, b | 0 <= a < |s.calls| && 0 <= b < |s.calls|
      ensures DistinctSteps(s'.calls[a], s'.calls[b], a == b)
      ensures a != b && s'.calls[a].wid != "" ==> s'.calls[a].wid != s'.calls[b].wid
    {
      assert DistinctSteps(s.calls[a], s.calls[b], a == b);
      assert Minted(s, s.calls[a]) && Minted(s, s.calls[b]);
    }
  }

  lemma {:induction false} AdvanceKeepsFresh(s: State, l: Label)
    requires Sane(s) && CallsOk(s) && Fresh(s) && l.Advance? && l.call < |s.calls|
    ensures Fresh(Next(s, l))
  {
    hide AdvanceStep, CallOk;
    var s' := Next(s, l);
    var e := AdvanceIs(s, l);
    var id := AdvanceIds(s, l.call, l.uuid, l.rid, l.now);
    forall i | 0 <= i < |s'.calls| ensures Minted(s', s'.calls[i]) {
      hide NewIds;
      assert Minted(s, s.calls[i]);
      if i == l.call { MintedAfter(s, s.calls[i], e, id); }
      assert s.minted <= e.rest.minted by { assert NewIds(s, s.calls[l.call], e, id); }
    }
    if !s'.collided { DistinctAfter(s, s', l.call, e, id); }
  }

  lemma StartKeepsFresh(s: State, event: string, payload: string)
    requires Sane(s) && Fresh(s)
    ensures Fresh(Next(s, Start(event, payload)))
  {
    var s' := Next(s, Start(event, payload));
    forall i, k | 0 <= i < |s'.calls| && 0 <= k < |s'.calls| && !s'.collided
      ensures DistinctSteps(s'.calls[i], s'.calls[k], i == k)
    {
      if i < |s.calls| && k < |s.calls| { assert DistinctSteps(s.calls[i], s.calls[k], i == k); }
    }
    forall i | 0 <= i < |s'.calls| ensures Minted(s', s'.calls[i]) {
      if i < |s.calls| { assert Minted(s, s.calls[i]); }
    }
  }

  lemma InstallKeepsFresh(s: State, name: string, raw: Raw)
    requires Sane(s) && Fresh(s)
    ensures Fresh(InstallStep(s, name, raw))
  {
    hide PresetIds;
    var s' := InstallStep(s, name, raw);
    forall i | 0 <= i < |s'.calls| ensures Minted(s', s'.calls[i]) { assert Minted(s, s.calls[i]); }
    if !s'.collided && !s'.reused {
      forall x | x in s'.minted ensures x !in s'.presets {
        assert x in PresetIds(raw) ==> x in PresetIds(raw) * s.minted;
      }
    }
  }

  lemma {:induction false} NextKeepsFresh(s: State, l: Label)
    requires Sane(s) && CallsOk(s) && Fresh(s)
    ensures Fresh(Next(s, l))
  {
    match l
    case Advance(i, _, _, _) => if i < |s.calls| { AdvanceKeepsFresh(s, l); }
    case Start(event, payload) => StartKeepsFresh(s, event, payload);
    case Install(name, raw) =>
      InstallKeepsFresh(s, name, raw);
    case Pop(queue) =>
      var s' := PopStep(s, queue);
      forall i | 0 <= i < |s'.calls| ensures Minted(s', s'.calls[i]) { assert Minted(s, s.calls[i]); }
  }
}
