/**
 * What each command of a call does, key by key and field by field, in any state: the keys are
 * spelled out, and every outcome is told by what is stored under them.
 */
module RouterOutcomes {
  import opened Prelude
  import opened WorkerSelection
  import opened RouterModel
  import opened RouterCalls
  import opened RouterSegments

  /** Different names have different keys, in each of the four namespaces. */
  lemma KeysAreInjective(x: string, y: string)
    requires x != y
    ensures WorkflowKey(x) != WorkflowKey(y) && InstanceKey(x) != InstanceKey(y)
    ensures StepKey(x) != StepKey(y) && QueueKey(x) != QueueKey(y)
  {
    NamesInKeys(x);
    NamesInKeys(y);
    QueueNames(x);
    QueueNames(y);
    hide WorkflowKey, InstanceKey, StepKey, QueueKey;
  }

  lemma NamesInKeys(x: string)
    ensures |WorkflowKey(x)| >= 9 && WorkflowKey(x)[9..] == x
    ensures |InstanceKey(x)| >= 18 && InstanceKey(x)[18..] == x
    ensures |StepKey(x)| >= 14 && StepKey(x)[14..] == x
  {
  }

  lemma QueueNames(x: string)
    ensures |QueueKey(x)| == |x| + 22 && QueueKey(x)[16..|x| + 16] == x
  {
  }

  /** The list a definition key leads to. */
  lemma DefinitionKeyIs(d: StepDef)
    ensures WorkflowKey(DefinitionName(d)) ==
      if d.workflowKey != "" then "workflow:" + d.workflowKey
      else if d.kind != "" then "workflow:" + d.kind
      else if d.cls.Some? then "workflow:" + d.cls.value
      else "workflow:undefined"
  {
  }

  /** The queue of the worker the fold chooses. */
  lemma RouteIs(seen: seq<Worker>) returns (k: nat)
    ensures seen == [] <==> Route(seen).None?
    ensures seen != [] ==> Chosen(seen, k) && Route(seen) == Some("worker_instance:" + seen[k].instanceId + ":queue")
  {
    k := 0;
    if seen != [] { k := SelectIsChosen(seen); }
    hide Chosen, Select;
  }

  /** The call `i` alone moved. */
  predicate OnlyCall(s: State, s': State, i: nat) {
    && i < |s.calls| == |s'.calls| && (forall k :: 0 <= k < |s.calls| && k != i ==> s'.calls[k] == s.calls[k])
    && s'.popped == s.popped && s'.installed == s.installed && s'.presets == s.presets
  }

  lemma PutIs(s: State, s1: State, i: nat, c: Call)
    requires i < |s.calls| && s1.calls == s.calls
    requires s1.popped == s.popped && s1.installed == s.installed && s1.presets == s.presets
    ensures var s' := Put(s1, i, c);
      OnlyCall(s, s', i) && s'.calls[i] == c && s'.store == s1.store && s'.pushed == s1.pushed
  {
  }

  /**
   * The template is what is stored under "workflow:" and the event's name. The call throws when
   * there is nothing to instantiate, and else has a new instance of exactly that template.
   */
  lemma FetchOutcome(s: State, i: nat, uuid: string, rid: string, now: string)
    requires Sane(s) && i < |s.calls| && s.calls[i].phase.Fetch?
    ensures var s' := Next(s, Advance(i, uuid, rid, now));
      var c, c', key := s.calls[i], s'.calls[i], "workflow:" + s.calls[i].event;
      && OnlyCall(s, s', i) && s'.store == s.store && s'.pushed == s.pushed
      && if key !in s.store || s.store[key] == Text(Empty) then c' == c.(phase := Failed(NoWorkflow))
         else if !s.store[key].Text? then c' == c.(phase := Failed(WrongType))
         else if s.store[key].raw.Malformed? then c' == c.(phase := Failed(BadJson))
         else if s.store[key].raw.doc.steps.None? then c' == c.(phase := Failed(BadShape))
         else
           && c'.wid == "workflow_instance:" + uuid && c'.rid == "req-" + rid && c'.startTime == now
           && c'.template == s.store[key].raw.doc && c'.steps == s.store[key].raw.doc.steps.value
           && c'.event == c.event && c'.payload == c.payload && c'.pos == 0 && c'.seen == c.seen
           && (if c'.steps == [] then c'.phase.SaveInstance? else c'.phase.Lookup?)
  {
    hide Next, Put, OnlyCall;
    Known(s, i);
    var l := Advance(i, uuid, rid, now);
    var c, key := s.calls[i], WorkflowKey(s.calls[i].event);
    if Refusal(Get(s.store, key)).Some? {
      FetchFails(s, i, l);
      PutIs(s, s, i, c.(phase := Failed(Refusal(Get(s.store, key)).value)));
      hide InstanceKey, InLoop, Sane;
    } else {
      var doc := s.store[key].raw.doc;
      FetchSucceeds(s, i, l, doc);
      InstantiatedIs(c, doc, uuid, rid, now);
      PutIs(s, Mint(s, InstanceKey(uuid)), i, Instantiate(c, doc, InstanceKey(uuid), "req-" + rid, now));
      hide Refusal, Get, Instantiate, InLoop, InstanceKey, Sane;
    }
  }

  lemma InstantiatedIs(c: Call, doc: Doc, uuid: string, rid: string, now: string)
    requires c.phase.Fetch? && InLoop(c) && doc.steps.Some?
    ensures var c' := Instantiate(c, doc, InstanceKey(uuid), "req-" + rid, now);
      && c'.wid == "workflow_instance:" + uuid && c'.rid == "req-" + rid && c'.startTime == now
      && c'.template == doc && c'.steps == doc.steps.value && c'.event == c.event && c'.payload == c.payload
      && c'.pos == 0 && c'.seen == c.seen && (if c'.steps == [] then c'.phase.SaveInstance? else c'.phase.Lookup?)
  {
    hide InstanceData, InstanceMetadata;
  }

  /** A call at the head of the loop: the step with its id, given or generated. */
  function WithId(step: Step, uuid: string): Step {
    step.(id := if step.id != "" then step.id else "step_instance:" + uuid)
  }

  /**
   * The step's definition is what is stored under the first of its three names that is given. The
   * call throws when it cannot be read, passes over the step when it lists no worker, and else
   * notes the list and goes on to write the step's hash.
   */
  lemma LookupOutcome(s: State, i: nat, uuid: string, rid: string, now: string)
    requires Sane(s) && i < |s.calls| && s.calls[i].phase.Lookup?
    ensures var s' := Next(s, Advance(i, uuid, rid, now)); var c, c' := s.calls[i], s'.calls[i];
      && OnlyCall(s, s', i) && s'.store == s.store && s'.pushed == s.pushed
      && c.pos < |c.steps| == |c'.steps| && c'.wid == c.wid && c'.rid == c.rid && c'.startTime == c.startTime
      && c'.template == c.template && c'.data == c.data && c'.metadata == c.metadata
      && c'.steps == c.steps[c.pos := c'.steps[c.pos]]
      && var x, d := WithId(c.steps[c.pos], uuid), c.steps[c.pos].definition;
      && if d.None? then c' == c.(phase := Failed(BadShape), steps := c'.steps) && c'.steps[c.pos] == x
         else
           var key := if d.value.workflowKey != "" then "workflow:" + d.value.workflowKey
                      else if d.value.kind != "" then "workflow:" + d.value.kind
                      else if d.value.cls.Some? then "workflow:" + d.value.cls.value
                      else "workflow:undefined";
           if key in s.store && !s.store[key].Text? then
             c' == c.(phase := Failed(WrongType), steps := c'.steps) && c'.steps[c.pos] == x
           else if key in s.store && s.store[key].raw.Malformed? then
             c' == c.(phase := Failed(BadJson), steps := c'.steps) && c'.steps[c.pos] == x
           else if key !in s.store || s.store[key].raw.Empty? || s.store[key].raw.doc.workers == [] then
             && c'.steps[c.pos] == x && c'.seen == c.seen + [[]] && c'.pos == c.pos + 1
             && (if c'.pos == |c.steps| then c'.phase.SaveInstance? else c'.phase.Lookup?)
           else
             && c'.steps[c.pos] == x.(data := c'.steps[c.pos].data)
             && c'.seen == c.seen + [s.store[key].raw.doc.workers] && c'.pos == c.pos && c'.phase.SaveStep?
  {
    Known(s, i);
    LookupPut(s, i, uuid, rid, now);
    LookupCall(s, s.calls[i], uuid);
    NamingKeeps(s, s.calls[i], uuid);
    NamingKeepsRest(s, s.calls[i], uuid);
    PutIs(s, AfterNaming(s, s.calls[i], uuid), i, LookupStep(s, s.calls[i], uuid).call);
    hide Next, LookupStep, AfterNaming, Put, OnlyCall, InLoop, Sane, WithId;
  }

  lemma LookupPut(s: State, i: nat, uuid: string, rid: string, now: string)
    requires Sane(s) && i < |s.calls| && s.calls[i].phase.Lookup? && InLoop(s.calls[i])
    ensures Next(s, Advance(i, uuid, rid, now)) ==
            Put(AfterNaming(s, s.calls[i], uuid), i, LookupStep(s, s.calls[i], uuid).call)
  {
    LookupRest(s, s.calls[i], uuid);
    hide LookupStep, AfterNaming, InLoop;
  }

  lemma LookupRest(s: State, c: Call, uuid: string)
    requires c.phase.Lookup? && InLoop(c)
    ensures LookupStep(s, c, uuid).rest == AfterNaming(s, c, uuid)
  {
    hide Traced, StepKey, WorkflowKey, DefinitionName, Get;
  }

  lemma LookupCall(s: State, c: Call, uuid: string)
    requires c.phase.Lookup? && InLoop(c)
    ensures var c' := LookupStep(s, c, uuid).call;
      && c.pos < |c.steps| == |c'.steps| && c'.wid == c.wid && c'.rid == c.rid && c'.startTime == c.startTime
      && c'.template == c.template && c'.data == c.data && c'.metadata == c.metadata
      && c'.steps == c.steps[c.pos := c'.steps[c.pos]]
      && var x, d := WithId(c.steps[c.pos], uuid), c.steps[c.pos].definition;
      && if d.None? then c' == c.(phase := Failed(BadShape), steps := c'.steps) && c'.steps[c.pos] == x
         else
           var key := if d.value.workflowKey != "" then "workflow:" + d.value.workflowKey
                      else if d.value.kind != "" then "workflow:" + d.value.kind
                      else if d.value.cls.Some? then "workflow:" + d.value.cls.value
                      else "workflow:undefined";
           if key in s.store && !s.store[key].Text? then
             c' == c.(phase := Failed(WrongType), steps := c'.steps) && c'.steps[c.pos] == x
           else if key in s.store && s.store[key].raw.Malformed? then
             c' == c.(phase := Failed(BadJson), steps := c'.steps) && c'.steps[c.pos] == x
           else if key !in s.store || s.store[key].raw.Empty? || s.store[key].raw.doc.workers == [] then
             && c'.steps[c.pos] == x && c'.seen == c.seen + [[]] && c'.pos == c.pos + 1
             && (if c'.pos == |c.steps| then c'.phase.SaveInstance? else c'.phase.Lookup?)
           else
             && c'.steps[c.pos] == x.(data := c'.steps[c.pos].data)
             && c'.seen == c.seen + [s.store[key].raw.doc.workers] && c'.pos == c.pos && c'.phase.SaveStep?
  {
    hide AfterNaming, WorkflowKey, DefinitionName, Traced, LookupStep;
    var c1 := Named(c, uuid);
    var d := c.steps[c.pos].definition;
    assert c1.steps[c.pos] == WithId(c.steps[c.pos], uuid);
    NamingKeeps(s, c, uuid);
    if d.None? {
      LookupIs(s, c, uuid, c1.(phase := Failed(BadShape)));
    } else {
      DefinitionKeyIs(d.value);
      match Get(s.store, WorkflowKey(DefinitionName(d.value)))
      case None => LookupIs(s, c, uuid, c1.(phase := Failed(WrongType)));
      case Some(Malformed) => LookupIs(s, c, uuid, c1.(phase := Failed(BadJson)));
      case Some(Empty) => LookupIs(s, c, uuid, Skip(c1));
      case Some(Parsed(doc)) => LookupIs(s, c, uuid, if doc.workers == [] then Skip(c1) else Assign(c1, doc.workers));
    }
  }

  lemma NamingKeepsRest(s: State, c: Call, uuid: string)
    requires c.pos < |c.steps|
    ensures var s' := AfterNaming(s, c, uuid); s' == s.(minted := s'.minted, collided := s'.collided)
  {
    hide StepKey;
  }

  /** HSET under the step's id writes its three fields over what the hash held before. */
  lemma SaveStepOutcome(s: State, i: nat, uuid: string, rid: string, now: string)
    requires Sane(s) && i < |s.calls| && s.calls[i].phase.SaveStep?
    ensures var s' := Next(s, Advance(i, uuid, rid, now)); var c, c' := s.calls[i], s'.calls[i];
      && OnlyCall(s, s', i) && s'.pushed == s.pushed && c.pos < |c.steps| && c.steps[c.pos].definition.Some?
      && var x := c.steps[c.pos];
      && var fields := map["definition" := StepDefinition(x.definition.value), "data" := Fields(x.data),
                           "metadata" := Blob(x.metadata)];
      && if x.id !in s.store then s'.store == s.store[x.id := Hash(fields)] && c' == c.(phase := Push)
         else if s.store[x.id].Hash? then
           s'.store == s.store[x.id := Hash(s.store[x.id].fields + fields)] && c' == c.(phase := Push)
         else s'.store == s.store && c' == c.(phase := Failed(WrongType))
  {
    Known(s, i);
    hide Next, Sane, Put, OnlyCall;
    var c := s.calls[i];
    var x := c.steps[c.pos];
    PutIs(s, s, i, c.(phase := Failed(WrongType)));
    if HSet(s.store, x.id, StepFields(x)).Some? {
      PutIs(s, StepWritten(s, i, c.pos, x.id, StepFields(x)), i, c.(phase := Push, pos := c.pos));
    }
    SaveStepSegment(s, i, Advance(i, uuid, rid, now));
    hide InLoop;
  }

  /** LPUSH puts the item at the head of the chosen worker's own queue, and the loop moves on. */
  lemma PushOutcome(s: State, i: nat, uuid: string, rid: string, now: string) returns (k: nat)
    requires Sane(s) && i < |s.calls| && s.calls[i].phase.Push?
    ensures var s' := Next(s, Advance(i, uuid, rid, now)); var c, c' := s.calls[i], s'.calls[i];
      && OnlyCall(s, s', i) && c.pos < |c.steps| && c.pos < |c.seen| && Chosen(c.seen[c.pos], k)
      && var key := "worker_instance:" + c.seen[c.pos][k].instanceId + ":queue";
      && var item := Item(c.wid, c.steps[c.pos].id);
      && if key in s.store && !s.store[key].List? then
           s'.store == s.store && s'.pushed == s.pushed && c' == c.(phase := Failed(WrongType))
         else
           && s'.store == s.store[key := List([item] + Queue(s.store, key))]
           && s'.pushed == s.pushed[key := At(s.pushed, key) + [item]]
           && c' == c.(pos := c.pos + 1, phase := if c.pos + 1 == |c.steps| then SaveInstance else Lookup)
  {
    Known(s, i);
    hide Next, QueueKey, Select, Chosen, Sane, Put, OnlyCall;
    var c := s.calls[i];
    k := RouteIs(c.seen[c.pos]);
    var queue, item := QueueKey(Select(c.seen[c.pos]).instanceId), Item(c.wid, c.steps[c.pos].id);
    PutIs(s, s, i, c.(phase := Failed(WrongType)));
    if LPush(s.store, queue, item).Some? {
      PutIs(s, ItemPushed(s, queue, item), i, c.(pos := c.pos + 1, phase := LoopPhase(c.pos + 1, |c.steps|)));
    }
    PushSegment(s, i, Advance(i, uuid, rid, now));
    assert [Item(c.wid, c.steps[c.pos].id)] + [] == [Item(c.wid, c.steps[c.pos].id)];
    hide InLoop, At;
  }

  lemma HSetIs(store: Store, key: string, fields: map<string, Json>)
    ensures HSet(store, key, fields) ==
      if key !in store then Some(store[key := Hash(fields)])
      else if store[key].Hash? then Some(store[key := Hash(store[key].fields + fields)])
      else None
  {
  }

  /** HSET of the instance record, and the call is over. */
  lemma SaveInstanceOutcome(s: State, i: nat, uuid: string, rid: string, now: string)
    requires Sane(s) && i < |s.calls| && s.calls[i].phase.SaveInstance?
    ensures var s' := Next(s, Advance(i, uuid, rid, now)); var c, c' := s.calls[i], s'.calls[i];
      && OnlyCall(s, s', i) && s'.pushed == s.pushed
      && var fields := map["definition" := WorkflowDefinition(c.steps, c.template.hooks), "data" := Fields(c.data),
                           "metadata" := Fields(c.metadata)];
      && if c.wid !in s.store then s'.store == s.store[c.wid := Hash(fields)] && c' == c.(phase := Done)
         else if s.store[c.wid].Hash? then
           s'.store == s.store[c.wid := Hash(s.store[c.wid].fields + fields)] && c' == c.(phase := Done)
         else s'.store == s.store && c' == c.(phase := Failed(WrongType))
  {
    Known(s, i);
    hide Next, Sane, Put, OnlyCall;
    var c := s.calls[i];
    var fields := InstanceFields(c);
    PutIs(s, s, i, c.(phase := Failed(WrongType)));
    if HSet(s.store, c.wid, fields).Some? { PutIs(s, RecordWritten(s, c.wid, fields), i, c.(phase := Done, pos := c.pos)); }
    RecordSegment(s, i, Advance(i, uuid, rid, now));
    HSetIs(s.store, c.wid, fields);
    assert fields == map["definition" := WorkflowDefinition(c.steps, c.template.hooks), "data" := Fields(c.data),
                         "metadata" := Fields(c.metadata)];
    hide InLoop, HSet, InstanceFields;
    assert c.(phase := Done, pos := c.pos) == c.(phase := Done);
  }

  /** RPOP takes the item at the tail, and the emptied list disappears. */
  lemma PopOutcome(s: State, queue: string)
    requires Sane(s)
    ensures var s', items := Next(s, Pop(queue)), Queue(s.store, queue);
      && s'.calls == s.calls && s'.pushed == s.pushed
      && (items == [] ==> s' == s)
      && (items != [] ==>
            && s'.popped == s.popped[queue := At(s.popped, queue) + [items[|items| - 1]]]
            && Queue(s'.store, queue) == items[..|items| - 1]
            && (queue in s'.store <==> |items| > 1)
            && forall k :: k != queue ==> (k in s'.store <==> k in s.store) && (k in s.store ==> s'.store[k] == s.store[k]))
  {
  }

  /** SET replaces whatever the name's key held; a new call knows its event and payload, and nothing else. */
  lemma EntryOutcomes(s: State, name: string, raw: Raw, payload: string)
    requires Sane(s)
    ensures var s' := Next(s, Install(name, raw));
      && s'.store == s.store["workflow:" + name := Text(raw)] && s'.calls == s.calls && s'.pushed == s.pushed
      && s'.popped == s.popped && s'.installed == s.installed + {("workflow:" + name, raw)}
    ensures var s' := Next(s, Start(name, payload));
      && s'.store == s.store && |s'.calls| == |s.calls| + 1 && s'.calls[..|s.calls|] == s.calls
      && var c := s'.calls[|s.calls|];
      && c.event == name && c.payload == payload && c.phase.Fetch? && c.wid == "" && c.seen == [] && c.steps == []
  {
    hide PresetIds;
  }
}
