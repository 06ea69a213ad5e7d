/** The segments of `routeEvent` one by one: what a step of the transition system is in each phase. */
module RouterSegments {
  import opened Prelude
  import opened WorkerSelection
  import opened RouterModel

  lemma Known(s: State, i: nat)
    requires Sane(s) && i < |s.calls|
    ensures InLoop(s.calls[i])
  {
  }

  function Put(s: State, i: nat, c: Call): (s': State)
    requires i < |s.calls|
    ensures s'.calls == s.calls[i := c]
    ensures Sane(s) && InLoop(c) ==> Sane(s')
  {
    s.(calls := s.calls[i := c])
  }

  /** The exceptions between reading the template and using its steps. */
  function Refusal(raw: Option<Raw>): Option<Error> {
    match raw
    case None => Some(WrongType)
    case Some(Empty) => Some(NoWorkflow)
    case Some(Malformed) => Some(BadJson)
    case Some(Parsed(doc)) => if doc.steps.None? then Some(BadShape) else None
  }

  lemma FetchFails(s: State, i: nat, l: Label)
    requires Sane(s) && i < |s.calls| && s.calls[i].phase.Fetch? && l.Advance? && l.call == i
    requires Refusal(Get(s.store, WorkflowKey(s.calls[i].event))).Some?
    ensures Next(s, l) == Put(s, i, s.calls[i].(phase := Failed(Refusal(Get(s.store, WorkflowKey(s.calls[i].event))).value)))
  {
    hide WorkflowKey, Instantiate, Mint;
  }

  lemma FetchSucceeds(s: State, i: nat, l: Label, doc: Doc)
    requires Sane(s) && i < |s.calls| && s.calls[i].phase.Fetch? && l.Advance? && l.call == i
    requires Get(s.store, WorkflowKey(s.calls[i].event)) == Some(Parsed(doc)) && doc.steps.Some?
    ensures Next(s, l) == Put(Mint(s, InstanceKey(l.uuid)), i,
                              Instantiate(s.calls[i], doc, InstanceKey(l.uuid), "req-" + l.rid, l.now))
  {
    hide WorkflowKey, InstanceKey, InstanceData, InstanceMetadata;
  }

  /** The state after the id of the step at the loop head is settled. */
  function AfterNaming(s: State, c: Call, uuid: string): State
    requires c.pos < |c.steps|
  {
    if c.steps[c.pos].id != "" then s else Mint(s, StepKey(uuid))
  }

  lemma NamingKeeps(s: State, c: Call, uuid: string)
    requires c.pos < |c.steps|
    ensures AfterNaming(s, c, uuid).store == s.store && AfterNaming(s, c, uuid).calls == s.calls
    ensures |Named(c, uuid).steps| == |c.steps|
    ensures Named(c, uuid) == c.(steps := Named(c, uuid).steps)
  {
    hide StepKey;
  }

  lemma LookupSegment(s: State, i: nat, l: Label, c': Call)
    requires Sane(s) && i < |s.calls| && s.calls[i].phase.Lookup? && l.Advance? && l.call == i
    requires var c := s.calls[i]; var c1 := Named(c, l.uuid);
      if c1.steps[c.pos].definition.None? then c' == c1.(phase := Failed(BadShape))
      else match Get(s.store, WorkflowKey(DefinitionName(c1.steps[c.pos].definition.value)))
        case None => c' == c1.(phase := Failed(WrongType))
        case Some(Malformed) => c' == c1.(phase := Failed(BadJson))
        case Some(Empty) => c' == Skip(c1)
        case Some(Parsed(doc)) => c' == if doc.workers == [] then Skip(c1) else Assign(c1, doc.workers)
    ensures Next(s, l) == Put(AfterNaming(s, s.calls[i], l.uuid), i, c')
  {
    LookupIs(s, s.calls[i], l.uuid, c');
    hide LookupStep, AfterNaming, Named, Skip, Assign, Get, WorkflowKey, DefinitionName;
  }

  lemma LookupIs(s: State, c: Call, uuid: string, c': Call)
    requires c.phase.Lookup? && InLoop(c)
    requires var c1 := Named(c, uuid);
      if c1.steps[c.pos].definition.None? then c' == c1.(phase := Failed(BadShape))
      else match Get(s.store, WorkflowKey(DefinitionName(c1.steps[c.pos].definition.value)))
        case None => c' == c1.(phase := Failed(WrongType))
        case Some(Malformed) => c' == c1.(phase := Failed(BadJson))
        case Some(Empty) => c' == Skip(c1)
        case Some(Parsed(doc)) => c' == if doc.workers == [] then Skip(c1) else Assign(c1, doc.workers)
    ensures LookupStep(s, c, uuid) == Effect(AfterNaming(s, c, uuid), c')
  {
    hide WorkflowKey, DefinitionName, StepKey, Skip, Assign, Get, Mint;
  }

  lemma InstantiateInLoop(c: Call, doc: Doc, wid: string, rid: string, now: string)
    requires c.phase.Fetch? && InLoop(c) && doc.steps.Some?
    ensures InLoop(Instantiate(c, doc, wid, rid, now))
  {
    hide InstanceData, InstanceMetadata;
  }

  lemma LookupInLoop(c: Call, uuid: string, workers: seq<Worker>)
    requires c.phase.Lookup? && InLoop(c)
    ensures var c1 := Named(c, uuid);
      && c1.phase == c.phase && c1.pos == c.pos && |c1.steps| == |c.steps|
      && InLoop(Skip(c1))
      && (workers != [] && c1.steps[c.pos].definition.Some? ==> InLoop(Assign(c1, workers)))
  {
    hide StepKey, Traced;
  }

  /** The writes a call makes, with the history they leave. */
  function StepWritten(s: State, i: nat, pos: nat, key: string, fields: map<string, Json>): (s': State)
    requires HSet(s.store, key, fields).Some?
    ensures s'.calls == s.calls
  {
    s.(store := HSet(s.store, key, fields).value, writer := s.writer[key := (i, pos)])
  }

  function RecordWritten(s: State, key: string, fields: map<string, Json>): (s': State)
    requires HSet(s.store, key, fields).Some?
    ensures s'.calls == s.calls
  {
    s.(store := HSet(s.store, key, fields).value)
  }

  function ItemPushed(s: State, queue: string, item: Item): (s': State)
    requires LPush(s.store, queue, item).Some?
    ensures s'.calls == s.calls
  {
    s.(store := LPush(s.store, queue, item).value, pushed := s.pushed[queue := At(s.pushed, queue) + [item]])
  }

  lemma SaveStepSegment(s: State, i: nat, l: Label)
    requires Sane(s) && i < |s.calls| && s.calls[i].phase.SaveStep? && l.Advance? && l.call == i
    ensures var c := s.calls[i]; var step := c.steps[c.pos];
      Next(s, l) == if HSet(s.store, step.id, StepFields(step)).None? then Put(s, i, c.(phase := Failed(WrongType)))
                    else Put(StepWritten(s, i, c.pos, step.id, StepFields(step)), i, c.(phase := Push, pos := c.pos))
  {
    hide StepFields, HSet;
  }

  lemma PushSegment(s: State, i: nat, l: Label)
    requires Sane(s) && i < |s.calls| && s.calls[i].phase.Push? && l.Advance? && l.call == i
    ensures var c := s.calls[i]; var queue := QueueKey(Select(c.seen[c.pos]).instanceId);
      var item := Item(c.wid, c.steps[c.pos].id);
      Next(s, l) == if LPush(s.store, queue, item).None? then Put(s, i, c.(phase := Failed(WrongType)))
                    else Put(ItemPushed(s, queue, item), i, c.(pos := c.pos + 1, phase := LoopPhase(c.pos + 1, |c.steps|)))
  {
    hide QueueKey, LPush, Select;
  }

  lemma RecordSegment(s: State, i: nat, l: Label)
    requires Sane(s) && i < |s.calls| && s.calls[i].phase.SaveInstance? && l.Advance? && l.call == i
    ensures var c := s.calls[i];
      Next(s, l) == if HSet(s.store, c.wid, InstanceFields(c)).None? then Put(s, i, c.(phase := Failed(WrongType)))
                    else Put(RecordWritten(s, c.wid, InstanceFields(c)), i, c.(phase := Done, pos := c.pos))
  {
    hide InstanceFields, HSet;
  }

  /** Where a call can go on from, once its write is through. */
  lemma GoesOn(c: Call)
    requires InLoop(c)
    ensures c.phase.SaveStep? ==> c.pos < |c.steps| && c.seen[c.pos] != [] && InLoop(c.(phase := Push, pos := c.pos))
    ensures c.phase.Push? ==> c.pos < |c.steps| && c.seen[c.pos] != []
    ensures c.phase.Push? ==> InLoop(c.(phase := LoopPhase(c.pos + 1, |c.steps|), pos := c.pos + 1))
    ensures c.phase.SaveInstance? ==> InLoop(c.(phase := Done, pos := c.pos))
  {
  }
}
