/** What a call's own record satisfies at every await, and the key namespaces. */
module RouterCalls {
  import opened Prelude
  import opened WorkerSelection
  import opened RouterModel

  // ----- Namespaces -----

  datatype Namespace = Definitions | Instances | Steps | Queues | Other

  function NamespaceOf(key: string): Namespace {
    if "workflow:" <= key then Definitions
    else if "workflow_instance:" <= key then Instances
    else if "step_instance:" <= key then Steps
    else if "worker_instance:" <= key then Queues
    else Other
  }

  lemma {:induction false} KeyNamespaces(x: string)
    ensures NamespaceOf(WorkflowKey(x)) == Definitions
    ensures NamespaceOf(InstanceKey(x)) == Instances
    ensures NamespaceOf(StepKey(x)) == Steps
    ensures NamespaceOf(QueueKey(x)) == Queues
  {
    assert InstanceKey(x)[8] == '_';
    assert StepKey(x)[0] == 's';
    assert QueueKey(x)[2] == 'r' && QueueKey(x)[4] == 'e';
    assert QueueKey(x) == "worker_instance:" + (x + ":queue");
    assert "workflow:"[4] == 'f' && "workflow_instance:"[4] == 'f';
  }

  lemma PrefixedStepKey(key: string)
    requires "step_instance:" <= key
    ensures NamespaceOf(key) == Steps
  {
    KeyNamespaces(key[|"step_instance:"|..]);
    assert StepKey(key[|"step_instance:"|..]) == key;
  }

  /** For all names, uuids and worker instances the four kinds of key are different strings. */
  lemma KeysNeverCollide(name: string, uuid: string, step: string, worker: string)
    ensures WorkflowKey(name) != InstanceKey(uuid) && WorkflowKey(name) != StepKey(step)
    ensures WorkflowKey(name) != QueueKey(worker) && InstanceKey(uuid) != StepKey(step)
    ensures InstanceKey(uuid) != QueueKey(worker) && StepKey(step) != QueueKey(worker)
  {
    KeyNamespaces(name);
    KeyNamespaces(uuid);
    KeyNamespaces(step);
    KeyNamespaces(worker);
  }

  // ----- One call -----

  /** Step `x` of a running instance against the template's step `t`; `seen` once it was looked up. */
  ghost predicate Handled(t: Step, x: Step, seen: seq<Worker>) {
    && x == t.(id := x.id, data := Traced(t.data, seen))
    && x.id != ""
    && (if t.id != "" then x.id == t.id else "step_instance:" <= x.id)
  }

  ghost predicate Started(c: Call) {
    && InLoop(c)
    && !c.phase.Fetch?
    && c.template.steps.Some?
    && |c.steps| == |c.template.steps.value|
    && c.pos <= |c.seen| <= |c.steps|
    && |c.seen| <= c.pos + 1
    && (c.phase.SaveInstance? || c.phase.Done? ==> c.pos == |c.steps|)
    && c.data == InstanceData(c.template, c.payload, c.wid, c.rid)
    && c.metadata == InstanceMetadata(c.template, c.startTime)
    && (forall j :: 0 <= j < |c.seen| ==>
          Handled(c.template.steps.value[j], c.steps[j], c.seen[j]) && c.steps[j].definition.Some?)
    && (forall j :: |c.seen| <= j < |c.steps| ==>
          && c.steps[j] == c.template.steps.value[j].(id := c.steps[j].id)
          && (c.template.steps.value[j].id != "" ==> c.steps[j].id == c.template.steps.value[j].id)
          && (c.steps[j].id == c.template.steps.value[j].id || "step_instance:" <= c.steps[j].id)
          && (!c.phase.Failed? || j > |c.seen| ==> c.steps[j].id == c.template.steps.value[j].id))
  }

  ghost predicate CallOk(c: Call) {
    && (c.wid == "" ==>
          && (c.phase.Fetch? || c.phase.Failed?)
          && c.steps == [] && c.seen == [] && c.pos == 0)
    && (c.wid != "" ==> NamespaceOf(c.wid) == Instances && Started(c))
  }

  lemma FetchKeepsCallOk(s: State, c: Call, uuid: string, rid: string, now: string)
    requires c.phase.Fetch? && InLoop(c) && CallOk(c)
    ensures CallOk(FetchStep(s, c, uuid, rid, now).call)
  {
    KeyNamespaces(uuid);
  }

  /** A call at the loop head, after its step got an id. */
  ghost predicate AtNamed(c: Call, c1: Call) {
    && c.phase.Lookup? && c.wid != "" && CallOk(c)
    && |c1.steps| == |c.steps|
    && c1 == c.(steps := c.steps[c.pos := c1.steps[c.pos]])
    && Handled(c.template.steps.value[c.pos], c1.steps[c.pos], [])
  }

  lemma NamedOk(c: Call, uuid: string)
    requires c.phase.Lookup? && c.wid != "" && CallOk(c)
    ensures AtNamed(c, Named(c, uuid))
  {
    assert StepKey(uuid)[0] == 's';
    assert c.steps[c.pos].id == c.template.steps.value[c.pos].id;
  }

  lemma FailedOk(c: Call, c1: Call, e: Error)
    requires AtNamed(c, c1)
    ensures CallOk(c1.(phase := Failed(e)))
  {
  }

  lemma SkippedOk(c: Call, c1: Call)
    requires AtNamed(c, c1) && c1.steps[c.pos].definition.Some?
    ensures CallOk(Skip(c1))
  {
    assert Handled(c.template.steps.value[c.pos], Skip(c1).steps[c.pos], Skip(c1).seen[c.pos]);
  }

  lemma AssignedOk(c: Call, c1: Call, workers: seq<Worker>)
    requires AtNamed(c, c1) && workers != [] && c1.steps[c.pos].definition.Some?
    ensures CallOk(Assign(c1, workers))
  {
    assert Handled(c.template.steps.value[c.pos], Assign(c1, workers).steps[c.pos], Assign(c1, workers).seen[c.pos]);
  }

  lemma {:induction false} LookupKeepsCallOk(s: State, c: Call, uuid: string)
    requires c.phase.Lookup? && InLoop(c) && CallOk(c)
    ensures CallOk(LookupStep(s, c, uuid).call)
  {
    var c1 := Named(c, uuid);
    NamedOk(c, uuid);
    if c.steps[c.pos].definition.None? {
      FailedOk(c, c1, BadShape);
    } else {
      match Get(s.store, WorkflowKey(DefinitionName(c.steps[c.pos].definition.value)))
      case None => FailedOk(c, c1, WrongType);
      case Some(Malformed) => FailedOk(c, c1, BadJson);
      case Some(Empty) => SkippedOk(c, c1);
      case Some(Parsed(doc)) => if doc.workers == [] { SkippedOk(c, c1); } else { AssignedOk(c, c1, doc.workers); }
    }
  }

  lemma {:induction false} AdvanceKeepsCallOk(s: State, i: nat, uuid: string, rid: string, now: string)
    requires i < |s.calls| && InLoop(s.calls[i]) && CallOk(s.calls[i])
    ensures CallOk(AdvanceStep(s, i, uuid, rid, now).call)
  {
    var c := s.calls[i];
    hide CallOk, InLoop, FetchStep, LookupStep;
    match c.phase
    case Fetch => FetchKeepsCallOk(s, c, uuid, rid, now);
    case Lookup => LookupKeepsCallOk(s, c, uuid);
    case _ =>
      var e := AdvanceStep(s, i, uuid, rid, now);
      WriteMovesOn(s, i, uuid, rid, now);
      hide AdvanceStep;
      if e.call != c { MovedOnOk(c, e.call); }
  }

  /** Where the segments after a write leave a call. */
  predicate MovesOn(c: Call, c': Call) {
    && c' == c.(phase := c'.phase, pos := c'.pos) && InLoop(c')
    && (c.phase.SaveStep? || c.phase.Push? || c.phase.SaveInstance?)
    && (c'.phase.Failed? ==> c'.pos == c.pos)
    && (c'.phase.Push? ==> c.phase.SaveStep? && c'.pos == c.pos)
    && (c'.phase.Lookup? || c'.phase.SaveInstance? ==> c'.pos == c.pos + 1 && c.phase.Push?)
    && (c'.phase.SaveInstance? ==> c'.pos >= |c.steps|)
    && (c'.phase.Done? ==> c.phase.SaveInstance? && c'.pos == c.pos)
    && !c'.phase.Fetch? && !c'.phase.SaveStep?
  }

  lemma SaveStepMovesOn(s: State, i: nat, c: Call)
    requires c.phase.SaveStep? && InLoop(c)
    ensures MovesOn(c, SaveStepStep(s, i, c).call)
  {
    hide StepFields, HSet;
  }

  lemma PushMovesOn(s: State, c: Call)
    requires c.phase.Push? && InLoop(c)
    ensures MovesOn(c, PushStep(s, c).call)
  {
    hide QueueKey, Select, LPush, At;
  }

  lemma SaveInstanceMovesOn(s: State, c: Call)
    requires c.phase.SaveInstance?
    ensures MovesOn(c, SaveInstanceStep(s, c).call)
  {
    hide InstanceFields, HSet;
  }

  lemma {:induction false} WriteMovesOn(s: State, i: nat, uuid: string, rid: string, now: string)
    requires i < |s.calls| && InLoop(s.calls[i]) && !s.calls[i].phase.Fetch? && !s.calls[i].phase.Lookup?
    ensures var c' := AdvanceStep(s, i, uuid, rid, now).call; c' == s.calls[i] || MovesOn(s.calls[i], c')
  {
    var c := s.calls[i];
    hide InLoop, MovesOn, SaveStepStep, PushStep, SaveInstanceStep;
    match c.phase
    case SaveStep => SaveStepMovesOn(s, i, c);
    case Push => PushMovesOn(s, c);
    case SaveInstance => SaveInstanceMovesOn(s, c);
    case _ =>
  }

  lemma MovedOnOk(c: Call, c': Call)
    requires CallOk(c) && MovesOn(c, c')
    ensures CallOk(c')
  {
    hide NamespaceOf, InstanceData, InstanceMetadata, Handled;
  }

  ghost predicate CallsOk(s: State) {
    forall i :: 0 <= i < |s.calls| ==> CallOk(s.calls[i])
  }

  lemma {:induction false} NextKeepsCalls(s: State, l: Label)
    requires Sane(s) && CallsOk(s)
    ensures CallsOk(Next(s, l))
  {
    if l.Advance? && l.call < |s.calls| {
      AdvanceKeepsCallOk(s, l.call, l.uuid, l.rid, l.now);
    }
  }

  // ----- Items -----

  lemma {:induction false} ItemsFrame(wid: string, steps: seq<Step>, seen: seq<seq<Worker>>,
                                      steps': seq<Step>, seen': seq<seq<Worker>>, n: nat, queue: string)
    requires n <= |steps| && n <= |seen| && n <= |steps'| && n <= |seen'|
    requires forall j :: 0 <= j < n ==> steps[j].id == steps'[j].id && seen[j] == seen'[j]
    ensures Items(wid, steps, seen, n, queue) == Items(wid, steps', seen', n, queue)
  {
    if n > 0 { ItemsFrame(wid, steps, seen, steps', seen', n - 1, queue); }
  }

  lemma {:induction false} OfInstanceLast(items: seq<Item>, item: Item, wid: string)
    ensures OfInstance(items + [item], wid) ==
            OfInstance(items, wid) + if item.workflowInstanceId == wid then [item] else []
  {
    assert (items + [item])[..|items|] == items;
  }

  lemma {:induction false} OfInstanceSplit(a: seq<Item>, b: seq<Item>, wid: string)
    ensures OfInstance(a + b, wid) == OfInstance(a, wid) + OfInstance(b, wid)
  {
    if b == [] {
      assert a + b == a;
    } else {
      var init, x := b[..|b| - 1], b[|b| - 1];
      assert a + b == (a + init) + [x] && b == init + [x];
      OfInstanceSplit(a, init, wid);
      OfInstanceLast(a + init, x, wid);
      OfInstanceLast(init, x, wid);
    }
  }

  lemma {:induction false} OfInstanceNone(items: seq<Item>, wid: string)
    requires forall k :: 0 <= k < |items| ==> items[k].workflowInstanceId != wid
    ensures OfInstance(items, wid) == []
  {
    if items != [] { OfInstanceNone(items[..|items| - 1], wid); }
  }
}
