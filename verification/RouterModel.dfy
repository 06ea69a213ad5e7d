/**
 * The workflow router as a transition system. Any number of `routeEvent` calls run together with
 * workers that pop queues and administrators who install definitions; one step lets Redis execute
 * the outstanding command of a call and runs that call up to its next `await`.
 */
module RouterModel {
  import opened Prelude
  import opened WorkerSelection

  // ----- Documents -----

  /** `workflowKey` and `kind` are "" when missing or empty; `cls` is the last alternative. */
  datatype StepDef = StepDef(workflowKey: string, kind: string, cls: Option<string>, rest: string)

  /**
   * A step of a template; `id` is "" when `step_instance_id` is missing or empty, `definition` is
   * None when it is missing or null.
   */
  datatype Step = Step(id: string, definition: Option<StepDef>, data: map<string, string>, metadata: string)

  /** A document under a `workflow:` key: template and worker list live in the same namespace. */
  datatype Doc = Doc(
    steps: Option<seq<Step>>, hooks: string, data: map<string, string>, metadata: map<string, string>,
    workers: seq<Worker>)

  /**
   * What `get` can return: nothing or the empty string; text that `JSON.parse` refuses, or `null`,
   * of which no member can be read; or any other JSON value, with what it holds of a document.
   */
  datatype Raw = Empty | Malformed | Parsed(doc: Doc)

  datatype Item = Item(workflowInstanceId: string, stepInstanceId: string)

  /** The JSON texts written into hashes, in decoded form. */
  datatype Json =
    | StepDefinition(stepDef: StepDef)
    | Fields(fields: map<string, string>)
    | Blob(text: string)
    | WorkflowDefinition(steps: seq<Step>, hooks: string)

  // ----- Redis -----

  datatype Value = Text(raw: Raw) | Hash(fields: map<string, Json>) | List(items: seq<Item>)
  type Store = map<string, Value>

  /** GET; None is the WRONGTYPE error. */
  function Get(store: Store, key: string): Option<Raw> {
    if key !in store then Some(Empty)
    else if store[key].Text? then Some(store[key].raw) else None
  }

  /** HSET of several fields; None is the WRONGTYPE error. */
  function HSet(store: Store, key: string, fields: map<string, Json>): Option<Store> {
    if key !in store then Some(store[key := Hash(fields)])
    else if store[key].Hash? then Some(store[key := Hash(store[key].fields + fields)]) else None
  }

  /** LPUSH puts the item at the head; None is the WRONGTYPE error. */
  function LPush(store: Store, key: string, item: Item): Option<Store> {
    if key !in store then Some(store[key := List([item])])
    else if store[key].List? then Some(store[key := List([item] + store[key].items)]) else None
  }

  /** RPOP takes the tail; an emptied list disappears. */
  function RPop(store: Store, key: string): (Store, Option<Item>) {
    if key !in store || !store[key].List? || store[key].items == [] then (store, None)
    else
      var items := store[key].items;
      (if |items| == 1 then store - {key} else store[key := List(items[..|items| - 1])], Some(items[|items| - 1]))
  }

  /** The list under a key, head first. */
  function Queue(store: Store, key: string): seq<Item> {
    if key in store && store[key].List? then store[key].items else []
  }

  // ----- Keys -----

  function WorkflowKey(name: string): string { "workflow:" + name }
  function InstanceKey(uuid: string): string { "workflow_instance:" + uuid }
  function StepKey(uuid: string): string { "step_instance:" + uuid }
  function QueueKey(instanceId: string): string { "worker_instance:" + instanceId + ":queue" }

  /** `workflow_key || type || class`, interpolated into a key. */
  function DefinitionName(d: StepDef): string {
    if d.workflowKey != "" then d.workflowKey
    else if d.kind != "" then d.kind
    else match d.cls case Some(c) => c case None => "undefined"
  }

  // ----- Calls -----

  datatype Error = NoWorkflow | BadJson | BadShape | WrongType
  datatype Phase = Fetch | Lookup | SaveStep | Push | SaveInstance | Done | Failed(error: Error)

  /**
   * The activation record of one `routeEvent` call. `seen[j]` is the worker list step `j` found
   * ([] when there was no definition or no worker), `pos` the step the loop is at.
   */
  datatype Call = Call(
    event: string, payload: string, phase: Phase,
    wid: string, rid: string, startTime: string, template: Doc,
    steps: seq<Step>, data: map<string, string>, metadata: map<string, string>,
    pos: nat, seen: seq<seq<Worker>>)

  const NO_DOC := Doc(None, "", map[], map[], [])

  function NewCall(event: string, payload: string): Call {
    Call(event, payload, Fetch, "", "", "", NO_DOC, [], map[], map[], 0, [])
  }

  /** The queue a step goes to, given the worker list it found; None when the loop skips it. */
  function Route(seen: seq<Worker>): Option<string> {
    if seen == [] then None else Some(QueueKey(Select(seen).instanceId))
  }

  function InstanceData(template: Doc, payload: string, wid: string, rid: string): map<string, string> {
    template.data + map["payload" := payload, "workflow_instance_id" := wid, "request_id" := rid]
  }

  /** `current_step` is read from the template, before missing step ids are generated. */
  function InstanceMetadata(template: Doc, startTime: string): map<string, string>
    requires template.steps.Some?
  {
    var steps := template.steps.value;
    template.metadata + map["start_time" := startTime, "end_time" := "", "status" := "pending",
                            "current_step" := if steps == [] then "" else steps[0].id]
  }

  function Traced(data: map<string, string>, seen: seq<Worker>): map<string, string> {
    if seen == [] then data
    else data + map["worker_instance_id" := Select(seen).instanceId, "worker_id" := Select(seen).workerId]
  }

  function StepFields(step: Step): map<string, Json>
    requires step.definition.Some?
  {
    map["definition" := StepDefinition(step.definition.value), "data" := Fields(step.data),
        "metadata" := Blob(step.metadata)]
  }

  function InstanceFields(c: Call): map<string, Json> {
    map["definition" := WorkflowDefinition(c.steps, c.template.hooks), "data" := Fields(c.data),
        "metadata" := Fields(c.metadata)]
  }

  function LoopPhase(pos: nat, length: nat): Phase {
    if pos < length then Lookup else SaveInstance
  }

  // ----- The system -----

  /**
   * `store` and `calls` are the running system. The rest is history: items pushed to and popped
   * from each queue, documents installed, generated and preset ids, the last call and step that
   * wrote each step hash. Three flags record what the environment did: `collided`, that a generated
   * id was not fresh; `reused`, that an installed template presets an id generated before; `stray`,
   * that one presets a step id outside the `step_instance:` namespace.
   */
  datatype State = State(
    store: Store, calls: seq<Call>,
    pushed: map<string, seq<Item>>, popped: map<string, seq<Item>>,
    installed: set<(string, Raw)>, minted: set<string>, presets: set<string>,
    writer: map<string, (nat, nat)>, collided: bool, reused: bool, stray: bool)

  const INITIAL := State(map[], [], map[], map[], {}, {}, {}, map[], false, false, false)

  /** `Advance` carries what the environment supplies to the segment: a uuid, a request id, a time. */
  datatype Label =
    | Install(name: string, raw: Raw)
    | Start(event: string, payload: string)
    | Pop(queue: string)
    | Advance(call: nat, uuid: string, rid: string, now: string)

  function PresetIds(raw: Raw): set<string> {
    if raw.Parsed? && raw.doc.steps.Some? then set s | s in raw.doc.steps.value && s.id != "" :: s.id else {}
  }

  function InstallStep(s: State, name: string, raw: Raw): State {
    var key := WorkflowKey(name);
    var ids := PresetIds(raw);
    s.(store := s.store[key := Text(raw)], installed := s.installed + {(key, raw)}, presets := s.presets + ids,
       reused := s.reused || ids * s.minted != {},
       stray := s.stray || exists id :: id in ids && !("step_instance:" <= id))
  }

  function PopStep(s: State, queue: string): State {
    var (store, item) := RPop(s.store, queue);
    if item.None? then s
    else s.(store := store, popped := s.popped[queue := At(s.popped, queue) + [item.value]])
  }

  function Mint(s: State, id: string): State {
    s.(minted := s.minted + {id}, collided := s.collided || id in s.minted || id in s.presets)
  }

  /** Where a suspended call can be: the fields each segment of the code relies on. */
  predicate InLoop(c: Call) {
    && (c.phase.Fetch? ==> c.pos == 0 && c.seen == [])
    && (c.phase.Lookup? ==> |c.seen| == c.pos < |c.steps|)
    && (c.phase.SaveStep? || c.phase.Push? ==>
          && |c.seen| == c.pos + 1 <= |c.steps|
          && c.seen[c.pos] != []
          && c.steps[c.pos].definition.Some?)
  }

  predicate Sane(s: State) {
    forall i :: 0 <= i < |s.calls| ==> InLoop(s.calls[i])
  }

  /** What a segment leaves: the rest of the system, and the call's own record. */
  datatype Effect = Effect(rest: State, call: Call)

  predicate Keeps(s: State, e: Effect) {
    e.rest.calls == s.calls && InLoop(e.call)
  }

  function Fail(s: State, c: Call, error: Error): (e: Effect)
    ensures Keeps(s, e)
  {
    Effect(s, c.(phase := Failed(error)))
  }

  function Instantiate(c: Call, doc: Doc, wid: string, rid: string, now: string): Call
    requires doc.steps.Some?
  {
    c.(phase := LoopPhase(0, |doc.steps.value|), wid := wid, rid := rid, startTime := now,
       template := doc, steps := doc.steps.value,
       data := InstanceData(doc, c.payload, wid, rid), metadata := InstanceMetadata(doc, now))
  }

  /** GET of the template, then instantiation up to the first step lookup. */
  function FetchStep(s: State, c: Call, uuid: string, rid: string, now: string): (e: Effect)
    requires c.phase.Fetch? && InLoop(c)
    ensures Keeps(s, e)
  {
    match Get(s.store, WorkflowKey(c.event))
    case None => Fail(s, c, WrongType)
    case Some(Empty) => Fail(s, c, NoWorkflow)
    case Some(Malformed) => Fail(s, c, BadJson)
    case Some(Parsed(doc)) =>
      if doc.steps.None? then Fail(s, c, BadShape)
      else Effect(Mint(s, InstanceKey(uuid)), Instantiate(c, doc, InstanceKey(uuid), "req-" + rid, now))
  }

  /** The loop head: the step keeps its id or gets a generated one. */
  function Named(c: Call, uuid: string): (c': Call)
    requires c.pos < |c.steps|
  {
    var step := c.steps[c.pos];
    c.(steps := c.steps[c.pos := step.(id := if step.id != "" then step.id else StepKey(uuid))])
  }

  /** `continue`: the step is left without a worker. */
  function Skip(c: Call): Call {
    c.(pos := c.pos + 1, seen := c.seen + [[]], phase := LoopPhase(c.pos + 1, |c.steps|))
  }

  /** The chosen worker is noted in the step's data. */
  function Assign(c: Call, workers: seq<Worker>): Call
    requires c.pos < |c.steps|
  {
    var step := c.steps[c.pos];
    c.(steps := c.steps[c.pos := step.(data := Traced(step.data, workers))],
       seen := c.seen + [workers], phase := SaveStep)
  }

  /** GET of the step's definition, and the choice of a worker. */
  function LookupStep(s: State, c: Call, uuid: string): (e: Effect)
    requires c.phase.Lookup? && InLoop(c)
    ensures Keeps(s, e)
  {
    var c1 := Named(c, uuid);
    var s1 := if c.steps[c.pos].id != "" then s else Mint(s, StepKey(uuid));
    if c.steps[c.pos].definition.None? then Fail(s1, c1, BadShape)
    else
      match Get(s.store, WorkflowKey(DefinitionName(c.steps[c.pos].definition.value)))
      case None => Fail(s1, c1, WrongType)
      case Some(Malformed) => Fail(s1, c1, BadJson)
      case Some(Empty) => Effect(s1, Skip(c1))
      case Some(Parsed(doc)) => Effect(s1, if doc.workers == [] then Skip(c1) else Assign(c1, doc.workers))
  }

  /** HSET of the step hash by call `i`. */
  function SaveStepStep(s: State, i: nat, c: Call): (e: Effect)
    requires c.phase.SaveStep? && InLoop(c)
    ensures Keeps(s, e)
  {
    var step := c.steps[c.pos];
    match HSet(s.store, step.id, StepFields(step))
    case None => Fail(s, c, WrongType)
    case Some(store) => Effect(s.(store := store, writer := s.writer[step.id := (i, c.pos)]), c.(phase := Push))
  }

  /** LPUSH onto the chosen worker's queue. */
  function PushStep(s: State, c: Call): (e: Effect)
    requires c.phase.Push? && InLoop(c)
    ensures Keeps(s, e)
  {
    var queue := Route(c.seen[c.pos]).value;
    var item := Item(c.wid, c.steps[c.pos].id);
    match LPush(s.store, queue, item)
    case None => Fail(s, c, WrongType)
    case Some(store) =>
      Effect(s.(store := store, pushed := s.pushed[queue := At(s.pushed, queue) + [item]]),
             c.(pos := c.pos + 1, phase := LoopPhase(c.pos + 1, |c.steps|)))
  }

  /** HSET of the instance record, after which the call returns. */
  function SaveInstanceStep(s: State, c: Call): (e: Effect)
    requires c.phase.SaveInstance?
    ensures Keeps(s, e)
  {
    match HSet(s.store, c.wid, InstanceFields(c))
    case None => Fail(s, c, WrongType)
    case Some(store) => Effect(s.(store := store), c.(phase := Done))
  }

  function AdvanceStep(s: State, i: nat, uuid: string, rid: string, now: string): (e: Effect)
    requires i < |s.calls| && InLoop(s.calls[i])
    ensures Keeps(s, e)
  {
    var c := s.calls[i];
    match c.phase
    case Fetch => FetchStep(s, c, uuid, rid, now)
    case Lookup => LookupStep(s, c, uuid)
    case SaveStep => SaveStepStep(s, i, c)
    case Push => PushStep(s, c)
    case SaveInstance => SaveInstanceStep(s, c)
    case _ => Effect(s, c)
  }

  function Resume(s: State, i: nat, e: Effect): (s': State)
    requires Sane(s) && i < |s.calls| && Keeps(s, e)
    ensures Sane(s')
  {
    e.rest.(calls := s.calls[i := e.call])
  }

  /** Every label is possible in every state; advancing a call that is over changes nothing. */
  function Next(s: State, l: Label): (s': State)
    requires Sane(s)
    ensures Sane(s')
  {
    match l
    case Install(name, raw) => InstallStep(s, name, raw)
    case Start(event, payload) => s.(calls := s.calls + [NewCall(event, payload)])
    case Pop(queue) => PopStep(s, queue)
    case Advance(i, uuid, rid, now) => 
      if i < |s.calls| then Resume(s, i, AdvanceStep(s, i, uuid, rid, now)) else s
  }

  function Run(s: State, trace: seq<Label>): (s': State)
    requires Sane(s)
    ensures Sane(s')
  {
    if trace == [] then s else Next(Run(s, trace[..|trace| - 1]), trace[|trace| - 1])
  }

  lemma RunLast(s: State, trace: seq<Label>, l: Label)
    requires Sane(s)
    ensures Run(s, trace + [l]) == Next(Run(s, trace), l)
  {
    assert (trace + [l])[..|trace|] == trace;
  }

  lemma {:induction false} RunAppend(s: State, a: seq<Label>, b: seq<Label>)
    requires Sane(s)
    ensures Run(s, a + b) == Run(Run(s, a), b)
  {
    if b == [] {
      assert a + b == a;
    } else {
      var init, l := b[..|b| - 1], b[|b| - 1];
      assert a + b == (a + init) + [l];
      RunLast(s, a + init, l);
      RunAppend(s, a, init);
    }
  }

  /** A step of anybody else leaves a call's record alone. */
  lemma NextLeavesCall(s: State, l: Label, i: nat)
    requires Sane(s) && i < |s.calls| && !(l.Advance? && l.call == i)
    ensures i < |Next(s, l).calls| && Next(s, l).calls[i] == s.calls[i]
  {
    hide AdvanceStep, PresetIds, RPop;
  }

  lemma NewCallsAreNew(s: State, l: Label, i: nat)
    requires Sane(s) && |s.calls| <= i < |Next(s, l).calls|
    ensures Next(s, l).calls[i].phase.Fetch? && Next(s, l).calls[i].seen == []
  {
    hide AdvanceStep, PresetIds, RPop;
  }

  // ----- What the theorems speak of -----

  /** The items step by step: what the first `n` steps push to `queue`, in template order. */
  function Items(wid: string, steps: seq<Step>, seen: seq<seq<Worker>>, n: nat, queue: string): seq<Item>
    requires n <= |steps| && n <= |seen|
  {
    if n == 0 then []
    else Items(wid, steps, seen, n - 1, queue) +
         if Route(seen[n - 1]) == Some(queue) then [Item(wid, steps[n - 1].id)] else []
  }

  /** The items of a queue history that belong to one workflow instance. */
  function OfInstance(items: seq<Item>, wid: string): seq<Item> {
    if items == [] then []
    else OfInstance(items[..|items| - 1], wid) +
         if items[|items| - 1].workflowInstanceId == wid then [items[|items| - 1]] else []
  }
}
