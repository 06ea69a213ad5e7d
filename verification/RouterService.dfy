/**
 * `routeEvent` as the imperative code it is, suspended at every `await` while other calls, workers
 * and administrators run. Its whole effect is a run of the transition system.
 */
module RouterService {
  import opened Prelude
  import opened WorkerSelection
  import opened RouterModel
  import opened RouterSegments

  /** What others do while call `i` is suspended. */
  function Others(labels: seq<Label>, i: nat): (r: seq<Label>)
    ensures forall l :: l in r ==> !(l.Advance? && l.call == i)
  {
    if labels == [] then []
    else
      var l := labels[0];
      (if l.Advance? && l.call == i then [] else [l]) + Others(labels[1..], i)
  }

  /** Nobody else touches a suspended call. */
  lemma {:induction false} OthersLeaveCall(s: State, labels: seq<Label>, i: nat)
    requires Sane(s) && i < |s.calls|
    requires forall l :: l in labels ==> !(l.Advance? && l.call == i)
    ensures i < |Run(s, labels).calls| && Run(s, labels).calls[i] == s.calls[i]
  {
    if labels != [] {
      var init, l := labels[..|labels| - 1], labels[|labels| - 1];
      OthersLeaveCall(s, init, i);
      assert l in labels;
      NextLeavesCall(Run(s, init), l, i);
    }
  }

  /** Redis and the activation records of all calls, with the histories the theorems speak of. */
  class World {
    var s: State

    ghost predicate Valid()
      reads this
    {
      Sane(s)
    }

    constructor ()
      ensures Valid() && s == INITIAL
    {
      s := INITIAL;
    }

    method Begin(event: string, payload: string) returns (i: nat)
      requires Valid()
      modifies this
      ensures Valid() && s == Next(old(s), Start(event, payload))
      ensures i == |old(s).calls| && i < |s.calls| && s.calls[i] == NewCall(event, payload)
    {
      i := |s.calls|;
      s := s.(calls := s.calls + [NewCall(event, payload)]);
    }

    /** The call's frame as it is left behind. */
    method Settle(i: nat, frame: Call)
      requires Valid() && i < |s.calls| && InLoop(frame)
      modifies this
      ensures Valid() && s == Put(old(s), i, frame)
    {
      s := s.(calls := s.calls[i := frame]);
    }

    /** An `await`: everybody else runs, our frame stays. */
    method Suspend(i: nat, env: seq<Label>)
      requires Valid() && i < |s.calls|
      modifies this
      ensures Valid() && s == Run(old(s), Others(env, i))
      ensures i < |s.calls| && s.calls[i] == old(s).calls[i]
    {
      OthersLeaveCall(s, Others(env, i), i);
      s := Run(s, Others(env, i));
    }

    method NewId(id: string)
      requires Valid()
      modifies this
      ensures Valid() && s == Mint(old(s), id) && s.calls == old(s).calls
    {
      s := s.(minted := s.minted + {id}, collided := s.collided || id in s.minted || id in s.presets);
    }

    method HSetStep(i: nat, pos: nat, key: string, fields: map<string, Json>) returns (ok: bool)
      requires Valid()
      modifies this
      ensures Valid() && ok == HSet(old(s).store, key, fields).Some?
      ensures s == if ok then StepWritten(old(s), i, pos, key, fields) else old(s)
    {
      var r := HSet(s.store, key, fields);
      ok := r.Some?;
      if ok { s := s.(store := r.value, writer := s.writer[key := (i, pos)]); }
    }

    method HSetRecord(key: string, fields: map<string, Json>) returns (ok: bool)
      requires Valid()
      modifies this
      ensures Valid() && ok == HSet(old(s).store, key, fields).Some?
      ensures s == if ok then RecordWritten(old(s), key, fields) else old(s)
    {
      var r := HSet(s.store, key, fields);
      ok := r.Some?;
      if ok { s := s.(store := r.value); }
    }

    method LPushItem(queue: string, item: Item) returns (ok: bool)
      requires Valid()
      modifies this
      ensures Valid() && ok == LPush(old(s).store, queue, item).Some?
      ensures s == if ok then ItemPushed(old(s), queue, item) else old(s)
    {
      var r := LPush(s.store, queue, item);
      ok := r.Some?;
      if ok { s := s.(store := r.value, pushed := s.pushed[queue := At(s.pushed, queue) + [item]]); }
    }
  }

  datatype Result = WorkflowStarted(workflowInstanceId: string, requestId: string) | Thrown(error: Error)

  // ----- routeEvent -----

  /** The frame of one `routeEvent` call: its locals, with the step list it changes in place. */
  class RouteCall {
    const event: string
    const payload: string
    var phase: Phase
    var wid: string
    var rid: string
    var startTime: string
    var template: Doc
    var steps: array<Step>
    var data: map<string, string>
    var metadata: map<string, string>
    var pos: nat
    var seen: seq<seq<Worker>>

    function Frame(): Call
      reads this, steps
    {
      Call(event, payload, phase, wid, rid, startTime, template, steps[..], data, metadata, pos, seen)
    }

    constructor (event: string, payload: string)
      ensures Frame() == NewCall(event, payload) && fresh(steps)
    {
      this.event, this.payload, phase, wid, rid, startTime := event, payload, Fetch, "", "", "";
      template, data, metadata, pos, seen := NO_DOC, map[], map[], 0, [];
      steps := new Step[0];
    }

    /** An exception leaves the frame as it is. */
    method Throw(w: World, i: nat, e: Error)
      requires w.Valid() && i < |w.s.calls|
      modifies w, this
      ensures w.Valid() && Frame() == old(Frame()).(phase := Failed(e)) && steps == old(steps)
      ensures w.s == Put(old(w.s), i, Frame())
    {
      phase := Failed(e);
      w.Settle(i, Frame());
    }

    /** The frame moves on to the next command. */
    method Proceed(w: World, i: nat, at: nat, next: Phase)
      requires w.Valid() && i < |w.s.calls| && InLoop(Frame().(phase := next, pos := at))
      modifies w, this
      ensures w.Valid() && Frame() == old(Frame()).(phase := next, pos := at) && steps == old(steps)
      ensures w.s == Put(old(w.s), i, Frame())
    {
      pos, phase := at, next;
      w.Settle(i, Frame());
    }

    static method StepArray(given: seq<Step>) returns (a: array<Step>)
      ensures fresh(a) && a[..] == given
    {
      a := new Step[|given|](j requires 0 <= j < |given| => given[j]);
    }

    /** The parsed template becomes the call's instance. */
    method Fill(doc: Doc, id: string, requestId: string, now: string)
      requires doc.steps.Some?
      modifies this
      ensures Frame() == Instantiate(old(Frame()), doc, id, requestId, now) && fresh(steps)
      ensures phase.SaveInstance? || phase.Lookup?
    {
      var given := doc.steps.value;
      var parsed := StepArray(given);
      template, wid, rid, startTime, steps := doc, id, requestId, now, parsed;
      data := doc.data + map["payload" := payload, "workflow_instance_id" := id, "request_id" := requestId];
      metadata := doc.metadata + map["start_time" := now, "end_time" := "", "status" := "pending",
                                     "current_step" := if given == [] then "" else given[0].id];
      phase := if given == [] then SaveInstance else Lookup;
    }

    /** From the template's arrival to the first lookup. */
    method Instantiation(w: World, i: nat, uuid: string, requestUuid: string, now: string)
      requires w.Valid() && i < |w.s.calls| && w.s.calls[i] == Frame() && phase.Fetch?
      modifies w, this
      ensures w.Valid() && i < |w.s.calls| && w.s.calls[i] == Frame()
      ensures w.s == Next(old(w.s), Advance(i, uuid, requestUuid, now))
      ensures fresh(steps) || steps == old(steps)
      ensures phase.Failed? || phase.SaveInstance? || phase.Lookup?
    {
      hide Next, WorkflowKey, InstanceKey, Instantiate, Get, Mint;
      ghost var l := Advance(i, uuid, requestUuid, now);
      var raw := Get(w.s.store, WorkflowKey(event));
      if Refusal(raw).Some? {
        FetchFails(w.s, i, l);
        Throw(w, i, Refusal(raw).value);
      } else {
        FetchSucceeds(w.s, i, l, raw.value.doc);
        InstantiateInLoop(w.s.calls[i], raw.value.doc, InstanceKey(uuid), "req-" + requestUuid, now);
        w.NewId(InstanceKey(uuid));
        Fill(raw.value.doc, InstanceKey(uuid), "req-" + requestUuid, now);
        w.Settle(i, Frame());
      }
    }

    /** The loop head: the step gets its id, its definition is read, and a worker is chosen. */
    method Name(w: World, uuid: string)
      requires w.Valid() && pos < steps.Length
      modifies w, steps
      ensures w.Valid() && Frame() == Named(old(Frame()), uuid)
      ensures w.s == AfterNaming(old(w.s), old(Frame()), uuid)
    {
      var step := steps[pos];
      var id := if step.id != "" then step.id else StepKey(uuid);
      if step.id == "" { w.NewId(id); }
      steps[pos] := step.(id := id);
      assert steps[..] == old(steps[..])[pos := step.(id := id)];
    }

    method Continue()
      requires pos < steps.Length
      modifies this
      ensures Frame() == Skip(old(Frame())) && steps == old(steps)
      ensures pos == old(pos) + 1 && phase == LoopPhase(pos, steps.Length)
    {
      seen, pos := seen + [[]], pos + 1;
      phase := LoopPhase(pos, steps.Length);
    }

    method Choose(workers: seq<Worker>)
      requires pos < steps.Length && workers != []
      modifies this, steps
      ensures Frame() == Assign(old(Frame()), workers) && steps == old(steps)
      ensures pos == old(pos) && phase.SaveStep?
    {
      var chosen := Select(workers);
      var step := steps[pos];
      var traced := step.data + map["worker_instance_id" := chosen.instanceId, "worker_id" := chosen.workerId];
      steps[pos] := step.(data := traced);
      seen, phase := seen + [workers], SaveStep;
      assert steps[..] == old(steps[..])[pos := step.(data := Traced(step.data, workers))];
    }

    /** One loop head, from the step's definition arriving to the next command. */
    method Selection(w: World, i: nat, uuid: string, requestUuid: string, now: string)
      requires w.Valid() && i < |w.s.calls| && w.s.calls[i] == Frame() && phase.Lookup?
      modifies w, this, steps
      ensures w.Valid() && i < |w.s.calls| && w.s.calls[i] == Frame()
      ensures w.s == Next(old(w.s), Advance(i, uuid, requestUuid, now))
      ensures steps == old(steps)
      ensures phase.Failed? || (phase.SaveStep? && pos == old(pos)) ||
              ((phase.Lookup? || phase.SaveInstance?) && pos == old(pos) + 1 <= steps.Length)
    {
      hide Next, WorkflowKey, StepKey, DefinitionName, Named, Skip, Assign, AfterNaming, Put;
      ghost var l, s0 := Advance(i, uuid, requestUuid, now), w.s;
      ghost var c1 := Named(s0.calls[i], uuid);
      LookupInLoop(s0.calls[i], uuid, []);
      NamingKeeps(s0, s0.calls[i], uuid);
      Name(w, uuid);
      var definition := steps[pos].definition;
      if definition.None? {
        LookupSegment(s0, i, l, c1.(phase := Failed(BadShape)));
        Throw(w, i, BadShape);
        return;
      }
      var raw := Get(w.s.store, WorkflowKey(DefinitionName(definition.value)));
      if raw.None? {
        LookupSegment(s0, i, l, c1.(phase := Failed(WrongType)));
        Throw(w, i, WrongType);
      } else if raw.value.Malformed? {
        LookupSegment(s0, i, l, c1.(phase := Failed(BadJson)));
        Throw(w, i, BadJson);
      } else if raw.value.Empty? || raw.value.doc.workers == [] {
        LookupSegment(s0, i, l, Skip(c1));
        Continue();
        w.Settle(i, Frame());
      } else {
        LookupInLoop(s0.calls[i], uuid, raw.value.doc.workers);
        LookupSegment(s0, i, l, Assign(c1, raw.value.doc.workers));
        Choose(raw.value.doc.workers);
        w.Settle(i, Frame());
      }
    }

    /** The step hash has been written; the push is next. */
    method SaveHash(w: World, i: nat, uuid: string, requestUuid: string, now: string)
      requires w.Valid() && i < |w.s.calls| && w.s.calls[i] == Frame() && phase.SaveStep?
      modifies w, this
      ensures w.Valid() && i < |w.s.calls| && w.s.calls[i] == Frame()
      ensures w.s == Next(old(w.s), Advance(i, uuid, requestUuid, now))
      ensures steps == old(steps) && pos == old(pos) && (phase.Failed? || phase.Push?)
    {
      hide Next, StepFields, HSet, Sane, InLoop, Put, StepWritten;
      Known(w.s, i);
      GoesOn(w.s.calls[i]);
      SaveStepSegment(w.s, i, Advance(i, uuid, requestUuid, now));
      var step := steps[pos];
      var ok := w.HSetStep(i, pos, step.id, StepFields(step));
      if ok {
        Proceed(w, i, pos, Push);
      } else {
        Throw(w, i, WrongType);
      }
    }

    /** The item has been pushed; the loop moves on. */
    method Enqueue(w: World, i: nat, uuid: string, requestUuid: string, now: string)
      requires w.Valid() && i < |w.s.calls| && w.s.calls[i] == Frame() && phase.Push?
      modifies w, this
      ensures w.Valid() && i < |w.s.calls| && w.s.calls[i] == Frame()
      ensures w.s == Next(old(w.s), Advance(i, uuid, requestUuid, now))
      ensures steps == old(steps)
      ensures phase.Failed? || ((phase.Lookup? || phase.SaveInstance?) && pos == old(pos) + 1 <= steps.Length)
    {
      hide Next, QueueKey, LPush, Select, Sane, InLoop, Put, ItemPushed;
      Known(w.s, i);
      GoesOn(w.s.calls[i]);
      PushSegment(w.s, i, Advance(i, uuid, requestUuid, now));
      var ok := w.LPushItem(QueueKey(Select(seen[pos]).instanceId), Item(wid, steps[pos].id));
      if ok {
        Proceed(w, i, pos + 1, LoopPhase(pos + 1, steps.Length));
      } else {
        Throw(w, i, WrongType);
      }
    }

    /** The instance record has been written; the call returns. */
    method Finish(w: World, i: nat, uuid: string, requestUuid: string, now: string)
      requires w.Valid() && i < |w.s.calls| && w.s.calls[i] == Frame() && phase.SaveInstance?
      modifies w, this
      ensures w.Valid() && i < |w.s.calls| && w.s.calls[i] == Frame()
      ensures w.s == Next(old(w.s), Advance(i, uuid, requestUuid, now))
      ensures steps == old(steps) && (phase.Failed? || phase.Done?)
    {
      hide Next, InstanceFields, HSet, Sane, InLoop, Put, RecordWritten;
      Known(w.s, i);
      GoesOn(w.s.calls[i]);
      RecordSegment(w.s, i, Advance(i, uuid, requestUuid, now));
      var fields := InstanceFields(Frame());
      assert fields == InstanceFields(w.s.calls[i]);
      var ok := w.HSetRecord(wid, fields);
      if ok {
        Proceed(w, i, pos, Done);
      } else {
        Throw(w, i, WrongType);
      }
    }

    // ----- The whole call -----

    /** The frame is on record, and the world is a run of the transition system. */
    ghost predicate Suspended(w: World, i: nat, s0: State, trace: seq<Label>)
      reads this, steps, w
    {
      && Sane(s0) && w.Valid() && i < |w.s.calls| && w.s.calls[i] == Frame() && w.s == Run(s0, trace)
    }
  }
}

module RouteEvent {
  import opened Prelude
  import opened RouterModel
  import opened RouterService

  /** `await`: the others run, and the run so far grows by what they did. */
  method Await(w: World, i: nat, frame: RouteCall, env: seq<Label>, ghost s0: State, ghost trace: seq<Label>)
    returns (ghost trace': seq<Label>)
    requires frame.Suspended(w, i, s0, trace)
    modifies w
    ensures frame.Suspended(w, i, s0, trace')
  {
    hide Run, Others;
    RunAppend(s0, trace, Others(env, i));
    w.Suspend(i, env);
    trace' := trace + Others(env, i);
  }

  /** Handling one step of the template: lookup, step hash, push, with an await before each. */
  method RouteStep(w: World, i: nat, frame: RouteCall, uuid: string, rid: string, now: string,
                   env: nat -> seq<Label>, ghost s0: State, ghost trace: seq<Label>)
    returns (ghost trace': seq<Label>)
    requires frame.Suspended(w, i, s0, trace) && frame.phase.Lookup?
    modifies w, frame, frame.steps
    ensures frame.Suspended(w, i, s0, trace') && frame.steps == old(frame.steps)
    ensures || frame.phase.Failed?
            || ((frame.phase.Lookup? || frame.phase.SaveInstance?) && frame.pos == old(frame.pos) + 1 <= frame.steps.Length)
  {
    hide Next, Run, InLoop;
    ghost var l := Advance(i, uuid, rid, now);
    trace' := Await(w, i, frame, env(0), s0, trace);
    RunLast(s0, trace', l);
    frame.Selection(w, i, uuid, rid, now);
    trace' := trace' + [l];
    if !frame.phase.SaveStep? { return; }
    trace' := Await(w, i, frame, env(1), s0, trace');
    RunLast(s0, trace', l);
    frame.SaveHash(w, i, uuid, rid, now);
    trace' := trace' + [l];
    if !frame.phase.Push? { return; }
    trace' := Await(w, i, frame, env(2), s0, trace');
    RunLast(s0, trace', l);
    frame.Enqueue(w, i, uuid, rid, now);
    trace' := trace' + [l];
  }

  /**
   * `routeEvent`, with everything others do at each of its awaits (`env`, by segment and await) and
   * the values of the uuid generator and the clock supplied. From any state of the world its effect
   * is a run of the transition system, and it returns or throws as its call ended.
   */
  method Route(w: World, event: string, payload: string, uuid: nat -> string, now: string,
               env: (nat, nat) -> seq<Label>)
    returns (result: Result, i: nat, ghost trace: seq<Label>)
    requires w.Valid()
    modifies w
    ensures w.Valid() && w.s == Run(old(w.s), trace)
    ensures i == |old(w.s).calls| && i < |w.s.calls|
    ensures w.s.calls[i].event == event && w.s.calls[i].payload == payload
    ensures match result
      case WorkflowStarted(wid, rid) => w.s.calls[i].phase.Done? && w.s.calls[i].wid == wid && w.s.calls[i].rid == rid
      case Thrown(e) => w.s.calls[i].phase == Failed(e)
  {
    hide Next, Run, InLoop;
    ghost var s0 := w.s;
    var frame := new RouteCall(event, payload);
    RunLast(s0, [], Start(event, payload));
    RunNothing(s0);
    trace := [] + [Start(event, payload)];
    i := w.Begin(event, payload);

    trace := Await(w, i, frame, env(0, 0), s0, trace);
    RunLast(s0, trace, Advance(i, uuid(0), uuid(1), now));
    frame.Instantiation(w, i, uuid(0), uuid(1), now);
    trace := trace + [Advance(i, uuid(0), uuid(1), now)];
    StaysInLoop(w.s, i);

    while frame.phase.Lookup?
      invariant fresh(frame) && fresh(frame.steps) && frame.Suspended(w, i, s0, trace)
      invariant frame.phase.Failed? || frame.phase.SaveInstance? || (frame.phase.Lookup? && frame.pos < frame.steps.Length)
      decreases if frame.phase.Lookup? then frame.steps.Length - frame.pos + 1 else 0
    {
      var k := frame.pos + 1;
      trace := RouteStep(w, i, frame, uuid(k + 1), "", now, (a: nat) => env(k, a), s0, trace);
      StaysInLoop(w.s, i);
    }

    if frame.phase.SaveInstance? {
      trace := Await(w, i, frame, env(0, 1), s0, trace);
      RunLast(s0, trace, Advance(i, "", "", now));
      frame.Finish(w, i, "", "", now);
      trace := trace + [Advance(i, "", "", now)];
    }
    result := if frame.phase.Failed? then Thrown(frame.phase.error) else WorkflowStarted(frame.wid, frame.rid);
  }

  lemma RunNothing(s: State)
    requires Sane(s)
    ensures Run(s, []) == s
  {
  }

  lemma StaysInLoop(s: State, i: nat)
    requires Sane(s) && i < |s.calls|
    ensures s.calls[i].phase.Lookup? ==> s.calls[i].pos < |s.calls[i].steps|
  {
    assert InLoop(s.calls[i]);
  }
}
