/** Exactly which routed steps of an instance record keep agreeing with their step hashes. */
module RouterAgreement {
  import opened Prelude
  import opened WorkerSelection
  import opened RouterModel
  import opened RouterCalls
  import opened RouterInvariants
  import opened RouterRecords
  import opened RouterHashes
  import opened RouterReachable
  import opened RouterSegments
  import opened RouterRuns
  import opened RouterTheorems

  /** Fresh uuids, preset ids in their namespace, and no preset id that was generated before. */
  predicate Clean(s: State) {
    !s.stray && !s.collided && !s.reused
  }

  /** Step `j` of a completed call found a worker. */
  predicate Routed(s: State, i: nat, j: nat) {
    i < |s.calls| && s.calls[i].phase.Done? && j < |s.calls[i].seen| && s.calls[i].seen[j] != []
  }

  /** Step `j` in the stored instance record of call `i` has the data its step hash has. */
  predicate RecordAgrees(s: State, i: nat, j: nat)
    requires i < |s.calls|
  {
    var wid := s.calls[i].wid;
    && wid in s.store && s.store[wid].Hash?
    && var record := s.store[wid].fields;
    && "definition" in record && record["definition"].WorkflowDefinition? && j < |record["definition"].steps|
    && var step := record["definition"].steps[j];
    && step.id in s.store && s.store[step.id].Hash?
    && "data" in s.store[step.id].fields && s.store[step.id].fields["data"] == Fields(step.data)
  }

  /** At the end of the run, the record and the hash agree if the run is clean. */
  ghost predicate AgreesAfter(run: seq<Label>, i: nat, j: nat) {
    var s := Run(INITIAL, run);
    Clean(s) ==> i < |s.calls| && RecordAgrees(s, i, j)
  }

  // ----- Generated ids agree for good -----

  /** A completed call is over: nothing in its activation record changes any more. */
  lemma {:induction false} DoneStays(trace: seq<Label>, run: seq<Label>, i: nat)
    requires trace <= run && i < |Run(INITIAL, trace).calls| && Run(INITIAL, trace).calls[i].phase.Done?
    ensures i < |Run(INITIAL, run).calls| && Run(INITIAL, run).calls[i] == Run(INITIAL, trace).calls[i]
    decreases |run|
  {
    if |run| == |trace| {
      assert run == trace;
    } else {
      var init, l := run[..|run| - 1], run[|run| - 1];
      DoneStays(trace, init, i);
      DoneStaysNext(Run(INITIAL, init), l, i);
      hide Next;
    }
  }

  lemma DoneStaysNext(s: State, l: Label, i: nat)
    requires Sane(s) && i < |s.calls| && s.calls[i].phase.Done?
    ensures i < |Next(s, l).calls| && Next(s, l).calls[i] == s.calls[i]
  {
    if !(l.Advance? && l.call == i) {
      NextLeavesCall(s, l, i);
      hide Next;
    }
  }

  lemma RecordOfDone(s: State, i: nat)
    requires Inv(s) && !s.stray && !s.collided && i < |s.calls| && s.calls[i].phase.Done?
    ensures var c := s.calls[i]; c.wid in s.store && s.store[c.wid] == Hash(InstanceFields(c))
  {
    hide Fifo, Installed, Fresh, Ordered, Hashes, InstanceFields, NamespaceOf;
    assert CallOk(s.calls[i]) && RecordOk(s, s.calls[i]);
  }

  lemma HashWritten(s: State, id: string)
    requires Inv(s) && !s.stray && id in s.writer
    ensures WriterOk(s, id)
  {
    hide Fifo, Installed, Fresh, Ordered, Records, CallsOk, NamespaceOf, WriterOk;
  }

  lemma LastWriterAgrees(s: State, i: nat, j: nat)
    requires Inv(s) && !s.stray && !s.collided && Routed(s, i, j) && j < |s.calls[i].steps|
    requires var id := s.calls[i].steps[j].id; id in s.writer && s.writer[id] == (i, j)
    ensures RecordAgrees(s, i, j)
  {
    RecordOfDone(s, i);
    HashWritten(s, s.calls[i].steps[j].id);
    hide Inv, NamespaceOf, RecordAgrees;
    BothWritten(s, i, j);
  }

  lemma BothWritten(s: State, i: nat, j: nat)
    requires i < |s.calls| && j < |s.calls[i].steps| && s.calls[i].steps[j].definition.Some?
    requires var c := s.calls[i]; c.wid in s.store && s.store[c.wid] == Hash(InstanceFields(c))
    requires var x := s.calls[i].steps[j]; x.id in s.store && s.store[x.id] == Hash(StepFields(x))
    ensures RecordAgrees(s, i, j)
  {
  }

  lemma GeneratedAgrees(trace: seq<Label>, run: seq<Label>, i: nat, j: nat)
    requires trace <= run && Routed(Run(INITIAL, trace), i, j) && Generated(Run(INITIAL, trace).calls[i], j)
    ensures AgreesAfter(run, i, j)
  {
    DoneStays(trace, run, i);
    var s := Run(INITIAL, run);
    hide Run, Inv, Generated, RecordAgrees;
    if Clean(s) {
      ReachableInv(run);
      OnlyWriter(s, i, j);
      LastWriterAgrees(s, i, j);
    }
  }

  // ----- Any id can be preset by another template -----

  function OneStep(id: string): Step {
    Step(id, Some(StepDef("k", "", None, "")), map[], "")
  }

  function Flow(id: string): Doc {
    Doc(Some([OneStep(id)]), "", map[], map[], [])
  }

  lemma FlowPresets(id: string)
    requires id != "" && "step_instance:" <= id
    ensures PresetIds(Parsed(Flow(id))) == {id}
    ensures WorkflowKey("a") != WorkflowKey("k") && DefinitionName(OneStep(id).definition.value) == "k"
  {
    assert OneStep(id) in Flow(id).steps.value;
    assert WorkflowKey("a")[9] == 'a' && WorkflowKey("k")[9] == 'k';
  }

  lemma FlowInstalled(s: State, id: string)
    requires Sane(s) && id != "" && "step_instance:" <= id
    ensures var s' := Next(s, Install("a", Parsed(Flow(id))));
      && s' == s.(store := s.store[WorkflowKey("a") := Text(Parsed(Flow(id)))], installed := s'.installed,
                  presets := s.presets + {id}, reused := s'.reused)
      && (s'.reused <==> s.reused || id in s.minted)
  {
    FlowPresets(id);
    hide WorkflowKey, PresetIds;
    assert id in s.minted ==> id in {id} * s.minted;
  }

  /** Install the flow and its one worker, and start a call. */
  lemma {:induction false} SetUp(trace: seq<Label>, id: string, w: Worker) returns (run: seq<Label>)
    requires id != "" && "step_instance:" <= id
    ensures trace <= run && Inv(Run(INITIAL, run))
    ensures var s, s' := Run(INITIAL, trace), Run(INITIAL, run);
      && s'.calls == s.calls + [NewCall("a", "")]
      && Get(s'.store, WorkflowKey("a")) == Some(Parsed(Flow(id)))
      && Get(s'.store, WorkflowKey("k")) == Some(Parsed(Pool(w)))
      && s'.minted == s.minted && s'.presets == s.presets + {id} && s'.collided == s.collided && s'.stray == s.stray
      && (s'.reused <==> s.reused || id in s.minted)
  {
    FlowPresets(id);
    NoPresets(w);
    hide Run, WorkflowKey, Inv, PresetIds, Next;
    FlowInstalled(Run(INITIAL, trace), id);
    run := Extend(trace, Install("a", Parsed(Flow(id))));
    InstallPlain(Run(INITIAL, run), "k", Parsed(Pool(w)));
    run := Extend(run, Install("k", Parsed(Pool(w))));
    StartIs(Run(INITIAL, run), "a", "");
    run := Extend(run, Start("a", ""));
  }

  lemma NoPresets(w: Worker)
    ensures PresetIds(Parsed(Pool(w))) == {}
  {
  }

  /** Call `n` is on the flow's only step. */
  predicate OnFlow(s: State, n: nat, phase: Phase, id: string, steps: seq<Step>, seen: seq<seq<Worker>>) {
    && n < |s.calls| && !s.stray && s.calls[n].phase == phase && s.calls[n].pos == 0
    && s.calls[n].template == Flow(id) && s.calls[n].steps == steps && s.calls[n].seen == seen
  }

  /** From `s` to `s'` only call `n` moved, and no flag was raised. */
  predicate Moved(s: State, s': State, n: nat) {
    && n < |s.calls| == |s'.calls| && s'.calls == s.calls[n := s'.calls[n]]
    && s'.collided == s.collided && s'.reused == s.reused && s'.stray == s.stray
  }

  lemma FlowFetched(s: State, n: nat, l: Label, id: string)
    requires Sane(s) && n < |s.calls| && s.calls[n] == NewCall("a", "") && l.Advance? && l.call == n && !s.stray
    requires Get(s.store, WorkflowKey("a")) == Some(Parsed(Flow(id))) && InstanceKey(l.uuid) !in s.minted + s.presets
    ensures var s' := Next(s, l);
      OnFlow(s', n, Lookup, id, [OneStep(id)], []) && Moved(s, s', n) && s'.store == s.store
  {
    FetchSucceeds(s, n, l, Flow(id));
    hide WorkflowKey, InstanceKey, InstanceData, InstanceMetadata, Next;
  }

  lemma FlowRouted(s: State, n: nat, l: Label, id: string, w: Worker)
    requires Sane(s) && OnFlow(s, n, Lookup, id, [OneStep(id)], []) && l.Advance? && l.call == n
    requires Get(s.store, WorkflowKey("k")) == Some(Parsed(Pool(w))) && id != ""
    ensures var s' := Next(s, l);
      OnFlow(s', n, SaveStep, id, [OneStep(id).(data := Traced(map[], [w]))], [[w]]) && Moved(s, s', n)
  {
    Known(s, n);
    LookupRoutes(s, n, Pool(w), w, l);
    hide WorkflowKey, Traced, Next;
    assert Named(s.calls[n], l.uuid) == s.calls[n];
  }

  lemma FlowSaved(s: State, n: nat, l: Label, id: string, w: Worker)
    requires Inv(s) && OnFlow(s, n, SaveStep, id, [OneStep(id).(data := Traced(map[], [w]))], [[w]])
    requires l.Advance? && l.call == n
    ensures var s' := Next(s, l);
      && OnFlow(s', n, Push, id, s.calls[n].steps, [[w]]) && Moved(s, s', n)
      && id in s'.store && s'.store[id].Hash? && "data" in s'.store[id].fields
      && s'.store[id].fields["data"] == Fields(Traced(map[], [w])) && id in s'.writer && s'.writer[id] == (n, 0)
  {
    SaveStepGoesOn(s, n, l);
    hide Inv, Traced, Next;
  }

  /** Three segments of the new call: instantiation, lookup, step hash. */
  lemma {:induction false} ToHash(run: seq<Label>, n: nat, id: string, w: Worker) returns (run': seq<Label>, l: Label)
    requires var s := Run(INITIAL, run);
      && n < |s.calls| && s.calls[n] == NewCall("a", "") && id != "" && !s.stray
      && Get(s.store, WorkflowKey("a")) == Some(Parsed(Flow(id)))
      && Get(s.store, WorkflowKey("k")) == Some(Parsed(Pool(w)))
    ensures run <= run' && Inv(Run(INITIAL, run')) && l.Advance? && l.call == n
    ensures var s, s' := Run(INITIAL, run), Run(INITIAL, run');
      && OnFlow(s', n, Push, id, [OneStep(id).(data := Traced(map[], [w]))], [[w]]) && Moved(s, s', n)
      && id in s'.store && s'.store[id].Hash? && "data" in s'.store[id].fields
      && s'.store[id].fields["data"] == Fields(Traced(map[], [w])) && id in s'.writer && s'.writer[id] == (n, 0)
  {
    hide Run, WorkflowKey, Inv, Next, Traced, Get;
    var s := Run(INITIAL, run);
    var uuid := FreshUuid(s.minted + s.presets);
    l := Advance(n, uuid, "r", "t");
    FlowFetched(s, n, l, id);
    run' := Extend(run, l);
    FlowRouted(Run(INITIAL, run'), n, l, id, w);
    run' := Extend(run', l);
    FlowSaved(Run(INITIAL, run'), n, l, id, w);
    run' := Extend(run', l);
  }

  /** The last two segments: the push and the instance record. */
  lemma {:induction false} ToEnd(run: seq<Label>, n: nat, l: Label) returns (run': seq<Label>)
    requires var s := Run(INITIAL, run);
      && !s.stray && n < |s.calls| && l.Advance? && l.call == n
      && s.calls[n].phase.Push? && s.calls[n].pos == 0 && |s.calls[n].steps| == 1
    ensures run <= run' && Inv(Run(INITIAL, run'))
    ensures var s, s' := Run(INITIAL, run), Run(INITIAL, run');
      && s'.calls == s.calls[n := s.calls[n].(pos := 1, phase := Done)] && s'.writer == s.writer && SameEnv(s, s')
  {
    hide Run, Inv, Next, QueueKey, Select, At;
    run' := Extend(run, l);
    PushGoesOn(Run(INITIAL, run), n, l);
    SaveInstanceGoesOn(Run(INITIAL, run'), n, l);
    run' := Extend(run', l);
  }

  lemma OtherWorker(data: map<string, string>, w: Worker)
    requires "worker_id" in data && w.workerId != data["worker_id"]
    ensures Traced(map[], [w]) != data
  {
    assert Traced(map[], [w])["worker_id"] == w.workerId;
  }

  lemma SeparatedBy(s: State, i: nat, j: nat, data: map<string, string>)
    requires Inv(s) && !s.stray && !s.collided && Routed(s, i, j) && j < |s.calls[i].steps|
    requires var x := s.calls[i].steps[j];
      && x.data != data && x.id in s.store && s.store[x.id].Hash?
      && "data" in s.store[x.id].fields && s.store[x.id].fields["data"] == Fields(data)
    ensures !RecordAgrees(s, i, j)
  {
    RecordOfDone(s, i);
    hide Inv;
  }

  lemma RoutedStepFacts(s: State, i: nat, j: nat)
    requires Inv(s) && !s.stray && Routed(s, i, j)
    ensures var c := s.calls[i];
      && c.template.steps.Some? && j < |c.steps| && j < |c.template.steps.value|
      && c.wid != "" && Handled(c.template.steps.value[j], c.steps[j], c.seen[j])
      && "step_instance:" <= c.steps[j].id && "worker_id" in c.steps[j].data
  {
    var c := s.calls[i];
    assert CallOk(c) && Reads(s, c);
    hide Fifo, Fresh, Ordered, Records, InstanceData, InstanceMetadata, Select;
    StepIdIsStepKey(s, c, j);
  }

  /**
   * From every reachable state with fresh uuids, a template that presets the id of a routed step
   * separates the completed record from the step hash.
   */
  lemma {:induction false} AnyIdCanSeparate(trace: seq<Label>, i: nat, j: nat) returns (run: seq<Label>)
    requires var s := Run(INITIAL, trace); !s.stray && !s.collided && Routed(s, i, j)
    ensures trace <= run
    ensures var s, s' := Run(INITIAL, trace), Run(INITIAL, run);
      && !s'.stray && !s'.collided && Routed(s', i, j) && !RecordAgrees(s', i, j)
      && j < |s.calls[i].steps| && (s'.reused <==> s.reused || s.calls[i].steps[j].id in s.minted)
  {
    var s := Run(INITIAL, trace);
    ReachableInv(trace);
    RoutedStepFacts(s, i, j);
    hide Handled, Inv;
    var x := s.calls[i].steps[j];
    var w := Worker(x.data["worker_id"] + "'", "", None);
    OtherWorker(x.data, w);
    run := SetUp(trace, x.id, w);
    var l;
    run, l := ToHash(run, |s.calls|, x.id, w);
    var s' := Run(INITIAL, run);
    hide Run;
    SeparatedBy(s', i, j, Traced(map[], [w]));
  }

  /**
   * The record of a completed call and the hash of a routed step agree at the end of every clean
   * continuation iff the template carried no id for the step.
   */
  lemma {:induction false} AgreesForGoodIff(trace: seq<Label>, i: nat, j: nat)
    requires Clean(Run(INITIAL, trace)) && Routed(Run(INITIAL, trace), i, j)
    ensures var c := Run(INITIAL, trace).calls[i];
      && c.template.steps.Some? && j < |c.template.steps.value|
      && ((forall run :: trace <= run ==> AgreesAfter(run, i, j)) <==> c.template.steps.value[j].id == "")
  {
    var s := Run(INITIAL, trace);
    var c := s.calls[i];
    ReachableInv(trace);
    RoutedStepFacts(s, i, j);
    if c.template.steps.value[j].id == "" {
      assert Generated(c, j);
      forall run | trace <= run ensures AgreesAfter(run, i, j) { GeneratedAgrees(trace, run, i, j); }
    } else {
      PresetNotMinted(s, i, j);
      hide Handled, Inv;
      var run := AnyIdCanSeparate(trace, i, j);
      assert !AgreesAfter(run, i, j);
    }
  }

  lemma PresetNotMinted(s: State, i: nat, j: nat)
    requires Inv(s) && Clean(s) && Routed(s, i, j)
    requires s.calls[i].template.steps.Some? && j < |s.calls[i].template.steps.value|
    requires s.calls[i].template.steps.value[j].id != ""
    ensures j < |s.calls[i].steps| && s.calls[i].steps[j].id !in s.minted
  {
    var c := s.calls[i];
    assert CallOk(c) && Reads(s, c);
    hide Fifo, Ordered, Hashes, Records, InstanceData, InstanceMetadata, NamespaceOf;
    PresetIdIsKnown(s, c, j);
  }

  /** Such records exist: a run with a preset id that completes, and its separating continuation. */
  lemma {:induction false} SharedIdSeparatesRecord() returns (trace: seq<Label>, run: seq<Label>)
    ensures trace <= run
    ensures var s, s' := Run(INITIAL, trace), Run(INITIAL, run);
      && Clean(s) && Routed(s, 0, 0) && RecordAgrees(s, 0, 0)
      && Clean(s') && Routed(s', 0, 0) && !RecordAgrees(s', 0, 0)
  {
    var id, w := StepKey("p"), Worker("A", "A", None);
    trace := SetUp([], id, w);
    assert Run(INITIAL, []) == INITIAL;
    var l;
    trace, l := ToHash(trace, 0, id, w);
    trace := ToEnd(trace, 0, l);
    hide Run;
    LastWriterAgrees(Run(INITIAL, trace), 0, 0);
    PresetNotMinted(Run(INITIAL, trace), 0, 0);
    run := AnyIdCanSeparate(trace, 0, 0);
  }
}
