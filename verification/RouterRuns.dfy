/** Building runs: what each label does to a reachable state, and a supply of fresh uuids. */
module RouterRuns {
  import opened Prelude
  import opened WorkerSelection
  import opened RouterModel
  import opened RouterCalls
  import opened RouterInvariants
  import opened RouterRecords
  import opened RouterHashes
  import opened RouterReachable
  import opened RouterSegments

  /** What a segment of a call changes only by generating an id is as it was. */
  predicate SameEnv(s: State, s': State) {
    && s'.installed == s.installed && s'.minted == s.minted && s'.presets == s.presets
    && s'.collided == s.collided && s'.reused == s.reused && s'.stray == s.stray
  }

  function Pool(w: Worker): Doc {
    Doc(None, "", map[], map[], [w])
  }

  lemma Extend(run: seq<Label>, l: Label) returns (run': seq<Label>)
    ensures run' == run + [l] && run <= run'
    ensures Run(INITIAL, run') == Next(Run(INITIAL, run), l)
    ensures Inv(Run(INITIAL, run')) && Inv(Run(INITIAL, run))
  {
    hide Inv, Next;
    run' := run + [l];
    RunLast(INITIAL, run, l);
    ReachableInv(run);
    ReachableInv(run');
  }

  // ----- Fresh uuids -----

  lemma {:induction false} LongerThanAll(used: set<string>) returns (n: nat)
    ensures forall x :: x in used ==> |x| < n
  {
    n := 0;
    if used != {} {
      var x :| x in used;
      n := LongerThanAll(used - {x});
      n := if |x| < n then n else |x| + 1;
    }
  }

  lemma FreshUuid(used: set<string>) returns (uuid: string)
    ensures InstanceKey(uuid) !in used && StepKey(uuid) !in used
  {
    var n := LongerThanAll(used);
    uuid := seq(n, _ => '0');
    assert |InstanceKey(uuid)| >= n && |StepKey(uuid)| >= n;
  }

  // ----- Single steps -----

  /** A document that presets no id. */
  lemma InstallPlain(s: State, name: string, raw: Raw)
    requires Sane(s) && PresetIds(raw) == {}
    ensures var s' := Next(s, Install(name, raw));
      s' == s.(store := s.store[WorkflowKey(name) := Text(raw)], installed := s.installed + {(WorkflowKey(name), raw)})
  {
    hide WorkflowKey;
    assert s.presets + PresetIds(raw) == s.presets;
    assert PresetIds(raw) * s.minted == {};
  }

  lemma StartIs(s: State, event: string, payload: string)
    requires Sane(s)
    ensures Next(s, Start(event, payload)) == s.(calls := s.calls + [NewCall(event, payload)])
  {
  }

  /** The lookup of a step whose definition lists one worker. */
  lemma LookupRoutes(s: State, i: nat, pool: Doc, w: Worker, l: Label)
    requires Sane(s) && i < |s.calls| && s.calls[i].phase.Lookup? && InLoop(s.calls[i]) && l.Advance? && l.call == i
    requires var step := s.calls[i].steps[s.calls[i].pos];
      && step.definition.Some? && pool.workers == [w]
      && Get(s.store, WorkflowKey(DefinitionName(step.definition.value))) == Some(Parsed(pool))
    ensures Next(s, l) == Put(AfterNaming(s, s.calls[i], l.uuid), i, Assign(Named(s.calls[i], l.uuid), [w]))
  {
    hide WorkflowKey, DefinitionName, StepKey, Assign, Next, AfterNaming, Put;
    LookupSegment(s, i, l, Assign(Named(s.calls[i], l.uuid), [w]));
  }

  lemma SaveStepGoesOn(s: State, i: nat, l: Label)
    requires Inv(s) && !s.stray && i < |s.calls| && s.calls[i].phase.SaveStep? && l.Advance? && l.call == i
    ensures InLoop(s.calls[i])
    ensures var c := s.calls[i]; var step := c.steps[c.pos];
      Next(s, l) == Put(s.(store := s.store[step.id := Hash(StepFields(step))], writer := s.writer[step.id := (i, c.pos)]),
                        i, c.(phase := Push))
  {
    hide Fifo, Installed, Fresh, Ordered, Hashes, Records, CallOk, StepFields, NamespaceOf;
    assert CallOk(s.calls[i]);
    SaveStepWritesHash(s, i);
    hide SaveStepStep;
  }

  /** With typed keys no command of a call is refused. */
  lemma {:induction false} NotRefused(s: State, i: nat, l: Label)
    requires Inv(s) && !s.stray && i < |s.calls| && l.Advance? && l.call == i
    ensures InLoop(s.calls[i]) && i < |Next(s, l).calls| && Next(s, l).calls[i].phase != Failed(WrongType)
  {
    assert CallOk(s.calls[i]) by { hide Fifo, Installed, Fresh, Ordered, Hashes, Records, CallOk; }
    NoWrongType(s, i, l.uuid, l.rid, l.now);
    var e := AdvanceIs(s, l);
    hide Inv, CallOk, AdvanceStep, Next;
  }

  lemma PushGoesOn(s: State, i: nat, l: Label)
    requires Inv(s) && !s.stray && i < |s.calls| && s.calls[i].phase.Push? && l.Advance? && l.call == i
    ensures InLoop(s.calls[i])
    ensures var c, s' := s.calls[i], Next(s, l); var queue := QueueKey(Select(c.seen[c.pos]).instanceId);
      && s'.calls == s.calls[i := c.(pos := c.pos + 1, phase := LoopPhase(c.pos + 1, |c.steps|))]
      && s'.pushed == s.pushed[queue := At(s.pushed, queue) + [Item(c.wid, c.steps[c.pos].id)]]
      && s'.writer == s.writer && SameEnv(s, s')
  {
    NotRefused(s, i, l);
    hide Inv, Next, LPush, QueueKey, Select, LoopPhase, At;
    PushSegment(s, i, l);
  }

  lemma SaveInstanceGoesOn(s: State, i: nat, l: Label)
    requires Inv(s) && !s.stray && i < |s.calls| && s.calls[i].phase.SaveInstance? && l.Advance? && l.call == i
    ensures var s' := Next(s, l);
      && s'.calls == s.calls[i := s.calls[i].(phase := Done)]
      && s'.pushed == s.pushed && s'.writer == s.writer && SameEnv(s, s')
  {
    NotRefused(s, i, l);
    hide Inv, Next, HSet, InstanceFields;
    RecordSegment(s, i, l);
  }
}
