/** Step hashes and instance records in every reachable state. */
module RouterHashes {
  import opened Prelude
  import opened WorkerSelection
  import opened RouterModel
  import opened RouterCalls
  import opened RouterInvariants
  import opened RouterRecords

  /** Step `j` of a call was looked up, found a worker, and its hash was written. */
  ghost predicate WrittenStep(c: Call, j: nat) {
    j < |c.seen| && j < |c.steps| && c.seen[j] != [] && (j < c.pos || (j == c.pos && c.phase.Push?))
  }

  /** The hash under `k` is the one its last writer wrote. */
  ghost predicate WriterOk(s: State, k: string)
    requires k in s.writer
  {
    var (i, j) := s.writer[k];
    && i < |s.calls| && j < |s.calls[i].seen| && j < |s.calls[i].steps|
    && s.calls[i].seen[j] != [] && s.calls[i].steps[j].id == k && s.calls[i].steps[j].definition.Some?
    && NamespaceOf(k) == Steps
    && k in s.store && s.store[k] == Hash(StepFields(s.calls[i].steps[j]))
  }

  ghost predicate Recorded(s: State, c: Call) {
    forall j: nat :: WrittenStep(c, j) ==> c.steps[j].id in s.writer
  }

  /** A hash key is a written step, or a generated instance id. */
  ghost predicate HashKey(s: State, k: string) {
    (NamespaceOf(k) == Steps && k in s.writer) || (NamespaceOf(k) == Instances && k in s.minted)
  }

  ghost predicate Hashes(s: State) {
    && (forall k :: k in s.writer ==> WriterOk(s, k))
    && (forall i :: 0 <= i < |s.calls| ==> Recorded(s, s.calls[i]))
    && (forall k :: k in s.store && s.store[k].Hash? ==> HashKey(s, k))
    && (forall q, k :: 0 <= k < |At(s.pushed, q)| ==> At(s.pushed, q)[k].stepInstanceId in s.writer)
    && (forall id :: id in s.presets ==> NamespaceOf(id) == Steps)
    && (forall i :: 0 <= i < |s.calls| ==> s.calls[i].phase != Failed(WrongType))
  }

  /** The call keeps what it did and wrote no further step. */
  ghost predicate Extends(c: Call, c': Call) {
    && |c.seen| <= |c'.seen| && (c.wid != "" ==> |c.steps| == |c'.steps|)
    && (c.wid == "" ==> c.seen == [])
    && (forall j :: 0 <= j < |c.seen| ==> c'.seen[j] == c.seen[j])
    && (forall j :: 0 <= j < |c.seen| && j < |c.steps| && j < |c'.steps| ==> c'.steps[j] == c.steps[j])
  }

  ghost predicate NoNewWrite(c: Call, c': Call) {
    forall j: nat :: WrittenStep(c', j) ==> WrittenStep(c, j)
  }

  lemma {:induction false} HashesFrame(s: State, s': State)
    requires Hashes(s)
    requires s'.writer == s.writer && s.minted <= s'.minted && (forall id :: id in s'.presets ==> NamespaceOf(id) == Steps)
    requires forall k :: k in s.writer ==> k in s'.store && k in s.store && s'.store[k] == s.store[k]
    requires forall k :: k in s'.store && s'.store[k].Hash? ==> (k in s.store && s.store[k].Hash?) || HashKey(s, k)
    requires |s.calls| <= |s'.calls|
    requires forall i :: 0 <= i < |s.calls| ==> Extends(s.calls[i], s'.calls[i]) && NoNewWrite(s.calls[i], s'.calls[i])
    requires forall i :: |s.calls| <= i < |s'.calls| ==> s'.calls[i].seen == []
    requires forall i :: 0 <= i < |s'.calls| ==> s'.calls[i].phase != Failed(WrongType)
    requires forall q, k :: 0 <= k < |At(s'.pushed, q)| ==> At(s'.pushed, q)[k].stepInstanceId in s.writer
    ensures Hashes(s')
  {
    hide NamespaceOf, StepFields;
    forall k | k in s'.writer ensures WriterOk(s', k) {
      assert WriterOk(s, k);
      assert Extends(s.calls[s.writer[k].0], s'.calls[s.writer[k].0]);
    }
    forall i | 0 <= i < |s'.calls| ensures Recorded(s', s'.calls[i]) {
      if i < |s.calls| {
        assert Recorded(s, s.calls[i]) && Extends(s.calls[i], s'.calls[i]);
        assert NoNewWrite(s.calls[i], s'.calls[i]);
      }
    }
  }

  // ----- What a segment does to its call -----

  lemma {:induction false} LookupExtends(s: State, c: Call, uuid: string)
    requires c.phase.Lookup? && InLoop(c) && CallOk(c)
    ensures Extends(c, LookupStep(s, c, uuid).call) && NoNewWrite(c, LookupStep(s, c, uuid).call)
  {
    LookupHasWid(c);
    LookupGrows(s, c, uuid);
    hide LookupStep, CallOk;
  }

  /** A lookup changes the step at hand and may note its worker list; nothing more is written. */
  lemma {:induction false} LookupGrows(s: State, c: Call, uuid: string)
    requires c.phase.Lookup? && InLoop(c)
    ensures var c' := LookupStep(s, c, uuid).call;
      && c'.wid == c.wid && |c'.steps| == |c.steps| && c.seen <= c'.seen && |c'.seen| <= |c.seen| + 1
      && (forall j :: 0 <= j < |c.steps| && j != c.pos ==> c'.steps[j] == c.steps[j])
      && !c'.phase.Push? && (c'.pos > c.pos ==> c'.pos == c.pos + 1 == |c'.seen| && c'.seen[c.pos] == [])
  {
    LookupShape(s, c, uuid);
    hide LookupStep, Traced, StepKey, DefinitionName, WorkflowKey, Get;
  }

  lemma LookupHasWid(c: Call)
    requires c.phase.Lookup? && CallOk(c)
    ensures c.wid != ""
  {
    hide Started, NamespaceOf;
  }

  lemma FetchExtends(s: State, c: Call, uuid: string, rid: string, now: string)
    requires c.phase.Fetch? && InLoop(c) && CallOk(c)
    ensures Extends(c, FetchStep(s, c, uuid, rid, now).call) && NoNewWrite(c, FetchStep(s, c, uuid, rid, now).call)
  {
    hide InstanceData, InstanceMetadata, InstanceKey, WorkflowKey, NamespaceOf;
  }

  lemma PushNoNewWrite(s: State, c: Call)
    requires c.phase.Push? && InLoop(c)
    ensures NoNewWrite(c, PushStep(s, c).call)
  {
    hide QueueKey, Select;
  }

  lemma {:induction false} AdvanceExtends(s: State, i: nat, uuid: string, rid: string, now: string)
    requires Sane(s) && i < |s.calls| && CallOk(s.calls[i])
    ensures Extends(s.calls[i], AdvanceStep(s, i, uuid, rid, now).call)
    ensures !s.calls[i].phase.SaveStep? ==> NoNewWrite(s.calls[i], AdvanceStep(s, i, uuid, rid, now).call)
  {
    hide FetchStep, LookupStep, PushStep, NoNewWrite;
    var c := s.calls[i];
    if c.phase.Fetch? {
      FetchExtends(s, c, uuid, rid, now);
    } else if c.phase.Lookup? {
      LookupExtends(s, c, uuid);
    } else {
      AdvanceWrites(s, i, uuid, rid, now);
      if c.phase.Push? {
        PushNoNewWrite(s, c);
      } else if !c.phase.SaveStep? {
        AdvanceKeepsPlace(s, i, uuid, rid, now);
        hide AdvanceStep;
        StaysUnwritten(c, AdvanceStep(s, i, uuid, rid, now).call);
      }
    }
  }

  lemma StaysUnwritten(c: Call, c': Call)
    requires c' == c.(phase := c'.phase) && (c.phase.SaveInstance? || c.phase.Done? || c.phase.Failed?)
    requires c'.phase.Push? ==> c.phase.Push?
    ensures NoNewWrite(c, c')
  {
  }

  // ----- Namespaces keep the commands apart -----

  /** The id of a looked-up step is a `step_instance:` key. */
  lemma StepIdIsStepKey(s: State, c: Call, j: nat)
    requires CallOk(c) && c.wid != "" && j < |c.seen| && Reads(s, c)
    requires forall p :: p in s.installed ==> PresetIds(p.1) <= s.presets
    requires forall id :: id in s.presets ==> NamespaceOf(id) == Steps
    ensures NamespaceOf(c.steps[j].id) == Steps
  {
    hide NamespaceOf, InstanceData, InstanceMetadata, Traced;
    var t := c.template.steps.value[j];
    assert Handled(t, c.steps[j], c.seen[j]);
    if t.id != "" {
      assert t.id in PresetIds(Parsed(c.template));
      assert PresetIds((WorkflowKey(c.event), Parsed(c.template)).1) <= s.presets;
    } else {
      PrefixedStepKey(c.steps[j].id);
    }
  }

  /** With typed keys, no command of a call meets a value of the wrong type. */
  lemma {:induction false} NoWrongType(s: State, i: nat, uuid: string, rid: string, now: string)
    requires Sane(s) && i < |s.calls| && CallOk(s.calls[i]) && Fifo(s) && Installed(s) && Hashes(s)
    ensures AdvanceStep(s, i, uuid, rid, now).call.phase != Failed(WrongType)
  {
    hide Fifo, Installed, Hashes, CallOk, InLoop, FetchStep, LookupStep, SaveStepStep, PushStep, SaveInstanceStep;
    var c := s.calls[i];
    match c.phase
    case Fetch => FetchTyped(s, c, uuid, rid, now);
    case Lookup => LookupTyped(s, c, uuid);
    case SaveStep => SaveStepTyped(s, i);
    case Push => PushTyped(s, c);
    case SaveInstance => SaveInstanceTyped(s, i);
    case _ => NotFailedYet(s, i);
  }

  lemma NotFailedYet(s: State, i: nat)
    requires i < |s.calls| && Hashes(s)
    ensures s.calls[i].phase != Failed(WrongType)
  {
    hide WriterOk, Recorded, HashKey, NamespaceOf;
  }

  lemma FetchTyped(s: State, c: Call, uuid: string, rid: string, now: string)
    requires c.phase.Fetch? && InLoop(c) && Fifo(s) && Hashes(s)
    ensures FetchStep(s, c, uuid, rid, now).call.phase != Failed(WrongType)
  {
    KeyNamespaces(c.event);
    hide InstanceData, InstanceMetadata, InstanceKey, WorkflowKey, NamespaceOf, Mint;
  }

  lemma LookupTyped(s: State, c: Call, uuid: string)
    requires c.phase.Lookup? && InLoop(c) && Fifo(s) && Hashes(s)
    ensures LookupStep(s, c, uuid).call.phase != Failed(WrongType)
  {
    if LookupStep(s, c, uuid).call.phase == Failed(WrongType) { LookupRefused(s, c, uuid); }
    hide LookupStep, WorkflowKey, DefinitionName, NamespaceOf;
    if c.steps[c.pos].definition.Some? { KeyNamespaces(DefinitionName(c.steps[c.pos].definition.value)); }
  }

  lemma LookupRefused(s: State, c: Call, uuid: string)
    requires c.phase.Lookup? && InLoop(c) && LookupStep(s, c, uuid).call.phase == Failed(WrongType)
    ensures c.steps[c.pos].definition.Some?
    ensures Get(s.store, WorkflowKey(DefinitionName(c.steps[c.pos].definition.value))).None?
  {
    hide Named, Traced, StepKey, WorkflowKey, DefinitionName, Get, Mint;
  }

  lemma SaveStepTyped(s: State, i: nat)
    requires i < |s.calls| && s.calls[i].phase.SaveStep? && InLoop(s.calls[i]) && CallOk(s.calls[i])
    requires Fifo(s) && Installed(s) && Hashes(s)
    ensures SaveStepStep(s, i, s.calls[i]).call.phase != Failed(WrongType)
  {
    StepIdIsStepKey(s, s.calls[i], s.calls[i].pos);
    hide CallOk, Installed, StepFields, NamespaceOf;
  }

  lemma PushTyped(s: State, c: Call)
    requires c.phase.Push? && InLoop(c) && Fifo(s) && Hashes(s)
    ensures PushStep(s, c).call.phase != Failed(WrongType)
  {
    KeyNamespaces(Select(c.seen[c.pos]).instanceId);
    hide QueueKey, Select, NamespaceOf, At;
  }

  lemma SaveInstanceTyped(s: State, i: nat)
    requires i < |s.calls| && s.calls[i].phase.SaveInstance? && CallOk(s.calls[i]) && Fifo(s) && Hashes(s)
    ensures SaveInstanceStep(s, s.calls[i]).call.phase != Failed(WrongType)
  {
    hide InstanceFields, NamespaceOf, Handled, InstanceData, InstanceMetadata;
  }

  // ----- Preservation -----

  lemma HSetKnown(store: Store, key: string, fields: map<string, Json>, was: map<string, Json>)
    requires key in store ==> store[key] == Hash(was)
    requires was.Keys <= fields.Keys
    ensures HSet(store, key, fields) == Some(store[key := Hash(fields)])
  {
    if key in store { assert was + fields == fields; }
  }

  /** What is under a step key is the hash of its last writer, so a write replaces it. */
  lemma {:induction false} SaveStepWritesHash(s: State, i: nat)
    requires Sane(s) && i < |s.calls| && s.calls[i].phase.SaveStep? && CallOk(s.calls[i])
    requires Fifo(s) && Installed(s) && Hashes(s)
    ensures var c := s.calls[i]; var step := c.steps[c.pos];
      && NamespaceOf(step.id) == Steps
      && SaveStepStep(s, i, c) == Effect(
            s.(store := s.store[step.id := Hash(StepFields(step))], writer := s.writer[step.id := (i, c.pos)]),
            c.(phase := Push))
  {
    hide NamespaceOf, PresetIds;
    var c := s.calls[i];
    var step := c.steps[c.pos];
    StepIdIsStepKey(s, c, c.pos);
    var was: map<string, Json> := map[];
    if step.id in s.store {
      assert HashKey(s, step.id);
      assert WriterOk(s, step.id);
      var (i', j') := s.writer[step.id];
      was := StepFields(s.calls[i'].steps[j']);
      SameFields(s.calls[i'].steps[j'], step);
    }
    hide StepFields, Hashes, Fifo, Installed, CallOk;
    HSetKnown(s.store, step.id, StepFields(step), was);
  }

  lemma SameFields(a: Step, b: Step)
    requires a.definition.Some? && b.definition.Some?
    ensures StepFields(a).Keys == StepFields(b).Keys
  {
  }

  lemma {:induction false} SaveStepKeepsHashes(s: State, s': State, i: nat)
    requires Sane(s) && i < |s.calls| && s.calls[i].phase.SaveStep? && InLoop(s.calls[i]) && Hashes(s)
    requires var c := s.calls[i]; var step := c.steps[c.pos];
      && NamespaceOf(step.id) == Steps
      && s' == s.(store := s.store[step.id := Hash(StepFields(step))], writer := s.writer[step.id := (i, c.pos)],
                  calls := s.calls[i := c.(phase := Push)])
    ensures Hashes(s')
  {
    hide NamespaceOf, StepFields;
    forall k | k in s'.writer ensures WriterOk(s', k) { SaveStepWriter(s, s', i, k); }
    hide WriterOk;
    forall a | 0 <= a < |s'.calls| ensures Recorded(s', s'.calls[a]) {
      assert Recorded(s, s.calls[a]);
    }
    forall k | k in s'.store && s'.store[k].Hash? ensures HashKey(s', k) {
      if k in s.store && s.store[k].Hash? { assert HashKey(s, k); }
    }
  }

  lemma SaveStepWriter(s: State, s': State, i: nat, k: string)
    requires Sane(s) && i < |s.calls| && s.calls[i].phase.SaveStep? && InLoop(s.calls[i])
    requires forall k :: k in s.writer ==> WriterOk(s, k)
    requires var c := s.calls[i]; var step := c.steps[c.pos];
      && NamespaceOf(step.id) == Steps
      && s' == s.(store := s.store[step.id := Hash(StepFields(step))], writer := s.writer[step.id := (i, c.pos)],
                  calls := s.calls[i := c.(phase := Push)])
    requires k in s'.writer
    ensures WriterOk(s', k)
  {
    hide NamespaceOf, StepFields;
    var c := s.calls[i];
    if k == c.steps[c.pos].id {
      assert s'.writer[k] == (i, c.pos);
      assert s'.calls[i].steps == c.steps && s'.calls[i].seen == c.seen;
      assert s'.store[k] == Hash(StepFields(s'.calls[i].steps[c.pos]));
    } else {
      var (i', _) := s.writer[k];
      assert WriterOk(s, k);
      assert s'.calls[i'].steps == s.calls[i'].steps && s'.calls[i'].seen == s.calls[i'].seen;
    }
  }

  /** The id of a step being pushed was written just before. */
  lemma {:induction false} PushedIsWritten(s: State, i: nat, uuid: string, rid: string, now: string)
    requires Sane(s) && i < |s.calls| && Hashes(s)
    ensures forall q, k :: 0 <= k < |At(AdvanceStep(s, i, uuid, rid, now).rest.pushed, q)| ==>
      At(AdvanceStep(s, i, uuid, rid, now).rest.pushed, q)[k].stepInstanceId in s.writer
  {
    AdvancePushed(s, i, uuid, rid, now);
    hide AdvanceStep, WriterOk, HashKey;
    var c := s.calls[i];
    assert Recorded(s, c);
    assert c.phase.Push? ==> WrittenStep(c, c.pos);
  }

  /** Step hashes stay, and no hash appears that is not accounted for. */
  ghost predicate KeysKept(s: State, s': State) {
    && s'.writer == s.writer
    && (forall k :: k in s.writer ==> k in s'.store && k in s.store && s'.store[k] == s.store[k])
    && (forall k :: k in s'.store && s'.store[k].Hash? ==> (k in s.store && s.store[k].Hash?) || HashKey(s, k))
  }

  lemma WriterKeys(s: State)
    requires Hashes(s)
    ensures forall k :: k in s.writer ==> k in s.store && s.store[k].Hash? && NamespaceOf(k) == Steps
  {
    hide NamespaceOf, StepFields;
    forall k | k in s.writer ensures k in s.store && s.store[k].Hash? && NamespaceOf(k) == Steps {
      assert WriterOk(s, k);
    }
  }

  lemma PushKeepsKeys(s: State, c: Call)
    requires c.phase.Push? && InLoop(c) && Hashes(s)
    ensures KeysKept(s, PushStep(s, c).rest)
  {
    hide NamespaceOf, QueueKey, Select, StepFields;
    WriterKeys(s);
  }

  lemma {:induction false} SaveInstanceKeepsKeys(s: State, c: Call)
    requires c.phase.SaveInstance? && Hashes(s) && c.wid in s.minted && NamespaceOf(c.wid) == Instances
    ensures KeysKept(s, SaveInstanceStep(s, c).rest)
  {
    hide NamespaceOf, InstanceFields, StepFields;
    WriterKeys(s);
    assert HashKey(s, c.wid);
  }

  /** Apart from writing a step hash, a segment changes only list keys and its own instance record. */
  lemma {:induction false} AdvanceKeepsKeys(s: State, i: nat, uuid: string, rid: string, now: string)
    requires Sane(s) && i < |s.calls| && CallOk(s.calls[i]) && Fresh(s) && Hashes(s)
    requires !s.calls[i].phase.SaveStep?
    ensures KeysKept(s, AdvanceStep(s, i, uuid, rid, now).rest)
  {
    var c := s.calls[i];
    assert Minted(s, c) && InLoop(c);
    hide SaveInstanceStep, PushStep, FetchStep, LookupStep, Hashes, Fresh, KeysKept, InLoop, CallOk;
    match c.phase
    case Fetch =>
      FetchKeepsStore(s, c, uuid, rid, now);
      SameStoreKeepsKeys(s, FetchStep(s, c, uuid, rid, now).rest);
    case Lookup =>
      LookupKeepsStore(s, c, uuid);
      SameStoreKeepsKeys(s, LookupStep(s, c, uuid).rest);
    case Push => PushKeepsKeys(s, c);
    case SaveInstance => OwnRecordKey(s, c); SaveInstanceKeepsKeys(s, c);
    case _ => SameStoreKeepsKeys(s, s);
  }

  lemma SameStoreKeepsKeys(s: State, s': State)
    requires Hashes(s) && s'.store == s.store && s'.writer == s.writer
    ensures KeysKept(s, s')
  {
    WriterKeys(s);
    hide Hashes, NamespaceOf, HashKey;
  }

  lemma OwnRecordKey(s: State, c: Call)
    requires c.phase.SaveInstance? && CallOk(c) && Minted(s, c)
    ensures c.wid in s.minted && NamespaceOf(c.wid) == Instances
  {
    hide NamespaceOf, Started, Generated;
  }

  lemma {:induction false} AdvanceKeepsHashes(s: State, l: Label)
    requires Sane(s) && CallsOk(s) && Fifo(s) && Installed(s) && Fresh(s) && Hashes(s)
    requires l.Advance? && l.call < |s.calls|
    ensures Hashes(Next(s, l))
  {
    assert InLoop(s.calls[l.call]) && CallOk(s.calls[l.call]);
    hide CallOk, InLoop, CallsOk, Fifo, Installed, Fresh, Hashes, AdvanceStep, Next;
    if s.calls[l.call].phase.SaveStep? {
      SaveStepAdvance(s, l);
      SaveStepWritesHash(s, l.call);
      hide SaveStepStep, StepFields;
      SaveStepKeepsHashes(s, Next(s, l), l.call);
    } else {
      OtherAdvanceKeepsHashes(s, l);
    }
  }

  lemma SaveStepAdvance(s: State, l: Label)
    requires Sane(s) && l.Advance? && l.call < |s.calls| && s.calls[l.call].phase.SaveStep? && InLoop(s.calls[l.call])
    ensures var e := SaveStepStep(s, l.call, s.calls[l.call]); Next(s, l) == e.rest.(calls := s.calls[l.call := e.call])
  {
    hide SaveStepStep, InLoop;
  }

  lemma {:induction false} OtherAdvanceKeepsHashes(s: State, l: Label)
    requires Sane(s) && CallsOk(s) && Fifo(s) && Installed(s) && Fresh(s) && Hashes(s)
    requires l.Advance? && l.call < |s.calls| && !s.calls[l.call].phase.SaveStep?
    ensures Hashes(Next(s, l))
  {
    var s' := Next(s, l);
    var i := l.call;
    var e := AdvanceIs(s, l);
    assert CallOk(s.calls[i]) && Reads(s, s.calls[i]);
    NoWrongType(s, i, l.uuid, l.rid, l.now);
    AdvanceExtends(s, i, l.uuid, l.rid, l.now);
    AdvanceKeepsKeys(s, i, l.uuid, l.rid, l.now);
    PushedIsWritten(s, i, l.uuid, l.rid, l.now);
    AdvanceKeepsDocuments(s, i, l.uuid, l.rid, l.now);
    var id := AdvanceIds(s, i, l.uuid, l.rid, l.now);
    assert s.minted <= s'.minted;
    hide AdvanceStep, CallOk, Fifo, Installed, Fresh, HashKey, WriterOk, Recorded, NewIds, NamespaceOf;
    forall a | 0 <= a < |s.calls| ensures Extends(s.calls[a], s'.calls[a]) && NoNewWrite(s.calls[a], s'.calls[a]) {
      if a != i { ExtendsItself(s, a); }
    }
    HashesFrame(s, s');
  }

  lemma ExtendsItself(s: State, a: nat)
    requires CallsOk(s) && a < |s.calls|
    ensures Extends(s.calls[a], s.calls[a]) && NoNewWrite(s.calls[a], s.calls[a])
  {
    hide NamespaceOf;
    assert CallOk(s.calls[a]);
  }

  lemma InstallKeepsHashes(s: State, name: string, raw: Raw)
    requires CallsOk(s) && Hashes(s) && !InstallStep(s, name, raw).stray
    ensures Hashes(InstallStep(s, name, raw))
  {
    var s' := InstallStep(s, name, raw);
    KeyNamespaces(name);
    WriterKeys(s);
    forall id | id in s'.presets ensures NamespaceOf(id) == Steps {
      if id in PresetIds(raw) { PrefixedStepKey(id); }
    }
    hide NamespaceOf, PresetIds;
    forall a | 0 <= a < |s.calls| ensures Extends(s.calls[a], s'.calls[a]) && NoNewWrite(s.calls[a], s'.calls[a]) {
      ExtendsItself(s, a);
    }
    HashesFrame(s, s');
  }

  lemma PopKeepsHashes(s: State, queue: string)
    requires CallsOk(s) && Hashes(s)
    ensures Hashes(PopStep(s, queue))
  {
    var s' := PopStep(s, queue);
    WriterKeys(s);
    PopIs(s, queue);
    hide PopStep, NamespaceOf, CallsOk, WriterOk, Recorded, HashKey, Extends, NoNewWrite;
    forall a | 0 <= a < |s.calls| ensures Extends(s.calls[a], s'.calls[a]) && NoNewWrite(s.calls[a], s'.calls[a]) {
      ExtendsItself(s, a);
    }
    NoneRefused(s);
    HashesFrame(s, s');
  }

  lemma NoneRefused(s: State)
    requires Hashes(s)
    ensures forall i :: 0 <= i < |s.calls| ==> s.calls[i].phase != Failed(WrongType)
  {
  }

  lemma PopIs(s: State, queue: string)
    ensures var s' := PopStep(s, queue);
      && s' == s.(store := s'.store, popped := s'.popped)
      && (forall k :: k in s'.store && s'.store[k].Hash? ==> k in s.store && s.store[k] == s'.store[k])
      && (forall k :: k in s.store && s.store[k].Hash? ==> k in s'.store && s.store[k] == s'.store[k])
  {
  }

  lemma {:induction false} NextKeepsHashes(s: State, l: Label)
    requires Sane(s) && CallsOk(s) && Fifo(s) && Installed(s) && Fresh(s)
    requires Hashes(s) && !Next(s, l).stray
    ensures Hashes(Next(s, l))
  {
    hide AdvanceStep, InstallStep, PopStep, Fifo, Installed, Fresh, NamespaceOf;
    match l
    case Install(name, raw) => InstallKeepsHashes(s, name, raw);
    case Pop(queue) => PopKeepsHashes(s, queue);
    case Start(event, payload) =>
      var s' := Next(s, l);
      WriterKeys(s);
      forall a | 0 <= a < |s.calls| ensures Extends(s.calls[a], s'.calls[a]) && NoNewWrite(s.calls[a], s'.calls[a]) {
        ExtendsItself(s, a);
      }
      HashesFrame(s, s');
    case Advance(i, _, _, _) => if i < |s.calls| { AdvanceKeepsHashes(s, l); }
  }
}
