/** Running one procedure behind its cursor: load, claim, invoke, then save or delete. */
module ProcedureRuntime {
  import opened Base
  import opened Procedure
  import opened CursorStore

  const RECURSION_LIMIT := 32

  datatype Definition = Definition(version: string, steps: seq<Step>)

  /** What a run returns: the state, the cursor it stands on, and the context its handlers worked on. */
  datatype RunResult<C> = RunResult(state: ProcedureState, checkpoint: Option<AopCheckpoint>, context: C)

  /** The caller's own values win over the stored references, which win over nothing. */
  function Seed(
    id: ProcedureId, version: string, existing: Option<AopCheckpoint>, initial: ProcedureUpdate): ProcedureUpdate
  {
    ProcedureUpdate(
      Set(initial.procedureId.Over(id)), Set(initial.version.Over(version)),
      if initial.refs.Set? then initial.refs else if existing.Some? then Set(existing.value.refs) else Keep,
      initial.terminal, initial.absence, initial.interrupt, initial.approvalId, initial.stepTrail)
  }

  function CursorOf(
    id: ProcedureId, version: string, conversationId: string, threadId: string, now: string, s: ProcedureState
  ): AopCheckpoint {
    AopCheckpoint(
      threadId, conversationId, id, version,
      if s.stepTrail == [] then "" else s.stepTrail[|s.stepTrail| - 1], s.stepTrail, s.refs,
      if "draftVersion" in s.refs then s.refs["draftVersion"] else None, s.approvalId,
      s.terminal, s.absence, s.interrupt, now)
  }

  /** The state a stored cursor stands for. */
  function StateFrom(cp: AopCheckpoint): ProcedureState {
    ProcedureState(cp.procedureId, cp.procedureVersion, cp.refs, cp.terminal, cp.absence, cp.interrupt, cp.approvalId,
      cp.stepTrail)
  }

  /** Where a run leaves the cursors. */
  function Settled(
    cs: Cursors, existing: Option<AopCheckpoint>, threadId: string, cursor: AopCheckpoint, s: ProcedureState): Cursors
  {
    if s.terminal == Some(WaitingHuman) then SaveCursor(cs, cursor)
    else if existing.Some? then DeleteCursor(cs, threadId)
    else cs
  }

  class ProcedureRuntime<C(!new)> {
    const definitions: map<ProcedureId, Definition>
    const table: Table<C>
    var compiled: map<ProcedureId, Graph<C>>

    ghost predicate Valid()
      reads this
    {
      && compiled.Keys == definitions.Keys
      && forall id :: id in definitions ==> IsChain(compiled[id], definitions[id].steps, table)
    }

    /** Compiles the catalogue once; `ready` is false when a definition does not compile. */
    constructor (definitions: map<ProcedureId, Definition>, table: Table<C>)
      ensures this.definitions == definitions && this.table == table && compiled == map[]
    {
      this.definitions, this.table, this.compiled := definitions, table, map[];
    }

    method CompileAll() returns (ready: bool)
      requires compiled == map[]
      modifies this
      ensures ready ==> Valid()
      ensures ready <==> forall id :: id in definitions ==>
        definitions[id].steps != [] && DistinctSteps(definitions[id].steps) && Published(definitions[id].steps, table)
    {
      var left := definitions.Keys;
      while left != {}
        invariant left <= definitions.Keys && compiled.Keys == definitions.Keys - left
        invariant forall id :: id in compiled ==>
          && IsChain(compiled[id], definitions[id].steps, table)
          && definitions[id].steps != [] && DistinctSteps(definitions[id].steps)
          && Published(definitions[id].steps, table)
        decreases left
      {
        var id :| id in left;
        var r := CompileProcedure(definitions[id].version, definitions[id].steps, table);
        if r.Failed? { return false; }
        compiled := compiled[id := r.graph];
        left := left - {id};
      }
      ready := true;
    }

    /**
     * A stopped thread continues only when this caller wins the claim; otherwise nothing changes and the
     * stored state is returned. A run that ends waiting for a person leaves a claimable cursor; one that
     * ends otherwise leaves none; one that loaded none and does not wait touches nothing.
     */
    method Run(
      id: ProcedureId, context: C, conversationId: string, threadId: string, initial: ProcedureUpdate, now: string,
      checkpoints: MemoryAopCheckpointStore?
    ) returns (result: RunResult<C>)
      requires Valid() && id in definitions && |definitions[id].steps| <= RECURSION_LIMIT
      modifies checkpoints
      ensures checkpoints == null ==>
        && result.checkpoint == None
        && (result.state, result.context)
           == RunSteps(definitions[id].steps, table, Reduce(INITIAL, Seed(id, definitions[id].version, None, initial)),
             context)
      ensures checkpoints != null ==>
        var before := old(checkpoints.State());
        var existing := LoadCursor(before, threadId);
        if existing.Some? && !ClaimOf(before, threadId).Claimed? then
          checkpoints.State() == before && result == RunResult(StateFrom(existing.value), existing, context)
        else
          var (s, c) :=
            RunSteps(definitions[id].steps, table,
              Reduce(INITIAL, Seed(id, definitions[id].version, existing, initial)), context);
          var cursor := CursorOf(id, definitions[id].version, conversationId, threadId, now, s);
          && result.state == s && result.context == c
          && result.checkpoint == (if s.terminal == Some(WaitingHuman) then Some(cursor) else None)
          && checkpoints.State() == Settled(
               if existing.Some? then ClaimCursor(before, threadId) else before, existing, threadId, cursor, s)
    {
      var definition := definitions[id];
      var graph := compiled[id];
      var existing := None;
      if checkpoints != null { existing := checkpoints.Load(threadId); }
      if existing.Some? {
        var claim := checkpoints.Claim(threadId);
        if !claim.Claimed? { return RunResult(StateFrom(existing.value), existing, context); }
      }
      var seed := Seed(id, definition.version, existing, initial);
      CompiledRunsTheSteps(graph, definition.steps, table, Reduce(INITIAL, seed), context, RECURSION_LIMIT);
      var (state, after) := Drive(graph, graph.entry, Reduce(INITIAL, seed), context, RECURSION_LIMIT).value;
      var checkpoint := None;
      if checkpoints != null {
        if state.terminal == Some(WaitingHuman) {
          checkpoint := Some(CursorOf(id, definition.version, conversationId, threadId, now, state));
          checkpoints.Save(checkpoint.value);
        } else if existing.Some? {
          checkpoints.Delete(threadId);
        }
      }
      result := RunResult(state, checkpoint, after);
    }
  }

  /** What `change` writes, or what would stand otherwise. */
  predicate Wins<T(==)>(result: T, change: Change<T>, otherwise: T) {
    match change case Set(value) => result == value case Keep => result == otherwise
  }

  /**
   * The state a run begins in: whatever the caller passed, in every field; for what it did not pass, the
   * procedure's own id and version, the loaded cursor's references, and nothing else of that cursor.
   */
  lemma CallerWins(
    id: ProcedureId, version: string, existing: Option<AopCheckpoint>, initial: ProcedureUpdate)
    ensures var s := Reduce(INITIAL, Seed(id, version, existing, initial));
      && Wins(s.procedureId, initial.procedureId, id) && Wins(s.version, initial.version, version)
      && Wins(s.refs, initial.refs, if existing.Some? then existing.value.refs else map[])
      && Wins(s.terminal, initial.terminal, None) && Wins(s.absence, initial.absence, None)
      && Wins(s.interrupt, initial.interrupt, None) && Wins(s.approvalId, initial.approvalId, None)
      && Wins(s.stepTrail, initial.stepTrail, [])
  {
    hide Reduce;
    var u := Seed(id, version, existing, initial);
    LastWriteWins(INITIAL, u);
    SeededRefs(u);
    if u.stepTrail.Set? { assert INITIAL.stepTrail + u.stepTrail.value == u.stepTrail.value; }
  }

  lemma SeededRefs(u: ProcedureUpdate)
    ensures Reduce(INITIAL, u).refs == if u.refs.Set? then u.refs.value else map[]
  {
    if u.refs.Set? { assert INITIAL.refs + u.refs.value == u.refs.value; }
  }

  /** `kept` is `refs` without what has no value and what is not declared. */
  ghost predicate DeclaredOnly(kept: Refs, refs: Refs) {
    && (forall k :: k in kept ==> k in refs && kept[k] == refs[k] && kept[k].Some? && k in REF_KEYS)
    && (forall k :: k in refs && refs[k].Some? && k in REF_KEYS ==> k in kept)
  }

  /**
   * A stopped state comes back from its cursor: everything it held, under the procedure and version that ran,
   * but for references that do not travel; and the cursor names the thread, the conversation, the last step,
   * the draft in hand and the moment.
   */
  lemma StoppedStateComesBack(
    cs: Cursors, id: ProcedureId, version: string, conversationId: string, threadId: string, now: string,
    s: ProcedureState)
    ensures var found := LoadCursor(SaveCursor(cs, CursorOf(id, version, conversationId, threadId, now, s)), threadId);
      && found.Some?
      && var cp := found.value;
         var back := StateFrom(cp);
         && back == ProcedureState(
              id, version, back.refs, s.terminal, s.absence, s.interrupt, s.approvalId, s.stepTrail)
         && DeclaredOnly(back.refs, s.refs)
         && cp.threadId == threadId && cp.conversationId == conversationId && cp.updatedAt == now
         && (s.stepTrail != [] ==> cp.step == s.stepTrail[|s.stepTrail| - 1])
         && (s.stepTrail == [] ==> cp.step == "")
         && (cp.draftId.Some? ==> "draftVersion" in s.refs && cp.draftId == s.refs["draftVersion"])
         && ("draftVersion" in s.refs ==> cp.draftId == s.refs["draftVersion"])
  {
    SanitizeKeepsTheWhitelist(CursorOf(id, version, conversationId, threadId, now, s));
  }

  /** A finished thread keeps no cursor and no claim; a waiting one is claimable again at once. */
  lemma AfterARun(cs: Cursors, threadId: string, cursor: AopCheckpoint, s: ProcedureState)
    requires LoadCursor(cs, threadId).Some? && ClaimOf(cs, threadId).Claimed?
    requires cursor.threadId == threadId && cursor.terminal == s.terminal
    ensures var cs' := Settled(ClaimCursor(cs, threadId), LoadCursor(cs, threadId), threadId, cursor, s);
      if s.terminal == Some(WaitingHuman) then
        ClaimOf(cs', threadId).Claimed? && LoadCursor(cs', threadId) == Some(Sanitize(cursor))
      else LoadCursor(cs', threadId).None? && threadId !in cs'.claimed
  {
  }
}
