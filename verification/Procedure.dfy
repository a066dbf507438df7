/** A business procedure as data, the state it keeps while it runs, and its compilation to a graph. */
module Procedure {
  import opened Base

  type StepId = s: string | s != "" witness "step"

  datatype ProcedureId =
    | OnboardChannel
    | DailyWork
    | AnswerInquiry
    | AnswerReview
    | CaptureKnowledge
    | ImproveFromIssues

  datatype HandlerName =
    | HydrateWorld | LoadObject | CheckPrecondition | Investigate | Evidence | Prepare | Revise
    | HumanWait | Resume | ReadOpportunities | ValidateApproval | Execute | Settle

  datatype TerminalKind = Answered | BlockedByPrecondition | WaitingHuman | Unknown

  datatype InterruptKind = HumanActionOnChannel | KnowledgeAnswer | SendApproval

  datatype Step = Step(id: StepId, handler: HandlerName, optional: bool)

  /* ---- state channels and their reducers ---- */

  /** Named references; a key may be present with no value. */
  type Refs = map<string, Option<string>>

  datatype ProcedureState = ProcedureState(
    procedureId: ProcedureId, version: string, refs: Refs, terminal: Option<TerminalKind>, absence: Option<string>,
    interrupt: Option<InterruptKind>, approvalId: Option<string>, stepTrail: seq<StepId>)

  /** A key an update leaves out, or writes. */
  datatype Change<+T> = Keep | Set(value: T) {
    function Over(previous: T): T { if Keep? then previous else value }
  }

  datatype ProcedureUpdate = ProcedureUpdate(
    procedureId: Change<ProcedureId>, version: Change<string>, refs: Change<Refs>,
    terminal: Change<Option<TerminalKind>>,
    absence: Change<Option<string>>, interrupt: Change<Option<InterruptKind>>, approvalId: Change<Option<string>>,
    stepTrail: Change<seq<StepId>>)

  const NO_CHANGE := ProcedureUpdate(Keep, Keep, Keep, Keep, Keep, Keep, Keep, Keep)

  const INITIAL := ProcedureState(DailyWork, "", map[], None, None, None, None, [])

  /** Last write wins, except that references merge and the trail grows. */
  function Reduce(s: ProcedureState, u: ProcedureUpdate): ProcedureState {
    ProcedureState(
      u.procedureId.Over(s.procedureId), u.version.Over(s.version),
      if u.refs.Set? then s.refs + u.refs.value else s.refs,
      u.terminal.Over(s.terminal), u.absence.Over(s.absence), u.interrupt.Over(s.interrupt),
      u.approvalId.Over(s.approvalId),
      if u.stepTrail.Set? then s.stepTrail + u.stepTrail.value else s.stepTrail)
  }

  /** What an update writes stands; what it leaves out stays; references are replaced key by key; the trail grows. */
  lemma LastWriteWins(s: ProcedureState, u: ProcedureUpdate)
    ensures var r := Reduce(s, u);
      && (if u.procedureId.Set? then r.procedureId == u.procedureId.value else r.procedureId == s.procedureId)
      && (if u.version.Set? then r.version == u.version.value else r.version == s.version)
      && (if u.terminal.Set? then r.terminal == u.terminal.value else r.terminal == s.terminal)
      && (if u.absence.Set? then r.absence == u.absence.value else r.absence == s.absence)
      && (if u.interrupt.Set? then r.interrupt == u.interrupt.value else r.interrupt == s.interrupt)
      && (if u.approvalId.Set? then r.approvalId == u.approvalId.value else r.approvalId == s.approvalId)
      && (if u.stepTrail.Set? then r.stepTrail == s.stepTrail + u.stepTrail.value else r.stepTrail == s.stepTrail)
      && (u.refs.Keep? ==> r.refs == s.refs)
      && (u.refs.Set? ==> forall k :: k in r.refs <==> k in s.refs || k in u.refs.value)
      && (u.refs.Set? ==> forall k :: k in r.refs ==>
           r.refs[k] == if k in u.refs.value then u.refs.value[k] else s.refs[k])
  {
  }

  /* ---- handlers and the compiled graph ---- */

  /** A handler reads the state and works on the run's context, which it may change. */
  type Handler<!C> = (ProcedureState, C) -> (ProcedureUpdate, C)

  datatype Table<!C> = Table(
    handlers: map<HandlerName, Handler<C>>, shouldRun: Option<(StepId, ProcedureState, C) -> bool>)

  datatype Edge = ToEnd | UnlessSettled(next: StepId)

  datatype Node<!C> = Node(step: Step, handler: Handler<C>)

  datatype Graph<!C> = Graph(
    name: string, entry: StepId, nodes: map<StepId, Node<C>>, edges: map<StepId, Edge>,
    shouldRun: Option<(StepId, ProcedureState, C) -> bool>)

  datatype CompileError = MissingHandler(step: StepId, handler: HandlerName) | DuplicateNode(step: StepId) | NoEntryStep

  datatype Compiled<!C> = Ok(graph: Graph<C>) | Failed(error: CompileError)

  predicate Skips<C>(shouldRun: Option<(StepId, ProcedureState, C) -> bool>, step: Step, s: ProcedureState, c: C) {
    step.optional && shouldRun.Some? && !shouldRun.value(step.id, s, c)
  }

  /** One node: a skipped optional step writes nothing; any other writes its update and its own id on the trail. */
  function RunNode<C>(g: Graph<C>, node: Node<C>, s: ProcedureState, c: C): (ProcedureState, C) {
    if Skips(g.shouldRun, node.step, s, c) then (Reduce(s, NO_CHANGE), c)
    else
      var (update, c') := node.handler(s, c);
      (Reduce(s, update.(stepTrail := Set([node.step.id]))), c')
  }

  /** The graph engine: run a node, follow its edge, at most `limit` nodes. */
  function Drive<C>(g: Graph<C>, at: StepId, s: ProcedureState, c: C, limit: nat): Option<(ProcedureState, C)>
    decreases limit
  {
    if limit == 0 || at !in g.nodes || at !in g.edges then None
    else
      var (s', c') := RunNode(g, g.nodes[at], s, c);
      match g.edges[at]
      case ToEnd => Some((s', c'))
      case UnlessSettled(next) => if s'.terminal.Some? then Some((s', c')) else Drive(g, next, s', c', limit - 1)
  }

  ghost predicate DistinctSteps(steps: seq<Step>) {
    forall i, j :: 0 <= i < j < |steps| ==> steps[i].id != steps[j].id
  }

  /** The chain of one definition: every step a node, each leading to the next, the last to the end. */
  ghost predicate IsChain<C(!new)>(g: Graph<C>, steps: seq<Step>, table: Table<C>) {
    && steps != [] && g.entry == steps[0].id && g.shouldRun == table.shouldRun
    && (forall i :: 0 <= i < |steps| ==>
         && steps[i].handler in table.handlers
         && steps[i].id in g.nodes && g.nodes[steps[i].id] == Node(steps[i], table.handlers[steps[i].handler])
         && steps[i].id in g.edges
         && g.edges[steps[i].id] == EdgeFrom(steps, i))
  }

  /** A step that settled the run ends it; otherwise the next step follows, and the last leads to the end. */
  function EdgeFrom(steps: seq<Step>, i: nat): Edge
    requires i < |steps|
  {
    if i + 1 < |steps| then UnlessSettled(steps[i + 1].id) else ToEnd
  }

  ghost predicate Published<C(!new)>(steps: seq<Step>, table: Table<C>) {
    forall i :: 0 <= i < |steps| ==> steps[i].handler in table.handlers
  }

  /** Succeeds exactly on a non-empty definition with distinct step ids whose handlers are all published. */
  method CompileProcedure<C(!new)>(version: string, steps: seq<Step>, table: Table<C>) returns (r: Compiled<C>)
    ensures r.Ok? <==> steps != [] && DistinctSteps(steps) && Published(steps, table)
    ensures r.Ok? ==> r.graph.name == version && IsChain(r.graph, steps, table)
    ensures r.Failed? && r.error.MissingHandler? ==>
      exists i :: 0 <= i < |steps| && r.error == MissingHandler(steps[i].id, steps[i].handler)
        && steps[i].handler !in table.handlers && Published(steps[..i], table)
  {
    for i := 0 to |steps|
      invariant Published(steps[..i], table)
    {
      if steps[i].handler !in table.handlers { return Failed(MissingHandler(steps[i].id, steps[i].handler)); }
    }
    assert steps[..|steps|] == steps;
    var nodes, duplicate := AddNodes(steps, table);
    if duplicate.Some? { return Failed(DuplicateNode(duplicate.value)); }
    if steps == [] { return Failed(NoEntryStep); }
    var edges := AddEdges(steps);
    r := Ok(Graph(version, steps[0].id, nodes, edges, table.shouldRun));
  }

  method AddNodes<C(!new)>(steps: seq<Step>, table: Table<C>)
    returns (nodes: map<StepId, Node<C>>, duplicate: Option<StepId>)
    requires Published(steps, table)
    ensures duplicate.None? <==> DistinctSteps(steps)
    ensures duplicate.None? ==> forall i :: 0 <= i < |steps| ==>
      steps[i].id in nodes && nodes[steps[i].id] == Node(steps[i], table.handlers[steps[i].handler])
  {
    nodes, duplicate := map[], None;
    for i := 0 to |steps|
      invariant forall id :: id in nodes ==> exists j :: 0 <= j < i && steps[j].id == id
      invariant forall j :: 0 <= j < i ==>
        steps[j].id in nodes && nodes[steps[j].id] == Node(steps[j], table.handlers[steps[j].handler])
      invariant forall j, k :: 0 <= j < k < i ==> steps[j].id != steps[k].id
    {
      if steps[i].id in nodes { return nodes, Some(steps[i].id); }
      nodes := nodes[steps[i].id := Node(steps[i], table.handlers[steps[i].handler])];
    }
  }

  method AddEdges(steps: seq<Step>) returns (edges: map<StepId, Edge>)
    requires DistinctSteps(steps)
    ensures forall i :: 0 <= i < |steps| ==>
      steps[i].id in edges && edges[steps[i].id] == EdgeFrom(steps, i)
  {
    edges := map[];
    for i := 0 to |steps|
      invariant forall j :: 0 <= j < i ==>
        steps[j].id in edges && edges[steps[j].id] == EdgeFrom(steps, j)
    {
      edges := edges[steps[i].id := if i + 1 < |steps| then UnlessSettled(steps[i + 1].id) else ToEnd];
    }
  }

  /* ---- the reference: a left-to-right fold that stops at the first settled state ---- */

  function RunStep<C>(step: Step, table: Table<C>, s: ProcedureState, c: C): (ProcedureState, C)
    requires step.handler in table.handlers
  {
    if Skips(table.shouldRun, step, s, c) then (s, c)
    else
      var (update, c') := table.handlers[step.handler](s, c);
      (Reduce(s, update.(stepTrail := Set([step.id]))), c')
  }

  function RunSteps<C(!new)>(steps: seq<Step>, table: Table<C>, s: ProcedureState, c: C): (ProcedureState, C)
    requires Published(steps, table)
  {
    if steps == [] then (s, c)
    else
      var (s', c') := RunStep(steps[0], table, s, c);
      if s'.terminal.Some? then (s', c') else RunSteps(steps[1..], table, s', c')
  }

  /** At one step the engine and the fold do the same and agree on whether to go on. */
  lemma DriveOne<C(!new)>(g: Graph<C>, steps: seq<Step>, table: Table<C>, i: nat, s: ProcedureState, c: C, limit: nat)
    requires IsChain(g, steps, table) && i < |steps| && limit > 0
    ensures var (s', c') := RunStep(steps[i], table, s, c);
      && RunNode(g, g.nodes[steps[i].id], s, c) == (s', c')
      && Drive(g, steps[i].id, s, c, limit)
        == if i + 1 == |steps| || s'.terminal.Some? then Some((s', c'))
           else Drive(g, steps[i + 1].id, s', c', limit - 1)
  {
    assert Reduce(s, NO_CHANGE) == s;
  }

  lemma FoldOne<C(!new)>(steps: seq<Step>, table: Table<C>, i: nat, s: ProcedureState, c: C)
    requires Published(steps, table) && i < |steps|
    ensures var (s', c') := RunStep(steps[i], table, s, c);
      RunSteps(steps[i..], table, s, c)
        == if i + 1 == |steps| || s'.terminal.Some? then (s', c') else RunSteps(steps[i + 1..], table, s', c')
  {
    hide RunStep;
    assert steps[i..][0] == steps[i] && steps[i..][1..] == steps[i + 1..];
  }

  /** Engine and fold, one step on: both are done, or both go on from the same place. */
  lemma DriveStep<C(!new)>(g: Graph<C>, steps: seq<Step>, table: Table<C>, i: nat, s: ProcedureState, c: C, limit: nat)
    returns (done: bool, s': ProcedureState, c': C)
    requires IsChain(g, steps, table) && Published(steps, table) && i < |steps| && limit > 0
    ensures i + 1 == |steps| ==> done
    ensures done ==>
      && Drive(g, steps[i].id, s, c, limit) == Some((s', c'))
      && RunSteps(steps[i..], table, s, c) == (s', c')
    ensures !done ==>
      && Drive(g, steps[i].id, s, c, limit) == Drive(g, steps[i + 1].id, s', c', limit - 1)
      && RunSteps(steps[i..], table, s, c) == RunSteps(steps[i + 1..], table, s', c')
  {
    assert steps[i].handler in table.handlers;
    hide *;
    DriveOne(g, steps, table, i, s, c, limit);
    FoldOne(steps, table, i, s, c);
    var left := RunStep(steps[i], table, s, c);
    done, s', c' := i + 1 == |steps| || left.0.terminal.Some?, left.0, left.1;
  }

  lemma {:induction false} DriveFrom<C(!new)>(
    g: Graph<C>, steps: seq<Step>, table: Table<C>, i: nat, s: ProcedureState, c: C, limit: nat)
    requires IsChain(g, steps, table) && i < |steps| && |steps| - i <= limit
    ensures Drive(g, steps[i].id, s, c, limit) == Some(RunSteps(steps[i..], table, s, c))
    decreases |steps| - i
  {
    assert Published(steps, table);
    hide *;
    var done, s', c' := DriveStep(g, steps, table, i, s, c, limit);
    if !done { DriveFrom(g, steps, table, i + 1, s', c', limit - 1); }
  }

  /** Main result. Driving a compiled definition is the fold over its steps. */
  lemma CompiledRunsTheSteps<C(!new)>(
    g: Graph<C>, steps: seq<Step>, table: Table<C>, s: ProcedureState, c: C, limit: nat)
    requires IsChain(g, steps, table) && |steps| <= limit
    ensures Drive(g, g.entry, s, c, limit) == Some(RunSteps(steps, table, s, c))
  {
    DriveFrom(g, steps, table, 0, s, c, limit);
    assert steps[0..] == steps;
  }

  /* ---- what a run did, step by step ---- */

  /** A step that ran, with what it wrote, or an optional step that was asked and declined. */
  datatype Happened<!C> =
    | Ran(step: Step, before: ProcedureState, context: C, update: ProcedureUpdate)
    | Declined(step: Step, before: ProcedureState, context: C)

  function Outcome<C>(h: Happened<C>): ProcedureState {
    if h.Declined? then h.before else Reduce(h.before, h.update.(stepTrail := Set([h.step.id])))
  }

  /** Where a step left the run's context: where it was when declined, where the handler put it otherwise. */
  function Left<C>(h: Happened<C>, table: Table<C>): C
    requires h.step.handler in table.handlers
  {
    if h.Declined? then h.context else table.handlers[h.step.handler](h.before, h.context).1
  }

  /**
   * The record of the run that began with `s` and `c`: the first steps of the definition in order, each in
   * the state and the context the last one left, the first in those the run began with.
   */
  ghost predicate IsRecord<C(!new)>(
    h: seq<Happened<C>>, steps: seq<Step>, table: Table<C>, s: ProcedureState, c: C, out: ProcedureState)
    requires Published(steps, table)
  {
    && |h| <= |steps| && AllFaithful(h, steps, table)
    && Linked(h, table, s, c)
    && UnsettledBeforeLast(h)
    && (|h| < |steps| ==> h != [] && out.terminal.Some?)
    && out == StateAfter(h, s)
  }

  /**
   * What is recorded of a step is what the step did: declined when its predicate said no, its handler's update
   * otherwise.
   */
  ghost predicate Faithful<C(!new)>(h: Happened<C>, step: Step, table: Table<C>) {
    && h.step == step && step.handler in table.handlers
    && if h.Declined? then Skips(table.shouldRun, step, h.before, h.context)
       else
         && !Skips(table.shouldRun, step, h.before, h.context)
         && h.update == table.handlers[step.handler](h.before, h.context).0
  }

  ghost predicate AllFaithful<C(!new)>(h: seq<Happened<C>>, steps: seq<Step>, table: Table<C>)
    requires |h| <= |steps|
  {
    forall i :: 0 <= i < |h| ==> Faithful(h[i], steps[i], table)
  }

  ghost predicate UnsettledBeforeLast<C(!new)>(h: seq<Happened<C>>) {
    forall i :: 0 <= i < |h| - 1 ==> Outcome(h[i]).terminal.None?
  }

  function StateAfter<C>(h: seq<Happened<C>>, s: ProcedureState): ProcedureState {
    if h == [] then s else Outcome(h[|h| - 1])
  }

  function ContextAfter<C>(h: seq<Happened<C>>, table: Table<C>, c: C): C
    requires forall i :: 0 <= i < |h| ==> h[i].step.handler in table.handlers
  {
    if h == [] then c else Left(h[|h| - 1], table)
  }

  /** Every step found the state and the context the steps before it left. */
  ghost predicate Linked<C(!new)>(h: seq<Happened<C>>, table: Table<C>, s: ProcedureState, c: C) {
    && (forall i :: 0 <= i < |h| ==> h[i].step.handler in table.handlers)
    && (forall i :: 0 <= i < |h| ==>
         h[i].before == StateAfter(h[..i], s) && h[i].context == ContextAfter(h[..i], table, c))
  }

  lemma LinkedCons<C(!new)>(first: Happened<C>, rest: seq<Happened<C>>, table: Table<C>, s: ProcedureState, c: C)
    requires first.before == s && first.context == c && first.step.handler in table.handlers
    requires Linked(rest, table, Outcome(first), Left(first, table))
    ensures Linked([first] + rest, table, s, c)
    ensures StateAfter([first] + rest, s) == StateAfter(rest, Outcome(first))
  {
    hide Outcome, Left;
    var h := [first] + rest;
    forall i | 0 <= i < |h|
      ensures h[i].step.handler in table.handlers
      ensures h[i].before == StateAfter(h[..i], s) && h[i].context == ContextAfter(h[..i], table, c)
    {
      if 0 < i {
        assert h[i] == rest[i - 1] && h[..i] == [first] + rest[..i - 1];
        assert rest[i - 1].before == StateAfter(rest[..i - 1], Outcome(first));
        assert rest[i - 1].context == ContextAfter(rest[..i - 1], table, Left(first, table));
      }
    }
  }

  /** The record of a run that went one step and then on. */
  lemma RecordCons<C(!new)>(
    first: Happened<C>, rest: seq<Happened<C>>, steps: seq<Step>, table: Table<C>, s: ProcedureState, c: C,
    out: ProcedureState)
    requires steps != [] && Published(steps, table)
    requires first.before == s && first.context == c && Faithful(first, steps[0], table)
      && Outcome(first).terminal.None?
    requires IsRecord(rest, steps[1..], table, Outcome(first), Left(first, table), out)
    ensures IsRecord([first] + rest, steps, table, s, c, out)
  {
    LinkedCons(first, rest, table, s, c);
    FaithfulCons(first, rest, steps, table);
    UnsettledCons(first, rest);
    hide AllFaithful, UnsettledBeforeLast, Linked, Outcome, StateAfter, Left;
  }

  lemma FaithfulCons<C(!new)>(first: Happened<C>, rest: seq<Happened<C>>, steps: seq<Step>, table: Table<C>)
    requires |rest| < |steps| && Faithful(first, steps[0], table) && AllFaithful(rest, steps[1..], table)
    ensures AllFaithful([first] + rest, steps, table)
  {
    hide Faithful;
    var h := [first] + rest;
    forall i | 0 <= i < |h| ensures Faithful(h[i], steps[i], table) {
      if 0 < i { assert h[i] == rest[i - 1] && steps[i] == steps[1..][i - 1]; }
    }
  }

  lemma UnsettledCons<C(!new)>(first: Happened<C>, rest: seq<Happened<C>>)
    requires Outcome(first).terminal.None? && UnsettledBeforeLast(rest)
    ensures UnsettledBeforeLast([first] + rest)
  {
    hide Outcome;
    var h := [first] + rest;
    forall i | 0 <= i < |h| - 1 ensures Outcome(h[i]).terminal.None? {
      if 0 < i { assert h[i] == rest[i - 1]; }
    }
  }

  /** A run of one step is its record. */
  lemma RecordOne<C(!new)>(first: Happened<C>, steps: seq<Step>, table: Table<C>, s: ProcedureState, c: C)
    requires steps != [] && Published(steps, table)
    requires first.before == s && first.context == c && Faithful(first, steps[0], table)
    requires |steps| == 1 || Outcome(first).terminal.Some?
    ensures IsRecord([first], steps, table, s, c, Outcome(first))
  {
    assert [first][..0] == [];
  }

  /** What a step does in a state and a context. */
  function Happen<C>(step: Step, table: Table<C>, s: ProcedureState, c: C): Happened<C>
    requires step.handler in table.handlers
  {
    if Skips(table.shouldRun, step, s, c) then Declined(step, s, c)
    else Ran(step, s, c, table.handlers[step.handler](s, c).0)
  }

  lemma HappensAsRun<C(!new)>(step: Step, table: Table<C>, s: ProcedureState, c: C)
    requires step.handler in table.handlers
    ensures var h := Happen(step, table, s, c);
      && h.before == s && h.context == c && Faithful(h, step, table)
      && (Outcome(h), Left(h, table)) == RunStep(step, table, s, c)
  {
  }

  lemma ContextCons<C(!new)>(first: Happened<C>, rest: seq<Happened<C>>, table: Table<C>, c: C)
    requires first.step.handler in table.handlers && forall i :: 0 <= i < |rest| ==>
      rest[i].step.handler in table.handlers
    ensures forall i :: 0 <= i < |[first] + rest| ==> ([first] + rest)[i].step.handler in table.handlers
    ensures ContextAfter([first] + rest, table, c) == ContextAfter(rest, table, Left(first, table))
  {
    hide Left;
  }

  /** Every run has a record, of its own states and contexts. */
  lemma {:induction false} RunHasRecord<C(!new)>(steps: seq<Step>, table: Table<C>, s: ProcedureState, c: C)
    returns (h: seq<Happened<C>>)
    requires Published(steps, table)
    ensures IsRecord(h, steps, table, s, c, RunSteps(steps, table, s, c).0)
    ensures ContextAfter(h, table, c) == RunSteps(steps, table, s, c).1
  {
    if steps == [] {
      h := [];
    } else {
      var (s', c') := RunStep(steps[0], table, s, c);
      var first := Happen(steps[0], table, s, c);
      HappensAsRun(steps[0], table, s, c);
      hide Happen, RunStep, Faithful, Outcome, Left, Linked;
      if s'.terminal.Some? {
        RecordOne(first, steps, table, s, c);
        h := [first];
      } else {
        var rest := RunHasRecord(steps[1..], table, s', c');
        RecordCons(first, rest, steps, table, s, c, RunSteps(steps[1..], table, s', c').0);
        LinkedHandlers(rest, table, s', c');
        ContextCons(first, rest, table, c);
        hide IsRecord, ContextAfter;
        h := [first] + rest;
      }
    }
  }

  lemma LinkedHandlers<C(!new)>(h: seq<Happened<C>>, table: Table<C>, s: ProcedureState, c: C)
    requires Linked(h, table, s, c)
    ensures forall i :: 0 <= i < |h| ==> h[i].step.handler in table.handlers
  {
  }

  function RanIds<C>(h: seq<Happened<C>>): seq<StepId> {
    if h == [] then []
    else RanIds(h[..|h| - 1]) + if h[|h| - 1].Ran? then [h[|h| - 1].step.id] else []
  }

  /** The references after a record: every executed update merged over the ones before it, left to right. */
  function MergedRefs<C>(start: Refs, h: seq<Happened<C>>): Refs {
    if h == [] then start
    else
      var before := MergedRefs(start, h[..|h| - 1]);
      if h[|h| - 1].Ran? && h[|h| - 1].update.refs.Set? then before + h[|h| - 1].update.refs.value else before
  }

  /** The state and the context in which a run met its step `i`. */
  ghost predicate Met<C(!new)>(
    h: seq<Happened<C>>, table: Table<C>, s: ProcedureState, c: C, i: nat, before: ProcedureState, context: C)
    requires i < |h| && forall k :: 0 <= k < |h| ==> h[k].step.handler in table.handlers
  {
    before == StateAfter(h[..i], s) && context == ContextAfter(h[..i], table, c)
  }

  /**
   * What any record says about its run: the trail is the ids of the steps that ran, in definition order;
   * among the steps the run came to, one is missing exactly when it is optional and its predicate said no in
   * the state and the context of that moment; the rest are missing only because a step settled the run; and
   * the references are the left-to-right merge of what the executed steps wrote.
   */
  lemma RecordReads<C(!new)>(
    h: seq<Happened<C>>, steps: seq<Step>, table: Table<C>, s: ProcedureState, c: C, out: ProcedureState)
    requires Published(steps, table) && IsRecord(h, steps, table, s, c, out)
    ensures out.stepTrail == s.stepTrail + RanIds(h)
    ensures out.refs == MergedRefs(s.refs, h)
    ensures forall i, before, context :: 0 <= i < |h| && Met(h, table, s, c, i, before, context) ==>
      (h[i].Declined? <==>
        steps[i].optional && table.shouldRun.Some? && !table.shouldRun.value(steps[i].id, before, context))
    ensures |h| == |steps| || out.terminal.Some?
  {
    TrailAndRefs(h, table, s, c, |h|);
    assert h[..|h|] == h;
    forall i, before, context | 0 <= i < |h| && Met(h, table, s, c, i, before, context)
      ensures h[i].Declined? <==>
        steps[i].optional && table.shouldRun.Some? && !table.shouldRun.value(steps[i].id, before, context)
    {
      assert Faithful(h[i], steps[i], table) && h[i].before == before && h[i].context == context;
    }
  }

  /** Trail and references at every moment of a linked record. */
  lemma {:induction false} TrailAndRefs<C(!new)>(h: seq<Happened<C>>, table: Table<C>, s: ProcedureState, c: C, n: nat)
    requires n <= |h| && Linked(h, table, s, c)
    ensures StateAfter(h[..n], s).stepTrail == s.stepTrail + RanIds(h[..n])
    ensures StateAfter(h[..n], s).refs == MergedRefs(s.refs, h[..n])
    decreases n
  {
    if n > 0 {
      hide *;
      LinkedAt(h, table, s, c, n - 1);
      TrailAndRefs(h, table, s, c, n - 1);
      OneMoreStep(h, n, s);
    }
  }

  lemma LinkedAt<C(!new)>(h: seq<Happened<C>>, table: Table<C>, s: ProcedureState, c: C, i: nat)
    requires Linked(h, table, s, c) && i < |h|
    ensures h[i].before == StateAfter(h[..i], s)
  {
    hide StateAfter;
  }

  lemma OneMoreStep<C(!new)>(h: seq<Happened<C>>, n: nat, s: ProcedureState)
    requires 0 < n <= |h| && h[n - 1].before == StateAfter(h[..n - 1], s)
    requires StateAfter(h[..n - 1], s).stepTrail == s.stepTrail + RanIds(h[..n - 1])
    requires StateAfter(h[..n - 1], s).refs == MergedRefs(s.refs, h[..n - 1])
    ensures StateAfter(h[..n], s).stepTrail == s.stepTrail + RanIds(h[..n])
    ensures StateAfter(h[..n], s).refs == MergedRefs(s.refs, h[..n])
  {
    assert h[..n][..n - 1] == h[..n - 1] && h[..n][n - 1] == h[n - 1];
  }
}
