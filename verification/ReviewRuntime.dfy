/**
 * The review-reply runtime: a run parks at a human decision, and a later resume records that decision
 * once, in whichever process it arrives. Approving is replayable at the backend; minting the guided
 * session is not, so what protects it is the stored outcome of a finished run.
 */
module ReviewRuntime {
  import opened Base
  import opened Claiming

  /** What a run parks on: the saved draft version a person will be asked about. */
  datatype Checkpoint = Checkpoint(
    account: string, actionRef: string, version: int, fingerprint: string, bucket: string)

  datatype Verdict = Approved | Rejected | NoReview

  datatype Outcome = Outcome(
    verdict: Verdict, actionRef: Option<string>, version: Option<int>, approvedFingerprint: Option<string>,
    approvalState: Option<string>, submissionRef: Option<string>)

  datatype Status = AwaitingApproval | Done

  datatype Phase = DraftSaved | GuidedSessionReady | RejectedPhase

  /** The sanitized record that survives a restart. */
  datatype Snapshot = Snapshot(
    threadId: string, status: Status, checkpoint: Checkpoint, phase: Phase, trail: seq<string>,
    outcome: Option<Outcome>)

  /** What the process's own checkpointer holds for a parked thread. */
  datatype Paused = Paused(checkpoint: Checkpoint, trail: seq<string>)

  /** A decision as it crosses the boundary: any field may be missing. */
  datatype RawDecision = RawDecision(approved: Option<bool>, approvedBy: Option<string>)

  /** What the backend answers to the two calls of a record step. */
  datatype Answer = Answer(approvalState: string, submissionRef: string)

  /** The backend calls a record step makes; each remembers the thread it was made for. */
  datatype Call =
    | Approve(threadId: string, account: string, actionRef: string, commandId: string, baseVersion: int)
    | PrepareGuidedSession(threadId: string, account: string, actionRef: string)

  datatype Reply =
    | AwaitingReply(checkpoint: Checkpoint, trail: seq<string>)
    | DoneReply(outcome: Option<Outcome>, trail: seq<string>)
    | ExecutionEnabled
    | MissingAccount
    | UnknownThread

  /* ---- one process, on values ---- */

  datatype Local = Local(store: map<string, Snapshot>, live: map<string, Paused>, calls: seq<Call>)

  /** Anything that does not parse is a rejection. */
  predicate ParseApproved(raw: RawDecision) {
    raw.approved == Some(true) && raw.approvedBy.Some? && raw.approvedBy.value != ""
  }

  function CommandId(threadId: string, actionRef: string): string {
    "agent:" + threadId + ":review-approve:" + actionRef
  }

  function RecordCalls(threadId: string, cp: Checkpoint, approved: bool): seq<Call> {
    if approved then
      [Approve(threadId, cp.account, cp.actionRef, CommandId(threadId, cp.actionRef), cp.version),
       PrepareGuidedSession(threadId, cp.account, cp.actionRef)]
    else []
  }

  function RecordOutcome(cp: Checkpoint, approved: bool, answer: Answer): Outcome {
    if approved then
      Outcome(
        Approved, Some(cp.actionRef), Some(cp.version), Some(cp.fingerprint), Some(answer.approvalState),
        Some(answer.submissionRef))
    else Outcome(Rejected, Some(cp.actionRef), Some(cp.version), None, None, None)
  }

  function Recorded(approved: bool): string { if approved then "recorded_approved" else "recorded_rejected" }

  function PhaseOf(o: Option<Outcome>): Phase {
    if o.Some? && o.value.verdict == Approved then GuidedSessionReady else RejectedPhase
  }

  function Finish(snap: Snapshot, outcome: Outcome, trail: seq<string>): Snapshot {
    snap.(status := Done, phase := PhaseOf(Some(outcome)), outcome := Some(outcome), trail := trail)
  }

  function StartLocal(
    l: Local, t: string, account: string, found: Option<Checkpoint>, trail: seq<string>): (Local, Reply)
  {
    if account == "" then (l, MissingAccount)
    else if found.None? then (l, DoneReply(Some(Outcome(NoReview, None, None, None, None, None)), trail))
    else
      var cp := found.value.(account := account);
      (l.(live := l.live[t := Paused(cp, trail)],
          store := l.store[t := Snapshot(t, AwaitingApproval, cp, DraftSaved, trail, None)]),
       AwaitingReply(cp, trail))
  }

  function ResumeLocal(l: Local, t: string, raw: RawDecision, answer: Answer): (Local, Reply) {
    var approved := ParseApproved(raw);
    if t in l.live then
      var rest := l.live - {t};
      if t in l.store && l.store[t].status == Done then
        (l.(live := rest), DoneReply(l.store[t].outcome, l.store[t].trail))
      else
        var outcome := RecordOutcome(l.live[t].checkpoint, approved, answer);
        var trail := l.live[t].trail + ["checkpoint_resumed", Recorded(approved)];
        (Local(if t in l.store then l.store[t := Finish(l.store[t], outcome, trail)] else l.store, rest,
               l.calls + RecordCalls(t, l.live[t].checkpoint, approved)),
         DoneReply(Some(outcome), trail))
    else if t !in l.store then (l, UnknownThread)
    else if l.store[t].status == Done then (l, DoneReply(l.store[t].outcome, l.store[t].trail))
    else
      var snap := l.store[t];
      var outcome := RecordOutcome(snap.checkpoint, approved, answer);
      var trail := snap.trail + ["resumed_after_restart", Recorded(approved)];
      (l.(store := l.store[t := Finish(snap, outcome, trail)],
        calls := l.calls + RecordCalls(t, snap.checkpoint, approved)),
       DoneReply(Some(outcome), trail))
  }

  /* ---- first the approval, then the session ---- */

  /** Two calls in a row: an approval under the thread's own command id, and the session for what was approved. */
  ghost predicate ApprovedThenMinted(first: Call, second: Call) {
    && first.Approve? && second.PrepareGuidedSession?
    && second.threadId == first.threadId && second.account == first.account && second.actionRef == first.actionRef
    && first.commandId == "agent:" + first.threadId + ":review-approve:" + first.actionRef
  }

  /** What a record step adds: nothing, or the approval of this checkpoint's version and then its session. */
  ghost predicate AddsARecord(calls: seq<Call>, after: seq<Call>, t: string, cp: Checkpoint, approved: bool) {
    if !approved then after == calls
    else
      && |after| == |calls| + 2 && after[..|calls|] == calls
      && ApprovedThenMinted(after[|calls|], after[|calls| + 1])
      && after[|calls|].threadId == t && after[|calls|].account == cp.account
      && after[|calls|].actionRef == cp.actionRef && after[|calls|].baseVersion == cp.version
  }

  lemma AddsOne(calls: seq<Call>, t: string, cp: Checkpoint, approved: bool)
    ensures AddsARecord(calls, calls + RecordCalls(t, cp, approved), t, cp, approved)
  {
  }

  /* ---- the classes ---- */

  class InMemoryReviewRunStore {
    var byThread: map<string, Snapshot>
    var claimed: set<string>

    constructor ()
      ensures byThread == map[] && claimed == {}
    {
      byThread, claimed := map[], {};
    }

    /** Saving does not give a claim back; only deleting the thread does. */
    method Save(snapshot: Snapshot)
      modifies this`byThread
      ensures byThread == old(byThread)[snapshot.threadId := snapshot]
    {
      byThread := byThread[snapshot.threadId := snapshot];
    }

    method Load(threadId: string) returns (found: Option<Snapshot>)
      ensures found == if threadId in byThread then Some(byThread[threadId]) else None
    {
      found := if threadId in byThread then Some(byThread[threadId]) else None;
    }

    method Delete(threadId: string)
      modifies this
      ensures byThread == old(byThread) - {threadId} && claimed == old(claimed) - {threadId}
    {
      byThread := byThread - {threadId};
      claimed := claimed - {threadId};
    }

    /** Granted exactly when the thread waits and was not granted before. */
    method Claim(threadId: string) returns (outcome: ClaimOutcome)
      modifies this`claimed
      ensures outcome.Claimed? <==>
        threadId in byThread && byThread[threadId].status == AwaitingApproval && threadId !in old(claimed)
      ensures outcome.AlreadyDone? <==> threadId in byThread && byThread[threadId].status == Done
      ensures claimed == if outcome.Claimed? then old(claimed) + {threadId} else old(claimed)
    {
      if threadId !in byThread { return Conflict; }
      if byThread[threadId].status == Done { return AlreadyDone; }
      if threadId in claimed { return Conflict; }
      claimed := claimed + {threadId};
      outcome := Claimed;
    }
  }

  /** The backend as this runtime sees it: a capability, and the mutating calls it has received. */
  class ReviewSpringClient {
    var executionEnabled: bool
    var replyAdapters: nat
    var calls: seq<Call>

    constructor (executionEnabled: bool, replyAdapters: nat)
      ensures calls == []
    {
      this.executionEnabled, this.replyAdapters, calls := executionEnabled, replyAdapters, [];
    }

    predicate MaySend()
      reads this
    {
      executionEnabled || replyAdapters > 0
    }

    method Invoke(call: Call)
      modifies this`calls
      ensures calls == old(calls) + [call]
    {
      calls := calls + [call];
    }
  }

  class ReviewAgentRuntime {
    const client: ReviewSpringClient
    const runStore: InMemoryReviewRunStore
    var liveThreads: set<string>
    var checkpointer: map<string, Paused>

    ghost predicate Valid()
      reads this, runStore
    {
      && liveThreads <= checkpointer.Keys
      && forall t :: t in runStore.byThread ==> runStore.byThread[t].threadId == t
    }

    ghost function State(): Local
      requires Valid()
      reads this, runStore, client
    {
      Local(runStore.byThread, map t | t in liveThreads :: checkpointer[t], client.calls)
    }

    constructor (client: ReviewSpringClient, runStore: InMemoryReviewRunStore)
      requires forall t :: t in runStore.byThread ==> runStore.byThread[t].threadId == t
      ensures this.client == client && this.runStore == runStore
      ensures Valid() && State() == Local(runStore.byThread, map[], client.calls)
    {
      this.client, this.runStore := client, runStore;
      liveThreads, checkpointer := {}, map[];
    }

    method Start(
      threadId: string, account: string, found: Option<Checkpoint>, trail: seq<string>) returns (reply: Reply)
      requires Valid()
      modifies this, runStore`byThread
      ensures Valid()
      ensures if client.MaySend() then reply == ExecutionEnabled && State() == old(State())
              else (State(), reply) == StartLocal(old(State()), threadId, account, found, trail)
      ensures client.calls == old(client.calls)
      ensures if !client.MaySend() && account != "" && found.Some? then
          var cp := Checkpoint(
            account, found.value.actionRef, found.value.version, found.value.fingerprint, found.value.bucket);
          && reply == AwaitingReply(cp, trail)
          && State().live == old(State()).live[threadId := Paused(cp, trail)]
          && State().store
            == old(State()).store[threadId := Snapshot(threadId, AwaitingApproval, cp, DraftSaved, trail, None)]
        else !reply.AwaitingReply? && State() == old(State())
    {
      if client.MaySend() { return ExecutionEnabled; }
      if account == "" { return MissingAccount; }
      if found.None? { return DoneReply(Some(Outcome(NoReview, None, None, None, None, None)), trail); }
      var cp := found.value.(account := account);
      checkpointer := checkpointer[threadId := Paused(cp, trail)];
      liveThreads := liveThreads + {threadId};
      runStore.Save(Snapshot(threadId, AwaitingApproval, cp, DraftSaved, trail, None));
      assert State().live == old(State()).live[threadId := Paused(cp, trail)];
      reply := AwaitingReply(cp, trail);
    }

    method Resume(threadId: string, decision: RawDecision, answer: Answer) returns (reply: Reply)
      requires Valid()
      modifies this, runStore`byThread, client`calls
      ensures Valid()
      ensures if old(client.MaySend()) then reply == ExecutionEnabled && State() == old(State())
              else (State(), reply) == ResumeLocal(old(State()), threadId, decision, answer)
      ensures client.calls == old(client.calls)
        || (&& decision.approved == Some(true) && decision.approvedBy.Some? && decision.approvedBy.value != ""
            && exists cp :: AddsARecord(old(client.calls), client.calls, threadId, cp, true))
    {
      if client.MaySend() { return ExecutionEnabled; }
      if threadId in liveThreads {
        var durable := runStore.Load(threadId);
        if durable.Some? && durable.value.status == Done {
          liveThreads := liveThreads - {threadId};
          assert State().live == old(State()).live - {threadId};
          return DoneReply(durable.value.outcome, durable.value.trail);
        }
        var paused := checkpointer[threadId];
        var approved := ParseApproved(decision);
        var outcome := PerformReviewRecord(threadId, paused.checkpoint, approved, answer);
        liveThreads := liveThreads - {threadId};
        var trail := paused.trail + ["checkpoint_resumed", Recorded(approved)];
        PersistDone(threadId, outcome, trail);
        assert State().live == old(State()).live - {threadId};
        reply := DoneReply(Some(outcome), trail);
      } else {
        reply := ResumeFromDurable(threadId, decision, answer);
      }
    }

    method PerformReviewRecord(
      threadId: string, cp: Checkpoint, approved: bool, answer: Answer) returns (outcome: Outcome)
      modifies client`calls
      ensures client.calls == old(client.calls) + RecordCalls(threadId, cp, approved)
      ensures outcome == RecordOutcome(cp, approved, answer)
      ensures AddsARecord(old(client.calls), client.calls, threadId, cp, approved)
      ensures outcome.actionRef == Some(cp.actionRef) && outcome.version == Some(cp.version)
      ensures if approved then
          && outcome.verdict.Approved? && outcome.approvedFingerprint == Some(cp.fingerprint)
          && outcome.approvalState == Some(answer.approvalState) && outcome.submissionRef == Some(answer.submissionRef)
        else
          && outcome.verdict.Rejected? && outcome.approvedFingerprint.None? && outcome.approvalState.None?
          && outcome.submissionRef.None?
    {
      if !approved { return Outcome(Rejected, Some(cp.actionRef), Some(cp.version), None, None, None); }
      client.Invoke(Approve(threadId, cp.account, cp.actionRef, CommandId(threadId, cp.actionRef), cp.version));
      client.Invoke(PrepareGuidedSession(threadId, cp.account, cp.actionRef));
      outcome := Outcome(
        Approved, Some(cp.actionRef), Some(cp.version), Some(cp.fingerprint), Some(answer.approvalState),
        Some(answer.submissionRef));
    }

    method ResumeFromDurable(threadId: string, decision: RawDecision, answer: Answer) returns (reply: Reply)
      requires Valid() && threadId !in liveThreads
      modifies runStore`byThread, client`calls
      ensures Valid()
      ensures (State(), reply) == ResumeLocal(old(State()), threadId, decision, answer)
      ensures client.calls == old(client.calls)
        || (ParseApproved(decision) && exists cp :: AddsARecord(old(client.calls), client.calls, threadId, cp, true))
    {
      var snap := runStore.Load(threadId);
      if snap.None? { return UnknownThread; }
      if snap.value.status == Done { return DoneReply(snap.value.outcome, snap.value.trail); }
      var approved := ParseApproved(decision);
      var outcome := PerformReviewRecord(threadId, snap.value.checkpoint, approved, answer);
      var trail := snap.value.trail + ["resumed_after_restart", Recorded(approved)];
      runStore.Save(Finish(snap.value, outcome, trail));
      reply := DoneReply(Some(outcome), trail);
    }

    method PersistDone(threadId: string, outcome: Outcome, trail: seq<string>)
      requires Valid()
      modifies runStore`byThread
      ensures Valid()
      ensures runStore.byThread == if threadId in old(runStore.byThread)
        then old(runStore.byThread)[threadId := Finish(old(runStore.byThread)[threadId], outcome, trail)]
        else old(runStore.byThread)
    {
      var prior := runStore.Load(threadId);
      if prior.None? { return; }
      runStore.Save(Finish(prior.value, outcome, trail));
    }
  }

  /* ---- any number of processes on one store ---- */

  datatype World = World(store: map<string, Snapshot>, live: map<nat, map<string, Paused>>, calls: seq<Call>)

  /**
   * One call run to completion in one process, or that process starting over. `sendable` is the backend's
   * capability then.
   */
  datatype Event =
    | Start(process: nat, sendable: bool, threadId: string, account: string, found: Option<Checkpoint>,
        trail: seq<string>)
    | Resume(process: nat, sendable: bool, threadId: string, decision: RawDecision, answer: Answer)
    | Restart(process: nat)

  const EMPTY := World(map[], map[], [])

  function LocalOf(w: World, p: nat): Local {
    Local(w.store, if p in w.live then w.live[p] else map[], w.calls)
  }

  function Lift(w: World, p: nat, l: Local): World {
    World(l.store, w.live[p := l.live], l.calls)
  }

  function React(w: World, e: Event): (World, Reply) {
    match e
    case Start(p, sendable, t, account, found, trail) =>
      if sendable then (w, ExecutionEnabled)
      else var (l, r) := StartLocal(LocalOf(w, p), t, account, found, trail); (Lift(w, p, l), r)
    case Resume(p, sendable, t, decision, answer) =>
      if sendable then (w, ExecutionEnabled)
      else var (l, r) := ResumeLocal(LocalOf(w, p), t, decision, answer); (Lift(w, p, l), r)
    case Restart(p) => (w.(live := w.live - {p}), UnknownThread)
  }

  function Apply(w: World, e: Event): World { React(w, e).0 }

  function After(w: World, events: seq<Event>): World {
    if events == [] then w else Apply(After(w, events[..|events| - 1]), events[|events| - 1])
  }

  predicate Parks(e: Event, t: string) {
    e.Start? && !e.sendable && e.threadId == t && e.account != "" && e.found.Some?
  }

  function ParkCount(events: seq<Event>, t: string): nat {
    if events == [] then 0
    else ParkCount(events[..|events| - 1], t) + if Parks(events[|events| - 1], t) then 1 else 0
  }

  function MintCount(calls: seq<Call>, t: string): nat {
    if calls == [] then 0
    else
      var last := calls[|calls| - 1];
      MintCount(calls[..|calls| - 1], t) + if last.PrepareGuidedSession? && last.threadId == t then 1 else 0
  }

  predicate Awaiting(w: World, t: string) { t in w.store && w.store[t].status == AwaitingApproval }

  ghost predicate LiveIsStored(w: World) {
    forall p, t :: p in w.live && t in w.live[p] ==> t in w.store
  }

  /* ---- the record step runs at most once per park ---- */

  lemma MintsOfRecord(calls: seq<Call>, t: string, u: string, cp: Checkpoint, approved: bool)
    ensures MintCount(calls + RecordCalls(t, cp, approved), u)
      == MintCount(calls, u) + if approved && t == u then 1 else 0
  {
    var added := RecordCalls(t, cp, approved);
    if approved {
      var all := calls + added;
      assert all[..|all| - 1] == calls + [added[0]] && (calls + [added[0]])[..|calls|] == calls;
    } else {
      assert calls + added == calls;
    }
  }

  lemma StepBudget(w: World, e: Event, t: string)
    requires LiveIsStored(w)
    ensures LiveIsStored(Apply(w, e))
    ensures var w' := Apply(w, e);
      MintCount(w'.calls, t) + (if Awaiting(w', t) then 1 else 0)
        <= MintCount(w.calls, t) + (if Awaiting(w, t) then 1 else 0) + if Parks(e, t) then 1 else 0
  {
    if e.Resume? && !e.sendable {
      var l := LocalOf(w, e.process);
      var approved := ParseApproved(e.decision);
      if e.threadId in l.live {
        MintsOfRecord(w.calls, e.threadId, t, l.live[e.threadId].checkpoint, approved);
      } else if e.threadId in w.store {
        MintsOfRecord(w.calls, e.threadId, t, w.store[e.threadId].checkpoint, approved);
      }
    }
  }

  /**
   * Main result. Over any history of starts, resumes and restarts in any number of processes, a thread's
   * guided session is minted at most once per time it was parked; and a thread still waiting has one
   * park left unspent.
   */
  lemma {:induction false} MintedAtMostOncePerPark(events: seq<Event>, t: string)
    ensures LiveIsStored(After(EMPTY, events))
    ensures var w := After(EMPTY, events);
      MintCount(w.calls, t) + (if Awaiting(w, t) then 1 else 0) <= ParkCount(events, t)
  {
    if events != [] {
      MintedAtMostOncePerPark(events[..|events| - 1], t);
      StepBudget(After(EMPTY, events[..|events| - 1]), events[|events| - 1], t);
    }
  }

  /* ---- the first outcome stands ---- */

  ghost predicate NeverParks(events: seq<Event>, t: string) {
    forall i :: 0 <= i < |events| ==> !Parks(events[i], t)
  }

  ghost predicate SameCalls(a: seq<Call>, b: seq<Call>, t: string) {
    forall c: Call :: c.threadId == t ==> (c in a <==> c in b)
  }

  /** A finished thread is finished everywhere: nothing but a new park changes it, and every resume replays it. */
  lemma DoneStays(w: World, e: Event, t: string)
    requires t in w.store && w.store[t].status == Done && !Parks(e, t)
    ensures var (w', r) := React(w, e);
      && t in w'.store && w'.store[t] == w.store[t]
      && SameCalls(w.calls, w'.calls, t) && MintCount(w'.calls, t) == MintCount(w.calls, t)
      && (e.Resume? && e.threadId == t ==> w'.calls == w.calls)
      && (e.Resume? && !e.sendable && e.threadId == t ==> r == DoneReply(w.store[t].outcome, w.store[t].trail))
  {
    if e.Resume? && !e.sendable && e.threadId != t {
      var l := LocalOf(w, e.process);
      var approved := ParseApproved(e.decision);
      if e.threadId in l.live {
        MintsOfRecord(w.calls, e.threadId, t, l.live[e.threadId].checkpoint, approved);
      } else if e.threadId in w.store {
        MintsOfRecord(w.calls, e.threadId, t, w.store[e.threadId].checkpoint, approved);
      }
    }
  }

  lemma {:induction false} DoneStaysDone(w: World, rest: seq<Event>, t: string)
    requires t in w.store && w.store[t].status == Done && NeverParks(rest, t)
    ensures var w' := After(w, rest);
      t in w'.store && w'.store[t] == w.store[t] && MintCount(w'.calls, t) == MintCount(w.calls, t)
  {
    if rest != [] {
      DoneStaysDone(w, rest[..|rest| - 1], t);
      DoneStays(After(w, rest[..|rest| - 1]), rest[|rest| - 1], t);
    }
  }

  /**
   * Main result. Once a parked thread was resumed, whatever happens afterwards short of parking it again,
   * every later resume in any process, restarted or not, returns that first outcome and trail and calls
   * nothing.
   */
  lemma FirstOutcomeStands(events: seq<Event>, first: Event, rest: seq<Event>, again: Event)
    requires first.Resume? && !first.sendable && first.threadId in After(EMPTY, events).store
    requires NeverParks(rest, first.threadId)
    requires again.Resume? && !again.sendable && again.threadId == first.threadId
    ensures var (w1, r1) := React(After(EMPTY, events), first);
      var w2 := After(w1, rest);
      var (w3, r3) := React(w2, again);
      && r1.DoneReply? && r3 == r1 && w3.calls == w2.calls
      && MintCount(w3.calls, first.threadId) == MintCount(w1.calls, first.threadId)
  {
    var (w1, r1) := React(After(EMPTY, events), first);
    DoneStaysDone(w1, rest, first.threadId);
    DoneStays(After(w1, rest), again, first.threadId);
  }

  /* ---- what is recorded is what was parked ---- */

  ghost predicate ParkedAs(events: seq<Event>, t: string, cp: Checkpoint) {
    exists i :: 0 <= i < |events| && Parks(events[i], t) && cp == events[i].found.value.(account := events[i].account)
  }

  predicate Matches(c: Call, cp: Checkpoint) {
    match c
    case Approve(t, account, ref, commandId, version) =>
      account == cp.account && ref == cp.actionRef && version == cp.version && commandId == CommandId(t, cp.actionRef)
    case PrepareGuidedSession(_, account, ref) => account == cp.account && ref == cp.actionRef
  }

  ghost predicate CallMatches(events: seq<Event>, c: Call) {
    exists cp :: ParkedAs(events, c.threadId, cp) && Matches(c, cp)
  }

  ghost predicate OnlyWhatWasParked(w: World, events: seq<Event>) {
    && (forall t :: t in w.store ==> ParkedAs(events, t, w.store[t].checkpoint))
    && (forall p, t :: p in w.live && t in w.live[p] ==> ParkedAs(events, t, w.live[p][t].checkpoint))
    && (forall c :: c in w.calls ==> CallMatches(events, c))
  }

  lemma StillParked(events: seq<Event>, e: Event, t: string, cp: Checkpoint)
    requires ParkedAs(events, t, cp)
    ensures ParkedAs(events + [e], t, cp)
  {
    var i :| 0 <= i < |events| && Parks(events[i], t) && cp == events[i].found.value.(account := events[i].account);
    assert (events + [e])[i] == events[i];
  }

  lemma StillMatches(events: seq<Event>, e: Event, c: Call)
    requires CallMatches(events, c)
    ensures CallMatches(events + [e], c)
  {
    var cp :| ParkedAs(events, c.threadId, cp) && Matches(c, cp);
    StillParked(events, e, c.threadId, cp);
  }

  lemma RecordMatches(events: seq<Event>, t: string, cp: Checkpoint, approved: bool, c: Call)
    requires ParkedAs(events, t, cp) && c in RecordCalls(t, cp, approved)
    ensures CallMatches(events, c)
  {
    assert Matches(c, cp);
  }

  lemma StepRecordsParked(w: World, events: seq<Event>, e: Event)
    requires OnlyWhatWasParked(w, events)
    ensures OnlyWhatWasParked(Apply(w, e), events + [e])
  {
    hide ParkedAs, CallMatches;
    var w' := Apply(w, e);
    var events' := events + [e];
    forall t, cp | ParkedAs(events, t, cp) ensures ParkedAs(events', t, cp) { StillParked(events, e, t, cp); }
    forall c | CallMatches(events, c) ensures CallMatches(events', c) { StillMatches(events, e, c); }
    match e {
      case Start(p, _, t, account, found, _) =>
        if Parks(e, t) { JustParked(events, e); }
      case Resume(p, sendable, t, decision, answer) =>
        if !sendable {
          var l := LocalOf(w, p);
          forall c | c in w'.calls && c !in w.calls ensures CallMatches(events', c) {
            if t in l.live {
              RecordMatches(events', t, l.live[t].checkpoint, ParseApproved(decision), c);
            } else {
              RecordMatches(events', t, w.store[t].checkpoint, ParseApproved(decision), c);
            }
          }
        }
      case Restart(_) =>
    }
  }

  lemma JustParked(events: seq<Event>, e: Event)
    requires e.Start? && Parks(e, e.threadId)
    ensures ParkedAs(events + [e], e.threadId, e.found.value.(account := e.account))
  {
    assert (events + [e])[|events|] == e;
  }

  /** Every call the backend received names an account, a review and a saved version that a run parked on. */
  lemma {:induction false} RecordsOnlyWhatWasParked(events: seq<Event>)
    ensures OnlyWhatWasParked(After(EMPTY, events), events)
  {
    if events != [] {
      var before := events[..|events| - 1];
      RecordsOnlyWhatWasParked(before);
      StepRecordsParked(After(EMPTY, before), before, events[|events| - 1]);
      assert before + [events[|events| - 1]] == events;
    }
  }

  /** A decision that is malformed, unsigned or negative never reaches the backend and never approves. */
  lemma OnlyAnApprovalCalls(w: World, e: Event)
    requires e.Resume? && !ParseApproved(e.decision)
    ensures var (w', r) := React(w, e);
      && w'.calls == w.calls
      && (r.DoneReply? && r.outcome.Some? && r.outcome.value.verdict == Approved ==>
           e.threadId in w.store && w.store[e.threadId].status == Done)
  {
  }

  predicate Says(raw: RawDecision) {
    raw.approved == Some(true) && raw.approvedBy.Some? && raw.approvedBy.value != ""
  }

  /**
   * The first resume of a parked thread, in the process that holds it or after a restart: the person's verdict
   * on the parked review and version, the trail with how it was resumed and what was recorded, and the stored
   * snapshot finished with just that.
   */
  lemma WhatIsTold(w: World, e: Event)
    requires e.Resume? && !e.sendable
    requires !(e.threadId in w.store && w.store[e.threadId].status == Done)
    requires e.threadId in LocalOf(w, e.process).live || e.threadId in w.store
    ensures var (w', r) := React(w, e);
      var t, yes := e.threadId, Says(e.decision);
      var held := t in LocalOf(w, e.process).live;
      var cp := if held then LocalOf(w, e.process).live[t].checkpoint else w.store[t].checkpoint;
      var trail := if held then LocalOf(w, e.process).live[t].trail else w.store[t].trail;
      && r.DoneReply? && r.outcome.Some?
      && r.outcome.value.verdict == (if yes then Approved else Rejected)
      && r.outcome.value.actionRef == Some(cp.actionRef) && r.outcome.value.version == Some(cp.version)
      && r.trail == trail + [
           if held then "checkpoint_resumed" else "resumed_after_restart",
           if yes then "recorded_approved" else "recorded_rejected"]
      && w'.store == (
           if t !in w.store then w.store
           else
             w.store[t := w.store[t].(
               status := Done, outcome := r.outcome, trail := r.trail,
               phase := if yes then GuidedSessionReady else RejectedPhase)])
      && forall p :: LocalOf(w', p).live == LocalOf(w, p).live - if p == e.process then {t} else {}
  {
  }

  /** A start or a resume that arrives while the backend could send. */
  predicate Blocked(e: Event) { !e.Restart? && e.sendable }

  /** The history without those. */
  function Unblocked(events: seq<Event>): seq<Event> {
    if events == [] then []
    else Unblocked(events[..|events| - 1]) + if Blocked(events[|events| - 1]) then [] else [events[|events| - 1]]
  }

  /**
   * While the backend could send, every start and every resume is refused, and any history goes on exactly as
   * if those calls had never been made: same store, same parked threads, same backend calls.
   */
  lemma {:induction false} FailsClosed(w: World, events: seq<Event>)
    ensures After(w, events) == After(w, Unblocked(events))
    ensures forall i :: 0 <= i < |events| ==>
      (React(After(w, events[..i]), events[i]).1 == ExecutionEnabled <==> Blocked(events[i]))
  {
    if events != [] {
      var n := |events| - 1;
      var before, e := events[..n], events[n];
      FailsClosed(w, before);
      BlockedStep(After(w, before), e);
      if !Blocked(e) { assert (Unblocked(before) + [e])[..|Unblocked(before)|] == Unblocked(before); }
      else { assert Unblocked(before) + [] == Unblocked(before); }
      hide React, Blocked;
      forall i | 0 <= i < |events|
        ensures React(After(w, events[..i]), events[i]).1 == ExecutionEnabled <==> Blocked(events[i])
      {
        if i < n { assert before[..i] == events[..i] && before[i] == events[i]; }
      }
    }
  }

  lemma BlockedStep(w: World, e: Event)
    ensures React(w, e).1 == ExecutionEnabled <==> Blocked(e)
    ensures Blocked(e) ==> Apply(w, e) == w
  {
  }

  /** Parked and approved: one mint more, whatever came before. */
  lemma ParkAndApprove(w: World, t: string, cp: Checkpoint, yes: RawDecision, answer: Answer)
    requires ParseApproved(yes) && cp.account != ""
    ensures var w' := Apply(Apply(w, Start(0, false, t, cp.account, Some(cp), [])), Resume(0, false, t, yes, answer));
      MintCount(w'.calls, t) == MintCount(w.calls, t) + 1
  {
    hide MintCount;
    var w1 := Apply(w, Start(0, false, t, cp.account, Some(cp), []));
    assert LocalOf(w1, 0).live[t] == Paused(cp, []);
    MintsOfRecord(w.calls, t, t, cp, true);
  }

  /** The park count is the exact bound: a thread parked again after it finished is minted again. */
  lemma ParkedAgainMintsAgain(t: string, cp: Checkpoint, yes: RawDecision, answer: Answer)
    requires ParseApproved(yes) && cp.account != ""
    ensures exists events :: ParkCount(events, t) == 2 && MintCount(After(EMPTY, events).calls, t) == 2
  {
    hide React;
    var start := Start(0, false, t, cp.account, Some(cp), []);
    var resume := Resume(0, false, t, yes, answer);
    var once := [] + [start] + [resume];
    var events := once + [start] + [resume];
    OneMore([], start, t);
    OneMore([start], resume, t);
    OneMore(once, start, t);
    OneMore(once + [start], resume, t);
    assert [] + [start] == [start];
    ParkAndApprove(EMPTY, t, cp, yes, answer);
    ParkAndApprove(After(EMPTY, once), t, cp, yes, answer);
  }

  lemma OneMore(events: seq<Event>, e: Event, t: string)
    ensures After(EMPTY, events + [e]) == Apply(After(EMPTY, events), e)
    ensures ParkCount(events + [e], t) == ParkCount(events, t) + if Parks(e, t) then 1 else 0
  {
    assert (events + [e])[..|events|] == events;
  }

  /* ---- every session has its approval ---- */

  /** Every session directly follows its approval, and every approval is directly followed by its session. */
  ghost predicate InPairs(calls: seq<Call>) {
    && (forall i :: 0 <= i < |calls| && calls[i].PrepareGuidedSession? ==>
         i > 0 && ApprovedThenMinted(calls[i - 1], calls[i]))
    && (forall i :: 0 <= i < |calls| && calls[i].Approve? ==>
         i + 1 < |calls| && ApprovedThenMinted(calls[i], calls[i + 1]))
  }

  lemma PairsMore(calls: seq<Call>, after: seq<Call>, t: string, cp: Checkpoint, approved: bool)
    requires InPairs(calls) && AddsARecord(calls, after, t, cp, approved)
    ensures InPairs(after)
  {
    hide ApprovedThenMinted;
    assert forall i :: 0 <= i < |calls| ==> after[i] == calls[i];
    if approved {
      assert after[|calls|].Approve? && after[|calls| + 1].PrepareGuidedSession? by { PairIs(calls, after, t, cp); }
    }
  }

  lemma PairIs(calls: seq<Call>, after: seq<Call>, t: string, cp: Checkpoint)
    requires AddsARecord(calls, after, t, cp, true)
    ensures after[|calls|].Approve? && after[|calls| + 1].PrepareGuidedSession?
  {
  }

  lemma StepInPairs(w: World, e: Event)
    requires InPairs(w.calls)
    ensures InPairs(Apply(w, e).calls)
  {
    hide InPairs, AddsARecord, RecordCalls, RecordOutcome, Finish;
    if e.Resume? && !e.sendable {
      var l := LocalOf(w, e.process);
      var t, approved := e.threadId, ParseApproved(e.decision);
      if t in l.live {
        var cp := l.live[t].checkpoint;
        AddsOne(w.calls, t, cp, approved);
        PairsMore(w.calls, w.calls + RecordCalls(t, cp, approved), t, cp, approved);
      } else if t in w.store {
        var cp := w.store[t].checkpoint;
        AddsOne(w.calls, t, cp, approved);
        PairsMore(w.calls, w.calls + RecordCalls(t, cp, approved), t, cp, approved);
      }
    }
  }

  lemma {:induction false} AlwaysInPairs(events: seq<Event>)
    ensures InPairs(After(EMPTY, events).calls)
  {
    hide Apply, InPairs;
    if events == [] {
      NoCallsYet();
    } else {
      AlwaysInPairs(events[..|events| - 1]);
      StepInPairs(After(EMPTY, events[..|events| - 1]), events[|events| - 1]);
    }
  }

  lemma NoCallsYet()
    ensures InPairs(EMPTY.calls)
  {
  }

  /**
   * Main result. In every history the session that is minted is that of the head approved by the call just
   * before: the same thread, account and review, and the version a run of that thread parked with. And no
   * approval is recorded without its session.
   */
  lemma MintFollowsItsApproval(events: seq<Event>, i: nat)
    requires i < |After(EMPTY, events).calls|
    ensures var calls := After(EMPTY, events).calls;
      match calls[i]
      case PrepareGuidedSession(t, account, ref) =>
        && i > 0 && calls[i - 1].Approve?
        && calls[i - 1] == Approve(
             t, account, ref, "agent:" + t + ":review-approve:" + ref, calls[i - 1].baseVersion)
        && exists cp :: ParkedAs(events, t, cp) && account == cp.account && ref == cp.actionRef
             && calls[i - 1].baseVersion == cp.version
      case Approve(t, account, ref, _, _) =>
        i + 1 < |calls| && calls[i + 1] == PrepareGuidedSession(t, account, ref)
  {
    hide ParkedAs;
    AlwaysInPairs(events);
    RecordsOnlyWhatWasParked(events);
    var calls := After(EMPTY, events).calls;
    if calls[i].PrepareGuidedSession? {
      assert calls[i - 1] in calls && CallMatches(events, calls[i - 1]);
    }
    hide After;
  }

  /* ---- what is stored is what happened ---- */

  ghost predicate Backed(calls: seq<Call>, t: string, o: Outcome) {
    o.verdict == Approved ==>
      && o.actionRef.Some? && o.version.Some?
      && exists account ::
           && Approve(t, account, o.actionRef.value, CommandId(t, o.actionRef.value), o.version.value) in calls
           && PrepareGuidedSession(t, account, o.actionRef.value) in calls
  }

  ghost predicate Truthful(calls: seq<Call>, t: string, snap: Snapshot) {
    if snap.status == Done then
      && snap.outcome.Some? && Backed(calls, t, snap.outcome.value)
      && (snap.phase == GuidedSessionReady <==> snap.outcome.value.verdict == Approved) && snap.phase != DraftSaved
    else snap.outcome.None? && snap.phase == DraftSaved
  }

  ghost predicate TruthfulStore(w: World) {
    forall t :: t in w.store ==> Truthful(w.calls, t, w.store[t])
  }

  lemma StillTruthful(calls: seq<Call>, more: seq<Call>, t: string, snap: Snapshot)
    requires Truthful(calls, t, snap)
    ensures Truthful(calls + more, t, snap)
  {
    if snap.status == Done && snap.outcome.value.verdict == Approved {
      var o := snap.outcome.value;
      var account :| Approve(t, account, o.actionRef.value, CommandId(t, o.actionRef.value), o.version.value) in calls
        && PrepareGuidedSession(t, account, o.actionRef.value) in calls;
      assert Approve(t, account, o.actionRef.value, CommandId(t, o.actionRef.value), o.version.value) in calls + more;
    }
  }

  lemma RecordIsTruthful(
    calls: seq<Call>, t: string, snap: Snapshot, cp: Checkpoint, approved: bool, answer: Answer, trail: seq<string>)
    ensures Truthful(calls + RecordCalls(t, cp, approved), t, Finish(snap, RecordOutcome(cp, approved, answer), trail))
  {
    if approved {
      var added := RecordCalls(t, cp, approved);
      assert added[0] in added && added[1] in added;
      assert Approve(t, cp.account, cp.actionRef, CommandId(t, cp.actionRef), cp.version) in calls + added;
    }
  }

  lemma StepIsTruthful(w: World, e: Event)
    requires TruthfulStore(w)
    ensures TruthfulStore(Apply(w, e))
  {
    hide Truthful, Finish, RecordOutcome, RecordCalls;
    var w' := Apply(w, e);
    match e {
      case Start(p, _, t, account, found, trail) =>
        if Parks(e, t) { ParkedIsTruthful(w.calls, t, found.value.(account := account), trail); }
      case Resume(p, sendable, t, decision, answer) =>
        if !sendable {
          var l := LocalOf(w, p);
          var approved := ParseApproved(decision);
          if t in l.live && !(t in w.store && w.store[t].status == Done) {
            var cp := l.live[t].checkpoint;
            ResumedIsTruthful(w, w', t, cp, approved, answer,
              l.live[t].trail + ["checkpoint_resumed", Recorded(approved)]);
          } else if t !in l.live && t in w.store && w.store[t].status != Done {
            var cp := w.store[t].checkpoint;
            ResumedIsTruthful(w, w', t, cp, approved, answer,
              w.store[t].trail + ["resumed_after_restart", Recorded(approved)]);
          }
        }
      case Restart(_) =>
    }
  }

  lemma ParkedIsTruthful(calls: seq<Call>, t: string, cp: Checkpoint, trail: seq<string>)
    ensures Truthful(calls, t, Snapshot(t, AwaitingApproval, cp, DraftSaved, trail, None))
  {
  }

  lemma ResumedIsTruthful(
    w: World, w': World, t: string, cp: Checkpoint, approved: bool, answer: Answer, trail: seq<string>)
    requires TruthfulStore(w) && w'.calls == w.calls + RecordCalls(t, cp, approved)
    requires w'.store ==
      if t in w.store then w.store[t := Finish(w.store[t], RecordOutcome(cp, approved, answer), trail)] else w.store
    ensures TruthfulStore(w')
  {
    hide Truthful, Finish, RecordOutcome, RecordCalls;
    forall u | u in w'.store ensures Truthful(w'.calls, u, w'.store[u]) {
      if u == t { RecordIsTruthful(w.calls, t, w.store[t], cp, approved, answer, trail); }
      else { StillTruthful(w.calls, RecordCalls(t, cp, approved), u, w.store[u]); }
    }
  }

  /**
   * In every history, a stored approval is one the backend received, with its guided session, on that very
   * version; a waiting thread has no outcome; and the stored phase says which it was.
   */
  lemma {:induction false} StoredIsTrue(events: seq<Event>)
    ensures TruthfulStore(After(EMPTY, events))
  {
    hide Apply, TruthfulStore;
    if events == [] {
      NothingStored();
    } else {
      StoredIsTrue(events[..|events| - 1]);
      StepIsTruthful(After(EMPTY, events[..|events| - 1]), events[|events| - 1]);
    }
  }

  lemma NothingStored()
    ensures TruthfulStore(EMPTY)
  {
  }
}
